/** The browser client's authentication state (`DatabaseClient`): the
    current user and session, the session kept in local storage, and the
    registered auth-state listeners. Listeners are identified by a token;
    each call the client makes to a listener is recorded, in order, as a
    `Notification`. Responses of the backend are inputs. */
module AuthClient {
  import opened Js

  datatype ClientUser = ClientUser(id: string, email: string, fullName: string, phone: Option<string>, role: string)

  datatype Session = Session(accessToken: string, user: ClientUser, expiresAt: int)

  /** What local storage holds under 'auth_session': a session, or text that
      does not parse as one. */
  datatype StoredEntry = StoredSession(session: Session) | Unparsable

  /** A registered callback, by identity. */
  type Listener = nat

  /** One call `listener(event, session)`. */
  datatype Notification = Notification(listener: Listener, event: string, session: Option<Session>)

  /** The session the constructor restores: a parsable stored session that
      has not expired (`expires_at > now`, in milliseconds). */
  function Restored(stored: Option<StoredEntry>, now: int): (r: Option<Session>)
    ensures r.Some? <==> stored.Some? && stored.value.StoredSession? && stored.value.session.expiresAt > now
    ensures r.Some? ==> stored == Some(StoredSession(r.value))
  {
    if stored.Some? && stored.value.StoredSession? && stored.value.session.expiresAt > now
    then Some(stored.value.session)
    else None
  }

  /** `listeners.splice(listeners.indexOf(x), 1)` when `x` is present. */
  function RemoveFirst(s: seq<Listener>, x: Listener): (r: seq<Listener>)
  {
    if s == [] then []
    else if s[0] == x then s[1..]
    else [s[0]] + RemoveFirst(s[1..], x)
  }

  /** Unsubscribing an absent callback changes nothing. */
  lemma {:induction false} RemoveFirstAbsent(s: seq<Listener>, x: Listener)
    requires x !in s
    ensures RemoveFirst(s, x) == s
  {
    if s != [] {
      assert s[1..] == s[1..];
      RemoveFirstAbsent(s[1..], x);
      assert s == [s[0]] + s[1..];
    }
  }

  /** Unsubscribing drops exactly one registration of the callback, if
      there is one, and no other. */
  lemma {:induction false} RemoveFirstCount(s: seq<Listener>, x: Listener)
    ensures multiset(RemoveFirst(s, x)) == multiset(s) - multiset{x}
  {
    if s != [] {
      var rest := s[1..];
      assert s == [s[0]] + rest;
      assert multiset(s) == multiset{s[0]} + multiset(rest);
      if s[0] != x {
        RemoveFirstCount(rest, x);
        assert RemoveFirst(s, x) == [s[0]] + RemoveFirst(rest, x);
        assert multiset(RemoveFirst(s, x)) == multiset{s[0]} + (multiset(rest) - multiset{x});
      }
    }
  }

  /** A second unsubscribe of a callback registered once changes nothing. */
  lemma SecondUnsubscribeIsNoOp(s: seq<Listener>, x: Listener)
    requires multiset(s)[x] <= 1
    ensures RemoveFirst(RemoveFirst(s, x), x) == RemoveFirst(s, x)
  {
    RemoveFirstCount(s, x);
    var r := RemoveFirst(s, x);
    assert x !in multiset(r);
    RemoveFirstAbsent(r, x);
  }

  /** The calls of a `forEach` over the listeners with one event. */
  function Broadcast(listeners: seq<Listener>, event: string, session: Option<Session>): (r: seq<Notification>)
    ensures |r| == |listeners|
    ensures forall i :: 0 <= i < |r| ==> r[i] == Notification(listeners[i], event, session)
  {
    if listeners == [] then []
    else Broadcast(listeners[..|listeners| - 1], event, session)
         + [Notification(listeners[|listeners| - 1], event, session)]
  }

  /** What the sign-in endpoint answers: the user and the session when it
      succeeds (a response without `session` leaves it `None`), the `error`
      text of a refusal, or the message of a network failure. */
  datatype SigninResponse =
    | SigninAccepted(user: ClientUser, session: Option<Session>)
    | SigninRefused(error: Option<string>)
    | SigninUnreachable(message: string)

  datatype UpdateResponse =
    | UpdateAccepted(user: ClientUser)
    | UpdateRefused(error: Option<string>)
    | UpdateUnreachable(message: string)

  /** The `{ data, error }` the auth calls resolve to: the user (and session),
      or the error message. */
  datatype AuthOutcome =
    | AuthData(user: Option<ClientUser>, session: Option<Session>)
    | AuthError(message: string)

  /** `data.error || fallback`. */
  function ErrorText(error: Option<string>, fallback: string): string
  {
    if error.Some? && error.value != "" then error.value else fallback
  }

  class DatabaseClient {
    var currentUser: Option<ClientUser>
    var currentSession: Option<Session>
    var authListeners: seq<Listener>
    /** Local storage under 'auth_session'. */
    var stored: Option<StoredEntry>
    /** Every listener call so far, in order. */
    var notifications: seq<Notification>

    /** Restores an unexpired stored session; an expired or unparsable entry
        is removed. */
    constructor(storage: Option<StoredEntry>, now: int)
      ensures currentSession == Restored(storage, now)
      ensures currentUser == if currentSession.Some? then Some(currentSession.value.user) else None
      ensures stored == if currentSession.Some? then storage else None
      ensures authListeners == [] && notifications == []
    {
      currentUser := None;
      currentSession := None;
      authListeners := [];
      notifications := [];
      stored := storage;
      if storage.Some? {
        match storage.value
        case StoredSession(session) =>
          if session.expiresAt > now {
            currentSession := Some(session);
            currentUser := Some(session.user);
          } else {
            stored := None;
          }
        case Unparsable =>
          stored := None;
      }
    }

    /** `getSession`. */
    function GetSession(): (s: Option<Session>)
      reads this
      ensures s == currentSession
    {
      currentSession
    }

    /** `onAuthStateChange`: registers the callback after the others and
        calls it at once with 'INITIAL_SESSION' and the current session. */
    method OnAuthStateChange(callback: Listener)
      modifies this
      ensures authListeners == old(authListeners) + [callback]
      ensures notifications == old(notifications) + [Notification(callback, "INITIAL_SESSION", currentSession)]
      ensures currentUser == old(currentUser) && currentSession == old(currentSession) && stored == old(stored)
    {
      authListeners := authListeners + [callback];
      notifications := notifications + [Notification(callback, "INITIAL_SESSION", currentSession)];
    }

    /** The `unsubscribe` handed back for `callback`. */
    method Unsubscribe(callback: Listener)
      modifies this
      ensures authListeners == RemoveFirst(old(authListeners), callback)
      ensures notifications == old(notifications)
      ensures currentUser == old(currentUser) && currentSession == old(currentSession) && stored == old(stored)
    {
      var index := IndexOf(authListeners, callback);
      if index > -1 {
        RemoveFirstSplice(authListeners, callback, index);
        authListeners := authListeners[..index] + authListeners[index + 1..];
      } else {
        RemoveFirstAbsent(authListeners, callback);
      }
    }

    /** Calls every listener, in registration order, with one event. */
    method Notify(event: string, session: Option<Session>)
      modifies this
      ensures notifications == old(notifications) + Broadcast(authListeners, event, session)
      ensures authListeners == old(authListeners)
      ensures currentUser == old(currentUser) && currentSession == old(currentSession) && stored == old(stored)
    {
      var i := 0;
      while i < |authListeners|
        invariant 0 <= i <= |authListeners|
        invariant notifications == old(notifications) + Broadcast(authListeners[..i], event, session)
        invariant authListeners == old(authListeners)
        invariant currentUser == old(currentUser) && currentSession == old(currentSession) && stored == old(stored)
      {
        assert authListeners[..i + 1][..i] == authListeners[..i];
        notifications := notifications + [Notification(authListeners[i], event, session)];
        i := i + 1;
      }
      assert authListeners[..i] == authListeners;
    }

    /** `signInWithPassword`, given the endpoint's answer: on success the user
        and session are set, the session is stored and every listener hears
        'SIGNED_IN'; otherwise nothing changes. */
    method SignIn(response: SigninResponse) returns (r: AuthOutcome)
      modifies this
      ensures response.SigninAccepted? ==>
                && currentUser == Some(response.user) && currentSession == response.session
                && stored == Some(if response.session.Some? then StoredSession(response.session.value) else Unparsable)
                && notifications == old(notifications) + Broadcast(authListeners, "SIGNED_IN", response.session)
                && r == AuthData(Some(response.user), response.session)
      ensures response.SigninRefused? ==> r == AuthError(ErrorText(response.error, "Invalid credentials"))
      ensures response.SigninUnreachable? ==> r == AuthError(response.message)
      ensures !response.SigninAccepted? ==>
                && currentUser == old(currentUser) && currentSession == old(currentSession)
                && stored == old(stored) && notifications == old(notifications)
      ensures authListeners == old(authListeners)
    {
      match response
      case SigninAccepted(user, session) =>
        currentUser := Some(user);
        currentSession := session;
        // `JSON.stringify(undefined)` is stored as the text "undefined"
        stored := Some(if session.Some? then StoredSession(session.value) else Unparsable);
        Notify("SIGNED_IN", session);
        r := AuthData(Some(user), session);
      case SigninRefused(error) =>
        r := AuthError(ErrorText(error, "Invalid credentials"));
      case SigninUnreachable(message) =>
        r := AuthError(message);
    }

    /** `signOut`: no user, no session, no stored session, and every listener
        hears 'SIGNED_OUT' with null. */
    method SignOut()
      modifies this
      ensures currentUser == None && currentSession == None && stored == None
      ensures notifications == old(notifications) + Broadcast(authListeners, "SIGNED_OUT", None)
      ensures authListeners == old(authListeners)
    {
      currentUser := None;
      currentSession := None;
      stored := None;
      Notify("SIGNED_OUT", None);
    }

    /** `updateUser`, given the endpoint's answer: without a current user it
        fails with 'Not authenticated' before any request and changes
        nothing; on success the user is replaced, in the session too, and the
        session is stored again. */
    method UpdateUser(response: UpdateResponse) returns (r: AuthOutcome)
      modifies this
      ensures old(currentUser).None? ==> r == AuthError("Not authenticated")
      ensures old(currentUser).None? || !response.UpdateAccepted? ==>
                && currentUser == old(currentUser) && currentSession == old(currentSession)
                && stored == old(stored)
      ensures old(currentUser).Some? && response.UpdateRefused? ==> r == AuthError(ErrorText(response.error, "Update failed"))
      ensures old(currentUser).Some? && response.UpdateAccepted? ==>
                && currentUser == Some(response.user)
                && r == AuthData(Some(response.user), None)
                && (old(currentSession).None? ==> currentSession == None && stored == old(stored))
                && (old(currentSession).Some? ==>
                      currentSession == Some(old(currentSession).value.(user := response.user))
                      && stored == Some(StoredSession(currentSession.value)))
      ensures authListeners == old(authListeners) && notifications == old(notifications)
    {
      if currentUser.None? {
        return AuthError("Not authenticated");
      }
      match response
      case UpdateAccepted(user) =>
        currentUser := Some(user);
        if currentSession.Some? {
          currentSession := Some(currentSession.value.(user := user));
          stored := Some(StoredSession(currentSession.value));
        }
        r := AuthData(Some(user), None);
      case UpdateRefused(error) =>
        r := AuthError(ErrorText(error, "Update failed"));
      case UpdateUnreachable(message) =>
        r := AuthError(message);
    }
  }

  /** `indexOf`: the first position of `x`, or -1. */
  method IndexOf(s: seq<Listener>, x: Listener) returns (index: int)
    ensures -1 <= index < |s|
    ensures index == -1 <==> x !in s
    ensures index >= 0 ==> s[index] == x && x !in s[..index]
  {
    index := 0;
    while index < |s|
      invariant 0 <= index <= |s|
      invariant x !in s[..index]
    {
      if s[index] == x {
        return;
      }
      assert s[..index + 1] == s[..index] + [s[index]];
      index := index + 1;
    }
    assert s[..index] == s;
    index := -1;
  }

  /** Splicing out the first occurrence is `RemoveFirst`. */
  lemma {:induction false} RemoveFirstSplice(s: seq<Listener>, x: Listener, i: nat)
    requires i < |s| && s[i] == x && x !in s[..i]
    ensures RemoveFirst(s, x) == s[..i] + s[i + 1..]
  {
    if i > 0 {
      assert s[1..][..i - 1] == s[1..i];
      assert x !in s[1..][..i - 1];
      RemoveFirstSplice(s[1..], x, i - 1);
      assert s[0] != x by { assert s[..i][0] == s[0]; }
      assert s[..i] == [s[0]] + s[1..][..i - 1];
      assert s[i + 1..] == s[1..][i - 1 + 1..];
    }
  }

  /** The sign-in endpoint of this repository answers with a user and a
      token but no `session`: the client then holds no session, and the
      entry it stores is dropped by the next restore. */
  method SessionlessSignIn(user: ClientUser, now: int) returns (restored: Option<Session>)
    ensures restored == None
  {
    var client := new DatabaseClient(None, now);
    var outcome := client.SignIn(SigninAccepted(user, None));
    assert client.currentSession == None;
    var reloaded := new DatabaseClient(client.stored, now);
    restored := reloaded.GetSession();
  }
}
