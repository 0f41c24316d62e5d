/** The Express server's sign-up and sign-in rules over its user collection,
    modelled as a store of users keyed by e-mail address. Missing fields are
    the empty string (`!email` is true for both `undefined` and `""`). */
module AuthStore {
  import opened Js

  /** A stored user document. `id` stands for the database-assigned `_id`. */
  datatype User = User(
    id: nat,
    email: string,
    password: string,
    fullName: string,
    phone: Option<string>,
    role: string)

  /** The user object sent back to the client: everything but the password. */
  datatype PublicUser = PublicUser(id: nat, email: string, fullName: string, phone: Option<string>, role: string)

  function Public(u: User): PublicUser
  {
    PublicUser(u.id, u.email, u.fullName, u.phone, u.role)
  }

  datatype SignupResult =
    | Created(user: PublicUser)               // 201 'User created'
    | SignupRejected(status: int, error: string)

  datatype SigninResult =
    | SignedIn(user: PublicUser, token: string)
    | SigninRejected(status: int, error: string)

  /** The role every new user gets by default. */
  const DefaultRole: string := "user"

  /** The development token handed out on sign-in. */
  function Token(id: nat): (t: string)
    ensures |t| > 10 && t[..10] == "dev-token-"
  {
    "dev-token-" + NumText(id)
  }

  /** Different users get different tokens: the token names the user id. */
  lemma TokenNamesUser(a: nat, b: nat)
    requires Token(a) == Token(b)
    ensures a == b
  {
    assert Token(a)[10..] == NatText(a);
    assert Token(b)[10..] == NatText(b);
    NatTextRoundTrip(a);
    NatTextRoundTrip(b);
  }

  class UserStore {
    /** The collection, keyed by e-mail (the schema makes e-mail unique). */
    var users: map<string, User>
    /** The next identifier the database would assign. */
    var nextId: nat

    /** Every user is filed under its own e-mail, and identifiers are distinct
        and below `nextId`. */
    ghost predicate Valid()
      reads this
    {
      && (forall e :: e in users ==> users[e].email == e && users[e].id < nextId)
      && (forall e1, e2 :: e1 in users && e2 in users && e1 != e2 ==> users[e1].id != users[e2].id)
    }

    constructor()
      ensures Valid() && users == map[]
    {
      users := map[];
      nextId := 0;
    }

    /** `POST /api/auth/signup`. */
    method Signup(email: string, password: string, fullName: string, phone: string) returns (r: SignupResult)
      requires Valid()
      modifies this
      ensures Valid()
      ensures (email == "" || password == "" || fullName == "") ==>
                r == SignupRejected(400, "Email, password and full name are required")
                && users == old(users) && nextId == old(nextId)
      ensures email != "" && password != "" && fullName != "" && email in old(users) ==>
                r == SignupRejected(400, "User already exists")
                && users == old(users) && nextId == old(nextId)
      ensures email != "" && password != "" && fullName != "" && email !in old(users) ==>
                var u := User(old(nextId), email, password, fullName,
                              if phone == "" then None else Some(phone), DefaultRole);
                && users == old(users)[email := u]
                && r == Created(Public(u))
                && Signin(email, password) == SignedIn(Public(u), Token(u.id))
    {
      if email == "" || password == "" || fullName == "" {
        return SignupRejected(400, "Email, password and full name are required");
      }
      if email in users {
        return SignupRejected(400, "User already exists");
      }
      var u := User(nextId, email, password, fullName, if phone == "" then None else Some(phone), DefaultRole);
      users := users[email := u];
      nextId := nextId + 1;
      r := Created(Public(u));
    }

    /** `POST /api/auth/signin`; it only reads the store. */
    function Signin(email: string, password: string): (r: SigninResult)
      reads this
      ensures r.SignedIn? <==>
                email != "" && password != "" && email in users && users[email].password == password
      ensures r.SignedIn? ==> r.user == Public(users[email]) && r.token == Token(users[email].id)
      ensures (email == "" || password == "") ==> r == SigninRejected(400, "Email and password are required")
      ensures email != "" && password != "" && !r.SignedIn? ==> r == SigninRejected(401, "Invalid credentials")
    {
      if email == "" || password == "" then
        SigninRejected(400, "Email and password are required")
      else if email !in users || users[email].password != password then
        SigninRejected(401, "Invalid credentials")
      else
        SignedIn(Public(users[email]), Token(users[email].id))
    }

    /** In a valid store a token identifies the account: two successful
        sign-ins with the same token are sign-ins of the same user. */
    lemma TokenIdentifiesAccount(e1: string, p1: string, e2: string, p2: string)
      requires Valid()
      requires Signin(e1, p1).SignedIn? && Signin(e2, p2).SignedIn?
      requires Signin(e1, p1).token == Signin(e2, p2).token
      ensures e1 == e2
    {
      TokenNamesUser(users[e1].id, users[e2].id);
    }
  }
}
