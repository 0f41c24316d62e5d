/** The few JavaScript value operations the application's rules depend on:
    optional values, `String.prototype.includes`, `toLowerCase`, `trim`,
    `String(n)` for integers, and `split('@')[0]`. */
module Js {

  /** A value that may be `undefined`/`null`. */
  datatype Option<T> = None | Some(value: T)

  /** `s.includes(p)`: `p` occurs in `s` at some offset. */
  predicate Includes(s: string, p: string)
    decreases |s|
  {
    |p| <= |s| && (s[..|p|] == p || Includes(s[1..], p))
  }

  /** An occurrence at a known offset is found by `Includes`. */
  lemma {:induction false} IncludesAt(s: string, p: string, i: nat)
    requires i + |p| <= |s| && s[i..i + |p|] == p
    ensures Includes(s, p)
    decreases i
  {
    if i > 0 {
      assert s[1..][i - 1..i - 1 + |p|] == s[i..i + |p|];
      IncludesAt(s[1..], p, i - 1);
    } else {
      assert s[..|p|] == s[0..0 + |p|];
    }
  }

  /** A string placed inside a longer one is included in it. */
  lemma IncludesInfix(a: string, p: string, b: string)
    ensures Includes(a + p + b, p)
  {
    assert (a + p + b)[|a|..|a| + |p|] == p;
    IncludesAt(a + p + b, p, |a|);
  }

  /** A string is included in any string it starts. */
  lemma IncludesStart(p: string, b: string)
    ensures Includes(p + b, p)
  {
    assert (p + b)[0..|p|] == p;
    IncludesAt(p + b, p, 0);
  }

  /** Whatever a string includes, it still includes with text put before it. */
  lemma {:induction false} IncludesAfter(a: string, s: string, p: string)
    requires Includes(s, p)
    ensures Includes(a + s, p)
    decreases |a|
  {
    if a != [] {
      assert (a + s)[1..] == a[1..] + s;
      IncludesAfter(a[1..], s, p);
      assert |p| <= |s|;
      assert Includes((a + s)[1..], p);
    } else {
      assert a + s == s;
    }
  }

  /** The concatenation of a list of pieces, `pieces.join('')`. */
  function Concat(pieces: seq<string>): (r: string)
  {
    if pieces == [] then [] else pieces[0] + Concat(pieces[1..])
  }

  /** Every piece is included in the concatenation. */
  lemma {:induction false} ConcatIncludes(pieces: seq<string>, k: nat)
    requires k < |pieces|
    ensures Includes(Concat(pieces), pieces[k])
  {
    if k == 0 {
      IncludesStart(pieces[0], Concat(pieces[1..]));
    } else {
      ConcatIncludes(pieces[1..], k - 1);
      IncludesAfter(pieces[0], Concat(pieces[1..]), pieces[k]);
    }
  }

  /** A word with a letter absent from the message is not in it. */
  lemma {:induction false} AbsentLetter(s: string, p: string, k: nat)
    requires k < |p| && p[k] !in s
    ensures !Includes(s, p)
    decreases |s|
  {
    if |p| <= |s| {
      assert s[..|p|][k] == s[k];
      AbsentLetter(s[1..], p, k);
    }
  }

  /** `toLowerCase` on one character; only ASCII letters are mapped. */
  function LowerChar(c: char): (r: char)
    ensures 'A' <= c <= 'Z' ==> 'a' <= r <= 'z'
    ensures !('A' <= c <= 'Z') ==> r == c
  {
    if 'A' <= c <= 'Z' then (c as int + 32) as char else c
  }

  /** `s.toLowerCase()` for ASCII letters. */
  function ToLower(s: string): (r: string)
    ensures |r| == |s|
    ensures forall i :: 0 <= i < |s| ==> r[i] == LowerChar(s[i])
  {
    seq(|s|, i requires 0 <= i < |s| => LowerChar(s[i]))
  }

  /** A string with no upper-case ASCII letter. */
  predicate IsLower(s: string)
  {
    forall i :: 0 <= i < |s| ==> !('A' <= s[i] <= 'Z')
  }

  /** Lower-casing leaves a string that lower-casing no longer changes. */
  lemma ToLowerIdempotent(s: string)
    ensures IsLower(ToLower(s)) && ToLower(ToLower(s)) == ToLower(s)
  {
  }

  /** Decimal digit of a number in 0..9. */
  function Digit(d: int): (c: char)
    requires 0 <= d < 10
    ensures '0' <= c <= '9'
  {
    "0123456789"[d]
  }

  /** Decimal text of a natural number, most significant digit first. */
  function NatText(n: nat): (r: string)
    ensures |r| >= 1
    ensures forall i :: 0 <= i < |r| ==> '0' <= r[i] <= '9'
    decreases n
  {
    if n < 10 then [Digit(n)] else NatText(n / 10) + [Digit(n % 10)]
  }

  /** `String(n)` for an integer `n`. */
  function NumText(n: int): (r: string)
    ensures |r| >= 1
    ensures n < 0 <==> r[0] == '-'
  {
    if n < 0 then "-" + NatText(-n) else NatText(n)
  }

  /** The value of a string of decimal digits (inverse of `NatText`). */
  function DigitsValue(s: string): nat
    requires forall i :: 0 <= i < |s| ==> '0' <= s[i] <= '9'
  {
    if s == [] then 0 else DigitsValue(s[..|s| - 1]) * 10 + (s[|s| - 1] as int - '0' as int)
  }

  /** `NatText` is read back to the number it renders, so distinct numbers have distinct texts. */
  lemma {:induction false} NatTextRoundTrip(n: nat)
    ensures DigitsValue(NatText(n)) == n
    decreases n
  {
    if n >= 10 {
      NatTextRoundTrip(n / 10);
      var s := NatText(n);
      assert s[..|s| - 1] == NatText(n / 10);
    }
  }

  /** The characters `String.prototype.trim` removes: ECMAScript's white
      space (tab, vertical tab, form feed, the byte-order mark and the space
      separators) and its line terminators. */
  predicate IsSpace(c: char)
  {
    || c == '\t' || c == '\n' || c == '\U{000B}' || c == '\U{000C}' || c == '\r' || c == ' '
    || c == '\U{00A0}' || c == '\U{1680}' || ('\U{2000}' <= c <= '\U{200A}')
    || c == '\U{2028}' || c == '\U{2029}' || c == '\U{202F}' || c == '\U{205F}'
    || c == '\U{3000}' || c == '\U{FEFF}'
  }

  /** `s` with leading whitespace removed. */
  function TrimStart(s: string): (r: string)
    ensures |r| <= |s| && r == s[|s| - |r|..]
    ensures r != [] ==> !IsSpace(r[0])
    ensures forall i :: 0 <= i < |s| - |r| ==> IsSpace(s[i])
  {
    if s != [] && IsSpace(s[0]) then TrimStart(s[1..]) else s
  }

  /** `s` with trailing whitespace removed. */
  function TrimEnd(s: string): (r: string)
    ensures |r| <= |s| && r == s[..|r|]
    ensures r != [] ==> !IsSpace(r[|r| - 1])
    ensures forall i :: |r| <= i < |s| ==> IsSpace(s[i])
  {
    if s != [] && IsSpace(s[|s| - 1]) then TrimEnd(s[..|s| - 1]) else s
  }

  /** `s.trim()`. */
  function Trim(s: string): string
  {
    TrimEnd(TrimStart(s))
  }

  /** A string that is all whitespace (or empty). */
  predicate IsBlank(s: string)
  {
    forall i :: 0 <= i < |s| ==> IsSpace(s[i])
  }

  /** `s.trim()` is empty exactly when `s` is all whitespace; otherwise it is
      a slice of `s` that neither starts nor ends with whitespace. */
  lemma TrimProperties(s: string)
    ensures Trim(s) == [] <==> IsBlank(s)
    ensures Trim(s) != [] ==> !IsSpace(Trim(s)[0]) && !IsSpace(Trim(s)[|Trim(s)| - 1])
    ensures exists i, j :: 0 <= i <= j <= |s| && Trim(s) == s[i..j]
  {
    var t := TrimStart(s);
    var k := |s| - |t|;
    var r := TrimEnd(t);
    assert r == s[k..k + |r|];
  }

  /** The text before the first `c` in `s` (all of `s` when `c` does not occur). */
  function Before(s: string, c: char): (r: string)
    ensures |r| <= |s| && r == s[..|r|]
    ensures c !in r
    ensures |r| < |s| ==> s[|r|] == c
  {
    if s == [] || s[0] == c then [] else [s[0]] + Before(s[1..], c)
  }

  /** `email.split('@')[0]`. */
  function LocalPart(email: string): (r: string)
    ensures |r| <= |email| && r == email[..|r|] && '@' !in r
    ensures |r| < |email| ==> email[|r|] == '@'
  {
    Before(email, '@')
  }
}
