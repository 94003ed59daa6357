/** Small building blocks the rest of the model shares: an optional value,
    order-preserving subsequences, and the few JavaScript string and number
    built-ins the application leans on (toLowerCase, includes, startsWith,
    parseInt/parseFloat on digit strings). */
module Basics {

  datatype Option<T> = None | Some(value: T)

  /** A file picked in an `<input type="file">`; only its identity matters. */
  datatype File = File(name: string)

  /** `a` is `b` with some elements left out and the rest kept in order
      (what `Array.prototype.filter` produces). */
  predicate IsSubsequence<T(==)>(a: seq<T>, b: seq<T>)
    decreases |b|
  {
    if b == [] then a == []
    else (a != [] && a[0] == b[0] && IsSubsequence(a[1..], b[1..])) || IsSubsequence(a, b[1..])
  }

  lemma {:induction false} SubsequenceMembers<T>(a: seq<T>, b: seq<T>)
    requires IsSubsequence(a, b)
    ensures |a| <= |b|
    ensures forall x :: x in a ==> x in b
    decreases |b|
  {
    if b != [] {
      if a != [] && a[0] == b[0] && IsSubsequence(a[1..], b[1..]) {
        SubsequenceMembers(a[1..], b[1..]);
        assert a == [a[0]] + a[1..] && b == [b[0]] + b[1..];
      } else {
        SubsequenceMembers(a, b[1..]);
      }
    }
  }

  // ---------------------------------------------------------------- text

  /** `String.prototype.toLowerCase`, on the ASCII letters. */
  function LowerChar(c: char): char
  {
    if 'A' <= c <= 'Z' then (c as int + 32) as char else c
  }

  function Lower(s: string): string
  {
    seq(|s|, i requires 0 <= i < |s| => LowerChar(s[i]))
  }

  /** Lower-casing twice is lower-casing once. */
  lemma LowerIdempotent(s: string)
    ensures Lower(Lower(s)) == Lower(s)
  {
    assert forall i :: 0 <= i < |s| ==> Lower(Lower(s))[i] == Lower(s)[i];
  }

  /** `s.startsWith(p)`. */
  predicate StartsWith(s: string, p: string)
  {
    |p| <= |s| && s[..|p|] == p
  }

  /** `s.includes(t)`: `t` occurs somewhere in `s`. */
  predicate Contains(s: string, t: string)
    decreases |s|
  {
    StartsWith(s, t) || (s != [] && Contains(s[1..], t))
  }

  /** Every string includes the empty string. */
  lemma ContainsEmpty(s: string)
    ensures Contains(s, "")
  {
    assert StartsWith(s, "");
  }

  /** `includes` is true exactly when some window of `s` equals `t`: an
      occurrence at `k` makes it true, and ContainsWitness gives the converse. */
  lemma {:induction false} ContainsAt(s: string, t: string, k: nat)
    requires k + |t| <= |s| && s[k..k + |t|] == t
    ensures Contains(s, t)
    decreases k
  {
    if k == 0 {
      assert s[..|t|] == t;
    } else {
      assert s[1..][k - 1..k - 1 + |t|] == s[k..k + |t|];
      ContainsAt(s[1..], t, k - 1);
    }
  }

  /** The window of `s` at `k` is `t`. */
  predicate OccursAt(s: string, t: string, k: nat)
  {
    k + |t| <= |s| && s[k..k + |t|] == t
  }

  /** When `includes` holds, `t` occurs at some position of `s`. */
  lemma {:induction false} ContainsWitness(s: string, t: string)
    ensures Contains(s, t) ==> exists k: nat :: OccursAt(s, t, k)
    decreases |s|
  {
    if StartsWith(s, t) {
      assert OccursAt(s, t, 0);
    } else if s != [] && Contains(s[1..], t) {
      ContainsWitness(s[1..], t);
      var k: nat :| OccursAt(s[1..], t, k);
      assert s[k + 1..k + 1 + |t|] == s[1..][k..k + |t|];
      assert OccursAt(s, t, k + 1);
    }
  }

  // -------------------------------------------------------------- numbers

  predicate IsDigit(c: char)
  {
    '0' <= c <= '9'
  }

  /** Length of the run of ASCII digits at the start of `s`. */
  function DigitPrefixLength(s: string): (n: nat)
    ensures n <= |s|
    ensures forall i :: 0 <= i < n ==> IsDigit(s[i])
    ensures n < |s| ==> !IsDigit(s[n])
  {
    if s != [] && IsDigit(s[0]) then 1 + DigitPrefixLength(s[1..]) else 0
  }

  /** Decimal value of a string of ASCII digits. */
  function DigitsValue(d: string): nat
    requires forall i :: 0 <= i < |d| ==> IsDigit(d[i])
  {
    if d == [] then 0
    else
      assert IsDigit(d[|d| - 1]);
      DigitsValue(d[..|d| - 1]) * 10 + (d[|d| - 1] as int - '0' as int)
  }

  /** `parseFloat(s)` / `parseInt(s)` on a string that starts with ASCII
      digits: the value of that run; `None` (NaN) when it does not start with one. */
  function ParseLeadingNumber(s: string): (r: Option<nat>)
    ensures r.None? <==> (s == [] || !IsDigit(s[0]))
  {
    var n := DigitPrefixLength(s);
    if n == 0 then None else Some(DigitsValue(s[..n]))
  }

  /** The digit run of `d + t` is `d` when `t` does not go on with a digit. */
  lemma {:induction false} DigitPrefixOfRun(d: string, t: string)
    requires forall i :: 0 <= i < |d| ==> IsDigit(d[i])
    requires t == [] || !IsDigit(t[0])
    ensures DigitPrefixLength(d + t) == |d|
  {
    if d != [] {
      assert (d + t)[1..] == d[1..] + t;
      DigitPrefixOfRun(d[1..], t);
    } else {
      assert d + t == t;
    }
  }

  /** Digits followed by text that does not start with a digit parse to the
      decimal value of those digits, and `|| 0` keeps that value. */
  lemma ParseDigitsThen(d: string, t: string)
    requires d != [] && forall i :: 0 <= i < |d| ==> IsDigit(d[i])
    requires t == [] || !IsDigit(t[0])
    ensures ParseLeadingNumber(d + t) == Some(DigitsValue(d))
    ensures NumberOrZero(d + t) == DigitsValue(d)
  {
    DigitPrefixOfRun(d, t);
    assert (d + t)[..|d|] == d;
  }

  /** `parseFloat(s) || 0`: NaN (and 0) give 0. */
  function NumberOrZero(s: string): (r: nat)
    ensures (s == [] || !IsDigit(s[0])) ==> r == 0
  {
    match ParseLeadingNumber(s)
    case None => 0
    case Some(v) => v
  }
}
