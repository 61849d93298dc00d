/**
 * The few JavaScript string operations the application relies on:
 * `toLowerCase`, `includes`, `endsWith` and the decimal rendering of a
 * non-negative integer (as in a template literal holding `Date.now()`).
 */
module JsString {

  predicate IsUpperAscii(c: char) { 'A' <= c <= 'Z' }

  /** `toLowerCase` on one character, for the ASCII letters. */
  function LowerChar(c: char): (r: char)
    ensures IsUpperAscii(c) ==> r as int == c as int + 32
    ensures !IsUpperAscii(c) ==> r == c
  {
    if IsUpperAscii(c) then (c as int + 32) as char else c
  }

  /** `s.toLowerCase()`: every ASCII capital becomes its small letter. */
  function ToLower(s: string): (r: string)
    ensures |r| == |s|
    ensures forall i :: 0 <= i < |s| ==> r[i] == LowerChar(s[i])
  {
    if s == [] then [] else [LowerChar(s[0])] + ToLower(s[1..])
  }

  /** Lowering twice is lowering once. */
  lemma {:induction false} ToLowerIdempotent(s: string)
    ensures ToLower(ToLower(s)) == ToLower(s)
  {
    var l := ToLower(s);
    forall i | 0 <= i < |s| ensures ToLower(l)[i] == l[i] {
      assert !IsUpperAscii(l[i]);
    }
  }

  /** `s.includes(q)`: `q` occurs in `s` at some position. */
  predicate Includes(s: string, q: string)
    decreases |s|
  {
    q <= s || (|s| > 0 && Includes(s[1..], q))
  }

  /** `q` occurs in `s` starting at position `i`. */
  predicate OccursAt(s: string, q: string, i: int)
  {
    0 <= i && i + |q| <= |s| && s[i..i + |q|] == q
  }

  /** `Includes` holds exactly when there is a position where `q` occurs. */
  lemma {:induction false} IncludesIff(s: string, q: string)
    ensures Includes(s, q) <==> exists i :: OccursAt(s, q, i)
    decreases |s|
  {
    if q <= s {
      assert OccursAt(s, q, 0);
    } else if |s| > 0 {
      IncludesIff(s[1..], q);
      if Includes(s[1..], q) {
        var i :| OccursAt(s[1..], q, i);
        assert s[1..][i..i + |q|] == s[i + 1..i + 1 + |q|];
        assert OccursAt(s, q, i + 1);
      }
      if exists i :: OccursAt(s, q, i) {
        var i :| OccursAt(s, q, i);
        assert i != 0;
        assert s[1..][i - 1..i - 1 + |q|] == s[i..i + |q|];
        assert OccursAt(s[1..], q, i - 1);
      }
    }
  }

  /** Every string includes the empty string. */
  lemma IncludesEmpty(s: string)
    ensures Includes(s, "")
  {
  }

  /** `s.endsWith(suffix)`. */
  predicate EndsWith(s: string, suffix: string)
  {
    |suffix| <= |s| && s[|s| - |suffix|..] == suffix
  }

  predicate IsDigit(c: char) { '0' as int <= c as int <= '9' as int }

  function DigitChar(d: nat): (c: char)
    requires d < 10
    ensures IsDigit(c) && c as int - '0' as int == d
  {
    ('0' as int + d) as char
  }

  /** The number a string of decimal digits denotes. */
  function DigitsValue(s: string): nat
    requires forall i :: 0 <= i < |s| ==> IsDigit(s[i])
  {
    if s == [] then 0
    else
      assert IsDigit(s[|s| - 1]);
      10 * DigitsValue(s[..|s| - 1]) + (s[|s| - 1] as int - '0' as int)
  }

  /** The decimal rendering of `n`, as in `${n}`. */
  function NatToString(n: nat): (r: string)
    ensures |r| > 0
    ensures forall i :: 0 <= i < |r| ==> IsDigit(r[i])
    ensures r[0] == '0' ==> n == 0 && r == "0"
  {
    if n < 10 then [DigitChar(n)] else NatToString(n / 10) + [DigitChar(n % 10)]
  }

  /** Reading back the rendering of `n` gives `n`. */
  lemma {:induction false} NatToStringRoundTrip(n: nat)
    ensures DigitsValue(NatToString(n)) == n
  {
    if n >= 10 {
      var r := NatToString(n);
      assert r[..|r| - 1] == NatToString(n / 10);
      NatToStringRoundTrip(n / 10);
    }
  }

  /** Distinct numbers are rendered as distinct strings. */
  lemma NatToStringDistinct(m: nat, n: nat)
    requires m != n
    ensures NatToString(m) != NatToString(n)
  {
    NatToStringRoundTrip(m);
    NatToStringRoundTrip(n);
  }
}
