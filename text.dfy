/** Small optional-value wrapper for the search filters, which may each be absent. */
module Wrappers {
  datatype Option<+T> = None | Some(value: T)
}

/**
 * The string operations the shopping tools rely on: Python's `str.lower()`
 * (restricted to ASCII letters), the substring test `needle in hay`, and the
 * decimal rendering of an integer used inside f-strings.
 */
module Text {

  /** `str.lower()` on one character: ASCII upper-case letters become lower-case. */
  function LowerChar(c: char): char
  {
    if 'A' <= c <= 'Z' then (c as int - 'A' as int + 'a' as int) as char else c
  }

  /** `str.lower()` on a whole string, character by character. */
  function Lower(s: string): (r: string)
    ensures |r| == |s|
  {
    seq(|s|, i requires 0 <= i < |s| => LowerChar(s[i]))
  }

  /** `needle` occurs in `hay` starting at index `k`. */
  ghost predicate OccursAt(needle: string, hay: string, k: nat)
  {
    k + |needle| <= |hay| && hay[k..k + |needle|] == needle
  }

  /** The reference meaning of Python's `needle in hay` on strings. */
  ghost predicate IsSubstring(needle: string, hay: string)
  {
    exists k: nat :: OccursAt(needle, hay, k)
  }

  /** Executable substring test: try every starting position from the left. */
  function Contains(hay: string, needle: string): bool
    decreases |hay|
  {
    if |hay| < |needle| then false
    else if hay[..|needle|] == needle then true
    else if hay == [] then false
    else Contains(hay[1..], needle)
  }

  /** An occurrence in the tail of `hay` is an occurrence in `hay` one position later. */
  lemma OccursInTail(needle: string, hay: string, k: nat)
    requires hay != []
    ensures OccursAt(needle, hay[1..], k) <==> OccursAt(needle, hay, k + 1)
  {
    if k + 1 + |needle| <= |hay| {
      assert hay[1..][k..k + |needle|] == hay[k + 1..k + 1 + |needle|];
    }
  }

  /** The executable test decides exactly the reference substring relation. */
  lemma {:induction false} ContainsIsSubstring(hay: string, needle: string)
    ensures Contains(hay, needle) <==> IsSubstring(needle, hay)
    decreases |hay|
  {
    if |hay| < |needle| {
      assert forall k: nat :: !OccursAt(needle, hay, k);
    } else if hay[..|needle|] == needle {
      assert OccursAt(needle, hay, 0);
    } else if hay == [] {
      assert false;
    } else {
      ContainsIsSubstring(hay[1..], needle);
      if IsSubstring(needle, hay[1..]) {
        var k: nat :| OccursAt(needle, hay[1..], k);
        OccursInTail(needle, hay, k);
      }
      if IsSubstring(needle, hay) {
        var k: nat :| OccursAt(needle, hay, k);
        assert k != 0;
        OccursInTail(needle, hay, k - 1);
      }
    }
  }

  /** The value of a string of decimal digits, most significant first. */
  ghost function DigitsValue(t: string): int
  {
    if t == [] then 0 else DigitsValue(t[..|t| - 1]) * 10 + (t[|t| - 1] as int - '0' as int)
  }

  /** A non-empty run of decimal digits with no leading zero (except "0" itself). */
  ghost predicate CanonicalDigits(t: string)
  {
    && |t| > 0
    && (forall i :: 0 <= i < |t| ==> '0' <= t[i] <= '9')
    && (t[0] == '0' ==> |t| == 1)
  }

  /** `t` is how Python's `str()` writes the integer `n`. */
  ghost predicate Renders(t: string, n: int)
  {
    if n >= 0 then CanonicalDigits(t) && DigitsValue(t) == n
    else |t| >= 2 && t[0] == '-' && CanonicalDigits(t[1..]) && DigitsValue(t[1..]) == -n
  }

  /** Decimal digits of a natural number, most significant first. */
  function NatToString(n: nat): string
  {
    var digit := ['0' + (n % 10) as char];
    if n < 10 then digit else NatToString(n / 10) + digit
  }

  /** The digits are the canonical decimal form of `n`. */
  lemma {:induction false} NatToStringRenders(n: nat)
    ensures Renders(NatToString(n), n)
    ensures NatToString(n)[0] == '0' <==> n == 0
  {
    var digit := ['0' + (n % 10) as char];
    if n >= 10 {
      var prefix := NatToString(n / 10);
      NatToStringRenders(n / 10);
      assert NatToString(n) == prefix + digit;
      assert (prefix + digit)[..|prefix|] == prefix;
      assert DigitsValue(prefix + digit) == DigitsValue(prefix) * 10 + n % 10;
    } else {
      assert DigitsValue(digit) == DigitsValue([]) * 10 + n;
    }
  }

  /** How an f-string renders a Python `int`: a leading `-` for negatives. */
  function IntToString(n: int): (r: string)
    ensures Renders(r, n)
  {
    if n < 0 then
      NatToStringRenders(-n);
      assert ("-" + NatToString(-n))[1..] == NatToString(-n);
      "-" + NatToString(-n)
    else
      NatToStringRenders(n);
      NatToString(n)
  }
}
