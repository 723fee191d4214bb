/**
  Decimal digits and the digit filter that every entry point of the card-number
  engine applies to free-form input before looking at it.

  Only the ASCII digits '0'..'9' are digits here. The filter stands in for
  StringHelper.getDigitsOnlyString, which is not part of this model: it keeps
  the digit characters of its input, in order, and drops everything else.
*/
module Digits {

  predicate IsDigit(c: char) {
    '0' <= c <= '9'
  }

  predicate AllDigits(s: seq<char>) {
    forall i :: 0 <= i < |s| ==> IsDigit(s[i])
  }

  /** The numeric value of a digit character, `c - '0'` in the source. */
  function DigitValue(c: char): (v: nat)
    requires IsDigit(c)
    ensures v < 10
  {
    (c as int) - ('0' as int)
  }

  /** Keeps the digit characters of `s` in their original order. */
  function DigitsOnly(s: seq<char>): (r: seq<char>)
    ensures AllDigits(r)
    ensures |r| <= |s|
    ensures AllDigits(s) ==> r == s
  {
    if s == [] then []
    else (if IsDigit(s[0]) then [s[0]] else []) + DigitsOnly(s[1..])
  }

  /** Filtering distributes over concatenation. */
  lemma {:induction false} DigitsOnlyAppend(a: seq<char>, b: seq<char>)
    ensures DigitsOnly(a + b) == DigitsOnly(a) + DigitsOnly(b)
    decreases |a|
  {
    if a == [] {
      assert a + b == b;
    } else {
      assert (a + b)[1..] == a[1..] + b;
      DigitsOnlyAppend(a[1..], b);
    }
  }

  /** A string with no digit in it filters to nothing. */
  lemma {:induction false} DigitsOnlyOfPunctuation(p: seq<char>)
    requires forall i :: 0 <= i < |p| ==> !IsDigit(p[i])
    ensures DigitsOnly(p) == []
    decreases |p|
  {
    if p != [] {
      DigitsOnlyOfPunctuation(p[1..]);
    }
  }

  /**
    Inserting separators, blanks or any other non-digit text anywhere in the
    input does not change the digits the engine sees.
  */
  lemma DigitsOnlyIgnoresPunctuation(a: seq<char>, p: seq<char>, b: seq<char>)
    requires forall i :: 0 <= i < |p| ==> !IsDigit(p[i])
    ensures DigitsOnly(a + p + b) == DigitsOnly(a + b)
  {
    DigitsOnlyAppend(a + p, b);
    DigitsOnlyAppend(a, p);
    DigitsOnlyAppend(a, b);
    DigitsOnlyOfPunctuation(p);
  }

  /** Filtering twice is filtering once. */
  lemma DigitsOnlyIdempotent(s: seq<char>)
    ensures DigitsOnly(DigitsOnly(s)) == DigitsOnly(s)
  {
  }
}
