/**
  The Luhn (mod 10) checksum of ISO/IEC 7812-1, Annex B, as computed by
  CreditCardNumber.passesLuhnChecksum.

  Positions are counted from the rightmost character, which is position 0.
  Digits at even positions count as they are; digits at odd positions are
  doubled and, when the double exceeds 9, reduced by 9. The number passes
  when the total is a multiple of 10, so the empty string passes. Any
  character that is not a digit makes the check fail.
*/
module Luhn {

  import opened Digits

  /**
    The fixed lookup table of the source: row 0 leaves a digit unchanged,
    row 1 holds its doubled-and-reduced value.
  */
  const Sums: seq<seq<nat>> := [[0, 1, 2, 3, 4, 5, 6, 7, 8, 9], [0, 2, 4, 6, 8, 1, 3, 5, 7, 9]]

  /** The table row chosen by the parity of `even`, at column `d`: `sums[even & 1][d]`. */
  function Lookup(even: nat, d: int): nat
    requires 0 <= d < 10
  {
    Sums[even % 2][d]
  }

  /** Table entry for the digit `c` seen when the position counter is `even`. */
  ghost function TableEntry(even: nat, c: char): nat
    requires IsDigit(c)
  {
    Lookup(even, DigitValue(c))
  }

  /**
    The arithmetic reading of one digit's share of the checksum, written
    without the table: the rule of the standard.
  */
  ghost function Contribution(d: nat, pos: nat): int {
    if pos % 2 == 0 then d
    else if d < 5 then 2 * d
    else 2 * d - 9
  }

  /**
    Reference checksum of the first `n` characters of `s`: the sum of their
    contributions, the character at index `k` sitting at position
    `|s| - 1 - k` counted from the right end of `s`.
  */
  ghost function PrefixSum(s: seq<char>, n: nat): int
    requires AllDigits(s) && n <= |s|
    decreases n
  {
    if n == 0 then 0
    else PrefixSum(s, n - 1) + Contribution(DigitValue(s[n - 1]), |s| - n)
  }

  /** The checksum of the standard: every digit of `s` weighted by its position from the right. */
  ghost function ReferenceSum(s: seq<char>): int
    requires AllDigits(s)
  {
    PrefixSum(s, |s|)
  }

  /** The verdict the standard assigns to `s`. */
  ghost predicate LuhnValid(s: seq<char>) {
    AllDigits(s) && ReferenceSum(s) % 10 == 0
  }

  /**
    Sum of the table entries of the characters of `s` from index `i` on;
    this is what the source's right-to-left loop has accumulated once it
    has consumed those characters, its position counter then being
    `|s| - i`.
  */
  ghost function TableSuffixSum(s: seq<char>, i: nat): nat
    requires AllDigits(s) && i <= |s|
    decreases |s| - i
  {
    if i == |s| then 0
    else TableEntry(|s| - 1 - i, s[i]) + TableSuffixSum(s, i + 1)
  }

  /** The table of the source agrees with the doubling rule of the standard. */
  lemma TableIsDoubling(even: nat, c: char)
    requires IsDigit(c)
    ensures TableEntry(even, c) == Contribution(DigitValue(c), even)
  {
  }

  /**
    Whatever split point the walk has reached, the table entries consumed so
    far and the reference contributions of the rest add up to the reference
    checksum.
  */
  lemma {:induction false} TableSuffixSumSplit(s: seq<char>, i: nat)
    requires AllDigits(s) && i <= |s|
    ensures PrefixSum(s, i) + TableSuffixSum(s, i) == ReferenceSum(s)
    decreases |s| - i
  {
    if i < |s| {
      TableSuffixSumSplit(s, i + 1);
      TableIsDoubling(|s| - 1 - i, s[i]);
    }
  }

  /**
    passesLuhnChecksum: walks the string from its last character to its
    first, rejecting at the first non-digit and otherwise adding the table
    entry chosen by the parity of a running position counter.
  */
  method PassesLuhnChecksum(number: seq<char>) returns (ok: bool)
    ensures ok <==> LuhnValid(number)
  {
    var even: nat := 0;
    var sum: nat := 0;
    var i := |number|;
    while i > 0
      invariant 0 <= i <= |number|
      invariant even == |number| - i
      invariant forall k :: i <= k < |number| ==> IsDigit(number[k])
      invariant AllDigits(number) ==> sum == TableSuffixSum(number, i)
    {
      var c := number[i - 1];
      if !IsDigit(c) {
        return false;
      }
      sum := sum + Lookup(even, DigitValue(c));
      even := even + 1;
      i := i - 1;
    }
    TableSuffixSumSplit(number, 0);
    ok := sum % 10 == 0;
  }

  /** The empty string passes: its checksum is 0. */
  lemma EmptyPasses()
    ensures LuhnValid([])
  {
  }

  /** A string holding a non-digit anywhere never passes. */
  lemma NonDigitFails(a: seq<char>, c: char, b: seq<char>)
    requires !IsDigit(c)
    ensures !LuhnValid(a + [c] + b)
  {
    assert (a + [c] + b)[|a|] == c;
  }

  /** Changing the digit at index `j` changes the checksum by the difference of the two contributions. */
  lemma {:induction false} PrefixSumOneChange(s: seq<char>, t: seq<char>, j: nat, n: nat)
    requires AllDigits(s) && AllDigits(t) && |s| == |t| && j < n <= |s|
    requires forall i :: 0 <= i < |s| && i != j ==> s[i] == t[i]
    ensures PrefixSum(s, n) - PrefixSum(t, n)
            == Contribution(DigitValue(s[j]), |s| - 1 - j) - Contribution(DigitValue(t[j]), |s| - 1 - j)
    decreases n
  {
    if n - 1 == j {
      PrefixSumAgree(s, t, j);
    } else {
      PrefixSumOneChange(s, t, j, n - 1);
    }
  }

  /** Strings of one length that agree on their first `n` characters agree on the sum over them. */
  lemma {:induction false} PrefixSumAgree(s: seq<char>, t: seq<char>, n: nat)
    requires AllDigits(s) && AllDigits(t) && |s| == |t| && n <= |s|
    requires forall i :: 0 <= i < n ==> s[i] == t[i]
    ensures PrefixSum(s, n) == PrefixSum(t, n)
    decreases n
  {
    if n > 0 {
      PrefixSumAgree(s, t, n - 1);
    }
  }

  /** Two digits with the same contribution at the same position are the same digit. */
  lemma ContributionInjective(a: nat, b: nat, pos: nat)
    requires a < 10 && b < 10 && a != b
    ensures Contribution(a, pos) != Contribution(b, pos)
    ensures -10 < Contribution(a, pos) - Contribution(b, pos) < 10
  {
  }

  /**
    What the checksum is for: mistyping a single digit of a valid number
    always yields a number that fails.
  */
  lemma SingleDigitErrorDetected(s: seq<char>, t: seq<char>, j: nat)
    requires LuhnValid(s) && AllDigits(t) && |s| == |t| && j < |s|
    requires s[j] != t[j]
    requires forall i :: 0 <= i < |s| && i != j ==> s[i] == t[i]
    ensures !LuhnValid(t)
  {
    PrefixSumOneChange(s, t, j, |s|);
    var a := DigitValue(s[j]);
    var b := DigitValue(t[j]);
    assert a != b;
    ContributionInjective(a, b, |s| - 1 - j);
  }

  /** A well-known test Visa number passes. */
  lemma KnownValidNumber()
    ensures LuhnValid("4111111111111111")
  {
    var h := "1111";
    var s := "4111" + h + h + h;
    assert s == "4111111111111111";
    assert PrefixSum(s, 1) == 8;
    assert PrefixSum(s, 2) == 9;
    assert PrefixSum(s, 3) == 11;
    assert PrefixSum(s, 4) == 12;
    assert PrefixSum(s, 5) == 14;
    assert PrefixSum(s, 6) == 15;
    assert PrefixSum(s, 7) == 17;
    assert PrefixSum(s, 8) == 18;
    assert PrefixSum(s, 9) == 20;
    assert PrefixSum(s, 10) == 21;
    assert PrefixSum(s, 11) == 23;
    assert PrefixSum(s, 12) == 24;
    assert PrefixSum(s, 13) == 26;
    assert PrefixSum(s, 14) == 27;
    assert PrefixSum(s, 15) == 29;
    assert PrefixSum(s, 16) == 30;
  }

  /** The same number with its check digit bumped fails. */
  lemma KnownInvalidNumber()
    ensures !LuhnValid("4111111111111112")
  {
    var h := "1111";
    var s := "4111" + h + h + "1112";
    assert s == "4111111111111112";
    assert PrefixSum(s, 1) == 8;
    assert PrefixSum(s, 2) == 9;
    assert PrefixSum(s, 3) == 11;
    assert PrefixSum(s, 4) == 12;
    assert PrefixSum(s, 5) == 14;
    assert PrefixSum(s, 6) == 15;
    assert PrefixSum(s, 7) == 17;
    assert PrefixSum(s, 8) == 18;
    assert PrefixSum(s, 9) == 20;
    assert PrefixSum(s, 10) == 21;
    assert PrefixSum(s, 11) == 23;
    assert PrefixSum(s, 12) == 24;
    assert PrefixSum(s, 13) == 26;
    assert PrefixSum(s, 14) == 27;
    assert PrefixSum(s, 15) == 29;
    assert PrefixSum(s, 16) == 31;
  }

  /**
    Characters java.lang.Character.isDigit accepts, as far as this model
    needs them: the ASCII digits, the Arabic-Indic digits U+0660..U+0669 and
    the fullwidth digits U+FF10..U+FF19. Java accepts further Unicode
    decimal digits too, all of them at U+0660 or above; this predicate
    does not list them, so the loop below treats them as non-digits.
  */
  predicate IsJavaDigit(c: char) {
    IsDigit(c) || '\U{0660}' <= c <= '\U{0669}' || '\U{FF10}' <= c <= '\U{FF19}'
  }

  /**
    Every character of `s` lies below U+0660, the first non-ASCII decimal
    digit, so that Java's isDigit accepts exactly the ASCII digits among them
    (and none of them is the iterator's sentinel U+FFFF).
  */
  predicate NoForeignDigits(s: seq<char>) {
    forall k :: 0 <= k < |s| ==> s[k] < '\U{0660}'
  }

  /** What passesLuhnChecksum as written can do: answer, or throw on an out-of-range table index. */
  datatype LuhnOutcome = Verdict(passes: bool) | IndexOutOfBounds(index: int)

  /** CharacterIterator.DONE, the character the iterator returns once it has run off the text. */
  const Done: char := '\U{FFFF}'

  /**
    The loop of passesLuhnChecksum as written, from index `i` leftwards.
    The loop ends when it reads a character equal to DONE, and
    StringCharacterIterator hands back a U+FFFF of the text unchanged, so the
    walk also stops there and answers on the characters to its right. Any
    other character goes through isDigit, and then `c - '0'` indexes the
    table row, which is out of range for a non-ASCII digit.
  */
  function AsWrittenFrom(number: seq<char>, i: nat, even: nat, sum: int): LuhnOutcome
    requires i <= |number|
    decreases i
  {
    if i == 0 then Verdict(sum % 10 == 0)
    else
      var c := number[i - 1];
      if c == Done then Verdict(sum % 10 == 0)
      else if !IsJavaDigit(c) then Verdict(false)
      else
        var cInt := (c as int) - ('0' as int);
        if !(0 <= cInt < 10) then IndexOutOfBounds(cInt)
        else AsWrittenFrom(number, i - 1, even + 1, sum + Lookup(even, cInt))
  }

  /**
    The loop as written throws only at a non-ASCII character that isDigit
    accepts, and the table index it throws on is that character minus '0'.
  */
  lemma {:induction false} AsWrittenThrowsOnlyAtForeignDigit(number: seq<char>, i: nat, even: nat, sum: int)
    requires i <= |number|
    ensures var r := AsWrittenFrom(number, i, even, sum);
            r.IndexOutOfBounds? ==>
              exists k :: 0 <= k < i && IsJavaDigit(number[k]) && !IsDigit(number[k])
                          && r.index == (number[k] as int) - ('0' as int)
    decreases i
  {
    if i > 0 {
      var c := number[i - 1];
      if c != Done && IsJavaDigit(c) && 0 <= (c as int) - ('0' as int) < 10 {
        AsWrittenThrowsOnlyAtForeignDigit(number, i - 1, even + 1, sum + Lookup(even, (c as int) - ('0' as int)));
      }
    }
  }

  /** One step of the loop as written over an ASCII digit adds that digit's table entry. */
  lemma AsWrittenDigitStep(s: seq<char>, i: nat, even: nat, sum: int)
    requires 0 < i <= |s| && IsDigit(s[i - 1])
    ensures AsWrittenFrom(s, i, even, sum) == AsWrittenFrom(s, i - 1, even + 1, sum + TableEntry(even, s[i - 1]))
  {
    assert (s[i - 1] as int) - ('0' as int) == DigitValue(s[i - 1]);
  }

  /** On a digit string the loop as written adds up the reference contributions still ahead of it. */
  lemma {:induction false} AsWrittenOnDigits(s: seq<char>, i: nat, sum: int)
    requires AllDigits(s) && i <= |s|
    ensures AsWrittenFrom(s, i, |s| - i, sum) == Verdict((sum + PrefixSum(s, i)) % 10 == 0)
    decreases i
  {
    if i > 0 {
      var t := TableEntry(|s| - i, s[i - 1]);
      AsWrittenDigitStep(s, i, |s| - i, sum);
      TableIsDoubling(|s| - i, s[i - 1]);
      AsWrittenOnDigits(s, i - 1, sum + t);
    }
  }

  /** Without foreign digits, a non-digit anywhere before index `i` makes the loop as written answer false. */
  lemma {:induction false} AsWrittenRejects(s: seq<char>, i: nat, even: nat, sum: int, k: nat)
    requires NoForeignDigits(s) && k < i <= |s| && !IsDigit(s[k])
    ensures AsWrittenFrom(s, i, even, sum) == Verdict(false)
    decreases i
  {
    if IsJavaDigit(s[i - 1]) {
      assert i - 1 != k;
      var cInt := (s[i - 1] as int) - ('0' as int);
      AsWrittenRejects(s, i - 1, even + 1, sum + Lookup(even, cInt), k);
    }
  }

  /** Where no foreign digit occurs, the loop as written gives the standard's verdict. */
  lemma AsWrittenAgreesWithoutForeignDigits(s: seq<char>)
    ensures NoForeignDigits(s) ==> AsWrittenFrom(s, |s|, 0, 0) == Verdict(LuhnValid(s))
  {
    if NoForeignDigits(s) {
      if AllDigits(s) {
        AsWrittenOnDigits(s, |s|, 0);
      } else {
        var k :| 0 <= k < |s| && !IsDigit(s[k]);
        AsWrittenRejects(s, |s|, 0, 0, k);
      }
    }
  }

  /**
    passesLuhnChecksum as written, with Java's isDigit (as far as IsJavaDigit
    lists it) and the iterator's DONE sentinel: it agrees with the standard
    wherever no character reaches U+0660, and it throws only at a non-ASCII
    digit.
  */
  function PassesLuhnAsWritten(number: seq<char>): (r: LuhnOutcome)
    ensures NoForeignDigits(number) ==> r == Verdict(LuhnValid(number))
    ensures r.IndexOutOfBounds? ==>
              exists k :: 0 <= k < |number| && IsJavaDigit(number[k]) && !IsDigit(number[k])
                          && r.index == (number[k] as int) - ('0' as int)
  {
    AsWrittenThrowsOnlyAtForeignDigit(number, |number|, 0, 0);
    AsWrittenAgreesWithoutForeignDigits(number);
    AsWrittenFrom(number, |number|, 0, 0)
  }

  /**
    The defect: one Arabic-Indic digit three (U+0663) passes isDigit, gives
    `c - '0'` = 1587 and throws instead of answering.
  */
  lemma ForeignDigitThrows()
    ensures PassesLuhnAsWritten("\U{0663}") == IndexOutOfBounds(1587)
  {
  }

  /** The corrected check answers on the same input, and answers false. */
  lemma CorrectedRejectsForeignDigit()
    ensures !LuhnValid("\U{0663}")
  {
    NonDigitFails([], '\U{0663}', []);
    assert [] + ['\U{0663}'] + [] == "\U{0663}";
  }

  /**
    Everything to the left of a U+FFFF is never looked at by the loop as
    written: from index `|a| + 1 + j` it behaves as on `b` from index `j`.
  */
  lemma {:induction false} AsWrittenStopsAtDone(a: seq<char>, b: seq<char>, j: nat, even: nat, sum: int)
    requires j <= |b|
    ensures AsWrittenFrom(a + [Done] + b, |a| + 1 + j, even, sum) == AsWrittenFrom(b, j, even, sum)
    decreases j
  {
    var s := a + [Done] + b;
    if j == 0 {
      assert s[|a|] == Done;
    } else {
      assert s[|a| + j] == b[j - 1];
      var c := b[j - 1];
      if c != Done && IsJavaDigit(c) && 0 <= (c as int) - ('0' as int) < 10 {
        AsWrittenStopsAtDone(a, b, j - 1, even + 1, sum + Lookup(even, (c as int) - ('0' as int)));
      }
    }
  }

  /**
    The second defect: a U+FFFF in the number ends the walk, and the loop as
    written answers on what lies to its right alone, whatever precedes it.
  */
  lemma DoneHidesPrefix(a: seq<char>, b: seq<char>)
    requires NoForeignDigits(b)
    ensures PassesLuhnAsWritten(a + [Done] + b) == Verdict(LuhnValid(b))
  {
    AsWrittenStopsAtDone(a, b, |b|, 0, 0);
    AsWrittenAgreesWithoutForeignDigits(b);
  }

  /** So "12a" followed by U+FFFF passes as written, although it holds a letter. */
  lemma DoneAcceptsLetters()
    ensures PassesLuhnAsWritten("12a\U{FFFF}") == Verdict(true)
  {
    DoneHidesPrefix("12a", []);
    assert "12a" + [Done] + [] == "12a\U{FFFF}";
  }

  /** The corrected check rejects the same input. */
  lemma CorrectedRejectsDone()
    ensures !LuhnValid("12a\U{FFFF}")
  {
    NonDigitFails("12a", Done, []);
    assert "12a" + [Done] + [] == "12a\U{FFFF}";
  }
}
