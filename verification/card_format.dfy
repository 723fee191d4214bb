/**
  Display formatting of card numbers (CreditCardNumber.formatString and its
  two layout helpers).

  A number is reformatted only when its digit count is exactly the
  numberLength of its card type and that length is 16 (groups 4-4-4-4) or
  15 (groups 4-6-5). In every other case the caller's original string comes
  back unchanged. The card type is either supplied by the caller or
  obtained from a classifier, which stands in for CardType.fromCardNumber.
*/
module CardFormat {

  import opened Wrappers
  import opened Digits

  /** A card brand, reduced to the one attribute formatting consults. */
  datatype CardType = CardType(numberLength: int)

  /** `r` shows the sixteen characters of `d` as four blank-separated groups of four. */
  ghost predicate Layout16(d: seq<char>, r: seq<char>) {
    && |r| == 19
    && r[4] == ' ' && r[9] == ' ' && r[14] == ' '
    && r[..4] + r[5..9] + r[10..14] + r[15..] == d
  }

  /** `r` shows the fifteen characters of `d` as blank-separated groups of four, six and five. */
  ghost predicate Layout15(d: seq<char>, r: seq<char>) {
    && |r| == 17
    && r[4] == ' ' && r[11] == ' '
    && r[..4] + r[5..11] + r[12..] == d
  }

  /**
    formatSixteenString: copies the sixteen characters, putting one blank
    before every index that is a non-zero multiple of four.
  */
  function FormatSixteenString(digits: seq<char>): (r: seq<char>)
    requires |digits| == 16
    ensures Layout16(digits, r)
  {
    var r := digits[..4] + " " + digits[4..8] + " " + digits[8..12] + " " + digits[12..];
    assert r[..4] + r[5..9] + r[10..14] + r[15..] == digits by {
      assert r[..4] == digits[..4];
      assert r[5..9] == digits[4..8];
      assert r[10..14] == digits[8..12];
      assert r[15..] == digits[12..];
      assert digits == digits[..4] + digits[4..8] + digits[8..12] + digits[12..];
    }
    r
  }

  /**
    formatFifteenString: copies the fifteen characters, putting one blank
    before index 4 and one before index 10.
  */
  function FormatFifteenString(digits: seq<char>): (r: seq<char>)
    requires |digits| == 15
    ensures Layout15(digits, r)
  {
    var r := digits[..4] + " " + digits[4..10] + " " + digits[10..];
    assert r[..4] + r[5..11] + r[12..] == digits by {
      assert r[..4] == digits[..4];
      assert r[5..11] == digits[4..10];
      assert r[12..] == digits[10..];
      assert digits == digits[..4] + digits[4..10] + digits[10..];
    }
    r
  }

  /** The characters formatting works on: the digits of the input, or the input as given. */
  function WorkingDigits(numStr: seq<char>, filterDigits: bool): seq<char> {
    if filterDigits then DigitsOnly(numStr) else numStr
  }

  /** The expected length: the supplied type's, or the classified type's when none is supplied. */
  function ExpectedLength(digits: seq<char>, cardType: Option<CardType>, classify: seq<char> -> CardType): int {
    match cardType
    case Some(t) => t.numberLength
    case None => classify(digits).numberLength
  }

  /**
    formatString(numStr, filterDigits, type): formats only on an exact
    length match with a 15- or 16-digit type, and otherwise hands back the
    original `numStr` (not the filtered digits, and never a missing value).
  */
  function FormatStringWith(numStr: seq<char>, filterDigits: bool, cardType: Option<CardType>,
                            classify: seq<char> -> CardType): (r: seq<char>)
    ensures var digits := WorkingDigits(numStr, filterDigits);
            var len := ExpectedLength(digits, cardType, classify);
            && (|digits| == len == 16 ==> Layout16(digits, r))
            && (|digits| == len == 15 ==> Layout15(digits, r))
            && (|digits| != len || (len != 15 && len != 16) ==> r == numStr)
  {
    var digits := WorkingDigits(numStr, filterDigits);
    var numLen := ExpectedLength(digits, cardType, classify);
    if |digits| == numLen && numLen == 16 then FormatSixteenString(digits)
    else if |digits| == numLen && numLen == 15 then FormatFifteenString(digits)
    else numStr
  }

  /** formatString(numStr): filters the digits and lets the classifier pick the card type. */
  function FormatString(numStr: seq<char>, classify: seq<char> -> CardType): (r: seq<char>)
    ensures var digits := DigitsOnly(numStr);
            var len := classify(digits).numberLength;
            && (|digits| == len == 16 ==> Layout16(digits, r))
            && (|digits| == len == 15 ==> Layout15(digits, r))
            && (|digits| != len || (len != 15 && len != 16) ==> r == numStr)
  {
    FormatStringWith(numStr, true, None, classify)
  }

  /** A layout determines the formatted string completely. */
  lemma Layout16Unique(d: seq<char>, r1: seq<char>, r2: seq<char>)
    requires Layout16(d, r1) && Layout16(d, r2)
    ensures r1 == r2
  {
    forall j | 0 <= j < 19 ensures r1[j] == r2[j] {
      if j < 4 {
        assert r1[j] == d[j] == r2[j];
      } else if 4 < j < 9 {
        assert r1[j] == (r1[..4] + r1[5..9])[j - 1] == d[j - 1] == (r2[..4] + r2[5..9])[j - 1] == r2[j];
      } else if 9 < j < 14 {
        assert r1[j] == (r1[..4] + r1[5..9] + r1[10..14])[j - 2] == d[j - 2];
        assert r2[j] == (r2[..4] + r2[5..9] + r2[10..14])[j - 2] == d[j - 2];
      } else if 14 < j {
        assert r1[j] == d[j - 3] == r2[j];
      }
    }
  }

  /** A layout determines the formatted string completely. */
  lemma Layout15Unique(d: seq<char>, r1: seq<char>, r2: seq<char>)
    requires Layout15(d, r1) && Layout15(d, r2)
    ensures r1 == r2
  {
    forall j | 0 <= j < 17 ensures r1[j] == r2[j] {
      if j < 4 {
        assert r1[j] == d[j] == r2[j];
      } else if 4 < j < 11 {
        assert r1[j] == (r1[..4] + r1[5..11])[j - 1] == d[j - 1];
        assert r2[j] == (r2[..4] + r2[5..11])[j - 1] == d[j - 1];
      } else if 11 < j {
        assert r1[j] == d[j - 2] == r2[j];
      }
    }
  }

  /** For a digit string the blanks of the 16-digit layout sit exactly at indices 4, 9 and 14. */
  lemma SixteenBlanksExactly(d: seq<char>)
    requires |d| == 16 && AllDigits(d)
    ensures forall j :: 0 <= j < 19 ==> (FormatSixteenString(d)[j] == ' ' <==> j == 4 || j == 9 || j == 14)
  {
  }

  /** For a digit string the blanks of the 15-digit layout sit exactly at indices 4 and 11. */
  lemma FifteenBlanksExactly(d: seq<char>)
    requires |d| == 15 && AllDigits(d)
    ensures forall j :: 0 <= j < 17 ==> (FormatFifteenString(d)[j] == ' ' <==> j == 4 || j == 11)
  {
  }

  /** Deleting the blanks of the 16-digit layout gives back the digits. */
  lemma SixteenKeepsDigits(d: seq<char>)
    requires |d| == 16
    ensures DigitsOnly(FormatSixteenString(d)) == DigitsOnly(d)
  {
    var a, b, c, e := d[..4], d[4..8], d[8..12], d[12..];
    calc {
      DigitsOnly(FormatSixteenString(d));
      DigitsOnly((a + " " + b + " " + c) + " " + e);
      { DigitsOnlyIgnoresPunctuation(a + " " + b + " " + c, " ", e); }
      DigitsOnly((a + " " + b + " " + c) + e);
      { assert (a + " " + b + " " + c) + e == (a + " " + b) + " " + (c + e); }
      DigitsOnly((a + " " + b) + " " + (c + e));
      { DigitsOnlyIgnoresPunctuation(a + " " + b, " ", c + e); }
      DigitsOnly((a + " " + b) + (c + e));
      { assert (a + " " + b) + (c + e) == a + " " + (b + c + e); }
      DigitsOnly(a + " " + (b + c + e));
      { DigitsOnlyIgnoresPunctuation(a, " ", b + c + e); }
      DigitsOnly(a + (b + c + e));
      { assert a + (b + c + e) == d; }
      DigitsOnly(d);
    }
  }

  /** Deleting the blanks of the 15-digit layout gives back the digits. */
  lemma FifteenKeepsDigits(d: seq<char>)
    requires |d| == 15
    ensures DigitsOnly(FormatFifteenString(d)) == DigitsOnly(d)
  {
    var a, b, c := d[..4], d[4..10], d[10..];
    calc {
      DigitsOnly(FormatFifteenString(d));
      DigitsOnly((a + " " + b) + " " + c);
      { DigitsOnlyIgnoresPunctuation(a + " " + b, " ", c); }
      DigitsOnly((a + " " + b) + c);
      { assert (a + " " + b) + c == a + " " + (b + c); }
      DigitsOnly(a + " " + (b + c));
      { DigitsOnlyIgnoresPunctuation(a, " ", b + c); }
      DigitsOnly(a + (b + c));
      { assert a + (b + c) == d; }
      DigitsOnly(d);
    }
  }

  /** Formatting never adds, drops or reorders a digit of the input. */
  lemma FormatKeepsDigits(numStr: seq<char>, filterDigits: bool, cardType: Option<CardType>,
                          classify: seq<char> -> CardType)
    ensures DigitsOnly(FormatStringWith(numStr, filterDigits, cardType, classify)) == DigitsOnly(numStr)
  {
    var digits := WorkingDigits(numStr, filterDigits);
    var r := FormatStringWith(numStr, filterDigits, cardType, classify);
    assert DigitsOnly(digits) == DigitsOnly(numStr) by {
      if filterDigits { DigitsOnlyIdempotent(numStr); }
    }
    var len := ExpectedLength(digits, cardType, classify);
    if |digits| == len == 16 {
      SixteenKeepsDigits(digits);
    } else if |digits| == len == 15 {
      FifteenKeepsDigits(digits);
    }
  }

  /** Formatting a digit string of the expected length and then deleting the blanks gives the digit string back. */
  lemma FormatRoundTrip(d: seq<char>, cardType: Option<CardType>, classify: seq<char> -> CardType)
    requires AllDigits(d)
    ensures DigitsOnly(FormatStringWith(d, true, cardType, classify)) == d
    ensures DigitsOnly(FormatStringWith(d, false, cardType, classify)) == d
  {
    FormatKeepsDigits(d, true, cardType, classify);
    FormatKeepsDigits(d, false, cardType, classify);
  }

  /** Formatting an already formatted number (digits filtered) changes nothing. */
  lemma FormatIdempotent(numStr: seq<char>, cardType: Option<CardType>, classify: seq<char> -> CardType)
    ensures var once := FormatStringWith(numStr, true, cardType, classify);
            FormatStringWith(once, true, cardType, classify) == once
  {
    var once := FormatStringWith(numStr, true, cardType, classify);
    var twice := FormatStringWith(once, true, cardType, classify);
    FormatKeepsDigits(numStr, true, cardType, classify);
    var digits := DigitsOnly(numStr);
    assert DigitsOnly(once) == digits;
    var len := ExpectedLength(digits, cardType, classify);
    if |digits| == len == 16 {
      Layout16Unique(digits, once, twice);
    } else if |digits| == len == 15 {
      Layout15Unique(digits, once, twice);
    }
  }

  /** A complete 16-digit number of a 16-digit type is shown in the 4-4-4-4 layout. */
  lemma WholeSixteenFormatted(s: seq<char>, classify: seq<char> -> CardType)
    requires AllDigits(s) && |s| == 16 && classify(s).numberLength == 16
    ensures FormatString(s, classify) == FormatSixteenString(s)
  {
  }

  /** A complete 15-digit number of a 15-digit type is shown in the 4-6-5 layout. */
  lemma WholeFifteenFormatted(s: seq<char>, classify: seq<char> -> CardType)
    requires AllDigits(s) && |s| == 15 && classify(s).numberLength == 15
    ensures FormatString(s, classify) == FormatFifteenString(s)
  {
  }

  /** A 16-digit test number, classified as a 16-digit type, is shown in groups of four. */
  lemma KnownSixteenFormat(classify: seq<char> -> CardType)
    requires classify("4111111111111111").numberLength == 16
    ensures FormatString("4111111111111111", classify) == "4111 1111 1111 1111"
  {
    WholeSixteenFormatted("4111111111111111", classify);
    SixteenLayoutOfTestNumber();
  }

  lemma SixteenLayoutOfTestNumber()
    ensures FormatSixteenString("4111111111111111") == "4111 1111 1111 1111"
  {
    var g := "4111";
    var h := "1111";
    var s := g + h + h + h;
    assert s == "4111111111111111";
    assert s[..4] == g && s[4..8] == h && s[8..12] == h && s[12..] == h;
    assert g + " " + h + " " + h + " " + h == "4111 1111 1111 1111";
  }

  /** A 15-digit test number, classified as a 15-digit type, is shown in groups of four, six and five. */
  lemma KnownFifteenFormat(classify: seq<char> -> CardType)
    requires classify("378282246310005").numberLength == 15
    ensures FormatString("378282246310005", classify) == "3782 822463 10005"
  {
    WholeFifteenFormatted("378282246310005", classify);
    FifteenLayoutOfTestNumber();
  }

  lemma FifteenLayoutOfTestNumber()
    ensures FormatFifteenString("378282246310005") == "3782 822463 10005"
  {
    var s := "378282246310005";
    assert s[..4] == "3782" && s[4..10] == "822463" && s[10..] == "10005";
  }

  /** A number still being typed comes back exactly as given. */
  lemma PartialNumberUnchanged(classify: seq<char> -> CardType)
    ensures FormatStringWith("4111 1111 111", true, Some(CardType(16)), classify) == "4111 1111 111"
    ensures FormatStringWith("4111 1111 111", true, Some(CardType(15)), classify) == "4111 1111 111"
  {
  }
}
