/**
  Expiry-date checks of CreditCardNumber: the integer window check
  isDateValid(month, year), the choice of date pattern by digit count, and
  the two string entry points isDateValid(String) and getDateForString.

  The clock and CreditCard.EXPIRY_MAX_FUTURE_YEARS are parameters. The date
  parser (SimpleDateFormat, non-lenient) is a parameter too: an oracle that
  either yields a date or fails, as parse either returns or throws.
*/
module Expiry {

  import opened Wrappers
  import opened Digits

  /** The current date as java.util.Calendar reports it: `month` is 0-based (January is 0). */
  datatype Clock = Clock(year: int, month: int)

  /** A java.util.Date as its getters report it: 0-based month, years since 1900. */
  datatype JavaDate = JavaDate(month: int, year: int)

  /** A SimpleDateFormat, known by its pattern. */
  datatype DateFormat = DateFormat(pattern: string)

  /** The date parser: the date a pattern reads from a digit string, or None where parse throws. */
  type DateParser = (DateFormat, seq<char>) -> Option<JavaDate>

  /**
    isDateValid(expiryMonth, expiryYear): the month must be 1..12, and the
    date may be neither before the current month nor in a year beyond the
    current one plus `maxFutureYears`.
  */
  function IsDateValid(expiryMonth: int, expiryYear: int, now: Clock, maxFutureYears: int): bool {
    if expiryMonth < 1 || 12 < expiryMonth then false
    else
      var thisYear := now.year;
      var thisMonth := now.month + 1;
      if expiryYear < thisYear then false
      else if expiryYear == thisYear && expiryMonth < thisMonth then false
      else if expiryYear > thisYear + maxFutureYears then false
      else true
  }

  /** Months counted from the start of year 0: a total order on (year, month) pairs. */
  ghost function MonthIndex(year: int, month: int): int {
    12 * year + (month - 1)
  }

  /**
    The validity window as one range of month indices: from the current
    month to December of the last allowed year, both included.
  */
  ghost predicate InWindow(expiryMonth: int, expiryYear: int, now: Clock, maxFutureYears: int) {
    && 1 <= expiryMonth <= 12
    && MonthIndex(now.year, now.month + 1) <= MonthIndex(expiryYear, expiryMonth)
    && MonthIndex(expiryYear, expiryMonth) <= MonthIndex(now.year + maxFutureYears, 12)
  }

  /** The step-by-step checks accept exactly the months of the window. */
  lemma IsDateValidIffInWindow(expiryMonth: int, expiryYear: int, now: Clock, maxFutureYears: int)
    requires 0 <= now.month < 12
    ensures IsDateValid(expiryMonth, expiryYear, now, maxFutureYears) <==> InWindow(expiryMonth, expiryYear, now, maxFutureYears)
  {
  }

  /**
    The window read lexicographically: a valid month of 1..12, not before
    the current (year, month), in a year no later than the last allowed one.
  */
  lemma IsDateValidLexicographic(expiryMonth: int, expiryYear: int, now: Clock, maxFutureYears: int)
    ensures IsDateValid(expiryMonth, expiryYear, now, maxFutureYears) <==>
            && 1 <= expiryMonth <= 12
            && (expiryYear > now.year || (expiryYear == now.year && expiryMonth >= now.month + 1))
            && expiryYear <= now.year + maxFutureYears
  {
  }

  /** Every month between two valid months is valid. */
  lemma WindowIsConvex(m1: int, y1: int, m2: int, y2: int, m: int, y: int, now: Clock, maxFutureYears: int)
    requires 0 <= now.month < 12
    requires IsDateValid(m1, y1, now, maxFutureYears) && IsDateValid(m2, y2, now, maxFutureYears)
    requires 1 <= m <= 12
    requires MonthIndex(y1, m1) <= MonthIndex(y, m) <= MonthIndex(y2, m2)
    ensures IsDateValid(m, y, now, maxFutureYears)
  {
    IsDateValidIffInWindow(m1, y1, now, maxFutureYears);
    IsDateValidIffInWindow(m2, y2, now, maxFutureYears);
    IsDateValidIffInWindow(m, y, now, maxFutureYears);
  }

  /** The window's two ends: the current month and December of the last allowed year. */
  lemma WindowEnds(now: Clock, maxFutureYears: int)
    requires 0 <= now.month < 12 && maxFutureYears >= 0
    ensures IsDateValid(now.month + 1, now.year, now, maxFutureYears)
    ensures IsDateValid(12, now.year + maxFutureYears, now, maxFutureYears)
    ensures now.month > 0 ==> !IsDateValid(now.month, now.year, now, maxFutureYears)
    ensures now.month == 0 ==> !IsDateValid(12, now.year - 1, now, maxFutureYears)
    ensures !IsDateValid(1, now.year + maxFutureYears + 1, now, maxFutureYears)
  {
  }

  /** Sample verdicts with the clock at June 2024. */
  lemma KnownDates(maxFutureYears: int)
    requires maxFutureYears >= 0
    ensures IsDateValid(6, 2024, Clock(2024, 5), maxFutureYears)
    ensures !IsDateValid(5, 2024, Clock(2024, 5), maxFutureYears)
    ensures !IsDateValid(1, 2024 + maxFutureYears + 1, Clock(2024, 5), maxFutureYears)
    ensures !IsDateValid(13, 2025, Clock(2024, 5), maxFutureYears)
  {
  }

  /**
    getDateFormatForLength: the pattern "MMyy" for four digits, "MMyyyy"
    for six, and none for any other length.
  */
  function GetDateFormatForLength(len: int): (r: Option<DateFormat>)
    ensures r.Some? <==> len == 4 || len == 6
    ensures r.Some? ==> |r.value.pattern| == len
    ensures r.Some? ==> r.value.pattern[..2] == "MM" && forall i :: 2 <= i < len ==> r.value.pattern[i] == 'y'
  {
    if len == 4 then Some(DateFormat("MMyy"))
    else if len == 6 then Some(DateFormat("MMyyyy"))
    else None
  }

  /**
    getDateForString: filters the digits, picks the pattern by their count
    and parses them with it; no pattern, or a parse failure, gives no date.
  */
  function GetDateForString(dateString: seq<char>, parse: DateParser): (r: Option<JavaDate>)
    ensures var digits := DigitsOnly(dateString);
            && (|digits| != 4 && |digits| != 6 ==> r == None)
            && (|digits| == 4 ==> r == parse(DateFormat("MMyy"), digits))
            && (|digits| == 6 ==> r == parse(DateFormat("MMyyyy"), digits))
  {
    var digitsOnly := DigitsOnly(dateString);
    match GetDateFormatForLength(|digitsOnly|)
    case None => None
    case Some(validDate) => parse(validDate, digitsOnly)
  }

  /**
    isDateValid(String): false without a pattern or on a parse failure,
    otherwise the window check on the parsed month and year.
  */
  function IsDateStringValid(dateString: seq<char>, parse: DateParser, now: Clock, maxFutureYears: int): (r: bool)
    ensures var digits := DigitsOnly(dateString);
            |digits| != 4 && |digits| != 6 ==> !r
  {
    var digitsOnly := DigitsOnly(dateString);
    match GetDateFormatForLength(|digitsOnly|)
    case None => false
    case Some(validDate) =>
      match parse(validDate, digitsOnly)
      case None => false
      case Some(enteredDate) => IsDateValid(enteredDate.month + 1, enteredDate.year + 1900, now, maxFutureYears)
  }

  /**
    The two string entry points agree: a date string is valid exactly when
    getDateForString yields a date whose month and year pass the window check.
  */
  lemma DateStringValidIffParsedInWindow(dateString: seq<char>, parse: DateParser, now: Clock, maxFutureYears: int)
    ensures IsDateStringValid(dateString, parse, now, maxFutureYears) <==>
            && GetDateForString(dateString, parse).Some?
            && var d := GetDateForString(dateString, parse).value;
               IsDateValid(d.month + 1, d.year + 1900, now, maxFutureYears)
  {
  }

  /** Separators typed into a date string ("06/27") change neither entry point's answer. */
  lemma DateStringIgnoresPunctuation(a: seq<char>, p: seq<char>, b: seq<char>, parse: DateParser,
                                     now: Clock, maxFutureYears: int)
    requires forall i :: 0 <= i < |p| ==> !IsDigit(p[i])
    ensures GetDateForString(a + p + b, parse) == GetDateForString(a + b, parse)
    ensures IsDateStringValid(a + p + b, parse, now, maxFutureYears) == IsDateStringValid(a + b, parse, now, maxFutureYears)
  {
    DigitsOnlyIgnoresPunctuation(a, p, b);
  }

  /**
    With a parser that reads "0627" as June 2027, the typed date "06/27" is
    valid in June 2024 whenever at least three future years are allowed.
  */
  lemma KnownDateString(parse: DateParser, maxFutureYears: int)
    requires parse(DateFormat("MMyy"), "0627") == Some(JavaDate(5, 127))
    requires maxFutureYears >= 3
    ensures IsDateStringValid("06/27", parse, Clock(2024, 5), maxFutureYears)
  {
    DateStringIgnoresPunctuation("06", "/", "27", parse, Clock(2024, 5), maxFutureYears);
    assert "06" + "/" + "27" == "06/27";
    assert "06" + "27" == "0627";
    assert AllDigits("0627");
  }
}
