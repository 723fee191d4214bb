# Card-number and expiry rules of card.io, in Dafny

This project models `io.card.payment.CreditCardNumber`, the rules engine that
card.io uses for payment-card numbers and expiry dates. It covers:

- the Luhn checksum (ISO/IEC 7812-1, Annex B);
- brand recognition by prefix for ELO and HIPER, with their length rules;
- the display formatter, which lays out 16-digit numbers as `XXXX XXXX XXXX XXXX`
  and 15-digit numbers as `XXXX XXXXXX XXXXX`;
- the expiry checks: the integer window check, the choice of date pattern
  by digit count, and the two string entry points.

Everything is a pure function over `seq<char>` and `int`. The one exception is
`PassesLuhnChecksum`, a method whose loop follows the source's right-to-left
walk.

Modules, one file each:

- `Wrappers` (`wrappers.dfy`): `Option`, used where the Java code returns `null`.
- `Digits` (`digits.dfy`): ASCII digits and the digit filter. The filter stands
  in for `StringHelper.getDigitsOnlyString`, which is not part of this model.
  It is specified as "keep the characters `'0'..'9'`, in order".
- `Luhn` (`luhn.dfy`): the checksum. It has three parts:
  - the source's 2×10 lookup table;
  - an independent reference sum that uses the arithmetic doubling rule;
  - the walking method, proved equal to the reference.
  It also holds the as-written model of the source's loop, with its two
  defects: non-ASCII digits and the U+FFFF sentinel (see Findings).
- `BrandPattern` (`brand_pattern.dfy`): `ELO_REGEX` and `HIPER_REGEX`. Each
  pattern is kept as a table of prefix rules, in the regex's own order and with
  its repetition. A second, independent form writes the prefixes out as a plain
  disjunction, and a lemma proves the two forms equal.
- `CardFormat` (`card_format.dfy`): `formatString` in both overloads and the
  two layout helpers. The card type is either passed in or obtained from a
  classifier parameter, which stands in for `CardType.fromCardNumber`.
- `Expiry` (`expiry.dfy`): `isDateValid` in both overloads,
  `getDateFormatForLength` and `getDateForString`. Three things are
  parameters:
  - the clock (`Calendar.getInstance()`, with its 0-based `MONTH`);
  - `CreditCard.EXPIRY_MAX_FUTURE_YEARS`;
  - the `SimpleDateFormat` parser, an oracle that returns a `java.util.Date`
    view (0-based month, years since 1900) or fails.

Where the code and its documentation disagree, the model follows the code:
`formatString` hands back the original `numStr` when it does not format. It
never returns `null`, although its doc comment says it does.

Notes on the patterns:

- `ELO_REGEX` has the alternative `509[0-9]`, a four-character prefix.
- `ELO_REGEX` lists `506699` and `457393`, and it lists `636297` twice. The
  model keeps all of them, in the regex's order.
- The patterns end in `[0-9]*` and are applied with `Matcher.find()`. The
  `[0-9]*` may match nothing, so only the prefix matters: anything after it is
  irrelevant, non-digits included.

## Model

| member | source | states |
|---|---|---|
| `Digits.DigitsOnly` | card.io/src/main/java/io/card/payment/CreditCardNumber.java:56-61 | the filtered string is all digits, is no longer than the input, and is the input itself when that is already all digits |
| `Digits.DigitsOnlyAppend` | card.io/src/main/java/io/card/payment/CreditCardNumber.java:56-61 | filtering a concatenation gives the concatenation of the filtered parts, so the filter keeps digits in their order |
| `Digits.DigitsOnlyOfPunctuation` | card.io/src/main/java/io/card/payment/CreditCardNumber.java:56-61 | a string with no digit filters to the empty string; with `Digits.DigitsOnlyAppend` and `Digits.DigitsOnly` this fixes the filter as "keep exactly the ASCII digits, in order" |
| `Digits.DigitsOnlyIgnoresPunctuation` | card.io/src/main/java/io/card/payment/CreditCardNumber.java:122-124 | inserting non-digit text anywhere leaves the filtered digits, and so every verdict computed from them, unchanged |
| `Luhn.TableIsDoubling` | card.io/src/main/java/io/card/payment/CreditCardNumber.java:33 | row `p mod 2` of the lookup table gives the digit itself at even positions and `d<5 ? 2d : 2d-9` at odd ones |
| `Luhn.TableSuffixSumSplit` | card.io/src/main/java/io/card/payment/CreditCardNumber.java:36-42 | at any point of the right-to-left walk, the table entries consumed plus the reference contributions left add up to the reference checksum |
| `Luhn.PassesLuhnChecksum` | card.io/src/main/java/io/card/payment/CreditCardNumber.java:29-44 | the walk returns true exactly when every character is a digit and the position-weighted sum, counted from the rightmost digit at position 0, is a multiple of 10; any non-digit gives false, U+FFFF included, where the source stops its walk instead (see Left out and Findings) |
| `Luhn.EmptyPasses` | card.io/src/main/java/io/card/payment/CreditCardNumber.java:43 | the empty string passes, its sum being 0 |
| `Luhn.NonDigitFails` | card.io/src/main/java/io/card/payment/CreditCardNumber.java:36-39 | a non-digit at any index makes the check fail |
| `Luhn.SingleDigitErrorDetected` | card.io/src/main/java/io/card/payment/CreditCardNumber.java:22-28 | changing exactly one digit of a passing number always gives a failing number |
| `Luhn.KnownValidNumber` | card.io/src/main/java/io/card/payment/CreditCardNumber.java:29-44 | `4111111111111111` passes |
| `Luhn.KnownInvalidNumber` | card.io/src/main/java/io/card/payment/CreditCardNumber.java:29-44 | `4111111111111112` fails |
| `Luhn.PassesLuhnAsWritten` | card.io/src/main/java/io/card/payment/CreditCardNumber.java:29-44 | the method as written, with Java's `isDigit` and the iterator's `DONE` sentinel, gives the standard's verdict on every input whose characters all lie below U+0660, where `isDigit` means exactly the ASCII digits; when it throws, the index is `c - '0'` for some non-ASCII character of the input that `isDigit` accepts |
| `Luhn.AsWrittenFrom` | card.io/src/main/java/io/card/payment/CreditCardNumber.java:36-42 | no contract of its own: the loop as written, from a given index leftwards, stopping at U+FFFF; its `isDigit` knows only the non-ASCII digit ranges U+0660..U+0669 and U+FF10..U+FF19 (see Left out); characterized by `Luhn.AsWrittenThrowsOnlyAtForeignDigit`, `Luhn.AsWrittenStopsAtDone` and `Luhn.AsWrittenAgreesWithoutForeignDigits` |
| `Luhn.AsWrittenThrowsOnlyAtForeignDigit` | card.io/src/main/java/io/card/payment/CreditCardNumber.java:37-41 | the loop throws only at a non-ASCII character that `isDigit` accepts, and the bad table index is that character minus `'0'` |
| `Luhn.AsWrittenDigitStep` | card.io/src/main/java/io/card/payment/CreditCardNumber.java:40-41 | one iteration over an ASCII digit adds that digit's table entry and advances the position counter |
| `Luhn.AsWrittenAgreesWithoutForeignDigits` | card.io/src/main/java/io/card/payment/CreditCardNumber.java:36-43 | below U+0660 the loop answers exactly the standard's verdict |
| `Luhn.AsWrittenStopsAtDone` | card.io/src/main/java/io/card/payment/CreditCardNumber.java:36 | from the right end of `a + [U+FFFF] + b`, the loop never looks past the U+FFFF and behaves as on `b` alone |
| `Luhn.DoneHidesPrefix` | card.io/src/main/java/io/card/payment/CreditCardNumber.java:36-43 | for any `a` and any `b` below U+0660, the method as written answers on `a + [U+FFFF] + b` with the standard's verdict on `b`, whatever `a` holds |
| `Luhn.DoneAcceptsLetters` | card.io/src/main/java/io/card/payment/CreditCardNumber.java:36-43 | the method as written accepts `"12a"` followed by U+FFFF |
| `Luhn.CorrectedRejectsDone` | card.io/src/main/java/io/card/payment/CreditCardNumber.java:36-39 | the corrected check rejects that input |
| `Luhn.ForeignDigitThrows` | card.io/src/main/java/io/card/payment/CreditCardNumber.java:37-41 | on the Arabic-Indic digit U+0663 the loop as written indexes the table at 1587 and throws instead of answering |
| `Luhn.CorrectedRejectsForeignDigit` | card.io/src/main/java/io/card/payment/CreditCardNumber.java:36-39 | the corrected check answers false on that input |
| `BrandPattern.IsValidEloCard` | card.io/src/main/java/io/card/payment/CreditCardNumber.java:163-165 | applies the 15 alternatives of `ELO_REGEX` (:19-20, kept as `EloRules` in the regex's order) and is true exactly for the listed ELO prefixes, as `EloCardIffPrefix` proves |
| `BrandPattern.IsValidHiperCard` | card.io/src/main/java/io/card/payment/CreditCardNumber.java:167-169 | applies the two alternatives of `HIPER_REGEX` (:18, kept as `HiperRules`) and is true exactly for strings starting with 3841 or 606282 |
| `BrandPattern.IsValidEloLength` | card.io/src/main/java/io/card/payment/CreditCardNumber.java:171-173 | no contract of its own (a single comparison); `BrandPattern.LengthRules` states that it accepts exactly 16 |
| `BrandPattern.IsValidHiperLength` | card.io/src/main/java/io/card/payment/CreditCardNumber.java:175-177 | no contract of its own (a single comparison); `BrandPattern.LengthRules` states that it accepts exactly 16 and 19 |
| `BrandPattern.CheckNumberPatternValid` | card.io/src/main/java/io/card/payment/CreditCardNumber.java:179-183 | a number matches a pattern exactly when some alternative of the pattern matches at its start ("any alternative", not "exactly one") |
| `BrandPattern.EloCardIffPrefix` | card.io/src/main/java/io/card/payment/CreditCardNumber.java:19-20 | the ELO check accepts exactly the strings that start with 401178, 401179, 431274, 438935, 451416, 457393, 457631, 457632, 504175, 506699, 627780, 636297, 636368, 50670–50676, 506770–506778 or 5090–5099 |
| `BrandPattern.EloRuleGivesPrefix` | card.io/src/main/java/io/card/payment/CreditCardNumber.java:19-20 | every alternative of the ELO pattern describes one of the listed prefixes |
| `BrandPattern.Elo5067Rule` | card.io/src/main/java/io/card/payment/CreditCardNumber.java:20 | the alternative `5067([0-6])` matches exactly the strings starting with one of 50670 to 50676 |
| `BrandPattern.Elo50677Rule` | card.io/src/main/java/io/card/payment/CreditCardNumber.java:20 | the alternative `50677([0-8])` matches exactly the strings starting with one of 506770 to 506778 |
| `BrandPattern.Elo509Rule` | card.io/src/main/java/io/card/payment/CreditCardNumber.java:20 | the alternative `509[0-9]` matches exactly the strings starting with one of 5090 to 5099 |
| `BrandPattern.EloPrefixFrom4GivesRule` | card.io/src/main/java/io/card/payment/CreditCardNumber.java:19-20 | every listed ELO prefix beginning with 4 is matched by an alternative of the pattern |
| `BrandPattern.EloPrefixFrom5GivesRule` | card.io/src/main/java/io/card/payment/CreditCardNumber.java:19-20 | every listed ELO prefix beginning with 5 is matched by an alternative of the pattern |
| `BrandPattern.EloPrefixFrom6GivesRule` | card.io/src/main/java/io/card/payment/CreditCardNumber.java:19-20 | every listed ELO prefix beginning with 6 is matched by an alternative of the pattern |
| `BrandPattern.HiperCardIffPrefix` | card.io/src/main/java/io/card/payment/CreditCardNumber.java:18 | the HIPER check accepts exactly the strings that start with 3841 or 606282 |
| `BrandPattern.PatternMatchExtends` | card.io/src/main/java/io/card/payment/CreditCardNumber.java:179-183 | appending any characters, digits or not, to a matching number keeps it matching |
| `BrandPattern.PatternDependsOnlyOnPrefix` | card.io/src/main/java/io/card/payment/CreditCardNumber.java:179-183 | when no alternative inspects more than n characters, the verdict is the verdict on the first n characters |
| `BrandPattern.EloDependsOnSixChars` | card.io/src/main/java/io/card/payment/CreditCardNumber.java:163-165 | the ELO verdict is decided by the first six characters |
| `BrandPattern.HiperDependsOnSixChars` | card.io/src/main/java/io/card/payment/CreditCardNumber.java:167-169 | the HIPER verdict is decided by the first six characters |
| `BrandPattern.LengthRules` | card.io/src/main/java/io/card/payment/CreditCardNumber.java:171-177 | the ELO length rule accepts exactly 16, the HIPER rule exactly 16 and 19 |
| `BrandPattern.KnownPrefixes` | card.io/src/main/java/io/card/payment/CreditCardNumber.java:18-20 | `60628212345` is HIPER; `401178` and `3841` followed by anything are ELO and HIPER |
| `CardFormat.FormatSixteenString` | card.io/src/main/java/io/card/payment/CreditCardNumber.java:87-98 | the result has length 19, blanks at indices 4, 9 and 14, and deleting those three blanks gives back the 16 input characters |
| `CardFormat.FormatFifteenString` | card.io/src/main/java/io/card/payment/CreditCardNumber.java:76-85 | the result has length 17, blanks at indices 4 and 11, and deleting those two blanks gives back the 15 input characters |
| `CardFormat.FormatStringWith` | card.io/src/main/java/io/card/payment/CreditCardNumber.java:55-74 | on an exact match of 16 (or 15) working digits with the type's length the result is that layout of the digits; in every other case it is the original `numStr` |
| `CardFormat.FormatString` | card.io/src/main/java/io/card/payment/CreditCardNumber.java:51-53 | the same, with the digits filtered and the type taken from the classifier |
| `CardFormat.Layout16Unique` | card.io/src/main/java/io/card/payment/CreditCardNumber.java:87-98 | the 4-4-4-4 layout of a given digit string is a single string |
| `CardFormat.Layout15Unique` | card.io/src/main/java/io/card/payment/CreditCardNumber.java:76-85 | the 4-6-5 layout of a given digit string is a single string |
| `CardFormat.SixteenBlanksExactly` | card.io/src/main/java/io/card/payment/CreditCardNumber.java:87-98 | for a digit string, a character of the 16-digit layout is a blank if and only if its index is 4, 9 or 14 |
| `CardFormat.FifteenBlanksExactly` | card.io/src/main/java/io/card/payment/CreditCardNumber.java:76-85 | for a digit string, a character of the 15-digit layout is a blank if and only if its index is 4 or 11 |
| `CardFormat.SixteenKeepsDigits` | card.io/src/main/java/io/card/payment/CreditCardNumber.java:87-98 | filtering the digits out of the 16-digit layout gives the digits of its input |
| `CardFormat.FifteenKeepsDigits` | card.io/src/main/java/io/card/payment/CreditCardNumber.java:76-85 | filtering the digits out of the 15-digit layout gives the digits of its input |
| `CardFormat.FormatKeepsDigits` | card.io/src/main/java/io/card/payment/CreditCardNumber.java:55-74 | formatting never adds, drops or reorders a digit, whichever branch is taken |
| `CardFormat.FormatRoundTrip` | card.io/src/main/java/io/card/payment/CreditCardNumber.java:55-74 | formatting a digit string and then deleting the blanks gives the digit string back |
| `CardFormat.FormatIdempotent` | card.io/src/main/java/io/card/payment/CreditCardNumber.java:55-74 | with digit filtering on, formatting an already formatted string changes nothing |
| `CardFormat.WholeSixteenFormatted` | card.io/src/main/java/io/card/payment/CreditCardNumber.java:62-68 | a complete 16-digit number whose classified type has length 16 gets the 16-digit layout |
| `CardFormat.WholeFifteenFormatted` | card.io/src/main/java/io/card/payment/CreditCardNumber.java:62-70 | a complete 15-digit number whose classified type has length 15 gets the 15-digit layout |
| `CardFormat.KnownSixteenFormat` | card.io/src/main/java/io/card/payment/CreditCardNumber.java:51-53 | `4111111111111111` with a 16-digit type is shown as `4111 1111 1111 1111` |
| `CardFormat.SixteenLayoutOfTestNumber` | card.io/src/main/java/io/card/payment/CreditCardNumber.java:87-98 | the 16-digit layout of `4111111111111111` is `4111 1111 1111 1111` |
| `CardFormat.KnownFifteenFormat` | card.io/src/main/java/io/card/payment/CreditCardNumber.java:51-53 | `378282246310005` with a 15-digit type is shown as `3782 822463 10005` |
| `CardFormat.FifteenLayoutOfTestNumber` | card.io/src/main/java/io/card/payment/CreditCardNumber.java:76-85 | the 15-digit layout of `378282246310005` is `3782 822463 10005` |
| `CardFormat.PartialNumberUnchanged` | card.io/src/main/java/io/card/payment/CreditCardNumber.java:73 | a number still being typed comes back exactly as given |
| `Expiry.IsDateValid` | card.io/src/main/java/io/card/payment/CreditCardNumber.java:100-120 | no contract of its own: the source's cascade of checks with `thisMonth = MONTH + 1`; characterized by `Expiry.IsDateValidIffInWindow` and `Expiry.IsDateValidLexicographic` |
| `Expiry.IsDateValidIffInWindow` | card.io/src/main/java/io/card/payment/CreditCardNumber.java:100-120 | a month/year passes if and only if the month is 1..12 and its month index lies between the current month and December of the current year plus the bound, both included |
| `Expiry.IsDateValidLexicographic` | card.io/src/main/java/io/card/payment/CreditCardNumber.java:100-120 | a month/year passes if and only if 1 ≤ m ≤ 12, (y, m) ≥ (thisYear, thisMonth) lexicographically, and y ≤ thisYear + bound |
| `Expiry.WindowIsConvex` | card.io/src/main/java/io/card/payment/CreditCardNumber.java:100-120 | every month between two valid months is valid |
| `Expiry.WindowEnds` | card.io/src/main/java/io/card/payment/CreditCardNumber.java:109-117 | the current month and December of the last allowed year pass; the month before now and January after the last allowed year fail |
| `Expiry.KnownDates` | card.io/src/main/java/io/card/payment/CreditCardNumber.java:100-120 | with the clock at June 2024, 6/2024 passes, while 5/2024, 1/(2025+bound) and month 13 fail |
| `Expiry.GetDateFormatForLength` | card.io/src/main/java/io/card/payment/CreditCardNumber.java:137-145 | a pattern exists exactly for lengths 4 and 6; its length equals the digit count, and it is `MM` followed by `y`s |
| `Expiry.GetDateForString` | card.io/src/main/java/io/card/payment/CreditCardNumber.java:147-160 | no date unless the filtered digit count is 4 or 6; for 4 digits the parse uses `MMyy`, and for 6 digits `MMyyyy` |
| `Expiry.IsDateStringValid` | card.io/src/main/java/io/card/payment/CreditCardNumber.java:122-127 | false whenever the filtered digit count is neither 4 nor 6 |
| `Expiry.DateStringValidIffParsedInWindow` | card.io/src/main/java/io/card/payment/CreditCardNumber.java:122-135 | a date string is valid exactly when `getDateForString` yields a date whose `getMonth()+1` and `getYear()+1900` pass the window check |
| `Expiry.DateStringIgnoresPunctuation` | card.io/src/main/java/io/card/payment/CreditCardNumber.java:122-124 | separators such as `/` in a date string change neither entry point's answer |
| `Expiry.KnownDateString` | card.io/src/main/java/io/card/payment/CreditCardNumber.java:122-135 | with a parser reading `0627` as June 2027, `06/27` is valid in June 2024 when at least three future years are allowed |

## Left out

- `LocalizedStringsES_MX.java`: a static key-to-string table with no algorithmic content.
- The clock and `CreditCard.EXPIRY_MAX_FUTURE_YEARS` are not modelled. Both are
  parameters of the expiry functions, and the lemmas that need a calendar month
  ask for `0 <= now.month < 12`, which is what `Calendar.MONTH` yields.
- `SimpleDateFormat` parsing is not modelled. That covers non-lenient field
  checks, the two-digit-year century window of `yy`, and leftover input. It is
  library behaviour, so parsing is a parameter that returns a date or fails.
  As a result, a month of 13 gives no date only if the parser rejects it, and
  the model does not prove that.
- `CardType.fromCardNumber` and `numberLength()` are not modelled; the card
  type is a classifier parameter.
- `StringHelper.getDigitsOnlyString` is not modelled. It is specified as
  keeping the ASCII digits in order.
- Digits are the ASCII digits `'0'..'9'` only. Java's `Character.isDigit` also
  accepts other Unicode decimal digits. Apart from the Findings model, the
  model does not follow that.
- `java.util.regex` is not modelled. The two patterns are prefix-rule tables
  with the same meaning.
- Java's 32-bit `int` arithmetic is not modelled: the Luhn sum, the position
  counter, `thisYear + EXPIRY_MAX_FUTURE_YEARS` and `getYear() + 1900`. None of
  them can wrap for inputs of realistic length or date.
- Null arguments are not modelled. In the source they throw
  `NullPointerException`.
- `Luhn.PassesLuhnChecksum`: it deliberately departs from the source on strings
  that hold U+FFFF. The source's loop takes that character for
  `CharacterIterator.DONE` and stops there. The model rejects the string like
  any other non-digit (second row of Findings).
- `Luhn.AsWrittenFrom`, `Luhn.PassesLuhnAsWritten`: the contract covers only inputs whose
  characters all lie below U+0660, the first non-ASCII decimal digit.
  `IsJavaDigit` lists two non-ASCII digit ranges (U+0660..U+0669 and
  U+FF10..U+FF19), a subset of what `Character.isDigit` accepts. Any other
  Unicode digit, such as U+0966, is treated as a non-digit and gives
  `Verdict(false)`, where the Java code would throw.
- Strings are modelled as sequences of Unicode characters, not UTF-16 code
  units. With `filterDigits` false, `length()` and the positions used by
  `charAt` therefore differ from Java for characters outside the Basic
  Multilingual Plane. For example, an emoji followed by fifteen digits is
  seventeen code units to Java but sixteen characters here. Lone surrogates
  cannot be represented at all.

## Findings

| source | as written | input that shows it | evidently intended | confidence | as-written member | corrected member |
|---|---|---|---|---|---|---|
| card.io/src/main/java/io/card/payment/CreditCardNumber.java:37-41 | the loop tests `Character.isDigit(c)`, which also accepts non-ASCII Unicode digits, then indexes the 10-entry table with `c - '0'` | the one-character string U+0663 (Arabic-Indic three): `c - '0'` is 1587 and `sums[0][1587]` throws `ArrayIndexOutOfBoundsException` | reject every character that is not an ASCII digit and return false | high, not executed | `Luhn.PassesLuhnAsWritten` | `Luhn.PassesLuhnChecksum` |
| card.io/src/main/java/io/card/payment/CreditCardNumber.java:35-43 | the loop runs while `c != CharacterIterator.DONE`, and `StringCharacterIterator` returns a U+FFFF of the text unchanged, so the walk ends at the rightmost U+FFFF and the verdict covers only the characters to its right | `"12a"` followed by U+FFFF: the walk stops at once and `sum % 10 == 0` holds with sum 0, so the method returns true for a string holding a letter (`Luhn.DoneAcceptsLetters`; in general `Luhn.DoneHidesPrefix`) | reject the string, since U+FFFF is not a digit | high, not executed | `Luhn.PassesLuhnAsWritten` | `Luhn.PassesLuhnChecksum` |
