# capyboletos in Dafny

A model of the boleto logic of capyboletos. A boleto is a Brazilian payment
slip, printed both as a 44-digit barcode and as a 46-, 47- or 48-digit
"typeable line". The model covers:

- the Modulo-10 and Modulo-11 check-digit routines (`src/utils/module.ts`);
- the `substringReplace` helper (`src/utils/string.ts`);
- the classification and field extraction of `src/capyboleto.ts`;
- the older, larger `src/old.js`: conversion between barcode and line, the
  check-digit validator, barcode generation and the `validarBoleto` report.

Codes are strings of characters. Non-digits are dropped exactly as
`replace(/[^0-9]/g, "")` drops them. The JavaScript string primitives the
source uses (`substr`, `substring`, `slice`, `charAt`, `splice`) are modelled
with their behaviour on negative and out-of-range arguments, so short or
malformed codes behave as they do in the source.

The points where the source throws are modelled as `Err(UndefinedReference)`.
This happens when a collection code's reference digit (third digit) is not
6..9 and the code reads `.mod` or `.efetivo` of `undefined`.

Amounts are kept as the text `parseFloat` would read. `Cents` gives their
value in cents. Due dates are kept as the four-digit day factor printed in
the code.

Modules:

- `Wrappers`: Option and Result.
- `Digits`: digit strings and their numeric value.
- `JsString`: the JavaScript string primitives.
- `StringUtil`: `substringReplace`.
- `Checksum`: the Modulo-10 and Modulo-11 check digits.
- `Classifier`: code type, issuer segment, reference digit.
- `Fields`: due date and amount.
- `Converter`: barcode and line conversion, check-digit validation.
- `RoundTrip`: properties relating the conversions to each other.
- `Validator`: `validarBoleto`.

## Model

| member | source | states |
|---|---|---|
| Digits.KeepDigits | src/capyboleto.ts:31 | the cleaned code holds digits only, is no longer than the input, and is the input itself when the input is all digits |
| Digits.KeepDigitsConcat | src/old.js:13 | cleaning distributes over concatenation, so separators between digit groups vanish |
| Digits.DecimalString | src/utils/module.ts:12 | the decimal text of a number reads back as that number, and it is one character long exactly when the number is below 10 |
| Digits.ParseInt | src/capyboleto.ts:134 | `parseInt` of a digit string is NaN (None) exactly for the empty string, and otherwise is the positional value `NumberValue` of the digits, below 10^length |
| Digits.NumberValueConcat | src/capyboleto.ts:165 | the value of a concatenation is the left value shifted by the right length plus the right value |
| JsString.Substr | src/capyboleto.ts:39 | `substr(start, length)` is the in-range window, is cut at the end of the string, is empty past the end or for a length of zero or below, and keeps a digit string digits |
| JsString.SubstrFrom | src/old.js:297 | `substr(start)` is the suffix from `start` and keeps digits |
| JsString.Substring | src/capyboleto.ts:38 | `substring(a, b)` is the window for in-range ends and empty when both ends are at or below 0 |
| JsString.SubstringFrom | src/capyboleto.ts:38 | `substring(a)` is the suffix from `a`, or the whole string for a negative `a` |
| JsString.Slice | src/old.js:302-311 | `slice(b, e)` is the window for in-range ends |
| JsString.SliceFrom | src/old.js:311 | `slice(b)` is the suffix from `b`, and empty past the end |
| JsString.CharAt | src/capyboleto.ts:45 | `charAt(i)` is the one-character string at `i`, or empty past the end |
| JsString.Splice1 | src/capyboleto.ts:158 | `splice(i, 1)` removes exactly the character at `i`, and does nothing past the end |
| JsString.SubstrFromExamples | test/string.test.ts:12-24 | the suffix cases of the tests, including a negative start counting from the end |
| JsString.SubstrLengthExamples | test/string.test.ts:26-43 | the windowed cases of the tests, including empty results for lengths of zero and below |
| StringUtil.SubstringReplace | src/utils/string.ts:4-25 | for an in-range start and size, the result is the prefix, then the whole replacement, then the rest after the cut; with no size, the tail is replaced |
| StringUtil.NegativeStart | src/utils/string.ts:11 | a negative start counts from the end of the string |
| StringUtil.NegativeSize | src/utils/string.ts:17 | a negative size keeps that many characters at the end |
| StringUtil.DropFirst | src/capyboleto.ts:170 | replacing the first character by "" drops it |
| StringUtil.ExampleFromTests | test/string.test.ts:5-8 | the test's example: the replacement is inserted whole |
| Checksum.Mod10 | src/utils/module.ts:4-29 | the Modulo-10 digit is 0..9, brings the weighted sum (weights 2,1,2,… from the right, two-digit products summed digit by digit) to a multiple of ten, and is 0 exactly when the sum already is one |
| Checksum.ProductDigitSum | src/utils/module.ts:12-20 | summing the digits of a product of at most 18 equals subtracting 9 from it when it exceeds 9 |
| Checksum.CalculateModule10 | src/utils/module.ts:4-29 | the two loops compute the Modulo-10 digit of the input's digits |
| Checksum.SumDigitChars | src/utils/module.ts:18-20 | the second loop adds up the digit characters of the products' text |
| Checksum.Mod10Examples | test/module.test.ts:5-13 | 261533 gives 4 and 17643 gives 8 |
| Checksum.DacDigit | src/utils/module.ts:46-50 | the digit is 0..9 and makes the sum a multiple of 11, except that the remainders 0 and 1 give 0 and the remainder 10 gives 1 |
| Checksum.Mod11 | src/utils/module.ts:34-51 | the Modulo-11 digit as written (weights 4,3,2,9,8,7,6,5 from the left) completes its weighted sum to a multiple of 11, or is 0 when the remainder is 1 |
| Checksum.CalculateModule11 | src/utils/module.ts:34-51 | the loop computes that digit |
| Checksum.Mod11FromRight | src/utils/module.ts:34-51 | the same digit with the FEBRABAN weights 2..9 counted from the right |
| Checksum.Mod11IsFebrabanWhenLengthIs3Mod8 | src/utils/module.ts:35-44 | the two weightings agree on every digit string whose length is 3 mod 8, such as the 11-digit blocks and the 43-digit barcode body |
| Checksum.Mod11TestMismatch | test/module.test.ts:15-19 | on 5555555555 the code gives 9, while the test expects 8, which is the FEBRABAN digit |
| Classifier.CodeTypeIdentifier | src/capyboleto.ts:9-25 | barcode exactly for 44 digits, line exactly for 46, 47 or 48 digits, otherwise the wrong-length category |
| Classifier.CodeTypeDependsOnDigitCount | src/old.js:8-28 | two inputs with equally many digits get the same category |
| Classifier.SignatureAtFixedPlaces | src/capyboleto.ts:37-42 | the credit-card mark is a run of 14 zeros at the end or at positions 5..18, and no code shorter than 14 digits carries it |
| Classifier.Segment | src/old.js:47-60 | the segment table is defined exactly for keys 1..7 and 9, never yields a bank type, and yields "others" exactly for 6 and 9 |
| Classifier.BoletoTypeIdentifier | src/capyboleto.ts:30-68 | credit card exactly when the mark is present; otherwise bank-like exactly when the code does not start with 8 or its second digit names no segment; a code starting with 8 whose second digit names a segment gets that segment's type |
| Classifier.BoletoTypeOfDigits | src/capyboleto.ts:30-68 | classifying a code or only its digits gives the same type |
| Classifier.LegacyBoletoType | src/old.js:33-63 | the old classifier is undefined exactly for an unmarked code starting with 8 whose second digit names no segment, and agrees with the new one otherwise |
| Classifier.LegacyBankLikeIff | src/old.js:33-63 | the old classifier sends a code to the bank layouts exactly when it is marked, empty, or does not start with 8 |
| Classifier.IdentifyReference | src/capyboleto.ts:74-105 | the reference exists exactly when the third digit is 6..9; its modulus is 10 exactly for 6 and 7, and it is effective exactly for 6 and 8 |
| Classifier.SameReference | src/capyboleto.ts:74-105 | two digit codes with the same third digit get the same reference |
| Fields.DueDateFactor | src/capyboleto.ts:115-137 | non-bank codes get factor 0; bank codes read digits 5..8 of a barcode or 33..36 of a line; a bank-like code of wrong length has none; the factor is at most 9999 |
| Fields.DateFactorText | src/capyboleto.ts:115-137 | the text handed to `parseInt` is at most four digits: "0" for a non-bank code, the date window of a bank-like barcode or line, empty for a bank-like code of wrong length |
| Fields.ValueTextCents | src/capyboleto.ts:165 | inserting the decimal point two digits from the end keeps the amount: its cents equal the value of the digits |
| Fields.ZeroStripped | src/capyboleto.ts:165-172 | the stripped text is a suffix of the text, non-empty when the text is, has no '0' in second place, and every removed position after the first held a '0' |
| Fields.StripZeros | src/capyboleto.ts:166-172 | the loop computes that suffix |
| Fields.StripKeepsAmount | src/capyboleto.ts:166-172 | the stripped text is still an amount with the same cents part, and the amount is kept when the text starts with '0' |
| Fields.ZerosSuffixKeepsCents | src/capyboleto.ts:166-172 | removing leading zeros that stop before the point keeps the amount text and its value |
| Fields.AmountTextTail | src/capyboleto.ts:165 | an amount text's value is its first digit in its place plus the value of the rest |
| Fields.StripDropsLeadingDigit | src/capyboleto.ts:166-172 | when a non-zero digit is followed by '0', stripping loses that digit's whole contribution to the amount |
| Fields.StripDropsLeadingDigitExample | src/old.js:172-176 | 100000123.45 is stripped to 0123.45 |
| Fields.LeadingZerosStripped | src/capyboleto.ts:166-172 | only leading zeros are removed, and the result is a suffix |
| Fields.LeadingZerosStrippedKeepsAmount | src/capyboleto.ts:166-172 | removing leading zeros keeps the amount, and the integer part no longer starts with '0' unless it is the single digit 0 |
| Fields.SpliceWindow | src/capyboleto.ts:155-160 | on a line, dropping the check digit at 11 and taking the window 4..14 yields digits 4..10, 12..13 and then 14..15 |
| Fields.CollectionValue | src/capyboleto.ts:142-178 | a non-effective reference gives "0"; an effective one gives the stripped amount from barcode digits 4..14, or from line digits 4..10, 12..15 |
| Fields.IdentifyBarcodeCollectionValue | src/capyboleto.ts:142-178 | the method computes that amount |
| Fields.LegacyCollectionValue | src/old.js:152-182 | the old routine throws exactly when the reference is undefined, and otherwise gives the same amount |
| Fields.LegacyIdentifyBarcodeCollectionValue | src/old.js:152-182 | the method computes it |
| Fields.Value | src/old.js:197-237 | bank-like codes give the stripped amount from barcode digits 9..18 or line digits 37..46; other codes defer to the collection amount; wrong length gives no amount |
| Fields.IdentifyValue | src/old.js:197-237 | the method, with its two stripping loops, computes it |
| Converter.WithCheckDigit | src/old.js:251-263 | the digits of the code, followed by one more character, which is their check digit |
| Converter.CarriesCheckDigitIff | src/old.js:251-263 | a digit string ends in its own check digit exactly when appending the check digit to its body rebuilds it |
| Converter.BarcodeToLine | src/old.js:277-336 | conversion fails exactly for a collection code without a reference |
| Converter.LineToBarcode | src/old.js:349-376 | the barcode is a digit string |
| Converter.LineToBarcodeBank | src/old.js:356-363 | a bank-like line of 47 or more digits becomes 44 digits: the general check digit and the due date and amount (line 32..46) go to 4..18, the three fields without their check digits fill the rest, and any digit past 46 is dropped |
| Converter.LineToBarcodeCollection | src/old.js:364-373 | a 48-digit collection line loses its four block check digits |
| Converter.BarcodeCheckDigit | src/old.js:391-404 | the digit is the chosen modulus' check digit of the code without the given position |
| Converter.ValidateWithCheckDigits | src/old.js:417-501 | fails exactly for a collection code without a reference; rejects wrong lengths; otherwise accepts exactly the codes whose general check digit, or each block's check digit, matches; a 47-digit collection line is always rejected, because its rebuild has 48 digits |
| Converter.ShortCollectionLineRejected | src/old.js:437-474 | no 47-digit line routed to the collection layouts is accepted |
| Converter.BarcodeCheck | src/old.js:478-498 | rebuilding a barcode with its recomputed digit gives it back exactly when the digit in place is right |
| Converter.BankLineCheck | src/old.js:426-436 | rebuilding a line of 32 digits or more in the bank layout gives it back exactly when its three field check digits are right |
| Converter.CollectionLineCheckTen | src/old.js:443-447 | rebuilding a Modulo-10 collection line gives it back exactly when its four block digits are right |
| Converter.CollectionLineCheckEleven | src/old.js:448-474 | the four Modulo-11 comparisons hold exactly when the four block digits are right |
| Converter.GenerateBarcode | src/old.js:514-529 | the generated barcode keeps every digit of the converted line except position 4, which becomes a valid general check digit |
| RoundTrip.BarcodeToLineBank | src/old.js:284-299 | a 44-digit bank-like barcode becomes the three checked fields, the general check digit and the due date and amount |
| RoundTrip.BarcodeToLineCollection | src/old.js:313-333 | a collection barcode becomes its four 11-digit blocks, each followed by its check digit |
| RoundTrip.BankLineOfBarcodeIsValid | src/old.js:284-299 | the line made from a 44-digit bank-like barcode passes its own checks, and the validator accepts it when it does not start with 8 |
| RoundTrip.BankBarcodeRoundTrip | src/old.js:277-376 | converting a 44-digit barcode that does not start with 8 to a line and back gives the barcode |
| RoundTrip.CollectionBarcodeRoundTrip | src/old.js:277-376 | the same for a collection barcode whose line is not mistaken for a credit-card code |
| RoundTrip.BankLineRoundTrip | src/old.js:349-363 | converting a 47-digit line that does not start with 8 to a barcode and back gives the line exactly when the validator accepts the line |
| RoundTrip.CollectionLineRoundTrip | src/old.js:364-373 | the same for collection lines whose barcode is not mistaken for a credit-card code |
| RoundTrip.LongBankLineLosesLastDigit | src/old.js:426-436 | a 48-digit line that does not start with 8 and whose first 47 digits are a valid bank line is accepted whatever its last digit, yet converts to the barcode of those 47 digits, so it does not survive line to barcode to line |
| RoundTrip.CollectionLineMistakenForCard | src/old.js:284-299 | a valid 48-digit collection line (reference 7, Luhn blocks) whose barcode ends in fourteen zeros turns back into a 47-digit bank line, so it does not survive line to barcode to line |
| RoundTrip.BankFieldsAgree | src/capyboleto.ts:115-137 | a 44-digit barcode that does not start with 8 and its line carry the same due-date factor and the same amount |
| RoundTrip.CollectionValueAgrees | src/capyboleto.ts:142-178 | a collection barcode and its line carry the same amount |
| RoundTrip.GeneratedBarcodeValidates | src/old.js:514-529 | the validator accepts the barcode generated from any 47-digit line that does not start with 8 |
| RoundTrip.BankBarcodeCheckIsFebraban | src/old.js:481-483 | on any 44-digit barcode, the bank barcode check (digit 4) accepts exactly when digit 4 is the FEBRABAN right-to-left Modulo-11 digit of the 43 other digits |
| RoundTrip.CollectionBlockCheckIsFebraban | src/old.js:326-329 | an 11-digit block's Modulo-11 digit is the FEBRABAN digit |
| RoundTrip.FormattedLineKeepsDigits | src/old.js:301-312 | the formatted line of a 44-digit bank-like barcode is 54 characters whose digits are the unformatted line, with points at 5, 17 and 30 and spaces at 11, 24, 37 and 39 |
| RoundTrip.FormatLineSeparators | src/old.js:301-312 | the `formatada` layout places its three points and four spaces at fixed positions |
| Validator.Repaired | src/old.js:541-545 | 36 and 46 digits are padded with zeros to 47; other lengths are kept; the original digits stay in front |
| Validator.ValidateBoleto | src/old.js:531-598 | the report rejects impossible lengths with the digit count; it raises exactly when the validator throws; it succeeds exactly when the validator accepts; a failed check-digit step gives the check-digit message and no result fields; a success carries the category, issuer type, barcode, line, due-date factor and amount (`Describes`); a 36-digit input and a 47-digit collection line always fail; the "barcode only" rejection never occurs; for a successful 44-digit barcode or 47-digit line that does not start with 8, the barcode and line convert into each other |
| Validator.CheckDigits | src/old.js:556-595 | on an allowed length: raises exactly when the validator throws; succeeds exactly when it accepts; a failure carries the check-digit message and no fields; a success carries fields that `Describes` the code |
| Validator.Describe | src/old.js:575-594 | the filled-in fields hold the category, the issuer type, the due-date factor and amount of the code, the code in its own form and its conversion in the other, and, for a 44-digit barcode or 47-digit line that does not start with 8, a barcode and line that convert back into each other |

## Left out

- Message texts: the report carries a `Message` value in place of the
  Portuguese sentences.
- Dates: `identifyDate` turns the factor into a date from 1997-10-07 with
  `moment`. The model stops at the day factor, because calendar arithmetic
  is not part of the boleto logic.
- `identificarData` in src/old.js reads the unbound name `code`, so every
  call throws a `ReferenceError`, and so does every successful
  `validarBoleto`. The model fills the report's due date with the
  `identifyDate` semantics of src/capyboleto.ts instead.
- `parseFloat` and floating point: amounts are the text `parseFloat` reads.
  The amount in cents is stated by `Fields.Cents`. An empty amount (NaN) is
  the empty string.
- Checksum.CalculateModule11: requires a digit string. The source applies
  `parseInt` to every character without cleaning, and a non-digit makes the
  result NaN. All callers in the source pass cleaned digits.
- Type guards (`typeof code !== "string"` and similar) and the second,
  ignored argument of `boletoTypeIdentifier`: values are always strings
  here.
- `calculaMod10`, `calculaMod11` and `substringReplace` in src/old.js
  duplicate src/utils/module.ts and src/utils/string.ts. They are modelled
  once, in `Checksum` and `StringUtil`.
- `identifyBarcodeCollectionValue` of src/capyboleto.ts and the old
  classifier functions are modelled once each where their bodies agree.
  Where they differ, both are modelled, for example `BoletoTypeIdentifier`
  and `LegacyBoletoType`.
- `calculaDVCodBarras` with a modulus other than 10 or 11 returns
  `undefined`. `Modulus` has only the two values, because every caller
  passes 10 or 11.
- In-place updates of arrays made with `split("")` and joined again are
  modelled on values through `Splice1`. No array escapes these functions.
- src/utils/string.ts does not export the `leaveOnlyNumbers` and `substr`
  that src/capyboleto.ts and the string tests import. The model uses the
  `replace` cleaning and the built-in `substr` semantics, which those tests
  describe.
- Converter.LineToBarcode: states only that the result is digits. The layouts
  are stated by `LineToBarcodeBank` (bank-like lines of 47 digits or more) and
  `LineToBarcodeCollection` (48-digit collection lines). Together these cover
  every line the validator accepts, because a 47-digit collection line is
  never accepted (`Converter.ShortCollectionLineRejected`).
- RoundTrip.BankBarcodeRoundTrip, RoundTrip.BankLineRoundTrip, RoundTrip.BankFieldsAgree:
  stated only for 44-digit barcodes and 47-digit lines that do not start
  with 8. A credit-card code that starts with 8 can lose its mark in the
  conversion. A 48-digit line in the bank layout is accepted but does not
  survive the round trip (`RoundTrip.LongBankLineLosesLastDigit`).
- Converter.BarcodeToLine: states only its error condition. The resulting
  lines are stated by `RoundTrip.BarcodeToLineBank` and
  `RoundTrip.BarcodeToLineCollection`.

## Findings

| source | as written | input that shows it | evidently intended | confidence | as-written member | corrected member |
|---|---|---|---|---|---|---|
| src/utils/module.ts:35-44 | Modulo-11 weights 4,3,2,9,8,7,6,5 run from the leftmost digit | "5555555555": the code gives 9, the test expects 8 | FEBRABAN weights 2..9 run from the rightmost digit; the two agree only on lengths that are 3 mod 8 | high; not executed | Checksum.Mod11TestMismatch | Checksum.Mod11IsFebrabanWhenLengthIs3Mod8 |
| src/capyboleto.ts:166-172 | the loop drops the first character whenever the second is '0', including a non-zero first digit | "100000123.45" becomes "0123.45", so 100000123.45 is read as 123.45 | only leading zeros are removed and the amount is kept | high; not executed | Fields.StripDropsLeadingDigit | Fields.LeadingZerosStrippedKeepsAmount |

The Modulo-11 digit as written agrees with the FEBRABAN digit on every
length the boleto layouts use: 11-digit blocks and the 43-digit barcode
body. So the rest of the model keeps `Checksum.Mod11` without changing any
result.

The amount operations (`Fields.CollectionValue`, `Fields.Value` and their
methods) keep the stripping loop as written, so that they describe what the
source computes. `Fields.LeadingZerosStripped` is the intended replacement.
