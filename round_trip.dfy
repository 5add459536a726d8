/** How the two forms of a code relate: the round trips between barcode and
    typeable line, the check that decides whether a line round-trips, the
    fields both forms agree on, and the check digits against the FEBRABAN
    right-to-left weights. */
module RoundTrip {
  import opened Wrappers
  import opened Digits
  import opened JsString
  import opened Checksum
  import opened Classifier
  import opened Fields
  import opened Converter

  /** The 47-digit line layout of a 44-digit bank barcode: the free field
      (19..44) split over three Modulo-10 blocks, the first led by the bank
      and currency digits, then the general check digit, date factor and
      amount (4..19). */
  function BankLineOf(b: string): (l: string)
    requires IsDigits(b) && |b| == 44
    ensures |l| == 47
  {
    WithCheckDigit(b[..4] + b[19..24], Ten) + WithCheckDigit(b[24..34], Ten)
    + WithCheckDigit(b[34..44], Ten) + b[4..19]
  }

  /** The 48-digit line layout of a 44-digit collection barcode: four blocks
      of eleven digits, each followed by its check digit. */
  function CollectionLineOf(b: string, m: Modulus): (l: string)
    requires IsDigits(b) && |b| == 44
    ensures |l| == 48
  {
    WithCheckDigit(b[..11], m) + WithCheckDigit(b[11..22], m)
    + WithCheckDigit(b[22..33], m) + WithCheckDigit(b[33..44], m)
  }

  /** Reading back the parts of a bank line built from its blocks. */
  lemma BankLineParts(l: string, w1: string, w2: string, w3: string, g: string)
    requires |w1| == 10 && |w2| == 11 && |w3| == 11 && |g| == 15
    requires l == w1 + w2 + w3 + g
    ensures l[..10] == w1 && l[10..21] == w2 && l[21..32] == w3 && l[32..] == g
    ensures l[..9] == w1[..9] && l[10..20] == w2[..10] && l[21..31] == w3[..10]
  {
  }

  /** Reading back the parts of a collection line built from its blocks. */
  lemma CollectionLineParts(l: string, w1: string, w2: string, w3: string, w4: string)
    requires |w1| == 12 && |w2| == 12 && |w3| == 12 && |w4| == 12
    requires l == w1 + w2 + w3 + w4
    ensures l[..12] == w1 && l[12..24] == w2 && l[24..36] == w3 && l[36..] == w4
    ensures l[..11] == w1[..11] && l[12..23] == w2[..11] && l[24..35] == w3[..11] && l[36..47] == w4[..11]
  {
  }

  /** Reading back three consecutive parts. */
  lemma ThreeParts(x: string, p: string, q: string, r: string)
    requires x == p + q + r
    ensures x[..|p|] == p && x[|p|..|p| + |q|] == q && x[|p| + |q|..] == r
  {
  }

  /** What the bank line layout holds, position by position. */
  lemma BankLineOfFacts(b: string)
    requires IsDigits(b) && |b| == 44
    ensures var l := BankLineOf(b);
      && IsDigits(l) && |l| == 47 && l[0] == b[0]
      && l[..9] == b[..4] + b[19..24] && l[10..20] == b[24..34] && l[21..31] == b[34..44]
      && l[32..] == b[4..19] && l[32..47] == b[4..19]
      && l[..9] + l[10..20] + l[21..31] == b[..4] + b[19..24] + b[24..34] + b[34..44]
      && BankLineValid(l)
  {
    var w1, w2, w3 := WithCheckDigit(b[..4] + b[19..24], Ten), WithCheckDigit(b[24..34], Ten), WithCheckDigit(b[34..44], Ten);
    var l := BankLineOf(b);
    BankLineParts(l, w1, w2, w3, b[4..19]);
    assert w1[0] == (b[..4] + b[19..24])[0];
  }

  /** What the collection line layout holds, position by position. */
  lemma CollectionLineOfFacts(b: string, m: Modulus)
    requires IsDigits(b) && |b| == 44
    ensures var l := CollectionLineOf(b, m);
      && IsDigits(l) && |l| == 48 && l[0] == b[0] && l[2] == b[2]
      && l[..11] == b[..11] && l[12..23] == b[11..22] && l[24..35] == b[22..33] && l[36..47] == b[33..44]
      && CollectionLineValid(l, m)
  {
    var w1, w2, w3, w4 := WithCheckDigit(b[..11], m), WithCheckDigit(b[11..22], m), WithCheckDigit(b[22..33], m), WithCheckDigit(b[33..44], m);
    var l := CollectionLineOf(b, m);
    CollectionLineParts(l, w1, w2, w3, w4);
    assert w1[..11] == b[..11];
  }

  /** codBarras2LinhaDigitavel on a 44-digit bank barcode builds the bank
      line layout. */
  lemma BarcodeToLineBank(b: string)
    requires IsDigits(b) && |b| == 44 && LegacyBankLike(b)
    ensures BarcodeToLine(b, false) == Ok(BankLineOf(b))
  {
    var novaLinha := Substr(b, 0, 4) + Substr(b, 19, 25) + Substr(b, 4, 1) + Substr(b, 5, 14);
    var free := b[19..44];
    assert novaLinha == b[..4] + free + b[4..5] + b[5..19];
    assert novaLinha[..9] == b[..4] + free[..5];
    assert novaLinha[9..19] == free[5..15];
    assert novaLinha[19..29] == free[15..];
    assert novaLinha[29..] == b[4..5] + b[5..19];
    assert free[..5] == b[19..24] && free[5..15] == b[24..34] && free[15..] == b[34..44];
    assert b[4..5] + b[5..19] == b[4..19];
  }

  /** codBarras2LinhaDigitavel on a 44-digit collection barcode builds the
      collection line layout under the modulus of its reference digit. */
  lemma BarcodeToLineCollection(b: string)
    requires IsDigits(b) && |b| == 44 && !LegacyBankLike(b) && IdentifyReference(b).Some?
    ensures BarcodeToLine(b, false) == Ok(CollectionLineOf(b, IdentifyReference(b).value.modulus))
  {
  }

  /** The line built from a 44-digit bank barcode passes its own check, and
      validarCodigoComDV accepts it when it does not start with '8'. */
  lemma BankLineOfBarcodeIsValid(b: string)
    requires IsDigits(b) && |b| == 44 && LegacyBankLike(b)
    ensures var l := BarcodeToLine(b, false).value;
      && IsDigits(l) && |l| == 47
      && BankLineValid(l)
      && (b[0] != '8' ==> ValidateWithCheckDigits(l, TypeableLine) == Ok(true))
  {
    BarcodeToLineBank(b);
    BankLineOfFacts(b);
    var l := BankLineOf(b);
    LegacyBankLikeIff(l);
  }

  /** A 44-digit barcode is rebuilt from its pieces. */
  lemma BarcodeFromPieces(r: string, b: string)
    requires |r| == 44 && |b| == 44
    requires r[4..19] == b[4..19]
    requires r[..4] + r[19..] == b[..4] + b[19..24] + b[24..34] + b[34..44]
    ensures r == b
  {
    var x := r[..4] + r[19..];
    assert b[..4] + b[19..24] + b[24..34] + b[34..44] == b[..4] + b[19..];
    assert r[..4] == x[..4] && r[19..] == x[4..];
    assert r == r[..4] + r[4..19] + r[19..];
    assert b == b[..4] + b[4..19] + b[19..];
  }

  /** Barcode to line to barcode is the identity on a 44-digit barcode that
      does not start with '8'. */
  lemma BankBarcodeRoundTrip(b: string)
    requires IsDigits(b) && |b| == 44 && b[0] != '8'
    ensures BarcodeToLine(b, false).Ok?
    ensures LineToBarcode(BarcodeToLine(b, false).value) == b
  {
    assert LegacyBankLike(b) by { LegacyBankLikeIff(b); }
    BarcodeToLineBank(b);
    BankLineOfFacts(b);
    var l := BankLineOf(b);
    assert LegacyBankLike(l) by { LegacyBankLikeIff(l); }
    LineToBarcodeBank(l);
    var r := LineToBarcode(l);
    BarcodeFromPieces(r, b);
  }

  /** Barcode to line to barcode is the identity on a collection barcode with
      a reference digit 6..9, as long as its line does not carry the
      credit-card zero run. */
  lemma CollectionBarcodeRoundTrip(b: string)
    requires IsDigits(b) && |b| == 44 && !LegacyBankLike(b) && IdentifyReference(b).Some?
    requires !CreditCardSignature(BarcodeToLine(b, false).value)
    ensures LineToBarcode(BarcodeToLine(b, false).value) == b
  {
    var m := IdentifyReference(b).value.modulus;
    BarcodeToLineCollection(b);
    CollectionLineOfFacts(b, m);
    var l := CollectionLineOf(b, m);
    assert !LegacyBankLike(l) by {
      LegacyBankLikeIff(b);
      LegacyBankLikeIff(l);
    }
    LineToBarcodeCollection(l);
    CollectionPieces(b);
  }

  lemma CollectionPieces(b: string)
    requires |b| == 44
    ensures b == b[..11] + b[11..22] + b[22..33] + b[33..44]
  {
  }

  /** The barcode of a 47-digit bank line, piece by piece. */
  lemma BankBarcodeOfLine(l: string)
    requires IsDigits(l) && |l| == 47 && LegacyBankLike(l)
    ensures var b := LineToBarcode(l);
      && IsDigits(b) && |b| == 44 && b[0] == l[0]
      && b[..4] + b[19..24] == l[..9] && b[24..34] == l[10..20] && b[34..44] == l[21..31]
      && b[4..19] == l[32..47]
  {
    LineToBarcodeBank(l);
    var b := LineToBarcode(l);
    var x := b[..4] + b[19..];
    ThreeParts(x, l[..9], l[10..20], l[21..31]);
    assert b[..4] + b[19..24] == x[..9] && b[24..34] == x[9..19] && b[34..44] == x[19..];
    assert b[0] == x[0] && l[0] == l[..9][0];
  }

  /** A 47-digit bank line survives line to barcode to line exactly when
      its three block check digits are right. */
  lemma BankLineRoundTrip(l: string)
    requires IsDigits(l) && |l| == 47 && l[0] != '8'
    ensures BarcodeToLine(LineToBarcode(l), false) == Ok(l)
        <==> ValidateWithCheckDigits(l, TypeableLine) == Ok(true)
  {
    LegacyBankLikeIff(l);
    BankBarcodeOfLine(l);
    var b := LineToBarcode(l);
    LegacyBankLikeIff(b);
    BarcodeToLineBank(b);
    BankLineRebuilt(l, b);
  }

  lemma BankLineRebuilt(l: string, b: string)
    requires IsDigits(l) && |l| == 47 && IsDigits(b) && |b| == 44
    requires b[..4] + b[19..24] == l[..9] && b[24..34] == l[10..20] && b[34..44] == l[21..31]
    requires b[4..19] == l[32..47]
    ensures BankLineOf(b) == l <==> BankLineValid(l)
  {
    var w1, w2, w3 := WithCheckDigit(l[..9], Ten), WithCheckDigit(l[10..20], Ten), WithCheckDigit(l[21..31], Ten);
    var r := BankLineOf(b);
    assert r == w1 + w2 + w3 + l[32..47];
    BankLineParts(r, w1, w2, w3, l[32..47]);
    BankLineParts(l, l[..10], l[10..21], l[21..32], l[32..47]);
    CarriesCheckDigitIff(l[..10], Ten);
    CarriesCheckDigitIff(l[10..21], Ten);
    CarriesCheckDigitIff(l[21..32], Ten);
  }

  /** A 48-digit collection line whose barcode is not mistaken for a
      credit-card code survives line to barcode to line exactly when each
      digit at 11, 23, 35 and 47 is the check digit of the eleven before it
      (`CollectionLineMistakenForCard` shows a valid line that does not). */
  lemma CollectionLineRoundTrip(l: string)
    requires IsDigits(l) && |l| == 48 && !LegacyBankLike(l) && IdentifyReference(l).Some?
    requires !LegacyBankLike(LineToBarcode(l))
    ensures BarcodeToLine(LineToBarcode(l), false) == Ok(l)
        <==> ValidateWithCheckDigits(l, TypeableLine) == Ok(true)
  {
    LineToBarcodeCollection(l);
    var b := LineToBarcode(l);
    var m := IdentifyReference(l).value.modulus;
    CollectionLineRebuilt(l, b, m);
    SameReference(b, l);
    BarcodeToLineCollection(b);
  }

  lemma CollectionLineRebuilt(l: string, b: string, m: Modulus)
    requires IsDigits(l) && |l| == 48
    requires b == l[..11] + l[12..23] + l[24..35] + l[36..47]
    ensures |b| == 44 && IsDigits(b) && b[2] == l[2]
    ensures CollectionLineOf(b, m) == l <==> CollectionLineValid(l, m)
  {
    CollectionBlocksOfBarcode(l, b);
    var w1, w2, w3, w4 := WithCheckDigit(l[..11], m), WithCheckDigit(l[12..23], m), WithCheckDigit(l[24..35], m), WithCheckDigit(l[36..47], m);
    var r := CollectionLineOf(b, m);
    assert r == w1 + w2 + w3 + w4;
    CollectionLineMatches(l, r, w1, w2, w3, w4, m);
  }

  lemma CollectionBlocksOfBarcode(l: string, b: string)
    requires IsDigits(l) && |l| == 48
    requires b == l[..11] + l[12..23] + l[24..35] + l[36..47]
    ensures |b| == 44 && IsDigits(b) && b[2] == l[2]
    ensures b[..11] == l[..11] && b[11..22] == l[12..23] && b[22..33] == l[24..35] && b[33..44] == l[36..47]
  {
  }

  lemma CollectionLineMatches(l: string, r: string, w1: string, w2: string, w3: string, w4: string, m: Modulus)
    requires IsDigits(l) && |l| == 48
    requires w1 == WithCheckDigit(l[..11], m) && w2 == WithCheckDigit(l[12..23], m)
    requires w3 == WithCheckDigit(l[24..35], m) && w4 == WithCheckDigit(l[36..47], m)
    requires r == w1 + w2 + w3 + w4
    ensures r == l <==> CollectionLineValid(l, m)
  {
    CollectionLineParts(r, w1, w2, w3, w4);
    CollectionLineParts(l, l[..12], l[12..24], l[24..36], l[36..]);
    CarriesCheckDigitIff(l[..12], m);
    CarriesCheckDigitIff(l[12..24], m);
    CarriesCheckDigitIff(l[24..36], m);
    CarriesCheckDigitIff(l[36..], m);
  }

  /** The line of a bank barcode carries the date factor at 33..37 and the
      amount at 37..47, so both forms give the same due date and amount. */
  lemma BankFieldsAgree(b: string)
    requires IsDigits(b) && |b| == 44 && b[0] != '8'
    ensures BarcodeToLine(b, false) == Ok(BankLineOf(b))
    ensures var l := BankLineOf(b);
      && l[33..37] == b[5..9]
      && l[37..47] == b[9..19]
      && DueDateFactor(l, TypeableLine) == DueDateFactor(b, Barcode)
      && Value(l, TypeableLine) == Value(b, Barcode)
  {
    assert LegacyBankLike(b) by { LegacyBankLikeIff(b); }
    BarcodeToLineBank(b);
    BankLineOfFacts(b);
    var l := BankLineOf(b);
    assert LegacyBankLike(l) by { LegacyBankLikeIff(l); }
    BankFieldPlaces(l, b);
  }

  /** Where the date factor and the amount sit in a bank line, given that its
      tail is the barcode's positions 4..19. */
  lemma BankFieldPlaces(l: string, b: string)
    requires |l| == 47 && |b| == 44 && l[32..] == b[4..19]
    ensures l[33..37] == b[5..9] && l[37..45] == b[9..17] && l[45..47] == b[17..19]
    ensures l[37..47] == b[9..19]
  {
    assert forall i | 32 <= i < 47 :: l[i] == l[32..][i - 32] == b[4..19][i - 32] == b[i - 28];
    assert l[33..37] == b[5..9];
    assert l[37..47] == b[9..19];
  }

  /** A collection barcode and its line read the amount from the same digits,
      barcode 4..15. */
  lemma CollectionValueAgrees(b: string)
    requires IsDigits(b) && |b| == 44 && !LegacyBankLike(b) && IdentifyReference(b).Some?
    ensures CollectionValue(BarcodeToLine(b, false).value, TypeableLine) == CollectionValue(b, Barcode)
  {
    var m := IdentifyReference(b).value.modulus;
    BarcodeToLineCollection(b);
    CollectionLineOfFacts(b, m);
    var l := CollectionLineOf(b, m);
    SameReference(l, b);
    AmountDigitsAgree(l, b);
  }

  lemma AmountDigitsAgree(l: string, b: string)
    requires |l| == 48 && |b| == 44
    requires l[..11] == b[..11] && l[12..23] == b[11..22]
    ensures l[4..11] + l[12..14] == b[4..13] && l[14..16] == b[13..15]
  {
    assert forall i | 4 <= i < 11 :: l[i] == l[..11][i] == b[..11][i] == b[i];
    assert forall i | 12 <= i < 16 :: l[i] == l[12..23][i - 12] == b[11..22][i - 12] == b[i - 1];
  }

  /** geraCodBarras always writes a general check digit that the barcode
      check accepts. */
  lemma GeneratedBarcodeValidates(l: string)
    requires IsDigits(l) && |l| == 47 && l[0] != '8'
    ensures ValidateWithCheckDigits(GenerateBarcode(l), Barcode) == Ok(true)
  {
    LegacyBankLikeIff(l);
    BankBarcodeOfLine(l);
    var r := GenerateBarcode(l);
    assert r[0] == l[0] by {
      assert r[..4] == LineToBarcode(l)[..4];
    }
    LegacyBankLikeIff(r);
  }

  /** The general check digit of a 44-digit barcode uses the code's
      left-to-right weights on 43 digits, which coincide with the FEBRABAN
      right-to-left weights 2..9. */
  lemma BankBarcodeCheckIsFebraban(b: string)
    requires IsDigits(b) && |b| == 44
    ensures BankBarcodeValid(b) <==> b[4] == DigitChar(Mod11FromRight(b[..4] + b[5..]))
  {
    Mod11IsFebrabanWhenLengthIs3Mod8(b[..4] + b[5..]);
  }

  /** The same holds for the eleven-digit blocks of a collection line. */
  lemma CollectionBlockCheckIsFebraban(block: string)
    requires IsDigits(block) && |block| == 11
    ensures CheckDigit(Eleven, block) == Mod11FromRight(block)
  {
    Mod11IsFebrabanWhenLengthIs3Mod8(block);
  }

  /** KeepDigits drops a separator between two pieces. */
  lemma KeepDigitsAround(x: string, sep: string, y: string, kx: string, ky: string)
    requires sep == "." || sep == " "
    requires KeepDigits(x) == kx && KeepDigits(y) == ky
    ensures KeepDigits(x + sep + y) == kx + ky
  {
    KeepDigitsConcat(x, sep);
    KeepDigitsConcat(x + sep, y);
  }

  /** The formatted line holds exactly the digits of the plain line, with
      seven separators. */
  lemma FormattedLineKeepsDigits(b: string)
    requires IsDigits(b) && |b| == 44 && LegacyBankLike(b)
    ensures BarcodeToLine(b, true).Ok?
    ensures KeepDigits(BarcodeToLine(b, true).value) == BarcodeToLine(b, false).value
    ensures |BarcodeToLine(b, true).value| == 54
    ensures var f := BarcodeToLine(b, true).value;
      && f[5] == '.' && f[17] == '.' && f[30] == '.'
      && f[11] == ' ' && f[24] == ' ' && f[37] == ' ' && f[39] == ' '
  {
    BarcodeToLineBank(b);
    BankLineOfFacts(b);
    var r := BankLineOf(b);
    assert BarcodeToLine(b, true).value == FormatLine(r);
    FormatLineDigits(r);
    FormatLineSeparators(r);
  }

  /** The formatted line splits each of the three fields with a point after
      its fifth digit, and puts a space after each field and after the
      general check digit. */
  lemma FormatLineSeparators(r: string)
    requires |r| == 47
    ensures var f := FormatLine(r);
      && |f| == 54
      && f[5] == '.' && f[17] == '.' && f[30] == '.'
      && f[11] == ' ' && f[24] == ' ' && f[37] == ' ' && f[39] == ' '
  {
    var a := Slice(r, 0, 5) + "." + Slice(r, 5, 10) + " ";
    var b := a + Slice(r, 10, 15) + "." + Slice(r, 15, 21) + " ";
    var c := b + Slice(r, 21, 26) + "." + Slice(r, 26, 32) + " ";
    var f := c + Slice(r, 32, 33) + " " + SliceFrom(r, 33);
    assert |a| == 12 && a[5] == '.' && a[11] == ' ';
    assert |b| == 25 && b[17] == '.' && b[24] == ' ' && b[..12] == a;
    assert |c| == 38 && c[30] == '.' && c[37] == ' ' && c[..25] == b;
    assert |f| == 54 && f[39] == ' ' && f[..38] == c;
    assert FormatLine(r) == f;
  }

  lemma FormatLineDigits(r: string)
    requires IsDigits(r) && |r| == 47
    ensures KeepDigits(FormatLine(r)) == r
    ensures |FormatLine(r)| == 54
  {
    var p1, p2, p3, p4, p5, p6, p7, p8 := r[..5], r[5..10], r[10..15], r[15..21], r[21..26], r[26..32], r[32..33], r[33..];
    assert Slice(r, 0, 5) == p1 && Slice(r, 5, 10) == p2 && Slice(r, 10, 15) == p3 && Slice(r, 15, 21) == p4;
    assert Slice(r, 21, 26) == p5 && Slice(r, 26, 32) == p6 && Slice(r, 32, 33) == p7 && SliceFrom(r, 33) == p8;
    SeparatedDigits(p1, p2, p3, p4, p5, p6, p7, p8);
    LinePieces(r);
  }

  lemma SeparatedDigits(p1: string, p2: string, p3: string, p4: string, p5: string, p6: string, p7: string, p8: string)
    requires IsDigits(p1) && IsDigits(p2) && IsDigits(p3) && IsDigits(p4)
    requires IsDigits(p5) && IsDigits(p6) && IsDigits(p7) && IsDigits(p8)
    ensures KeepDigits(p1 + "." + p2 + " " + p3 + "." + p4 + " " + p5 + "." + p6 + " " + p7 + " " + p8)
      == p1 + p2 + p3 + p4 + p5 + p6 + p7 + p8
  {
    var s4 := p1 + "." + p2 + " " + p3 + "." + p4;
    SeparatedHead(p1, p2, p3, p4);
    SeparatedTail(s4, p1 + p2 + p3 + p4, p5, p6, p7, p8);
  }

  lemma SeparatedHead(p1: string, p2: string, p3: string, p4: string)
    requires IsDigits(p1) && IsDigits(p2) && IsDigits(p3) && IsDigits(p4)
    ensures KeepDigits(p1 + "." + p2 + " " + p3 + "." + p4) == p1 + p2 + p3 + p4
  {
    KeepDigitsAround(p1, ".", p2, p1, p2);
    KeepDigitsAround(p1 + "." + p2, " ", p3, p1 + p2, p3);
    KeepDigitsAround(p1 + "." + p2 + " " + p3, ".", p4, p1 + p2 + p3, p4);
  }

  lemma SeparatedTail(x: string, k: string, p5: string, p6: string, p7: string, p8: string)
    requires KeepDigits(x) == k
    requires IsDigits(p5) && IsDigits(p6) && IsDigits(p7) && IsDigits(p8)
    ensures KeepDigits(x + " " + p5 + "." + p6 + " " + p7 + " " + p8) == k + p5 + p6 + p7 + p8
  {
    var a := x + " " + p5;
    KeepDigitsAround(x, " ", p5, k, p5);
    var b := a + "." + p6;
    KeepDigitsAround(a, ".", p6, k + p5, p6);
    var c := b + " " + p7;
    KeepDigitsAround(b, " ", p7, k + p5 + p6, p7);
    KeepDigitsAround(c, " ", p8, k + p5 + p6 + p7, p8);
  }

  lemma LinePieces(r: string)
    requires |r| == 47
    ensures r == r[..5] + r[5..10] + r[10..15] + r[15..21] + r[21..26] + r[26..32] + r[32..33] + r[33..]
  {
    PrefixGrows(r, 5, 10);
    PrefixGrows(r, 10, 15);
    PrefixGrows(r, 15, 21);
    PrefixGrows(r, 21, 26);
    PrefixGrows(r, 26, 32);
    PrefixGrows(r, 32, 33);
    PrefixGrows(r, 33, 47);
    assert r[..47] == r;
  }

  lemma PrefixGrows(r: string, i: nat, j: nat)
    requires i <= j <= |r|
    ensures r[..j] == r[..i] + r[i..j]
  {
  }

  /** A 48-digit line that does not start with '8' takes the bank layouts:
      validarCodigoComDV checks only its first 32 digits, so it accepts the
      line whatever its last digit, and linhaDigitavel2CodBarras drops that
      digit. Its barcode therefore turns back into 47 digits, not into the
      line. */
  lemma LongBankLineLosesLastDigit(b: string, d: char)
    requires IsDigits(b) && |b| == 44 && b[0] != '8' && IsDigit(d)
    ensures var l := BankLineOf(b) + [d];
      && IsDigits(l) && |l| == 48 && LegacyBankLike(l)
      && ValidateWithCheckDigits(l, TypeableLine) == Ok(true)
      && LineToBarcode(l) == b
      && BarcodeToLine(LineToBarcode(l), false) != Ok(l)
  {
    BankLineOfFacts(b);
    var k := BankLineOf(b);
    var l := k + [d];
    LongBankLineBlocks(k, l, d);
    LegacyBankLikeIff(l);
    LineToBarcodeBank(l);
    var r := LineToBarcode(l);
    BarcodeFromPieces(r, b);
    LegacyBankLikeIff(b);
    BarcodeToLineBank(b);
  }

  /** The line with one more digit keeps the blocks of the 47-digit one. */
  lemma LongBankLineBlocks(k: string, l: string, d: char)
    requires IsDigits(k) && |k| == 47 && BankLineValid(k) && IsDigit(d) && l == k + [d]
    ensures IsDigits(l) && |l| == 48 && l[0] == k[0] && BankLineValid(l)
    ensures l[..9] == k[..9] && l[10..20] == k[10..20] && l[21..31] == k[21..31] && l[32..47] == k[32..]
  {
    assert l[..10] == k[..10] && l[10..21] == k[10..21] && l[21..32] == k[21..32];
  }

  /** A collection barcode with reference 7 whose last fourteen digits are
      zeros. */
  const CardLikeBarcode: string := "817005" + Zeros(16) + "1" + Zeros(21)

  /** The source's own edge case: the line of `CardLikeBarcode` is a valid
      48-digit collection line, but its barcode carries the credit-card mark,
      so converting the barcode back takes the bank layout and gives 47
      digits instead of the line. */
  lemma CollectionLineMistakenForCard()
    ensures var l := CollectionLineOf(CardLikeBarcode, Ten);
      && IsDigits(l) && |l| == 48 && !LegacyBankLike(l) && IdentifyReference(l).Some?
      && ValidateWithCheckDigits(l, TypeableLine) == Ok(true)
      && LineToBarcode(l) == CardLikeBarcode
      && BarcodeToLine(LineToBarcode(l), false) != Ok(l)
  {
    var b := CardLikeBarcode;
    CardLikeBarcodeFacts();
    CollectionLineOfFacts(b, Ten);
    var l := CollectionLineOf(b, Ten);
    CardLikeLineFacts(b, l);
    SameReference(l, b);
    LineToBarcodeCollection(l);
    Quarters(b);
    BarcodeToLineBank(b);
  }

  /** The line of `CardLikeBarcode` carries no credit-card mark: the only
      non-zero digit among its last fourteen is the third block's check
      digit, and digit 5 is not zero. */
  lemma CardLikeLineFacts(b: string, l: string)
    requires IsDigits(b) && |b| == 44 && b[0] == '8' && b[5] == '5'
    requires b[22..33] == "1" + Zeros(10)
    requires IsDigits(l) && |l| == 48 && l[0] == b[0]
    requires l[..11] == b[..11] && l[24..35] == b[22..33] && CollectionLineValid(l, Ten)
    ensures !LegacyBankLike(l)
  {
    assert l[24..35] == "1" + Zeros(10);
    CardLikeBlockDigit(l[24..36]);
    assert l[34..][1] == l[35] != '0';
    assert l[5..19][0] == l[5] == b[..11][5] == '5';
    LegacyBankLikeIff(l);
  }

  lemma CardLikeBarcodeFacts()
    ensures var b := CardLikeBarcode;
      && IsDigits(b) && |b| == 44 && b[0] == '8' && b[2] == '7' && b[5] == '5'
      && b[22..33] == "1" + Zeros(10)
      && LegacyBankLike(b)
  {
    var b := CardLikeBarcode;
    DigitsConcat("817005", Zeros(16));
    DigitsConcat("817005" + Zeros(16), "1");
    DigitsConcat("817005" + Zeros(16) + "1", Zeros(21));
    assert b[22..33] == "1" + Zeros(10);
    assert b[30..] == Zeros(14);
    LegacyBankLikeIff(b);
  }

  lemma Quarters(b: string)
    requires |b| == 44
    ensures b == b[..11] + b[11..22] + b[22..33] + b[33..44]
  {
  }

  /** A block "1" followed by ten zeros has a non-zero Modulo-10 digit. */
  lemma CardLikeBlockDigit(blk: string)
    requires |blk| == 12 && blk[..11] == "1" + Zeros(10) && CarriesCheckDigit(blk, Ten)
    ensures blk[11] != '0'
  {
    var d := blk[..11];
    assert d[1..] == Zeros(10);
    LuhnSumOfZeros(10);
    assert LuhnSum(d) == 2;
  }

  lemma {:induction false} LuhnSumOfZeros(n: nat)
    ensures LuhnSum(Zeros(n)) == 0
  {
    if n > 0 {
      assert Zeros(n)[1..] == Zeros(n - 1);
      LuhnSumOfZeros(n - 1);
    }
  }
}
