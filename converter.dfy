/** Converting between the two forms of a code and checking its check digits
    (src/old.js). A bank barcode has 44 digits: bank and currency (0..4), the
    general check digit (4), the due-date factor (5..9), the amount (9..19)
    and a free field (19..44). Its typeable line has 47 digits in three
    blocks that each end in a Modulo-10 digit, then the general check digit,
    the date factor and the amount. A collection barcode has 44 digits; its
    line has 48, four blocks of eleven digits each followed by a check digit
    under the modulus the reference digit chooses. */
module Converter {
  import opened Wrappers
  import opened Digits
  import opened JsString
  import opened Checksum
  import opened Classifier

  /** calculaMod10 or calculaMod11, as the modulus says. */
  function CheckDigit(m: Modulus, block: string): (d: nat)
    requires IsDigits(block)
    ensures d <= 9
  {
    match m
    case Ten => Mod10(block)
    case Eleven => Mod11(block)
  }

  /** A digit string whose last digit is the check digit of the others. */
  predicate CarriesCheckDigit(s: string, m: Modulus) {
    |s| >= 1 && IsDigits(s) && s[|s| - 1] == DigitChar(CheckDigit(m, s[..|s| - 1]))
  }

  /** digitosVerificadores: the digits of `code` followed by their check
      digit. */
  function WithCheckDigit(code: string, m: Modulus): (r: string)
    ensures |r| == |KeepDigits(code)| + 1 && r[..|r| - 1] == KeepDigits(code)
    ensures CarriesCheckDigit(r, m)
  {
    var c := KeepDigits(code);
    var r := c + [DigitChar(CheckDigit(m, c))];
    assert r[..|r| - 1] == c;
    r
  }

  /** A digit string carries its check digit exactly when appending the
      check digit to its other digits rebuilds it. */
  lemma CarriesCheckDigitIff(s: string, m: Modulus)
    requires IsDigits(s) && |s| >= 1
    ensures CarriesCheckDigit(s, m) <==> s == WithCheckDigit(s[..|s| - 1], m)
  {
    var w := WithCheckDigit(s[..|s| - 1], m);
    if CarriesCheckDigit(s, m) {
      assert s == s[..|s| - 1] + [s[|s| - 1]];
    }
  }

  /** The `formatada` layout: 5.5 5.6 5.6 1 rest. */
  function FormatLine(r: string): string {
    Slice(r, 0, 5) + "." + Slice(r, 5, 10) + " " + Slice(r, 10, 15) + "." + Slice(r, 15, 21) + " "
    + Slice(r, 21, 26) + "." + Slice(r, 26, 32) + " " + Slice(r, 32, 33) + " " + SliceFrom(r, 33)
  }

  /** codBarras2LinhaDigitavel: a bank or credit-card barcode becomes the
      three-block line (optionally formatted); any other code becomes four
      blocks of eleven digits with their check digits, which throws when the
      reference digit is not 6..9. */
  function BarcodeToLine(code: string, formatted: bool): (r: Result<string, Error>)
    ensures var c := KeepDigits(code);
      r.Err? <==> !LegacyBankLike(c) && IdentifyReference(c).None?
    ensures r.Err? ==> r.error == UndefinedReference
  {
    var c := KeepDigits(code);
    if LegacyBankLike(c) then
      var novaLinha := Substr(c, 0, 4) + Substr(c, 19, 25) + Substr(c, 4, 1) + Substr(c, 5, 14);
      var bloco1 := WithCheckDigit(Substr(novaLinha, 0, 9), Ten);
      var bloco2 := WithCheckDigit(Substr(novaLinha, 9, 10), Ten);
      var bloco3 := WithCheckDigit(Substr(novaLinha, 19, 10), Ten);
      var bloco4 := SubstrFrom(novaLinha, 29);
      var resultado := bloco1 + bloco2 + bloco3 + bloco4;
      Ok(if formatted then FormatLine(resultado) else resultado)
    else
      match IdentifyReference(c)
      case None => Err(UndefinedReference)
      case Some(ref) =>
        Ok(WithCheckDigit(Substr(c, 0, 11), ref.modulus) + WithCheckDigit(Substr(c, 11, 11), ref.modulus)
           + WithCheckDigit(Substr(c, 22, 11), ref.modulus) + WithCheckDigit(Substr(c, 33, 11), ref.modulus))
  }

  /** linhaDigitavel2CodBarras: a bank line moves the general check digit,
      date factor and amount back to the front and drops the three block
      check digits; any other line loses the digits at 11, 22, 33 and 44 in
      turn. */
  function LineToBarcode(code: string): (r: string)
    ensures IsDigits(r)
  {
    var c := KeepDigits(code);
    if LegacyBankLike(c) then
      var p1, p2, p3 := Substr(c, 0, 4), Substr(c, 32, 1), Substr(c, 33, 14);
      var p4, p5, p6 := Substr(c, 4, 5), Substr(c, 10, 10), Substr(c, 21, 10);
      DigitsConcat(p1, p2);
      DigitsConcat(p1 + p2, p3);
      DigitsConcat(p1 + p2 + p3, p4);
      DigitsConcat(p1 + p2 + p3 + p4, p5);
      DigitsConcat(p1 + p2 + p3 + p4 + p5, p6);
      p1 + p2 + p3 + p4 + p5 + p6
    else
      Splice1(Splice1(Splice1(Splice1(c, 11), 22), 33), 44)
  }

  /** A bank line of 47 digits or more gives 44 digits: the general check
      digit, date factor and amount (line 32..47) at 4..19, and the three
      blocks without their check digits around them. Digits past 47 are
      dropped. */
  lemma LineToBarcodeBank(l: string)
    requires IsDigits(l) && LegacyBankLike(l) && |l| >= 47
    ensures var b := LineToBarcode(l);
      && |b| == 44
      && b[4..19] == l[32..47]
      && b[..4] + b[19..] == l[..9] + l[10..20] + l[21..31]
  {
    var b := LineToBarcode(l);
    assert b == l[..4] + l[32..47] + l[4..9] + l[10..20] + l[21..31];
    assert l[..9] == l[..4] + l[4..9];
  }

  /** On a 48-digit collection line the four splices remove the original
      positions 11, 23, 35 and 47, the four block check digits. */
  lemma LineToBarcodeCollection(l: string)
    requires IsDigits(l) && !LegacyBankLike(l) && |l| == 48
    ensures LineToBarcode(l) == l[..11] + l[12..23] + l[24..35] + l[36..47]
  {
    CollectionSplices(l);
  }

  lemma CollectionSplices(c: string)
    requires |c| == 48
    ensures Splice1(Splice1(Splice1(Splice1(c, 11), 22), 33), 44) == c[..11] + c[12..23] + c[24..35] + c[36..47]
  {
    var s1 := Splice1(c, 11);
    assert s1 == c[..11] + c[12..];
    var s2 := Splice1(s1, 22);
    assert s2 == c[..11] + c[12..23] + c[24..];
    var s3 := Splice1(s2, 33);
    assert s3 == c[..11] + c[12..23] + c[24..35] + c[36..];
    var s4 := Splice1(s3, 44);
    assert s4 == c[..11] + c[12..23] + c[24..35] + c[36..47];
  }

  /** calculaDVCodBarras: the check digit of the code with the digit at
      `position` taken out. */
  function BarcodeCheckDigit(code: string, position: nat, m: Modulus): (d: nat)
    ensures d <= 9
    ensures var c := KeepDigits(code);
      position < |c| ==> d == CheckDigit(m, c[..position] + c[position + 1..])
  {
    CheckDigit(m, Splice1(KeepDigits(code), position))
  }

  /** A bank barcode's general check digit: Modulo 11 of the other 43 digits. */
  predicate BankBarcodeValid(c: string)
    requires IsDigits(c)
  {
    |c| >= 5 && c[4] == DigitChar(Mod11(c[..4] + c[5..]))
  }

  /** A collection barcode's check digit at index 3, under its modulus. */
  predicate CollectionBarcodeValid(c: string, m: Modulus)
    requires IsDigits(c)
  {
    |c| >= 4 && c[3] == DigitChar(CheckDigit(m, c[..3] + c[4..]))
  }

  /** A bank line's three blocks end in their Modulo-10 digits. */
  predicate BankLineValid(c: string)
    requires IsDigits(c)
  {
    && |c| >= 32
    && CarriesCheckDigit(c[..10], Ten)
    && CarriesCheckDigit(c[10..21], Ten)
    && CarriesCheckDigit(c[21..32], Ten)
  }

  /** A collection line's four blocks of twelve end in their check digits. */
  predicate CollectionLineValid(c: string, m: Modulus)
    requires IsDigits(c)
  {
    && |c| == 48
    && CarriesCheckDigit(c[..12], m)
    && CarriesCheckDigit(c[12..24], m)
    && CarriesCheckDigit(c[24..36], m)
    && CarriesCheckDigit(c[36..], m)
  }

  /** validarCodigoComDV: recomputes every check digit the form carries and
      compares; throws when a collection code has no reference; an
      unrecognised category never validates. The contract leaves open bank
      lines shorter than 32 digits and collection lines other than 47 or 48
      digits: the line category only ever holds 46 to 48 digits, and
      `Validator.ValidateBoleto` pads 46 digits to 47 before it calls this. */
  function ValidateWithCheckDigits(code: string, codeType: CodeType): (r: Result<bool, Error>)
    ensures var c := KeepDigits(code);
      r.Err? <==> codeType != WrongLength && !LegacyBankLike(c) && IdentifyReference(c).None?
    ensures r.Err? ==> r.error == UndefinedReference
    ensures codeType == WrongLength ==> r == Ok(false)
    ensures var c := KeepDigits(code);
      codeType == Barcode && LegacyBankLike(c) ==> r == Ok(BankBarcodeValid(c))
    ensures var c := KeepDigits(code);
      codeType == Barcode && !LegacyBankLike(c) && IdentifyReference(c).Some? ==>
        r == Ok(CollectionBarcodeValid(c, IdentifyReference(c).value.modulus))
    ensures var c := KeepDigits(code);
      codeType == TypeableLine && LegacyBankLike(c) && |c| >= 32 ==> r == Ok(BankLineValid(c))
    ensures var c := KeepDigits(code);
      codeType == TypeableLine && !LegacyBankLike(c) && IdentifyReference(c).Some? && |c| == 48 ==>
        r == Ok(CollectionLineValid(c, IdentifyReference(c).value.modulus))
    ensures var c := KeepDigits(code);
      codeType == TypeableLine && !LegacyBankLike(c) && IdentifyReference(c).Some? && |c| == 47 ==>
        r == Ok(false)
  {
    match codeType
    case TypeableLine => ValidateLine(KeepDigits(code))
    case Barcode => ValidateBarcode(KeepDigits(code))
    case WrongLength => Ok(false)
  }

  /** A 47-digit line routed to the collection layouts is never accepted:
      the rebuild has 48 digits, and the fourth Modulo-11 digit is missing. */
  lemma ShortCollectionLineRejected(c: string)
    requires IsDigits(c) && |c| == 47 && !LegacyBankLike(c)
    ensures ValidateWithCheckDigits(c, TypeableLine) != Ok(true)
  {
  }

  /** The typeable-line branch of validarCodigoComDV. */
  function ValidateLine(c: string): (r: Result<bool, Error>)
    requires IsDigits(c)
    ensures r.Err? <==> !LegacyBankLike(c) && IdentifyReference(c).None?
    ensures r.Err? ==> r.error == UndefinedReference
    ensures LegacyBankLike(c) && |c| >= 32 ==> r == Ok(BankLineValid(c))
    ensures !LegacyBankLike(c) && IdentifyReference(c).Some? && |c| == 48 ==>
      r == Ok(CollectionLineValid(c, IdentifyReference(c).value.modulus))
    ensures !LegacyBankLike(c) && IdentifyReference(c).Some? && |c| == 47 ==> r == Ok(false)
  {
    if LegacyBankLike(c) then
      var resultado := WithCheckDigit(Substr(c, 0, 9), Ten) + WithCheckDigit(Substr(c, 10, 10), Ten)
        + WithCheckDigit(Substr(c, 21, 10), Ten) + Substr(c, 32, 1) + SubstrFrom(c, 33);
      BankLineCheck(c);
      Ok(c == resultado)
    else
      match IdentifyReference(c)
      case None => Err(UndefinedReference)
      case Some(ref) =>
        if ref.modulus == Ten then
          var resultado := WithCheckDigit(Substr(c, 0, 11), Ten) + WithCheckDigit(Substr(c, 12, 11), Ten)
            + WithCheckDigit(Substr(c, 24, 11), Ten) + WithCheckDigit(Substr(c, 36, 11), Ten);
          CollectionLineCheckTen(c);
          Ok(c == resultado)
        else
          CollectionLineCheckEleven(c);
          Ok(&& ParseInt(Substr(c, 11, 1)) == Some(Mod11(Substr(c, 0, 11)))
             && ParseInt(Substr(c, 23, 1)) == Some(Mod11(Substr(c, 12, 11)))
             && ParseInt(Substr(c, 35, 1)) == Some(Mod11(Substr(c, 24, 11)))
             && ParseInt(Substr(c, 47, 1)) == Some(Mod11(Substr(c, 36, 11))))
  }

  /** The barcode branch of validarCodigoComDV. */
  function ValidateBarcode(c: string): (r: Result<bool, Error>)
    requires IsDigits(c)
    ensures r.Err? <==> !LegacyBankLike(c) && IdentifyReference(c).None?
    ensures r.Err? ==> r.error == UndefinedReference
    ensures LegacyBankLike(c) ==> r == Ok(BankBarcodeValid(c))
    ensures !LegacyBankLike(c) && IdentifyReference(c).Some? ==>
      r == Ok(CollectionBarcodeValid(c, IdentifyReference(c).value.modulus))
  {
    if LegacyBankLike(c) then
      var dv := BarcodeCheckDigit(c, 4, Eleven);
      var resultado := Substr(c, 0, 4) + [DigitChar(dv)] + SubstrFrom(c, 5);
      BarcodeCheck(c, 4, dv);
      Ok(c == resultado)
    else
      match IdentifyReference(c)
      case None => Err(UndefinedReference)
      case Some(ref) =>
        var spliced := Splice1(c, 3);
        var dv := BarcodeCheckDigit(c, 3, ref.modulus);
        var resultado := Substr(spliced, 0, 3) + [DigitChar(dv)] + SubstrFrom(spliced, 3);
        BarcodeCheck(c, 3, dv);
        Ok(c == resultado)
  }

  /** Putting a digit back at `position` rebuilds the code exactly when it is
      the digit that was there. */
  lemma BarcodeCheck(c: string, position: nat, dv: nat)
    requires IsDigits(c) && dv <= 9
    ensures var spliced := Splice1(c, position);
      position < |c| ==>
        (c == Substr(spliced, 0, position) + [DigitChar(dv)] + SubstrFrom(spliced, position)
         <==> c[position] == DigitChar(dv))
    ensures position == 4 ==>
      (c == Substr(c, 0, 4) + [DigitChar(dv)] + SubstrFrom(c, 5) <==> |c| >= 5 && c[4] == DigitChar(dv))
  {
    var spliced := Splice1(c, position);
    if position < |c| {
      var rebuilt := Substr(spliced, 0, position) + [DigitChar(dv)] + SubstrFrom(spliced, position);
      assert rebuilt == c[..position] + [DigitChar(dv)] + c[position + 1..];
      if c[position] == DigitChar(dv) {
        assert c == c[..position] + [c[position]] + c[position + 1..];
      } else {
        assert rebuilt[position] != c[position];
      }
    }
    if position == 4 {
      var rebuilt := Substr(c, 0, 4) + [DigitChar(dv)] + SubstrFrom(c, 5);
      if |c| >= 5 {
        assert rebuilt == c[..4] + [DigitChar(dv)] + c[5..];
        if c[4] == DigitChar(dv) {
          assert c == c[..4] + [c[4]] + c[5..];
        } else {
          assert rebuilt[4] != c[4];
        }
      } else {
        assert |rebuilt| > |c|;
      }
    }
  }

  lemma BankLineCheck(c: string)
    requires IsDigits(c)
    ensures |c| >= 32 ==>
      (c == WithCheckDigit(Substr(c, 0, 9), Ten) + WithCheckDigit(Substr(c, 10, 10), Ten)
            + WithCheckDigit(Substr(c, 21, 10), Ten) + Substr(c, 32, 1) + SubstrFrom(c, 33)
       <==> BankLineValid(c))
  {
    if |c| >= 32 {
      var b1, b2, b3 := WithCheckDigit(Substr(c, 0, 9), Ten), WithCheckDigit(Substr(c, 10, 10), Ten),
        WithCheckDigit(Substr(c, 21, 10), Ten);
      BankTail(c);
      assert b1 + b2 + b3 + Substr(c, 32, 1) + SubstrFrom(c, 33) == b1 + b2 + b3 + c[32..];
      BlockCheck(c, 0, 9, Ten);
      BlockCheck(c, 10, 10, Ten);
      BlockCheck(c, 21, 10, Ten);
      assert c[..10] == c[0..10];
      BankBlocks(c, b1, b2, b3);
    }
  }

  lemma CollectionLineCheckTen(c: string)
    requires IsDigits(c)
    ensures |c| == 48 ==>
      (c == WithCheckDigit(Substr(c, 0, 11), Ten) + WithCheckDigit(Substr(c, 12, 11), Ten)
            + WithCheckDigit(Substr(c, 24, 11), Ten) + WithCheckDigit(Substr(c, 36, 11), Ten)
       <==> CollectionLineValid(c, Ten))
    ensures |c| == 47 ==>
      c != WithCheckDigit(Substr(c, 0, 11), Ten) + WithCheckDigit(Substr(c, 12, 11), Ten)
           + WithCheckDigit(Substr(c, 24, 11), Ten) + WithCheckDigit(Substr(c, 36, 11), Ten)
  {
    if |c| == 47 {
      BlockCheck(c, 0, 11, Ten);
      BlockCheck(c, 12, 11, Ten);
      BlockCheck(c, 24, 11, Ten);
      assert |WithCheckDigit(Substr(c, 36, 11), Ten)| == 12;
    }
    if |c| == 48 {
      var b1, b2, b3, b4 := WithCheckDigit(Substr(c, 0, 11), Ten), WithCheckDigit(Substr(c, 12, 11), Ten),
        WithCheckDigit(Substr(c, 24, 11), Ten), WithCheckDigit(Substr(c, 36, 11), Ten);
      BlockCheck(c, 0, 11, Ten);
      BlockCheck(c, 12, 11, Ten);
      BlockCheck(c, 24, 11, Ten);
      BlockCheck(c, 36, 11, Ten);
      OuterBlocks(c);
      FourBlocks(c, b1, b2, b3, b4);
    }
  }

  lemma CollectionLineCheckEleven(c: string)
    requires IsDigits(c)
    ensures |c| == 48 ==>
      ((&& ParseInt(Substr(c, 11, 1)) == Some(Mod11(Substr(c, 0, 11)))
        && ParseInt(Substr(c, 23, 1)) == Some(Mod11(Substr(c, 12, 11)))
        && ParseInt(Substr(c, 35, 1)) == Some(Mod11(Substr(c, 24, 11)))
        && ParseInt(Substr(c, 47, 1)) == Some(Mod11(Substr(c, 36, 11))))
       <==> CollectionLineValid(c, Eleven))
    ensures |c| == 47 ==> ParseInt(Substr(c, 47, 1)) == None
  {
    if |c| == 48 {
      BlockEleven(c, 0);
      BlockEleven(c, 12);
      BlockEleven(c, 24);
      BlockEleven(c, 36);
      OuterBlocks(c);
    }
  }

  /** The first and last blocks of a 48-digit line, as the windows the
      block lemmas speak of. */
  lemma OuterBlocks(c: string)
    requires |c| == 48
    ensures c[..12] == c[0..12] && c[36..] == c[36..48]
  {
  }

  /** A block of `w + 1` digits at `i` equals its first `w` digits followed
      by their check digit exactly when it carries its check digit. */
  lemma BlockCheck(c: string, i: nat, w: nat, m: Modulus)
    requires IsDigits(c) && i + w + 1 <= |c|
    ensures |WithCheckDigit(Substr(c, i, w), m)| == w + 1
    ensures c[i..i + w + 1] == WithCheckDigit(Substr(c, i, w), m) <==> CarriesCheckDigit(c[i..i + w + 1], m)
  {
    var blk := c[i..i + w + 1];
    assert blk[..w] == Substr(c, i, w);
    CarriesCheckDigitIff(blk, m);
  }

  /** The Modulo-11 comparison of validarCodigoComDV on the twelve digits at
      `i`: the parsed twelfth digit equals the digit of the first eleven. */
  lemma BlockEleven(c: string, i: nat)
    requires IsDigits(c) && i + 12 <= |c|
    ensures ParseInt(Substr(c, i + 11, 1)) == Some(Mod11(Substr(c, i, 11)))
        <==> CarriesCheckDigit(c[i..i + 12], Eleven)
  {
    var blk := c[i..i + 12];
    assert blk[..11] == Substr(c, i, 11);
    assert Substr(c, i + 11, 1) == [blk[11]];
    DigitEquals(blk[11], Mod11(blk[..11]));
  }

  /** A 48-digit string is four given blocks of twelve exactly when each of
      its quarters is the matching block. */
  lemma FourBlocks(c: string, b1: string, b2: string, b3: string, b4: string)
    requires |c| == 48 && |b1| == 12 && |b2| == 12 && |b3| == 12 && |b4| == 12
    ensures c == b1 + b2 + b3 + b4 <==> c[0..12] == b1 && c[12..24] == b2 && c[24..36] == b3 && c[36..48] == b4
  {
    if c[0..12] == b1 && c[12..24] == b2 && c[24..36] == b3 && c[36..48] == b4 {
      assert c == c[0..12] + c[12..24] + c[24..36] + c[36..48];
    }
  }

  /** bloco4 + bloco5 of a bank line is everything from 32 on. */
  lemma BankTail(c: string)
    requires |c| >= 32
    ensures Substr(c, 32, 1) + SubstrFrom(c, 33) == c[32..]
  {
  }

  /** A bank line is three given blocks followed by its tail exactly when its
      first 32 digits are those blocks. */
  lemma BankBlocks(c: string, b1: string, b2: string, b3: string)
    requires |c| >= 32 && |b1| == 10 && |b2| == 11 && |b3| == 11
    ensures c == b1 + b2 + b3 + c[32..] <==> c[0..10] == b1 && c[10..21] == b2 && c[21..32] == b3
  {
    if c[0..10] == b1 && c[10..21] == b2 && c[21..32] == b3 {
      assert c == c[0..10] + c[10..21] + c[21..32] + c[32..];
    }
  }

  /** `parseInt(ch) == d` for a digit character and a digit. */
  lemma DigitEquals(ch: char, d: nat)
    requires IsDigit(ch) && d <= 9
    ensures ParseInt([ch]) == Some(d) <==> ch == DigitChar(d)
  {
    assert [ch][..0] == [];
    if ch == DigitChar(d) {
      DigitCharOfVal(ch);
    }
  }

  /** geraCodBarras: converts a line to a barcode and writes the Modulo-11
      digit of the other 43 digits at index 4. */
  function GenerateBarcode(code: string): (r: string)
    ensures IsDigits(r)
    ensures var b := LineToBarcode(KeepDigits(code));
      |b| >= 5 ==> |r| == |b| && r[..4] == b[..4] && r[5..] == b[5..] && BankBarcodeValid(r)
  {
    var novoCodigo := LineToBarcode(KeepDigits(code));
    var spliced := Splice1(novoCodigo, 4);
    var dv := Mod11(spliced);
    var r := Substr(spliced, 0, 4) + [DigitChar(dv)] + SubstrFrom(spliced, 4);
    PutDigit(novoCodigo, dv);
    r
  }

  /** Taking out index 4 and writing a digit back there. */
  lemma PutDigit(b: string, dv: nat)
    requires IsDigits(b) && dv <= 9
    ensures var spliced := Splice1(b, 4);
      var r := Substr(spliced, 0, 4) + [DigitChar(dv)] + SubstrFrom(spliced, 4);
      && IsDigits(r)
      && (|b| >= 5 ==> |r| == |b| && r[..4] == b[..4] && r[5..] == b[5..] && r[..4] + r[5..] == spliced && r[4] == DigitChar(dv))
  {
    var spliced := Splice1(b, 4);
    var r := Substr(spliced, 0, 4) + [DigitChar(dv)] + SubstrFrom(spliced, 4);
    if |b| >= 5 {
      assert spliced == b[..4] + b[5..];
      assert r == b[..4] + [DigitChar(dv)] + b[5..];
    }
  }
}
