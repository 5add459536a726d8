/** Reading the fields of a code: the due-date factor (identifyDate in
    src/capyboleto.ts) and the amount (identifyBarcodeCollectionValue in
    src/capyboleto.ts, identifyBarcodeCollectionValue and identifyValue in
    src/old.js). An amount is kept as the text the source hands to
    `parseFloat`; "" stands for the NaN that `parseFloat(undefined)` gives. */
module Fields {
  import opened Wrappers
  import opened Digits
  import opened JsString
  import opened StringUtil
  import opened Classifier

  lemma Pow10UpTo4(k: nat)
    requires k <= 4
    ensures Pow10(k) <= 10000
  {
    if k > 0 {
      Pow10UpTo4(k - 1);
    }
  }

  /** identifyDate, as the number of days after the base date 1997-10-07;
      None stands for the invalid date `parseInt("")` produces. Bank and
      credit-card codes carry four digits at offset 5 (barcode) or 33
      (typeable line); every collection code gets factor 0. */
  function DueDateFactor(code: string, codeType: CodeType): (f: Option<nat>)
    ensures f.Some? ==> f.value <= 9999
    ensures !IsBankLike(BoletoTypeIdentifier(code)) ==> f == Some(0)
    ensures var c := KeepDigits(code);
      IsBankLike(BoletoTypeIdentifier(code)) ==>
        && (codeType == Barcode && 9 <= |c| ==> f == Some(NumberValue(c[5..9])))
        && (codeType == TypeableLine && 37 <= |c| ==> f == Some(NumberValue(c[33..37])))
        && (codeType == WrongLength ==> f == None)
  {
    var c := KeepDigits(code);
    BoletoTypeOfDigits(code);
    var dateFactor := DateFactorText(c, IsBankLike(BoletoTypeIdentifier(c)), codeType);
    Pow10UpTo4(|dateFactor|);
    ParseIntOfZero();
    ParseInt(dateFactor)
  }

  /** The text identifyDate hands to `parseInt`: four digits at the date
      offset of a bank-like code, "0" for any other. */
  function DateFactorText(c: string, bankLike: bool, codeType: CodeType): (t: string)
    requires IsDigits(c)
    ensures IsDigits(t) && |t| <= 4
    ensures !bankLike ==> t == "0"
    ensures bankLike ==>
      && (codeType == Barcode ==> t == Substr(c, 5, 4))
      && (codeType == TypeableLine ==> t == Substr(c, 33, 4))
      && (codeType == WrongLength ==> t == "")
  {
    if bankLike then
      (if codeType == Barcode then Substr(c, 5, 4)
       else if codeType == TypeableLine then Substr(c, 33, 4)
       else "")
    else "0"
  }

  /** `${v.substr(0, k)}.${v.substr(k, 2)}`: the amount text before stripping. */
  function ValueText(v: string, k: nat): (t: string)
    ensures k + 2 <= |v| ==> t == v[..k] + "." + v[k..k + 2]
  {
    Substr(v, 0, k) + "." + Substr(v, k, 2)
  }

  /** An amount text: integer digits, a point and two cent digits. */
  predicate IsAmountText(t: string) {
    |t| >= 4 && t[|t| - 3] == '.' && IsDigits(t[..|t| - 3]) && IsDigits(t[|t| - 2..])
  }

  /** The amount `parseFloat` reads from an amount text, in cents. */
  function Cents(t: string): nat
    requires IsAmountText(t)
  {
    NumberValue(t[..|t| - 3]) * 100 + NumberValue(t[|t| - 2..])
  }

  /** The amount text built from a field of digits reads as the number those
      digits form, in cents. */
  lemma ValueTextCents(v: string, k: nat)
    requires IsDigits(v) && 1 <= k && k + 2 <= |v|
    ensures IsAmountText(ValueText(v, k))
    ensures Cents(ValueText(v, k)) == NumberValue(v[..k + 2])
  {
    var t := ValueText(v, k);
    assert t[..|t| - 3] == v[..k];
    assert t[|t| - 2..] == v[k..k + 2];
    assert v[..k + 2] == v[..k] + v[k..k + 2];
    NumberValueConcat(v[..k], v[k..k + 2]);
  }

  /** The loop `while (t.substr(1, 1) === "0") t = substringReplace(t, "", 0, 1)`,
      as a function: the first character goes while the second is '0'. The
      result is a suffix of `t`, its second character is not '0', and every
      removed position except the first held a '0'. */
  function ZeroStripped(t: string): (r: string)
    ensures |r| <= |t| && r == t[|t| - |r|..]
    ensures t != [] ==> r != []
    ensures |r| < 2 || r[1] != '0'
    ensures forall i | 1 <= i <= |t| - |r| :: t[i] == '0'
    decreases |t|
  {
    if |t| >= 2 && t[1] == '0' then
      var r := ZeroStripped(t[1..]);
      assert forall i | 2 <= i <= |t| - |r| :: t[i] == t[1..][i - 1];
      r
    else t
  }

  /** The loop's test `t.substr(1, 1) === "0"`. */
  lemma SecondIsZero(t: string)
    ensures Substr(t, 1, 1) == "0" <==> |t| >= 2 && t[1] == '0'
  {
    if |t| >= 2 {
      assert Substr(t, 1, 1) == [t[1]];
    }
  }

  /** The zero-stripping loop of the source, run on the text in place. */
  method StripZeros(value: string) returns (finalValue: string)
    ensures finalValue == ZeroStripped(value)
  {
    finalValue := value;
    var ch := Substr(finalValue, 1, 1);
    while ch == "0"
      invariant ZeroStripped(finalValue) == ZeroStripped(value)
      invariant ch == Substr(finalValue, 1, 1)
      decreases |finalValue|
    {
      SecondIsZero(finalValue);
      DropFirst(finalValue);
      finalValue := SubstringReplace(finalValue, "", 0, Some(1));
      ch := Substr(finalValue, 1, 1);
    }
    SecondIsZero(finalValue);
  }

  /** On an amount text the loop stops before the point: it removes at most
      all but one integer digit (8 of the 9 digits of a collection amount),
      keeps the point and both cent digits, and, when the text starts with
      '0', removes only zeros and so keeps the amount. */
  lemma StripKeepsAmount(t: string)
    requires IsAmountText(t)
    ensures var r := ZeroStripped(t);
      && IsAmountText(r)
      && r[|r| - 3..] == t[|t| - 3..]
      && |t| - |r| <= |t| - 4
    ensures t[0] == '0' ==> Cents(ZeroStripped(t)) == Cents(t)
  {
    var r := ZeroStripped(t);
    var m := |t| - |r|;
    StripStopsBeforePoint(t);
    AmountTextSuffix(t, m);
    assert r == t[m..];
    if t[0] == '0' {
      ZerosSuffixKeepsCents(t, m);
    }
  }

  /** Cutting off a run of leading zeros that stops before the point leaves
      the amount unchanged. */
  lemma ZerosSuffixKeepsCents(t: string, m: nat)
    requires IsAmountText(t) && m < |t| - 3
    requires t[0] == '0' && forall i | 1 <= i <= m :: t[i] == '0'
    ensures IsAmountText(t[m..]) && Cents(t[m..]) == Cents(t)
  {
    var d := t[..|t| - 3];
    assert forall i | 0 <= i < m :: d[i] == '0';
    ZerosPrefixValue(d, m);
    AmountTextSuffix(t, m);
    var u := t[m..];
    assert u[..|u| - 3] == d[m..];
  }

  /** Leading zeros add nothing to a digit string's value. */
  lemma ZerosPrefixValue(d: string, m: nat)
    requires IsDigits(d) && m <= |d|
    requires forall i | 0 <= i < m :: d[i] == '0'
    ensures NumberValue(d) == NumberValue(d[m..])
  {
    assert d[..m] == Zeros(m);
    assert d == d[..m] + d[m..];
    NumberValueConcat(d[..m], d[m..]);
    NumberValueOfZeros(m);
  }

  /** The point is never reached, because only '0's follow the first
      removed character. */
  lemma StripStopsBeforePoint(t: string)
    requires IsAmountText(t)
    ensures |t| - |ZeroStripped(t)| < |t| - 3
  {
  }

  /** Every suffix that keeps an integer digit is an amount text with the same
      point and cents, and its integer digits are the rest of the original
      ones. */
  lemma AmountTextSuffix(t: string, m: nat)
    requires IsAmountText(t) && m < |t| - 3
    ensures var u := t[m..];
      && IsAmountText(u)
      && u[|u| - 3..] == t[|t| - 3..]
      && u[..|u| - 3] == t[m..|t| - 3]
      && u[|u| - 2..] == t[|t| - 2..]
  {
    var u := t[m..];
    assert u[..|u| - 3] == t[..|t| - 3][m..];
  }

  /** Dropping the first character of an amount text with at least two
      integer digits leaves an amount text, lighter by that digit's weight. */
  lemma AmountTextTail(t: string)
    requires IsAmountText(t) && |t| >= 5
    ensures IsAmountText(t[1..])
    ensures Cents(t) == DigitVal(t[0]) * Pow10(|t| - 4) * 100 + Cents(t[1..])
  {
    var u := t[1..];
    assert u[|u| - 3] == '.';
    assert u[..|u| - 3] == t[1..|t| - 3];
    assert IsDigits(u[..|u| - 3]) by {
      var w := t[..|t| - 3];
      assert u[..|u| - 3] == w[1..];
    }
    assert u[|u| - 2..] == t[|t| - 2..];
    assert t[..|t| - 3] == [t[0]] + u[..|u| - 3];
    NumberValueConcat([t[0]], u[..|u| - 3]);
    assert NumberValue([t[0]]) == DigitVal(t[0]) by {
      assert [t[0]][..0] == [];
    }
  }

  /** The loop drops a leading non-zero digit whenever a '0' follows it: the
      amount then loses that digit's whole weight. */
  lemma StripDropsLeadingDigit(t: string)
    requires IsAmountText(t) && t[0] != '0' && t[1] == '0'
    ensures IsAmountText(ZeroStripped(t))
    ensures Cents(ZeroStripped(t)) == Cents(t) - DigitVal(t[0]) * Pow10(|t| - 4) * 100
  {
    AmountTextTail(t);
    StripStep(t);
    StripKeepsAmount(t[1..]);
  }

  lemma StripStep(t: string)
    requires |t| >= 2 && t[1] == '0'
    ensures ZeroStripped(t) == ZeroStripped(t[1..])
  {
  }

  /** A digit followed by a run of zeros loses the digit and all but the last
      zero. */
  lemma {:induction false} StripZeroRun(c: char, k: nat, rest: string)
    requires rest != [] && rest[0] != '0'
    ensures ZeroStripped([c] + Zeros(k + 1) + rest) == "0" + rest
    decreases k
  {
    var t := [c] + Zeros(k + 1) + rest;
    var u := ['0'] + Zeros(k) + rest;
    assert t[1..] == u;
    StripStep(t);
    if k > 0 {
      StripZeroRun('0', k - 1, rest);
    } else {
      assert u == "0" + rest && u[1] == rest[0];
    }
  }

  /** 100000123.45 is read as 123.45. */
  lemma StripDropsLeadingDigitExample()
    ensures ZeroStripped("100000123.45") == "0123.45"
  {
    assert "100000123.45" == ['1'] + Zeros(5) + "123.45";
    StripZeroRun('1', 4, "123.45");
  }

  /** The evident intent of the loop: remove leading zeros of the integer
      part, keeping at least one integer digit. */
  function LeadingZerosStripped(t: string): (r: string)
    ensures |r| <= |t| && r == t[|t| - |r|..]
    ensures forall i | 0 <= i < |t| - |r| :: t[i] == '0'
    decreases |t|
  {
    if |t| >= 2 && t[0] == '0' && t[1] != '.' then LeadingZerosStripped(t[1..]) else t
  }

  /** The corrected stripper keeps the amount of every amount text and leaves
      no leading zero in front of another integer digit. */
  lemma LeadingZerosStrippedKeepsAmount(t: string)
    requires IsAmountText(t)
    ensures var r := LeadingZerosStripped(t);
      && IsAmountText(r)
      && Cents(r) == Cents(t)
      && (r[0] != '0' || r[1] == '.')
    decreases |t|
  {
    if |t| >= 2 && t[0] == '0' && t[1] != '.' {
      var u := t[1..];
      var d := t[..|t| - 3];
      AmountTextSuffix(t, 1);
      ZerosPrefixValue(d, 1);
      assert d[1..] == u[..|u| - 3];
      assert Cents(u) == Cents(t);
      LeadingZerosStrippedKeepsAmount(u);
      assert LeadingZerosStripped(t) == LeadingZerosStripped(u);
    }
  }

  /** Deleting index 11 and reading 11 digits at offset 4 skips the deleted
      digit. */
  lemma SpliceWindow(c: string)
    requires 16 <= |c|
    ensures Substr(Splice1(c, 11), 4, 11)[..9] == c[4..11] + c[12..14]
    ensures Substr(Splice1(c, 11), 4, 11)[9..11] == c[14..16]
  {
    var sp := Splice1(c, 11);
    assert sp == c[..11] + c[12..];
    var w := Substr(sp, 4, 11);
    assert w == sp[4..15];
    assert forall i | 0 <= i < 7 :: w[i] == c[4 + i];
    assert forall i | 7 <= i < 11 :: w[i] == c[5 + i];
  }

  /** identifyBarcodeCollectionValue, as a function: the amount digits are
      b[4..15) of a barcode, and of a typeable line once its index 11 is
      deleted; a missing or non-effective reference gives "0". */
  function CollectionValue(code: string, codeType: CodeType): (v: string)
    ensures var ref := IdentifyReference(code);
      !(ref.Some? && ref.value.effective) ==> v == "0"
    ensures var c := KeepDigits(code); var ref := IdentifyReference(code);
      ref.Some? && ref.value.effective ==>
        && (codeType == Barcode && 15 <= |c| ==> v == ZeroStripped(c[4..13] + "." + c[13..15]))
        && (codeType == TypeableLine && 16 <= |c| ==>
              v == ZeroStripped(c[4..11] + c[12..14] + "." + c[14..16]))
  {
    var c := KeepDigits(code);
    var ref := IdentifyReference(c);
    if ref.Some? && ref.value.effective then
      var field :=
        if codeType == TypeableLine then Substr(Splice1(c, 11), 4, 11)
        else if codeType == Barcode then Substr(c, 4, 11)
        else "";
      assert codeType == Barcode && 15 <= |c| ==> field[..9] == c[4..13] && field[9..11] == c[13..15];
      assert codeType == TypeableLine && 16 <= |c| ==>
        field[..9] == c[4..11] + c[12..14] && field[9..11] == c[14..16] by {
        if codeType == TypeableLine && 16 <= |c| {
          SpliceWindow(c);
        }
      }
      ZeroStripped(ValueText(field, 9))
    else "0"
  }

  /** identifyBarcodeCollectionValue (src/capyboleto.ts), step by step: the
      optional chain turns a missing reference into the "0" branch. */
  method IdentifyBarcodeCollectionValue(code: string, codeType: CodeType) returns (finalValue: string)
    ensures finalValue == CollectionValue(code, codeType)
  {
    var cleanedUpCode := KeepDigits(code);
    var reference := IdentifyReference(cleanedUpCode);
    var isEffectiveValue := reference.Some? && reference.value.effective;
    var boletoValue := "";
    if isEffectiveValue {
      if codeType == TypeableLine {
        var boletoValueArray := cleanedUpCode;
        boletoValueArray := Splice1(boletoValueArray, 11);
        boletoValue := Substr(boletoValueArray, 4, 11);
      } else if codeType == Barcode {
        boletoValue := Substr(cleanedUpCode, 4, 11);
      }
      finalValue := ValueText(boletoValue, 9);
      finalValue := StripZeros(finalValue);
    } else {
      finalValue := "0";
    }
  }

  /** identifyBarcodeCollectionValue (src/old.js): the same reading, but the
      unguarded `.efetivo` throws when the reference is missing. */
  function LegacyCollectionValue(code: string, codeType: CodeType): (r: Result<string, Error>)
    ensures IdentifyReference(code).None? <==> r == Err(UndefinedReference)
    ensures IdentifyReference(code).Some? ==> r == Ok(CollectionValue(code, codeType))
  {
    var c := KeepDigits(code);
    match IdentifyReference(c)
    case None => Err(UndefinedReference)
    case Some(ref) =>
      if ref.effective then
        var field :=
          if codeType == TypeableLine then Substr(Splice1(c, 11), 4, 11)
          else if codeType == Barcode then Substr(c, 4, 11)
          else "";
        Ok(ZeroStripped(ValueText(field, 9)))
      else Ok("0")
  }

  method LegacyIdentifyBarcodeCollectionValue(code: string, codeType: CodeType)
    returns (r: Result<string, Error>)
    ensures r == LegacyCollectionValue(code, codeType)
  {
    var c := KeepDigits(code);
    var reference := IdentifyReference(c);
    if reference.None? {
      return Err(UndefinedReference);
    }
    var valorBoleto := "";
    var valorFinal: string;
    if reference.value.effective {
      if codeType == TypeableLine {
        valorBoleto := Splice1(c, 11);
        valorBoleto := Substr(valorBoleto, 4, 11);
      } else if codeType == Barcode {
        valorBoleto := Substr(c, 4, 11);
      }
      valorFinal := ValueText(valorBoleto, 8 + 1);
      valorFinal := StripZeros(valorFinal);
    } else {
      valorFinal := "0";
    }
    r := Ok(valorFinal);
  }

  /** identifyValue (src/old.js), as a function. Bank and credit-card codes
      read ten digits at offset 9 of a barcode or from offset 37 of a line,
      as given (the caller passes the digits only); collection codes go to
      the collection reader; a wrong-length category leaves the amount
      undefined. */
  function Value(codigo: string, codeType: CodeType): (r: Result<string, Error>)
    ensures codeType == WrongLength ==> r == Ok("")
    ensures LegacyBankLike(codigo) && codeType == Barcode && 19 <= |codigo| ==>
      r == Ok(ZeroStripped(codigo[9..17] + "." + codigo[17..19]))
    ensures LegacyBankLike(codigo) && codeType == TypeableLine && 47 <= |codigo| ==>
      r == Ok(ZeroStripped(codigo[37..45] + "." + codigo[45..47]))
    ensures !LegacyBankLike(codigo) && codeType != WrongLength ==>
      r == LegacyCollectionValue(codigo, codeType)
  {
    match codeType
    case Barcode =>
      if LegacyBankLike(codigo) then
        var v := Substr(codigo, 9, 10);
        assert 19 <= |codigo| ==> v[..8] == codigo[9..17] && v[8..10] == codigo[17..19];
        Ok(ZeroStripped(ValueText(v, 8)))
      else LegacyCollectionValue(codigo, Barcode)
    case TypeableLine =>
      if LegacyBankLike(codigo) then
        var v := SubstrFrom(codigo, 37);
        assert 47 <= |codigo| ==> v[..8] == codigo[37..45] && v[8..10] == codigo[45..47];
        Ok(ZeroStripped(ValueText(v, 8)))
      else LegacyCollectionValue(codigo, TypeableLine)
    case WrongLength => Ok("")
  }

  /** identifyValue (src/old.js), step by step. */
  method IdentifyValue(codigo: string, codeType: CodeType) returns (r: Result<string, Error>)
    ensures r == Value(codigo, codeType)
  {
    var bankLike := LegacyBankLike(codigo);
    var valorBoleto := "";
    r := Ok("");
    if codeType == Barcode {
      if bankLike {
        valorBoleto := Substr(codigo, 9, 10);
        var valorFinal := ValueText(valorBoleto, 8);
        valorFinal := StripZeros(valorFinal);
        r := Ok(valorFinal);
      } else {
        r := LegacyIdentifyBarcodeCollectionValue(codigo, Barcode);
      }
    } else if codeType == TypeableLine {
      if bankLike {
        valorBoleto := SubstrFrom(codigo, 37);
        var valorFinal := ValueText(valorBoleto, 8);
        valorFinal := StripZeros(valorFinal);
        r := Ok(valorFinal);
      } else {
        r := LegacyIdentifyBarcodeCollectionValue(codigo, TypeableLine);
      }
    }
  }
}
