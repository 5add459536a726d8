/** validarBoleto (src/old.js): repairs the length of a credit-card line,
    rejects impossible lengths, checks the check digits and, for a valid
    code, fills in its barcode, line, issuer type, due-date factor and
    amount. */
module Validator {
  import opened Wrappers
  import opened Digits
  import opened JsString
  import opened Classifier
  import opened Fields
  import opened Converter
  import opened RoundTrip

  /** The reason a report gives, in place of its message text. */
  datatype Message =
    | WrongDigitCount(count: nat)
    | BarcodeOnlyType
    | CheckDigitFailed
    | Valid

  /** The fields a successful report adds. The due date is its day factor;
      the amount is the text `parseFloat` reads. */
  datatype Details = Details(
    codeTypeInput: CodeType,
    boletoType: Option<BoletoType>,
    barcode: string,
    typeableLine: string,
    dueDateFactor: Option<nat>,
    value: string)

  /** The `retorno` object. */
  datatype Report = Report(success: bool, codigoInput: string, message: Message, details: Option<Details>)

  /** A report, or the exception the check-digit step raised. */
  datatype Outcome = Returned(report: Report) | Raised(error: Error)

  predicate AllowedLength(n: nat) {
    n == 44 || n == 46 || n == 47 || n == 48
  }

  /** The length repairs: eleven zeros after 36 digits, one after 46. */
  function Repaired(c: string): (r: string)
    ensures IsDigits(c) ==> IsDigits(r)
    ensures |c| == 36 ==> |r| == 47
    ensures |c| == 46 ==> |r| == 47
    ensures |c| != 36 && |c| != 46 ==> r == c
    ensures r[..|c|] == c && (forall i | |c| <= i < |r| :: r[i] == '0')
  {
    if |c| == 36 then c + Zeros(11)
    else if |c| == 46 then c + "0"
    else c
  }

  /** validarBoleto, step by step. The category is taken from the input
      before the repair, so a repaired 36-digit code keeps the wrong-length
      category and always fails the check-digit step. */
  method ValidateBoleto(input: string) returns (out: Outcome)
    ensures var c := Repaired(KeepDigits(input)); var t := CodeTypeIdentifier(input);
      && (!AllowedLength(|c|) <==> out == Returned(Report(false, c, WrongDigitCount(|c|), None)))
      && (out.Raised? <==> AllowedLength(|c|) && ValidateWithCheckDigits(c, t).Err?)
      && (out.Raised? ==> out.error == UndefinedReference)
      && (out.Returned? ==> out.report.codigoInput == c && out.report.message != BarcodeOnlyType)
      && (out.Returned? && out.report.success <==> AllowedLength(|c|) && ValidateWithCheckDigits(c, t) == Ok(true))
    ensures |KeepDigits(input)| == 36 ==> out.Returned? && !out.report.success
    ensures var c := Repaired(KeepDigits(input));
      out.Returned? && !out.report.success && AllowedLength(|c|) ==>
        out.report.message == CheckDigitFailed && out.report.details.None?
    ensures var c := Repaired(KeepDigits(input));
      |c| == 47 && !LegacyBankLike(c) ==> !(out.Returned? && out.report.success)
    ensures var c := Repaired(KeepDigits(input)); var t := CodeTypeIdentifier(input);
      out.Returned? && out.report.success ==>
        && out.report.message == Valid
        && out.report.details.Some?
        && Describes(out.report.details.value, c, t)
  {
    var codeType := CodeTypeIdentifier(input);
    var codigo := KeepDigits(input);
    if |codigo| == 36 {
      codigo := codigo + Zeros(11);
    } else if |codigo| == 46 {
      codigo := codigo + "0";
    }
    assert codigo == Repaired(KeepDigits(input));

    if !AllowedLength(|codigo|) {
      out := Returned(Report(false, codigo, WrongDigitCount(|codigo|), None));
      return;
    }

    if |codigo| == 47 && !LegacyBankLike(codigo) {
      ShortCollectionLineRejected(codigo);
    }
    out := CheckDigits(codigo, codeType);
  }

  /** The rest of validarBoleto, once the length is one it allows: the
      check-digit step, then a failure report or the filled-in fields. */
  method CheckDigits(codigo: string, codeType: CodeType) returns (out: Outcome)
    requires IsDigits(codigo) && AllowedLength(|codigo|)
    ensures out.Raised? <==> ValidateWithCheckDigits(codigo, codeType).Err?
    ensures out.Raised? ==> out.error == UndefinedReference
    ensures out.Returned? ==>
      && out.report.codigoInput == codigo
      && (out.report.success <==> ValidateWithCheckDigits(codigo, codeType) == Ok(true))
    ensures out.Returned? && !out.report.success ==>
      out.report.message == CheckDigitFailed && out.report.details.None?
    ensures out.Returned? && out.report.success ==>
      && out.report.message == Valid
      && out.report.details.Some?
      && Describes(out.report.details.value, codigo, codeType)
  {
    // The second test of validarBoleto asks for a length that is both 46
    // and 47, so it never holds and the check digits are always examined.
    var barcodeOnly := Substr(codigo, 0, 1) == "8" && |codigo| == 46 && |codigo| == 47;
    var valid := if barcodeOnly then Ok(false) else ValidateWithCheckDigits(codigo, codeType);
    if valid.Err? {
      out := Raised(valid.error);
      return;
    }
    if !valid.value {
      out := Returned(Report(false, codigo, if barcodeOnly then BarcodeOnlyType else CheckDigitFailed, None));
      return;
    }

    var details := Describe(codigo, codeType);
    out := Returned(Report(true, codigo, Valid, details));
  }

  /** What the fields of a successful report hold for the code `c` of
      category `t`: the category, the issuer type, the due-date factor and
      the amount read from `c`; `c` itself in the field of its own form and
      its conversion in the other; and, for a code that does not start with
      '8', a barcode and line that convert back into each other. */
  predicate Describes(d: Details, c: string, t: CodeType) {
    && d.codeTypeInput == t
    && d.boletoType == LegacyBoletoType(c)
    && d.dueDateFactor == DueDateFactor(c, t)
    && Value(c, t) == Ok(d.value)
    && (t == TypeableLine ==> d.typeableLine == c && d.barcode == LineToBarcode(c))
    && (t == Barcode ==> d.barcode == c && BarcodeToLine(c, false) == Ok(d.typeableLine))
    && (|c| > 0 && c[0] != '8' ==>
          && (t == TypeableLine && |c| == 47 ==> BarcodeToLine(d.barcode, false) == Ok(c))
          && (t == Barcode && |c| == 44 ==> LineToBarcode(d.typeableLine) == c))
  }

  /** The result fields validarBoleto fills in for a code whose check digits
      are right. */
  method Describe(codigo: string, codeType: CodeType) returns (details: Option<Details>)
    requires IsDigits(codigo)
    requires ValidateWithCheckDigits(codigo, codeType) == Ok(true)
    ensures details.Some? && Describes(details.value, codigo, codeType)
  {
    details := None;
    if codeType == TypeableLine {
      var valor := IdentifyValue(codigo, TypeableLine);
      assert valor.Ok?;
      details := Some(Details(
        TypeableLine,
        LegacyBoletoType(codigo),
        LineToBarcode(codigo),
        codigo,
        DueDateFactor(codigo, TypeableLine),
        valor.value));
      if |codigo| == 47 && codigo[0] != '8' {
        BankLineRoundTrip(codigo);
      }
    } else if codeType == Barcode {
      var linha := BarcodeToLine(codigo, false);
      var valor := IdentifyValue(codigo, Barcode);
      assert linha.Ok? && valor.Ok?;
      details := Some(Details(
        Barcode,
        LegacyBoletoType(codigo),
        codigo,
        linha.value,
        DueDateFactor(codigo, Barcode),
        valor.value));
      if |codigo| == 44 && codigo[0] != '8' {
        BankBarcodeRoundTrip(codigo);
      }
    }
  }
}
