/** The code classifier: length category, issuer category (src/capyboleto.ts
    and its older copy in src/old.js) and the reference digit that chooses
    the check-digit modulus of a collection slip. */
module Classifier {
  import opened Wrappers
  import opened Digits
  import opened JsString

  /** CÓDIGO_DE_BARRAS, LINHA_DIGITÁVEL, TAMANHO_INCORRETO. */
  datatype CodeType = Barcode | TypeableLine | WrongLength

  /** BANCO, CARTÃO_DE_CRÉDITO and the collection ("arrecadação") segments. */
  datatype BoletoType =
    | Bank
    | CreditCard
    | MunicipalCollection
    | SanitationAgreement
    | EnergyGasAgreement
    | TelecomAgreement
    | GovernmentCollection
    | TrafficFeeCollection
    | Others

  predicate IsBankLike(t: BoletoType) {
    t == Bank || t == CreditCard
  }

  /** The TypeError raised when the source reads `.mod` or `.efetivo` of the
      undefined reference of a collection code. */
  datatype Error = UndefinedReference

  /** codeTypeIdentifier: the category depends on the digit count alone. */
  function CodeTypeIdentifier(code: string): (t: CodeType)
    ensures t == Barcode <==> |KeepDigits(code)| == 44
    ensures t == TypeableLine <==> |KeepDigits(code)| in {46, 47, 48}
  {
    var length := |KeepDigits(code)|;
    if length == 44 then Barcode
    else if length == 46 || length == 47 || length == 48 then TypeableLine
    else WrongLength
  }

  /** Two inputs with the same number of digits get the same category, so
      formatting characters never change it. */
  lemma CodeTypeDependsOnDigitCount(a: string, b: string)
    requires |KeepDigits(a)| == |KeepDigits(b)|
    ensures CodeTypeIdentifier(a) == CodeTypeIdentifier(b)
  {
  }

  /** The credit-card mark: fourteen zeros at the end, or at offsets 5..19. */
  predicate CreditCardSignature(c: string) {
    SubstringFrom(c, |c| - 14) == Zeros(14) || Substr(c, 5, 14) == Zeros(14)
  }

  predicate AllZeros(s: string) {
    forall i | 0 <= i < |s| :: s[i] == '0'
  }

  /** On a code of at least 19 digits the mark is a zero run at one of two
      fixed places; on a shorter one it needs a 14-digit all-zero code. */
  lemma SignatureAtFixedPlaces(c: string)
    ensures |c| >= 19 ==> (CreditCardSignature(c) <==> AllZeros(c[|c| - 14..]) || AllZeros(c[5..19]))
    ensures |c| < 14 ==> !CreditCardSignature(c)
  {
    if |c| >= 19 {
      if AllZeros(c[|c| - 14..]) {
        assert c[|c| - 14..] == Zeros(14);
      }
      if AllZeros(c[5..19]) {
        assert c[5..19] == Zeros(14);
      }
    }
  }

  /** The table of collection segments, keyed by the second character. */
  function Segment(key: string): (t: Option<BoletoType>)
    ensures t.Some? ==> !IsBankLike(t.value)
    ensures t.Some? <==> key in {"1", "2", "3", "4", "5", "6", "7", "9"}
    ensures t == Some(Others) <==> key == "6" || key == "9"
  {
    if key == "1" then Some(MunicipalCollection)
    else if key == "2" then Some(SanitationAgreement)
    else if key == "3" then Some(EnergyGasAgreement)
    else if key == "4" then Some(TelecomAgreement)
    else if key == "5" then Some(GovernmentCollection)
    else if key == "6" then Some(Others)
    else if key == "7" then Some(TrafficFeeCollection)
    else if key == "9" then Some(Others)
    else None
  }

  /** boletoTypeIdentifier (src/capyboleto.ts): the credit-card mark wins;
      then a leading '8' selects a segment; a second digit without a segment
      (0 or 8) falls through to BANCO. */
  function BoletoTypeIdentifier(code: string): (t: BoletoType)
    ensures t == CreditCard <==> CreditCardSignature(KeepDigits(code))
    ensures var c := KeepDigits(code);
      !CreditCardSignature(c) ==>
        (IsBankLike(t) <==> CharAt(c, 0) != "8" || Segment(CharAt(c, 1)).None?)
    ensures var c := KeepDigits(code);
      !CreditCardSignature(c) && CharAt(c, 0) == "8" && Segment(CharAt(c, 1)).Some? ==>
        t == Segment(CharAt(c, 1)).value
  {
    var c := KeepDigits(code);
    if CreditCardSignature(c) then CreditCard
    else if CharAt(c, 0) == "8" && Segment(CharAt(c, 1)).Some? then Segment(CharAt(c, 1)).value
    else Bank
  }

  /** boletoTypeIdentifier (src/old.js): the same table, but a second digit
      without a segment gives undefined (None) instead of BANCO. Where it is
      defined it agrees with the newer classifier. */
  function LegacyBoletoType(code: string): (t: Option<BoletoType>)
    ensures var c := KeepDigits(code);
      t.None? <==> !CreditCardSignature(c) && CharAt(c, 0) == "8" && Segment(CharAt(c, 1)).None?
    ensures t.Some? ==> t.value == BoletoTypeIdentifier(code)
  {
    var c := KeepDigits(code);
    if CreditCardSignature(c) then Some(CreditCard)
    else if CharAt(c, 0) == "8" then Segment(CharAt(c, 1))
    else Some(Bank)
  }

  /** `tipoBoleto == "BANCO" || tipoBoleto == "CARTÃO_DE_CRÉDITO"` in src/old.js. */
  predicate LegacyBankLike(c: string) {
    var t := LegacyBoletoType(c);
    t.Some? && IsBankLike(t.value)
  }

  /** The old classifier sends every code to the bank layouts unless it starts
      with '8' and carries no credit-card mark. */
  lemma LegacyBankLikeIff(c: string)
    requires IsDigits(c)
    ensures LegacyBankLike(c) <==> CreditCardSignature(c) || |c| == 0 || c[0] != '8'
  {
  }

  /** Which modulus the check digits of a collection code use. */
  datatype Modulus = Ten | Eleven

  /** The reference digit read: the modulus and whether the amount field
      holds an effective value. */
  datatype Reference = Reference(modulus: Modulus, effective: bool)

  /** identifyReference: the digit at index 2 chooses 6 -> (10, effective),
      7 -> (10, not effective), 8 -> (11, effective), 9 -> (11, not effective);
      anything else gives undefined. */
  function IdentifyReference(code: string): (r: Option<Reference>)
    ensures var c := KeepDigits(code);
      && (r.Some? <==> |c| > 2 && c[2] in "6789")
      && (r.Some? ==> (r.value.modulus == Ten <==> c[2] in "67"))
      && (r.Some? ==> (r.value.effective <==> c[2] in "68"))
  {
    var c := KeepDigits(code);
    var reference := Substr(c, 2, 1);
    if reference == "6" then Some(Reference(Ten, true))
    else if reference == "7" then Some(Reference(Ten, false))
    else if reference == "8" then Some(Reference(Eleven, true))
    else if reference == "9" then Some(Reference(Eleven, false))
    else None
  }

  /** The reference of a digit string depends on its third digit alone. */
  lemma SameReference(x: string, y: string)
    requires IsDigits(x) && IsDigits(y) && |x| > 2 && |y| > 2 && x[2] == y[2]
    ensures IdentifyReference(x) == IdentifyReference(y)
  {
    assert Substr(x, 2, 1) == [x[2]] == [y[2]] == Substr(y, 2, 1);
  }

  /** Classifying a code or its digits alone gives the same type. */
  lemma BoletoTypeOfDigits(code: string)
    ensures BoletoTypeIdentifier(KeepDigits(code)) == BoletoTypeIdentifier(code)
  {
  }
}
