/** The beneficiary account-type classifier (`Orden.tipoCuentaBeneficiario`):
    the type of a beneficiary account is decided by the length of its text
    alone. */
module Cuentas {
  import opened Results

  /** `TipoCuenta`: the account types STP distinguishes. */
  datatype TipoCuenta = Card | PhoneNumber | Clabe

  /** The integer STP's protocol uses for each account type (`TipoCuenta.value`). */
  function Code(t: TipoCuenta): int {
    match t
    case Card => 3
    case PhoneNumber => 10
    case Clabe => 40
  }

  /** Reference definition: the account lengths each type stands for. */
  function Lengths(t: TipoCuenta): set<nat> {
    match t
    case Clabe => {18}
    case Card => {15, 16}
    case PhoneNumber => {10}
  }

  /** The classifier's failure: the offending length, as the `ValueError`
      message reports it. */
  datatype InvalidLength = InvalidLength(length: nat)

  /** `tipoCuentaBeneficiario`: 18 characters make a CLABE, 15 or 16 a card
      number, 10 a phone number; any other length is refused. */
  function Classify(cuenta: string): (r: Result<TipoCuenta, InvalidLength>)
    ensures r.Success? ==> |cuenta| in Lengths(r.value)
    ensures r.Failure? ==> r.error == InvalidLength(|cuenta|)
    ensures r.Failure? <==> forall t: TipoCuenta :: |cuenta| !in Lengths(t)
  {
    var n := |cuenta|;
    if n == 18 then Success(Clabe)
    else if n == 15 || n == 16 then Success(Card)
    else if n == 10 then Success(PhoneNumber)
    else Failure(InvalidLength(n))
  }

  /** No length stands for two types, so the classifier never guesses. */
  lemma LengthsDisjoint(t: TipoCuenta, u: TipoCuenta, n: nat)
    requires n in Lengths(t) && n in Lengths(u)
    ensures t == u
  {
  }

  /** The types' protocol codes are pairwise distinct. */
  lemma CodeInjective(t: TipoCuenta, u: TipoCuenta)
    requires Code(t) == Code(u)
    ensures t == u
  {
  }

  /** Every length of a type is classified as that type: the classifier and
      the reference table agree in both directions. */
  lemma ClassifyExactly(cuenta: string, t: TipoCuenta)
    ensures Classify(cuenta) == Success(t) <==> |cuenta| in Lengths(t)
  {
    if |cuenta| in Lengths(t) {
      var r := Classify(cuenta);
      if r.Success? {
        LengthsDisjoint(r.value, t, |cuenta|);
      }
    }
  }

  /** The classifier is total on {10, 15, 16, 18} and fails everywhere else. */
  lemma ClassifyDomain(cuenta: string)
    ensures Classify(cuenta).Success? <==> |cuenta| in {10, 15, 16, 18}
  {
  }

  /** The result depends on the length only, never on the characters. */
  lemma ClassifyByLength(a: string, b: string)
    requires |a| == |b|
    ensures Classify(a) == Classify(b)
  {
  }

  /** One case per branch: an 18-, 16- and 10-character account and a
      5-character one that is refused. */
  lemma ClassifyExamples()
    ensures Classify("123456789012345678") == Success(Clabe)
    ensures Classify("1234567890123456") == Success(Card)
    ensures Classify("1234567890") == Success(PhoneNumber)
    ensures Classify("12345") == Failure(InvalidLength(5))
  {
  }
}
