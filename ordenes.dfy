/** The `Orden` payment-order record: its fields and defaults, the checks
    made when it is built (the dataclass constructor, `__post_init__` and the
    field validators), and its wire dictionary (`to_dict`). */
module Ordenes {
  import opened Results
  import opened Texto
  import Cuentas

  // ---------------------------------------------------------------------
  // Protocol constants
  // ---------------------------------------------------------------------

  /** STP's own institution code (`institucionOperante`). */
  const StpBankCode: string := "90646"
  /** `prioridad`: `Prioridad.alta`. */
  const PrioridadAlta: int := 1
  /** `tipoCuentaOrdenante`: the payer's account is always a CLABE. */
  const TipoCuentaOrdenante: int := Cuentas.Code(Cuentas.Clabe)

  const MaxTexto: nat := 39         // conceptoPago, nombreBeneficiario, nombreOrdenante
  const MaxClaveRastreo: nat := 29
  const MaxRfcCurp: nat := 18
  const ReferenciaBound: int := 10_000_000   // 10 ** 7

  // ---------------------------------------------------------------------
  // Input, record and errors
  // ---------------------------------------------------------------------

  /** A numeric argument with the Python type it arrived as: constructing an
      order distinguishes `100.0` from `100`. */
  datatype Number = Float(x: real) | Int(n: int)

  /** The keyword arguments of `Orden(**kwargs)`; `None` is an omitted
      argument. */
  datatype Kwargs = Kwargs(
    monto: Option<Number>,
    conceptoPago: Option<string>,
    cuentaBeneficiario: Option<string>,
    nombreBeneficiario: Option<string>,
    institucionContraparte: Option<string>,
    cuentaOrdenante: Option<string>,
    nombreOrdenante: Option<string>,
    claveRastreo: Option<string>,
    referenciaNumerica: Option<int>,
    rfcCurpBeneficiario: Option<string>,
    rfcCurpOrdenante: Option<string>,
    medioEntrega: Option<int>,
    tipoPago: Option<int>,
    topologia: Option<string>,
    iva: Option<real>)

  /** A validated order, every field normalised; `id` is kept apart because it
      is the one field changed after construction. */
  datatype Campos = Campos(
    monto: real,
    conceptoPago: string,
    cuentaBeneficiario: string,
    nombreBeneficiario: string,
    institucionContraparte: string,
    cuentaOrdenante: string,
    nombreOrdenante: Option<string>,
    claveRastreo: string,
    referenciaNumerica: int,
    rfcCurpBeneficiario: string,
    rfcCurpOrdenante: Option<string>,
    medioEntrega: int,
    tipoPago: int,
    topologia: string,
    iva: Option<real>)

  /** Why one field was refused. */
  datatype Reason =
    | NotPositive          // PositiveFloat
    | NotDigits(n: nat)    // digits(n, n), Clabe
    | UnknownBank          // _validate_institucion
    | OutOfRange           // conint(gt=0, lt=10 ** 7)
    | TooLong(max: nat)    // constr(max_length=max)

  /** The order's fields, by the names they have on the wire. */
  datatype Field =
    | Monto | ConceptoPago | CuentaBeneficiario | NombreBeneficiario
    | InstitucionContraparte | CuentaOrdenante | NombreOrdenante | ClaveRastreo
    | ReferenciaNumerica | RfcCurpBeneficiario | RfcCurpOrdenante | MedioEntrega
    | TipoPago | Topologia | Iva

  datatype FieldError = FieldError(field: Field, reason: Reason)

  /** Everything building or registering an order can raise. */
  datatype Error =
    | MissingArguments(names: seq<Field>)   // TypeError from the dataclass constructor
    | MontoNotFloat                          // ValueError from __post_init__
    | Invalid(errors: seq<FieldError>)       // the validation error, one entry per refused field
    | InvalidAccountLength(length: nat)      // ValueError from tipoCuentaBeneficiario
    | Gateway(description: string)           // whatever the client's put raises
    | MissingId                              // KeyError: the response has no 'id'

  /** The fields a list of errors refers to. */
  function Fields(es: seq<FieldError>): (fs: set<Field>)
    ensures fs == {} <==> es == []
  {
    if es == [] then {} else {es[0].field} + Fields(es[1..])
  }

  lemma {:induction false} FieldsConcat(a: seq<FieldError>, b: seq<FieldError>)
    ensures Fields(a + b) == Fields(a) + Fields(b)
  {
    if a == [] {
      assert a + b == b;
    } else {
      assert (a + b)[1..] == a[1..] + b;
      FieldsConcat(a[1..], b);
    }
  }

  // ---------------------------------------------------------------------
  // Field rules
  // ---------------------------------------------------------------------

  /** `PositiveFloat` on a value already known to be a float. */
  function CheckMonto(x: real): (r: Result<real, Reason>)
    ensures r.Success? <==> x > 0.0
    ensures r.Success? ==> r.value == x
    ensures r.Failure? ==> r.error == NotPositive
  {
    if x > 0.0 then Success(x) else Failure(NotPositive)
  }

  /** `conint(gt=0, lt=10 ** 7)`. */
  function CheckReferencia(n: int): (r: Result<int, Reason>)
    ensures r.Success? <==> 0 < n < ReferenciaBound
    ensures r.Success? ==> r.value == n
    ensures r.Failure? ==> r.error == OutOfRange
  {
    if 0 < n < ReferenciaBound then Success(n) else Failure(OutOfRange)
  }

  /** `constr(max_length=max)`: an overlong value is refused, not cut. */
  function CheckMaxLength(s: string, max: nat): (r: Result<string, Reason>)
    ensures r.Success? <==> |s| <= max
    ensures r.Success? ==> r.value == s
    ensures r.Failure? ==> r.error == TooLong(max)
  {
    if |s| <= max then Success(s) else Failure(TooLong(max))
  }

  /** An optional `constr(max_length=max)`: `None` is always accepted. */
  function CheckOptionalMaxLength(o: Option<string>, max: nat): (r: Result<Option<string>, Reason>)
    ensures r.Success? <==> (o.Some? ==> |o.value| <= max)
    ensures r.Success? ==> r.value == o
  {
    match o
    case None => Success(None)
    case Some(s) =>
      match CheckMaxLength(s, max)
      case Success(v) => Success(Some(v))
      case Failure(e) => Failure(e)
  }

  /** `digits(n, n)`: exactly `n` decimal digits. */
  function CheckDigits(s: string, n: nat): (r: Result<string, Reason>)
    ensures r.Success? <==> DigitsOfLength(s, n)
    ensures r.Success? ==> r.value == s
    ensures r.Failure? ==> r.error == NotDigits(n)
  {
    if DigitsOfLength(s, n) then Success(s) else Failure(NotDigits(n))
  }

  /** `_validate_institucion`: the value is kept unchanged exactly when it is
      one of the registry's bank codes. */
  function ValidateInstitucion(v: string, banks: set<string>): (r: Result<string, Reason>)
    ensures r.Success? <==> v in banks
    ensures r.Success? ==> r.value == v
    ensures r.Failure? ==> r.error == UnknownBank
  {
    if v in banks then Success(v) else Failure(UnknownBank)
  }

  /** `institucionContraparte`: the field type `digits(5, 5)` is checked
      first and the registry only after it, so whatever the registry holds,
      an accepted code has exactly five digits. */
  function CheckInstitucion(v: string, banks: set<string>): (r: Result<string, Reason>)
    ensures r.Success? <==> DigitsOfLength(v, 5) && v in banks
    ensures r.Success? ==> r.value == v
    ensures !DigitsOfLength(v, 5) ==> r == Failure(NotDigits(5))
    ensures DigitsOfLength(v, 5) && v !in banks ==> r == Failure(UnknownBank)
  {
    match CheckDigits(v, 5)
    case Failure(e) => Failure(e)
    case Success(d) => ValidateInstitucion(d, banks)
  }

  /** A `truncated_str(39)` field followed by `_unicode_to_ascii`: the field
      type cuts the text first, the validator then normalises what is left. */
  function NormalizeTexto(s: string): (r: string)
    ensures AllAscii(r)
    ensures AllAscii(s) && |s| <= MaxTexto ==> r == s
    ensures AllAscii(s) ==> r == Truncate(s, MaxTexto) && |r| <= MaxTexto
  {
    var t := Truncate(s, MaxTexto);
    assert AllAscii(s) ==> AllAscii(t) by {
      if AllAscii(s) {
        forall i | 0 <= i < |t| ensures IsAscii(t[i]) {
          assert t[i] == s[i];
        }
      }
    }
    UnicodeToAscii(t)
  }

  /** The default tracking key `f'CR{int(time.time())}'`, for the time `now`
      the caller supplies. */
  function DefaultClaveRastreo(now: nat): (k: string)
    ensures |k| >= 3 && k[..2] == "CR" && AllDigits(k[2..]) && DigitsValue(k[2..]) == now
    ensures k[2] == '0' ==> k == "CR0"
  {
    "CR" + Decimal(now)
  }

  /** The numeric reference the order gets: the one given, or the value
      `draw` the default factory drew. */
  function ReferenciaOf(kw: Kwargs, draw: int): int {
    kw.referenciaNumerica.GetOr(draw)
  }

  // ---------------------------------------------------------------------
  // Construction
  // ---------------------------------------------------------------------

  /** The fields without a default, in declaration order. */
  const Required: seq<Field> :=
    [Monto, ConceptoPago, CuentaBeneficiario, NombreBeneficiario, InstitucionContraparte, CuentaOrdenante]

  /** Whether a field without a default was given; a field with a default
      always has a value. */
  predicate Given(kw: Kwargs, f: Field) {
    match f
    case Monto => kw.monto.Some?
    case ConceptoPago => kw.conceptoPago.Some?
    case CuentaBeneficiario => kw.cuentaBeneficiario.Some?
    case NombreBeneficiario => kw.nombreBeneficiario.Some?
    case InstitucionContraparte => kw.institucionContraparte.Some?
    case CuentaOrdenante => kw.cuentaOrdenante.Some?
    case _ => true
  }

  /** The fields of `fs` that were not given, in the order of `fs`. */
  function MissingAmong(kw: Kwargs, fs: seq<Field>): (r: seq<Field>)
    ensures forall f :: f in r <==> f in fs && !Given(kw, f)
    ensures |r| <= |fs|
  {
    if fs == [] then []
    else (if Given(kw, fs[0]) then [] else [fs[0]]) + MissingAmong(kw, fs[1..])
  }

  /** The required arguments that were not given, in declaration order: the
      names the dataclass constructor's `TypeError` lists. */
  function Missing(kw: Kwargs): (r: seq<Field>)
    ensures forall f :: f in r <==> f in Required && !Given(kw, f)
    ensures r == [] <==> AllRequiredGiven(kw)
  {
    var r := MissingAmong(kw, Required);
    assert r == [] <==> AllRequiredGiven(kw) by {
      if r != [] {
        assert r[0] in r;
      }
      if !AllRequiredGiven(kw) {
        var f :=
          if kw.monto.None? then Monto
          else if kw.conceptoPago.None? then ConceptoPago
          else if kw.cuentaBeneficiario.None? then CuentaBeneficiario
          else if kw.nombreBeneficiario.None? then NombreBeneficiario
          else if kw.institucionContraparte.None? then InstitucionContraparte
          else CuentaOrdenante;
        assert f in Required && !Given(kw, f);
        assert f in r;
      }
    }
    r
  }

  predicate AllRequiredGiven(kw: Kwargs) {
    && kw.monto.Some?
    && kw.conceptoPago.Some?
    && kw.cuentaBeneficiario.Some?
    && kw.nombreBeneficiario.Some?
    && kw.institucionContraparte.Some?
    && kw.cuentaOrdenante.Some?
  }

  /** Reference definition of the inputs an order can be built from: every
      required argument given, `monto` a positive float, a five-digit known
      institution, an 18-digit payer account, a numeric reference in
      (0, 10 ** 7) and tax ids of at most 18 characters. */
  predicate Acceptable(kw: Kwargs, banks: set<string>, draw: int) {
    && AllRequiredGiven(kw)
    && kw.monto.value.Float? && kw.monto.value.x > 0.0
    && DigitsOfLength(kw.institucionContraparte.value, 5)
    && kw.institucionContraparte.value in banks
    && DigitsOfLength(kw.cuentaOrdenante.value, 18)
    && 0 < ReferenciaOf(kw, draw) < ReferenciaBound
    && |kw.rfcCurpBeneficiario.GetOr("ND")| <= MaxRfcCurp
    && (kw.rfcCurpOrdenante.Some? ==> |kw.rfcCurpOrdenante.value| <= MaxRfcCurp)
  }

  /** The invariant of every constructed order. */
  predicate Valid(c: Campos, banks: set<string>) {
    && c.monto > 0.0
    && AllAscii(c.conceptoPago)
    && AllAscii(c.nombreBeneficiario)
    && (c.nombreOrdenante.Some? ==> AllAscii(c.nombreOrdenante.value))
    && DigitsOfLength(c.institucionContraparte, 5)
    && c.institucionContraparte in banks
    && DigitsOfLength(c.cuentaOrdenante, 18)
    && |c.claveRastreo| <= MaxClaveRastreo
    && 0 < c.referenciaNumerica < ReferenciaBound
    && |c.rfcCurpBeneficiario| <= MaxRfcCurp
    && (c.rfcCurpOrdenante.Some? ==> |c.rfcCurpOrdenante.value| <= MaxRfcCurp)
  }

  /** The fields the validators can refuse, in declaration order. */
  const Validated: seq<Field> :=
    [Monto, InstitucionContraparte, CuentaOrdenante, ReferenciaNumerica, RfcCurpBeneficiario, RfcCurpOrdenante]

  /** Reference definition of each field validator's verdict; the fields not
      listed in `Validated` accept every value. */
  predicate FieldAccepted(kw: Kwargs, banks: set<string>, draw: int, f: Field)
    requires AllRequiredGiven(kw) && kw.monto.value.Float?
  {
    match f
    case Monto => kw.monto.value.x > 0.0
    case InstitucionContraparte =>
      DigitsOfLength(kw.institucionContraparte.value, 5) && kw.institucionContraparte.value in banks
    case CuentaOrdenante => DigitsOfLength(kw.cuentaOrdenante.value, 18)
    case ReferenciaNumerica => 0 < ReferenciaOf(kw, draw) < ReferenciaBound
    case RfcCurpBeneficiario => |kw.rfcCurpBeneficiario.GetOr("ND")| <= MaxRfcCurp
    case RfcCurpOrdenante => kw.rfcCurpOrdenante.Some? ==> |kw.rfcCurpOrdenante.value| <= MaxRfcCurp
    case _ => true
  }

  function Refusal<T>(r: Result<T, Reason>): Option<Reason> {
    if r.Failure? then Some(r.error) else None
  }

  /** The validator of one field: why it refuses the argument, if it does. */
  function CheckField(kw: Kwargs, banks: set<string>, draw: int, f: Field): (r: Option<Reason>)
    requires AllRequiredGiven(kw) && kw.monto.value.Float?
    ensures r.None? <==> FieldAccepted(kw, banks, draw, f)
  {
    match f
    case Monto => Refusal(CheckMonto(kw.monto.value.x))
    case InstitucionContraparte => Refusal(CheckInstitucion(kw.institucionContraparte.value, banks))
    case CuentaOrdenante => Refusal(CheckDigits(kw.cuentaOrdenante.value, 18))
    case ReferenciaNumerica => Refusal(CheckReferencia(ReferenciaOf(kw, draw)))
    case RfcCurpBeneficiario => Refusal(CheckMaxLength(kw.rfcCurpBeneficiario.GetOr("ND"), MaxRfcCurp))
    case RfcCurpOrdenante => Refusal(CheckOptionalMaxLength(kw.rfcCurpOrdenante, MaxRfcCurp))
    case _ => None
  }

  /** The errors of the fields `fs`, in the order of `fs`. */
  function ErrorsAmong(kw: Kwargs, banks: set<string>, draw: int, fs: seq<Field>): (es: seq<FieldError>)
    requires AllRequiredGiven(kw) && kw.monto.value.Float?
    ensures forall f :: f in Fields(es) <==> f in fs && !FieldAccepted(kw, banks, draw, f)
  {
    if fs == [] then []
    else
      var head := match CheckField(kw, banks, draw, fs[0])
                  case None => []
                  case Some(why) => [FieldError(fs[0], why)];
      var tail := ErrorsAmong(kw, banks, draw, fs[1..]);
      FieldsConcat(head, tail);
      assert forall f :: f in fs <==> f == fs[0] || f in fs[1..];
      head + tail
  }

  /** The field validators' verdicts, in declaration order: one entry for
      each refused field, and none at all exactly when the arguments are
      acceptable. */
  function FieldErrors(kw: Kwargs, banks: set<string>, draw: int): (es: seq<FieldError>)
    requires AllRequiredGiven(kw) && kw.monto.value.Float?
    ensures forall f :: f in Fields(es) <==> f in Validated && !FieldAccepted(kw, banks, draw, f)
    ensures es == [] <==> Acceptable(kw, banks, draw)
  {
    var es := ErrorsAmong(kw, banks, draw, Validated);
    assert es == [] <==> Acceptable(kw, banks, draw) by {
      if es == [] {
        assert forall f :: f in Validated ==> FieldAccepted(kw, banks, draw, f);
        assert FieldAccepted(kw, banks, draw, Monto);
        assert FieldAccepted(kw, banks, draw, InstitucionContraparte);
        assert FieldAccepted(kw, banks, draw, CuentaOrdenante);
        assert FieldAccepted(kw, banks, draw, ReferenciaNumerica);
        assert FieldAccepted(kw, banks, draw, RfcCurpBeneficiario);
        assert FieldAccepted(kw, banks, draw, RfcCurpOrdenante);
      }
      if !Acceptable(kw, banks, draw) {
        var f :=
          if !FieldAccepted(kw, banks, draw, Monto) then Monto
          else if !FieldAccepted(kw, banks, draw, InstitucionContraparte) then InstitucionContraparte
          else if !FieldAccepted(kw, banks, draw, CuentaOrdenante) then CuentaOrdenante
          else if !FieldAccepted(kw, banks, draw, ReferenciaNumerica) then ReferenciaNumerica
          else if !FieldAccepted(kw, banks, draw, RfcCurpBeneficiario) then RfcCurpBeneficiario
          else RfcCurpOrdenante;
        assert f in Validated && !FieldAccepted(kw, banks, draw, f);
        assert f in Fields(es);
      }
    }
    es
  }

  /** The record the validators produce from accepted arguments: texts cut
      and normalised, defaults filled in. */
  function Build(kw: Kwargs, now: nat, draw: int): Campos
    requires AllRequiredGiven(kw) && kw.monto.value.Float?
  {
    Campos(
      kw.monto.value.x,
      NormalizeTexto(kw.conceptoPago.value),
      kw.cuentaBeneficiario.value,
      NormalizeTexto(kw.nombreBeneficiario.value),
      kw.institucionContraparte.value,
      kw.cuentaOrdenante.value,
      match kw.nombreOrdenante
      case None => None
      case Some(s) => Some(NormalizeTexto(s)),
      Truncate(kw.claveRastreo.GetOr(DefaultClaveRastreo(now)), MaxClaveRastreo),
      ReferenciaOf(kw, draw),
      kw.rfcCurpBeneficiario.GetOr("ND"),
      kw.rfcCurpOrdenante,
      kw.medioEntrega.GetOr(3),
      kw.tipoPago.GetOr(1),
      kw.topologia.GetOr("T"),
      kw.iva)
  }

  /** `Orden(**kwargs)` with `now` standing for `time.time()` and `draw` for
      the value `random.randint` returns, both used only for an omitted
      argument. Missing required arguments are reported first (the dataclass
      constructor), then a `monto` that is not a float (`__post_init__`, before
      any coercion), then every refused field at once (the field
      validators). A success holds the normalised input. */
  function Construct(kw: Kwargs, banks: set<string>, now: nat, draw: int): (r: Result<Campos, Error>)
    ensures r.Success? <==> Acceptable(kw, banks, draw)
    ensures r.Success? ==> Valid(r.value, banks)
    ensures r.Success? ==>
      && r.value.monto == kw.monto.value.x
      && r.value.conceptoPago == NormalizeTexto(kw.conceptoPago.value)
      && r.value.cuentaBeneficiario == kw.cuentaBeneficiario.value
      && r.value.nombreBeneficiario == NormalizeTexto(kw.nombreBeneficiario.value)
      && r.value.institucionContraparte == kw.institucionContraparte.value
      && r.value.cuentaOrdenante == kw.cuentaOrdenante.value
      && (kw.nombreOrdenante.None? ==> r.value.nombreOrdenante.None?)
      && (kw.nombreOrdenante.Some? ==> r.value.nombreOrdenante == Some(NormalizeTexto(kw.nombreOrdenante.value)))
      && r.value.claveRastreo == Truncate(kw.claveRastreo.GetOr(DefaultClaveRastreo(now)), MaxClaveRastreo)
      && r.value.referenciaNumerica == ReferenciaOf(kw, draw)
      && r.value.rfcCurpBeneficiario == kw.rfcCurpBeneficiario.GetOr("ND")
      && r.value.rfcCurpOrdenante == kw.rfcCurpOrdenante
      && r.value.medioEntrega == kw.medioEntrega.GetOr(3)
      && r.value.tipoPago == kw.tipoPago.GetOr(1)
      && r.value.topologia == kw.topologia.GetOr("T")
      && r.value.iva == kw.iva
    ensures r.Failure? && r.error.MissingArguments? <==> !AllRequiredGiven(kw)
    ensures r.Failure? && r.error.MissingArguments? ==> r.error.names == Missing(kw)
    ensures r == Failure(MontoNotFloat) <==> AllRequiredGiven(kw) && kw.monto.value.Int?
    ensures r.Failure? ==> r.error.MissingArguments? || r.error == MontoNotFloat || r.error.Invalid?
    ensures r.Failure? && r.error.Invalid? ==>
      AllRequiredGiven(kw) && kw.monto.value.Float? && r.error.errors == FieldErrors(kw, banks, draw)
  {
    var missing := Missing(kw);
    if missing != [] then Failure(MissingArguments(missing))
    else if !kw.monto.value.Float? then Failure(MontoNotFloat)
    else
      var errors := FieldErrors(kw, banks, draw);
      if errors != [] then Failure(Invalid(errors))
      else Success(Build(kw, now, draw))
  }

  // ---------------------------------------------------------------------
  // Properties of construction
  // ---------------------------------------------------------------------

  /** An integer `monto` is refused even when a float of the same value would
      be accepted: the check happens before any coercion. */
  lemma IntegerMontoRejected(kw: Kwargs, banks: set<string>, now: nat, draw: int, i: int)
    requires AllRequiredGiven(kw) && kw.monto == Some(Int(i))
    ensures Construct(kw, banks, now, draw) == Failure(MontoNotFloat)
    ensures kw.(monto := Some(Float(i as real))).monto.value.Float?
    ensures Construct(kw.(monto := Some(Float(i as real))), banks, now, draw).Success?
        <==> i > 0 && Acceptable(kw.(monto := Some(Float(1.0))), banks, draw)
  {
  }

  /** Explicitly given values are kept: with a tracking key and a numeric
      reference given, the clock and the random draw play no part, so building
      twice gives the same order. */
  lemma ConstructDeterministic(kw: Kwargs, banks: set<string>, now1: nat, now2: nat, draw1: int, draw2: int)
    requires kw.claveRastreo.Some? && kw.referenciaNumerica.Some?
    ensures Construct(kw, banks, now1, draw1) == Construct(kw, banks, now2, draw2)
  {
    assert ReferenciaOf(kw, draw1) == ReferenciaOf(kw, draw2);
    assert kw.claveRastreo.GetOr(DefaultClaveRastreo(now1)) == kw.claveRastreo.GetOr(DefaultClaveRastreo(now2));
    if AllRequiredGiven(kw) && kw.monto.value.Float? {
      assert forall f :: FieldAccepted(kw, banks, draw1, f) == FieldAccepted(kw, banks, draw2, f);
      assert FieldErrors(kw, banks, draw1) == FieldErrors(kw, banks, draw2) by {
        ErrorsAmongSameDraw(kw, banks, draw1, draw2, Validated);
      }
    }
  }

  lemma {:induction false} ErrorsAmongSameDraw(kw: Kwargs, banks: set<string>, draw1: int, draw2: int, fs: seq<Field>)
    requires AllRequiredGiven(kw) && kw.monto.value.Float?
    requires ReferenciaOf(kw, draw1) == ReferenciaOf(kw, draw2)
    ensures ErrorsAmong(kw, banks, draw1, fs) == ErrorsAmong(kw, banks, draw2, fs)
  {
    if fs != [] {
      ErrorsAmongSameDraw(kw, banks, draw1, draw2, fs[1..]);
    }
  }

  /** Orders built at different times without a tracking key get different
      default keys. */
  lemma DefaultClaveRastreoDistinct(now1: nat, now2: nat)
    requires now1 != now2
    ensures DefaultClaveRastreo(now1) != DefaultClaveRastreo(now2)
  {
  }

  /** The bound of 39 characters is applied before the normalisation, and a
      compatibility decomposition can lengthen the text again: 39 "fi"
      ligatures are within the bound and normalise to 78 characters. */
  lemma NormalizeTextoCanExceedBound()
    ensures var s := seq(39, _ => '\U{FB01}');
            |s| == MaxTexto && |NormalizeTexto(s)| == 78
  {
    var s := seq(39, _ => '\U{FB01}');
    LigaturesExpand(s);
  }

  // ---------------------------------------------------------------------
  // The default numeric reference
  // ---------------------------------------------------------------------

  /** As written, the default is `random.randint(10 ** 6, 10 ** 7)`, whose
      upper end is included. */
  predicate DefaultDrawAsWritten(draw: int) {
    1_000_000 <= draw <= ReferenciaBound
  }

  /** Of the values that default can draw, the validator refuses exactly one:
      10 ** 7 itself. */
  lemma DefaultDrawAsWrittenRefusesTop(draw: int)
    requires DefaultDrawAsWritten(draw)
    ensures CheckReferencia(draw).Failure? <==> draw == ReferenciaBound
  {
  }

  /** With that draw, building an order without a numeric reference fails,
      whatever else the arguments hold; when the rest is well formed the
      failure is a validation error on `referenciaNumerica`. */
  lemma DefaultDrawAsWrittenCanFail(kw: Kwargs, banks: set<string>, now: nat)
    requires kw.referenciaNumerica.None?
    ensures DefaultDrawAsWritten(ReferenciaBound)
    ensures Construct(kw, banks, now, ReferenciaBound).Failure?
    ensures AllRequiredGiven(kw) && kw.monto.value.Float? ==>
      var r := Construct(kw, banks, now, ReferenciaBound);
      r.error.Invalid? && ReferenciaNumerica in Fields(r.error.errors)
  {
    if AllRequiredGiven(kw) && kw.monto.value.Float? {
      assert !FieldAccepted(kw, banks, ReferenciaBound, ReferenciaNumerica);
      assert ReferenciaNumerica in Validated;
    }
  }

  /** The evidently intended default, `random.randint(10 ** 6, 10 ** 7 - 1)`:
      a seven-digit number. */
  predicate DefaultDraw(draw: int) {
    1_000_000 <= draw <= ReferenciaBound - 1
  }

  /** With the intended range the default never causes a refusal: the
      numeric reference is never among the refused fields, and an accepted
      order carries the drawn value. */
  lemma DefaultDrawAccepted(kw: Kwargs, banks: set<string>, now: nat, draw: int)
    requires kw.referenciaNumerica.None? && DefaultDraw(draw)
    ensures CheckReferencia(draw) == Success(draw)
    ensures var r := Construct(kw, banks, now, draw);
      && (r.Failure? && r.error.Invalid? ==> ReferenciaNumerica !in Fields(r.error.errors))
      && (r.Success? ==> r.value.referenciaNumerica == draw)
  {
    assert ReferenciaOf(kw, draw) == draw;
    var r := Construct(kw, banks, now, draw);
    if r.Failure? && r.error.Invalid? {
      assert FieldAccepted(kw, banks, draw, ReferenciaNumerica);
    }
  }

  // ---------------------------------------------------------------------
  // The wire dictionary
  // ---------------------------------------------------------------------

  /** A value in the wire dictionary or in the gateway's answer. */
  datatype Value = VInt(i: int) | VReal(x: real) | VStr(s: string) | VNone

  const TipoCuentaKey: string := "tipoCuentaBeneficiario"

  /** The `tipoCuentaBeneficiario` property: the protocol code of the type of
      the beneficiary account. */
  function TipoCuentaBeneficiario(c: Campos): (r: Result<int, Error>)
    ensures r == Success(40) <==> |c.cuentaBeneficiario| == 18
    ensures r == Success(3) <==> |c.cuentaBeneficiario| in {15, 16}
    ensures r == Success(10) <==> |c.cuentaBeneficiario| == 10
    ensures r.Success? ==> r.value in {3, 10, 40}
    ensures r.Failure? ==> r.error == InvalidAccountLength(|c.cuentaBeneficiario|)
  {
    match Cuentas.Classify(c.cuentaBeneficiario)
    case Success(t) => Success(Cuentas.Code(t))
    case Failure(e) => Failure(InvalidAccountLength(e.length))
  }

  /** `to_dict`: the base dictionary `base` (what the resource base class
      produces for the order) with exactly one key added,
      `tipoCuentaBeneficiario`, holding the account-type code; it fails as the
      property does. */
  function ToDict(base: map<string, Value>, c: Campos): (r: Result<map<string, Value>, Error>)
    ensures r.Success? <==> TipoCuentaBeneficiario(c).Success?
    ensures r.Failure? ==> r.error == InvalidAccountLength(|c.cuentaBeneficiario|)
    ensures r.Success? ==>
      && r.value.Keys == base.Keys + {TipoCuentaKey}
      && r.value[TipoCuentaKey] == VInt(TipoCuentaBeneficiario(c).value)
      && forall k :: k in base && k != TipoCuentaKey ==> r.value[k] == base[k]
  {
    match TipoCuentaBeneficiario(c)
    case Success(code) => Success(base[TipoCuentaKey := VInt(code)])
    case Failure(e) => Failure(e)
  }
}
