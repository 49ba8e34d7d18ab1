# Verified model of the STP `Orden` payment order

This project models `Orden`, the payment-order record that the `stpmex` client sends to STP's SPEI gateway (`stpmex/resources/ordenes.py`). It covers four things:

- **Construction and validation.** Missing required arguments raise a `TypeError`. A `monto` that is not a float is refused before any coercion. Each field validator refuses out-of-domain values, and all refused fields are reported together.
- **Account-type classification.** The type of the beneficiary account is decided by the length of its text alone.
- **The wire dictionary.** `to_dict` is the base dictionary plus one derived key.
- **Registration.** `registra` constructs the order, `put`s it to `/ordenPago/registra` and binds the answer's `id` onto the order.

Modules:

- `Results` (`results.dfy`): `Option` and `Result`. They stand in for `None` and for raised exceptions.
- `Cuentas` (`cuentas.dfy`): the closed enumeration `TipoCuenta`, its protocol codes, the reference table of lengths per type, and the classifier `Classify` with its lemmas.
- `Texto` (`texto.dfy`): `truncated_str` truncation, the ASCII normalisation (NFKD decomposition, then `encode('ascii', 'ignore')`), digit strings, and the decimal rendering used in the default tracking key.
- `Ordenes` (`ordenes.dfy`): the keyword arguments (`Kwargs`), the validated record (`Campos`), the per-field rules, the validating constructor `Construct`, the `tipoCuentaBeneficiario` property and `ToDict`.
- `Registro` (`registro.dfy`): the HTTP client as a class `Client`, and the order as a class `Orden` whose `id` field starts as `None` and is changed only by `Submit`. `Registra` is the class method.

External pieces are parameters:

- the bank registry (`clabe.BANKS.values()`) is a set `banks`;
- `int(time.time())` is `now`;
- the value `random.randint` returns is `draw`;
- the base class's `to_dict` is a function `serialize`;
- the remote gateway's behaviour is the function `Client.gateway`.

Points where the code's behaviour is easy to misread:

- The default numeric reference is meant to be a seven-digit number (at least 10^6, below 10^7); a given one may be any integer in (0, 10^7). The default drawn by `randint(10 ** 6, 10 ** 7)` can also be 10^7, which the field's own bound refuses (see Findings).
- `cuentaBeneficiario` is declared as the union `Clabe | PaymentCardNumber | MXPhoneNumber` (line 42), whose validators run when the order is built. An account of a length none of them accepts is refused at construction. Those validators live in `stpmex/types`, which is not part of this model, so `Construct` accepts any beneficiary account. The model's only length check is the one `tipoCuentaBeneficiario` makes, so in the model the failure comes from `to_dict`, before anything is sent (`Ordenes.ToDict`, `Registro.Registra`).
- The normalised text fields are meant to hold at most 39 characters. The code truncates first and normalises afterwards. A compatibility decomposition can lengthen the text past 39 (`Ordenes.NormalizeTextoCanExceedBound`). ASCII text is cut to exactly its first 39 characters (`Ordenes.NormalizeTexto`).
- Nothing in the code keeps the identifier from being set again. `Registra` binds it on a freshly made order, and `Submit` binds whatever the answer's `id` holds. An answer whose `id` is `None` leaves the order unbound, as Python's `None` does (`Registro.BoundId`).

## Model

| member | source | states |
|---|---|---|
| `Cuentas.Classify` | stpmex/resources/ordenes.py:86-100 | A success is a type whose length table contains the account's length. A failure carries the length. It fails exactly when no type has that length. |
| `Cuentas.ClassifyExactly` | stpmex/resources/ordenes.py:89-99 | For every type, the classifier returns that type if and only if the account's length is one of that type's lengths (18 CLABE, 15 or 16 card, 10 phone). |
| `Cuentas.LengthsDisjoint` | stpmex/resources/ordenes.py:90-95 | No length belongs to two types, so the classifier never has to guess. |
| `Cuentas.CodeInjective` | stpmex/resources/ordenes.py:90-95 | The three types have pairwise distinct protocol codes. |
| `Cuentas.ClassifyDomain` | stpmex/resources/ordenes.py:89-99 | The classifier succeeds exactly on lengths 10, 15, 16 and 18. |
| `Cuentas.ClassifyByLength` | stpmex/resources/ordenes.py:89 | Two accounts of the same length get the same result: the characters play no part. |
| `Cuentas.ClassifyExamples` | stpmex/resources/ordenes.py:90-99 | One case per branch: an 18-digit account is a CLABE, a 16-digit one a card, a 10-digit one a phone number; a 5-digit one is refused with length 5. |
| `Texto.Truncate` | stpmex/resources/ordenes.py:40 | The result is a prefix of the input of at most `n` characters. It is the whole input when that fits, and exactly `n` characters otherwise. |
| `Texto.Decompose` | stpmex/resources/ordenes.py:112 | Every character decomposes to at least one character; an ASCII character decomposes to itself. |
| `Texto.Nfkd` | stpmex/resources/ordenes.py:112 | Decomposition never shortens a text and leaves ASCII text unchanged. |
| `Texto.DropNonAscii` | stpmex/resources/ordenes.py:112-113 | The output is all ASCII, no longer than the input, and equal to the input when that is already ASCII. |
| `Texto.DropNonAsciiKeeps` | stpmex/resources/ordenes.py:112-113 | Every ASCII character is kept as often as it occurs, and no non-ASCII character survives. |
| `Texto.UnicodeToAscii` | stpmex/resources/ordenes.py:108-113 | The validator's output contains only ASCII characters and is the identity on ASCII input. |
| `Texto.UnicodeToAsciiIdempotent` | stpmex/resources/ordenes.py:111-113 | Normalising a normalised text changes nothing. |
| `Texto.UnicodeToAsciiConcat` | stpmex/resources/ordenes.py:112 | Normalising a concatenation is concatenating the normalised parts, so the surviving characters keep their order. |
| `Texto.AccentStripped` | stpmex/resources/ordenes.py:111-113 | "pagó de luz" normalises to "pago de luz". |
| `Texto.UndecomposableDropped` | stpmex/resources/ordenes.py:112 | A character with no ASCII decomposition (the inverted question mark) is dropped. |
| `Texto.Decimal` | stpmex/resources/ordenes.py:50 | The rendering of `int(time.time())` is a non-empty digit string without a leading zero that denotes exactly the number. |
| `Texto.DecimalInjective` | stpmex/resources/ordenes.py:50 | Different times render differently. |
| `Ordenes.CheckMonto` | stpmex/resources/ordenes.py:39 | `PositiveFloat`: a float is accepted unchanged exactly when it is greater than 0. |
| `Ordenes.CheckReferencia` | stpmex/resources/ordenes.py:52 | `conint(gt=0, lt=10 ** 7)`: accepted unchanged exactly when 0 < r < 10^7. |
| `Ordenes.CheckMaxLength` | stpmex/resources/ordenes.py:55 | `constr(max_length=18)`: accepted unchanged exactly when the text fits. An overlong text is refused, not cut. |
| `Ordenes.CheckOptionalMaxLength` | stpmex/resources/ordenes.py:56 | An optional `constr(max_length=18)` accepts `None`. It accepts a given value unchanged exactly when the value fits. |
| `Ordenes.CheckDigits` | stpmex/resources/ordenes.py:44 | `digits(n, n)`: accepted unchanged exactly when the text has exactly `n` decimal digits. |
| `Ordenes.ValidateInstitucion` | stpmex/resources/ordenes.py:102-106 | A code is returned unchanged exactly when it is in the bank registry; otherwise it is refused as an unknown bank. |
| `Ordenes.CheckInstitucion` | stpmex/resources/ordenes.py:44 | The field type `digits(5, 5)` is checked first and the registry after it. Whatever the registry holds, an accepted code has exactly 5 digits and is in the registry. |
| `Ordenes.NormalizeTexto` | stpmex/resources/ordenes.py:108-113 | A `truncated_str(39)` field after `_unicode_to_ascii` is all ASCII. An ASCII value comes out as its truncation to 39 characters: whole when it fits, exactly its first 39 characters otherwise. |
| `Ordenes.NormalizeTextoCanExceedBound` | stpmex/resources/ordenes.py:40 | The bound is not kept for every input. 39 "fi" ligatures are within it and normalise to 78 characters. |
| `Ordenes.DefaultClaveRastreo` | stpmex/resources/ordenes.py:49-51 | The default tracking key is "CR" followed by the decimal digits of the given time, with no leading zero (only time 0 gives "CR0"). |
| `Ordenes.DefaultClaveRastreoDistinct` | stpmex/resources/ordenes.py:50 | Different times give different default tracking keys. |
| `Ordenes.Missing` | stpmex/resources/ordenes.py:39-46 | The reported names are exactly the fields without a default that were not given. There are none exactly when all six are given. |
| `Ordenes.CheckField` | stpmex/resources/ordenes.py:39-56 | Each field's validator refuses exactly what the reference verdict `FieldAccepted` refuses. |
| `Ordenes.FieldErrors` | stpmex/resources/ordenes.py:39-56 | The refused fields are exactly the validated fields whose value is out of domain. There is no error exactly when the arguments are `Acceptable`. |
| `Ordenes.Construct` | stpmex/resources/ordenes.py:39-67 | Succeeds exactly on `Acceptable` arguments. A success satisfies the record invariant `Valid` and holds each field as given, normalised or defaulted. Failures come in order: missing arguments, then a non-float `monto`, then all refused fields at once. |
| `Ordenes.IntegerMontoRejected` | stpmex/resources/ordenes.py:64-67 | An integer `monto` is refused even where the equal float would be accepted. The equal float is accepted exactly when it is positive and the rest is acceptable. |
| `Ordenes.ConstructDeterministic` | stpmex/resources/ordenes.py:49-54 | With a tracking key and a numeric reference given, the clock and the random draw do not affect the result. |
| `Ordenes.DefaultDrawAsWrittenRefusesTop` | stpmex/resources/ordenes.py:52-53 | Of the values `randint(10 ** 6, 10 ** 7)` can return, the validator refuses exactly 10^7. |
| `Ordenes.DefaultDrawAsWrittenCanFail` | stpmex/resources/ordenes.py:52-53 | With the default draw 10^7 and no numeric reference given, construction fails for every input. A well-formed input then fails with `referenciaNumerica` among the refused fields. |
| `Ordenes.DefaultDrawAccepted` | stpmex/resources/ordenes.py:52-53 | With the intended range [10^6, 10^7 - 1], the default is accepted unchanged. It is never among the refused fields, and an accepted order carries the drawn value. |
| `Ordenes.TipoCuentaBeneficiario` | stpmex/resources/ordenes.py:86-100 | The property returns 40, 3 or 10 (CLABE, card, phone) exactly for lengths 18, 15 or 16, and 10. Any other length raises with that length. |
| `Ordenes.ToDict` | stpmex/resources/ordenes.py:115-118 | The keys are the base dictionary's plus exactly `tipoCuentaBeneficiario`, whose value is the account-type code. No other key changes. It fails exactly when the property fails. |
| `Registro.Client.Put` | stpmex/resources/ordenes.py:73 | One request is recorded and the gateway's answer to it is returned. |
| `Registro.Orden.constructor` | stpmex/resources/ordenes.py:62 | A new order holds the fields it is given and `id` is `None`. |
| `Registro.Orden.Submit` | stpmex/resources/ordenes.py:72-74 | The wire dictionary is put to "/ordenPago/registra". `id` becomes the answer's `id` (Python's `None` there leaving it unbound) only when `put` succeeds and the answer has one; otherwise `id` is unchanged and the error is returned. Nothing is sent when the account type is invalid. The fields never change. |
| `Registro.Registra` | stpmex/resources/ordenes.py:69-75 | Construction failures return the error and send nothing. Otherwise exactly one request is sent. The result is a fresh order with the validated fields and the answer's `id`, or the gateway's error, or a missing-`id` error. |
| `Registro.RegistraAgainstStub` | stpmex/resources/ordenes.py:69-75 | Against a gateway answering `{"id": 42}`, a well-formed order with an 18-digit beneficiary account is registered with `id` 42 after one request. That request carries account-type code 40. |

## Findings

| source | as written | input that shows it | evidently intended | confidence | as-written member | corrected member |
|---|---|---|---|---|---|---|
| stpmex/resources/ordenes.py:52-53 | The default factory `random.randint(10 ** 6, 10 ** 7)` includes 10^7. The field type `conint(gt=0, lt=10 ** 7)` refuses 10^7, and the default is validated like a given value. | An order built without `referenciaNumerica` when the draw is 10^7. | `random.randint(10 ** 6, 10 ** 7 - 1)`: a seven-digit reference that is always accepted. | high (1 draw in 9000001), not executed | `Ordenes.DefaultDrawAsWrittenCanFail` | `Ordenes.DefaultDrawAccepted` |

`Construct` takes the draw as a parameter. `DefaultDrawAsWritten` describes the range the code draws from. `DefaultDraw` is the intended range, and it is the one the model's statements about omitted references use.

## Left out

- `firma` (lines 77-84): the signing input (`join_fields`, `ORDEN_FIELDNAMES`) and `compute_signature` live in `stpmex/auth`, which is not part of this model. The RSA signature is outside what can be proved here.
- HTTP transport: `_client.put` is a call into the network. It is `Client.Put` over a fixed answer function `gateway`. Sessions, retries and the exception classes the real client raises are not modelled; their description is a string.
- `Resource.to_dict` (the base dictionary) is in `stpmex/resources/base.py`, which is not part of this model. It is the parameter `serialize`, so whether the base dictionary holds `firma`, `None` values or the class constants `prioridad`, `tipoCuentaOrdenante` and `institucionOperante` is not modelled. The constants are declared (`StpBankCode`, `PrioridadAlta`, `TipoCuentaOrdenante`) for reference; nothing in the model uses them, and `serialize` is not tied to them.
- `stpmex/types` is not part of this model. This leaves out:
  - the exact semantics of `truncated_str` (modelled as cutting the text to its first `n` characters);
  - the CLABE check digit (`cuentaOrdenante` is checked as 18 digits only);
  - the union `Clabe | PaymentCardNumber | MXPhoneNumber` for `cuentaBeneficiario`, which is accepted as given at construction and checked only by the account-type classifier;
  - `digits` is taken to mean ASCII digits.

  The codes 40, 3 and 10 for `TipoCuenta` and 1 for `Prioridad.alta` are the values STP's protocol assigns. They are stated here because that module is not shown.
- Unicode: `Texto.Decompose` holds only part of the NFKD table (Spanish letters and a few compatibility characters). Any other character is treated as its own decomposition, so a decomposable character outside the table is dropped rather than reduced to its ASCII base.
- Pydantic coercion: arguments are typed (`Kwargs`). Coercion of other Python types, unknown keyword arguments and an `id` passed as a keyword argument are not modelled. For `monto` only the float/integer distinction is kept.
- Floating point: `monto` and `iva` are real numbers. NaN, infinities and rounding are not modelled.
- The bank registry contents (`clabe.BANKS`), the clock and the random generator are parameters (`banks`, `now`, `draw`).
- `Ordenes.FieldErrors`: states which fields are refused. The reason for each refused field is stated by the field's own check (`CheckMonto`, `CheckInstitucion`, …), not repeated in this contract.
