/** Registering an order with STP (`Orden.registra`): build and validate the
    order, send its wire dictionary to the gateway with `put`, and bind the
    identifier the gateway assigns onto the order. */
module Registro {
  import opened Results
  import opened Ordenes

  /** The order resource's endpoint (`_endpoint`). */
  const Endpoint: string := "/ordenPago"
  /** Where `registra` sends a new order. */
  const RegistraEndpoint: string := Endpoint + "/registra"

  datatype Request = Request(endpoint: string, payload: map<string, Value>)

  /** The gateway's answer to a request: the decoded response body, or the
      description of the error `put` raises (a transport failure or a
      rejection by STP). */
  type Response = Result<map<string, Value>, string>

  /** The HTTP client, as far as registering an order uses it. How the
      remote gateway answers is the function `gateway`, fixed when the client
      is made; `sent` records every request handed to it. */
  class Client {
    const gateway: Request -> Response
    var sent: seq<Request>

    constructor (gateway: Request -> Response)
      ensures this.gateway == gateway && sent == []
    {
      this.gateway := gateway;
      sent := [];
    }

    /** `put(endpoint, payload)`: one request to the gateway, one answer. */
    method Put(endpoint: string, payload: map<string, Value>) returns (r: Response)
      modifies this
      ensures sent == old(sent) + [Request(endpoint, payload)]
      ensures r == gateway(Request(endpoint, payload))
    {
      sent := sent + [Request(endpoint, payload)];
      r := gateway(Request(endpoint, payload));
    }
  }

  /** The value `orden.id = resp['id']` leaves in `id`: Python's `None` in the
      answer is the same state as an identifier not yet bound. */
  function BoundId(v: Value): Option<Value> {
    if v.VNone? then None else Some(v)
  }

  /** A constructed order. Its fields are fixed at construction; `id` starts
      as `None` and is the only field changed afterwards. */
  class Orden {
    const campos: Campos
    var id: Option<Value>

    constructor (campos: Campos)
      ensures this.campos == campos && id == None
    {
      this.campos := campos;
      id := None;
    }

    /** The second half of `registra`: send the order's wire dictionary (the
        base dictionary `serialize` gives, plus the account type) to
        `RegistraEndpoint`, then bind the answer's `id`. The order is left as
        it was unless the gateway answers with an `id`; nothing is sent when
        the account type cannot be determined. */
    method Submit(client: Client, serialize: (Campos, Option<Value>) -> map<string, Value>) returns (outcome: Option<Error>)
      modifies this, client
      ensures var p := ToDict(serialize(campos, old(id)), campos);
        && (p.Failure? ==>
              outcome == Some(p.error) && id == old(id) && client.sent == old(client.sent))
        && (p.Success? ==>
              var resp := client.gateway(Request(RegistraEndpoint, p.value));
              && client.sent == old(client.sent) + [Request(RegistraEndpoint, p.value)]
              && (resp.Failure? ==> outcome == Some(Gateway(resp.error)) && id == old(id))
              && (resp.Success? && "id" !in resp.value ==> outcome == Some(MissingId) && id == old(id))
              && (resp.Success? && "id" in resp.value ==> outcome == None && id == BoundId(resp.value["id"])))
    {
      var payload := ToDict(serialize(campos, id), campos);
      if payload.Failure? {
        return Some(payload.error);
      }
      var resp := client.Put(RegistraEndpoint, payload.value);
      if resp.Failure? {
        return Some(Gateway(resp.error));
      }
      if "id" !in resp.value {
        return Some(MissingId);
      }
      id := BoundId(resp.value["id"]);
      return None;
    }
  }

  /** `Orden.registra(**kwargs)`: construct the order (`now` and `draw` stand
      for the clock and the random draw used for omitted arguments), submit it
      and return it with the gateway's `id` bound. Every failure is returned
      as an error and no order: a construction failure before anything is
      sent, a failed classification of the beneficiary account before
      anything is sent, and a failed `put` or an answer without `id` after the
      one request. */
  method Registra(kw: Kwargs, banks: set<string>, now: nat, draw: int,
                  serialize: (Campos, Option<Value>) -> map<string, Value>, client: Client)
    returns (r: Result<Orden, Error>)
    modifies client
    ensures var c := Construct(kw, banks, now, draw);
      && (c.Failure? ==> r == Failure(c.error) && client.sent == old(client.sent))
      && (c.Success? ==>
            var p := ToDict(serialize(c.value, None), c.value);
            && (p.Failure? ==> r == Failure(p.error) && client.sent == old(client.sent))
            && (p.Success? ==>
                  var resp := client.gateway(Request(RegistraEndpoint, p.value));
                  && client.sent == old(client.sent) + [Request(RegistraEndpoint, p.value)]
                  && (resp.Failure? ==> r == Failure(Gateway(resp.error)))
                  && (resp.Success? && "id" !in resp.value ==> r == Failure(MissingId))
                  && (resp.Success? && "id" in resp.value ==>
                        && r.Success? && fresh(r.value)
                        && r.value.campos == c.value
                        && r.value.id == BoundId(resp.value["id"]))))
  {
    var c := Construct(kw, banks, now, draw);
    if c.Failure? {
      return Failure(c.error);
    }
    var orden := new Orden(c.value);
    var outcome := orden.Submit(client, serialize);
    if outcome.Some? {
      return Failure(outcome.value);
    }
    return Success(orden);
  }

  /** Against a gateway that answers every request with `{"id": 42}`,
      registering a well-formed order with an 18-digit beneficiary account
      sends one request and returns a fresh order whose `id` is 42 and whose
      fields are the validated arguments. */
  method RegistraAgainstStub(kw: Kwargs, banks: set<string>, now: nat, draw: int,
                             serialize: (Campos, Option<Value>) -> map<string, Value>)
    returns (orden: Orden, sent: seq<Request>)
    requires Acceptable(kw, banks, draw) && |kw.cuentaBeneficiario.value| == 18
    ensures Construct(kw, banks, now, draw).Success?
    ensures orden.campos == Construct(kw, banks, now, draw).value
    ensures orden.id == Some(VInt(42))
    ensures |sent| == 1 && sent[0].endpoint == "/ordenPago/registra"
    ensures TipoCuentaKey in sent[0].payload && sent[0].payload[TipoCuentaKey] == VInt(40)
  {
    var answer: map<string, Value> := map["id" := VInt(42)];
    assert "id" in answer && BoundId(answer["id"]) == Some(VInt(42));
    var client := new Client((req: Request) => Success(answer));
    var r := Registra(kw, banks, now, draw, serialize, client);
    orden := r.value;
    sent := client.sent;
  }
}
