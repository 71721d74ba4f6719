/**
 * `fetchCopilotConnectors`: list Graph external connections, first from v1.0
 * and, if anything in that attempt throws, once more from beta, normalising the
 * heterogeneous Graph records into one connector shape.
 */
module Connectors {

  import opened Wrappers
  import opened JsValues
  import opened Http

  /** The canonical connector record; each field is whatever JavaScript value the source produced. */
  datatype Connector = Connector(id: JsValue, name: JsValue, description: JsValue, state: JsValue)

  const V1Url := "https://graph.microsoft.com/v1.0/external/connections"
  const BetaUrl := "https://graph.microsoft.com/beta/external/connections"

  /**
   * The mapping callback: `id` and `description` are copied, `name` is `name`
   * unless falsy and then `displayName`, `state` is `state` unless falsy and
   * then `status`. A nullish record throws when its `id` is read.
   */
  function Normalize(c: JsValue): (r: Result<Connector, Fault>)
    ensures r.Failure? <==> Nullish(c)
    ensures r.Failure? ==> r.error == ReadError(c, "id")
    ensures r.Success? ==>
      && r.value.id == OptGet(c, "id")
      && r.value.description == OptGet(c, "description")
      && (Truthy(OptGet(c, "name")) ==> r.value.name == OptGet(c, "name"))
      && (!Truthy(OptGet(c, "name")) ==> r.value.name == OptGet(c, "displayName"))
      && (Truthy(OptGet(c, "state")) ==> r.value.state == OptGet(c, "state"))
      && (!Truthy(OptGet(c, "state")) ==> r.value.state == OptGet(c, "status"))
  {
    if Nullish(c) then Failure(ReadError(c, "id"))
    else Success(Connector(
      OptGet(c, "id"),
      Or(OptGet(c, "name"), OptGet(c, "displayName")),
      OptGet(c, "description"),
      Or(OptGet(c, "state"), OptGet(c, "status"))))
  }

  /**
   * `value.map(...)`, left to right: the result has the input's length and
   * order, element by element the normalised record; otherwise the error is
   * that of the first nullish record.
   */
  function NormalizeAll(xs: seq<JsValue>): (r: Result<seq<Connector>, Fault>)
    ensures r.Success? <==> forall i :: 0 <= i < |xs| ==> !Nullish(xs[i])
    ensures r.Success? ==>
      |r.value| == |xs| && forall i :: 0 <= i < |xs| ==> Normalize(xs[i]) == Success(r.value[i])
    ensures r.Failure? ==> exists i :: FirstNullishAt(xs, i) && r.error == ReadError(xs[i], "id")
  {
    if xs == [] then Success([])
    else
      match Normalize(xs[0])
      case Failure(e) =>
        assert FirstNullishAt(xs, 0);
        Failure(e)
      case Success(c) =>
        match NormalizeAll(xs[1..])
        case Failure(e) =>
          ghost var i :| FirstNullishAt(xs[1..], i) && e == ReadError(xs[1..][i], "id");
          assert FirstNullishAt(xs, i + 1);
          Failure(e)
        case Success(cs) =>
          assert forall i :: 1 <= i < |xs| ==> xs[i] == xs[1..][i - 1];
          Success([c] + cs)
  }

  /**
   * The body of one attempt once the GET has answered: `res.data?.value ?? []`
   * mapped through `Normalize`; a value that is not an array has no `map` and throws.
   */
  function ReadConnections(data: JsValue): (r: Result<seq<Connector>, Fault>)
    ensures Nullish(OptGet(data, "value")) ==> r == Success([])
    ensures OptGet(data, "value").Arr? ==> r == NormalizeAll(OptGet(data, "value").items)
    ensures !Nullish(OptGet(data, "value")) && !OptGet(data, "value").Arr? ==> r.Failure?
  {
    var value := Coalesce(OptGet(data, "value"), Arr([]));
    if value.Arr? then NormalizeAll(value.items) else Failure(NotAFunction("value.map"))
  }

  /** One GET attempt: a failed reply is the thrown error. */
  function Attempt(reply: Reply): (r: Result<seq<Connector>, Fault>)
    ensures reply.Failed? ==> r == Failure(reply.fault)
    ensures reply.Answered? ==> r == ReadConnections(reply.data)
    ensures reply.Answered? && Nullish(OptGet(reply.data, "value")) ==> r == Success([])
  {
    match reply
    case Failed(f) => Failure(f)
    case Answered(data) => ReadConnections(data)
  }

  datatype Fetch = Fetch(result: Result<seq<Connector>, Fault>, sent: seq<GraphRequest>)

  /**
   * `fetchCopilotConnectors(token)`: the v1.0 GET is always sent; the beta GET is
   * sent exactly when the v1.0 attempt throws, and then its outcome, success or
   * error, is the result (the v1.0 error is dropped).
   */
  function FetchConnectors(token: JsValue, v1: Reply, beta: Reply): (r: Fetch)
    ensures |r.sent| >= 1 && r.sent[0] == GraphGet(V1Url, Bearer(token))
    ensures |r.sent| == 1 <==> Attempt(v1).Success?
    ensures Attempt(v1).Success? ==> r.result == Attempt(v1)
    ensures Attempt(v1).Failure? ==>
      r.sent == [GraphGet(V1Url, Bearer(token)), GraphGet(BetaUrl, Bearer(token))]
      && r.result == Attempt(beta)
    ensures Attempt(v1).Failure? && beta.Failed? ==> r.result == Failure(beta.fault)
  {
    var auth := Bearer(token);
    match Attempt(v1)
    case Success(cs) => Fetch(Success(cs), [GraphGet(V1Url, auth)])
    case Failure(_) => Fetch(Attempt(beta), [GraphGet(V1Url, auth), GraphGet(BetaUrl, auth)])
  }

  /** Once v1.0 succeeds, whatever beta would have answered makes no difference. */
  lemma BetaUnusedAfterV1Success(token: JsValue, v1: Reply, beta1: Reply, beta2: Reply)
    requires Attempt(v1).Success?
    ensures FetchConnectors(token, v1, beta1) == FetchConnectors(token, v1, beta2)
    ensures FetchConnectors(token, v1, beta1).result == Attempt(v1)
  {
  }

  /** The record shape the normaliser produces, written back as a Graph record. */
  function AsRecord(k: Connector): JsValue {
    Obj(map["id" := k.id, "name" := k.name, "description" := k.description, "state" := k.state])
  }

  /** A record already in canonical shape with a truthy name and state normalises to itself. */
  lemma NormalizeCanonical(k: Connector)
    requires Truthy(k.name) && Truthy(k.state)
    ensures Normalize(AsRecord(k)) == Success(k)
  {
    var m := AsRecord(k).fields;
    assert m["id"] == k.id && m["name"] == k.name;
    assert m["description"] == k.description && m["state"] == k.state;
  }

  /** A normalised name is falsy only when both `name` and `displayName` are. */
  lemma NameFallback(c: JsValue)
    requires !Nullish(c)
    ensures Normalize(c).Success?
    ensures Truthy(Normalize(c).value.name) <==> Truthy(OptGet(c, "name")) || Truthy(OptGet(c, "displayName"))
    ensures Truthy(Normalize(c).value.state) <==> Truthy(OptGet(c, "state")) || Truthy(OptGet(c, "status"))
  {
  }

  /** `{id: "c1", displayName: "Foo", status: "active"}` normalises to name "Foo", state "active", no description. */
  lemma NormalizeExample()
    ensures Normalize(Obj(map["id" := Str("c1"), "displayName" := Str("Foo"), "status" := Str("active")]))
         == Success(Connector(Str("c1"), Str("Foo"), Undefined, Str("active")))
  {
  }
}
