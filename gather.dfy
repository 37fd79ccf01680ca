/** The two gather modules, `b1_ipam_ipv4_reservation_gather` and
    `b1_ipam_host_gather`: one GET on a fixed collection with optional
    `_fields` and `_filter`, and a state table holding only "gather". */
module Gather {
  import opened Json
  import opened Filters
  import opened B1ddi
  import opened Ansible

  const ReservationBase: string := "/api/ddi/v1/ipam/address"
  const HostBase: string := "/api/ddi/v1/ipam/host"

  /** The module parameters the handler reads; the framework guarantees
      `host` and `api_key` are strings and supplies `fields` (None),
      `filters` ({}) and `state` ("present") when absent. */
  datatype GatherParams = GatherParams(host: string, apiKey: string, fields: Json, filters: Json, state: string)

  /** The endpoint: the base, then `_fields`, then `_filter`; no `_tfilter`. */
  function GatherEndpoint(base: string, p: GatherParams): (r: Outcome<string>)
    ensures r.Ok? ==> IsPrefix(base, r.value)
    ensures !p.fields.JList? && !Contributes(p.filters) ==> r == Ok(base)
  {
    Endpoint(base, p.fields, p.filters, JNull)
  }

  /** The handler: a GET through the connector; an exception from the
      connector (a transport failure, or a body that is not JSON) is
      re-raised carrying the endpoint text. */
  function Gathered(base: string, p: GatherParams, http: HttpRequest -> Outcome<HttpResponse>): (r: Outcome<Reply>)
    ensures GatherEndpoint(base, p).Raises? ==> r.Raises?
  {
    match GatherEndpoint(base, p)
    case Raises(e) => Raises(e)
    case Ok(endpoint) =>
      var q := HttpRequest(GET, p.host + endpoint, "Token " + p.apiKey, None);
      match http(q)
      case Raises(_) => Raises(endpoint)
      case Ok(resp) =>
        match Classify(resp)
        case Raises(_) => Raises(endpoint)
        case Ok(reply) => Ok(reply)
  }

  /** The handler as written: `connector.get(endpoint)` passes no `data`,
      so binding the call raises before any request is made, and the
      handler re-raises with the endpoint text. */
  function GatheredAsWritten(base: string, p: GatherParams, http: HttpRequest -> Outcome<HttpResponse>): (r: Outcome<Reply>)
    ensures r.Raises?
    ensures GatherEndpoint(base, p).Ok? ==> r == Raises(GatherEndpoint(base, p).value)
  {
    match GatherEndpoint(base, p)
    case Raises(e) => Raises(e)
    case Ok(endpoint) =>
      match BindGet([JStr(endpoint)])
      case Raises(_) => Raises(endpoint)
      case Ok(_) => Gathered(base, p, http)
  }

  /** `get_ipv4_reservation` / `get_host`: the stepwise endpoint under
      `flag`, then the connector's GET. */
  method GatherObjects(base: string, p: GatherParams, http: HttpRequest -> Outcome<HttpResponse>)
    returns (r: Outcome<Reply>)
    ensures r == Gathered(base, p, http)
  {
    var connector := new Request(p.host, p.apiKey);
    var endpoint := base;
    var flag := 0;
    if p.fields.JList? {
      var names := FieldNames(p.fields.items);
      if names.None? {
        return Raises("TypeError: sequence item: expected str instance");
      }
      endpoint := endpoint + "?_fields=" + Join(names.value, ",");
      flag := 1;
    }
    assert FieldsPart(p.fields).Ok? && endpoint == base + FieldsPart(p.fields).value;
    endpoint := AppendFilter(endpoint, "_filter", p.filters, flag);
    assert GatherEndpoint(base, p) == Ok(endpoint) by {
      assert FilterPart("_tfilter", JNull, p.fields.JList?) == "";
      assert endpoint + "" == endpoint;
    }
    var reply := connector.Call(http, GET, endpoint, None);
    if reply.Raises? {
      return Raises(endpoint);
    }
    r := reply;
  }

  /** `main`: only "gather" has a handler, so any other state (including
      the default "present") looks up None and calling it raises. */
  function GatherMain(base: string, p: GatherParams, http: HttpRequest -> Outcome<HttpResponse>): (r: ModuleResult)
    ensures p.state != "gather" ==> r == Crash("TypeError: 'NoneType' object is not callable")
  {
    if p.state != "gather" then Crash("TypeError: 'NoneType' object is not callable")
    else
      match Gathered(base, p, http)
      case Raises(e) => Crash(e)
      case Ok(reply) => Finish(reply.isError, reply.changed, reply.meta)
  }

  /** A gather run fails exactly when the reply is an error, and otherwise
      exits unchanged with the response body as meta. */
  lemma GatherMainOutcome(base: string, p: GatherParams, http: HttpRequest -> Outcome<HttpResponse>)
    requires p.state == "gather" && Gathered(base, p, http).Ok?
    ensures var reply := Gathered(base, p, http).value;
      && (GatherMain(base, p, http).Fail? <==> reply.isError)
      && (GatherMain(base, p, http).Exit? ==> !GatherMain(base, p, http).changed)
      && Get(GatherMain(base, p, http).result, "meta") == Some(reply.meta)
  {
  }

  /** Without fields and filters the GET goes to host + base exactly; its
      reply is classified by status, and a body that is not JSON raises
      with the endpoint text. */
  lemma GatherPlain(base: string, p: GatherParams, http: HttpRequest -> Outcome<HttpResponse>)
    requires !p.fields.JList? && !Contributes(p.filters)
    requires http(HttpRequest(GET, p.host + base, "Token " + p.apiKey, None)).Ok?
    ensures var c := Classify(http(HttpRequest(GET, p.host + base, "Token " + p.apiKey, None)).value);
      Gathered(base, p, http) == if c.Ok? then c else Raises(base)
  {
  }

  /** The default state never reaches the handler in either module. */
  lemma DefaultStateHasNoHandler(p: GatherParams, http: HttpRequest -> Outcome<HttpResponse>)
    requires p.state == "present"
    ensures GatherMain(ReservationBase, p, http).Crash? && GatherMain(HostBase, p, http).Crash?
  {
    assert p.state[0] != "gather"[0];
  }

  /** A reservation gather with fields and a filter: "&_filter=" follows
      "?_fields=". */
  lemma ReservationEndpointExample(host: string, key: string)
    ensures GatherEndpoint(ReservationBase, GatherParams(host, key, JList([JStr("address"), JStr("id")]),
                                                         JObject([("name", JStr("r1"))]), "gather")) ==
      Ok(ReservationBase + "?_fields=" + "address,id" + "&_filter=" + "name=='r1'")
  {
    var fields := JList([JStr("address"), JStr("id")]);
    var filters := JObject([("name", JStr("r1"))]);
    assert FieldNames(fields.items) == Some(["address", "id"]) by {
      assert fields.items[1..] == [JStr("id")];
      assert [JStr("id")][1..] == [];
      assert FieldNames([JStr("id")]) == Some(["id"] + []);
      assert ["id"] + [] == ["id"];
      assert FieldNames(fields.items) == Some(["address"] + ["id"]);
      assert ["address"] + ["id"] == ["address", "id"];
    }
    JoinTwo("address", "id", ",");
    assert "address" + "," + "id" == "address,id";
    assert FieldsPart(fields) == Ok("?_fields=" + "address,id");
    assert "r1"[0] == 'r' && !IsDigit('r');
    assert Clause("name", JStr("r1")) == "name=='r1'";
    assert Clauses(filters.fields, false) == ["name=='r1'"];
    assert FilterPart("_filter", filters, true) == "&" + "_filter" + "=" + "name=='r1'";
    assert "&" + "_filter" + "=" == "&_filter=";
    assert FilterPart("_tfilter", JNull, true) == "";
    assert ReservationBase + ("?_fields=" + "address,id") + ("&" + "_filter" + "=" + "name=='r1'") + "" ==
      ReservationBase + "?_fields=" + "address,id" + "&_filter=" + "name=='r1'";
  }
}
