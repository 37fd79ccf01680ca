/** The `bloxone` lookup plugin: one GET on a DDI object collection, with
    optional `_fields`, `_filter` and `_tfilter` query parameters. */
module Lookup {
  import opened Json
  import opened Filters
  import opened B1ddi

  const ApiPrefix: string := "/api/ddi/v1/"

  /** The reply for a provider without `host` or `api_key`. */
  function ProviderError(provider: Json): Reply {
    Reply(true, false, JObject([("status", JStr("400")), ("response", JStr("Invalid Syntax for provider")), ("provider", provider)]))
  }

  /** The GET the plugin issues: `host` and `api_key` rendered as text. */
  function LookupRequest(host: Json, key: Json, endpoint: string): (q: HttpRequest)
    ensures q.verb == GET && q.body.None?
  {
    HttpRequest(GET, PyStr(host) + endpoint, "Token " + PyStr(key), None)
  }

  /** A reply from the HTTP library, or "API request failed" when it
      raises; the body is decoded after the `try`, so a body that is not
      JSON raises out of the plugin. */
  function Respond(http: HttpRequest -> Outcome<HttpResponse>, q: HttpRequest): Outcome<Reply> {
    match http(q)
    case Raises(_) => Raises("API request failed")
    case Ok(resp) => Classify(resp)
  }

  /** `get_object`: the credentials are read first (a mapping without
      them gives the 400 reply, anything else is not subscriptable), then
      the endpoint is built, then the request is sent. */
  function GetObject(objType: Json, provider: Json, filters: Json, tfilters: Json, fields: Json,
                     http: HttpRequest -> Outcome<HttpResponse>): (r: Outcome<Reply>)
    ensures !provider.JObject? ==> r.Raises?
    ensures provider.JObject? && !("host" in Keys(provider.fields) && "api_key" in Keys(provider.fields)) ==>
      r == Ok(ProviderError(provider))
  {
    match Subscript(provider, "host")
    case Raises(e) => if provider.JObject? then Ok(ProviderError(provider)) else Raises(e)
    case Ok(host) =>
      match Subscript(provider, "api_key")
      case Raises(_) => Ok(ProviderError(provider))
      case Ok(key) =>
        match Endpoint(ApiPrefix + PyStr(objType), fields, filters, tfilters)
        case Raises(e) => Raises(e)
        case Ok(endpoint) => Respond(http, LookupRequest(host, key, endpoint))
  }

  /** The plugin's steps, with the endpoint built by `BuildEndpoint`. */
  method GetObjectCall(objType: Json, provider: Json, filters: Json, tfilters: Json, fields: Json,
                       http: HttpRequest -> Outcome<HttpResponse>) returns (r: Outcome<Reply>)
    ensures r == GetObject(objType, provider, filters, tfilters, fields, http)
  {
    var host := Subscript(provider, "host");
    if host.Raises? {
      if provider.JObject? {
        return Ok(ProviderError(provider));
      }
      return Raises(host.error);
    }
    var key := Subscript(provider, "api_key");
    if key.Raises? {
      return Ok(ProviderError(provider));
    }
    var endpoint := BuildEndpoint(ApiPrefix + PyStr(objType), fields, filters, tfilters);
    if endpoint.Raises? {
      return Raises(endpoint.error);
    }
    assert GetObject(objType, provider, filters, tfilters, fields, http) ==
      Respond(http, LookupRequest(host.value, key.value, endpoint.value));
    var result := http(LookupRequest(host.value, key.value, endpoint.value));
    if result.Raises? {
      return Raises("API request failed");
    }
    r := Classify(result.value);
  }

  /** A provider without credentials never reaches the HTTP library. */
  lemma MissingCredentialsSendNothing(objType: Json, provider: Json, filters: Json, tfilters: Json, fields: Json,
                                      http1: HttpRequest -> Outcome<HttpResponse>, http2: HttpRequest -> Outcome<HttpResponse>)
    requires provider.JObject? && "api_key" !in Keys(provider.fields)
    ensures GetObject(objType, provider, filters, tfilters, fields, http1) ==
            GetObject(objType, provider, filters, tfilters, fields, http2) == Ok(ProviderError(provider))
  {
  }

  /** With credentials and a well-formed endpoint, exactly one GET goes to
      `host` + "/api/ddi/v1/" + the object type + the query, and its reply
      is classified by status (a body that is not JSON raises). */
  lemma GetObjectSends(objType: Json, host: string, key: string, filters: Json, tfilters: Json, fields: Json,
                       http: HttpRequest -> Outcome<HttpResponse>)
    requires Endpoint(ApiPrefix + PyStr(objType), fields, filters, tfilters).Ok?
    ensures var endpoint := Endpoint(ApiPrefix + PyStr(objType), fields, filters, tfilters).value;
      var q := HttpRequest(GET, host + endpoint, "Token " + key, None);
      && IsPrefix(host + ApiPrefix + PyStr(objType), q.url)
      && GetObject(objType, JObject([("host", JStr(host)), ("api_key", JStr(key))]), filters, tfilters, fields, http) ==
         (if http(q).Raises? then Raises("API request failed") else Classify(http(q).value))
  {
    var base := ApiPrefix + PyStr(objType);
    var endpoint := Endpoint(base, fields, filters, tfilters).value;
    var p := JObject([("host", JStr(host)), ("api_key", JStr(key))]);
    assert Subscript(p, "host") == Ok(JStr(host)) && Subscript(p, "api_key") == Ok(JStr(key)) by {
      PairDict("host", JStr(host), "api_key", JStr(key));
      assert "api_key"[0] != "host"[0];
    }
    assert GetObject(objType, p, filters, tfilters, fields, http) == Respond(http, LookupRequest(JStr(host), JStr(key), endpoint));
    assert IsPrefix(host + base, host + endpoint) by {
      assert IsPrefix(base, endpoint);
      assert (host + endpoint)[..|host + base|] == host + endpoint[..|base|];
    }
    assert host + base == host + ApiPrefix + PyStr(objType);
  }

  /** `LookupModule.run`: the first term is the object type; the keyword
      arguments default to no fields, empty filters and an empty provider. */
  function Run(terms: seq<Json>, kwargs: Dict, http: HttpRequest -> Outcome<HttpResponse>): (r: Outcome<Reply>)
    ensures terms == [] ==> r == Raises("the object_type must be specified")
  {
    if terms == [] then Raises("the object_type must be specified")
    else
      var fields := if "fields" in Keys(kwargs) then Get(kwargs, "fields").value else JNull;
      var filters := if "filters" in Keys(kwargs) then Get(kwargs, "filters").value else JObject([]);
      var tfilters := if "tfilters" in Keys(kwargs) then Get(kwargs, "tfilters").value else JObject([]);
      var provider := if "provider" in Keys(kwargs) then Get(kwargs, "provider").value else JObject([]);
      GetObject(terms[0], provider, filters, tfilters, fields, http)
  }

  /** Without a provider argument the lookup answers the 400 reply for the
      empty provider, whatever else was passed. */
  lemma RunWithoutProvider(terms: seq<Json>, kwargs: Dict, http: HttpRequest -> Outcome<HttpResponse>)
    requires terms != [] && "provider" !in Keys(kwargs)
    ensures Run(terms, kwargs, http) == Ok(ProviderError(JObject([])))
  {
  }

  /** The endpoint of a filter on a name and on a digit string. */
  lemma FilterEndpointExample()
    ensures Endpoint("/api/ddi/v1/ipam/subnet", JNull, JObject([("name", JStr("lab")), ("cidr", JStr("24"))]), JObject([])) ==
      Ok("/api/ddi/v1/ipam/subnet" + "?_filter=" + "name=='lab'" + " and " + "cidr==24")
  {
    var filters := JObject([("name", JStr("lab")), ("cidr", JStr("24"))]);
    assert "lab"[0] == 'l' && !IsDigit('l');
    assert IsDigitString("24");
    assert Clause("name", JStr("lab")) == "name=='lab'";
    assert Clause("cidr", JStr("24")) == "cidr==24";
    assert Clauses(filters.fields, false) == ["name=='lab'", "cidr==24"];
    JoinTwo("name=='lab'", "cidr==24", " and ");
    assert FilterPart("_filter", filters, false) == "?" + "_filter" + "=" + ("name=='lab'" + " and " + "cidr==24");
    assert FilterPart("_tfilter", JObject([]), false) == "";
    EndpointWithoutFields("/api/ddi/v1/ipam/subnet", filters, JObject([]));
    assert "?" + "_filter" + "=" == "?_filter=";
    var base := "/api/ddi/v1/ipam/subnet";
    assert base + FilterPart("_filter", filters, false) + FilterPart("_tfilter", JObject([]), false) ==
      base + "?_filter=" + "name=='lab'" + " and " + "cidr==24";
  }

  /** A lookup of subnets filtered by name and prefix length, without
      fields: one GET on that endpoint. */
  lemma RunFilterExample(http: HttpRequest -> Outcome<HttpResponse>)
    ensures var provider := JObject([("host", JStr("https://csp")), ("api_key", JStr("k"))]);
      var filters := JObject([("name", JStr("lab")), ("cidr", JStr("24"))]);
      var endpoint := "/api/ddi/v1/ipam/subnet" + "?_filter=" + "name=='lab'" + " and " + "cidr==24";
      Run([JStr("ipam/subnet")], [("filters", filters), ("provider", provider)], http) ==
        Respond(http, HttpRequest(GET, "https://csp" + endpoint, "Token " + "k", None))
  {
    var provider := JObject([("host", JStr("https://csp")), ("api_key", JStr("k"))]);
    var filters := JObject([("name", JStr("lab")), ("cidr", JStr("24"))]);
    var kwargs: Dict := [("filters", filters), ("provider", provider)];
    assert Get(kwargs, "provider") == Some(provider) && Get(kwargs, "filters") == Some(filters) &&
           "fields" !in Keys(kwargs) && "tfilters" !in Keys(kwargs) by {
      PairDict("filters", filters, "provider", provider);
      assert "provider"[0] != "filters"[0];
      assert "fields"[2] != "filters"[2] && "fields"[0] != "provider"[0];
      assert "tfilters"[0] != "filters"[0] && "tfilters"[0] != "provider"[0];
    }
    assert Subscript(provider, "host") == Ok(JStr("https://csp")) && Subscript(provider, "api_key") == Ok(JStr("k")) by {
      PairDict("host", JStr("https://csp"), "api_key", JStr("k"));
      assert "api_key"[0] != "host"[0];
    }
    assert ApiPrefix + PyStr(JStr("ipam/subnet")) == "/api/ddi/v1/ipam/subnet";
    FilterEndpointExample();
    var endpoint := "/api/ddi/v1/ipam/subnet" + "?_filter=" + "name=='lab'" + " and " + "cidr==24";
    assert Run([JStr("ipam/subnet")], kwargs, http) ==
      Respond(http, LookupRequest(JStr("https://csp"), JStr("k"), endpoint));
  }
}
