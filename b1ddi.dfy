/** The helpers of plugins/module_utils/b1ddi.py: the `Request` connector's
    reading of HTTP status codes, and the `Utilities` that turn module
    parameters into request payloads (address/prefix splitting, tag
    flattening, DHCP options, host addresses and router addresses). */
module B1ddi {
  import opened Json

  // ---------------------------------------------------------------------
  // Request

  datatype Verb = GET | POST | PATCH | PUT | DELETE

  /** What the connector hands to the HTTP library. */
  datatype HttpRequest = HttpRequest(verb: Verb, url: string, authorization: string, body: Option<Json>)

  /** What the HTTP library returns: the status, the body decoded as JSON
      (None when it is not JSON, such as the empty body of a 204 or an HTML
      error page) and the raw content. */
  datatype HttpResponse = HttpResponse(status: int, body: Option<Json>, content: string)

  /** The `(is_error, changed, meta)` tuple every connector call returns. */
  datatype Reply = Reply(isError: bool, changed: bool, meta: Json)

  predicate IsSuccess(status: int) {
    status == 200 || status == 201 || status == 204
  }

  /** What `result.json()` raises on a body that is not JSON. */
  const JsonDecodeError: string := "JSONDecodeError: Expecting value"

  /** The status-code reading shared by every verb: a success returns the
      decoded body, a 401 the raw content, any other status the status and
      the decoded body; decoding a body that is not JSON raises. */
  function Classify(r: HttpResponse): (reply: Outcome<Reply>)
    ensures reply.Raises? <==> r.status != 401 && r.body.None?
    ensures reply.Raises? ==> reply.error == JsonDecodeError
    ensures reply.Ok? ==> !reply.value.changed && (reply.value.isError <==> !IsSuccess(r.status))
    ensures IsSuccess(r.status) && r.body.Some? ==> reply.Ok? && reply.value.meta == r.body.value
    ensures r.status == 401 ==> reply.Ok? && reply.value.meta == JStr(r.content)
    ensures !IsSuccess(r.status) && r.status != 401 && r.body.Some? ==>
      reply.Ok? && reply.value.meta == JObject([("status", JInt(r.status)), ("response", r.body.value)])
  {
    if r.status == 401 then Ok(Reply(true, false, JStr(r.content)))
    else
      match r.body
      case None => Raises(JsonDecodeError)
      case Some(b) =>
        if IsSuccess(r.status) then Ok(Reply(false, false, b))
        else Ok(Reply(true, false, JObject([("status", JInt(r.status)), ("response", b)])))
  }

  const GetArityError: string := "TypeError: get() missing 1 required positional argument: 'data'"

  /** Python's binding of the arguments of a `get` call: the method takes
      `endpoint` and `data`, and `data` has no default. */
  function BindGet(args: seq<Json>): (r: Outcome<(Json, Json)>)
    ensures r.Ok? <==> |args| == 2
    ensures r.Ok? ==> r.value == (args[0], args[1])
    ensures |args| == 1 ==> r == Raises(GetArityError)
  {
    if |args| == 2 then Ok((args[0], args[1]))
    else if |args| == 1 then Raises(GetArityError)
    else if args == [] then Raises("TypeError: get() missing 2 required positional arguments: 'endpoint' and 'data'")
    else Raises("TypeError: get() takes 3 positional arguments")
  }

  /** The connector: a base URL and an API token, fixed at construction. */
  class Request {
    const baseUrl: string
    const token: string

    constructor (baseUrl: string, token: string)
      ensures this.baseUrl == baseUrl && this.token == token
    {
      this.baseUrl := baseUrl;
      this.token := token;
    }

    /** The request each verb issues: the endpoint appended to the base URL,
        a token header, and the JSON body when the verb sends one (DELETE
        never does; POST only when asked to). */
    function Issue(verb: Verb, endpoint: string, data: Option<Json>): (q: HttpRequest)
      ensures q.verb == verb && q.url == baseUrl + endpoint
      ensures q.authorization == "Token " + token
      ensures verb == DELETE ==> q.body == None
      ensures verb != DELETE ==> q.body == data
    {
      HttpRequest(verb, baseUrl + endpoint, "Token " + token, if verb == DELETE then None else data)
    }

    /** One call of `get`, `create`, `update`, `put` or `delete`, with the
        HTTP library as an oracle: a transport failure becomes the
        exception "API request failed", anything else is classified (and
        raises when a body it must decode is not JSON). */
    method Call(http: HttpRequest -> Outcome<HttpResponse>, verb: Verb, endpoint: string, data: Option<Json>)
      returns (r: Outcome<Reply>)
      ensures http(Issue(verb, endpoint, data)).Raises? <==> r == Raises("API request failed")
      ensures http(Issue(verb, endpoint, data)).Ok? ==> r == Classify(http(Issue(verb, endpoint, data)).value)
    {
      var q := Issue(verb, endpoint, data);
      var result := http(q);
      if result.Raises? {
        return Raises("API request failed");
      }
      r := Classify(result.value);
    }
  }

  // ---------------------------------------------------------------------
  // normalize_ip

  /** The two-element list `normalize_ip` returns: an address text and a
      prefix, which is text, or the integer passed as `cidr`. */
  datatype IpParts = IpParts(address: string, prefix: Json)

  /** The text before the first "/". */
  function BeforeSlash(s: string): (r: string)
    ensures '/' !in r
  {
    Split(s, '/')[0]
  }

  /** `normalize_ip(address, cidr)`; `cidr` -1 is the default "not given",
      `isIp` is `ipaddress.ip_address` accepting its argument. */
  function NormalizeIp(isIp: string -> bool, address: string, cidr: int): (r: IpParts)
    ensures r.address == "" || (r.address == BeforeSlash(address) && isIp(r.address))
    ensures r.prefix.JStr? || r.prefix == JInt(cidr)
  {
    var parts := Split(address, '/');
    if !isIp(parts[0]) then IpParts("", JStr(""))
    else if cidr != -1 && cidr < 32 then IpParts(parts[0], JInt(cidr))
    else if |parts| == 2 then IpParts(parts[0], JStr(parts[1]))
    else IpParts(parts[0], JStr(""))
  }

  lemma NormalizeIpRejects(isIp: string -> bool, address: string, cidr: int)
    requires !isIp(BeforeSlash(address))
    ensures NormalizeIp(isIp, address, cidr) == IpParts("", JStr(""))
  {
  }

  /** An explicit cidr below 32 wins over any "/n" in the text; 32 and
      above are ignored. */
  lemma NormalizeIpExplicitCidr(isIp: string -> bool, address: string, cidr: int)
    requires isIp(BeforeSlash(address)) && cidr != -1
    ensures cidr < 32 ==> NormalizeIp(isIp, address, cidr) == IpParts(BeforeSlash(address), JInt(cidr))
    ensures cidr >= 32 ==> NormalizeIp(isIp, address, cidr) == NormalizeIp(isIp, address, -1)
  {
  }

  /** "a/b" gives [a, b]. */
  lemma {:induction false} NormalizeIpSplits(isIp: string -> bool, a: string, b: string)
    requires '/' !in a && '/' !in b && isIp(a)
    ensures NormalizeIp(isIp, a + "/" + b, -1) == IpParts(a, JStr(b))
  {
    SplitAround(a, '/', b);
    SplitNone(b, '/');
  }

  /** "a" gives [a, ""]. */
  lemma {:induction false} NormalizeIpPlain(isIp: string -> bool, a: string)
    requires '/' !in a && isIp(a)
    ensures NormalizeIp(isIp, a, -1) == IpParts(a, JStr(""))
  {
    SplitNone(a, '/');
  }

  /** Two or more "/" drop everything after the first one. */
  lemma {:induction false} NormalizeIpManySlashes(isIp: string -> bool, address: string)
    requires Count(address, '/') >= 2 && isIp(BeforeSlash(address))
    ensures NormalizeIp(isIp, address, -1) == IpParts(BeforeSlash(address), JStr(""))
  {
    SplitCount(address, '/');
  }

  /** A non-empty prefix taken from the text puts the text back together. */
  lemma {:induction false} NormalizeIpRejoins(isIp: string -> bool, address: string)
    requires NormalizeIp(isIp, address, -1).prefix != JStr("")
    ensures address == NormalizeIp(isIp, address, -1).address + "/" + NormalizeIp(isIp, address, -1).prefix.s
  {
    var parts := Split(address, '/');
    SplitJoin(address, '/');
    JoinTwo(parts[0], parts[1], "/");
  }

  // ---------------------------------------------------------------------
  // flatten_dict_object

  /** `payload[k] = v` for every item of `items`, in order. */
  function PutAll(acc: Dict, items: Dict): Dict
    decreases |items|
  {
    if items == [] then acc else PutAll(Put(acc, items[0].0, items[0].1), items[1..])
  }

  /** The nested loops of `flatten_dict_object` over the elements of the list. */
  function MergeAll(acc: Dict, ds: seq<Json>): Outcome<Dict>
    decreases |ds|
  {
    if ds == [] then Ok(acc)
    else if !ds[0].JObject? then Raises("AttributeError: object has no attribute 'items'")
    else MergeAll(PutAll(acc, ds[0].fields), ds[1..])
  }

  /** `flatten_dict_object(key, data)`. */
  function Flattened(key: string, data: Dict): Outcome<Dict> {
    match Get(data, key)
    case None => Raises("KeyError: " + key)
    case Some(x) =>
      match Iter(x)
      case None => Raises("TypeError: object is not iterable")
      case Some(ds) => MergeAll([], ds)
  }

  method FlattenDictObject(key: string, data: Dict) returns (r: Outcome<Dict>)
    ensures r == Flattened(key, data)
  {
    var x := Get(data, key);
    if x.None? {
      return Raises("KeyError: " + key);
    }
    var it := Iter(x.value);
    if it.None? {
      return Raises("TypeError: object is not iterable");
    }
    var ds := it.value;
    var payload: Dict := [];
    var i := 0;
    while i < |ds|
      invariant 0 <= i <= |ds|
      invariant MergeAll([], ds) == MergeAll(payload, ds[i..])
    {
      if !ds[i].JObject? {
        return Raises("AttributeError: object has no attribute 'items'");
      }
      var fs := ds[i].fields;
      var p0 := payload;
      var j := 0;
      while j < |fs|
        invariant 0 <= j <= |fs|
        invariant PutAll(p0, fs) == PutAll(payload, fs[j..])
      {
        payload := Put(payload, fs[j].0, fs[j].1);
        assert fs[j..][1..] == fs[j + 1..];
        j := j + 1;
      }
      assert ds[i..][1..] == ds[i + 1..];
      i := i + 1;
    }
    return Ok(payload);
  }

  predicate AllUnique(ds: seq<Json>) {
    forall i :: 0 <= i < |ds| ==> ds[i].JObject? && UniqueKeys(ds[i].fields)
  }

  /** The value of k in the last mapping of ds that has k. */
  function LastValue(ds: seq<Json>, k: string): Option<Json>
    requires forall i :: 0 <= i < |ds| ==> ds[i].JObject?
    decreases |ds|
  {
    if ds == [] then None
    else
      match LastValue(ds[1..], k)
      case Some(v) => Some(v)
      case None => Get(ds[0].fields, k)
  }

  lemma {:induction false} GetPutAll(acc: Dict, items: Dict, k: string)
    requires UniqueKeys(items)
    ensures Get(PutAll(acc, items), k) == if k in Keys(items) then Get(items, k) else Get(acc, k)
    decreases |items|
  {
    if items != [] {
      GetPutAll(Put(acc, items[0].0, items[0].1), items[1..], k);
      GetPut(acc, items[0].0, items[0].1, k);
    }
  }

  /** Later mappings overwrite earlier ones: each key ends up with its value
      in the last mapping that has it, and nothing else is added. */
  lemma {:induction false} MergeAllLastWins(acc: Dict, ds: seq<Json>, k: string)
    requires AllUnique(ds)
    ensures MergeAll(acc, ds).Ok?
    ensures Get(MergeAll(acc, ds).value, k) == match LastValue(ds, k) case Some(v) => Some(v) case None => Get(acc, k)
    decreases |ds|
  {
    if ds != [] {
      var acc' := PutAll(acc, ds[0].fields);
      MergeAllLastWins(acc', ds[1..], k);
      GetPutAll(acc, ds[0].fields, k);
    }
  }

  /** `flatten_dict_object` on a list of mappings never raises, and merges
      them left to right. */
  lemma FlattenLastWins(key: string, data: Dict, ds: seq<Json>, k: string)
    requires Get(data, key) == Some(JList(ds)) && AllUnique(ds)
    ensures Flattened(key, data).Ok?
    ensures Get(Flattened(key, data).value, k) == LastValue(ds, k)
  {
    MergeAllLastWins([], ds, k);
  }

  // ---------------------------------------------------------------------
  // normalize_address and get_router_ip

  /** `normalize_address(data_address)`; `jsonLoads` is `json.loads`
      (None: the text does not parse, which raises). */
  function NormalizeAddress(jsonLoads: string -> Option<Json>, a: Json): (r: Outcome<Json>)
    ensures a.JStr? && !IsSubstring("next", a.s) && !IsSubstring("new", a.s) ==> r == Ok(a)
    ensures (a.JStr? && (IsSubstring("next", a.s) || IsSubstring("new", a.s)) &&
             jsonLoads(Replace(a.s, '\'', '"')).None?) ==> r.Raises?
  {
    match In("next", a)
    case None => Raises("TypeError: argument of type is not iterable")
    case Some(hasNext) =>
      if !hasNext && !In("new", a).value then Ok(a)
      else if !a.JStr? then Raises("AttributeError: object has no attribute 'replace'")
      else
        match jsonLoads(Replace(a.s, '\'', '"'))
        case None => Raises("JSONDecodeError")
        case Some(d) =>
          if !d.JObject? then Raises("AttributeError: object has no attribute 'keys'")
          else if "next_available_subnet" in Keys(d.fields) then
            Subscript(Get(d.fields, "next_available_subnet").value, "parent_block")
          else if "old_address" in Keys(d.fields) then Ok(Get(d.fields, "old_address").value)
          else if "new_address" in Keys(d.fields) then Ok(Get(d.fields, "new_address").value)
          else Ok(JNull)
  }

  /** The parsed JSON's keys are tried in a fixed order. */
  lemma NormalizeAddressOrder(jsonLoads: string -> Option<Json>, s: string, d: Dict)
    requires IsSubstring("new", s) && jsonLoads(Replace(s, '\'', '"')) == Some(JObject(d))
    ensures "next_available_subnet" !in Keys(d) && "old_address" in Keys(d) ==>
      NormalizeAddress(jsonLoads, JStr(s)) == Ok(Get(d, "old_address").value)
    ensures "next_available_subnet" !in Keys(d) && "old_address" !in Keys(d) && "new_address" in Keys(d) ==>
      NormalizeAddress(jsonLoads, JStr(s)) == Ok(Get(d, "new_address").value)
    ensures "next_available_subnet" !in Keys(d) && "old_address" !in Keys(d) && "new_address" !in Keys(d) ==>
      NormalizeAddress(jsonLoads, JStr(s)) == Ok(JNull)
  {
  }

  const AddressSpace: nat := 0x1_0000_0000

  function Pow2(n: nat): (r: nat)
    ensures r >= 1
  {
    if n == 0 then 1 else 2 * Pow2(n - 1)
  }

  /** What `ipaddress.ip_network` yields for an IPv4 network. */
  datatype Ipv4Network = Ipv4Network(network: nat, prefixLen: nat)

  /** The number of host bits; a prefix length above 32 never comes from
      a valid network. */
  function HostBits(n: Ipv4Network): nat {
    if n.prefixLen <= 32 then 32 - n.prefixLen else 0
  }

  /** The network's addresses lie in the IPv4 address space. */
  predicate Fits(n: Ipv4Network) {
    n.prefixLen <= 32 && n.network + Pow2(HostBits(n)) <= AddressSpace
  }

  /** What `ip_network` (strict) guarantees: no host bits set. */
  predicate ValidNetwork(n: Ipv4Network) {
    Fits(n) && n.network % Pow2(HostBits(n)) == 0
  }

  function Broadcast(n: Ipv4Network): nat {
    n.network + Pow2(HostBits(n)) - 1
  }

  predicate InNetwork(n: Ipv4Network, a: int) {
    n.network <= a <= Broadcast(n)
  }

  /** The four octets, most significant first. */
  function Octets(a: nat): (o: seq<nat>)
    ensures |o| == 4
  {
    Base256(a, 4)
  }

  /** The last `n` base-256 digits of `a`, most significant first. */
  function Base256(a: nat, n: nat): (ds: seq<nat>)
    ensures |ds| == n
  {
    if n == 0 then [] else Base256(a / 0x100, n - 1) + [a % 0x100]
  }

  /** `str(IPv4Address(a))`. */
  function DottedQuad(a: nat): string
    requires a < AddressSpace
  {
    var o := Octets(a);
    NatToString(o[0]) + "." + NatToString(o[1]) + "." + NatToString(o[2]) + "." + NatToString(o[3])
  }

  lemma NoDot(n: nat)
    ensures '.' !in NatToString(n)
  {
    NatToStringIsDigits(n);
  }

  lemma DivMod256(x: nat, m: nat)
    ensures x == x / 0x100 * 0x100 + x % 0x100 && x % 0x100 < 0x100
    ensures x < 0x100 * m ==> x / 0x100 < m
  {
  }

  /** The octets are bytes that give back the address. */
  lemma {:induction false} OctetsRebuild(a: nat)
    requires a < AddressSpace
    ensures forall i :: 0 <= i < 4 ==> Octets(a)[i] < 0x100
    ensures a == ((Octets(a)[0] * 0x100 + Octets(a)[1]) * 0x100 + Octets(a)[2]) * 0x100 + Octets(a)[3]
  {
    var q1 := a / 0x100;
    var q2 := q1 / 0x100;
    var q3 := q2 / 0x100;
    assert Base256(q3, 1) == [q3 % 0x100];
    assert Base256(q2, 2) == [q3 % 0x100, q2 % 0x100];
    assert Base256(q1, 3) == [q3 % 0x100, q2 % 0x100, q1 % 0x100];
    assert Octets(a) == [q3 % 0x100, q2 % 0x100, q1 % 0x100, a % 0x100];
    DivMod256(a, 0x100_0000);
    DivMod256(q1, 0x1_0000);
    DivMod256(q2, 0x100);
  }

  /** The dotted text splits into the four decimal octets. */
  lemma {:induction false} DottedQuadSplits(a: nat)
    requires a < AddressSpace
    ensures Split(DottedQuad(a), '.') == [NatToString(Octets(a)[0]), NatToString(Octets(a)[1]), NatToString(Octets(a)[2]), NatToString(Octets(a)[3])]
  {
    var o := Octets(a);
    var s0, s1, s2, s3 := NatToString(o[0]), NatToString(o[1]), NatToString(o[2]), NatToString(o[3]);
    NoDot(o[0]);
    NoDot(o[1]);
    NoDot(o[2]);
    NoDot(o[3]);
    var t2 := s2 + "." + s3;
    var t1 := s1 + "." + t2;
    var t0 := s0 + "." + t1;
    assert DottedQuad(a) == t0;
    SplitNone(s3, '.');
    SplitAround(s2, '.', s3);
    SplitAround(s1, '.', t2);
    SplitAround(s0, '.', t1);
  }

  /** An address as `IPv4Address + n` produces it: out of range raises. */
  function Host(a: int): (r: Outcome<Json>)
    ensures r.Ok? <==> 0 <= a < AddressSpace
  {
    if 0 <= a < AddressSpace then Ok(JStr(DottedQuad(a))) else Raises("AddressValueError")
  }

  /** `get_router_ip(data, command)` with "last" computed either as written
      (network address - 2) or as the last usable host (broadcast - 1). */
  function RouterIp(jsonLoads: string -> Option<Json>, ipNetwork: Json -> Option<Ipv4Network>,
                    data: Dict, command: Json, lastUsable: bool): (r: Outcome<Json>)
    ensures Attr(data, "address") == JNull ==> r == Ok(JNull)
    ensures r.Ok? && command != JStr("first") && command != JStr("last") ==> r == Ok(JNull)
    ensures r.Ok? && r.value != JNull ==> r.value.JStr? && (command == JStr("first") || command == JStr("last"))
  {
    var a := Attr(data, "address");
    if a.JNull? then Ok(JNull)
    else
      match NormalizeAddress(jsonLoads, a)
      case Raises(e) => Raises(e)
      case Ok(addr) =>
        match ipNetwork(addr)
        case None => Raises("ValueError: does not appear to be an IPv4 or IPv6 network")
        case Some(net) => RouterOf(net, command, lastUsable)
  }

  /** The router address computed from a parsed network. */
  function RouterOf(net: Ipv4Network, command: Json, lastUsable: bool): Outcome<Json> {
    if command == JStr("first") then Host(net.network + 1)
    else if command == JStr("last") then Host(if lastUsable then Broadcast(net) - 1 else net.network - 2)
    else Ok(JNull)
  }

  /** For a plain address text, the router comes straight from its network. */
  lemma RouterIpPlain(jsonLoads: string -> Option<Json>, ipNetwork: Json -> Option<Ipv4Network>,
                      data: Dict, s: string, net: Ipv4Network, command: Json, lastUsable: bool)
    requires Attr(data, "address") == JStr(s) && !IsSubstring("next", s) && !IsSubstring("new", s)
    requires ipNetwork(JStr(s)) == Some(net)
    ensures RouterIp(jsonLoads, ipNetwork, data, command, lastUsable) == RouterOf(net, command, lastUsable)
  {
    assert NormalizeAddress(jsonLoads, JStr(s)) == Ok(JStr(s));
  }

  /** `get_router_ip` as written. */
  function GetRouterIp(jsonLoads: string -> Option<Json>, ipNetwork: Json -> Option<Ipv4Network>, data: Dict, command: Json): (r: Outcome<Json>)
    ensures Attr(data, "address") == JNull ==> r == Ok(JNull)
    ensures r.Ok? && command != JStr("first") && command != JStr("last") ==> r == Ok(JNull)
  {
    RouterIp(jsonLoads, ipNetwork, data, command, false)
  }

  /** `get_router_ip` with "last" meaning the last usable host. */
  function GetRouterIpCorrected(jsonLoads: string -> Option<Json>, ipNetwork: Json -> Option<Ipv4Network>, data: Dict, command: Json): (r: Outcome<Json>)
    ensures Attr(data, "address") == JNull ==> r == Ok(JNull)
    ensures r.Ok? && command != JStr("first") && command != JStr("last") ==> r == Ok(JNull)
  {
    RouterIp(jsonLoads, ipNetwork, data, command, true)
  }

  /** As written, "last" is two below the network address: it always lies
      outside the subnet it was computed from (and raises below 0.0.0.2). */
  lemma RouterLastOutsideSubnet(jsonLoads: string -> Option<Json>, ipNetwork: Json -> Option<Ipv4Network>,
                                data: Dict, s: string, net: Ipv4Network)
    requires Attr(data, "address") == JStr(s) && !IsSubstring("next", s) && !IsSubstring("new", s)
    requires ipNetwork(JStr(s)) == Some(net) && net.network < AddressSpace
    ensures net.network >= 2 ==>
      GetRouterIp(jsonLoads, ipNetwork, data, JStr("last")) == Ok(JStr(DottedQuad(net.network - 2))) &&
      !InNetwork(net, net.network - 2)
    ensures net.network < 2 ==> GetRouterIp(jsonLoads, ipNetwork, data, JStr("last")).Raises?
  {
    RouterLastValue(jsonLoads, ipNetwork, data, s, net);
    if net.network >= 2 {
      assert !InNetwork(net, net.network - 2);
    }
  }


  lemma RouterLastValue(jsonLoads: string -> Option<Json>, ipNetwork: Json -> Option<Ipv4Network>,
                        data: Dict, s: string, net: Ipv4Network)
    requires Attr(data, "address") == JStr(s) && !IsSubstring("next", s) && !IsSubstring("new", s)
    requires ipNetwork(JStr(s)) == Some(net)
    ensures GetRouterIp(jsonLoads, ipNetwork, data, JStr("last")) == Host(net.network - 2)
  {
    RouterIpPlain(jsonLoads, ipNetwork, data, s, net, JStr("last"), false);
    assert RouterOf(net, JStr("last"), false) == Host(net.network - 2) by {
      assert "last"[0] != "first"[0];
    }
  }

  lemma DottedQuadExample()
    ensures DottedQuad(0x0A00_0000 - 2) == "9.255.255.254"
  {
    var a := 0x0A00_0000 - 2;
    assert Base256(a / 0x100 / 0x100 / 0x100, 1) == [9];
    assert Base256(a / 0x100 / 0x100, 2) == [9, 255];
    assert Base256(a / 0x100, 3) == [9, 255, 255];
    assert Octets(a) == [9, 255, 255, 254];
    var s9, s255, s254 := NatToString(9), NatToString(255), NatToString(254);
    assert s9 == "9";
    assert NatToString(25) == "25";
    assert s255 == "255" && s254 == "254";
    assert DottedQuad(a) == s9 + "." + s255 + "." + s255 + "." + s254;
  }

  /** 10.0.0.0/24 with "last" gives 9.255.255.254. */
  lemma RouterLastExample(jsonLoads: string -> Option<Json>, ipNetwork: Json -> Option<Ipv4Network>)
    requires ipNetwork(JStr("10.0.0.0/24")) == Some(Ipv4Network(0x0A00_0000, 24))
    ensures GetRouterIp(jsonLoads, ipNetwork, [("address", JStr("10.0.0.0/24"))], JStr("last")) == Ok(JStr("9.255.255.254"))
  {
    var s := "10.0.0.0/24";
    var data := [("address", JStr(s))];
    NotSubstring("next", s);
    NotSubstring("new", s);
    assert Attr(data, "address") == JStr(s);
    RouterLastOutsideSubnet(jsonLoads, ipNetwork, data, s, Ipv4Network(0x0A00_0000, 24));
    DottedQuadExample();
  }

  /** The host the corrected "first"/"last" picks. */
  function UsableRouter(net: Ipv4Network, command: Json): int {
    if command == JStr("first") then net.network + 1 else Broadcast(net) - 1
  }

  lemma {:induction false} UsableRouterInSubnet(net: Ipv4Network, command: Json)
    requires Fits(net) && net.prefixLen <= 30
    requires command == JStr("first") || command == JStr("last")
    ensures net.network < UsableRouter(net, command) < Broadcast(net)
    ensures 0 <= UsableRouter(net, command) < AddressSpace
    ensures RouterOf(net, command, true) == Ok(JStr(DottedQuad(UsableRouter(net, command))))
  {
    Pow2AtLeast4(HostBits(net));
  }

  /** Corrected: for a subnet with at least two hosts, "first" and "last"
      are hosts of that subnet, neither its network nor its broadcast
      address. */
  lemma {:induction false} RouterCorrectedInSubnet(jsonLoads: string -> Option<Json>, ipNetwork: Json -> Option<Ipv4Network>,
                                                   data: Dict, s: string, net: Ipv4Network, command: Json)
    requires Attr(data, "address") == JStr(s) && !IsSubstring("next", s) && !IsSubstring("new", s)
    requires ipNetwork(JStr(s)) == Some(net) && Fits(net) && net.prefixLen <= 30
    requires command == JStr("first") || command == JStr("last")
    ensures net.network < UsableRouter(net, command) < Broadcast(net)
    ensures 0 <= UsableRouter(net, command) < AddressSpace
    ensures GetRouterIpCorrected(jsonLoads, ipNetwork, data, command) == Ok(JStr(DottedQuad(UsableRouter(net, command))))
  {
    RouterIpPlain(jsonLoads, ipNetwork, data, s, net, command, true);
    UsableRouterInSubnet(net, command);
  }

  lemma {:induction false} Pow2AtLeast4(n: nat)
    requires n >= 2
    ensures Pow2(n) >= 4
    decreases n
  {
    if n > 2 {
      Pow2AtLeast4(n - 1);
    }
  }

  // ---------------------------------------------------------------------
  // dhcp_options and hostaddresses

  /** An entry of the lookup table (DHCP option codes, IP spaces): a name
      and an id. */
  datatype Lookup = Lookup(name: string, id: Json)

  /** The inner `for item in table` loop, which breaks at the first match. */
  function FindId(table: seq<Lookup>, k: string): (r: Option<Json>)
    ensures r.Some? <==> exists i :: 0 <= i < |table| && table[i].name == k
    ensures r.Some? ==>
      exists i :: 0 <= i < |table| && table[i].name == k && table[i].id == r.value && (forall j :: 0 <= j < i ==> table[j].name != k)
    decreases |table|
  {
    if table == [] then None
    else if table[0].name == k then Some(table[0].id)
    else FindId(table[1..], k)
  }

  /** The output so far, and the id variable (None while unbound). */
  datatype Acc = Acc(out: seq<Json>, id: Option<Json>)

  /** Builds one output element from (id, key, value). */
  type Build = (Json, string, Json) -> Outcome<Json>

  /** Raised when the loop reads its id variable before any key matched:
      the local is `ipspace_id` in `hostaddresses` and `dhcp_option_code`
      in `dhcp_options`; the shared model leaves the name out of the text. */
  const UnboundId: string := "UnboundLocalError: local variable referenced before assignment"

  /** One key of one input mapping. As written (`reset` false) the id
      variable keeps the previous key's match when the key is unknown, and
      is unbound (UnboundLocalError) if nothing matched before; corrected (`reset`
      true) an unknown key is skipped. A false id (0, "") is skipped. */
  function KeyStep(table: seq<Lookup>, build: Build, reset: bool, acc: Acc, k: string, v: Json): Outcome<Acc> {
    var id := match FindId(table, k) case Some(x) => Some(x) case None => if reset then None else acc.id;
    if id.None? then (if reset then Ok(Acc(acc.out, None)) else Raises(UnboundId))
    else if !Truthy(id.value) then Ok(Acc(acc.out, id))
    else
      match build(id.value, k, v)
      case Raises(e) => Raises(e)
      case Ok(item) => Ok(Acc(acc.out + [item], id))
  }

  function FieldsStep(table: seq<Lookup>, build: Build, reset: bool, acc: Acc, fs: Dict): Outcome<Acc>
    decreases |fs|
  {
    if fs == [] then Ok(acc)
    else
      match KeyStep(table, build, reset, acc, fs[0].0, fs[0].1)
      case Raises(e) => Raises(e)
      case Ok(a) => FieldsStep(table, build, reset, a, fs[1..])
  }

  function EntriesStep(table: seq<Lookup>, build: Build, reset: bool, acc: Acc, es: seq<Json>): Outcome<Acc>
    decreases |es|
  {
    if es == [] then Ok(acc)
    else if !es[0].JObject? then Raises("AttributeError: object has no attribute 'items'")
    else
      match FieldsStep(table, build, reset, acc, es[0].fields)
      case Raises(e) => Raises(e)
      case Ok(a) => EntriesStep(table, build, reset, a, es[1..])
  }

  /** The shared shape of `dhcp_options` and `hostaddresses`: for every key
      of every mapping in `data[key]`, look the key up and emit an element. */
  function Collected(key: string, data: Dict, table: seq<Lookup>, build: Build, reset: bool): Outcome<seq<Json>> {
    match Get(data, key)
    case None => Raises("KeyError: " + key)
    case Some(x) =>
      match Iter(x)
      case None => Raises("TypeError: object is not iterable")
      case Some(es) =>
        match EntriesStep(table, build, reset, Acc([], None), es)
        case Raises(e) => Raises(e)
        case Ok(a) => Ok(a.out)
  }

  /** The nested loops as written. */
  method Collect(key: string, data: Dict, table: seq<Lookup>, build: Build) returns (r: Outcome<seq<Json>>)
    ensures r == Collected(key, data, table, build, false)
  {
    var x := Get(data, key);
    if x.None? {
      return Raises("KeyError: " + key);
    }
    var it := Iter(x.value);
    if it.None? {
      return Raises("TypeError: object is not iterable");
    }
    var es := it.value;
    var payload: seq<Json> := [];
    var id: Option<Json> := None;
    var i := 0;
    while i < |es|
      invariant 0 <= i <= |es|
      invariant EntriesStep(table, build, false, Acc([], None), es) ==
        EntriesStep(table, build, false, Acc(payload, id), es[i..])
    {
      if !es[i].JObject? {
        return Raises("AttributeError: object has no attribute 'items'");
      }
      var fs := es[i].fields;
      var a0 := Acc(payload, id);
      var j := 0;
      while j < |fs|
        invariant 0 <= j <= |fs|
        invariant FieldsStep(table, build, false, a0, fs) == FieldsStep(table, build, false, Acc(payload, id), fs[j..])
      {
        var k, v := fs[j].0, fs[j].1;
        var found := FindId(table, k);
        if found.Some? {
          id := found;
        }
        if id.None? {
          return Raises(UnboundId);
        }
        if Truthy(id.value) {
          var item := build(id.value, k, v);
          if item.Raises? {
            return Raises(item.error);
          }
          payload := payload + [item.value];
        }
        assert fs[j..][1..] == fs[j + 1..];
        j := j + 1;
      }
      assert es[i..][1..] == es[i + 1..];
      i := i + 1;
    }
    return Ok(payload);
  }

  /** All (key, value) items of a list of mappings, in iteration order. */
  function AllItems(es: seq<Json>): Dict
    requires forall i :: 0 <= i < |es| ==> es[i].JObject?
    decreases |es|
  {
    if es == [] then [] else es[0].fields + AllItems(es[1..])
  }

  /** `build` succeeds on every item, whatever the id. */
  ghost predicate BuildsOk(build: Build, items: Dict) {
    forall id, i :: 0 <= i < |items| ==> build(id, items[i].0, items[i].1).Ok?
  }

  /** Reference for the corrected loops: one element per item whose key has
      a true id in the table, in order. */
  function Expected(items: Dict, table: seq<Lookup>, build: Build): seq<Json>
    decreases |items|
  {
    if items == [] then []
    else ExpectedItem(table, build, items[0].0, items[0].1) + Expected(items[1..], table, build)
  }

  /** The element one item contributes to `Expected`, if any. */
  function ExpectedItem(table: seq<Lookup>, build: Build, k: string, v: Json): seq<Json> {
    match FindId(table, k)
    case Some(id) => (if Truthy(id) && build(id, k, v).Ok? then [build(id, k, v).value] else [])
    case None => []
  }

  lemma {:induction false} ExpectedAppend(a: Dict, b: Dict, table: seq<Lookup>, build: Build)
    ensures Expected(a + b, table, build) == Expected(a, table, build) + Expected(b, table, build)
    decreases |a|
  {
    if a == [] {
      assert a + b == b;
    } else {
      ExpectedAppend(a[1..], b, table, build);
      assert (a + b)[0] == a[0];
      assert (a + b)[1..] == a[1..] + b;
    }
  }

  lemma KeyStepCorrected(table: seq<Lookup>, build: Build, acc: Acc, k: string, v: Json)
    requires forall id :: build(id, k, v).Ok?
    ensures KeyStep(table, build, true, acc, k, v).Ok?
    ensures KeyStep(table, build, true, acc, k, v).value.out == acc.out + ExpectedItem(table, build, k, v)
  {
  }

  lemma BuildsOkTail(build: Build, fs: Dict)
    requires fs != [] && BuildsOk(build, fs)
    ensures forall id :: build(id, fs[0].0, fs[0].1).Ok?
    ensures BuildsOk(build, fs[1..])
  {
    forall id, i | 0 <= i < |fs[1..]|
      ensures build(id, fs[1..][i].0, fs[1..][i].1).Ok?
    {
      assert fs[1..][i] == fs[i + 1];
    }
  }

  lemma {:induction false} FieldsStepCorrected(table: seq<Lookup>, build: Build, acc: Acc, fs: Dict)
    requires BuildsOk(build, fs)
    ensures FieldsStep(table, build, true, acc, fs).Ok?
    ensures FieldsStep(table, build, true, acc, fs).value.out == acc.out + Expected(fs, table, build)
    decreases |fs|
  {
    if fs != [] {
      var k, v, rest := fs[0].0, fs[0].1, fs[1..];
      BuildsOkTail(build, fs);
      KeyStepCorrected(table, build, acc, k, v);
      var a := KeyStep(table, build, true, acc, k, v).value;
      assert FieldsStep(table, build, true, acc, fs) == FieldsStep(table, build, true, a, rest);
      FieldsStepCorrected(table, build, a, rest);
      var e := ExpectedItem(table, build, k, v);
      assert Expected(fs, table, build) == e + Expected(rest, table, build);
      assert acc.out + (e + Expected(rest, table, build)) == (acc.out + e) + Expected(rest, table, build);
    }
  }

  lemma {:induction false} EntriesStepCorrected(table: seq<Lookup>, build: Build, acc: Acc, es: seq<Json>)
    requires forall i :: 0 <= i < |es| ==> es[i].JObject?
    requires BuildsOk(build, AllItems(es))
    ensures EntriesStep(table, build, true, acc, es).Ok?
    ensures EntriesStep(table, build, true, acc, es).value.out == acc.out + Expected(AllItems(es), table, build)
    decreases |es|
  {
    if es != [] {
      var fs, rest := es[0].fields, AllItems(es[1..]);
      assert AllItems(es) == fs + rest;
      assert BuildsOk(build, fs) by {
        forall id, i | 0 <= i < |fs|
          ensures build(id, fs[i].0, fs[i].1).Ok?
        {
          assert (fs + rest)[i] == fs[i];
        }
      }
      assert BuildsOk(build, rest) by {
        forall id, i | 0 <= i < |rest|
          ensures build(id, rest[i].0, rest[i].1).Ok?
        {
          assert (fs + rest)[|fs| + i] == rest[i];
        }
      }
      FieldsStepCorrected(table, build, acc, fs);
      var a := FieldsStep(table, build, true, acc, fs).value;
      EntriesStepCorrected(table, build, a, es[1..]);
      ExpectedAppend(fs, rest, table, build);
    }
  }

  /** The corrected loops emit exactly one element per known key, in order,
      and never raise on a list of mappings. */
  lemma CollectedCorrected(key: string, data: Dict, table: seq<Lookup>, build: Build, es: seq<Json>)
    requires Get(data, key) == Some(JList(es)) && forall i :: 0 <= i < |es| ==> es[i].JObject?
    requires BuildsOk(build, AllItems(es))
    ensures Collected(key, data, table, build, true) == Ok(Expected(AllItems(es), table, build))
  {
    assert Iter(JList(es)) == Some(es);
    EntriesStepCorrected(table, build, Acc([], None), es);
    var r := EntriesStep(table, build, true, Acc([], None), es);
    assert r.Ok? && r.value.out == [] + Expected(AllItems(es), table, build);
    assert [] + Expected(AllItems(es), table, build) == Expected(AllItems(es), table, build);
  }

  /** Every item's name is in the table. */
  predicate KnownNames(table: seq<Lookup>, items: Dict) {
    forall i :: 0 <= i < |items| ==> FindId(table, items[i].0).Some?
  }

  lemma {:induction false} FieldsStepKnown(table: seq<Lookup>, build: Build, acc: Acc, fs: Dict)
    requires KnownNames(table, fs)
    ensures FieldsStep(table, build, false, acc, fs) == FieldsStep(table, build, true, acc, fs)
    decreases |fs|
  {
    if fs != [] {
      assert FindId(table, fs[0].0).Some?;
      assert KnownNames(table, fs[1..]) by {
        forall i | 0 <= i < |fs[1..]| ensures FindId(table, fs[1..][i].0).Some? {
          assert fs[1..][i] == fs[i + 1];
        }
      }
      var a := KeyStep(table, build, false, acc, fs[0].0, fs[0].1);
      assert a == KeyStep(table, build, true, acc, fs[0].0, fs[0].1);
      if a.Ok? {
        FieldsStepKnown(table, build, a.value, fs[1..]);
      }
    }
  }

  lemma {:induction false} EntriesStepKnown(table: seq<Lookup>, build: Build, acc: Acc, es: seq<Json>)
    requires forall i :: 0 <= i < |es| ==> es[i].JObject?
    requires KnownNames(table, AllItems(es))
    ensures EntriesStep(table, build, false, acc, es) == EntriesStep(table, build, true, acc, es)
    decreases |es|
  {
    if es != [] {
      var fs, rest := es[0].fields, AllItems(es[1..]);
      assert AllItems(es) == fs + rest;
      assert KnownNames(table, fs) by {
        forall i | 0 <= i < |fs| ensures FindId(table, fs[i].0).Some? {
          assert (fs + rest)[i] == fs[i];
        }
      }
      assert KnownNames(table, rest) by {
        forall i | 0 <= i < |rest| ensures FindId(table, rest[i].0).Some? {
          assert (fs + rest)[|fs| + i] == rest[i];
        }
      }
      FieldsStepKnown(table, build, acc, fs);
      var a := FieldsStep(table, build, false, acc, fs);
      if a.Ok? {
        EntriesStepKnown(table, build, a.value, es[1..]);
      }
    }
  }

  /** When every name is in the table, the loops as written compute the
      corrected result: the stale id and the UnboundLocalError need an unknown
      name. */
  lemma CollectedKnown(key: string, data: Dict, table: seq<Lookup>, build: Build, es: seq<Json>)
    requires Get(data, key) == Some(JList(es)) && forall i :: 0 <= i < |es| ==> es[i].JObject?
    requires KnownNames(table, AllItems(es))
    ensures Collected(key, data, table, build, false) == Collected(key, data, table, build, true)
  {
    assert Iter(JList(es)) == Some(es);
    EntriesStepKnown(table, build, Acc([], None), es);
  }

  /** `{"space": id, "address": v}`. */
  function HostAddress(id: Json, k: string, v: Json): Outcome<Json> {
    Ok(JObject([("space", id), ("address", v)]))
  }

  /** `hostaddresses(key, data, aspace)` as written. */
  method HostAddresses(key: string, data: Dict, aspace: seq<Lookup>) returns (r: Outcome<seq<Json>>)
    ensures r == Collected(key, data, aspace, HostAddress, false)
  {
    r := Collect(key, data, aspace, HostAddress);
  }

  /** `hostaddresses` with an unknown IP space name skipped: exactly one
      address per item whose name is a known IP space, in order. */
  function HostAddressesCorrected(key: string, data: Dict, aspace: seq<Lookup>): (r: Outcome<seq<Json>>)
    ensures forall es: seq<Json> :: Get(data, key) == Some(JList(es)) && (forall i :: 0 <= i < |es| ==> es[i].JObject?) ==>
      r == Ok(Expected(AllItems(es), aspace, HostAddress))
  {
    var r := Collected(key, data, aspace, HostAddress, true);
    assert forall es: seq<Json> :: Get(data, key) == Some(JList(es)) && (forall i :: 0 <= i < |es| ==> es[i].JObject?) ==>
      r == Ok(Expected(AllItems(es), aspace, HostAddress)) by {
      forall es: seq<Json> | Get(data, key) == Some(JList(es)) && (forall i :: 0 <= i < |es| ==> es[i].JObject?)
        ensures r == Ok(Expected(AllItems(es), aspace, HostAddress))
      {
        CollectedCorrected(key, data, aspace, HostAddress, es);
      }
    }
    r
  }

  /** As written, with every IP space name known: exactly one address per
      item whose space id is true, in order. */
  lemma HostAddressesKnown(key: string, data: Dict, aspace: seq<Lookup>, es: seq<Json>)
    requires Get(data, key) == Some(JList(es)) && forall i :: 0 <= i < |es| ==> es[i].JObject?
    requires KnownNames(aspace, AllItems(es))
    ensures Collected(key, data, aspace, HostAddress, false) == Ok(Expected(AllItems(es), aspace, HostAddress))
  {
    CollectedKnown(key, data, aspace, HostAddress, es);
    CollectedCorrected(key, data, aspace, HostAddress, es);
  }

  /** As written, a name missing from the table reuses the id of the
      previous known name: {"a": "x", "b": "y"} with only "a" known gives two
      addresses in space "a", where one was meant. */
  lemma HostAddressesStaleId()
    ensures Collected("addresses", [("addresses", JList([JObject([("a", JStr("x")), ("b", JStr("y"))])]))],
                      [Lookup("a", JStr("ip_space/1"))], HostAddress, false)
      == Ok([JObject([("space", JStr("ip_space/1")), ("address", JStr("x"))]),
             JObject([("space", JStr("ip_space/1")), ("address", JStr("y"))])])
  {
    var fs := [("a", JStr("x")), ("b", JStr("y"))];
    var table := [Lookup("a", JStr("ip_space/1"))];
    var id := JStr("ip_space/1");
    var x1 := JObject([("space", id), ("address", JStr("x"))]);
    var x2 := JObject([("space", id), ("address", JStr("y"))]);
    assert FindId(table, "a") == Some(id);
    assert FindId(table, "b") == None;
    assert Truthy(id);
    assert HostAddress(id, "a", JStr("x")) == Ok(x1);
    assert HostAddress(id, "b", JStr("y")) == Ok(x2);
    var a1 := KeyStep(table, HostAddress, false, Acc([], None), "a", JStr("x"));
    assert [] + [x1] == [x1];
    assert a1 == Ok(Acc([x1], Some(id)));
    var a2 := KeyStep(table, HostAddress, false, a1.value, "b", JStr("y"));
    assert [x1] + [x2] == [x1, x2];
    assert a2 == Ok(Acc([x1, x2], Some(id)));
    assert fs[1..] == [("b", JStr("y"))] && fs[1..][1..] == [];
    assert FieldsStep(table, HostAddress, false, a1.value, fs[1..]) == a2;
    assert FieldsStep(table, HostAddress, false, Acc([], None), fs) == a2;
    assert EntriesStep(table, HostAddress, false, Acc([], None), [JObject(fs)]) == a2;
  }

  /** Corrected, the same input gives the one address that was meant. */
  lemma HostAddressesCorrectedExample()
    ensures HostAddressesCorrected("addresses", [("addresses", JList([JObject([("a", JStr("x")), ("b", JStr("y"))])]))],
                                   [Lookup("a", JStr("ip_space/1"))])
      == Ok([JObject([("space", JStr("ip_space/1")), ("address", JStr("x"))])])
  {
    var fs := [("a", JStr("x")), ("b", JStr("y"))];
    var table := [Lookup("a", JStr("ip_space/1"))];
    var data := [("addresses", JList([JObject(fs)]))];
    var x1 := JObject([("space", JStr("ip_space/1")), ("address", JStr("x"))]);
    assert Get(data, "addresses") == Some(JList([JObject(fs)]));
    assert AllItems([JObject(fs)]) == fs by {
      assert [JObject(fs)][1..] == [];
      assert fs + [] == fs;
    }
    assert Expected(fs, table, HostAddress) == [x1] by {
      assert FindId(table, "a") == Some(JStr("ip_space/1"));
      assert FindId(table, "b") == None by {
        assert table[1..] == [];
      }
      assert fs[1..] == [("b", JStr("y"))] && fs[1..][1..] == [];
      assert ExpectedItem(table, HostAddress, "b", JStr("y")) == [];
      assert Expected(fs[1..], table, HostAddress) == [];
      assert ExpectedItem(table, HostAddress, "a", JStr("x")) == [x1];
      assert [x1] + [] == [x1];
    }
  }

  /** As written, a first name missing from the table raises UnboundLocalError. */
  lemma UnknownFirstNameRaises(key: string, data: Dict, table: seq<Lookup>, build: Build, k: string, v: Json, rest: Dict)
    requires Get(data, key) == Some(JList([JObject([(k, v)] + rest)]))
    requires FindId(table, k).None?
    ensures Collected(key, data, table, build, false) == Raises(UnboundId)
  {
  }

  /** `{"option_code": code, "option_value": v, "type": "option"}`, where a
      "routers" value "first" or "last" is replaced by the computed router. */
  function DhcpOption(router: Json -> Outcome<Json>, code: Json, k: string, v: Json): Outcome<Json> {
    var value := if k == "routers" && (v == JStr("first") || v == JStr("last")) then router(v) else Ok(v);
    match value
    case Raises(e) => Raises(e)
    case Ok(x) => Ok(JObject([("option_code", code), ("option_value", x), ("type", JStr("option"))]))
  }

  /** The element builder of `dhcp_options` for a given `data`. */
  function DhcpBuild(jsonLoads: string -> Option<Json>, ipNetwork: Json -> Option<Ipv4Network>, data: Dict, lastUsable: bool): Build {
    (c, k, v) => DhcpOption(cmd => RouterIp(jsonLoads, ipNetwork, data, cmd, lastUsable), c, k, v)
  }

  /** `dhcp_options(key, data, dhcp_option_codes)` as written. */
  method DhcpOptions(jsonLoads: string -> Option<Json>, ipNetwork: Json -> Option<Ipv4Network>,
                     key: string, data: Dict, codes: seq<Lookup>) returns (r: Outcome<seq<Json>>)
    ensures r == Collected(key, data, codes, DhcpBuild(jsonLoads, ipNetwork, data, false), false)
  {
    r := Collect(key, data, codes, DhcpBuild(jsonLoads, ipNetwork, data, false));
  }

  /** Whether the router addresses of `data` can be computed: the
      "first" and "last" routers of its subnet are addresses. */
  predicate RoutersResolve(jsonLoads: string -> Option<Json>, ipNetwork: Json -> Option<Ipv4Network>, data: Dict, lastUsable: bool) {
    RouterIp(jsonLoads, ipNetwork, data, JStr("first"), lastUsable).Ok? &&
    RouterIp(jsonLoads, ipNetwork, data, JStr("last"), lastUsable).Ok?
  }

  /** An option that is not a "first"/"last" router carries its value as
      given; a router carries the address computed for the command. */
  lemma DhcpOptionValue(router: Json -> Outcome<Json>, code: Json, k: string, v: Json)
    ensures !(k == "routers" && (v == JStr("first") || v == JStr("last"))) ==>
      DhcpOption(router, code, k, v) == Ok(JObject([("option_code", code), ("option_value", v), ("type", JStr("option"))]))
    ensures k == "routers" && (v == JStr("first") || v == JStr("last")) ==>
      (DhcpOption(router, code, k, v).Ok? <==> router(v).Ok?) &&
      (router(v).Ok? ==>
        DhcpOption(router, code, k, v) == Ok(JObject([("option_code", code), ("option_value", router(v).value), ("type", JStr("option"))])))
  {
  }

  /** Building an option fails only on a router whose address cannot be
      computed: with no router items, or with resolvable routers, every
      item builds. */
  lemma DhcpBuildsOk(jsonLoads: string -> Option<Json>, ipNetwork: Json -> Option<Ipv4Network>, data: Dict, lastUsable: bool, items: Dict)
    requires (forall i :: 0 <= i < |items| ==> items[i].0 != "routers") || RoutersResolve(jsonLoads, ipNetwork, data, lastUsable)
    ensures BuildsOk(DhcpBuild(jsonLoads, ipNetwork, data, lastUsable), items)
  {
    var build := DhcpBuild(jsonLoads, ipNetwork, data, lastUsable);
    forall id, i | 0 <= i < |items| ensures build(id, items[i].0, items[i].1).Ok? {
      DhcpOptionValue(cmd => RouterIp(jsonLoads, ipNetwork, data, cmd, lastUsable), id, items[i].0, items[i].1);
    }
  }

  /** Corrected, a "first" or "last" router of a subnet with at least two
      hosts is emitted as an address strictly inside that subnet. */
  lemma DhcpRouterInSubnet(jsonLoads: string -> Option<Json>, ipNetwork: Json -> Option<Ipv4Network>,
                           data: Dict, s: string, net: Ipv4Network, code: Json, command: Json)
    requires Attr(data, "address") == JStr(s) && !IsSubstring("next", s) && !IsSubstring("new", s)
    requires ipNetwork(JStr(s)) == Some(net) && Fits(net) && net.prefixLen <= 30
    requires command == JStr("first") || command == JStr("last")
    ensures net.network < UsableRouter(net, command) < Broadcast(net)
    ensures DhcpBuild(jsonLoads, ipNetwork, data, true)(code, "routers", command) ==
      Ok(JObject([("option_code", code), ("option_value", JStr(DottedQuad(UsableRouter(net, command)))), ("type", JStr("option"))]))
  {
    RouterCorrectedInSubnet(jsonLoads, ipNetwork, data, s, net, command);
    DhcpOptionValue(cmd => RouterIp(jsonLoads, ipNetwork, data, cmd, true), code, "routers", command);
  }

  /** A subnet with at least two hosts resolves both corrected routers. */
  lemma RoutersResolveInSubnet(jsonLoads: string -> Option<Json>, ipNetwork: Json -> Option<Ipv4Network>,
                               data: Dict, s: string, net: Ipv4Network)
    requires Attr(data, "address") == JStr(s) && !IsSubstring("next", s) && !IsSubstring("new", s)
    requires ipNetwork(JStr(s)) == Some(net) && Fits(net) && net.prefixLen <= 30
    ensures RoutersResolve(jsonLoads, ipNetwork, data, true)
  {
    RouterCorrectedInSubnet(jsonLoads, ipNetwork, data, s, net, JStr("first"));
    RouterCorrectedInSubnet(jsonLoads, ipNetwork, data, s, net, JStr("last"));
  }

  /** As written, with every option name known and every item building:
      exactly one option per item whose code is true, in order. */
  lemma DhcpOptionsKnown(jsonLoads: string -> Option<Json>, ipNetwork: Json -> Option<Ipv4Network>,
                         key: string, data: Dict, codes: seq<Lookup>, es: seq<Json>)
    requires Get(data, key) == Some(JList(es)) && forall i :: 0 <= i < |es| ==> es[i].JObject?
    requires KnownNames(codes, AllItems(es))
    requires BuildsOk(DhcpBuild(jsonLoads, ipNetwork, data, false), AllItems(es))
    ensures Collected(key, data, codes, DhcpBuild(jsonLoads, ipNetwork, data, false), false) ==
      Ok(Expected(AllItems(es), codes, DhcpBuild(jsonLoads, ipNetwork, data, false)))
  {
    var build := DhcpBuild(jsonLoads, ipNetwork, data, false);
    CollectedKnown(key, data, codes, build, es);
    CollectedCorrected(key, data, codes, build, es);
  }

  /** `dhcp_options` with unknown names skipped and "last" the last usable
      host: whenever every item builds (no "routers" item, or routers that
      resolve), exactly one option per item whose name is a known option,
      carrying that option's code and the item's value or computed router. */
  function DhcpOptionsCorrected(jsonLoads: string -> Option<Json>, ipNetwork: Json -> Option<Ipv4Network>,
                                key: string, data: Dict, codes: seq<Lookup>): (r: Outcome<seq<Json>>)
    ensures forall es: seq<Json> :: (Get(data, key) == Some(JList(es)) && (forall i :: 0 <= i < |es| ==> es[i].JObject?) &&
       BuildsOk(DhcpBuild(jsonLoads, ipNetwork, data, true), AllItems(es))) ==>
      r == Ok(Expected(AllItems(es), codes, DhcpBuild(jsonLoads, ipNetwork, data, true)))
    ensures forall es: seq<Json> :: (Get(data, key) == Some(JList(es)) && (forall i :: 0 <= i < |es| ==> es[i].JObject?) &&
       RoutersResolve(jsonLoads, ipNetwork, data, true)) ==>
      r == Ok(Expected(AllItems(es), codes, DhcpBuild(jsonLoads, ipNetwork, data, true)))
  {
    var build := DhcpBuild(jsonLoads, ipNetwork, data, true);
    var r := Collected(key, data, codes, build, true);
    assert forall es: seq<Json> :: (Get(data, key) == Some(JList(es)) && (forall i :: 0 <= i < |es| ==> es[i].JObject?) &&
       BuildsOk(build, AllItems(es))) ==>
      r == Ok(Expected(AllItems(es), codes, build)) by {
      forall es: seq<Json> | Get(data, key) == Some(JList(es)) && (forall i :: 0 <= i < |es| ==> es[i].JObject?) &&
        BuildsOk(build, AllItems(es))
        ensures r == Ok(Expected(AllItems(es), codes, build))
      {
        CollectedCorrected(key, data, codes, build, es);
      }
    }
    assert forall es: seq<Json> :: (Get(data, key) == Some(JList(es)) && (forall i :: 0 <= i < |es| ==> es[i].JObject?) &&
       RoutersResolve(jsonLoads, ipNetwork, data, true)) ==>
      r == Ok(Expected(AllItems(es), codes, build)) by {
      forall es: seq<Json> | Get(data, key) == Some(JList(es)) && (forall i :: 0 <= i < |es| ==> es[i].JObject?) &&
        RoutersResolve(jsonLoads, ipNetwork, data, true)
        ensures r == Ok(Expected(AllItems(es), codes, build))
      {
        DhcpBuildsOk(jsonLoads, ipNetwork, data, true, AllItems(es));
        CollectedCorrected(key, data, codes, build, es);
      }
    }
    r
  }
}
