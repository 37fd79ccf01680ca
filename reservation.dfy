/** The `b1_ipam_ipv4_reservation` module: get, create-or-update and
    delete of an IPv4 address reservation through the DDI REST API, each
    handler answering an `(is_error, changed, meta)` reply. */
module Reservation {
  import opened Json
  import opened B1ddi
  import opened Ansible

  /** The module parameters; the framework guarantees the key set, so an
      option that was not given is None. */
  datatype Params = Params(host: string, apiKey: string, name: Option<string>, address: Option<string>,
                           space: Option<string>, comment: Option<string>, tags: Json, state: string)

  function OptStr(o: Option<string>): Json {
    if o.Some? then JStr(o.value) else JNull
  }

  /** The parameters as the `data` mapping echoed in error replies. */
  function ParamsJson(p: Params): Json {
    JObject([("api_key", JStr(p.apiKey)), ("host", JStr(p.host)), ("name", OptStr(p.name)),
             ("address", OptStr(p.address)), ("space", OptStr(p.space)), ("comment", OptStr(p.comment)),
             ("tags", p.tags), ("state", JStr(p.state))])
  }

  /** The connector's calls, as the module issues them. */
  datatype ApiCall =
    | GetCall(endpoint: string)
    | CreateCall(endpoint: string, payload: Dict)
    | UpdateCall(endpoint: string, payload: Dict)
    | DeleteCall(endpoint: string)

  /** The connector: a reply per call, or an exception. */
  type Api = ApiCall -> Outcome<Reply>

  const AddressBase: string := "/api/ddi/v1/ipam/address"
  const ApiRoot: string := "/api/ddi/v1/"

  /** The 400 reply the handlers build for an error found locally. */
  function Bad(response: string, p: Params): (r: Reply)
    ensures r.isError && !r.changed
    ensures r.meta.JObject? && Get(r.meta.fields, "response") == Some(JStr(response))
  {
    var fields := [("status", JStr("400")), ("response", JStr(response)), ("data", ParamsJson(p))];
    assert fields[1..] == [("response", JStr(response)), ("data", ParamsJson(p))];
    Reply(true, false, JObject(fields))
  }

  /** `"results" in meta.keys() and len(meta["results"]) > 0`, then
      `meta["results"][0]`: None when there is no first result; a meta
      that is not a mapping has no `keys`. */
  function FirstResult(reply: Outcome<Reply>): (r: Outcome<Option<Json>>)
    ensures reply.Raises? ==> r.Raises?
    ensures reply.Ok? && reply.value.meta.JObject? && "results" !in Keys(reply.value.meta.fields) ==> r == Ok(None)
  {
    match reply
    case Raises(e) => Raises(e)
    case Ok(rep) =>
      if !rep.meta.JObject? then Raises("AttributeError: object has no attribute 'keys'")
      else
        match Get(rep.meta.fields, "results")
        case None => Ok(None)
        case Some(results) =>
          match results
          case JList(items) => if items == [] then Ok(None) else Ok(Some(items[0]))
          case JStr(s) => if s == [] then Ok(None) else Ok(Some(JStr([s[0]])))
          case JObject(fs) => if fs == [] then Ok(None) else Raises("KeyError: 0")
          case _ => Raises("TypeError: object has no len()")
  }

  /** `field` of the first result, None when there is no first result. */
  function FirstOf(reply: Outcome<Reply>, field: string): (r: Outcome<Option<Json>>)
    ensures FirstResult(reply) == Ok(None) ==> r == Ok(None)
    ensures r.Ok? && r.value.Some? ==> FirstResult(reply).Ok? && FirstResult(reply).value.Some?
  {
    match FirstResult(reply)
    case Raises(e) => Raises(e)
    case Ok(None) => Ok(None)
    case Ok(Some(first)) =>
      match Subscript(first, field)
      case Raises(e) => Raises(e)
      case Ok(v) => Ok(Some(v))
  }

  /** The IP space lookup by name, with the name in double quotes. */
  function SpaceEndpoint(space: string): string {
    "/api/ddi/v1/ipam/ip_space?_filter=name==\"" + space + "\""
  }

  /** A single host address: an address was recognised and no prefix
      was written after it. */
  predicate SingleHost(n: IpParts) {
    n.address != "" && n.prefix == JStr("")
  }

  /** The connector as the module calls it: every `connector.get(endpoint)`
      passes no `data`, so binding the call raises before any request;
      the other verbs reach `api`. */
  function AsCalled(api: Api): (r: Api)
    ensures forall e :: r(GetCall(e)) == Raises(GetArityError)
    ensures forall c: ApiCall :: !c.GetCall? ==> r(c) == api(c)
  {
    assert forall e: string :: BindGet([JStr(e)]) == Raises(GetArityError) by {
      forall e: string ensures BindGet([JStr(e)]) == Raises(GetArityError) {
        assert |[JStr(e)]| == 1;
      }
    }
    (c: ApiCall) =>
      if c.GetCall? then
        match BindGet([JStr(c.endpoint)])
        case Raises(e) => Raises(e)
        case Ok(_) => api(c)
      else api(c)
  }

  // ---------------------------------------------------------------------
  // get

  /** `get_ipv4_reservation`: the space is resolved first when given; an
      address must be a single host, checked before any address query. */
  function GetReservation(isIp: string -> bool, api: Api, p: Params): (r: Outcome<Reply>)
    ensures p.space.None? && p.address.Some? && !SingleHost(NormalizeIp(isIp, p.address.value, -1)) ==>
      r == Ok(Bad("Invalid Address", p))
    ensures p.space.None? && p.address.None? ==> r == api(GetCall(AddressBase))
    ensures p.space.Some? && FirstOf(api(GetCall(SpaceEndpoint(p.space.value))), "id") == Ok(None) ==>
      r == Ok(Bad("Error in fetching IP Space", p))
  {
    if p.space.Some? then
      match FirstOf(api(GetCall(SpaceEndpoint(p.space.value))), "id")
      case Raises(e) => Raises(e)
      case Ok(None) => Ok(Bad("Error in fetching IP Space", p))
      case Ok(Some(spaceRef)) =>
        if p.address.Some? then
          var n := NormalizeIp(isIp, p.address.value, -1);
          if SingleHost(n) then
            api(GetCall(AddressBase + "?_filter=space=='" + PyStr(spaceRef) + "' and address=='" + n.address + "'"))
          else Ok(Bad("Invalid Address", p))
        else api(GetCall(AddressBase + "?_filter=space=='" + PyStr(spaceRef) + "'"))
    else if p.address.Some? then
      var n := NormalizeIp(isIp, p.address.value, -1);
      if SingleHost(n) then api(GetCall(AddressBase + "?_filter=address=='" + n.address + "'"))
      else Ok(Bad("Invalid Address", p))
    else api(GetCall(AddressBase))
  }

  /** With a known space, an address that is not a single host is refused
      before the address is queried, whatever the service would answer. */
  lemma InvalidAddressInSpace(isIp: string -> bool, api: Api, p: Params, spaceRef: Json)
    requires p.space.Some? && p.address.Some? && !SingleHost(NormalizeIp(isIp, p.address.value, -1))
    requires FirstOf(api(GetCall(SpaceEndpoint(p.space.value))), "id") == Ok(Some(spaceRef))
    ensures GetReservation(isIp, api, p) == Ok(Bad("Invalid Address", p))
  {
  }

  /** A prefix written after the address ("10.0.0.1/24") is refused. */
  lemma PrefixedAddressRefused(isIp: string -> bool, api: Api, p: Params, a: string, b: string)
    requires p.space.None? && p.address == Some(a + "/" + b)
    requires '/' !in a && '/' !in b && b != "" && isIp(a)
    ensures GetReservation(isIp, api, p) == Ok(Bad("Invalid Address", p))
  {
    NormalizeIpSplits(isIp, a, b);
  }

  /** A plain address without a space queries the address filter. */
  lemma PlainAddressQueried(isIp: string -> bool, api: Api, p: Params, a: string)
    requires p.space.None? && p.address == Some(a) && a != "" && '/' !in a && isIp(a)
    ensures GetReservation(isIp, api, p) == api(GetCall(AddressBase + "?_filter=address=='" + a + "'"))
  {
    NormalizeIpPlain(isIp, a);
  }

  // ---------------------------------------------------------------------
  // payload

  /** `[{"name": data["name"], "type": "user"}]`: the name key is always
      present, so the list always has one element. */
  function Names(p: Params): Json {
    JList([JObject([("name", OptStr(p.name)), ("type", JStr("user"))])])
  }

  /** `flatten_dict_object("tags", data)` when tags is not None. */
  function TagsValue(p: Params): Outcome<Option<Json>> {
    if p.tags == JNull then Ok(None)
    else
      match Flattened("tags", [("tags", p.tags)])
      case Raises(e) => Raises(e)
      case Ok(d) => Ok(Some(JObject(d)))
  }

  /** The create or update body, in the order the module fills it. */
  function Payload(space: Option<Json>, address: string, p: Params): (r: Outcome<Dict>)
    ensures r.Ok? <==> TagsValue(p).Ok?
    ensures r.Ok? ==> Get(r.value, "address") == Some(JStr(address))
    ensures r.Ok? ==> Get(r.value, "names") == Some(Names(p)) && Get(r.value, "comment") == Some(OptStr(p.comment))
    ensures r.Ok? ==> Get(r.value, "space") == space
    ensures r.Ok? ==> Get(r.value, "tags") == TagsValue(p).value
    ensures r.Ok? ==>
      Keys(r.value) == {"address", "names", "comment"} + (if space.Some? then {"space"} else {}) + (if TagsValue(p).value.Some? then {"tags"} else {})
  {
    match TagsValue(p)
    case Raises(e) => Raises(e)
    case Ok(t) =>
      var head := if space.Some? then [("space", space.value)] else [];
      var body := [("address", JStr(address)), ("names", Names(p)), ("comment", OptStr(p.comment))];
      var tail := if t.Some? then [("tags", t.value)] else [];
      PayloadLookups(head, body, tail, space, address, p, t);
      Ok(head + body + tail)
  }

  lemma PayloadLookups(head: Dict, body: Dict, tail: Dict, space: Option<Json>, address: string, p: Params, t: Option<Json>)
    requires head == if space.Some? then [("space", space.value)] else []
    requires body == [("address", JStr(address)), ("names", Names(p)), ("comment", OptStr(p.comment))]
    requires tail == if t.Some? then [("tags", t.value)] else []
    ensures Get(head + body + tail, "address") == Some(JStr(address))
    ensures Get(head + body + tail, "names") == Some(Names(p))
    ensures Get(head + body + tail, "comment") == Some(OptStr(p.comment))
    ensures Get(head + body + tail, "space") == space
    ensures Get(head + body + tail, "tags") == t
    ensures Keys(head + body + tail) ==
      {"address", "names", "comment"} + (if space.Some? then {"space"} else {}) + (if t.Some? then {"tags"} else {})
  {
    assert "address"[0] != "space"[0] && "names"[0] != "space"[0] && "comment"[0] != "space"[0] && "tags"[0] != "space"[0];
    assert "names"[0] != "address"[0] && "comment"[0] != "address"[0] && "tags"[0] != "address"[0];
    assert "comment"[0] != "names"[0] && "tags"[0] != "names"[0] && "tags"[0] != "comment"[0];
    assert body[1..] == [("names", Names(p)), ("comment", OptStr(p.comment))];
    assert body[1..][1..] == [("comment", OptStr(p.comment))];
    assert body[1..][1..][1..] == [];
    assert Get(body, "names") == Some(Names(p));
    assert Get(body[1..][1..], "comment") == Some(OptStr(p.comment));
    assert Get(body[1..], "comment") == Some(OptStr(p.comment));
    assert Get(body, "comment") == Some(OptStr(p.comment));
    assert Keys(body[1..][1..]) == {"comment"};
    assert Keys(body[1..]) == {"names", "comment"};
    assert Keys(body) == {"address", "names", "comment"};
    assert Keys(head) == if space.Some? then {"space"} else {};
    assert Keys(tail) == if t.Some? then {"tags"} else {};
    GetAppend(head, body, "space");
    GetAppend(head + body, tail, "space");
    forall k | k in {"address", "names", "comment", "space", "tags"}
      ensures Get(head + body + tail, k) ==
        if k in Keys(head) then Get(head, k) else if k in Keys(body) then Get(body, k) else Get(tail, k)
    {
      GetAppend(head, body, k);
      GetAppend(head + body, tail, k);
    }
  }

  lemma PayloadKeysDistinct()
    ensures "address" !in {"space"} && "names" !in {"space", "address"}
    ensures "comment" !in {"space", "address", "names"} && "tags" !in {"space", "address", "names", "comment"}
  {
    assert "address"[0] != "space"[0] && "names"[0] != "space"[0] && "comment"[0] != "space"[0] && "tags"[0] != "space"[0];
    assert "names"[0] != "address"[0] && "comment"[0] != "address"[0] && "tags"[0] != "address"[0];
    assert "comment"[0] != "names"[0] && "tags"[0] != "names"[0] && "tags"[0] != "comment"[0];
  }

  /** The body filled field by field, as the module does. */
  method BuildPayload(space: Option<Json>, address: string, p: Params) returns (r: Outcome<Dict>)
    ensures r == Payload(space, address, p)
  {
    var payload: Dict := [];
    ghost var head: Dict := if space.Some? then [("space", space.value)] else [];
    if space.Some? {
      PutNew(payload, "space", space.value);
      payload := Put(payload, "space", space.value);
    }
    assert payload == head;
    assert Keys(head) <= {"space"} by {
      if space.Some? {
        assert head[1..] == [];
      }
    }
    PayloadKeysDistinct();
    PutNew(payload, "address", JStr(address));
    payload := Put(payload, "address", JStr(address));
    assert Keys(payload) <= {"space", "address"};
    PutNew(payload, "names", Names(p));
    payload := Put(payload, "names", Names(p));
    assert Keys(payload) <= {"space", "address", "names"};
    PutNew(payload, "comment", OptStr(p.comment));
    payload := Put(payload, "comment", OptStr(p.comment));
    ghost var body := [("address", JStr(address)), ("names", Names(p)), ("comment", OptStr(p.comment))];
    assert payload == head + body;
    var t := TagsValue(p);
    if t.Raises? {
      return Raises(t.error);
    }
    if t.value.Some? {
      assert Keys(payload) <= {"space", "address", "names", "comment"};
      PutNew(payload, "tags", t.value.value);
      payload := Put(payload, "tags", t.value.value);
    }
    assert payload == head + body + (if t.value.Some? then [("tags", t.value.value)] else []);
    r := Ok(payload);
  }

  // ---------------------------------------------------------------------
  // update

  /** `address[key]`, which `normalize_ip` then splits as text. */
  function AddressText(doc: Json, key: string): Outcome<string> {
    match Subscript(doc, key)
    case Raises(e) => Raises(e)
    case Ok(v) => if v.JStr? then Ok(v.s) else Raises("AttributeError: object has no attribute 'split'")
  }

  /** The second half of `update_ipv4_reservation`: find the reservation
      with `p` and write `newAddress` to it. */
  function UpdateWith(isIp: string -> bool, api: Api, p: Params, newAddress: string): (r: Outcome<Reply>)
    ensures FirstOf(GetReservation(isIp, api, p), "id") == Ok(None) ==>
      r == Ok(Bad("IPv4 address reservation not found", p))
    ensures FirstOf(GetReservation(isIp, api, p), "id").Raises? ==> r.Raises?
    ensures FirstOf(GetReservation(isIp, api, p), "id").Ok? && FirstOf(GetReservation(isIp, api, p), "id").value.Some? ==>
      var id := FirstOf(GetReservation(isIp, api, p), "id").value.value;
      (Payload(None, newAddress, p).Raises? ==> r.Raises?) &&
      (Payload(None, newAddress, p).Ok? ==> r == api(UpdateCall(ApiRoot + PyStr(id), Payload(None, newAddress, p).value)))
  {
    match FirstOf(GetReservation(isIp, api, p), "id")
    case Raises(e) => Raises(e)
    case Ok(None) => Ok(Bad("IPv4 address reservation not found", p))
    case Ok(Some(refId)) =>
      match Payload(None, newAddress, p)
      case Raises(e) => Raises(e)
      case Ok(payload) => api(UpdateCall(ApiRoot + PyStr(refId), payload))
  }

  /** Whether the address text names both "new_address" and "old_address". */
  predicate Renames(a: string) {
    IsSubstring("new_address", a) && IsSubstring("old_address", a)
  }

  /** `update_ipv4_reservation`: a JSON text naming an old and a new
      address looks the reservation up by the old one; otherwise the
      address is both key and new value. A missing address cannot be
      searched for the key names and raises. */
  function UpdateReservation(isIp: string -> bool, jsonLoads: string -> Option<Json>, api: Api, p: Params): (r: Outcome<Reply>)
    ensures p.address.None? ==> r.Raises?
    ensures p.address.Some? && Renames(p.address.value) && jsonLoads(p.address.value).None? ==>
      r == Ok(Bad("Invalid Syntax", p))
    ensures p.address.Some? && !Renames(p.address.value) ==>
      r == UpdateWith(isIp, api, p, NormalizeIp(isIp, p.address.value, -1).address)
  {
    if p.address.None? then Raises("TypeError: argument of type 'NoneType' is not iterable")
    else
      var a := p.address.value;
      if Renames(a) then
        match jsonLoads(a)
        case None => Ok(Bad("Invalid Syntax", p))
        case Some(doc) =>
          match AddressText(doc, "new_address")
          case Raises(e) => Raises(e)
          case Ok(newText) =>
            match AddressText(doc, "old_address")
            case Raises(e) => Raises(e)
            case Ok(oldText) =>
              var previous := NormalizeIp(isIp, oldText, -1);
              UpdateWith(isIp, api, p.(address := Some(previous.address)), NormalizeIp(isIp, newText, -1).address)
      else UpdateWith(isIp, api, p, NormalizeIp(isIp, a, -1).address)
  }

  /** A rename looks the reservation up under the old address and writes
      the new one. */
  lemma UpdateRenames(isIp: string -> bool, jsonLoads: string -> Option<Json>, api: Api, p: Params, oldText: string, newText: string)
    requires p.address.Some? && Renames(p.address.value)
    requires jsonLoads(p.address.value) == Some(JObject([("new_address", JStr(newText)), ("old_address", JStr(oldText))]))
    ensures UpdateReservation(isIp, jsonLoads, api, p) ==
      UpdateWith(isIp, api, p.(address := Some(NormalizeIp(isIp, oldText, -1).address)), NormalizeIp(isIp, newText, -1).address)
  {
    var doc := JObject([("new_address", JStr(newText)), ("old_address", JStr(oldText))]);
    PairDict("new_address", JStr(newText), "old_address", JStr(oldText));
    assert "old_address"[0] != "new_address"[0];
    assert AddressText(doc, "new_address") == Ok(newText);
    assert AddressText(doc, "old_address") == Ok(oldText);
  }

  // ---------------------------------------------------------------------
  // create

  /** How a step of the next-available resolution ends: an error reply, or
      the address to reserve. */
  datatype Step = Done(reply: Reply) | Next(address: string)

  /** `json.loads(address)["next_available_ip"]["subnet"]`, split by
      `normalize_ip`; None when any part of it fails. */
  function SubnetParts(isIp: string -> bool, jsonLoads: string -> Option<Json>, a: string): (o: Option<IpParts>)
    ensures jsonLoads(a).None? ==> o.None?
    ensures o.Some? ==> o.value.address == "" || isIp(o.value.address)
    ensures o.Some? ==> o.value.prefix.JStr?
  {
    match jsonLoads(a)
    case None => None
    case Some(doc) =>
      match Subscript(doc, "next_available_ip")
      case Raises(_) => None
      case Ok(n) =>
        match Subscript(n, "subnet")
        case Raises(_) => None
        case Ok(subnet) => if subnet.JStr? then Some(NormalizeIp(isIp, subnet.s, -1)) else None
  }

  /** The subnet query: space and address quoted, cidr unquoted. */
  function SubnetEndpoint(spaceRef: Json, n: IpParts): string {
    "/api/ddi/v1/ipam/subnet?_filter=space=='" + PyStr(spaceRef) + "' and address=='" + n.address + "' and cidr==" + PyStr(n.prefix)
  }

  /** The next-available branch of `create_ipv4_reservation`: the subnet
      "a.b.c.d/e" is read from the JSON text, the space and the subnet are
      resolved, and the subnet's next available address is taken. */
  function NextAvailable(isIp: string -> bool, jsonLoads: string -> Option<Json>, api: Api, p: Params): (r: Outcome<Step>)
    requires p.space.Some? && p.address.Some?
    ensures SubnetParts(isIp, jsonLoads, p.address.value).None? ==> r == Ok(Done(Bad("Invalid Syntax", p)))
    ensures r.Ok? && r.value.Done? ==> r.value.reply.isError
  {
    match SubnetParts(isIp, jsonLoads, p.address.value)
    case None => Ok(Done(Bad("Invalid Syntax", p)))
    case Some(pd) =>
      match FirstOf(api(GetCall(SpaceEndpoint(p.space.value))), "id")
      case Raises(e) => Raises(e)
      case Ok(None) => Ok(Done(Bad("Error in fetching IP Space", p)))
      case Ok(Some(spaceRef)) =>
        if !(pd.address != "" && pd.prefix != JStr("")) then
          Ok(Done(Bad("Invalid syntax for subnet. It should be in the form of a.b.c.d/e", p)))
        else
          match FirstOf(api(GetCall(SubnetEndpoint(spaceRef, pd))), "id")
          case Raises(e) => Raises(e)
          case Ok(None) => Ok(Done(Bad("Error in fetching Subnet", p)))
          case Ok(Some(subnetRef)) =>
            match FirstOf(api(GetCall(ApiRoot + PyStr(subnetRef) + "/nextavailableip")), "address")
            case Raises(e) => Raises(e)
            case Ok(None) => Ok(Done(Bad("Error in fetching Next Available IP", p)))
            case Ok(Some(address)) =>
              if address.JStr? then Ok(Next(address.s)) else Raises("TypeError: address is not text")
  }

  /** A subnet without "/e" is refused once the space is known. */
  lemma NextAvailableNeedsPrefix(isIp: string -> bool, jsonLoads: string -> Option<Json>, api: Api, p: Params, spaceRef: Json)
    requires p.space.Some? && p.address.Some?
    requires SubnetParts(isIp, jsonLoads, p.address.value).Some?
    requires SubnetParts(isIp, jsonLoads, p.address.value).value.prefix == JStr("")
    requires FirstOf(api(GetCall(SpaceEndpoint(p.space.value))), "id") == Ok(Some(spaceRef))
    ensures NextAvailable(isIp, jsonLoads, api, p) ==
      Ok(Done(Bad("Invalid syntax for subnet. It should be in the form of a.b.c.d/e", p)))
  {
  }

  /** The upsert: an existing reservation is updated, otherwise the space
      is resolved and a reservation is posted. */
  function Upsert(isIp: string -> bool, jsonLoads: string -> Option<Json>, api: Api, p: Params): (r: Outcome<Reply>)
    requires p.space.Some? && p.address.Some?
  {
    var a := p.address.value;
    if IsSubstring("new_address", a) then UpdateReservation(isIp, jsonLoads, api, p)
    else
      match FirstResult(GetReservation(isIp, api, p))
      case Raises(e) => Raises(e)
      case Ok(Some(_)) => UpdateReservation(isIp, jsonLoads, api, p)
      case Ok(None) =>
        match FirstOf(api(GetCall(SpaceEndpoint(p.space.value))), "id")
        case Raises(e) => Raises(e)
        case Ok(None) => Ok(Bad("Error in fetching IP Space", p))
        case Ok(Some(spaceId)) =>
          match Payload(Some(spaceId), NormalizeIp(isIp, a, -1).address, p)
          case Raises(e) => Raises(e)
          case Ok(payload) => api(CreateCall(AddressBase, payload))
  }

  /** `create_ipv4_reservation`: space and address are both required; a
      next-available request is resolved to an address first, which then
      replaces the address parameter. */
  function CreateReservation(isIp: string -> bool, jsonLoads: string -> Option<Json>, api: Api, p: Params): (r: Outcome<Reply>)
    ensures p.space.None? || p.address.None? ==> r == Ok(Bad("Address or IP Space not defined", p))
  {
    if p.space.None? || p.address.None? then Ok(Bad("Address or IP Space not defined", p))
    else if IsSubstring("next_available_ip", p.address.value) then
      match NextAvailable(isIp, jsonLoads, api, p)
      case Raises(e) => Raises(e)
      case Ok(Done(reply)) => Ok(reply)
      case Ok(Next(address)) => Upsert(isIp, jsonLoads, api, p.(address := Some(address)))
    else Upsert(isIp, jsonLoads, api, p)
  }

  /** Create on an existing reservation delegates to update. */
  lemma CreateUpdatesExisting(isIp: string -> bool, jsonLoads: string -> Option<Json>, api: Api, p: Params, first: Json)
    requires p.space.Some? && p.address.Some?
    requires !IsSubstring("next_available_ip", p.address.value) && !IsSubstring("new_address", p.address.value)
    requires FirstResult(GetReservation(isIp, api, p)) == Ok(Some(first))
    ensures CreateReservation(isIp, jsonLoads, api, p) == UpdateReservation(isIp, jsonLoads, api, p)
  {
  }

  /** Create without a match posts the space id, the address, the names,
      the comment and the flattened tags. */
  lemma CreatePostsNew(isIp: string -> bool, jsonLoads: string -> Option<Json>, api: Api, p: Params, spaceId: Json)
    requires p.space.Some? && p.address.Some?
    requires !IsSubstring("next_available_ip", p.address.value) && !IsSubstring("new_address", p.address.value)
    requires FirstResult(GetReservation(isIp, api, p)) == Ok(None)
    requires FirstOf(api(GetCall(SpaceEndpoint(p.space.value))), "id") == Ok(Some(spaceId))
    requires TagsValue(p).Ok?
    ensures var payload := Payload(Some(spaceId), NormalizeIp(isIp, p.address.value, -1).address, p).value;
      && CreateReservation(isIp, jsonLoads, api, p) == api(CreateCall(AddressBase, payload))
      && Get(payload, "space") == Some(spaceId)
      && Get(payload, "address") == Some(JStr(NormalizeIp(isIp, p.address.value, -1).address))
  {
  }

  // ---------------------------------------------------------------------
  // delete

  /** `delete_ipv4_reservation`. */
  function DeleteReservation(isIp: string -> bool, api: Api, p: Params): (r: Outcome<Reply>)
    ensures p.space.None? || p.address.None? ==> r == Ok(Bad("Address or IP Space not defined", p))
    ensures p.space.Some? && p.address.Some? && NormalizeIp(isIp, p.address.value, -1).address == "" ==>
      r == Ok(Bad("Incorrect address definition", p))
    ensures (p.space.Some? && p.address.Some? && NormalizeIp(isIp, p.address.value, -1).address != "" &&
             FirstOf(GetReservation(isIp, api, p), "id") == Ok(None)) ==> r == Ok(Bad("Object not found", p))
  {
    if p.space.None? || p.address.None? then Ok(Bad("Address or IP Space not defined", p))
    else if NormalizeIp(isIp, p.address.value, -1).address == "" then Ok(Bad("Incorrect address definition", p))
    else
      match FirstOf(GetReservation(isIp, api, p), "id")
      case Raises(e) => Raises(e)
      case Ok(None) => Ok(Bad("Object not found", p))
      case Ok(Some(id)) => api(DeleteCall(ApiRoot + PyStr(id)))
  }

  /** A found reservation is deleted by its id. */
  lemma DeleteById(isIp: string -> bool, api: Api, p: Params, id: Json)
    requires p.space.Some? && p.address.Some? && NormalizeIp(isIp, p.address.value, -1).address != ""
    requires FirstOf(GetReservation(isIp, api, p), "id") == Ok(Some(id))
    ensures DeleteReservation(isIp, api, p) == api(DeleteCall(ApiRoot + PyStr(id)))
  {
  }

  // ---------------------------------------------------------------------
  // main

  /** The handler `state` selects: present creates, get reads, absent
      deletes; the framework admits no other state. */
  function Handle(isIp: string -> bool, jsonLoads: string -> Option<Json>, api: Api, p: Params): Outcome<Reply>
    requires p.state == "present" || p.state == "get" || p.state == "absent"
  {
    if p.state == "present" then CreateReservation(isIp, jsonLoads, api, p)
    else if p.state == "get" then GetReservation(isIp, api, p)
    else DeleteReservation(isIp, api, p)
  }

  function ReservationMain(isIp: string -> bool, jsonLoads: string -> Option<Json>, api: Api, p: Params): (r: ModuleResult)
    requires p.state == "present" || p.state == "get" || p.state == "absent"
    ensures r.Crash? <==> Handle(isIp, jsonLoads, api, p).Raises?
    ensures r.Fail? <==> Handle(isIp, jsonLoads, api, p).Ok? && Handle(isIp, jsonLoads, api, p).value.isError
    ensures r.Exit? ==> r.changed == Handle(isIp, jsonLoads, api, p).value.changed
  {
    match Handle(isIp, jsonLoads, api, p)
    case Raises(e) => Crash(e)
    case Ok(reply) => Finish(reply.isError, reply.changed, reply.meta)
  }

  /** As written, a lookup never reaches the service: it refuses the
      address locally or raises the arity error of its first GET. */
  lemma GetReservationAsWritten(isIp: string -> bool, api: Api, p: Params)
    ensures GetReservation(isIp, AsCalled(api), p) ==
      if p.space.None? && p.address.Some? && !SingleHost(NormalizeIp(isIp, p.address.value, -1))
      then Ok(Bad("Invalid Address", p))
      else Raises(GetArityError)
  {
  }

  /** As written, the service's answers never matter: two services give
      every run the same outcome, since each run stops at its first GET
      or before it, and so never creates, updates or deletes. */
  lemma RunAsWrittenIgnoresService(isIp: string -> bool, jsonLoads: string -> Option<Json>, api1: Api, api2: Api, p: Params)
    requires p.state == "present" || p.state == "get" || p.state == "absent"
    ensures Handle(isIp, jsonLoads, AsCalled(api1), p) == Handle(isIp, jsonLoads, AsCalled(api2), p)
  {
    GetReservationAsWritten(isIp, api1, p);
    GetReservationAsWritten(isIp, api2, p);
  }

  /** Every locally detected error fails the module. */
  lemma MissingSpaceFails(isIp: string -> bool, jsonLoads: string -> Option<Json>, api: Api, p: Params)
    requires p.state == "present" || p.state == "absent"
    requires p.space.None?
    ensures ReservationMain(isIp, jsonLoads, api, p) == Fail("Operation failed", [("meta", Bad("Address or IP Space not defined", p).meta)])
  {
  }
}
