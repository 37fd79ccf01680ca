/** The reconciler that every CRUD resource module repeats (dns_view,
    ipam_ip_space, ipam_subnet, ipam_address_block, dns_auth_zone,
    dns_auth_nsg, ipam_address, ipam_host, dns_forward_zone,
    dns_delegation, infra_join_token): the module finds the object by id or
    by an identity filter, decides between create, update, delete and
    nothing from (state, found, changed), stops early in check mode, and
    reports the object, a diff and the object id.

    The modules differ only in the data a `Resource` selects here: the
    name in messages, the identity filter, the read-only fields, the state
    that removes the object, and the address-block extras (the
    "a.b.c.d/n" split, the cleared DHCP fields, the next-available
    address). The vendor client is a `Service` oracle. */
module Reconciler {
  import opened Json
  import opened ModuleUtils
  import opened Ansible
  import opened Filters

  datatype Resource =
    | View | IpSpace | Subnet | AddressBlock | AuthZone | AuthNsg
    | Address | IpamHost | ForwardZone | Delegation | JoinToken

  /** The object name in the module's messages. */
  function Kind(r: Resource): string {
    match r
    case View => "View"
    case IpSpace => "IpSpace"
    case Subnet => "Subnet"
    case AddressBlock => "AddressBlock"
    case AuthZone => "AuthZone"
    case AuthNsg => "AuthNsg"
    case Address => "Address"
    case IpamHost => "IpamHost"
    case ForwardZone => "ForwardZone"
    case Delegation => "Delegation"
    case JoinToken => "JoinToken"
  }

  /** The name in the multiple-match message: the join-token module says "View". */
  function MatchKind(r: Resource): string {
    if r == JoinToken then "View" else Kind(r)
  }

  /** The state that removes the object, and under which a missing id is
      tolerated. */
  function RemoveState(r: Resource): string {
    if r == JoinToken then "revoked" else "absent"
  }

  /** The fields `validate_readonly_on_update` guards before an update:
      always fields of the payload, never the parameters it excludes. */
  function ReadonlyFields(r: Resource): (fs: seq<string>)
    ensures forall f :: f in fs ==> f !in Excluded(r)
  {
    match r
    case AddressBlock => ["address", "space", "cidr"]
    case AuthZone => ["fqdn", "primary_type"]
    case ForwardZone => ["fqdn"]
    case Delegation => ["fqdn", "view"]
    case JoinToken => ["name", "description"]
    case _ => []
  }

  /** The parameters that never enter the payload. */
  function Excluded(r: Resource): seq<string> {
    if r == AddressBlock then ["state", "csp_url", "api_key", "id", "next_available_id"]
    else ["state", "csp_url", "api_key", "id"]
  }

  /** The parameter that names the object in its identity filter. */
  function IdentityKey(r: Resource): string {
    match r
    case Subnet => "address"
    case AddressBlock => "address"
    case Address => "address"
    case AuthZone => "fqdn"
    case ForwardZone => "fqdn"
    case Delegation => "fqdn"
    case _ => "name"
  }

  /** The list filter that identifies the object; None when the address
      block has no address (it is then always created). The subnet quotes
      its cidr, the address block does not. */
  function IdentityFilter(r: Resource, params: Dict): (f: Option<string>)
    ensures f.None? <==> r == AddressBlock && Attr(params, "address") == JNull
    ensures f.Some? ==> QuotedClause(IdentityKey(r), Attr(params, IdentityKey(r))) <= f.value
  {
    match r
    case Subnet =>
      Some(QuotedClause("address", Attr(params, "address")) + " and " + QuotedClause("space", Attr(params, "space")) +
           " and " + QuotedClause("cidr", Attr(params, "cidr")))
    case AddressBlock =>
      if Attr(params, "address") == JNull then None
      else Some(QuotedClause("address", Attr(params, "address")) + " and " + QuotedClause("space", Attr(params, "space")) +
                " and cidr==" + PyStr(Attr(params, "cidr")))
    case Address =>
      Some(QuotedClause("address", Attr(params, "address")) + " and " + QuotedClause("space", Attr(params, "space")))
    case AuthZone => Some(QuotedClause("fqdn", Attr(params, "fqdn")))
    case ForwardZone => Some(QuotedClause("fqdn", Attr(params, "fqdn")))
    case Delegation => Some(QuotedClause("fqdn", Attr(params, "fqdn")))
    case _ => Some(QuotedClause("name", Attr(params, "name")))
  }

  // ---------------------------------------------------------------------
  // The vendor client, as an oracle.

  /** An `ApiException`; `notFound` marks its `NotFoundException` subclass. */
  datatype ApiError = ApiError(notFound: bool, status: int, reason: string, body: string)

  datatype Answer<T> = Done(value: T) | Error(error: ApiError)

  /** The resource's API: read by id, list by filter (the page may be
      null), create, update by id, delete by id. Objects are their dumps
      without None fields. */
  datatype Service = Service(
    read: Json -> Answer<Dict>,
    list: string -> Answer<Option<seq<Dict>>>,
    create: Dict -> Answer<Dict>,
    update: (Json, Dict) -> Answer<Dict>,
    delete: Json -> Answer<bool>)

  function FailMessage(e: ApiError): string {
    "Failed to execute command: " + IntToString(e.status) + " " + e.reason + " " + e.body
  }

  /** The multiple-match message; the results' repr is abstracted by `PyStr`. */
  function MultipleMessage(r: Resource, results: seq<Dict>): string {
    "Found multiple " + MatchKind(r) + ": " + PyStr(JList(seq(|results|, i requires 0 <= i < |results| => JObject(results[i]))))
  }

  const NoLenError: string := "TypeError: object of type 'NoneType' has no len()"
  const CompareError: string := "TypeError: the payload cannot be compared with the existing object"

  // ---------------------------------------------------------------------
  // Parameters and payload.

  /** `{k: v for k, v in params.items() if v is not None and k not in exclude}`. */
  function PayloadParams(params: Dict, exclude: seq<string>): (pp: Dict)
    ensures |pp| <= |params|
    ensures forall i :: 0 <= i < |pp| ==> pp[i] in params && pp[i].1 != JNull && pp[i].0 !in exclude
    decreases |params|
  {
    if params == [] then []
    else (if params[0].1 == JNull || params[0].0 in exclude then [] else [params[0]]) + PayloadParams(params[1..], exclude)
  }

  /** The address block's payload object with the three unsupported DHCP
      attributes set to None. */
  function ClearDhcp(payload: Dict): Dict {
    match Get(payload, "dhcp_config")
    case Some(JObject(fs)) =>
      Put(payload, "dhcp_config",
          JObject(Put(Put(Put(fs, "abandoned_reclaim_time", JNull), "abandoned_reclaim_time_v6", JNull), "echo_client_id", JNull)))
    case _ => payload
  }

  function InitialPayload(r: Resource, payloadParams: Dict): Dict {
    if r == AddressBlock then ClearDhcp(payloadParams) else payloadParams
  }

  /** The body `create` sends: in next-available mode the address block's
      address becomes "<id>/nextavailableaddressblock". */
  function CreateBody(r: Resource, params: Dict, payload: Dict): Dict {
    if r == AddressBlock && Attr(params, "next_available_id") != JNull then
      Put(payload, "address", JStr(PyStr(Attr(params, "next_available_id")) + "/nextavailableaddressblock"))
    else payload
  }

  /** The whitespace `int` ignores around its argument (its ASCII part). */
  predicate IsSpace(c: char) {
    c == ' ' || c == '\t' || c == '\n' || c == '\r' || c == 11 as char || c == 12 as char
  }

  /** `s` without its leading whitespace. */
  function TrimStart(s: string): (r: string)
    ensures r == [] || !IsSpace(r[0])
    ensures |r| <= |s|
    decreases |s|
  {
    if s != [] && IsSpace(s[0]) then TrimStart(s[1..]) else s
  }

  /** `s` without its trailing whitespace. */
  function TrimEnd(s: string): (r: string)
    ensures r == [] || !IsSpace(r[|r| - 1])
    ensures |r| <= |s|
    decreases |s|
  {
    if s != [] && IsSpace(s[|s| - 1]) then TrimEnd(s[..|s| - 1]) else s
  }

  /** Decimal digits, grouped by single underscores between them. */
  predicate IsDigitGroups(s: string)
    decreases |s|
  {
    && s != [] && IsDigit(s[0])
    && (|s| == 1 || if s[1] == '_' then IsDigitGroups(s[2..]) else IsDigitGroups(s[1..]))
  }

  /** The digits of a grouped number, underscores dropped. */
  function Ungrouped(s: string): (r: string)
    ensures '_' !in r
    decreases |s|
  {
    if s == [] then [] else (if s[0] == '_' then [] else [s[0]]) + Ungrouped(s[1..])
  }

  /** A plain digit string has no whitespace to strip and no underscores to drop. */
  lemma {:induction false} DigitStringParses(s: string)
    requires IsDigitString(s)
    ensures TrimStart(s) == s && TrimEnd(s) == s
    ensures IsDigitGroups(s) && Ungrouped(s) == s
    decreases |s|
  {
    assert IsDigit(s[0]) && IsDigit(s[|s| - 1]);
    if |s| > 1 {
      assert IsDigitString(s[1..]) by {
        assert forall i :: 0 <= i < |s| - 1 ==> s[1..][i] == s[i + 1];
      }
      DigitStringParses(s[1..]);
      assert s[1] == s[1..][0];
    } else {
      assert s[1..] == [];
    }
  }

  /** `int(s)` in base 10: surrounding whitespace is ignored, then an
      optional sign, then digits grouped by single underscores; None for
      any other text, which `int` rejects with ValueError. */
  function ParseInt(s: string): Option<int> {
    ParseSigned(TrimEnd(TrimStart(s)))
  }

  /** `int` of text already stripped of whitespace. */
  function ParseSigned(t: string): Option<int> {
    var signed := t != [] && (t[0] == '+' || t[0] == '-');
    var body := if signed then t[1..] else t;
    if !IsDigitGroups(body) then None
    else
      var n: int := DigitsValue(Ungrouped(body));
      if signed && t[0] == '-' then Some(-n) else Some(n)
  }

  /** The value of a decimal digit string. */
  function DigitsValue(s: string): nat
    decreases |s|
  {
    if s == [] then 0
    else
      var d := s[|s| - 1] as int - '0' as int;
      DigitsValue(s[..|s| - 1]) * 10 + (if 0 <= d < 10 then d else 0)
  }

  /** The address block's constructor: "a.b.c.d/n" becomes address
      "a.b.c.d" and cidr `int(n)`; a second "/" or an n that `int` rejects
      raises. */
  function SplitAddress(params: Dict): (r: Outcome<Dict>)
    ensures !(Attr(params, "address").JStr? && '/' in Attr(params, "address").s) ==> r == Ok(params)
    ensures r.Ok? && Attr(r.value, "address").JStr? ==> '/' !in Attr(r.value, "address").s
    ensures r.Ok? ==> forall k :: k != "address" && k != "cidr" ==> Attr(r.value, k) == Attr(params, k)
    ensures r.Raises? ==>
      r.error == "ValueError: too many values to unpack (expected 2)" || r.error == "ValueError: invalid literal for int() with base 10"
  {
    match Attr(params, "address")
    case JStr(a) =>
      if '/' !in a then Ok(params)
      else
        var parts := Split(a, '/');
        if |parts| != 2 then Raises("ValueError: too many values to unpack (expected 2)")
        else (match ParseInt(parts[1])
          case None => Raises("ValueError: invalid literal for int() with base 10")
          case Some(n) =>
            var split := Put(Put(params, "address", JStr(parts[0])), "cidr", JInt(n));
            assert Attr(split, "address") == JStr(parts[0]) by {
              AttrPut(params, "address", JStr(parts[0]), "address");
              AttrPut(Put(params, "address", JStr(parts[0])), "cidr", JInt(n), "address");
            }
            assert forall k :: k != "address" && k != "cidr" ==> Attr(split, k) == Attr(params, k) by {
              forall k | k != "address" && k != "cidr"
                ensures Attr(split, k) == Attr(params, k)
              {
                AttrPut(params, "address", JStr(parts[0]), k);
                AttrPut(Put(params, "address", JStr(parts[0])), "cidr", JInt(n), k);
              }
            }
            Ok(split))
    case _ => Ok(params)
  }

  /** The parameters the module works with, after its constructor. */
  function ModuleParams(r: Resource, raw: Dict): Outcome<Dict> {
    if r == AddressBlock then SplitAddress(raw) else Ok(raw)
  }

  // ---------------------------------------------------------------------
  // The specification of one run.

  datatype Found =
    | Located(existing: Option<Dict>)
    | Ambiguous(results: seq<Dict>)
    | FindFailed(error: ApiError)
    | FindCrashed(crash: string)

  /** `find`: by id (a missing object is tolerated only in the removing
      state), else by the identity filter: one match is the object, none
      is None, more fail. Only the join-token module reads a null page as
      empty. */
  function FindSpec(r: Resource, params: Dict, svc: Service): (f: Found)
    ensures Attr(params, "id") != JNull ==> f.Located? || f.FindFailed?
    ensures Attr(params, "id") != JNull && f == Located(None) ==> Attr(params, "state") == JStr(RemoveState(r))
    ensures f.Ambiguous? ==> |f.results| > 1
    ensures f.FindCrashed? ==> r != JoinToken && f.crash == NoLenError
  {
    var id := Attr(params, "id");
    if id != JNull then
      match svc.read(id)
      case Done(x) => Located(Some(x))
      case Error(e) =>
        if e.notFound && Attr(params, "state") == JStr(RemoveState(r)) then Located(None) else FindFailed(e)
    else match IdentityFilter(r, params)
      case None => Located(None)
      case Some(f) =>
        match svc.list(f)
        case Error(e) => FindFailed(e)
        case Done(page) =>
          if page.None? && r != JoinToken then FindCrashed(NoLenError)
          else
            var rs := if page.None? then [] else page.value;
            if |rs| == 1 then Located(Some(rs[0]))
            else if |rs| > 1 then Ambiguous(rs)
            else Located(None)
  }

  /** What the state branch of `run_command` did: the item it got back,
      the `changed` flag and message it set, or how it stopped. */
  datatype Acted =
    | Acted(item: Dict, changed: bool, msg: Option<string>)
    | ActFailed(error: ApiError)
    | ActRejected(field: string)
    | ActCrashed(crash: string)

  predicate AlreadyRevoked(r: Resource, existing: Dict) {
    r == JoinToken && Attr(existing, "status") == JStr("REVOKED")
  }

  function RemovedMessage(r: Resource): string {
    if r == JoinToken then "JoinToken Revoked" else Kind(r) + " deleted"
  }

  /** The state branch: create when present and missing; update when
      present, found and changed; remove when in the removing state and
      found (a join token already revoked is left alone); else nothing.
      In check mode no write is made. */
  function ActSpec(r: Resource, params: Dict, checkMode: bool, svc: Service, existing: Option<Dict>): (a: Acted)
    ensures checkMode ==> !a.ActFailed? && !a.ActRejected? && (a.Acted? ==> a.item == [])
    ensures a.Acted? && a.changed ==> a.msg.Some?
    ensures a.ActRejected? ==> a.field in ReadonlyFields(r)
    ensures a.ActCrashed? ==> a.crash == CompareError
    ensures Attr(params, "state") != JStr("present") && Attr(params, "state") != JStr(RemoveState(r)) ==> a == Acted([], false, None)
  {
    var state := Attr(params, "state");
    var pp := PayloadParams(params, Excluded(r));
    var payload := InitialPayload(r, pp);
    if state == JStr("present") && existing.None? then
      if checkMode then Acted([], true, Some(Kind(r) + " created"))
      else match svc.create(CreateBody(r, params, payload))
        case Done(item) => Acted(item, true, Some(Kind(r) + " created"))
        case Error(e) => ActFailed(e)
    else if state == JStr("present") && existing.Some? then
      match Changes(JObject(existing.value), JObject(pp))
      case Raised => ActCrashed(CompareError)
      case Unchanged => Acted([], false, None)
      case Changed =>
        if checkMode then Acted([], true, Some(Kind(r) + " updated"))
        else match Guard(existing.value, payload, ReadonlyFields(r))
          case Rejected(f) => ActRejected(f)
          case Cleared(body) =>
            match svc.update(Attr(existing.value, "id"), body)
            case Done(item) => Acted(item, true, Some(Kind(r) + " updated"))
            case Error(e) => ActFailed(e)
    else if state == JStr(RemoveState(r)) && existing.Some? then
      if AlreadyRevoked(r, existing.value) then Acted([], false, Some("JoinToken Revoked"))
      else if checkMode then Acted([], true, Some(RemovedMessage(r)))
      else match svc.delete(Attr(existing.value, "id"))
        case Done(_) => Acted([], true, Some(RemovedMessage(r)))
        case Error(e) => ActFailed(e)
    else Acted([], false, None)
  }

  const InitialResult: Dict := [("changed", JBool(false)), ("object", JObject([])), ("id", JNull)]

  /** The reported id: the existing object's, else the new item's, else None. */
  function ResultId(existing: Option<Dict>, item: Dict): Json {
    if existing.Some? then Attr(existing.value, "id")
    else if item != [] && "id" in Keys(item) then Get(item, "id").value
    else JNull
  }

  /** The end of `run_command`: check mode exits with only changed, msg,
      an empty object and no id; otherwise diff, object and id follow. */
  function Reported(checkMode: bool, existing: Option<Dict>, a: Acted): ModuleResult {
    match a
    case ActFailed(e) => Fail(FailMessage(e), [])
    case ActRejected(f) => Fail(f + " cannot be updated", [])
    case ActCrashed(m) => Crash(m)
    case Acted(item, changed, msg) =>
      var res := if msg.Some? then Put(Put(InitialResult, "changed", JBool(changed)), "msg", JStr(msg.value)) else InitialResult;
      if checkMode then Exit(changed, res)
      else
        var before := if existing.Some? then JObject(existing.value) else JObject([]);
        Exit(changed, Put(Put(Put(res, "diff", JObject([("before", before), ("after", JObject(item))])),
                              "object", JObject(item)), "id", ResultId(existing, item)))
  }

  /** `run_command` on the module's parameters. */
  function RunSpec(r: Resource, params: Dict, checkMode: bool, svc: Service): (m: ModuleResult)
    ensures m.Crash? ==> m.error == NoLenError || m.error == CompareError
    ensures !FindSpec(r, params, svc).Located? ==> !m.Exit?
    ensures m.Exit? && m.changed ==> "msg" in Keys(m.result)
  {
    match FindSpec(r, params, svc)
    case FindCrashed(m) => Crash(m)
    case Ambiguous(rs) => Fail(MultipleMessage(r, rs), [])
    case FindFailed(e) => Fail(FailMessage(e), [])
    case Located(existing) => Reported(checkMode, existing, ActSpec(r, params, checkMode, svc, existing))
  }

  /** A whole module run: the constructor, then `run_command`. */
  function Reconcile(r: Resource, raw: Dict, checkMode: bool, svc: Service): (m: ModuleResult)
    ensures r != AddressBlock ==> m == RunSpec(r, raw, checkMode, svc)
    ensures SplitAddress(raw).Raises? && r == AddressBlock ==> m == Crash(SplitAddress(raw).error)
  {
    match ModuleParams(r, raw)
    case Raises(e) => Crash(e)
    case Ok(params) => RunSpec(r, params, checkMode, svc)
  }

  // ---------------------------------------------------------------------
  // The module object, as the source runs it.

  /** Whether `update` was skipped (check mode), refused by the read-only
      guard, or sent. */
  datatype Write = Skipped | Refused(field: string) | Sent(answer: Answer<Dict>)

  /** Sets the three unsupported DHCP attributes of the payload to None. */
  method ClearDhcpConfig(payload: ModelObject)
    modifies payload
    ensures payload.attrs == ClearDhcp(old(payload.attrs))
  {
    var dhcp := Get(payload.attrs, "dhcp_config");
    if dhcp.Some? && dhcp.value.JObject? {
      var fs := dhcp.value.fields;
      fs := Put(fs, "abandoned_reclaim_time", JNull);
      fs := Put(fs, "abandoned_reclaim_time_v6", JNull);
      fs := Put(fs, "echo_client_id", JNull);
      payload.attrs := Put(payload.attrs, "dhcp_config", JObject(fs));
    }
  }

  class ResourceModule {
    const resource: Resource
    const params: Dict
    const checkMode: bool
    const payloadParams: Dict
    const payload: ModelObject
    var existing: Option<Dict>

    /** The module's constructor, after the address block's split. */
    constructor (resource: Resource, params: Dict, checkMode: bool)
      ensures this.resource == resource && this.params == params && this.checkMode == checkMode
      ensures payloadParams == PayloadParams(params, Excluded(resource))
      ensures fresh(payload) && payload.attrs == InitialPayload(resource, payloadParams)
      ensures existing.None?
    {
      this.resource := resource;
      this.params := params;
      this.checkMode := checkMode;
      payloadParams := PayloadParams(params, Excluded(resource));
      payload := new ModelObject(PayloadParams(params, Excluded(resource)));
      existing := None;
      new;
      if resource == AddressBlock {
        ClearDhcpConfig(payload);
      }
    }

    method Find(svc: Service) returns (f: Found)
      ensures f == FindSpec(resource, params, svc)
    {
      var id := Attr(params, "id");
      if id != JNull {
        var resp := svc.read(id);
        if resp.Error? {
          if resp.error.notFound && Attr(params, "state") == JStr(RemoveState(resource)) {
            return Located(None);
          }
          return FindFailed(resp.error);
        }
        return Located(Some(resp.value));
      }
      var filter := IdentityFilter(resource, params);
      if filter.None? {
        return Located(None);
      }
      var resp := svc.list(filter.value);
      if resp.Error? {
        return FindFailed(resp.error);
      }
      var page := resp.value;
      if page.None? {
        if resource != JoinToken {
          return FindCrashed(NoLenError);
        }
        page := Some([]);
      }
      var results := page.value;
      if |results| == 1 {
        return Located(Some(results[0]));
      }
      if |results| > 1 {
        return Ambiguous(results);
      }
      return Located(None);
    }

    method PayloadChanged() returns (c: Change)
      ensures existing.None? ==> c == Changed
      ensures existing.Some? ==> c == Changes(JObject(existing.value), JObject(payloadParams))
    {
      if existing.None? {
        return Changed;
      }
      c := IsChanged(JObject(existing.value), JObject(payloadParams));
    }

    method Create(svc: Service) returns (a: Option<Answer<Dict>>)
      modifies payload
      ensures checkMode ==> a.None? && payload.attrs == old(payload.attrs)
      ensures !checkMode ==> payload.attrs == CreateBody(resource, params, old(payload.attrs)) &&
                             a == Some(svc.create(payload.attrs))
    {
      if checkMode {
        return None;
      }
      var nextAvailableId := Attr(params, "next_available_id");
      if resource == AddressBlock && nextAvailableId != JNull {
        payload.attrs := Put(payload.attrs, "address", JStr(PyStr(nextAvailableId) + "/nextavailableaddressblock"));
      }
      a := Some(svc.create(payload.attrs));
    }

    method Update(svc: Service) returns (w: Write)
      requires existing.Some?
      modifies payload
      ensures checkMode ==> w == Skipped && payload.attrs == old(payload.attrs)
      ensures !checkMode ==>
        match Guard(existing.value, old(payload.attrs), ReadonlyFields(resource))
        case Rejected(f) => w == Refused(f)
        case Cleared(body) => payload.attrs == body && w == Sent(svc.update(Attr(existing.value, "id"), body))
    {
      if checkMode {
        return Skipped;
      }
      if ReadonlyFields(resource) != [] {
        var rejected := ValidateReadonlyOnUpdate(existing.value, payload, ReadonlyFields(resource));
        if rejected.Some? {
          return Refused(rejected.value);
        }
      }
      w := Sent(svc.update(Attr(existing.value, "id"), payload.attrs));
    }

    method Delete(svc: Service) returns (a: Option<Answer<bool>>)
      requires existing.Some?
      ensures checkMode ==> a.None?
      ensures !checkMode ==> a == Some(svc.delete(Attr(existing.value, "id")))
    {
      if checkMode {
        return None;
      }
      a := Some(svc.delete(Attr(existing.value, "id")));
    }

    /** The state branch of `run_command`, up to the check-mode exit. */
    method Act(svc: Service) returns (a: Acted)
      requires payloadParams == PayloadParams(params, Excluded(resource))
      requires payload.attrs == InitialPayload(resource, payloadParams)
      modifies payload
      ensures a == ActSpec(resource, params, checkMode, svc, existing)
    {
      var state := Attr(params, "state");
      if state == JStr("present") && existing.None? {
        var answer := Create(svc);
        if answer.None? {
          return Acted([], true, Some(Kind(resource) + " created"));
        }
        if answer.value.Error? {
          return ActFailed(answer.value.error);
        }
        return Acted(answer.value.value, true, Some(Kind(resource) + " created"));
      } else if state == JStr("present") && existing.Some? {
        var c := PayloadChanged();
        if c == Raised {
          return ActCrashed(CompareError);
        }
        if c == Unchanged {
          return Acted([], false, None);
        }
        var w := Update(svc);
        match w
        case Skipped => return Acted([], true, Some(Kind(resource) + " updated"));
        case Refused(f) => return ActRejected(f);
        case Sent(Error(e)) => return ActFailed(e);
        case Sent(Done(item)) => return Acted(item, true, Some(Kind(resource) + " updated"));
      } else if state == JStr(RemoveState(resource)) && existing.Some? {
        if AlreadyRevoked(resource, existing.value) {
          return Acted([], false, Some("JoinToken Revoked"));
        }
        var answer := Delete(svc);
        if answer.Some? && answer.value.Error? {
          return ActFailed(answer.value.error);
        }
        return Acted([], true, Some(RemovedMessage(resource)));
      }
      return Acted([], false, None);
    }

    /** `run_command`: the `result` dict is built step by step. */
    method RunCommand(svc: Service) returns (outcome: ModuleResult)
      requires payloadParams == PayloadParams(params, Excluded(resource))
      requires payload.attrs == InitialPayload(resource, payloadParams)
      modifies this, payload
      ensures outcome == RunSpec(resource, params, checkMode, svc)
    {
      var result := InitialResult;
      var found := Find(svc);
      match found
      case FindCrashed(m) => return Crash(m);
      case Ambiguous(rs) => return Fail(MultipleMessage(resource, rs), []);
      case FindFailed(e) => return Fail(FailMessage(e), []);
      case Located(x) => existing := x;
      var acted := Act(svc);
      match acted
      case ActFailed(e) => return Fail(FailMessage(e), []);
      case ActRejected(f) => return Fail(f + " cannot be updated", []);
      case ActCrashed(m) => return Crash(m);
      case Acted(item, changed, msg) =>
        if msg.Some? {
          result := Put(result, "changed", JBool(changed));
          result := Put(result, "msg", JStr(msg.value));
        }
        if checkMode {
          return Exit(changed, result);
        }
        var before := if existing.Some? then JObject(existing.value) else JObject([]);
        result := Put(result, "diff", JObject([("before", before), ("after", JObject(item))]));
        result := Put(result, "object", JObject(item));
        var id := if existing.Some? then Attr(existing.value, "id")
                  else if item != [] && "id" in Keys(item) then Get(item, "id").value
                  else JNull;
        result := Put(result, "id", id);
        outcome := Exit(changed, result);
    }
  }

  /** A module run: the address block's constructor splits its address
      (and may raise); then the module object runs its command. */
  method RunModule(r: Resource, raw: Dict, checkMode: bool, svc: Service) returns (outcome: ModuleResult)
    ensures outcome == Reconcile(r, raw, checkMode, svc)
  {
    var params := raw;
    if r == AddressBlock {
      var split := SplitAddress(raw);
      if split.Raises? {
        return Crash(split.error);
      }
      params := split.value;
    }
    var m := new ResourceModule(r, params, checkMode);
    outcome := m.RunCommand(svc);
  }
}
