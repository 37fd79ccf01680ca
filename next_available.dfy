/** The three next-available info modules: ipam_next_available_address_block_info
    (free address blocks of a given size inside a block),
    ipam_next_available_subnet_info (free subnets of a given size inside a
    block) and ipam_next_available_ip_info (free addresses inside a block,
    subnet or range, chosen by the id's resource path). Each runs the
    paging loop of the info modules, but sends the same request on every
    round: the offset it advances is never passed on. */
module NextAvailable {
  import opened Json
  import opened Ansible
  import opened Reconciler
  import opened Paging

  datatype NextModule = NextBlocks | NextSubnets | NextIps

  /** The vendor-client call a module makes. */
  datatype Endpoint =
    | BlockNextBlocks    // AddressBlockApi.list_next_available_ab
    | BlockNextSubnets   // AddressBlockApi.list_next_available_subnet
    | BlockNextIps       // AddressBlockApi.list_next_available_ip
    | SubnetNextIps      // SubnetApi.list_next_available_ip
    | RangeNextIps       // RangeApi.list_next_available_ip

  /** A request: the endpoint, the id, the size (cidr, or contiguous for
      addresses) and the count. */
  datatype Request = Request(endpoint: Endpoint, id: Json, size: Json, count: Json)

  /** The server: its answer to the n-th request made so far. The same
      request may be answered differently as addresses are taken. */
  type Server = (Request, nat) -> Reply

  // ---------------------------------------------------------------------
  // The id's resource path

  /** The index of the last '/' in s. */
  function LastSlash(s: string): (r: Option<nat>)
    ensures r.Some? ==> r.value < |s| && s[r.value] == '/' && '/' !in s[r.value + 1..]
    ensures r.None? ==> '/' !in s
    decreases |s|
  {
    if s == [] then None
    else if s[|s| - 1] == '/' then Some(|s| - 1)
    else
      var r := LastSlash(s[..|s| - 1]);
      assert s == s[..|s| - 1] + [s[|s| - 1]];
      r
  }

  /** `s.rsplit("/", 1)[0]`. */
  function RSplitHead(s: string): (head: string)
    ensures head <= s
    ensures '/' !in s ==> head == s
  {
    match LastSlash(s)
    case None => s
    case Some(i) => s[..i]
  }

  /** The next-available-address endpoint for the resource path of an id;
      None for any other path, where the module never assigns `resp`. */
  function IpEndpoint(id: string): (e: Option<Endpoint>)
    ensures e.Some? ==> "ipam/" <= id
    ensures e.Some? ==> e.value == BlockNextIps || e.value == SubnetNextIps || e.value == RangeNextIps
  {
    var path := RSplitHead(id);
    if path == "ipam/address_block" then Some(BlockNextIps)
    else if path == "ipam/subnet" then Some(SubnetNextIps)
    else if path == "ipam/range" then Some(RangeNextIps)
    else None
  }

  const UnboundResponse: string := "UnboundLocalError: local variable 'resp' referenced before assignment"

  /** The request every round of the module's loop sends. */
  function RequestOf(m: NextModule, params: Dict): (o: Outcome<Request>)
    ensures o.Ok? ==> o.value.id == Attr(params, "id") && o.value.count == Attr(params, "count")
    ensures o.Ok? ==> o.value.size == Attr(params, if m == NextIps then "contiguous" else "cidr")
    ensures o.Raises? ==> m == NextIps
    ensures m == NextIps && Attr(params, "id").JStr? ==>
      (o.Raises? <==> IpEndpoint(Attr(params, "id").s).None?) && (o.Raises? ==> o.error == UnboundResponse)
  {
    var id, count := Attr(params, "id"), Attr(params, "count");
    match m
    case NextBlocks => Ok(Request(BlockNextBlocks, id, Attr(params, "cidr"), count))
    case NextSubnets => Ok(Request(BlockNextSubnets, id, Attr(params, "cidr"), count))
    case NextIps =>
      if !id.JStr? then Raises("AttributeError: object has no attribute 'rsplit'")
      else match IpEndpoint(id.s)
        case None => Raises(UnboundResponse)
        case Some(e) => Ok(Request(e, id, Attr(params, "contiguous"), count))
  }

  // ---------------------------------------------------------------------
  // The specification of one run.

  /** The replies the loop receives: the same request, round after round. */
  function Rounds(server: Server, req: Request): nat -> Reply {
    (k: nat) => server(req, k)
  }

  predicate Bounded(m: NextModule, params: Dict, server: Server, last: nat) {
    RequestOf(m, params).Ok? ==> Ends(server(RequestOf(m, params).value, last))
  }

  /** The objects reported: the address of each free block, or the dump
      of each free subnet or address. */
  function Output(m: NextModule, results: seq<Dict>): (out: seq<Json>)
    ensures |out| == |results|
    ensures forall i :: 0 <= i < |results| ==> out[i] == if m == NextBlocks then Attr(results[i], "address") else JObject(results[i])
  {
    seq(|results|, i requires 0 <= i < |results| => if m == NextBlocks then Attr(results[i], "address") else JObject(results[i]))
  }

  /** `run_command` as written: the loop over identical requests. */
  function NextRun(m: NextModule, params: Dict, checkMode: bool, server: Server, last: nat): (r: ModuleResult)
    requires Bounded(m, params, server, last)
    ensures r.Exit? ==> !r.changed && Keys(r.result) == {"objects"}
    ensures checkMode ==> r == Exit(false, [("objects", JList([]))])
  {
    if checkMode then Exit(false, [("objects", JList([]))])
    else
      match RequestOf(m, params)
      case Raises(e) => Crash(e)
      case Ok(req) =>
        assert Ends(Rounds(server, req)(last));
        match Collect(Rounds(server, req), false, 0, last)
        case Collected(os) => Exit(false, [("objects", JList(Output(m, os)))])
        case PageFailed(e) => Fail(FailMessage(e), [])
        case PageCrashed(msg) => Crash(msg)
  }

  /** `run_command` as the endpoints evidently intend it: one request,
      whose results are reported, whatever their number. */
  function NextRunCorrected(m: NextModule, params: Dict, checkMode: bool, server: Server): (r: ModuleResult)
    ensures r.Exit? ==> !r.changed && Keys(r.result) == {"objects"}
  {
    if checkMode then Exit(false, [("objects", JList([]))])
    else
      match RequestOf(m, params)
      case Raises(e) => Crash(e)
      case Ok(req) =>
        match server(req, 0)
        case Error(e) => Fail(FailMessage(e), [])
        case Done(None) => Crash(ExtendNoneError)
        case Done(Some(rs)) => Exit(false, [("objects", JList(Output(m, rs)))])
  }

  // ---------------------------------------------------------------------
  // The module object, as the source runs it.

  class NextAvailableModule {
    const kind: NextModule
    const params: Dict
    const checkMode: bool
    const server: Server
    const limit: nat

    constructor(m: NextModule, params: Dict, checkMode: bool, server: Server)
      ensures kind == m && this.params == params && this.checkMode == checkMode && this.server == server
      ensures limit == Limit
    {
      kind := m;
      this.params := params;
      this.checkMode := checkMode;
      this.server := server;
      limit := 1000;
    }

    /** `find`: `offset` advances but the request never carries it. */
    method Find(ghost last: nat) returns (p: Outcome<Paged>)
      requires limit == Limit && Bounded(kind, params, server, last)
      ensures RequestOf(kind, params).Raises? ==> p == Raises(RequestOf(kind, params).error)
      ensures RequestOf(kind, params).Ok? ==>
        p == Ok(Collect(Rounds(server, RequestOf(kind, params).value), false, 0, last))
    {
      var all: seq<Dict> := [];
      var offset: nat := 0;
      var round: nat := 0;
      while true
        invariant round <= last && offset == round * Limit
        invariant RequestOf(kind, params).Ok? ==>
          Collect(Rounds(server, RequestOf(kind, params).value), false, 0, last)
            == Prepend(all, Collect(Rounds(server, RequestOf(kind, params).value), false, round, last))
        decreases last - round
      {
        var req := RequestOf(kind, params);
        if req.Raises? {
          return Raises(req.error);
        }
        var resp := server(req.value, round);
        assert resp == Rounds(server, req.value)(round);
        if resp.Error? {
          return Ok(PageFailed(resp.error));
        }
        if resp.value.None? {
          return Ok(PageCrashed(ExtendNoneError));
        }
        var results := resp.value.value;
        all := all + results;
        if |results| < limit {
          return Ok(Collected(all));
        }
        offset := offset + limit;
        round := round + 1;
      }
    }

    /** `run_command`. */
    method RunCommand(ghost last: nat) returns (outcome: ModuleResult)
      requires limit == Limit && Bounded(kind, params, server, last)
      ensures outcome == NextRun(kind, params, checkMode, server, last)
    {
      if checkMode {
        return Exit(false, [("objects", JList([]))]);
      }
      var found := Find(last);
      if found.Raises? {
        return Crash(found.error);
      }
      match found.value
      case PageFailed(e) => outcome := Fail(FailMessage(e), []);
      case PageCrashed(msg) => outcome := Crash(msg);
      case Collected(os) =>
        var objects: seq<Json> := [];
        var i := 0;
        while i < |os|
          invariant 0 <= i <= |os| && objects == Output(kind, os[..i])
        {
          objects := objects + [if kind == NextBlocks then Attr(os[i], "address") else JObject(os[i])];
          i := i + 1;
        }
        assert os[..i] == os;
        outcome := Exit(false, [("objects", JList(objects))]);
    }
  }

  // ---------------------------------------------------------------------
  // Properties

  /** The id's resource path is everything before its last '/'. */
  lemma {:induction false} LastSlashOf(p: string, q: string)
    requires '/' !in q
    ensures LastSlash(p + "/" + q) == Some(|p|)
    ensures RSplitHead(p + "/" + q) == p
    decreases |q|
  {
    var s := p + "/" + q;
    if q == [] {
      assert s[|s| - 1] == '/';
    } else {
      assert s[|s| - 1] == q[|q| - 1];
      assert s[..|s| - 1] == p + "/" + q[..|q| - 1];
      LastSlashOf(p, q[..|q| - 1]);
    }
  }

  /** The address module asks the block, subnet or range API according to
      the id's path; any other id fails before a request is made. */
  lemma IpDispatch(params: Dict, path: string, tail: string)
    requires Attr(params, "id") == JStr(path + "/" + tail) && '/' !in tail
    ensures RequestOf(NextIps, params).Ok? <==> path in {"ipam/address_block", "ipam/subnet", "ipam/range"}
    ensures RequestOf(NextIps, params).Ok? ==>
      RequestOf(NextIps, params).value.endpoint ==
        if path == "ipam/address_block" then BlockNextIps
        else if path == "ipam/subnet" then SubnetNextIps
        else RangeNextIps
    ensures RequestOf(NextIps, params).Raises? ==> RequestOf(NextIps, params).error == UnboundResponse
  {
    LastSlashOf(path, tail);
  }

  /** As written: a server that answers the repeated request with the
      same full page (1000 or more free items, e.g. count = 1000 in a
      large block) never lets the loop end; no bound exists. */
  lemma FullAnswerNeverEnds(m: NextModule, params: Dict, server: Server, rs: seq<Dict>)
    requires RequestOf(m, params).Ok?
    requires forall k: nat :: server(RequestOf(m, params).value, k) == Done(Some(rs))
    requires |rs| >= Limit
    ensures forall last: nat :: !Bounded(m, params, server, last)
  {
  }

  /** As written: a full page followed by a short one reports the full
      page's items and then the short page's, from two identical requests. */
  lemma {:induction false} FullThenShort(m: NextModule, params: Dict, server: Server, rs1: seq<Dict>, rs2: seq<Dict>)
    requires m != NextBlocks && RequestOf(m, params).Ok?
    requires server(RequestOf(m, params).value, 0) == Done(Some(rs1)) && |rs1| >= Limit
    requires server(RequestOf(m, params).value, 1) == Done(Some(rs2)) && |rs2| < Limit
    ensures Bounded(m, params, server, 1)
    ensures NextRun(m, params, false, server, 1) == Exit(false, [("objects", JList(Output(m, rs1 + rs2)))])
  {
    var rounds := Rounds(server, RequestOf(m, params).value);
    assert rounds(0) == Done(Some(rs1)) && rounds(1) == Done(Some(rs2));
    assert Collect(rounds, false, 1, 1) == Collected(rs2);
    assert Collect(rounds, false, 0, 1) == Collected(rs1 + rs2);
  }

  /** The corrected run makes one request and reports its results, of any
      number; when the first answer already ends the loop, it agrees with
      the run as written. */
  lemma CorrectedOneRequest(m: NextModule, params: Dict, checkMode: bool, server: Server)
    ensures !checkMode && RequestOf(m, params).Ok? && server(RequestOf(m, params).value, 0).Done?
            && server(RequestOf(m, params).value, 0).value.Some?
            ==> NextRunCorrected(m, params, checkMode, server)
                == Exit(false, [("objects", JList(Output(m, server(RequestOf(m, params).value, 0).value.value)))])
    ensures Bounded(m, params, server, 0) ==> NextRunCorrected(m, params, checkMode, server) == NextRun(m, params, checkMode, server, 0)
  {
    if Bounded(m, params, server, 0) && RequestOf(m, params).Ok? {
      assert Rounds(server, RequestOf(m, params).value)(0) == server(RequestOf(m, params).value, 0);
    }
  }

  /** The address-block module reports addresses, in the server's order. */
  lemma BlockAddresses(params: Dict, server: Server, rs: seq<Dict>)
    requires RequestOf(NextBlocks, params).Ok?
    requires server(RequestOf(NextBlocks, params).value, 0) == Done(Some(rs)) && |rs| < Limit
    ensures Bounded(NextBlocks, params, server, 0)
    ensures var r := NextRun(NextBlocks, params, false, server, 0);
            r.Exit? && r.result == [("objects", JList(Output(NextBlocks, rs)))]
            && forall i :: 0 <= i < |rs| ==> Output(NextBlocks, rs)[i] == Attr(rs[i], "address")
  {
    assert Rounds(server, RequestOf(NextBlocks, params).value)(0) == Done(Some(rs));
  }
}
