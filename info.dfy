/** The info modules (dns_view_info, ipam_subnet_info,
    ipam_address_block_info, dns_auth_zone_info, ipam_address_info,
    dns_auth_nsg_info, dns_forward_zone_info, ipam_host_info,
    dns_delegation_info, infra_join_token_info): each reads one object by
    id, or lists every object that matches a filter expression and a tag
    filter expression, page by page, and exits with their dumps under
    "objects". They differ in the filter built from `filters`, in whether
    they ask for inherited values, and in how the join-token module reads a
    null page. */
module Info {
  import opened Json
  import opened Filters
  import opened Ansible
  import opened Reconciler
  import opened Paging

  datatype Collection =
    | Views | Subnets | AddressBlocks | AuthZones | Addresses
    | AuthNsgs | ForwardZones | IpamHosts | Delegations | JoinTokens

  /** The subnet and address-block modules build the filter from three
      fixed keys of `filters`, the others from all its items. */
  predicate FixedKeyFilter(c: Collection) {
    c == Subnets || c == AddressBlocks
  }

  /** The `inherit` argument the module passes to `read` and to `list`;
      the module's own `inherit` parameter is never consulted. */
  function ReadInherit(c: Collection): Option<string> {
    if c in {Views, Subnets, AddressBlocks, AuthZones, Delegations} then Some("full") else None
  }

  function ListInherit(c: Collection): Option<string> {
    if c in {Views, Subnets, AddressBlocks, AuthZones} then Some("full") else None
  }

  /** A `list` request. */
  datatype Query = Query(offset: nat, limit: nat, filter: Option<string>, tfilter: Option<string>, inherit: Option<string>)

  /** The collection's API in the vendor client: `read(id, inherit)` and
      `list(...)`, whose page may be null. */
  datatype InfoApi = InfoApi(read: (Json, Option<string>) -> Answer<Dict>, list: Query -> Reply)

  // ---------------------------------------------------------------------
  // Filters

  /** `" and ".join(f"{k}=='{v}'" for k, v in filters.items())`. */
  function ItemsFilter(filters: Json): (o: Outcome<string>)
    ensures o.Ok? <==> filters.JObject?
    ensures filters == JObject([]) ==> o == Ok("")
  {
    match filters
    case JObject(fs) => Ok(FilterText(fs, true))
    case _ => Raises("AttributeError: object has no attribute 'items'")
  }

  /** The subnet and address-block filter: address and space quoted, cidr
      not; a missing key raises `KeyError`. */
  function FixedFilter(filters: Json): (o: Outcome<string>)
    ensures o.Ok? <==>
      filters.JObject? && "address" in Keys(filters.fields) && "space" in Keys(filters.fields) && "cidr" in Keys(filters.fields)
    ensures o.Ok? ==> "address=='" <= o.value
  {
    match Subscript(filters, "address")
    case Raises(e) => Raises(e)
    case Ok(a) =>
      match Subscript(filters, "space")
      case Raises(e) => Raises(e)
      case Ok(s) =>
        match Subscript(filters, "cidr")
        case Raises(e) => Raises(e)
        case Ok(n) => Ok("address=='" + PyStr(a) + "' " + "and space=='" + PyStr(s) + "' " + "and cidr==" + PyStr(n))
  }

  /** `filter_str`: from `filters` when set, else `filter_query`, else None. */
  function FilterString(c: Collection, params: Dict): (o: Outcome<Option<string>>)
    ensures Attr(params, "filters") == JNull ==> o.Ok?
    ensures o == Ok(None) <==> Attr(params, "filters") == JNull && Attr(params, "filter_query") == JNull
  {
    var filters := Attr(params, "filters");
    if filters != JNull then
      match (if FixedKeyFilter(c) then FixedFilter(filters) else ItemsFilter(filters))
      case Raises(e) => Raises(e)
      case Ok(f) => Ok(Some(f))
    else if Attr(params, "filter_query") != JNull then Ok(Some(PyStr(Attr(params, "filter_query"))))
    else Ok(None)
  }

  /** `tag_filter_str`: from `tag_filters` when set, else `tag_filter_query`, else None. */
  function TagFilterString(params: Dict): Outcome<Option<string>> {
    var tags := Attr(params, "tag_filters");
    if tags != JNull then
      match ItemsFilter(tags)
      case Raises(e) => Raises(e)
      case Ok(f) => Ok(Some(f))
    else if Attr(params, "tag_filter_query") != JNull then Ok(Some(PyStr(Attr(params, "tag_filter_query"))))
    else Ok(None)
  }

  // ---------------------------------------------------------------------
  // The specification of one run.

  /** The k-th request of the paging loop asks for offset k * 1000. */
  function PageQuery(c: Collection, filter: Option<string>, tfilter: Option<string>, k: nat): (q: Query)
    ensures q.offset == k * Limit && q.limit == Limit
  {
    Query(k * Limit, Limit, filter, tfilter, ListInherit(c))
  }

  /** The replies the paging loop receives, by request number. */
  function Replies(c: Collection, api: InfoApi, filter: Option<string>, tfilter: Option<string>): nat -> Reply {
    (k: nat) => api.list(PageQuery(c, filter, tfilter, k))
  }

  /** Some reply, the `last`-th, would end the paging loop of this run, if
      the run lists at all (a run by id never does). */
  predicate Bounded(c: Collection, params: Dict, api: InfoApi, last: nat) {
    Attr(params, "id") == JNull && FilterString(c, params).Ok? && TagFilterString(params).Ok? ==>
      Ends(api.list(PageQuery(c, FilterString(c, params).value, TagFilterString(params).value, last)))
  }

  /** What `find` returned, or how it stopped. */
  datatype Listing =
    | Listed(objects: seq<Dict>)
    | NothingById
    | ListFailed(error: ApiError)
    | ListCrashed(crash: string)

  /** An `ApiException` that escapes `main` (from `read`, which no handler guards). */
  function Uncaught(e: ApiError): string {
    "ApiException: " + IntToString(e.status) + " " + e.reason
  }

  /** `find`: by id, a missing object is None and any other error escapes;
      otherwise the paging loop with the two filters. */
  function InfoFind(c: Collection, params: Dict, api: InfoApi, last: nat): (l: Listing)
    requires Bounded(c, params, api, last)
    ensures l.NothingById? ==> Attr(params, "id") != JNull
    ensures Attr(params, "id") != JNull ==> !l.ListFailed? && (l.Listed? ==> |l.objects| == 1)
  {
    var id := Attr(params, "id");
    if id != JNull then
      match api.read(id, ReadInherit(c))
      case Done(x) => Listed([x])
      case Error(e) => if e.notFound then NothingById else ListCrashed(Uncaught(e))
    else
      match FilterString(c, params)
      case Raises(e) => ListCrashed(e)
      case Ok(f) =>
        match TagFilterString(params)
        case Raises(e) => ListCrashed(e)
        case Ok(t) =>
          assert Ends(Replies(c, api, f, t)(last));
          match Collect(Replies(c, api, f, t), c == JoinTokens, 0, last)
          case Collected(os) => Listed(os)
          case PageFailed(e) => ListFailed(e)
          case PageCrashed(m) => ListCrashed(m)
  }

  /** The objects as the module reports them. */
  function Dumps(objects: seq<Dict>): seq<Json> {
    seq(|objects|, i requires 0 <= i < |objects| => JObject(objects[i]))
  }

  lemma DumpsSnoc(os: seq<Dict>, i: nat)
    requires i < |os|
    ensures Dumps(os[..i + 1]) == Dumps(os[..i]) + [JObject(os[i])]
  {
    assert os[..i + 1][..i] == os[..i];
  }

  const NotIterableError: string := "TypeError: 'NoneType' object is not iterable"

  /** `run_command`: in check mode nothing is read and no object is
      reported; otherwise the found objects are, or the run fails or
      raises. An info module never reports a change. */
  function InfoRun(c: Collection, params: Dict, checkMode: bool, api: InfoApi, last: nat): (r: ModuleResult)
    requires Bounded(c, params, api, last)
    ensures r.Exit? ==> !r.changed && Keys(r.result) == {"objects"}
    ensures r.Fail? ==> InfoFind(c, params, api, last).ListFailed? && r.msg == FailMessage(InfoFind(c, params, api, last).error)
    ensures checkMode ==> r.Exit? && r.result == [("objects", JList([]))]
  {
    if checkMode then Exit(false, [("objects", JList([]))])
    else
      match InfoFind(c, params, api, last)
      case Listed(os) => Exit(false, [("objects", JList(Dumps(os)))])
      case NothingById => Crash(NotIterableError)
      case ListFailed(e) => Fail(FailMessage(e), [])
      case ListCrashed(m) => Crash(m)
  }

  /** `run_command` as the module evidently intends it for an id that does
      not exist: no objects rather than a `TypeError`. */
  function InfoRunCorrected(c: Collection, params: Dict, checkMode: bool, api: InfoApi, last: nat): (r: ModuleResult)
    requires Bounded(c, params, api, last)
    ensures r.Exit? ==> !r.changed && Keys(r.result) == {"objects"}
    ensures r != InfoRun(c, params, checkMode, api, last) ==> InfoRun(c, params, checkMode, api, last) == Crash(NotIterableError)
    ensures InfoFind(c, params, api, last).NothingById? ==> r.Exit?
  {
    if !checkMode && InfoFind(c, params, api, last).NothingById? then Exit(false, [("objects", JList([]))])
    else InfoRun(c, params, checkMode, api, last)
  }

  /** The framework's `mutually_exclusive` groups: id excludes both
      filters, and each filter is given at most one way. */
  predicate Accepted(params: Dict) {
    var id, f, fq := Attr(params, "id") != JNull, Attr(params, "filters") != JNull, Attr(params, "filter_query") != JNull;
    var t, tq := Attr(params, "tag_filters") != JNull, Attr(params, "tag_filter_query") != JNull;
    !(id && f) && !(id && fq) && !(f && fq) && !(id && t) && !(id && tq) && !(t && tq)
  }

  // ---------------------------------------------------------------------
  // The module object, as the source runs it.

  class InfoModule {
    const collection: Collection
    const params: Dict
    const checkMode: bool
    const api: InfoApi
    /** `self._limit`. */
    const limit: nat

    constructor(c: Collection, params: Dict, checkMode: bool, api: InfoApi)
      ensures collection == c && this.params == params && this.checkMode == checkMode && this.api == api
      ensures limit == Limit
    {
      collection := c;
      this.params := params;
      this.checkMode := checkMode;
      this.api := api;
      limit := 1000;
    }

    /** The paging loop of `find`: offsets 0, 1000, 2000, ... until a
        page is short. */
    method ListAll(filter: Option<string>, tfilter: Option<string>, ghost last: nat) returns (p: Paged)
      requires limit == Limit
      requires Ends(Replies(collection, api, filter, tfilter)(last))
      ensures p == Collect(Replies(collection, api, filter, tfilter), collection == JoinTokens, 0, last)
    {
      ghost var replies := Replies(collection, api, filter, tfilter);
      var all: seq<Dict> := [];
      var offset: nat := 0;
      ghost var k: nat := 0;
      while true
        invariant k <= last && offset == k * Limit
        invariant Collect(replies, collection == JoinTokens, 0, last) == Prepend(all, Collect(replies, collection == JoinTokens, k, last))
        decreases last - k
      {
        var resp := api.list(Query(offset, limit, filter, tfilter, ListInherit(collection)));
        assert Query(offset, limit, filter, tfilter, ListInherit(collection)) == PageQuery(collection, filter, tfilter, k);
        assert resp == replies(k);
        if resp.Error? {
          return PageFailed(resp.error);
        }
        var results: seq<Dict>;
        if resp.value.None? {
          if collection != JoinTokens {
            return PageCrashed(ExtendNoneError);
          }
          results := [];
        } else {
          results := resp.value.value;
        }
        all := all + results;
        if |results| < limit {
          return Collected(all);
        }
        offset := offset + limit;
        k := k + 1;
      }
    }

    /** `find`. */
    method Find(ghost last: nat) returns (l: Listing)
      requires limit == Limit && Bounded(collection, params, api, last)
      ensures l == InfoFind(collection, params, api, last)
    {
      var id := Attr(params, "id");
      if id != JNull {
        var resp := api.read(id, ReadInherit(collection));
        if resp.Done? {
          return Listed([resp.value]);
        } else if resp.error.notFound {
          return NothingById;
        }
        return ListCrashed(Uncaught(resp.error));
      }
      var f := FilterString(collection, params);
      if f.Raises? {
        return ListCrashed(f.error);
      }
      var t := TagFilterString(params);
      if t.Raises? {
        return ListCrashed(t.error);
      }
      var p := ListAll(f.value, t.value, last);
      match p
      case Collected(os) => l := Listed(os);
      case PageFailed(e) => l := ListFailed(e);
      case PageCrashed(m) => l := ListCrashed(m);
    }

    /** `run_command`. */
    method RunCommand(ghost last: nat) returns (outcome: ModuleResult)
      requires limit == Limit && Bounded(collection, params, api, last)
      ensures outcome == InfoRun(collection, params, checkMode, api, last)
    {
      if checkMode {
        return Exit(false, [("objects", JList([]))]);
      }
      var found := Find(last);
      match found
      case NothingById => outcome := Crash(NotIterableError);
      case ListFailed(e) => outcome := Fail(FailMessage(e), []);
      case ListCrashed(m) => outcome := Crash(m);
      case Listed(os) =>
        var dumps: seq<Json> := [];
        var i := 0;
        while i < |os|
          invariant 0 <= i <= |os| && dumps == Dumps(os[..i])
        {
          DumpsSnoc(os, i);
          dumps := dumps + [JObject(os[i])];
          i := i + 1;
        }
        assert os[..i] == os;
        outcome := Exit(false, [("objects", JList(dumps))]);
    }
  }

  /** A whole module run. */
  method RunInfoModule(c: Collection, params: Dict, checkMode: bool, api: InfoApi, ghost last: nat) returns (outcome: ModuleResult)
    requires Bounded(c, params, api, last)
    ensures outcome == InfoRun(c, params, checkMode, api, last)
  {
    var m := new InfoModule(c, params, checkMode, api);
    outcome := m.RunCommand(last);
  }
}
