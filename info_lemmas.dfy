/** Properties of the info modules' runs: what a read by id reports, what
    the paging loop returns from a server that holds the matching objects,
    how the filters are written, and what does not influence a run. */
module InfoLemmas {
  import opened Json
  import opened Filters
  import opened Ansible
  import opened Reconciler
  import opened Paging
  import opened Info

  /** The run does not depend on which ending reply bounds it. */
  lemma RunBoundIrrelevant(c: Collection, params: Dict, checkMode: bool, api: InfoApi, last1: nat, last2: nat)
    requires Bounded(c, params, api, last1) && Bounded(c, params, api, last2)
    ensures InfoRun(c, params, checkMode, api, last1) == InfoRun(c, params, checkMode, api, last2)
  {
    FindBoundIrrelevant(c, params, api, last1, last2);
  }

  lemma FindBoundIrrelevant(c: Collection, params: Dict, api: InfoApi, last1: nat, last2: nat)
    requires Bounded(c, params, api, last1) && Bounded(c, params, api, last2)
    ensures InfoFind(c, params, api, last1) == InfoFind(c, params, api, last2)
  {
    var f, t := FilterString(c, params), TagFilterString(params);
    if Attr(params, "id") == JNull && f.Ok? && t.Ok? {
      var rs := Replies(c, api, f.value, t.value);
      assert Ends(rs(last1)) && Ends(rs(last2));
      CollectBoundIrrelevant(rs, c == JoinTokens, 0, last1, last2);
    }
  }

  /** By id: the object read is the only one reported; a missing id makes
      the run raise when it iterates over None, and any other API error
      escapes. */
  lemma ReadById(c: Collection, params: Dict, api: InfoApi, last: nat)
    requires Attr(params, "id") != JNull
    ensures Bounded(c, params, api, last)
    ensures var answer := api.read(Attr(params, "id"), ReadInherit(c));
            InfoRun(c, params, false, api, last) ==
              if answer.Done? then Exit(false, [("objects", JList([JObject(answer.value)]))])
              else if answer.error.notFound then Crash(NotIterableError)
              else Crash(Uncaught(answer.error))
  {
    var answer := api.read(Attr(params, "id"), ReadInherit(c));
    if answer.Done? {
      assert Dumps([answer.value]) == [JObject(answer.value)];
    }
  }

  /** The corrected run reports no objects for an id that does not exist
      and otherwise agrees with the run as written. A run by id is bounded
      whatever the listing replies, so the by-id case holds for every
      api. */
  lemma CorrectedMissingId(c: Collection, params: Dict, checkMode: bool, api: InfoApi, last: nat)
    requires Attr(params, "id") != JNull || Bounded(c, params, api, last)
    ensures Bounded(c, params, api, last)
    ensures InfoRunCorrected(c, params, checkMode, api, last) ==
      if InfoRun(c, params, checkMode, api, last) == Crash(NotIterableError) && InfoFind(c, params, api, last).NothingById?
      then Exit(false, [("objects", JList([]))])
      else InfoRun(c, params, checkMode, api, last)
    ensures Attr(params, "id") != JNull && api.read(Attr(params, "id"), ReadInherit(c)).Error?
            && api.read(Attr(params, "id"), ReadInherit(c)).error.notFound
            ==> InfoRunCorrected(c, params, checkMode, api, last) == Exit(false, [("objects", JList([]))])
  {
  }

  /** Against a server holding the matching objects, the run reports all
      of them, in the server's order, whatever their number. */
  lemma StoreListing(c: Collection, params: Dict, api: InfoApi, store: seq<Dict>)
    requires Attr(params, "id") == JNull
    requires FilterString(c, params).Ok? && TagFilterString(params).Ok?
    requires forall k: nat :: api.list(PageQuery(c, FilterString(c, params).value, TagFilterString(params).value, k))
                                == Done(Some(Window(store, k * Limit)))
    ensures Bounded(c, params, api, |store| / Limit)
    ensures InfoRun(c, params, false, api, |store| / Limit) == Exit(false, [("objects", JList(Dumps(store)))])
  {
    var replies := Replies(c, api, FilterString(c, params).value, TagFilterString(params).value);
    forall i: nat
      ensures replies(i) == Done(Some(Window(store, i * Limit)))
    {
    }
    CollectStore(replies, c == JoinTokens, store, 0);
    assert store[0 * Limit..] == store;
  }

  /** A null first page ends the join-token listing with no objects; the
      other modules raise on it. */
  lemma NullPage(c: Collection, params: Dict, api: InfoApi)
    requires Attr(params, "id") == JNull
    requires FilterString(c, params).Ok? && TagFilterString(params).Ok?
    requires api.list(PageQuery(c, FilterString(c, params).value, TagFilterString(params).value, 0)) == Done(None)
    ensures Bounded(c, params, api, 0)
    ensures InfoRun(c, params, false, api, 0) ==
      if c == JoinTokens then Exit(false, [("objects", JList([]))]) else Crash(ExtendNoneError)
  {
    assert Replies(c, api, FilterString(c, params).value, TagFilterString(params).value)(0) == Done(None);
    assert Dumps([]) == [];
  }

  /** The module's `inherit` parameter changes nothing. */
  lemma InheritIgnored(c: Collection, params: Dict, checkMode: bool, api: InfoApi, last: nat, v: Json)
    requires Bounded(c, params, api, last)
    ensures Bounded(c, Put(params, "inherit", v), api, last)
    ensures InfoRun(c, Put(params, "inherit", v), checkMode, api, last) == InfoRun(c, params, checkMode, api, last)
  {
    var p := Put(params, "inherit", v);
    assert "inherit"[1] != "id"[1] && "inherit"[1] != "filters"[1] && "inherit"[1] != "filter_query"[1];
    assert "inherit"[1] != "tag_filters"[1] && "inherit"[1] != "tag_filter_query"[1];
    AttrPutOther(params, "inherit", v, "id");
    AttrPutOther(params, "inherit", v, "filters");
    AttrPutOther(params, "inherit", v, "filter_query");
    AttrPutOther(params, "inherit", v, "tag_filters");
    AttrPutOther(params, "inherit", v, "tag_filter_query");
    assert FilterString(c, p) == FilterString(c, params);
    assert TagFilterString(p) == TagFilterString(params);
    SameRun(c, p, params, checkMode, api, last);
  }

  /** Two parameter sets with the same id and the same filters give the same run. */
  lemma SameRun(c: Collection, p1: Dict, p2: Dict, checkMode: bool, api: InfoApi, last: nat)
    requires Attr(p1, "id") == Attr(p2, "id")
    requires FilterString(c, p1) == FilterString(c, p2) && TagFilterString(p1) == TagFilterString(p2)
    requires Bounded(c, p2, api, last)
    ensures Bounded(c, p1, api, last)
    ensures InfoRun(c, p1, checkMode, api, last) == InfoRun(c, p2, checkMode, api, last)
  {
    assert InfoFind(c, p1, api, last) == InfoFind(c, p2, api, last);
  }

  lemma AttrPutOther(d: Dict, k: string, v: Json, k': string)
    requires k != k'
    ensures Attr(Put(d, k, v), k') == Attr(d, k')
  {
    GetPut(d, k, v, k');
  }

  lemma JoinThree(a: string, b: string, d: string, sep: string)
    ensures Join([a, b, d], sep) == a + sep + b + sep + d
  {
    assert [a, b, d][1..] == [b, d];
    JoinTwo(b, d, sep);
  }

  /** The subnet and address-block filters compare cidr unquoted; the same
      `filters` in any other module quote it. */
  lemma CidrUnquoted(params: Dict, a: string, s: string, n: nat)
    requires Attr(params, "filters") == JObject([("address", JStr(a)), ("space", JStr(s)), ("cidr", JInt(n))])
    ensures FilterString(Subnets, params) == FilterString(AddressBlocks, params)
         == Ok(Some("address=='" + a + "' " + "and space=='" + s + "' " + "and cidr==" + NatToString(n)))
    ensures FilterString(Views, params) == Ok(Some(
      QuotedClause("address", JStr(a)) + " and " + QuotedClause("space", JStr(s)) + " and " + QuotedClause("cidr", JInt(n))))
    ensures QuotedClause("cidr", JInt(n)) == "cidr=='" + NatToString(n) + "'"
  {
    var fs := [("address", JStr(a)), ("space", JStr(s)), ("cidr", JInt(n))];
    ThreeFields(a, s, n);
    var fixed := "address=='" + a + "' " + "and space=='" + s + "' " + "and cidr==" + NatToString(n);
    assert FixedFilter(JObject(fs)) == Ok(fixed);
    FixedFilterString(Subnets, params, fixed);
    FixedFilterString(AddressBlocks, params, fixed);
    ViewsFilter(fs, params);
  }

  lemma FixedFilterString(c: Collection, params: Dict, f: string)
    requires FixedKeyFilter(c) && Attr(params, "filters") != JNull && FixedFilter(Attr(params, "filters")) == Ok(f)
    ensures FilterString(c, params) == Ok(Some(f))
  {
  }

  lemma ViewsFilter(fs: Dict, params: Dict)
    requires |fs| == 3 && Attr(params, "filters") == JObject(fs)
    ensures FilterString(Views, params) == Ok(Some(
      QuotedClause(fs[0].0, fs[0].1) + " and " + QuotedClause(fs[1].0, fs[1].1) + " and " + QuotedClause(fs[2].0, fs[2].1)))
  {
    assert Clauses(fs, true) == [QuotedClause(fs[0].0, fs[0].1), QuotedClause(fs[1].0, fs[1].1), QuotedClause(fs[2].0, fs[2].1)];
    JoinThree(QuotedClause(fs[0].0, fs[0].1), QuotedClause(fs[1].0, fs[1].1), QuotedClause(fs[2].0, fs[2].1), " and ");
  }

  /** The three fixed keys of a filter mapping that holds them in order. */
  lemma ThreeFields(a: string, s: string, n: nat)
    ensures var fs := [("address", JStr(a)), ("space", JStr(s)), ("cidr", JInt(n))];
      Subscript(JObject(fs), "address") == Ok(JStr(a)) && Subscript(JObject(fs), "space") == Ok(JStr(s))
      && Subscript(JObject(fs), "cidr") == Ok(JInt(n))
  {
    var fs := [("address", JStr(a)), ("space", JStr(s)), ("cidr", JInt(n))];
    assert "address"[0] != "space"[0] && "address"[0] != "cidr"[0] && "space"[0] != "cidr"[0];
    assert fs[1..] == [("space", JStr(s)), ("cidr", JInt(n))];
    assert fs[1..][1..] == [("cidr", JInt(n))];
    assert Get(fs, "space") == Some(JStr(s));
    assert Get(fs[1..][1..], "cidr") == Some(JInt(n));
    assert Get(fs[1..], "cidr") == Some(JInt(n));
    assert Get(fs, "cidr") == Some(JInt(n));
  }

  /** The fixed-key filter raises `KeyError` when `filters` lacks one of
      address, space and cidr; the item filters accept any mapping, and
      an empty one gives the empty filter, not None. */
  lemma FilterKeys(c: Collection, params: Dict, fs: Dict)
    requires Attr(params, "filters") == JObject(fs)
    ensures FixedKeyFilter(c) ==>
      (FilterString(c, params).Ok? <==> "address" in Keys(fs) && "space" in Keys(fs) && "cidr" in Keys(fs))
    ensures !FixedKeyFilter(c) ==> FilterString(c, params) == Ok(Some(FilterText(fs, true)))
    ensures !FixedKeyFilter(c) && fs == [] ==> FilterString(c, params) == Ok(Some(""))
  {
  }

  /** Without `filters`, `filter_query` is sent as it is; without either,
      no filter is sent. */
  lemma FilterQuery(c: Collection, params: Dict)
    requires Attr(params, "filters") == JNull
    ensures FilterString(c, params) ==
      if Attr(params, "filter_query") == JNull then Ok(None) else Ok(Some(PyStr(Attr(params, "filter_query"))))
  {
  }

  /** With the arguments the framework accepts, a query string is sent as
      given (the structured form it excludes would otherwise win), and a
      read by id carries no filter at all. */
  lemma AcceptedFilters(c: Collection, params: Dict)
    requires Accepted(params)
    ensures Attr(params, "filter_query") != JNull ==>
      FilterString(c, params) == Ok(Some(PyStr(Attr(params, "filter_query"))))
    ensures Attr(params, "tag_filter_query") != JNull ==>
      TagFilterString(params) == Ok(Some(PyStr(Attr(params, "tag_filter_query"))))
    ensures Attr(params, "id") != JNull ==> FilterString(c, params) == Ok(None) && TagFilterString(params) == Ok(None)
  {
  }
}
