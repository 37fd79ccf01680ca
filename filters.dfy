/** Filter expressions and query strings for the BloxOne DDI REST API, as
    the lookup plugin, the gather modules and the info modules build them
    from a mapping of field names to values. */
module Filters {
  import opened Json

  // ---------------------------------------------------------------------
  // Clauses

  /** `k==v` when `str(v)` is all digits, else `k=='v'` (lookup plugin and
      gather modules). */
  function Clause(k: string, v: Json): (c: string)
    ensures IsPrefix(k + "==", c)
  {
    if IsDigitString(PyStr(v)) then k + "==" + PyStr(v) else k + "=='" + PyStr(v) + "'"
  }

  /** `k=='v'`, always quoted (info modules). */
  function QuotedClause(k: string, v: Json): string {
    k + "=='" + PyStr(v) + "'"
  }

  /** The value text of a clause on key k: what follows "k==", without the
      quotes if it is quoted. */
  function ClauseValue(c: string, k: string): string
    requires IsPrefix(k + "==", c)
  {
    var rest := c[|k| + 2..];
    if |rest| >= 2 && rest[0] == '\'' && rest[|rest| - 1] == '\'' then rest[1..|rest| - 1] else rest
  }

  /** A clause names its key, carries the value's text, and is unquoted
      exactly when that text is all digits. */
  lemma ClauseRoundTrip(k: string, v: Json)
    ensures IsPrefix(k + "==", Clause(k, v))
    ensures ClauseValue(Clause(k, v), k) == PyStr(v)
    ensures Clause(k, v)[|k| + 2..] == PyStr(v) <==> IsDigitString(PyStr(v))
  {
    var c, t := Clause(k, v), PyStr(v);
    assert c[..|k| + 2] == k + "==";
    if IsDigitString(t) {
      assert c[|k| + 2..] == t;
      assert t[0] != '\'';
    } else {
      assert c[|k| + 2..] == "'" + t + "'";
      assert ("'" + t + "'")[1..|t| + 1] == t;
      assert |c[|k| + 2..]| != |t|;
    }
  }

  lemma QuotedClauseRoundTrip(k: string, v: Json)
    ensures IsPrefix(k + "==", QuotedClause(k, v))
    ensures ClauseValue(QuotedClause(k, v), k) == PyStr(v)
  {
    var c, t := QuotedClause(k, v), PyStr(v);
    assert c[..|k| + 2] == k + "==";
    assert c[|k| + 2..] == "'" + t + "'";
    assert ("'" + t + "'")[1..|t| + 1] == t;
  }

  /** One clause per item, in the mapping's order. */
  function Clauses(filters: Dict, quoted: bool): (cs: seq<string>)
    ensures |cs| == |filters|
    ensures forall i :: 0 <= i < |filters| ==>
      cs[i] == if quoted then QuotedClause(filters[i].0, filters[i].1) else Clause(filters[i].0, filters[i].1)
  {
    seq(|filters|, i requires 0 <= i < |filters| =>
      if quoted then QuotedClause(filters[i].0, filters[i].1) else Clause(filters[i].0, filters[i].1))
  }

  /** The loop that appends one clause per filter item. */
  method RenderClauses(filters: Dict, quoted: bool) returns (cs: seq<string>)
    ensures cs == Clauses(filters, quoted)
  {
    cs := [];
    var i := 0;
    while i < |filters|
      invariant 0 <= i <= |filters|
      invariant cs == Clauses(filters[..i], quoted)
    {
      var k, v := filters[i].0, filters[i].1;
      cs := cs + [if quoted then QuotedClause(k, v) else Clause(k, v)];
      assert filters[..i + 1][..i] == filters[..i];
      i := i + 1;
    }
    assert filters[..i] == filters;
  }

  /** The filter expression: the clauses joined with " and ". */
  function FilterText(filters: Dict, quoted: bool): string {
    Join(Clauses(filters, quoted), " and ")
  }

  lemma FilterTextOne(k: string, v: Json, quoted: bool)
    ensures FilterText([(k, v)], quoted) == if quoted then QuotedClause(k, v) else Clause(k, v)
  {
  }

  lemma FilterTextTwo(k1: string, v1: Json, k2: string, v2: Json)
    ensures FilterText([(k1, v1), (k2, v2)], true) == QuotedClause(k1, v1) + " and " + QuotedClause(k2, v2)
  {
    assert Clauses([(k1, v1), (k2, v2)], true) == [QuotedClause(k1, v1), QuotedClause(k2, v2)];
    JoinTwo(QuotedClause(k1, v1), QuotedClause(k2, v2), " and ");
  }

  // ---------------------------------------------------------------------
  // Endpoints with `_fields`, `_filter` and `_tfilter` query parameters

  /** `",".join(fields)`: None when an element is not a string (TypeError). */
  function FieldNames(items: seq<Json>): (r: Option<seq<string>>)
    ensures r.Some? ==> |r.value| == |items| && forall i :: 0 <= i < |items| ==> items[i] == JStr(r.value[i])
    ensures r.None? ==> exists i :: 0 <= i < |items| && !items[i].JStr?
    decreases |items|
  {
    if items == [] then Some([])
    else if !items[0].JStr? then None
    else
      match FieldNames(items[1..])
      case None => None
      case Some(rest) => Some([items[0].s] + rest)
  }

  /** "?_fields=a,b" for a list of field names; nothing for anything else. */
  function FieldsPart(fields: Json): Outcome<string> {
    if !fields.JList? then Ok("")
    else
      match FieldNames(fields.items)
      case None => Raises("TypeError: sequence item: expected str instance")
      case Some(names) => Ok("?_fields=" + Join(names, ","))
  }

  /** Whether a filter parameter contributes: a non-empty mapping. */
  predicate Contributes(filters: Json) {
    filters.JObject? && filters.fields != []
  }

  /** "&name=clauses" after an earlier parameter, "?name=clauses" otherwise. */
  function FilterPart(name: string, filters: Json, afterQuery: bool): (f: string)
    ensures f == "" <==> !Contributes(filters)
    ensures f != "" ==> f[0] == (if afterQuery then '&' else '?') && IsPrefix(name + "=", f[1..])
  {
    if !Contributes(filters) then ""
    else (if afterQuery then "&" else "?") + name + "=" + FilterText(filters.fields, false)
  }

  /** The endpoint as the lookup plugin and the gather modules build it:
      the separator of `_filter` and of `_tfilter` depends only on whether
      `_fields` was added. */
  function Endpoint(base: string, fields: Json, filters: Json, tfilters: Json): (r: Outcome<string>)
    ensures r.Ok? ==> IsPrefix(base, r.value)
    ensures !Contributes(filters) && !Contributes(tfilters) && !fields.JList? ==> r == Ok(base)
  {
    match FieldsPart(fields)
    case Raises(e) => Raises(e)
    case Ok(fp) =>
      var r := base + fp + FilterPart("_filter", filters, fields.JList?) + FilterPart("_tfilter", tfilters, fields.JList?);
      assert !Contributes(filters) && !Contributes(tfilters) && !fields.JList? ==> r == base + "" + "" + "" == base;
      Ok(r)
  }

  /** One `_filter`/`_tfilter` step of the construction: the clauses of a
      non-empty mapping, after "&" when `flag` is set and "?" otherwise. */
  method AppendFilter(endpoint: string, name: string, filters: Json, flag: int) returns (e: string)
    ensures e == endpoint + FilterPart(name, filters, flag == 1)
  {
    e := endpoint;
    if Contributes(filters) {
      var clauses := RenderClauses(filters.fields, false);
      var res := Join(clauses, " and ");
      assert res == FilterText(filters.fields, false);
      if flag == 1 {
        e := e + ("&" + name + "=" + res);
      } else {
        e := e + ("?" + name + "=" + res);
      }
    } else {
      assert e == endpoint + "";
    }
  }

  /** The stepwise construction with its `flag` variable. */
  method BuildEndpoint(base: string, fields: Json, filters: Json, tfilters: Json) returns (r: Outcome<string>)
    ensures r == Endpoint(base, fields, filters, tfilters)
  {
    var endpoint := base;
    var flag := 0;
    if fields.JList? {
      var names := FieldNames(fields.items);
      if names.None? {
        return Raises("TypeError: sequence item: expected str instance");
      }
      endpoint := endpoint + ("?_fields=" + Join(names.value, ","));
      flag := 1;
    }
    var fp := FieldsPart(fields);
    assert fp.Ok? && endpoint == base + fp.value;
    assert flag == 1 <==> fields.JList?;
    endpoint := AppendFilter(endpoint, "_filter", filters, flag);
    endpoint := AppendFilter(endpoint, "_tfilter", tfilters, flag);
    assert endpoint == base + fp.value + FilterPart("_filter", filters, fields.JList?) + FilterPart("_tfilter", tfilters, fields.JList?);
    EndpointOk(base, fields, filters, tfilters, fp.value);
    return Ok(endpoint);
  }

  lemma EndpointOk(base: string, fields: Json, filters: Json, tfilters: Json, fp: string)
    requires FieldsPart(fields) == Ok(fp)
    ensures Endpoint(base, fields, filters, tfilters) ==
      Ok(base + fp + FilterPart("_filter", filters, fields.JList?) + FilterPart("_tfilter", tfilters, fields.JList?))
  {
  }

  /** The endpoint with `_tfilter` joined by "&" whenever any parameter
      precedes it. */
  function EndpointCorrected(base: string, fields: Json, filters: Json, tfilters: Json): (r: Outcome<string>)
    ensures r.Ok? ==> IsPrefix(base, r.value)
    ensures Endpoint(base, fields, filters, tfilters).Ok? <==> r.Ok?
    ensures fields.JList? || !Contributes(filters) || !Contributes(tfilters) ==> r == Endpoint(base, fields, filters, tfilters)
  {
    match FieldsPart(fields)
    case Raises(e) => Raises(e)
    case Ok(fp) =>
      Ok(base + fp + FilterPart("_filter", filters, fields.JList?) +
         FilterPart("_tfilter", tfilters, fields.JList? || Contributes(filters)))
  }

  // ---------------------------------------------------------------------
  // Counting "?" in query strings

  /** No "?" anywhere in the texts that go into an endpoint. */
  predicate NoQuestionMarks(base: string, fields: Json, filters: Json, tfilters: Json) {
    '?' !in base &&
    (fields.JList? ==> forall i :: 0 <= i < |fields.items| ==> fields.items[i].JStr? ==> '?' !in fields.items[i].s) &&
    (filters.JObject? ==> forall i :: 0 <= i < |filters.fields| ==> '?' !in filters.fields[i].0 && '?' !in PyStr(filters.fields[i].1)) &&
    (tfilters.JObject? ==> forall i :: 0 <= i < |tfilters.fields| ==> '?' !in tfilters.fields[i].0 && '?' !in PyStr(tfilters.fields[i].1))
  }

  lemma {:induction false} CountAppend(a: string, b: string, c: char)
    ensures Count(a + b, c) == Count(a, c) + Count(b, c)
    decreases |a|
  {
    if a == [] {
      assert a + b == b;
    } else {
      CountAppend(a[1..], b, c);
      assert (a + b)[0] == a[0];
      assert (a + b)[1..] == a[1..] + b;
    }
  }

  lemma CountConcat3(a: string, b: string, c: string, ch: char)
    ensures Count(a + b + c, ch) == Count(a, ch) + Count(b, ch) + Count(c, ch)
  {
    CountAppend(a, b, ch);
    CountAppend(a + b, c, ch);
  }

  lemma {:induction false} CountAbsent(s: string, c: char)
    requires c !in s
    ensures Count(s, c) == 0
    decreases |s|
  {
    if s != [] {
      CountAbsent(s[1..], c);
    }
  }

  lemma {:induction false} JoinAvoids(parts: seq<string>, sep: string, c: char)
    requires c !in sep && forall i :: 0 <= i < |parts| ==> c !in parts[i]
    ensures c !in Join(parts, sep)
    decreases |parts|
  {
    if |parts| > 1 {
      JoinAvoids(parts[1..], sep, c);
    }
  }

  lemma FilterTextAvoids(filters: Dict)
    requires forall i :: 0 <= i < |filters| ==> '?' !in filters[i].0 && '?' !in PyStr(filters[i].1)
    ensures '?' !in FilterText(filters, false)
  {
    JoinAvoids(Clauses(filters, false), " and ", '?');
  }

  /** The "?" count of one `_filter`/`_tfilter` part. */
  lemma FilterPartCount(name: string, filters: Json, afterQuery: bool)
    requires '?' !in name
    requires filters.JObject? ==> forall i :: 0 <= i < |filters.fields| ==> '?' !in filters.fields[i].0 && '?' !in PyStr(filters.fields[i].1)
    ensures Count(FilterPart(name, filters, afterQuery), '?') == if Contributes(filters) && !afterQuery then 1 else 0
  {
    if Contributes(filters) {
      FilterTextAvoids(filters.fields);
      var rest := name + "=" + FilterText(filters.fields, false);
      CountAbsent(rest, '?');
      CountAppend(if afterQuery then "&" else "?", rest, '?');
      assert FilterPart(name, filters, afterQuery) == (if afterQuery then "&" else "?") + rest;
    }
  }

  lemma FieldsPartCount(fields: Json)
    requires fields.JList? ==> forall i :: 0 <= i < |fields.items| ==> fields.items[i].JStr? ==> '?' !in fields.items[i].s
    requires FieldsPart(fields).Ok?
    ensures Count(FieldsPart(fields).value, '?') == if fields.JList? then 1 else 0
  {
    if fields.JList? {
      var names := FieldNames(fields.items).value;
      JoinAvoids(names, ",", '?');
      var rest := "_fields=" + Join(names, ",");
      CountAbsent(rest, '?');
      CountAppend("?", rest, '?');
      assert FieldsPart(fields).value == "?" + rest;
    }
  }

  lemma EndpointWithoutFields(base: string, filters: Json, tfilters: Json)
    ensures Endpoint(base, JNull, filters, tfilters) ==
      Ok(base + FilterPart("_filter", filters, false) + FilterPart("_tfilter", tfilters, false))
  {
    assert FieldsPart(JNull) == Ok("");
    assert base + "" == base;
  }

  /** As written: without `_fields`, a `_filter` and a `_tfilter` both open
      with "?", so the endpoint carries two query separators. */
  lemma EndpointDoubleQuestionMark(base: string, filters: Json, tfilters: Json)
    requires NoQuestionMarks(base, JNull, filters, tfilters)
    requires Contributes(filters) && Contributes(tfilters)
    ensures Endpoint(base, JNull, filters, tfilters).Ok?
    ensures Count(Endpoint(base, JNull, filters, tfilters).value, '?') == 2
  {
    var f := FilterPart("_filter", filters, false);
    var t := FilterPart("_tfilter", tfilters, false);
    EndpointWithoutFields(base, filters, tfilters);
    FilterPartCount("_filter", filters, false);
    FilterPartCount("_tfilter", tfilters, false);
    CountAbsent(base, '?');
    CountConcat3(base, f, t, '?');
  }

  /** Corrected: the endpoint has a "?" exactly when some query parameter
      was added, and never more than one. */
  lemma EndpointCorrectedOneQuestionMark(base: string, fields: Json, filters: Json, tfilters: Json)
    requires NoQuestionMarks(base, fields, filters, tfilters)
    requires EndpointCorrected(base, fields, filters, tfilters).Ok?
    ensures Count(EndpointCorrected(base, fields, filters, tfilters).value, '?') ==
      if fields.JList? || Contributes(filters) || Contributes(tfilters) then 1 else 0
  {
    var fp := FieldsPart(fields).value;
    var f := FilterPart("_filter", filters, fields.JList?);
    var t := FilterPart("_tfilter", tfilters, fields.JList? || Contributes(filters));
    FieldsPartCount(fields);
    FilterPartCount("_filter", filters, fields.JList?);
    FilterPartCount("_tfilter", tfilters, fields.JList? || Contributes(filters));
    CountAbsent(base, '?');
    CountAppend(base, fp, '?');
    CountAppend(base + fp, f, '?');
    CountAppend(base + fp + f, t, '?');
  }
}
