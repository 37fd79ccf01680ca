/** The shared base of every resource module (plugins/module_utils/modules.py):
    change detection between the desired payload and the existing object,
    the read-only guard applied before an update, the client configuration
    and its per-module cache, and the common argument specification. */
module ModuleUtils {
  import opened Json

  /** What `_is_changed` does: returns False, returns True, or raises. */
  datatype Change = Unchanged | Changed | Raised

  // ---------------------------------------------------------------------
  // Python's operators on the existing value, as `_is_changed` uses them.
  // None stands for "the operator raises".

  /** `len(existing[k])`. */
  function Len(e: Json): Option<nat> {
    match e
    case JStr(s) => Some(|s|)
    case JList(items) => Some(|items|)
    case JObject(fs) => Some(|fs|)
    case _ => None
  }

  /** `existing[k][i]`: a dict keyed by strings has no integer key. */
  function Index(e: Json, i: nat): Option<Json> {
    match e
    case JStr(s) => if i < |s| then Some(JStr([s[i]])) else None
    case JList(items) => if i < |items| then Some(items[i]) else None
    case _ => None
  }

  /** `existing[k] == v` for a payload value that is a bool, an int or a str
      (Python compares True with 1 and False with 0 as equal). */
  predicate ScalarEqual(x: Json, v: Json) {
    match (x, v)
    case (JBool(a), JBool(b)) => a == b
    case (JBool(a), JInt(n)) => (if a then 1 else 0) == n
    case (JInt(m), JBool(b)) => m == (if b then 1 else 0)
    case (JInt(m), JInt(n)) => m == n
    case (JStr(s), JStr(t)) => s == t
    case _ => false
  }

  // ---------------------------------------------------------------------
  // `_is_changed(existing, payload)`, as a specification.

  function Changes(e: Json, p: Json): Change
    decreases p, 2, 0
  {
    if p.JObject? then FieldsChange(e, p, 0) else Raised
  }

  /** The loop over the payload's items from item j on: it stops at the
      first item that is changed or raises. */
  function FieldsChange(e: Json, p: Json, j: nat): Change
    requires p.JObject? && j <= |p.fields|
    decreases p, 1, |p.fields| - j
  {
    if j == |p.fields| then Unchanged
    else
      var c := FieldChange(e, p, j);
      if c == Unchanged then FieldsChange(e, p, j + 1) else c
  }

  /** One item (k, v) of the payload. */
  function FieldChange(e: Json, p: Json, j: nat): Change
    requires p.JObject? && j < |p.fields|
    decreases p, 1, 0
  {
    var k := p.fields[j].0;
    var v := p.fields[j].1;
    if v.JNull? then Unchanged
    else match In(k, e)
      case None => Raised
      case Some(false) => Changed
      case Some(true) =>
        if !e.JObject? then Raised
        else
          var x := Get(e.fields, k).value;
          if v.JList? then
            match Len(x)
            case None => Raised
            case Some(n) => if n != |v.items| then Changed else ElemsChange(x, v, 0)
          else if v.JObject? then Changes(x, v)
          else if ScalarEqual(x, v) then Unchanged
          else Changed
  }

  /** The inner loop over equal-length lists from element i on: every
      element is compared (no early exit), each as a mapping. */
  function ElemsChange(x: Json, v: Json, i: nat): Change
    requires v.JList? && i <= |v.items|
    decreases v, 0, |v.items| - i
  {
    if i == |v.items| then Unchanged
    else match Index(x, i)
      case None => Raised
      case Some(xi) =>
        var c := Changes(xi, v.items[i]);
        if c == Raised then Raised
        else
          var rest := ElemsChange(x, v, i + 1);
          if rest == Raised then Raised
          else if c == Changed || rest == Changed then Changed
          else Unchanged
  }

  /** `_is_changed`, step by step as the source runs it. */
  method IsChanged(existing: Json, payload: Json) returns (r: Change)
    ensures r == Changes(existing, payload)
    decreases payload, 2, 0
  {
    if !payload.JObject? {
      return Raised;
    }
    var fields := payload.fields;
    var changed := false;
    var j := 0;
    while j < |fields|
      invariant 0 <= j <= |fields|
      invariant FieldsChange(existing, payload, 0) == FieldsChange(existing, payload, j)
    {
      var k, v := fields[j].0, fields[j].1;
      if v != JNull {
        var has := In(k, existing);
        if has.None? {
          return Raised;
        }
        if !has.value {
          changed := true;
        } else if !existing.JObject? {
          return Raised;
        } else {
          var x := Get(existing.fields, k).value;
          if v.JList? {
            var n := Len(x);
            if n.None? {
              return Raised;
            }
            if n.value != |v.items| {
              changed := true;
            } else {
              var i := 0;
              var listChanged := false;
              while i < |v.items|
                invariant 0 <= i <= |v.items|
                invariant ElemsChange(x, v, 0) ==
                  if !listChanged then ElemsChange(x, v, i)
                  else if ElemsChange(x, v, i) == Raised then Raised
                  else Changed
              {
                var xi := Index(x, i);
                if xi.None? {
                  return Raised;
                }
                var c := IsChanged(xi.value, v.items[i]);
                if c == Raised {
                  return Raised;
                }
                if c == Changed {
                  listChanged := true;
                }
                i := i + 1;
              }
              changed := listChanged;
            }
          } else if v.JObject? {
            var c := IsChanged(x, v);
            if c == Raised {
              return Raised;
            }
            changed := c == Changed;
          } else if !ScalarEqual(x, v) {
            changed := true;
          }
        }
      }
      assert changed <==> FieldChange(existing, payload, j) == Changed;
      if changed {
        break;
      }
      j := j + 1;
    }
    r := if changed then Changed else Unchanged;
  }

  // ---------------------------------------------------------------------
  // An independent, declarative reading of the comparison, for payloads
  // whose shape matches the existing object.

  /** No comparison raises: the existing value is a mapping, and every
      payload list or mapping meets a list or mapping there. */
  predicate Shaped(e: Json, p: Json)
    decreases p, 0
  {
    e.JObject? && p.JObject? &&
    forall j :: 0 <= j < |p.fields| ==> ValueShaped(Get(e.fields, p.fields[j].0), p.fields[j].1)
  }

  predicate ValueShaped(x: Option<Json>, v: Json)
    decreases v, 1
  {
    match x
    case None => true
    case Some(y) =>
      match v
      case JList(items) =>
        y.JList? && (|y.items| == |items| ==> forall i :: 0 <= i < |items| ==> Shaped(y.items[i], items[i]))
      case JObject(_) => Shaped(y, v)
      case _ => true
  }

  /** Some non-None payload field is missing, of another length, or
      differs (element-wise for lists, recursively for mappings). */
  predicate Differs(e: Json, p: Json)
    decreases p, 0
  {
    e.JObject? && p.JObject? &&
    exists j :: 0 <= j < |p.fields| && p.fields[j].1 != JNull && ValueDiffers(Get(e.fields, p.fields[j].0), p.fields[j].1)
  }

  predicate ValueDiffers(x: Option<Json>, v: Json)
    decreases v, 1
  {
    match x
    case None => true
    case Some(y) =>
      match v
      case JList(items) =>
        !y.JList? || |y.items| != |items| ||
        exists i :: 0 <= i < |items| && Differs(y.items[i], items[i])
      case JObject(_) => Differs(y, v)
      case _ => !ScalarEqual(y, v)
  }

  /** On comparable inputs `_is_changed` never raises, and it reports a
      change exactly when some payload field differs. */
  lemma {:induction false} ChangesMatchesDiffers(e: Json, p: Json)
    requires Shaped(e, p)
    ensures Changes(e, p) != Raised
    ensures Changes(e, p) == Changed <==> Differs(e, p)
    decreases p, 2, 0
  {
    FieldsMatch(e, p, 0);
  }

  lemma {:induction false} FieldsMatch(e: Json, p: Json, j: nat)
    requires Shaped(e, p) && j <= |p.fields|
    ensures FieldsChange(e, p, j) != Raised
    ensures FieldsChange(e, p, j) == Changed <==>
      exists j' :: j <= j' < |p.fields| && p.fields[j'].1 != JNull && ValueDiffers(Get(e.fields, p.fields[j'].0), p.fields[j'].1)
    decreases p, 1, |p.fields| - j
  {
    if j < |p.fields| {
      FieldMatches(e, p, j);
      FieldsMatch(e, p, j + 1);
    }
  }

  lemma {:induction false} FieldMatches(e: Json, p: Json, j: nat)
    requires Shaped(e, p) && j < |p.fields|
    ensures FieldChange(e, p, j) != Raised
    ensures FieldChange(e, p, j) == Changed <==>
      p.fields[j].1 != JNull && ValueDiffers(Get(e.fields, p.fields[j].0), p.fields[j].1)
    decreases p, 1, 0
  {
    var k, v := p.fields[j].0, p.fields[j].1;
    assert ValueShaped(Get(e.fields, k), v);
    if v != JNull && k in Keys(e.fields) {
      var x := Get(e.fields, k).value;
      if v.JList? {
        if |x.items| == |v.items| {
          ElemsMatch(x, v, 0);
        }
      } else if v.JObject? {
        ChangesMatchesDiffers(x, v);
      }
    }
  }

  lemma {:induction false} ElemsMatch(x: Json, v: Json, i: nat)
    requires x.JList? && v.JList? && |x.items| == |v.items| && i <= |v.items|
    requires forall i' :: 0 <= i' < |v.items| ==> Shaped(x.items[i'], v.items[i'])
    ensures ElemsChange(x, v, i) != Raised
    ensures ElemsChange(x, v, i) == Changed <==>
      exists i' :: i <= i' < |v.items| && Differs(x.items[i'], v.items[i'])
    decreases v, 0, |v.items| - i
  {
    if i < |v.items| {
      ChangesMatchesDiffers(x.items[i], v.items[i]);
      ElemsMatch(x, v, i + 1);
    }
  }

  // ---------------------------------------------------------------------
  // Further properties of the comparison.

  /** A payload whose values are all None (or that is empty) is never a change. */
  lemma {:induction false} NullPayloadUnchanged(e: Json, p: Json)
    requires p.JObject?
    requires forall j :: 0 <= j < |p.fields| ==> p.fields[j].1 == JNull
    ensures Changes(e, p) == Unchanged
  {
    var j := |p.fields|;
    while j > 0
      invariant 0 <= j <= |p.fields|
      invariant FieldsChange(e, p, j) == Unchanged
    {
      j := j - 1;
    }
  }

  /** A non-None payload key that the existing mapping lacks is a change,
      unless an earlier item already decided the outcome. */
  lemma {:induction false} MissingKeyChanged(e: Json, p: Json, j: nat)
    requires e.JObject? && p.JObject? && j < |p.fields|
    requires p.fields[j].1 != JNull && p.fields[j].0 !in Keys(e.fields)
    requires forall j' :: 0 <= j' < j ==> FieldChange(e, p, j') == Unchanged
    ensures Changes(e, p) == Changed
  {
    var i := j;
    assert FieldsChange(e, p, i) == Changed;
    while i > 0
      invariant 0 <= i <= j
      invariant FieldsChange(e, p, i) == Changed
    {
      i := i - 1;
    }
  }

  /** Keys present only in the existing object never matter: two existing
      mappings that agree on the payload's keys compare alike. */
  lemma {:induction false} OnlyPayloadKeysMatter(e1: Json, e2: Json, p: Json)
    requires e1.JObject? && e2.JObject? && p.JObject?
    requires forall j :: 0 <= j < |p.fields| ==> Get(e1.fields, p.fields[j].0) == Get(e2.fields, p.fields[j].0)
    ensures Changes(e1, p) == Changes(e2, p)
  {
    var j := |p.fields|;
    while j > 0
      invariant 0 <= j <= |p.fields|
      invariant FieldsChange(e1, p, j) == FieldsChange(e2, p, j)
    {
      j := j - 1;
      var k := p.fields[j].0;
      assert Get(e1.fields, k) == Get(e2.fields, k);
      assert (k in Keys(e1.fields)) == (k in Keys(e2.fields));
      assert FieldChange(e1, p, j) == FieldChange(e2, p, j);
    }
  }

  /** The loop breaks at the first change: whatever follows a changed item,
      even an item that would raise, is never looked at. */
  lemma {:induction false} FirstChangeWins(e: Json, fs: Dict, rest: Dict)
    requires Changes(e, JObject(fs)) == Changed
    ensures Changes(e, JObject(fs + rest)) == Changed
  {
    var p, q := JObject(fs), JObject(fs + rest);
    var j := 0;
    while j < |fs| && FieldChange(e, p, j) == Unchanged
      invariant 0 <= j <= |fs|
      invariant FieldsChange(e, p, j) == Changed
      invariant forall i :: 0 <= i < j ==> FieldChange(e, q, i) == Unchanged
      decreases |fs| - j
    {
      assert q.fields[j] == p.fields[j];
      assert FieldChange(e, q, j) == FieldChange(e, p, j);
      j := j + 1;
    }
    assert q.fields[j] == p.fields[j];
    assert FieldChange(e, q, j) == Changed;
    while j > 0
      invariant 0 <= j <= |fs|
      invariant FieldsChange(e, q, j) == Changed
    {
      j := j - 1;
    }
  }

  /** Same-length lists of plain strings cannot be compared: each element
      is treated as a mapping and Python raises. */
  lemma {:induction false} StringListsRaise(k: string, xs: seq<string>, ys: seq<string>)
    requires |xs| == |ys| > 0
    ensures Changes(JObject([(k, JList(Strs(xs)))]), JObject([(k, JList(Strs(ys)))])) == Raised
  {
    var e, p := JObject([(k, JList(Strs(xs)))]), JObject([(k, JList(Strs(ys)))]);
    var x, v := JList(Strs(xs)), JList(Strs(ys));
    assert Get(e.fields, k) == Some(x);
    assert Changes(x.items[0], v.items[0]) == Raised;
    assert ElemsChange(x, v, 0) == Raised;
    assert FieldChange(e, p, 0) == Raised;
  }

  function Strs(ss: seq<string>): (r: seq<Json>)
    ensures |r| == |ss| && forall i :: 0 <= i < |ss| ==> r[i] == JStr(ss[i])
  {
    seq(|ss|, i requires 0 <= i < |ss| => JStr(ss[i]))
  }

  /** Equal-length lists are compared position by position, so the same
      two mappings given in the other order are a change. */
  lemma ReorderedListChanged(k: string, a: Json, b: Json)
    requires Shaped(a, b) && Shaped(b, a) && Differs(a, b)
    ensures Changes(JObject([(k, JList([a, b]))]), JObject([(k, JList([b, a]))])) == Changed
  {
    var e, p := JObject([(k, JList([a, b]))]), JObject([(k, JList([b, a]))]);
    var x, v := JList([a, b]), JList([b, a]);
    ChangesMatchesDiffers(a, b);
    ChangesMatchesDiffers(b, a);
    assert ElemsChange(x, v, 2) == Unchanged;
    assert Index(x, 1) == Some(b) && v.items[1] == a;
    assert ElemsChange(x, v, 1) != Raised;
    assert Index(x, 0) == Some(a) && v.items[0] == b;
    assert ElemsChange(x, v, 0) == Changed;
    assert Get(e.fields, k) == Some(x);
    assert FieldChange(e, p, 0) == Changed;
  }

  // ---------------------------------------------------------------------
  // validate_readonly_on_update

  /** A client-library model object, updated in place by `setattr`. */
  class ModelObject {
    var attrs: Dict

    constructor (attrs: Dict)
      ensures this.attrs == attrs
    {
      this.attrs := attrs;
    }
  }

  datatype GuardResult = Cleared(body: Dict) | Rejected(field: string)

  /** The guard's loop: each listed field must equal the existing object's
      (else "<field> cannot be updated"), and is then set to None. */
  function Guard(existing: Dict, body: Dict, fields: seq<string>): (g: GuardResult)
    ensures g.Rejected? ==> g.field in fields
    ensures g.Cleared? ==> Keys(g.body) == Keys(body) + set f | f in fields
    ensures g.Cleared? ==> forall k :: Attr(g.body, k) == if k in fields then JNull else Attr(body, k)
    decreases |fields|
  {
    if fields == [] then Cleared(body)
    else if Attr(body, fields[0]) != Attr(existing, fields[0]) then Rejected(fields[0])
    else
      var g := Guard(existing, Put(body, fields[0], JNull), fields[1..]);
      assert g.Cleared? ==> forall k :: Attr(g.body, k) == if k in fields then JNull else Attr(body, k) by {
        if g.Cleared? {
          forall k
            ensures Attr(g.body, k) == if k in fields then JNull else Attr(body, k)
          {
            AttrPut(body, fields[0], JNull, k);
          }
        }
      }
      g
  }

  predicate Distinct(fields: seq<string>) {
    forall i, j :: 0 <= i < j < |fields| ==> fields[i] != fields[j]
  }

  lemma AttrPut(d: Dict, k: string, v: Json, k': string)
    ensures Attr(Put(d, k, v), k') == if k' == k then v else Attr(d, k')
  {
    GetPut(d, k, v, k');
  }

  /** For a list of distinct fields, the guard passes exactly when every
      listed field is unchanged; it then sets those fields to None and
      leaves every other attribute as it was. A rejection names a listed
      field that differs. */
  lemma {:induction false} GuardSpec(existing: Dict, body: Dict, fields: seq<string>)
    requires Distinct(fields)
    ensures Guard(existing, body, fields).Cleared? <==>
      forall i :: 0 <= i < |fields| ==> Attr(body, fields[i]) == Attr(existing, fields[i])
    ensures Guard(existing, body, fields).Cleared? ==>
      forall k :: Attr(Guard(existing, body, fields).body, k) == if k in fields then JNull else Attr(body, k)
    ensures Guard(existing, body, fields).Rejected? ==>
      Guard(existing, body, fields).field in fields &&
      Attr(body, Guard(existing, body, fields).field) != Attr(existing, Guard(existing, body, fields).field)
    decreases |fields|
  {
    if fields != [] {
      var f := fields[0];
      if Attr(body, f) == Attr(existing, f) {
        var body' := Put(body, f, JNull);
        GuardSpec(existing, body', fields[1..]);
        forall i | 1 <= i < |fields|
          ensures Attr(body', fields[i]) == Attr(body, fields[i])
        {
          AttrPut(body, f, JNull, fields[i]);
        }
        forall k
          ensures Guard(existing, body, fields).Cleared? ==>
            Attr(Guard(existing, body, fields).body, k) == if k in fields then JNull else Attr(body, k)
        {
          AttrPut(body, f, JNull, k);
          assert k in fields <==> k == f || k in fields[1..];
        }
        if Guard(existing, body, fields).Rejected? {
          var g := Guard(existing, body, fields).field;
          assert g in fields[1..];
          var i :| 1 <= i < |fields| && fields[i] == g;
          assert Attr(body', g) == Attr(body, g);
        }
      }
    }
  }

  /** `validate_readonly_on_update`: mutates the update body in place. */
  method ValidateReadonlyOnUpdate(existing: Dict, body: ModelObject, fields: seq<string>) returns (rejected: Option<string>)
    modifies body
    ensures match Guard(existing, old(body.attrs), fields)
      case Cleared(b) => rejected.None? && body.attrs == b
      case Rejected(f) => rejected == Some(f)
  {
    var i := 0;
    while i < |fields|
      invariant 0 <= i <= |fields|
      invariant Guard(existing, old(body.attrs), fields) == Guard(existing, body.attrs, fields[i..])
    {
      var f := fields[i];
      assert fields[i..][1..] == fields[i + 1..];
      if Attr(body.attrs, f) != Attr(existing, f) {
        return Some(f);
      }
      body.attrs := Put(body.attrs, f, JNull);
      i := i + 1;
    }
    return None;
  }

  // ---------------------------------------------------------------------
  // Client configuration, the per-module client cache, and the common
  // argument specification.

  /** The client library's configuration object. */
  datatype Configuration = Configuration(cspUrl: Option<string>, apiKey: Option<string>, clientName: string, debug: bool)

  /** The client library's API client, built from a configuration. */
  datatype ApiClient = ApiClient(config: Configuration)

  /** An empty or missing parameter becomes None; Python treats "" as false. */
  function NoneIfEmpty(v: Option<string>): (r: Option<string>)
    ensures r.Some? ==> r.value != "" && r == v
    ensures v.Some? && v.value != "" ==> r == v
  {
    if v.Some? && v.value != "" then v else None
  }

  /** `_get_client_config` on the module's `csp_url` and `api_key` parameters. */
  function ClientConfig(cspUrl: Option<string>, apiKey: Option<string>): (c: Configuration)
    ensures c.clientName == "ansible" && c.debug
    ensures c.cspUrl == NoneIfEmpty(cspUrl) && c.apiKey == NoneIfEmpty(apiKey)
    ensures c.cspUrl.Some? ==> c.cspUrl.value != ""
    ensures c.apiKey.Some? ==> c.apiKey.value != ""
  {
    Configuration(NoneIfEmpty(cspUrl), NoneIfEmpty(apiKey), "ansible", true)
  }

  /** The part of BloxoneAnsibleModule that owns the API client: the client
      is built on first use and reused afterwards. */
  class BloxoneModule {
    const cspUrl: Option<string>
    const apiKey: Option<string>
    var client: Option<ApiClient>
    /** How many times a client was built (for the proof only). */
    ghost var builds: nat

    ghost predicate Valid()
      reads this
    {
      (client.None? <==> builds == 0) && builds <= 1 &&
      (client.Some? ==> client.value == ApiClient(ClientConfig(cspUrl, apiKey)))
    }

    constructor (cspUrl: Option<string>, apiKey: Option<string>)
      ensures Valid() && client.None?
      ensures this.cspUrl == cspUrl && this.apiKey == apiKey
    {
      this.cspUrl := cspUrl;
      this.apiKey := apiKey;
      client := None;
      builds := 0;
    }

    /** The `client` property. */
    method Client() returns (c: ApiClient)
      requires Valid()
      modifies this
      ensures Valid()
      ensures c == ApiClient(ClientConfig(cspUrl, apiKey))
      ensures client == Some(c) && builds == 1
      ensures builds == old(builds) + (if old(client).None? then 1 else 0)
    {
      if client.None? {
        client := Some(ApiClient(ClientConfig(cspUrl, apiKey)));
        builds := builds + 1;
      }
      c := client.value;
    }
  }

  /** One entry of an Ansible argument specification. */
  datatype ArgSpec = ArgSpec(
    typ: string,
    aliases: seq<string>,
    envFallback: Option<string>,
    default: Option<string>,
    noLog: bool,
    required: bool)

  /** `bloxone_client_common_argument_spec()`. */
  function CommonArgumentSpec(): (m: map<string, ArgSpec>)
    ensures m.Keys == {"api_key", "csp_url"}
    ensures m["api_key"].noLog && m["api_key"].envFallback == Some("BLOXONE_API_KEY")
    ensures m["csp_url"].default == Some("https://csp.infoblox.com")
    ensures m["csp_url"].envFallback == Some("BLOXONE_CSP_URL")
  {
    map[
      "api_key" := ArgSpec("str", ["bloxone_api_key"], Some("BLOXONE_API_KEY"), None, true, false),
      "csp_url" := ArgSpec("str", ["bloxone_csp_url"], Some("BLOXONE_CSP_URL"), Some("https://csp.infoblox.com"), false, false)
    ]
  }

  /** The `argument_spec` keyword a module passes to BloxoneAnsibleModule:
      absent, None, or a specification. */
  datatype SpecArg = NoSpecArg | NoneSpec | SpecGiven(spec: map<string, ArgSpec>)

  /** The argument specification BloxoneAnsibleModule hands to Ansible: the
      common entries, overridden by the module's own. `update(None)` raises
      TypeError, which is swallowed and leaves the common entries; a missing
      keyword raises KeyError, which is not. */
  function FullArgumentSpec(arg: SpecArg): (r: Outcome<map<string, ArgSpec>>)
    ensures r.Raises? <==> arg.NoSpecArg?
    ensures arg.NoneSpec? ==> r == Ok(CommonArgumentSpec())
    ensures arg.SpecGiven? ==> r.Ok? && r.value.Keys == CommonArgumentSpec().Keys + arg.spec.Keys
    ensures arg.SpecGiven? ==> forall k :: k in arg.spec ==> r.value[k] == arg.spec[k]
    ensures r.Ok? ==> forall k :: k in CommonArgumentSpec() && (arg.NoneSpec? || k !in arg.spec) ==>
      k in r.value && r.value[k] == CommonArgumentSpec()[k]
  {
    match arg
    case NoSpecArg => Raises("KeyError: 'argument_spec'")
    case NoneSpec => Ok(CommonArgumentSpec())
    case SpecGiven(spec) => Ok(CommonArgumentSpec() + spec)
  }
}
