/** What the CRUD modules' reconciler promises: how `find` resolves the
    object, which write each (state, found, changed) leads to, what check
    mode reports, which id is reported, and the per-module details (the
    identity filters, the read-only guard, the address-block split and
    next-available create, the join-token revocation). */
module ReconcilerLemmas {
  import opened Json
  import opened ModuleUtils
  import opened Ansible
  import opened Filters
  import opened Reconciler

  // ---------------------------------------------------------------------
  // The result dict.

  lemma InitialResultFields()
    ensures Get(InitialResult, "changed") == Some(JBool(false))
    ensures Get(InitialResult, "object") == Some(JObject([]))
    ensures Get(InitialResult, "id") == Some(JNull)
    ensures "msg" !in Keys(InitialResult) && "diff" !in Keys(InitialResult)
  {
    assert "object"[0] != "changed"[0] && "id"[0] != "changed"[0] && "id"[0] != "object"[0];
    assert "msg"[0] != "changed"[0] && "msg"[0] != "object"[0] && "msg"[0] != "id"[0];
    assert "diff"[0] != "changed"[0] && "diff"[0] != "object"[0] && "diff"[1] != "id"[1];
    assert InitialResult[1..] == [("object", JObject([])), ("id", JNull)];
    assert InitialResult[1..][1..] == [("id", JNull)];
  }

  /** The first part of the result: `changed` and `msg` as the branch set them. */
  lemma StatusFields(changed: bool, msg: Option<string>)
    requires msg.None? ==> !changed
    ensures var res := if msg.Some? then Put(Put(InitialResult, "changed", JBool(changed)), "msg", JStr(msg.value)) else InitialResult;
      && Get(res, "changed") == Some(JBool(changed))
      && Get(res, "msg") == (if msg.Some? then Some(JStr(msg.value)) else None)
      && Get(res, "object") == Some(JObject([]))
      && Get(res, "id") == Some(JNull)
      && "diff" !in Keys(res)
  {
    InitialResultFields();
    if msg.Some? {
      var res1 := Put(InitialResult, "changed", JBool(changed));
      GetPut(InitialResult, "changed", JBool(changed), "changed");
      GetPut(InitialResult, "changed", JBool(changed), "msg");
      GetPut(InitialResult, "changed", JBool(changed), "object");
      GetPut(InitialResult, "changed", JBool(changed), "id");
      GetPut(res1, "msg", JStr(msg.value), "changed");
      GetPut(res1, "msg", JStr(msg.value), "msg");
      GetPut(res1, "msg", JStr(msg.value), "object");
      GetPut(res1, "msg", JStr(msg.value), "id");
      assert "msg"[0] != "changed"[0] && "msg"[0] != "object"[0] && "msg"[0] != "id"[0];
      assert "diff"[0] != "changed"[0] && "diff"[0] != "msg"[0];
    }
  }

  /** Outside check mode the result holds changed, msg, the diff of the
      existing object against the item, the item as object, and the id:
      the existing object's, else the item's, else None. */
  lemma ReportedFields(existing: Option<Dict>, item: Dict, changed: bool, msg: Option<string>)
    requires msg.None? ==> !changed
    ensures var r := Reported(false, existing, Acted(item, changed, msg));
      && r.Exit? && r.changed == changed
      && Get(r.result, "changed") == Some(JBool(changed))
      && Get(r.result, "msg") == (if msg.Some? then Some(JStr(msg.value)) else None)
      && Get(r.result, "diff") == Some(JObject([("before", if existing.Some? then JObject(existing.value) else JObject([])),
                                                ("after", JObject(item))]))
      && Get(r.result, "object") == Some(JObject(item))
      && Get(r.result, "id") == Some(if existing.Some? then Attr(existing.value, "id")
                                     else if "id" in Keys(item) then Get(item, "id").value
                                     else JNull)
  {
    StatusFields(changed, msg);
    var res := if msg.Some? then Put(Put(InitialResult, "changed", JBool(changed)), "msg", JStr(msg.value)) else InitialResult;
    var before := if existing.Some? then JObject(existing.value) else JObject([]);
    var diff := JObject([("before", before), ("after", JObject(item))]);
    TailPuts(res, diff, JObject(item), ResultId(existing, item));
    assert Reported(false, existing, Acted(item, changed, msg)) ==
      Exit(changed, Put(Put(Put(res, "diff", diff), "object", JObject(item)), "id", ResultId(existing, item)));
  }

  /** The three keys `run_command` adds after the status. */
  lemma TailPuts(res: Dict, diff: Json, obj: Json, id: Json)
    ensures var r := Put(Put(Put(res, "diff", diff), "object", obj), "id", id);
      && Get(r, "id") == Some(id) && Get(r, "object") == Some(obj) && Get(r, "diff") == Some(diff)
      && Get(r, "changed") == Get(res, "changed") && Get(r, "msg") == Get(res, "msg")
  {
    var res1 := Put(res, "diff", diff);
    var res2 := Put(res1, "object", obj);
    assert "diff"[0] != "changed"[0] && "diff"[0] != "msg"[0];
    assert "object"[0] != "changed"[0] && "object"[0] != "msg"[0] && "object"[0] != "diff"[0];
    assert "id"[0] != "changed"[0] && "id"[0] != "msg"[0] && "id"[1] != "diff"[1] && "id"[0] != "object"[0];
    GetPut(res, "diff", diff, "diff");
    GetPut(res, "diff", diff, "changed");
    GetPut(res, "diff", diff, "msg");
    GetPut(res1, "object", obj, "object");
    GetPut(res1, "object", obj, "diff");
    GetPut(res1, "object", obj, "changed");
    GetPut(res1, "object", obj, "msg");
    GetPut(res2, "id", id, "id");
    GetPut(res2, "id", id, "object");
    GetPut(res2, "id", id, "diff");
    GetPut(res2, "id", id, "changed");
    GetPut(res2, "id", id, "msg");
  }

  /** In check mode the result holds only changed, msg, an empty object
      and no id: no diff. */
  lemma CheckReportedFields(existing: Option<Dict>, item: Dict, changed: bool, msg: Option<string>)
    requires msg.None? ==> !changed
    ensures var r := Reported(true, existing, Acted(item, changed, msg));
      && r.Exit? && r.changed == changed
      && Get(r.result, "changed") == Some(JBool(changed))
      && Get(r.result, "msg") == (if msg.Some? then Some(JStr(msg.value)) else None)
      && Get(r.result, "object") == Some(JObject([]))
      && Get(r.result, "id") == Some(JNull)
      && "diff" !in Keys(r.result)
  {
    StatusFields(changed, msg);
  }

  // ---------------------------------------------------------------------
  // find

  /** By id: a NotFound error is tolerated (nothing found) only in the
      removing state; in any other state, and for any other error, the
      run fails with the API error. */
  lemma {:induction false} NotFoundOnlyWhenRemoving(r: Resource, params: Dict, svc: Service)
    requires Attr(params, "id") != JNull && svc.read(Attr(params, "id")).Error?
    ensures var e := svc.read(Attr(params, "id")).error;
      FindSpec(r, params, svc) == (if e.notFound && Attr(params, "state") == JStr(RemoveState(r)) then Located(None) else FindFailed(e))
    ensures var e := svc.read(Attr(params, "id")).error;
      !(e.notFound && Attr(params, "state") == JStr(RemoveState(r))) ==>
        forall checkMode :: RunSpec(r, params, checkMode, svc) == Fail(FailMessage(e), [])
  {
  }

  /** By filter: one match is the object, none is nothing, several fail the
      run with "Found multiple ...". */
  lemma MatchCounts(r: Resource, params: Dict, svc: Service, rs: seq<Dict>)
    requires Attr(params, "id") == JNull && IdentityFilter(r, params).Some?
    requires svc.list(IdentityFilter(r, params).value) == Done(Some(rs))
    ensures |rs| == 1 ==> FindSpec(r, params, svc) == Located(Some(rs[0]))
    ensures |rs| == 0 ==> FindSpec(r, params, svc) == Located(None)
    ensures |rs| > 1 ==> forall checkMode :: RunSpec(r, params, checkMode, svc) == Fail(MultipleMessage(r, rs), [])
  {
  }

  /** A null page: only the join-token module reads it as no match; the
      other modules raise on `len(None)`. */
  lemma NullPage(r: Resource, params: Dict, svc: Service)
    requires Attr(params, "id") == JNull && IdentityFilter(r, params).Some?
    requires svc.list(IdentityFilter(r, params).value) == Done(None)
    ensures r == JoinToken ==> FindSpec(r, params, svc) == Located(None)
    ensures r != JoinToken ==> forall checkMode :: RunSpec(r, params, checkMode, svc) == Crash(NoLenError)
  {
  }

  // ---------------------------------------------------------------------
  // The decision

  /** `svc` with the write calls of `other`: it answers reads and lists
      as `svc` does. */
  function WithWrites(svc: Service, other: Service): Service {
    svc.(create := other.create, update := other.update, delete := other.delete)
  }

  /** `find` only reads and lists. */
  lemma FindIgnoresWrites(r: Resource, params: Dict, svc: Service, other: Service)
    ensures FindSpec(r, params, WithWrites(svc, other)) == FindSpec(r, params, svc)
  {
    var w := WithWrites(svc, other);
    assert w.read == svc.read && w.list == svc.list;
  }

  /** present, nothing found: the payload is created, and the run reports
      "<Kind> created", the created item and its id. */
  lemma {:induction false} PresentMissingCreates(r: Resource, params: Dict, svc: Service)
    requires Attr(params, "state") == JStr("present") && FindSpec(r, params, svc) == Located(None)
    requires svc.create(CreateBody(r, params, InitialPayload(r, PayloadParams(params, Excluded(r))))).Done?
    ensures var item := svc.create(CreateBody(r, params, InitialPayload(r, PayloadParams(params, Excluded(r))))).value;
      var out := RunSpec(r, params, false, svc);
      && out.Exit? && out.changed
      && Get(out.result, "msg") == Some(JStr(Kind(r) + " created"))
      && Get(out.result, "object") == Some(JObject(item))
      && Get(out.result, "id") == Some(if "id" in Keys(item) then Get(item, "id").value else JNull)
  {
    var item := svc.create(CreateBody(r, params, InitialPayload(r, PayloadParams(params, Excluded(r))))).value;
    assert ActSpec(r, params, false, svc, None) == Acted(item, true, Some(Kind(r) + " created"));
    ReportedFields(None, item, true, Some(Kind(r) + " created"));
  }

  /** present, found, and `_is_changed` false: no write, changed stays
      false, whatever the write calls would answer. */
  lemma {:induction false} UnchangedWritesNothing(r: Resource, params: Dict, checkMode: bool, svc: Service, other: Service, x: Dict)
    requires Attr(params, "state") == JStr("present") && FindSpec(r, params, svc) == Located(Some(x))
    requires Changes(JObject(x), JObject(PayloadParams(params, Excluded(r)))) == Unchanged
    ensures RunSpec(r, params, checkMode, svc) == RunSpec(r, params, checkMode, WithWrites(svc, other))
    ensures RunSpec(r, params, checkMode, svc).Exit? && !RunSpec(r, params, checkMode, svc).changed
    ensures "msg" !in Keys(RunSpec(r, params, checkMode, svc).result)
  {
    FindIgnoresWrites(r, params, svc, other);
    assert ActSpec(r, params, checkMode, svc, Some(x)) == Acted([], false, None);
    assert ActSpec(r, params, checkMode, WithWrites(svc, other), Some(x)) == Acted([], false, None);
    if checkMode {
      CheckReportedFields(Some(x), [], false, None);
    } else {
      ReportedFields(Some(x), [], false, None);
    }
  }

  /** present, found and changed: the guarded body is sent to `update` on
      the existing id, and the run reports "<Kind> updated" with the
      updated item and the existing id. */
  lemma {:induction false} ChangedUpdates(r: Resource, params: Dict, svc: Service, x: Dict, body: Dict)
    requires Attr(params, "state") == JStr("present") && FindSpec(r, params, svc) == Located(Some(x))
    requires Changes(JObject(x), JObject(PayloadParams(params, Excluded(r)))) == Changed
    requires Guard(x, InitialPayload(r, PayloadParams(params, Excluded(r))), ReadonlyFields(r)) == Cleared(body)
    requires svc.update(Attr(x, "id"), body).Done?
    ensures var out := RunSpec(r, params, false, svc);
      && out.Exit? && out.changed
      && Get(out.result, "msg") == Some(JStr(Kind(r) + " updated"))
      && Get(out.result, "object") == Some(JObject(svc.update(Attr(x, "id"), body).value))
      && Get(out.result, "id") == Some(Attr(x, "id"))
  {
    var item := svc.update(Attr(x, "id"), body).value;
    assert ActSpec(r, params, false, svc, Some(x)) == Acted(item, true, Some(Kind(r) + " updated"));
    ReportedFields(Some(x), item, true, Some(Kind(r) + " updated"));
  }

  /** Removing state and found (and, for a join token, not yet revoked):
      the existing id is deleted; the item is empty and the id is the
      existing one. */
  lemma {:induction false} RemovingDeletes(r: Resource, params: Dict, svc: Service, x: Dict)
    requires Attr(params, "state") == JStr(RemoveState(r)) && FindSpec(r, params, svc) == Located(Some(x))
    requires !AlreadyRevoked(r, x) && svc.delete(Attr(x, "id")).Done?
    ensures var out := RunSpec(r, params, false, svc);
      && out.Exit? && out.changed
      && Get(out.result, "msg") == Some(JStr(if r == JoinToken then "JoinToken Revoked" else Kind(r) + " deleted"))
      && Get(out.result, "object") == Some(JObject([]))
      && Get(out.result, "id") == Some(Attr(x, "id"))
  {
    assert "absent"[0] != "present"[0] && "revoked"[0] != "present"[0];
    assert ActSpec(r, params, false, svc, Some(x)) == Acted([], true, Some(RemovedMessage(r)));
    ReportedFields(Some(x), [], true, Some(RemovedMessage(r)));
  }

  /** Removing state and nothing found: no write, unchanged. */
  lemma {:induction false} RemovingMissingIsNoop(r: Resource, params: Dict, checkMode: bool, svc: Service, other: Service)
    requires Attr(params, "state") == JStr(RemoveState(r)) && FindSpec(r, params, svc) == Located(None)
    ensures RunSpec(r, params, checkMode, svc) == RunSpec(r, params, checkMode, WithWrites(svc, other))
    ensures RunSpec(r, params, checkMode, svc).Exit? && !RunSpec(r, params, checkMode, svc).changed
    ensures Get(RunSpec(r, params, checkMode, svc).result, "id") == Some(JNull)
    ensures "msg" !in Keys(RunSpec(r, params, checkMode, svc).result)
  {
    assert "absent"[0] != "present"[0] && "revoked"[0] != "present"[0];
    FindIgnoresWrites(r, params, svc, other);
    assert ActSpec(r, params, checkMode, svc, None) == Acted([], false, None);
    assert ActSpec(r, params, checkMode, WithWrites(svc, other), None) == Acted([], false, None);
    if checkMode {
      CheckReportedFields(None, [], false, None);
    } else {
      ReportedFields(None, [], false, None);
    }
  }

  // ---------------------------------------------------------------------
  // Check mode

  /** Check mode makes no write: the run does not depend on what create,
      update or delete would answer. It exits before the diff, with an
      empty object and no id. */
  lemma {:induction false} CheckModeWritesNothing(r: Resource, params: Dict, svc: Service, other: Service)
    ensures RunSpec(r, params, true, svc) == RunSpec(r, params, true, WithWrites(svc, other))
    ensures var out := RunSpec(r, params, true, svc);
      out.Exit? ==> "diff" !in Keys(out.result) && Get(out.result, "object") == Some(JObject([])) &&
                    Get(out.result, "id") == Some(JNull)
  {
    FindIgnoresWrites(r, params, svc, other);
    match FindSpec(r, params, svc)
    case Located(existing) =>
      var a := ActSpec(r, params, true, svc, existing);
      assert ActSpec(r, params, true, WithWrites(svc, other), existing) == a;
      if a.Acted? {
        assert a.msg.None? ==> !a.changed;
        CheckReportedFields(existing, a.item, a.changed, a.msg);
      }
    case _ =>
  }

  /** The state branch run for real and in check mode set the same flag
      whenever the real write succeeds. */
  lemma {:induction false} ActCheckAgrees(r: Resource, params: Dict, svc: Service, existing: Option<Dict>)
    requires ActSpec(r, params, false, svc, existing).Acted?
    ensures ActSpec(r, params, true, svc, existing).Acted?
    ensures ActSpec(r, params, true, svc, existing).changed == ActSpec(r, params, false, svc, existing).changed
  {
    var state := Attr(params, "state");
    var pp := PayloadParams(params, Excluded(r));
    if state == JStr("present") && existing.None? {
    } else if state == JStr("present") && existing.Some? {
      var c := Changes(JObject(existing.value), JObject(pp));
      assert c != Raised;
    } else if state == JStr(RemoveState(r)) && existing.Some? {
    }
  }

  /** Check mode reports the `changed` a real run reports when its write
      succeeds. */
  lemma {:induction false} CheckModePredictsChanged(r: Resource, params: Dict, svc: Service)
    requires RunSpec(r, params, false, svc).Exit?
    ensures RunSpec(r, params, true, svc).Exit?
    ensures RunSpec(r, params, true, svc).changed == RunSpec(r, params, false, svc).changed
  {
    var existing := FindSpec(r, params, svc).existing;
    ActCheckAgrees(r, params, svc, existing);
  }

  // ---------------------------------------------------------------------
  // The read-only guard

  lemma ReadonlyDistinct(r: Resource)
    ensures Distinct(ReadonlyFields(r))
  {
    assert "space"[0] != "address"[0] && "cidr"[0] != "address"[0] && "cidr"[0] != "space"[0];
    assert "primary_type"[0] != "fqdn"[0] && "view"[0] != "fqdn"[0] && "description"[0] != "name"[0];
  }

  /** An update whose payload differs from the existing object in a
      read-only field fails with "<field> cannot be updated", naming a
      read-only field that differs, and sends nothing. */
  lemma {:induction false} ReadonlyChangeRejected(r: Resource, params: Dict, svc: Service, other: Service, x: Dict, f: string)
    requires Attr(params, "state") == JStr("present") && FindSpec(r, params, svc) == Located(Some(x))
    requires Changes(JObject(x), JObject(PayloadParams(params, Excluded(r)))) == Changed
    requires f in ReadonlyFields(r) && Attr(InitialPayload(r, PayloadParams(params, Excluded(r))), f) != Attr(x, f)
    ensures RunSpec(r, params, false, svc) == RunSpec(r, params, false, WithWrites(svc, other))
    ensures var out := RunSpec(r, params, false, svc);
      exists g :: g in ReadonlyFields(r) && out == Fail(g + " cannot be updated", []) &&
                  Attr(InitialPayload(r, PayloadParams(params, Excluded(r))), g) != Attr(x, g)
  {
    var payload := InitialPayload(r, PayloadParams(params, Excluded(r)));
    ReadonlyDistinct(r);
    GuardSpec(x, payload, ReadonlyFields(r));
    var i :| 0 <= i < |ReadonlyFields(r)| && ReadonlyFields(r)[i] == f;
    var g := Guard(x, payload, ReadonlyFields(r));
    assert g.Rejected?;
    FindIgnoresWrites(r, params, svc, other);
    RejectedUpdate(r, params, svc, x, g.field);
    RejectedUpdate(r, params, WithWrites(svc, other), x, g.field);
    assert RunSpec(r, params, false, svc) == Fail(g.field + " cannot be updated", []);
  }

  /** A guard that rejects ends the update before any request. */
  lemma RejectedUpdate(r: Resource, params: Dict, svc: Service, x: Dict, f: string)
    requires Attr(params, "state") == JStr("present")
    requires Changes(JObject(x), JObject(PayloadParams(params, Excluded(r)))) == Changed
    requires Guard(x, InitialPayload(r, PayloadParams(params, Excluded(r))), ReadonlyFields(r)) == Rejected(f)
    ensures ActSpec(r, params, false, svc, Some(x)) == ActRejected(f)
  {
  }

  /** An update that passes the guard sends the payload with the read-only
      fields set to None and every other field as it was. */
  lemma {:induction false} GuardedBody(r: Resource, params: Dict, x: Dict)
    requires forall f :: f in ReadonlyFields(r) ==> Attr(InitialPayload(r, PayloadParams(params, Excluded(r))), f) == Attr(x, f)
    ensures var payload := InitialPayload(r, PayloadParams(params, Excluded(r)));
      var g := Guard(x, payload, ReadonlyFields(r));
      g.Cleared? && forall k :: Attr(g.body, k) == if k in ReadonlyFields(r) then JNull else Attr(payload, k)
  {
    var payload := InitialPayload(r, PayloadParams(params, Excluded(r)));
    ReadonlyDistinct(r);
    GuardSpec(x, payload, ReadonlyFields(r));
  }

  // ---------------------------------------------------------------------
  // Payload parameters and change detection

  lemma {:induction false} PayloadParamsGet(params: Dict, exclude: seq<string>, k: string)
    requires UniqueKeys(params)
    ensures Get(PayloadParams(params, exclude), k) ==
      if k in exclude || Get(params, k) == Some(JNull) then None else Get(params, k)
    decreases |params|
  {
    if params != [] {
      var rest := params[1..];
      PayloadParamsGet(rest, exclude, k);
      var head: Dict := if params[0].1 == JNull || params[0].0 in exclude then [] else [params[0]];
      GetAppend(head, PayloadParams(rest, exclude), k);
      if params[0].0 == k {
        assert Get(rest, k) == None;
      }
    }
  }

  /** The payload holds exactly the parameters that are set and not
      excluded, with their values. */
  lemma PayloadParamsSpec(params: Dict, exclude: seq<string>)
    requires UniqueKeys(params)
    ensures forall k :: Get(PayloadParams(params, exclude), k) ==
                        (if k in exclude || Get(params, k) == Some(JNull) then None else Get(params, k))
  {
    forall k
      ensures Get(PayloadParams(params, exclude), k) ==
        if k in exclude || Get(params, k) == Some(JNull) then None else Get(params, k)
    {
      PayloadParamsGet(params, exclude, k);
    }
  }

  lemma {:induction false} GetIndex(d: Dict, k: string)
    requires Get(d, k).Some?
    ensures exists j :: 0 <= j < |d| && d[j] == (k, Get(d, k).value)
    decreases |d|
  {
    if d[0].0 != k {
      GetIndex(d[1..], k);
      var j :| 0 <= j < |d[1..]| && d[1..][j] == (k, Get(d, k).value);
      assert d[j + 1] == d[1..][j];
    } else {
      assert d[0] == (k, Get(d, k).value);
    }
  }

  lemma {:induction false} FieldsUnchanged(e: Json, p: Json, i: nat, j: nat)
    requires p.JObject? && i <= j < |p.fields|
    requires FieldsChange(e, p, i) == Unchanged
    ensures FieldChange(e, p, j) == Unchanged
    decreases j - i
  {
    if i < j {
      FieldsUnchanged(e, p, i + 1, j);
    }
  }

  predicate IsScalar(v: Json) {
    v.JBool? || v.JInt? || v.JStr?
  }

  /** When `_is_changed` reports no change, every scalar field of the
      payload is present in the existing object with an equal value. */
  lemma UnchangedAgreesOnScalars(e: Json, p: Json, k: string)
    requires p.JObject? && Changes(e, p) == Unchanged
    requires Get(p.fields, k).Some? && IsScalar(Get(p.fields, k).value)
    ensures e.JObject? && Get(e.fields, k).Some? && ScalarEqual(Get(e.fields, k).value, Get(p.fields, k).value)
  {
    GetIndex(p.fields, k);
    var j :| 0 <= j < |p.fields| && p.fields[j] == (k, Get(p.fields, k).value);
    FieldsUnchanged(e, p, 0, j);
  }

  /** Every set parameter takes part in change detection, so an option the
      framework fills with a default (as the IP-space module's
      `ddns_client_update` "client") makes an existing object that holds
      another value count as changed: the run updates it or fails, and
      never exits unchanged. */
  lemma {:induction false} DefaultsAreCompared(r: Resource, params: Dict, svc: Service, x: Dict, k: string)
    requires UniqueKeys(params) && k !in Excluded(r)
    requires Get(params, k).Some? && IsScalar(Get(params, k).value)
    requires !(Get(x, k).Some? && ScalarEqual(Get(x, k).value, Get(params, k).value))
    requires Attr(params, "state") == JStr("present") && FindSpec(r, params, svc) == Located(Some(x))
    ensures Changes(JObject(x), JObject(PayloadParams(params, Excluded(r)))) != Unchanged
    ensures forall checkMode :: RunSpec(r, params, checkMode, svc).Exit? ==> RunSpec(r, params, checkMode, svc).changed
  {
    var pp := PayloadParams(params, Excluded(r));
    PayloadParamsGet(params, Excluded(r), k);
    if Changes(JObject(x), JObject(pp)) == Unchanged {
      UnchangedAgreesOnScalars(JObject(x), JObject(pp), k);
      assert false;
    }
    forall checkMode: bool
      ensures RunSpec(r, params, checkMode, svc).Exit? ==> RunSpec(r, params, checkMode, svc).changed
    {
      ChangedActs(r, params, checkMode, svc, x);
    }
  }

  /** Once the payload differs, whatever the update does is a change. */
  lemma ChangedActs(r: Resource, params: Dict, checkMode: bool, svc: Service, x: Dict)
    requires Attr(params, "state") == JStr("present") && FindSpec(r, params, svc) == Located(Some(x))
    requires Changes(JObject(x), JObject(PayloadParams(params, Excluded(r)))) != Unchanged
    ensures RunSpec(r, params, checkMode, svc).Exit? ==> RunSpec(r, params, checkMode, svc).changed
  {
    var a := ActSpec(r, params, checkMode, svc, Some(x));
    assert a.Acted? ==> a.changed;
  }

  /** The IP-space default `ddns_client_update` "client" against an
      existing space set to "server": the run is an update. */
  lemma IpSpaceDefaultExample(params: Dict, svc: Service, x: Dict)
    requires UniqueKeys(params) && Get(params, "ddns_client_update") == Some(JStr("client"))
    requires Get(x, "ddns_client_update") == Some(JStr("server"))
    requires Attr(params, "state") == JStr("present") && FindSpec(IpSpace, params, svc) == Located(Some(x))
    ensures Changes(JObject(x), JObject(PayloadParams(params, Excluded(IpSpace)))) != Unchanged
  {
    var k := "ddns_client_update";
    assert k[0] != "state"[0] && k[0] != "csp_url"[0] && k[0] != "api_key"[0] && k[0] != "id"[0];
    assert "server"[0] != "client"[0];
    DefaultsAreCompared(IpSpace, params, svc, x, k);
  }

  // ---------------------------------------------------------------------
  // Identity filters

  /** The address and space clauses that the subnet and address-block
      filters share. */
  lemma AddressSpaceHead(a: string, s: string)
    ensures QuotedClause("address", JStr(a)) + " and " + QuotedClause("space", JStr(s)) ==
      "address=='" + a + "' and space=='" + s + "'"
  {
  }

  /** The subnet filter quotes the prefix length; the address-block filter
      leaves it bare. */
  lemma CidrQuoting(params: Dict, a: string, s: string, n: nat)
    requires Attr(params, "address") == JStr(a) && Attr(params, "space") == JStr(s)
    requires Attr(params, "cidr") == JInt(n)
    ensures IdentityFilter(Subnet, params) ==
      Some("address=='" + a + "' and space=='" + s + "'" + " and cidr=='" + NatToString(n) + "'")
    ensures IdentityFilter(AddressBlock, params) ==
      Some("address=='" + a + "' and space=='" + s + "'" + " and cidr==" + NatToString(n))
  {
    var c := NatToString(n);
    var head := QuotedClause("address", JStr(a)) + " and " + QuotedClause("space", JStr(s));
    AddressSpaceHead(a, s);
    assert IdentityFilter(Subnet, params) == Some(head + " and " + QuotedClause("cidr", JInt(n)));
    assert QuotedClause("cidr", JInt(n)) == "cidr" + "=='" + c + "'";
    assert head + " and " + ("cidr" + "=='" + c + "'") == head + " and cidr=='" + c + "'";
    assert IdentityFilter(AddressBlock, params) == Some(head + " and cidr==" + c);
  }

  /** A subnet without a cidr is looked up with the text 'None'. */
  lemma SubnetWithoutCidr(params: Dict, a: string, s: string)
    requires Attr(params, "address") == JStr(a) && Attr(params, "space") == JStr(s)
    requires Attr(params, "cidr") == JNull
    ensures IdentityFilter(Subnet, params) == Some("address=='" + a + "' and space=='" + s + "'" + " and cidr=='None'")
  {
    var head := QuotedClause("address", JStr(a)) + " and " + QuotedClause("space", JStr(s));
    AddressSpaceHead(a, s);
    assert IdentityFilter(Subnet, params) == Some(head + " and " + QuotedClause("cidr", JNull));
    assert QuotedClause("cidr", JNull) == "cidr" + "=='" + "None" + "'";
    assert head + " and " + ("cidr" + "=='" + "None" + "'") == head + " and cidr=='None'";
  }

  /** The delegation filter names only the fqdn: the view does not narrow it. */
  lemma DelegationIgnoresView(params: Dict, v: Json)
    ensures IdentityFilter(Delegation, Put(params, "view", v)) == IdentityFilter(Delegation, params)
  {
    assert "fqdn"[0] != "view"[0];
    AttrPut(params, "view", v, "fqdn");
  }

  /** So two delegations with one fqdn in two views, both returned by the
      fqdn filter, make every run fail with a multiple match. */
  lemma DelegationViewsCollide(params: Dict, svc: Service, d1: Dict, d2: Dict)
    requires Attr(params, "id") == JNull
    requires Attr(d1, "fqdn") == Attr(d2, "fqdn") && Attr(d1, "view") != Attr(d2, "view")
    requires svc.list(QuotedClause("fqdn", Attr(params, "fqdn"))) == Done(Some([d1, d2]))
    ensures forall checkMode :: RunSpec(Delegation, params, checkMode, svc) == Fail(MultipleMessage(Delegation, [d1, d2]), [])
  {
  }

  // ---------------------------------------------------------------------
  // The address block

  lemma DigitValue(d: nat)
    requires d < 10
    ensures DigitChar(d) as int - '0' as int == d
  {
  }

  lemma {:induction false} DigitsRoundTrip(n: nat)
    ensures DigitsValue(NatToString(n)) == n
    decreases n
  {
    var s := NatToString(n);
    DigitValue(n % 10);
    if n < 10 {
      assert s[..|s| - 1] == [];
    } else {
      DigitsRoundTrip(n / 10);
      assert s[..|s| - 1] == NatToString(n / 10);
      assert s[|s| - 1] == DigitChar(n % 10);
    }
  }

  /** "a/text" becomes address a and cidr `int(text)`, or raises when `int`
      rejects the text. */
  lemma {:induction false} SplitAddressText(params: Dict, a: string, text: string)
    requires Attr(params, "address") == JStr(a + "/" + text) && '/' !in a && '/' !in text
    ensures SplitAddress(params) ==
      match ParseInt(text)
      case None => Raises("ValueError: invalid literal for int() with base 10")
      case Some(n) => Ok(Put(Put(params, "address", JStr(a)), "cidr", JInt(n)))
  {
    assert a + "/" + text == a + ['/'] + text;
    SplitAround(a, '/', text);
    SplitNone(text, '/');
    assert Split(a + "/" + text, '/') == [a, text];
    assert '/' in a + "/" + text by {
      assert (a + "/" + text)[|a|] == '/';
    }
  }

  /** "a/n" becomes address a and cidr n. */
  lemma {:induction false} SplitAddressSlash(params: Dict, a: string, n: nat)
    requires Attr(params, "address") == JStr(a + "/" + NatToString(n)) && '/' !in a
    ensures SplitAddress(params) == Ok(Put(Put(params, "address", JStr(a)), "cidr", JInt(n)))
  {
    var digits := NatToString(n);
    NatToStringIsDigits(n);
    assert '/' !in digits by {
      forall i | 0 <= i < |digits|
        ensures digits[i] != '/'
      {
        assert IsDigit(digits[i]);
      }
    }
    SplitAddressText(params, a, digits);
    ParseIntDigits(digits);
    DigitsRoundTrip(n);
  }

  /** `int` reads a plain digit string as its decimal value. */
  lemma ParseIntDigits(s: string)
    requires IsDigitString(s)
    ensures ParseInt(s) == Some(DigitsValue(s))
  {
    DigitStringParses(s);
    assert IsDigit(s[0]);
  }

  /** A sign followed by digits: `int` reads the digits, negated after "-". */
  lemma SignedDigits(s: string)
    requires |s| > 1 && (s[0] == '+' || s[0] == '-') && IsDigitString(s[1..])
    ensures s[0] == '+' ==> ParseInt(s) == Some(DigitsValue(s[1..]))
    ensures s[0] == '-' ==> ParseInt(s) == Some(-(DigitsValue(s[1..]) as int))
  {
    assert !IsSpace(s[|s| - 1]) by {
      assert s[|s| - 1] == s[1..][|s| - 2];
      assert IsDigit(s[1..][|s| - 2]);
    }
    assert TrimEnd(TrimStart(s)) == s;
    DigitStringParses(s[1..]);
  }

  /** `int` reads back every integer `str` writes, negative ones included. */
  lemma {:induction false} ParseIntRoundTrip(i: int)
    ensures ParseInt(IntToString(i)) == Some(i)
  {
    if i < 0 {
      var d := NatToString(-i);
      NatToStringIsDigits(-i);
      DigitsRoundTrip(-i);
      assert IntToString(i)[1..] == d;
      SignedDigits(IntToString(i));
    } else {
      NatToStringIsDigits(i);
      DigitsRoundTrip(i);
      ParseIntDigits(NatToString(i));
    }
  }

  lemma {:induction false} TrimStartSnoc(s: string, c: char)
    requires IsSpace(c)
    ensures TrimStart(s + [c]) == if TrimStart(s) == [] then [] else TrimStart(s) + [c]
    decreases |s|
  {
    if s == [] {
      assert TrimStart([c]) == TrimStart([]);
    } else {
      assert (s + [c])[1..] == s[1..] + [c];
      if IsSpace(s[0]) {
        TrimStartSnoc(s[1..], c);
      }
    }
  }

  /** Whitespace on either side of the text does not change what `int` reads. */
  lemma {:induction false} ParseIntSpace(c: char, s: string)
    requires IsSpace(c)
    ensures ParseInt([c] + s) == ParseInt(s)
    ensures ParseInt(s + [c]) == ParseInt(s)
  {
    assert ([c] + s)[1..] == s;
    assert TrimStart([c] + s) == TrimStart(s);
    TrimStartSnoc(s, c);
    var t := TrimStart(s);
    if t != [] {
      assert (t + [c])[..|t + [c]| - 1] == t;
      assert TrimEnd(t + [c]) == TrimEnd(t);
    }
    assert TrimEnd(TrimStart(s + [c])) == TrimEnd(t);
  }

  /** A netmask written with a plus sign is read as the number. */
  lemma ParseIntPlus()
    ensures ParseInt("+24") == Some(24)
  {
    assert "+24"[1..] == "24" == NatToString(24);
    NatToStringIsDigits(24);
    DigitsRoundTrip(24);
    SignedDigits("+24");
  }

  /** A netmask with a space before it is read as the number. */
  lemma ParseIntSpaced()
    ensures ParseInt(" 24") == Some(24)
  {
    assert "24" == NatToString(24);
    ParseIntRoundTrip(24);
    ParseIntSpace(' ', "24");
    assert " 24" == [' '] + "24";
  }

  /** A negative netmask is read as a negative number. */
  lemma ParseIntMinus()
    ensures ParseInt("-8") == Some(-8)
  {
    assert "-8" == IntToString(-8);
    ParseIntRoundTrip(-8);
  }

  /** Digits grouped by one underscore are read without it. */
  lemma Grouped()
    ensures ParseInt("1_6") == Some(16)
  {
    assert TrimStart("1_6") == "1_6";
    assert TrimEnd("1_6") == "1_6";
    assert Ungrouped("1_6") == "16" by {
      assert "1_6"[1..] == "_6";
      assert "_6"[1..] == "6";
      assert "6"[1..] == [];
    }
    assert "16" == NatToString(16);
    DigitsRoundTrip(16);
  }

  /** Underscores that do not sit between two digits, and empty text, are rejected. */
  lemma Ungroupable()
    ensures ParseInt("1__6") == None && ParseInt("_16") == None && ParseInt("") == None
  {
    assert TrimEnd(TrimStart("1__6")) == "1__6";
    assert !IsDigitGroups("1__6") by {
      assert "1__6"[1..3] == "__";
    }
    assert TrimEnd(TrimStart("_16")) == "_16";
    assert !IsDigitGroups("_16");
  }

  /** A negative netmask passes the constructor: cidr becomes -8. */
  lemma NegativeCidr(params: Dict)
    requires Attr(params, "address") == JStr("10.0.0.0/-8")
    ensures SplitAddress(params) == Ok(Put(Put(params, "address", JStr("10.0.0.0")), "cidr", JInt(-8)))
  {
    assert "10.0.0.0/-8" == "10.0.0.0" + "/" + "-8";
    SplitAddressText(params, "10.0.0.0", "-8");
    ParseIntMinus();
  }

  /** An address with two or more "/" fails in the constructor. */
  lemma {:induction false} SplitAddressTwoSlashes(params: Dict, a: string)
    requires Attr(params, "address") == JStr(a) && Count(a, '/') >= 2
    ensures SplitAddress(params).Raises?
  {
    SplitCount(a, '/');
    if '/' !in a {
      SplitNone(a, '/');
    }
  }

  /** The unsupported DHCP attributes are None in the payload; every other
      attribute of dhcp_config, and every other payload field, is kept. */
  lemma DhcpCleared(payload: Dict, fs: Dict)
    requires Get(payload, "dhcp_config") == Some(JObject(fs))
    ensures var d := Get(ClearDhcp(payload), "dhcp_config");
      && d.Some? && d.value.JObject?
      && forall k :: Attr(d.value.fields, k) ==
           if k == "abandoned_reclaim_time" || k == "abandoned_reclaim_time_v6" || k == "echo_client_id" then JNull
           else Attr(fs, k)
    ensures forall k :: k != "dhcp_config" ==> Get(ClearDhcp(payload), k) == Get(payload, k)
  {
    var f1 := Put(fs, "abandoned_reclaim_time", JNull);
    var f2 := Put(f1, "abandoned_reclaim_time_v6", JNull);
    var f3 := Put(f2, "echo_client_id", JNull);
    forall k
      ensures Attr(f3, k) ==
        if k == "abandoned_reclaim_time" || k == "abandoned_reclaim_time_v6" || k == "echo_client_id" then JNull
        else Attr(fs, k)
    {
      AttrPut(fs, "abandoned_reclaim_time", JNull, k);
      AttrPut(f1, "abandoned_reclaim_time_v6", JNull, k);
      AttrPut(f2, "echo_client_id", JNull, k);
    }
    forall k
      ensures Get(ClearDhcp(payload), k) == if k == "dhcp_config" then Some(JObject(f3)) else Get(payload, k)
    {
      GetPut(payload, "dhcp_config", JObject(f3), k);
    }
  }

  /** The parameter is given (not None). */
  predicate IsSet(params: Dict, k: string) {
    Attr(params, k) != JNull
  }

  /** The arguments the framework lets through (required, required_if,
      mutually_exclusive, required_one_of, required_together and the state
      choices). */
  predicate Accepted(r: Resource, params: Dict) {
    var present := Attr(params, "state") == JStr("present");
    && (present || Attr(params, "state") == JStr(RemoveState(r)))
    && match r
       case Subnet => present ==> IsSet(params, "address") && IsSet(params, "space")
       case Address => present ==> IsSet(params, "address") && IsSet(params, "space")
       case AddressBlock =>
         && (present ==> IsSet(params, "space"))
         && (IsSet(params, "address") != IsSet(params, "next_available_id"))
         && (IsSet(params, "cidr") == IsSet(params, "next_available_id"))
       case AuthZone => present ==> IsSet(params, "fqdn") && IsSet(params, "primary_type")
       case ForwardZone => present ==> IsSet(params, "fqdn")
       case Delegation => IsSet(params, "view") && (present ==> IsSet(params, "fqdn") && IsSet(params, "delegation_servers"))
       case _ => present ==> IsSet(params, "name")
  }

  /** An address block given by next_available_id has no address, so it is
      never looked up and present always creates it, sending the address
      "<id>/nextavailableaddressblock". */
  lemma {:induction false} NextAvailableBlockCreated(raw: Dict, svc: Service)
    requires Accepted(AddressBlock, raw) && Attr(raw, "address") == JNull
    requires Attr(raw, "id") == JNull && Attr(raw, "state") == JStr("present")
    ensures var body := CreateBody(AddressBlock, raw, InitialPayload(AddressBlock, PayloadParams(raw, Excluded(AddressBlock))));
      && Attr(body, "address") == JStr(PyStr(Attr(raw, "next_available_id")) + "/nextavailableaddressblock")
      && Reconcile(AddressBlock, raw, false, svc) ==
         Reported(false, None, match svc.create(body)
                               case Done(item) => Acted(item, true, Some(Kind(AddressBlock) + " created"))
                               case Error(e) => ActFailed(e))
  {
    var payload := InitialPayload(AddressBlock, PayloadParams(raw, Excluded(AddressBlock)));
    var body := CreateBody(AddressBlock, raw, payload);
    assert IsSet(raw, "next_available_id");
    var address := JStr(PyStr(Attr(raw, "next_available_id")) + "/nextavailableaddressblock");
    assert body == Put(payload, "address", address);
    AttrPut(payload, "address", address, "address");
    assert ModuleParams(AddressBlock, raw) == Ok(raw) by {
      assert SplitAddress(raw) == Ok(raw);
    }
    assert FindSpec(AddressBlock, raw, svc) == Located(None) by {
      assert IdentityFilter(AddressBlock, raw) == None;
    }
    assert ActSpec(AddressBlock, raw, false, svc, None) ==
      match svc.create(body)
      case Done(item) => Acted(item, true, Some(Kind(AddressBlock) + " created"))
      case Error(e) => ActFailed(e);
  }

  // ---------------------------------------------------------------------
  // The join token

  /** A token already revoked is left alone: no write, unchanged, and the
      message still says "JoinToken Revoked". */
  lemma {:induction false} RevokedTokenKept(params: Dict, checkMode: bool, svc: Service, other: Service, x: Dict)
    requires Attr(params, "state") == JStr("revoked") && FindSpec(JoinToken, params, svc) == Located(Some(x))
    requires Attr(x, "status") == JStr("REVOKED")
    ensures RunSpec(JoinToken, params, checkMode, svc) == RunSpec(JoinToken, params, checkMode, WithWrites(svc, other))
    ensures var out := RunSpec(JoinToken, params, checkMode, svc);
      out.Exit? && !out.changed && Get(out.result, "msg") == Some(JStr("JoinToken Revoked"))
  {
    assert "revoked"[0] != "present"[0];
    assert FindSpec(JoinToken, params, WithWrites(svc, other)) == FindSpec(JoinToken, params, svc);
    assert ActSpec(JoinToken, params, checkMode, svc, Some(x)) == Acted([], false, Some("JoinToken Revoked"));
    assert ActSpec(JoinToken, params, checkMode, WithWrites(svc, other), Some(x)) == Acted([], false, Some("JoinToken Revoked"));
    if checkMode {
      CheckReportedFields(Some(x), [], false, Some("JoinToken Revoked"));
    } else {
      ReportedFields(Some(x), [], false, Some("JoinToken Revoked"));
    }
  }
}
