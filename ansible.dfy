/** How an Ansible module run ends, as every module of the collection ends
    it: `exit_json`, `fail_json`, or an exception that escapes `main`. */
module Ansible {
  import opened Json

  datatype ModuleResult =
    | Exit(changed: bool, result: Dict)
    | Fail(msg: string, result: Dict)
    | Crash(error: string)

  /** `(is_error, changed, meta)` from a handler, turned into the module's
      end: an error fails with "Operation failed", otherwise the module
      exits, passing `changed` through; meta is reported under "meta". */
  function Finish(isError: bool, changed: bool, meta: Json): (r: ModuleResult)
    ensures r.Fail? <==> isError
    ensures r.Exit? <==> !isError
    ensures r.Fail? ==> r.msg == "Operation failed"
    ensures r.Exit? ==> r.changed == changed
    ensures !r.Crash? && Get(r.result, "meta") == Some(meta)
  {
    if isError then Fail("Operation failed", [("meta", meta)]) else Exit(changed, [("meta", meta)])
  }
}
