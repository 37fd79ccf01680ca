/** The loop with which the info modules and the next-available modules
    gather results: ask for a page, append its results, stop at the first
    page shorter than the limit of 1000, otherwise ask again. A failing
    request ends the module with `fail_json`; a null page either raises
    (`list.extend(None)`) or, in the join-token module, counts as empty.

    The replies are an oracle indexed by the number of the request, so the
    loop is described by the replies it receives whatever the requests
    were; the modules say which request the k-th one is. Since the source
    loops as long as full pages arrive, a run is modelled only when some
    reply, the `last`-th, would end the loop. */
module Paging {
  import opened Json
  import opened Reconciler

  /** `self._limit` in every info module. */
  const Limit: nat := 1000

  type Reply = Answer<Option<seq<Dict>>>

  /** A reply after which the loop does not ask again. */
  predicate Ends(a: Reply) {
    a.Error? || a.value.None? || |a.value.value| < Limit
  }

  /** The loop's end: the results collected, the failed request, or the
      exception that escaped. */
  datatype Paged =
    | Collected(objects: seq<Dict>)
    | PageFailed(error: ApiError)
    | PageCrashed(crash: string)

  const ExtendNoneError: string := "TypeError: 'NoneType' object is not iterable"

  /** The results of one page in front of what the following pages give. */
  function Prepend(rs: seq<Dict>, p: Paged): Paged {
    if p.Collected? then Collected(rs + p.objects) else p
  }

  /** The loop from the k-th request on. A null page is empty when
      `nullIsEmpty` and raises otherwise. */
  function Collect(replies: nat -> Reply, nullIsEmpty: bool, k: nat, last: nat): (p: Paged)
    requires k <= last && Ends(replies(last))
    ensures p.PageCrashed? ==> !nullIsEmpty && p.crash == ExtendNoneError
    ensures p.PageFailed? ==> exists j :: k <= j <= last && replies(j) == Error(p.error)
    decreases last - k
  {
    match replies(k)
    case Error(e) => PageFailed(e)
    case Done(None) => if nullIsEmpty then Collected([]) else PageCrashed(ExtendNoneError)
    case Done(Some(rs)) =>
      if |rs| < Limit then Collected(rs) else Prepend(rs, Collect(replies, nullIsEmpty, k + 1, last))
  }

  /** Any reply known to end the loop gives the same run: the loop stops
      at the first such reply. */
  lemma {:induction false} CollectBoundIrrelevant(replies: nat -> Reply, nullIsEmpty: bool, k: nat, last1: nat, last2: nat)
    requires k <= last1 && Ends(replies(last1))
    requires k <= last2 && Ends(replies(last2))
    ensures Collect(replies, nullIsEmpty, k, last1) == Collect(replies, nullIsEmpty, k, last2)
    decreases last1 - k
  {
    if !Ends(replies(k)) {
      CollectBoundIrrelevant(replies, nullIsEmpty, k + 1, last1, last2);
    }
  }

  /** Replies after the first one that ends the loop are never asked for:
      two servers that agree up to an ending reply give the same run. */
  lemma {:induction false} CollectStopsAtEnd(r1: nat -> Reply, r2: nat -> Reply, nullIsEmpty: bool, k: nat, j: nat, last1: nat, last2: nat)
    requires k <= j && Ends(r1(j))
    requires forall i :: k <= i <= j ==> r1(i) == r2(i)
    requires k <= last1 && Ends(r1(last1))
    requires k <= last2 && Ends(r2(last2))
    ensures Collect(r1, nullIsEmpty, k, last1) == Collect(r2, nullIsEmpty, k, last2)
    decreases j - k
  {
    assert r1(k) == r2(k);
    if !Ends(r1(k)) {
      CollectStopsAtEnd(r1, r2, nullIsEmpty, k + 1, j, last1, last2);
    }
  }

  /** The page a server holding `store` returns for an offset. */
  function Window(store: seq<Dict>, offset: nat): (w: seq<Dict>)
    ensures |w| <= Limit
  {
    if offset >= |store| then []
    else if offset + Limit <= |store| then store[offset..offset + Limit]
    else store[offset..]
  }

  /** Against a server that holds the matching objects in `store` and
      answers the k-th request with the window at offset k * Limit, the
      loop returns every object, in the server's order, once. */
  lemma {:induction false} CollectStore(replies: nat -> Reply, nullIsEmpty: bool, store: seq<Dict>, k: nat)
    requires forall i: nat :: replies(i) == Done(Some(Window(store, i * Limit)))
    requires k * Limit <= |store|
    ensures |store| / Limit * Limit <= |store| < |store| / Limit * Limit + Limit
    ensures k <= |store| / Limit && Ends(replies(|store| / Limit))
    ensures Collect(replies, nullIsEmpty, k, |store| / Limit) == Collected(store[k * Limit..])
    decreases |store| - k * Limit
  {
    var last := |store| / Limit;
    assert |Window(store, last * Limit)| < Limit;
    var w := Window(store, k * Limit);
    assert replies(k) == Done(Some(w));
    if |w| < Limit {
      assert w == store[k * Limit..];
    } else {
      assert w == store[k * Limit..k * Limit + Limit];
      assert (k + 1) * Limit == k * Limit + Limit;
      CollectStore(replies, nullIsEmpty, store, k + 1);
      assert store[k * Limit..] == w + store[(k + 1) * Limit..];
    }
  }
}
