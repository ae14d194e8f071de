/**
  The collection rule shared by every per-scope collector of the inventory:
  one fetch per scope (an AWS region or an Azure subscription), a first batch
  of fetches that run concurrently and are merged only once all of them have
  finished, then every remaining scope fetched and merged one at a time.

  Go's `range` over the session map visits the scopes in an unspecified order;
  here that order is the sequence `order`, any sequence of exactly the map's
  keys, and every contract below holds for each such order. The
  goroutines, the WaitGroup and the two buffered channels are replaced by what
  they compute: all batch outcomes are known before the batch is checked. The
  order in which results arrive on a channel is left open: the reported batch
  error and the order of the batch writes are chosen nondeterministically.
*/
module Fanout {
  import opened Wrappers


  /** What one scope's fetcher returned: an error, a nil slice, or a slice (possibly empty). */
  datatype FetchOutcome<T> = Failed(err: string) | Nil | Fetched(items: seq<T>)

  /** What a collector returns: `nil` maps with an error, or the per-scope inventory. */
  datatype Collection<T> = Aborted(msg: string) | Gathered(items: map<string, seq<T>>)

  /** A fetcher call for a scope, or a write of that scope into the result maps. */
  datatype Event = Fetch(scope: string) | Store(scope: string)

  /**
    `order` visits exactly the keys of the session map. Go's `range` visits
    each key once; the contracts below hold even without that.
  */
  ghost predicate Visits<A>(order: seq<string>, sessions: map<string, A>)
  {
    forall s :: s in order <==> s in sessions
  }

  ghost predicate AnyFailed<A, T>(keys: seq<string>, sessions: map<string, A>, fetch: A -> FetchOutcome<T>)
  {
    exists i :: 0 <= i < |keys| && keys[i] in sessions && fetch(sessions[keys[i]]).Failed?
  }

  /** The inventory of a run in which nothing failed: every scope whose fetcher returned a slice, mapped to it. */
  function GatheredFrom<A, T>(keys: seq<string>, sessions: map<string, A>, fetch: A -> FetchOutcome<T>): map<string, seq<T>>
    requires forall s :: s in keys ==> s in sessions
  {
    map s | s in keys && fetch(sessions[s]).Fetched? :: fetch(sessions[s]).items
  }

  /**
    The inventory of a run over every scope: exactly the scopes whose
    fetcher returned a slice, an empty one included, each with that slice.
    A scope whose fetcher returned `nil` has no entry.
  */
  lemma GatheredScopes<A, T>(order: seq<string>, sessions: map<string, A>, fetch: A -> FetchOutcome<T>, scope: string)
    requires Visits(order, sessions)
    ensures scope in GatheredFrom(order, sessions, fetch) <==> scope in sessions && fetch(sessions[scope]).Fetched?
    ensures scope in GatheredFrom(order, sessions, fetch) ==>
      GatheredFrom(order, sessions, fetch)[scope] == fetch(sessions[scope]).items
  {
  }

  /** Index of the first scope in `keys` whose fetcher failed, or `|keys|` when none did. */
  function FirstFailed<A, T>(keys: seq<string>, sessions: map<string, A>, fetch: A -> FetchOutcome<T>): (i: nat)
    requires forall s :: s in keys ==> s in sessions
    ensures i <= |keys|
    ensures forall j :: 0 <= j < i ==> !fetch(sessions[keys[j]]).Failed?
    ensures i < |keys| ==> fetch(sessions[keys[i]]).Failed?
    ensures i == |keys| <==> !AnyFailed(keys, sessions, fetch)
    decreases |keys|
  {
    if keys == [] then 0
    else if fetch(sessions[keys[0]]).Failed? then 0
    else 1 + FirstFailed(keys[1..], sessions, fetch)
  }

  /**
    The channel capacity of collector/awscollect.go: the number of scopes in
    the concurrent batch. A ceiling of 0 gives no batch at all.
  */
  function BatchSize(maxGoRoutines: int, sessions: nat): (k: nat)
    ensures k <= sessions
    ensures k == 0 <==> sessions == 0 || maxGoRoutines == 0
    ensures k == sessions <==> maxGoRoutines < 0 || maxGoRoutines >= sessions
    ensures 0 < k < sessions ==> k == maxGoRoutines
  {
    if maxGoRoutines >= sessions || maxGoRoutines < 0 then sessions else maxGoRoutines
  }

  /** "Error while gathering <scope>: <err>", the text a batch goroutine puts on the error channel. */
  function GatherError(scope: string, err: string): string
  {
    "Error while gathering " + scope + ": " + err
  }

  /** "Failed to gather <kind> Data: <detail>", the error a collector returns. */
  function Failure(kind: string, detail: string): string
  {
    "Failed to gather " + kind + " Data: " + detail
  }

  function FetchEvents(keys: seq<string>): (ev: seq<Event>)
    ensures |ev| == |keys|
  {
    seq(|keys|, i requires 0 <= i < |keys| => Fetch(keys[i]))
  }

  /** Serial processing: each scope's fetch, directly followed by its write when it returned a slice. */
  function TailEvents<A, T>(keys: seq<string>, sessions: map<string, A>, fetch: A -> FetchOutcome<T>): seq<Event>
    requires forall s :: s in keys ==> s in sessions
    decreases |keys|
  {
    if keys == [] then []
    else
      var last := keys[|keys| - 1];
      TailEvents(keys[..|keys| - 1], sessions, fetch)
        + [Fetch(last)] + (if fetch(sessions[last]).Fetched? then [Store(last)] else [])
  }

  /** `drained` lists each scope of `scopes` exactly once, in some order. */
  ghost predicate Lists(drained: seq<string>, scopes: set<string>)
  {
    && (forall i, j :: 0 <= i < j < |drained| ==> drained[i] != drained[j])
    && (forall s :: s in drained <==> s in scopes)
  }

  lemma HasFirst(keys: seq<string>)
    requires keys != []
    ensures keys[0] in keys
  {
  }

  /** Draining an empty channel writes nothing. */
  lemma NothingDrained(drained: seq<string>)
    requires Lists(drained, {})
    ensures drained == []
  {
    if drained != [] {
      HasFirst(drained);
      assert false;
    }
  }

  /** The writes of the drained scopes, in drain order. */
  function StoreEvents(drained: seq<string>): (ev: seq<Event>)
    ensures |ev| == |drained|
  {
    seq(|drained|, i requires 0 <= i < |drained| => Store(drained[i]))
  }

  /**
    The drain of the results channel: every (scope, slice) pair the batch
    produced is written into the inventory and its count map, in whatever
    order the channel yields them. The channel is a map because its scopes
    are distinct.
  */
  method Drain<T>(results: map<string, seq<T>>)
    returns (instances: map<string, seq<T>>, counts: map<string, int>, ghost drained: seq<string>)
    ensures instances == results
    ensures counts.Keys == results.Keys
    ensures forall s :: s in counts ==> counts[s] == |results[s]|
    ensures Lists(drained, results.Keys)
  {
    instances, counts, drained := map[], map[], [];
    var left := results.Keys;
    while left != {}
      invariant instances.Keys + left == results.Keys && instances.Keys !! left
      invariant forall s :: s in instances ==> instances[s] == results[s]
      invariant counts.Keys == instances.Keys
      invariant forall s :: s in counts ==> counts[s] == |results[s]|
      invariant Lists(drained, instances.Keys)
      decreases left
    {
      var scope :| scope in left;
      instances := instances[scope := results[scope]];
      counts := counts[scope := |results[scope]|];
      drained := drained + [scope];
      left := left - {scope};
    }
  }

  /** The errors the batch goroutines put on the error channel, one per failing scope of `keys`. */
  function BatchErrors<A, T>(keys: seq<string>, sessions: map<string, A>, fetch: A -> FetchOutcome<T>): set<string>
    requires forall s :: s in keys ==> s in sessions
    decreases |keys|
  {
    if keys == [] then {}
    else
      var last := keys[|keys| - 1];
      BatchErrors(keys[..|keys| - 1], sessions, fetch)
        + (if fetch(sessions[last]).Failed? then {GatherError(last, fetch(sessions[last]).err)} else {})
  }

  /** `e` is the channel error of some failing scope of `keys`. */
  ghost predicate IsBatchError<A, T>(keys: seq<string>, sessions: map<string, A>, fetch: A -> FetchOutcome<T>, e: string)
  {
    exists i :: 0 <= i < |keys| && keys[i] in sessions && fetch(sessions[keys[i]]).Failed?
      && e == GatherError(keys[i], fetch(sessions[keys[i]]).err)
  }

  /** The channel holds exactly the errors of failing scopes, and is empty exactly when none failed. */
  lemma {:induction false} BatchErrorsSound<A, T>(keys: seq<string>, sessions: map<string, A>, fetch: A -> FetchOutcome<T>)
    requires forall s :: s in keys ==> s in sessions
    ensures forall e :: e in BatchErrors(keys, sessions, fetch) ==> IsBatchError(keys, sessions, fetch, e)
    ensures BatchErrors(keys, sessions, fetch) == {} <==> !AnyFailed(keys, sessions, fetch)
    decreases |keys|
  {
    if keys != [] {
      var init := keys[..|keys| - 1];
      var last := keys[|keys| - 1];
      BatchErrorsSound(init, sessions, fetch);
      forall e | e in BatchErrors(keys, sessions, fetch)
        ensures IsBatchError(keys, sessions, fetch, e)
      {
        if e in BatchErrors(init, sessions, fetch) {
          var i :| 0 <= i < |init| && init[i] in sessions && fetch(sessions[init[i]]).Failed?
            && e == GatherError(init[i], fetch(sessions[init[i]]).err);
          assert keys[i] == init[i];
        } else {
          assert keys[|keys| - 1] == last;
        }
      }
      if AnyFailed(keys, sessions, fetch) {
        var i :| 0 <= i < |keys| && keys[i] in sessions && fetch(sessions[keys[i]]).Failed?;
        if i < |keys| - 1 {
          assert init[i] == keys[i];
        }
      }
      if AnyFailed(init, sessions, fetch) {
        var i :| 0 <= i < |init| && init[i] in sessions && fetch(sessions[init[i]]).Failed?;
        assert keys[i] == init[i];
      }
      if fetch(sessions[last]).Failed? {
        assert keys[|keys| - 1] == last;
      }
    }
  }

  /** Merging one more scope into the inventory of a run in which nothing failed. */
  lemma GatheredExtend<A, T>(keys: seq<string>, scope: string, sessions: map<string, A>, fetch: A -> FetchOutcome<T>)
    requires forall s :: s in keys ==> s in sessions
    requires scope in sessions
    ensures GatheredFrom(keys + [scope], sessions, fetch)
      == if fetch(sessions[scope]).Fetched?
         then GatheredFrom(keys, sessions, fetch)[scope := fetch(sessions[scope]).items]
         else GatheredFrom(keys, sessions, fetch)
    ensures AnyFailed(keys + [scope], sessions, fetch) <==> AnyFailed(keys, sessions, fetch) || fetch(sessions[scope]).Failed?
  {
    var ext := keys + [scope];
    assert forall s :: s in ext <==> s in keys || s == scope;
    if AnyFailed(ext, sessions, fetch) {
      var i :| 0 <= i < |ext| && ext[i] in sessions && fetch(sessions[ext[i]]).Failed?;
      if i < |keys| {
        assert keys[i] == ext[i];
      }
    }
    if AnyFailed(keys, sessions, fetch) {
      var i :| 0 <= i < |keys| && keys[i] in sessions && fetch(sessions[keys[i]]).Failed?;
      assert ext[i] == keys[i];
    }
    if fetch(sessions[scope]).Failed? {
      assert ext[|keys|] == scope;
    }
  }

  /** A failure anywhere in a prefix is a failure of the whole sequence. */
  lemma AnyFailedPrefix<A, T>(keys: seq<string>, n: nat, sessions: map<string, A>, fetch: A -> FetchOutcome<T>)
    requires n <= |keys|
    requires AnyFailed(keys[..n], sessions, fetch)
    ensures AnyFailed(keys, sessions, fetch)
  {
    var i :| 0 <= i < n && keys[..n][i] in sessions && fetch(sessions[keys[..n][i]]).Failed?;
    assert keys[i] == keys[..n][i];
  }

  /** A failure right after a failure-free prefix is the first failure. */
  lemma FirstFailedAt<A, T>(keys: seq<string>, n: nat, sessions: map<string, A>, fetch: A -> FetchOutcome<T>)
    requires forall s :: s in keys ==> s in sessions
    requires n < |keys|
    requires !AnyFailed(keys[..n], sessions, fetch) && fetch(sessions[keys[n]]).Failed?
    ensures FirstFailed(keys, sessions, fetch) == n
  {
    forall j | 0 <= j < n
      ensures !fetch(sessions[keys[j]]).Failed?
    {
      assert keys[..n][j] == keys[j];
    }
    assert AnyFailed(keys, sessions, fetch) by {
      assert keys[n] in keys;
    }
  }

  /** The message a collector returns when some scope of the batch `keys` failed. */
  ghost predicate ReportsBatchFailure<A, T>(kind: string, keys: seq<string>, sessions: map<string, A>, fetch: A -> FetchOutcome<T>, msg: string)
  {
    exists i :: 0 <= i < |keys| && keys[i] in sessions && fetch(sessions[keys[i]]).Failed?
      && msg == Failure(kind, GatherError(keys[i], fetch(sessions[keys[i]]).err))
  }

  lemma BatchFailureReported<A, T>(kind: string, keys: seq<string>, sessions: map<string, A>, fetch: A -> FetchOutcome<T>, e: string)
    requires IsBatchError(keys, sessions, fetch, e)
    ensures ReportsBatchFailure(kind, keys, sessions, fetch, Failure(kind, e))
  {
    var i :| 0 <= i < |keys| && keys[i] in sessions && fetch(sessions[keys[i]]).Failed?
      && e == GatherError(keys[i], fetch(sessions[keys[i]]).err);
  }

  /** Loop state while the batch is still running: `c` scopes launched, nothing merged yet. */
  ghost predicate Pending<A, T>(order: seq<string>, sessions: map<string, A>, fetch: A -> FetchOutcome<T>, c: nat,
                                results: map<string, seq<T>>, errs: set<string>, trace: seq<Event>)
    requires c <= |order|
    requires forall s :: s in order ==> s in sessions
  {
    && results == GatheredFrom(order[..c], sessions, fetch)
    && errs == BatchErrors(order[..c], sessions, fetch)
    && trace == FetchEvents(order[..c])
  }

  /** Loop state once the batch of `k` scopes has been merged and `c - k` more scopes were handled one by one. */
  ghost predicate Merged<A, T>(order: seq<string>, sessions: map<string, A>, fetch: A -> FetchOutcome<T>, k: nat, c: nat,
                               instances: map<string, seq<T>>, counts: map<string, int>, drained: seq<string>, trace: seq<Event>)
    requires k <= c <= |order|
    requires forall s :: s in order ==> s in sessions
  {
    && !AnyFailed(order[..c], sessions, fetch)
    && instances == GatheredFrom(order[..c], sessions, fetch)
    && counts.Keys == instances.Keys
    && (forall s :: s in counts ==> counts[s] == |instances[s]|)
    && Lists(drained, GatheredFrom(order[..k], sessions, fetch).Keys)
    && trace == FetchEvents(order[..k]) + StoreEvents(drained) + TailEvents(order[k..c], sessions, fetch)
  }

  lemma PrefixInSessions<A>(order: seq<string>, sessions: map<string, A>, c: nat)
    requires forall s :: s in order ==> s in sessions
    requires c <= |order|
    ensures forall s :: s in order[..c] ==> s in sessions
  {
    forall s | s in order[..c]
      ensures s in sessions
    {
      var i :| 0 <= i < c && order[..c][i] == s;
      assert order[i] == s;
    }
  }

  /** Launching the batch goroutine of scope `order[c]`. */
  lemma PendingStep<A, T>(order: seq<string>, sessions: map<string, A>, fetch: A -> FetchOutcome<T>, c: nat,
                          results: map<string, seq<T>>, errs: set<string>, trace: seq<Event>)
    requires c < |order|
    requires forall s :: s in order ==> s in sessions
    requires Pending(order, sessions, fetch, c, results, errs, trace)
    ensures var region := order[c];
      var outcome := fetch(sessions[region]);
      Pending(order, sessions, fetch, c + 1,
              if outcome.Fetched? then results[region := outcome.items] else results,
              if outcome.Failed? then errs + {GatherError(region, outcome.err)} else errs,
              trace + [Fetch(region)])
  {
    var region := order[c];
    assert order[..c + 1] == order[..c] + [region];
    assert order[..c + 1][..c] == order[..c];
    PrefixInSessions(order, sessions, c);
    PrefixInSessions(order, sessions, c + 1);
    GatheredExtend(order[..c], region, sessions, fetch);
    assert FetchEvents(order[..c + 1]) == FetchEvents(order[..c]) + [Fetch(region)];
  }

  /** Closing the batch without errors: the drained channel is the merged state after `k` scopes. */
  lemma BatchMerged<A, T>(order: seq<string>, sessions: map<string, A>, fetch: A -> FetchOutcome<T>, k: nat,
                          results: map<string, seq<T>>, trace: seq<Event>,
                          instances: map<string, seq<T>>, counts: map<string, int>, drained: seq<string>)
    requires k <= |order|
    requires forall s :: s in order ==> s in sessions
    requires Pending(order, sessions, fetch, k, results, {}, trace)
    requires instances == results && counts.Keys == results.Keys
    requires forall s :: s in counts ==> counts[s] == |results[s]|
    requires Lists(drained, results.Keys)
    ensures Merged(order, sessions, fetch, k, k, instances, counts, drained, trace + StoreEvents(drained))
  {
    PrefixInSessions(order, sessions, k);
    BatchErrorsSound(order[..k], sessions, fetch);
    assert order[k..k] == [];
  }

  /** Concatenation regrouped to the left. */
  lemma ConcatLeft<T>(a: seq<T>, b: seq<T>, c: seq<T>, d: seq<T>)
    ensures a + (b + c + d) == a + b + c + d
    ensures a + (b + c) == a + b + c
  {
  }

  /** The trace of a merged run grows by the events of the next tail scope. */
  lemma TailTraceStep<A, T>(order: seq<string>, sessions: map<string, A>, fetch: A -> FetchOutcome<T>, k: nat, c: nat,
                            drained: seq<string>, trace: seq<Event>)
    requires k <= c < |order|
    requires forall s :: s in order ==> s in sessions
    requires trace == FetchEvents(order[..k]) + StoreEvents(drained) + TailEvents(order[k..c], sessions, fetch)
    ensures var region := order[c];
      var next := FetchEvents(order[..k]) + StoreEvents(drained) + TailEvents(order[k..c + 1], sessions, fetch);
      && (fetch(sessions[region]).Fetched? ==> trace + [Fetch(region)] + [Store(region)] == next)
      && (!fetch(sessions[region]).Fetched? ==> trace + [Fetch(region)] == next)
  {
    var region := order[c];
    var head := FetchEvents(order[..k]) + StoreEvents(drained);
    var tail := TailEvents(order[k..c], sessions, fetch);
    assert order[k..c + 1][..c - k] == order[k..c];
    assert order[k..c + 1][c - k] == region;
    if fetch(sessions[region]).Fetched? {
      assert TailEvents(order[k..c + 1], sessions, fetch) == tail + [Fetch(region)] + [Store(region)];
      ConcatLeft(head, tail, [Fetch(region)], [Store(region)]);
    } else {
      assert TailEvents(order[k..c + 1], sessions, fetch) == tail + [Fetch(region)] + [];
      assert tail + [Fetch(region)] + [] == tail + [Fetch(region)];
      ConcatLeft(head, tail, [Fetch(region)], []);
    }
  }

  /** Fetching tail scope `order[c]`, which returned `nil`: nothing is merged. */
  lemma MergedNil<A, T>(order: seq<string>, sessions: map<string, A>, fetch: A -> FetchOutcome<T>, k: nat, c: nat,
                        instances: map<string, seq<T>>, counts: map<string, int>, drained: seq<string>, trace: seq<Event>)
    requires k <= c < |order|
    requires forall s :: s in order ==> s in sessions
    requires Merged(order, sessions, fetch, k, c, instances, counts, drained, trace)
    requires fetch(sessions[order[c]]).Nil?
    ensures Merged(order, sessions, fetch, k, c + 1, instances, counts, drained, trace + [Fetch(order[c])])
  {
    var region := order[c];
    assert order[..c + 1] == order[..c] + [region];
    PrefixInSessions(order, sessions, c);
    GatheredExtend(order[..c], region, sessions, fetch);
    TailTraceStep(order, sessions, fetch, k, c, drained, trace);
  }

  /** Fetching tail scope `order[c]`, which returned a slice: the slice and its length are merged. */
  lemma MergedFetched<A, T>(order: seq<string>, sessions: map<string, A>, fetch: A -> FetchOutcome<T>, k: nat, c: nat,
                            instances: map<string, seq<T>>, counts: map<string, int>, drained: seq<string>, trace: seq<Event>)
    requires k <= c < |order|
    requires forall s :: s in order ==> s in sessions
    requires Merged(order, sessions, fetch, k, c, instances, counts, drained, trace)
    requires fetch(sessions[order[c]]).Fetched?
    ensures var region := order[c];
      var items := fetch(sessions[region]).items;
      Merged(order, sessions, fetch, k, c + 1, instances[region := items], counts[region := |items|],
             drained, trace + [Fetch(region)] + [Store(region)])
  {
    var region := order[c];
    assert order[..c + 1] == order[..c] + [region];
    PrefixInSessions(order, sessions, c);
    GatheredExtend(order[..c], region, sessions, fetch);
    TailTraceStep(order, sessions, fetch, k, c, drained, trace);
  }

  /**
    What a batched collection returns, for a batch of the first `k` scopes of
    `order`: the run succeeds exactly when no fetch failed, with every scope
    whose fetcher returned a slice mapped to that slice and counted; a
    failing batch ends the run with one of its scopes' errors before anything
    is merged; otherwise the first failing tail scope ends the run with its
    bare error, and no later scope is fetched. `trace` is the order of
    fetches and writes, `drained` the order in which the batch channel was
    drained.
  */
  ghost predicate BatchedOutcome<A, T>(kind: string, order: seq<string>, sessions: map<string, A>, fetch: A -> FetchOutcome<T>,
                                       k: nat, r: Collection<T>, counts: map<string, int>, trace: seq<Event>, drained: seq<string>)
    requires k <= |order|
    requires forall s :: s in order ==> s in sessions
  {
    BatchedResult(kind, order, sessions, fetch, k, r, counts) && BatchedTrace(order, sessions, fetch, k, trace, drained)
  }

  /** What a batched run returns: the collection or the failure message, and the counts. */
  ghost predicate BatchedResult<A, T>(kind: string, order: seq<string>, sessions: map<string, A>, fetch: A -> FetchOutcome<T>,
                                      k: nat, r: Collection<T>, counts: map<string, int>)
    requires k <= |order|
    requires forall s :: s in order ==> s in sessions
  {
    && (r.Gathered? <==> !AnyFailed(order, sessions, fetch))
    && (r.Gathered? ==> r.items == GatheredFrom(order, sessions, fetch))
    && (r.Gathered? ==> counts.Keys == r.items.Keys && forall s :: s in counts ==> counts[s] == |r.items[s]|)
    && (r.Aborted? ==> counts == map[])
    && (AnyFailed(order[..k], sessions, fetch) ==>
          && r.Aborted?
          && ReportsBatchFailure(kind, order[..k], sessions, fetch, r.msg))
    && (!AnyFailed(order[..k], sessions, fetch) ==>
          var j := FirstFailed(order, sessions, fetch);
          && k <= j
          && (j < |order| ==> r == Aborted(Failure(kind, fetch(sessions[order[j]]).err))))
  }

  /** The fetches and writes of a batched run, and the order in which the batch channel was drained. */
  ghost predicate BatchedTrace<A, T>(order: seq<string>, sessions: map<string, A>, fetch: A -> FetchOutcome<T>,
                                     k: nat, trace: seq<Event>, drained: seq<string>)
    requires k <= |order|
    requires forall s :: s in order ==> s in sessions
  {
    && (AnyFailed(order[..k], sessions, fetch) ==> trace == FetchEvents(order[..k]))
    && (!AnyFailed(order[..k], sessions, fetch) ==>
          && Lists(drained, GatheredFrom(order[..k], sessions, fetch).Keys)
          && var j := FirstFailed(order, sessions, fetch);
             && (k <= j < |order| ==>
                  trace == FetchEvents(order[..k]) + StoreEvents(drained) + TailEvents(order[k..j], sessions, fetch) + [Fetch(order[j])])
             && (j == |order| ==>
                  trace == FetchEvents(order[..k]) + StoreEvents(drained) + TailEvents(order[k..], sessions, fetch)))
  }

  /** Exit through the batch check: some batch scope failed. */
  lemma BatchAbortOutcome<A, T>(kind: string, order: seq<string>, sessions: map<string, A>, fetch: A -> FetchOutcome<T>,
                                k: nat, results: map<string, seq<T>>, errs: set<string>, trace: seq<Event>, e: string)
    requires 0 < k <= |order|
    requires forall s :: s in order ==> s in sessions
    requires Pending(order, sessions, fetch, k, results, errs, trace)
    requires e in errs
    ensures BatchedOutcome(kind, order, sessions, fetch, k, Aborted(Failure(kind, e)), map[], trace, [])
  {
    PrefixInSessions(order, sessions, k);
    BatchErrorsSound(order[..k], sessions, fetch);
    BatchFailureReported(kind, order[..k], sessions, fetch, e);
    AnyFailedPrefix(order, k, sessions, fetch);
  }

  /** Exit through a failing tail scope `order[c]`. */
  lemma TailAbortOutcome<A, T>(kind: string, order: seq<string>, sessions: map<string, A>, fetch: A -> FetchOutcome<T>, k: nat, c: nat,
                               instances: map<string, seq<T>>, counts: map<string, int>, drained: seq<string>, trace: seq<Event>)
    requires k <= c < |order|
    requires forall s :: s in order ==> s in sessions
    requires Merged(order, sessions, fetch, k, c, instances, counts, drained, trace)
    requires fetch(sessions[order[c]]).Failed?
    ensures BatchedOutcome(kind, order, sessions, fetch, k, Aborted(Failure(kind, fetch(sessions[order[c]]).err)), map[],
                           trace + [Fetch(order[c])], drained)
  {
    FirstFailedAt(order, c, sessions, fetch);
    AnyFailedPrefix(order, c + 1, sessions, fetch);
    assert order[..c + 1][c] == order[c];
  }

  /** Exit after the last scope: nothing failed. */
  lemma GatheredOutcome<A, T>(kind: string, order: seq<string>, sessions: map<string, A>, fetch: A -> FetchOutcome<T>, k: nat,
                              instances: map<string, seq<T>>, counts: map<string, int>, drained: seq<string>, trace: seq<Event>)
    requires k <= |order|
    requires forall s :: s in order ==> s in sessions
    requires Merged(order, sessions, fetch, k, |order|, instances, counts, drained, trace)
    ensures BatchedOutcome(kind, order, sessions, fetch, k, Gathered(instances), counts, trace, drained)
  {
    assert order[..|order|] == order;
    if AnyFailed(order[..k], sessions, fetch) {
      AnyFailedPrefix(order, k, sessions, fetch);
    }
  }

  /**
    The loop state of `CollectBatched` before scope `order[c]`: while the
    batch of `k` scopes is being launched only the goroutines' results and
    errors have grown; from `k` on, the batch is merged and so is every
    scope after it.
  */
  ghost predicate Batching<A, T>(order: seq<string>, sessions: map<string, A>, fetch: A -> FetchOutcome<T>, k: nat, c: nat,
                                 results: map<string, seq<T>>, errs: set<string>,
                                 instances: map<string, seq<T>>, counts: map<string, int>, drained: seq<string>, trace: seq<Event>)
    requires forall s :: s in order ==> s in sessions
  {
    && k <= |order| && c <= |order|
    && (c < k ==> instances == map[] && counts == map[] && drained == [] && Pending(order, sessions, fetch, c, results, errs, trace))
    && (k <= c ==> Merged(order, sessions, fetch, k, c, instances, counts, drained, trace))
  }

  lemma BatchingStart<A, T>(order: seq<string>, sessions: map<string, A>, fetch: A -> FetchOutcome<T>, k: nat)
    requires forall s :: s in order ==> s in sessions
    requires k <= |order|
    ensures Batching(order, sessions, fetch, k, 0, map[], {}, map[], map[], [], [])
  {
    assert order[..0] == [];
    assert order[0..0] == [];
  }

  /** One more goroutine of the batch: its outcome joins the pending results or errors. */
  lemma BatchingLaunch<A, T>(order: seq<string>, sessions: map<string, A>, fetch: A -> FetchOutcome<T>, k: nat, c: nat,
                             results: map<string, seq<T>>, errs: set<string>, trace: seq<Event>)
    requires forall s :: s in order ==> s in sessions
    requires c < k
    requires Batching(order, sessions, fetch, k, c, results, errs, map[], map[], [], trace)
    ensures var region := order[c];
      var outcome := fetch(sessions[region]);
      var results' := if outcome.Fetched? then results[region := outcome.items] else results;
      var errs' := if outcome.Failed? then errs + {GatherError(region, outcome.err)} else errs;
      && (c + 1 < k ==> Batching(order, sessions, fetch, k, c + 1, results', errs', map[], map[], [], trace + [Fetch(region)]))
      && (c + 1 == k ==> Pending(order, sessions, fetch, k, results', errs', trace + [Fetch(region)]))
  {
    PendingStep(order, sessions, fetch, c, results, errs, trace);
  }

  /** Past the batch the loop state is the merged one, whatever the batch's pending results were. */
  lemma MergedBatching<A, T>(order: seq<string>, sessions: map<string, A>, fetch: A -> FetchOutcome<T>, k: nat, c: nat,
                             results: map<string, seq<T>>, errs: set<string>,
                             instances: map<string, seq<T>>, counts: map<string, int>, drained: seq<string>, trace: seq<Event>)
    requires forall s :: s in order ==> s in sessions
    requires k <= c <= |order|
    requires Merged(order, sessions, fetch, k, c, instances, counts, drained, trace)
    ensures Batching(order, sessions, fetch, k, c, results, errs, instances, counts, drained, trace)
  {
  }

  /**
    The end of the batch (`sessionCount == chanCapacity-1`): once every
    goroutine is done, a queued error ends the collection (`failed`);
    otherwise the result channel is drained into the two maps.
  */
  method CloseBatch<A, T>(kind: string, order: seq<string>, sessions: map<string, A>, fetch: A -> FetchOutcome<T>, k: nat,
                          results: map<string, seq<T>>, errs: set<string>, ghost trace: seq<Event>)
    returns (failed: Option<string>, instances: map<string, seq<T>>, counts: map<string, int>,
             ghost drained: seq<string>, ghost trace': seq<Event>)
    requires 0 < k <= |order|
    requires forall s :: s in order ==> s in sessions
    requires Pending(order, sessions, fetch, k, results, errs, trace)
    ensures failed.Some? <==> errs != {}
    ensures failed.Some? ==> failed.value in errs && drained == [] && trace' == trace
    ensures failed.Some? ==> BatchedOutcome(kind, order, sessions, fetch, k, Aborted(Failure(kind, failed.value)), map[], trace', drained)
    ensures failed.None? ==> Merged(order, sessions, fetch, k, k, instances, counts, drained, trace')
  {
    if errs != {} {
      var e :| e in errs;
      BatchAbortOutcome(kind, order, sessions, fetch, k, results, errs, trace, e);
      return Some(e), map[], map[], [], trace;
    }
    instances, counts, drained := Drain(results);
    BatchMerged(order, sessions, fetch, k, results, trace, instances, counts, drained);
    return None, instances, counts, drained, trace + StoreEvents(drained);
  }

  /**
    A scope after the batch, fetched and merged on its own: a failure ends
    the collection (`failed`), no list leaves the maps as they are, and a
    list is stored with its length.
  */
  method GatherOne<A, T>(kind: string, order: seq<string>, sessions: map<string, A>, fetch: A -> FetchOutcome<T>, k: nat, c: nat,
                         instances: map<string, seq<T>>, counts: map<string, int>, ghost drained: seq<string>, ghost trace: seq<Event>)
    returns (failed: Option<string>, instances': map<string, seq<T>>, counts': map<string, int>, ghost trace': seq<Event>)
    requires k <= c < |order|
    requires forall s :: s in order ==> s in sessions
    requires Merged(order, sessions, fetch, k, c, instances, counts, drained, trace)
    ensures failed.Some? <==> fetch(sessions[order[c]]).Failed?
    ensures failed.Some? ==> failed.value == fetch(sessions[order[c]]).err
    ensures failed.Some? ==> BatchedOutcome(kind, order, sessions, fetch, k, Aborted(Failure(kind, failed.value)), map[], trace', drained)
    ensures failed.None? ==> Merged(order, sessions, fetch, k, c + 1, instances', counts', drained, trace')
  {
    var region := order[c];
    var outcome := fetch(sessions[region]);
    match outcome {
      case Failed(err) =>
        TailAbortOutcome(kind, order, sessions, fetch, k, c, instances, counts, drained, trace);
        return Some(err), map[], map[], trace + [Fetch(region)];
      case Nil =>
        MergedNil(order, sessions, fetch, k, c, instances, counts, drained, trace);
        return None, instances, counts, trace + [Fetch(region)];
      case Fetched(chunk) =>
        MergedFetched(order, sessions, fetch, k, c, instances, counts, drained, trace);
        return None, instances[region := chunk], counts[region := |chunk|], trace + [Fetch(region)] + [Store(region)];
    }
  }

  /**
    The `Collect*` methods of collector/awscollect.go with `maxGoRoutines`:
    the first `BatchSize` scopes of `order` are fetched together and merged
    only after all of them finished; every later scope is fetched and merged
    on its own. `kind` is the word of the error text ("EC2",
    "LoadBalancers", "VPC", "Subnets", "CloudFront", "RDS").
  */
  method CollectBatched<A, T>(kind: string, order: seq<string>, sessions: map<string, A>,
                              fetch: A -> FetchOutcome<T>, maxGoRoutines: int)
    returns (r: Collection<T>, counts: map<string, int>, ghost trace: seq<Event>, ghost drained: seq<string>)
    requires Visits(order, sessions)
    ensures BatchedResult(kind, order, sessions, fetch, BatchSize(maxGoRoutines, |order|), r, counts)
    ensures BatchedTrace(order, sessions, fetch, BatchSize(maxGoRoutines, |order|), trace, drained)
  {
    var chanCapacity := if maxGoRoutines >= |order| || maxGoRoutines < 0 then |order| else maxGoRoutines;
    var instances: map<string, seq<T>> := map[];
    counts := map[];
    var results: map<string, seq<T>> := map[];
    var errs: set<string> := {};
    trace, drained := [], [];
    var sessionCount := 0;
    BatchingStart(order, sessions, fetch, chanCapacity);
    while sessionCount < |order|
      invariant chanCapacity == BatchSize(maxGoRoutines, |order|)
      invariant Batching(order, sessions, fetch, chanCapacity, sessionCount, results, errs, instances, counts, drained, trace)
      decreases |order| - sessionCount
    {
      var region := order[sessionCount];
      var sess := sessions[region];
      if sessionCount < chanCapacity {
        // the goroutine of this scope
        BatchingLaunch(order, sessions, fetch, chanCapacity, sessionCount, results, errs, trace);
        var outcome := fetch(sess);
        trace := trace + [Fetch(region)];
        match outcome {
          case Failed(err) => errs := errs + {GatherError(region, err)};
          case Nil =>
          case Fetched(chunk) => results := results[region := chunk];
        }
        if sessionCount == chanCapacity - 1 {
          var failed;
          failed, instances, counts, drained, trace := CloseBatch(kind, order, sessions, fetch, chanCapacity, results, errs, trace);
          if failed.Some? {
            return Aborted(Failure(kind, failed.value)), map[], trace, drained;
          }
          MergedBatching(order, sessions, fetch, chanCapacity, sessionCount + 1, results, errs, instances, counts, drained, trace);
        }
      } else {
        var failed;
        failed, instances, counts, trace := GatherOne(kind, order, sessions, fetch, chanCapacity, sessionCount,
                                                      instances, counts, drained, trace);
        if failed.Some? {
          return Aborted(Failure(kind, failed.value)), map[], trace, drained;
        }
        MergedBatching(order, sessions, fetch, chanCapacity, sessionCount + 1, results, errs, instances, counts, drained, trace);
      }
      sessionCount := sessionCount + 1;
    }
    assert sessionCount == |order|;
    GatheredOutcome(kind, order, sessions, fetch, chanCapacity, instances, counts, drained, trace);
    return Gathered(instances), counts, trace, drained;
  }

  /**
    The unbounded collectors (`CollectEC2`/`CollectRDS` of collector/collect.go,
    `CollectSQLDBs`, `CollectVirtualNetworks`): one goroutine per scope, then
    a single check of the error channel, then the drain of the result
    channel. `kind` is "EC2", "RDS", "SQL databases" or "load balancers".
  */
  method CollectAll<A, T>(kind: string, order: seq<string>, sessions: map<string, A>, fetch: A -> FetchOutcome<T>)
    returns (r: Collection<T>, ghost trace: seq<Event>, ghost drained: seq<string>)
    requires Visits(order, sessions)
    ensures r.Gathered? <==> !AnyFailed(order, sessions, fetch)
    ensures r.Gathered? ==>
      && r.items == GatheredFrom(order, sessions, fetch)
      && Lists(drained, r.items.Keys)
      && trace == FetchEvents(order) + StoreEvents(drained)
    ensures r.Aborted? ==>
      && ReportsBatchFailure(kind, order, sessions, fetch, r.msg)
      && trace == FetchEvents(order)
  {
    var results: map<string, seq<T>> := map[];
    var errs: set<string> := {};
    trace, drained := [], [];
    for i := 0 to |order|
      invariant Pending(order, sessions, fetch, i, results, errs, trace)
    {
      PendingStep(order, sessions, fetch, i, results, errs, trace);
      var scope := order[i];
      var outcome := fetch(sessions[scope]);
      trace := trace + [Fetch(scope)];
      match outcome {
        case Failed(err) => errs := errs + {GatherError(scope, err)};
        case Nil =>
        case Fetched(chunk) => results := results[scope := chunk];
      }
    }
    assert order[..|order|] == order;
    BatchErrorsSound(order, sessions, fetch);
    if errs != {} {
      var e :| e in errs;
      BatchFailureReported(kind, order, sessions, fetch, e);
      return Aborted(Failure(kind, e)), trace, drained;
    }
    var instances, counts;
    instances, counts, drained := Drain(results);
    return Gathered(instances), trace + StoreEvents(drained), drained;
  }

  /** With a ceiling of at least the number of scopes, or a negative one, the batched collector is the unbounded one. */
  lemma {:induction false} UnboundedIsFullBatch<A, T>(kind: string, order: seq<string>, sessions: map<string, A>, fetch: A -> FetchOutcome<T>,
                                   maxGoRoutines: int, r: Collection<T>, counts: map<string, int>, trace: seq<Event>, drained: seq<string>)
    requires Visits(order, sessions)
    requires maxGoRoutines < 0 || maxGoRoutines >= |order|
    requires BatchedOutcome(kind, order, sessions, fetch, BatchSize(maxGoRoutines, |order|), r, counts, trace, drained)
    ensures r.Gathered? ==>
      && r.items == GatheredFrom(order, sessions, fetch)
      && Lists(drained, r.items.Keys)
      && trace == FetchEvents(order) + StoreEvents(drained)
    ensures r.Aborted? ==>
      && ReportsBatchFailure(kind, order, sessions, fetch, r.msg)
      && trace == FetchEvents(order)
  {
    assert order[..|order|] == order;
    assert order[|order|..] == [];
  }

  /**
    With a ceiling of 0 nothing runs concurrently: each scope is fetched and
    merged before the next is fetched, and a failure is reported without
    its scope's name.
  */
  lemma {:induction false} ZeroCeilingIsSequential<A, T>(kind: string, order: seq<string>, sessions: map<string, A>, fetch: A -> FetchOutcome<T>,
                                       r: Collection<T>, counts: map<string, int>, trace: seq<Event>, drained: seq<string>)
    requires Visits(order, sessions)
    requires BatchedOutcome(kind, order, sessions, fetch, BatchSize(0, |order|), r, counts, trace, drained)
    ensures r.Gathered? ==> trace == TailEvents(order, sessions, fetch)
    ensures r.Aborted? ==>
      var j := FirstFailed(order, sessions, fetch);
      && j < |order|
      && r.msg == Failure(kind, fetch(sessions[order[j]]).err)
      && trace == TailEvents(order[..j], sessions, fetch) + [Fetch(order[j])]
  {
    assert BatchSize(0, |order|) == 0;
    assert order[..0] == [];
    assert !AnyFailed([], sessions, fetch);
    assert GatheredFrom([], sessions, fetch) == map[];
    NothingDrained(drained);
    assert FetchEvents([]) + StoreEvents(drained) == [];
    var j := FirstFailed(order, sessions, fetch);
    if j < |order| {
      assert order[0..j] == order[..j];
    } else {
      assert order[0..] == order;
    }
  }

  /** The scopes whose fetcher ran, in the order of `trace`. */
  function Fetches(trace: seq<Event>): seq<string>
    decreases |trace|
  {
    if trace == [] then []
    else
      var last := trace[|trace| - 1];
      Fetches(trace[..|trace| - 1]) + (if last.Fetch? then [last.scope] else [])
  }

  lemma {:induction false} FetchesAppend(a: seq<Event>, b: seq<Event>)
    ensures Fetches(a + b) == Fetches(a) + Fetches(b)
    decreases |b|
  {
    if b == [] {
      assert a + b == a;
    } else {
      var init := b[..|b| - 1];
      assert (a + b)[..|a + b| - 1] == a + init;
      assert (a + b)[|a + b| - 1] == b[|b| - 1];
      FetchesAppend(a, init);
    }
  }

  lemma {:induction false} FetchesOfFetchEvents(keys: seq<string>)
    ensures Fetches(FetchEvents(keys)) == keys
    decreases |keys|
  {
    if keys != [] {
      var init := keys[..|keys| - 1];
      assert FetchEvents(keys)[..|keys| - 1] == FetchEvents(init);
      FetchesOfFetchEvents(init);
    }
  }

  lemma {:induction false} FetchesOfStoreEvents(drained: seq<string>)
    ensures Fetches(StoreEvents(drained)) == []
    decreases |drained|
  {
    if drained != [] {
      assert StoreEvents(drained)[..|drained| - 1] == StoreEvents(drained[..|drained| - 1]);
      FetchesOfStoreEvents(drained[..|drained| - 1]);
    }
  }

  /** A single event contributes its scope exactly when it is a fetch. */
  lemma FetchesOne(e: Event)
    ensures Fetches([e]) == if e.Fetch? then [e.scope] else []
  {
    assert [e][..0] == [];
  }

  /** One serial scope's events: its fetch, then possibly its write. */
  lemma FetchThenStore(x: string, stored: bool)
    ensures Fetches([Fetch(x)] + (if stored then [Store(x)] else [])) == [x]
  {
    FetchesOne(Fetch(x));
    if stored {
      FetchesAppend([Fetch(x)], [Store(x)]);
      FetchesOne(Store(x));
    } else {
      assert [Fetch(x)] + [] == [Fetch(x)];
    }
  }

  /** A non-empty sequence is its front followed by its last element. */
  lemma LastSplit<T>(s: seq<T>)
    requires s != []
    ensures s[..|s| - 1] + [s[|s| - 1]] == s
  {
  }

  /** The serial part's events end with the last scope's fetch and, when it returned a slice, its write. */
  lemma TailEventsLast<A, T>(keys: seq<string>, sessions: map<string, A>, fetch: A -> FetchOutcome<T>)
    requires keys != []
    requires forall s :: s in keys ==> s in sessions
    ensures var last := keys[|keys| - 1];
      TailEvents(keys, sessions, fetch)
        == TailEvents(keys[..|keys| - 1], sessions, fetch) + ([Fetch(last)] + (if fetch(sessions[last]).Fetched? then [Store(last)] else []))
  {
    var last := keys[|keys| - 1];
    var opt := if fetch(sessions[last]).Fetched? then [Store(last)] else [];
    var prev := TailEvents(keys[..|keys| - 1], sessions, fetch);
    assert prev + [Fetch(last)] + opt == prev + ([Fetch(last)] + opt);
  }

  /** The serial part's fetches grow by one scope with each scope processed. */
  lemma FetchesOfTailStep<A, T>(keys: seq<string>, sessions: map<string, A>, fetch: A -> FetchOutcome<T>)
    requires keys != []
    requires forall s :: s in keys ==> s in sessions
    requires Fetches(TailEvents(keys[..|keys| - 1], sessions, fetch)) == keys[..|keys| - 1]
    ensures Fetches(TailEvents(keys, sessions, fetch)) == keys
  {
    var last := keys[|keys| - 1];
    var step := [Fetch(last)] + (if fetch(sessions[last]).Fetched? then [Store(last)] else []);
    TailEventsLast(keys, sessions, fetch);
    FetchThenStore(last, fetch(sessions[last]).Fetched?);
    FetchesAppend(TailEvents(keys[..|keys| - 1], sessions, fetch), step);
    LastSplit(keys);
  }

  lemma {:induction false} FetchesOfTailEvents<A, T>(keys: seq<string>, sessions: map<string, A>, fetch: A -> FetchOutcome<T>)
    requires forall s :: s in keys ==> s in sessions
    ensures Fetches(TailEvents(keys, sessions, fetch)) == keys
    decreases |keys|
  {
    if keys != [] {
      FetchesOfTailEvents(keys[..|keys| - 1], sessions, fetch);
      FetchesOfTailStep(keys, sessions, fetch);
    }
  }

  /** Batch fetches, batch writes, then the serial part: the fetches are the batch scopes followed by the serial ones. */
  lemma FetchesOfSchedule<A, T>(batch: seq<string>, drained: seq<string>, tail: seq<string>,
                                sessions: map<string, A>, fetch: A -> FetchOutcome<T>)
    requires forall s :: s in tail ==> s in sessions
    ensures Fetches(FetchEvents(batch) + StoreEvents(drained) + TailEvents(tail, sessions, fetch)) == batch + tail
  {
    var a, b, c := FetchEvents(batch), StoreEvents(drained), TailEvents(tail, sessions, fetch);
    FetchesOfFetchEvents(batch);
    FetchesOfStoreEvents(drained);
    FetchesOfTailEvents(tail, sessions, fetch);
    FetchesAppend(a, b);
    assert Fetches(a + b) == batch;
    FetchesAppend(a + b, c);
  }

  /** A schedule followed by one more fetch: that scope comes last among the fetches. */
  lemma FetchesOfScheduleThen<A, T>(batch: seq<string>, drained: seq<string>, tail: seq<string>, last: string,
                                    sessions: map<string, A>, fetch: A -> FetchOutcome<T>)
    requires forall s :: s in tail ==> s in sessions
    ensures Fetches(FetchEvents(batch) + StoreEvents(drained) + TailEvents(tail, sessions, fetch) + [Fetch(last)])
      == batch + tail + [last]
  {
    var head := FetchEvents(batch) + StoreEvents(drained) + TailEvents(tail, sessions, fetch);
    FetchesOfSchedule(batch, drained, tail, sessions, fetch);
    FetchesAppend(head, [Fetch(last)]);
    FetchesOne(Fetch(last));
  }

  /** A schedule cut short by the first failing serial scope `order[j]` fetches exactly `order[..j + 1]`. */
  lemma FetchesOfAbortedSchedule<A, T>(order: seq<string>, k: nat, j: nat, drained: seq<string>,
                                       sessions: map<string, A>, fetch: A -> FetchOutcome<T>)
    requires k <= j < |order|
    requires forall s :: s in order ==> s in sessions
    ensures forall s :: s in order[k..j] ==> s in sessions
    ensures Fetches(FetchEvents(order[..k]) + StoreEvents(drained) + TailEvents(order[k..j], sessions, fetch) + [Fetch(order[j])])
      == order[..j + 1]
  {
    var tail := order[k..j];
    assert forall s :: s in tail ==> s in sessions by {
      assert forall s :: s in tail ==> s in order;
    }
    assert order[..k] + tail + [order[j]] == order[..j + 1] by {
      assert order[..k] + tail == order[..j];
    }
    FetchesOfScheduleThen(order[..k], drained, tail, order[j], sessions, fetch);
  }

  /** A schedule that ran to the end fetches every scope, in order. */
  lemma FetchesOfFullSchedule<A, T>(order: seq<string>, k: nat, drained: seq<string>,
                                    sessions: map<string, A>, fetch: A -> FetchOutcome<T>)
    requires k <= |order|
    requires forall s :: s in order ==> s in sessions
    ensures forall s :: s in order[k..] ==> s in sessions
    ensures Fetches(FetchEvents(order[..k]) + StoreEvents(drained) + TailEvents(order[k..], sessions, fetch)) == order
  {
    assert forall s :: s in order[k..] ==> s in order;
    FetchesOfSchedule(order[..k], drained, order[k..], sessions, fetch);
    assert order[..k] + order[k..] == order;
  }

  /**
    The fetchers that ran are those of a prefix of `order`: the whole batch
    when it failed, otherwise every scope up to and including the first
    failing one, or all of them.
  */
  lemma FetchedPrefix<A, T>(kind: string, order: seq<string>, sessions: map<string, A>, fetch: A -> FetchOutcome<T>,
                            k: nat, r: Collection<T>, counts: map<string, int>, trace: seq<Event>, drained: seq<string>)
    requires Visits(order, sessions)
    requires k <= |order|
    requires BatchedOutcome(kind, order, sessions, fetch, k, r, counts, trace, drained)
    ensures AnyFailed(order[..k], sessions, fetch) ==> Fetches(trace) == order[..k]
    ensures !AnyFailed(order[..k], sessions, fetch) ==>
      var j := FirstFailed(order, sessions, fetch);
      Fetches(trace) == if j < |order| then order[..j + 1] else order
  {
    if AnyFailed(order[..k], sessions, fetch) {
      FetchesOfFetchEvents(order[..k]);
    } else {
      var j := FirstFailed(order, sessions, fetch);
      if j < |order| {
        FetchesOfAbortedSchedule(order, k, j, drained, sessions, fetch);
      } else {
        FetchesOfFullSchedule(order, k, drained, sessions, fetch);
      }
    }
  }
}
