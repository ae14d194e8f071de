/**
  The shape shared by the cursor-pagination loops of the AWS helpers.

  A provider call is not executed: the replies the provider gives to the
  successive calls of one loop are a finite script, one reply per call. Each
  loop reads a reply as one of four steps: retry the same request, stop with
  an error, take the page's items and go on with a new request, or take the
  page's items and stop. The functions here give the meaning of a script of
  steps (what is gathered, which request each call carries, where the loop
  stops); each loop in awslib is proved to compute exactly that.
*/
module Paging {
  import opened Wrappers

  /** An error from the SDK: an `awserr.Error` with its code, or any other error. */
  datatype ApiError = AwsError(code: string, message: string) | PlainError(message: string)

  /** The reply to one provider call. */
  datatype Reply<P> = Page(page: P) | Failed(err: ApiError)

  /** The SDK's throttling error, the one the load-balancer and CloudFront loops retry. */
  predicate RateExceeded(e: ApiError)
  {
    e.AwsError? && e.code == "RateExceeded"
  }

  /** A Go slice, which may be `nil` or hold elements (possibly none). */
  datatype Slice<T> = Nil | Slice(elems: seq<T>)

  function Elems<T>(s: Slice<T>): seq<T>
  {
    if s.Nil? then [] else s.elems
  }

  /** Go's `append(s, xs...)`: appending nothing to `nil` leaves it `nil`. */
  function Append<T>(s: Slice<T>, xs: seq<T>): (r: Slice<T>)
    ensures Elems(r) == Elems(s) + xs
    ensures r.Nil? <==> s.Nil? && xs == []
  {
    if s.Nil? && xs == [] then Nil else Slice(Elems(s) + xs)
  }

  /** The slice a `var s []T` grows into after appending `xs`. */
  function FromNil<T>(xs: seq<T>): (r: Slice<T>)
    ensures Elems(r) == xs
    ensures r.Nil? <==> xs == []
  {
    if xs == [] then Nil else Slice(xs)
  }

  /** Appending to a slice grown from `nil` is growing it from `nil` with more. */
  lemma AppendFromNil<T>(xs: seq<T>, ys: seq<T>)
    ensures Append(FromNil(xs), ys) == FromNil(xs + ys)
  {
  }

  /** The loop `for i := range xs { s = append(s, xs[i]) }`: one element at a time. */
  method AppendEach<T>(s: Slice<T>, xs: seq<T>) returns (r: Slice<T>)
    ensures r == Append(s, xs)
  {
    r := s;
    for i := 0 to |xs|
      invariant r == Append(s, xs[..i])
    {
      assert xs[..i + 1] == xs[..i] + [xs[i]];
      r := Append(r, [xs[i]]);
    }
    assert xs[..|xs|] == xs;
  }

  /** What the loop makes of one reply. */
  datatype Step<T, C> = Retry | Fatal(err: ApiError) | More(items: seq<T>, next: C) | Last(items: seq<T>)

  predicate Stops<T, C>(step: Step<T, C>)
  {
    step.Fatal? || step.Last?
  }

  /** The script ends: some reply makes the loop stop. */
  ghost predicate Halts<T, C>(steps: seq<Step<T, C>>)
  {
    exists i :: 0 <= i < |steps| && Stops(steps[i])
  }

  /** The index of the reply at which the loop stops. */
  function FirstStop<T, C>(steps: seq<Step<T, C>>): (i: nat)
    requires Halts(steps)
    ensures i < |steps| && Stops(steps[i])
    ensures forall j :: 0 <= j < i ==> !Stops(steps[j])
    decreases |steps|
  {
    if Stops(steps[0]) then 0
    else
      assert Halts(steps[1..]) by {
        var i :| 0 <= i < |steps| && Stops(steps[i]);
        assert steps[1..][i - 1] == steps[i];
      }
      1 + FirstStop(steps[1..])
  }

  /** The items of every page among `steps`, in page order. */
  function Collected<T, C>(steps: seq<Step<T, C>>): seq<T>
    decreases |steps|
  {
    if steps == [] then []
    else
      var last := steps[|steps| - 1];
      Collected(steps[..|steps| - 1]) + (if last.More? || last.Last? then last.items else [])
  }

  /** The request after `steps`: the cursor of the last page that asked for more, or the first request. */
  function Cursor<T, C>(init: C, steps: seq<Step<T, C>>): C
    decreases |steps|
  {
    if steps == [] then init
    else
      var last := steps[|steps| - 1];
      if last.More? then last.next else Cursor(init, steps[..|steps| - 1])
  }

  /** The request carried by each call, in call order. */
  function Requests<T, C>(init: C, steps: seq<Step<T, C>>): (sent: seq<C>)
    ensures |sent| == |steps|
    decreases |steps|
  {
    if steps == [] then []
    else Requests(init, steps[..|steps| - 1]) + [Cursor(init, steps[..|steps| - 1])]
  }

  /** The error the loop stops with, if it stops on one. */
  function StopError<T, C>(steps: seq<Step<T, C>>): Option<ApiError>
    requires Halts(steps)
  {
    var s := steps[FirstStop(steps)];
    if s.Fatal? then Some(s.err) else None
  }

  /** Taking one more reply: the effect on what is gathered and on the next request. */
  lemma StepExtend<T, C>(init: C, steps: seq<Step<T, C>>, n: nat)
    requires n < |steps|
    ensures steps[..n + 1][..n] == steps[..n]
    ensures Collected(steps[..n + 1]) == Collected(steps[..n])
      + (if steps[n].More? || steps[n].Last? then steps[n].items else [])
    ensures Cursor(init, steps[..n + 1]) == if steps[n].More? then steps[n].next else Cursor(init, steps[..n])
    ensures Requests(init, steps[..n + 1]) == Requests(init, steps[..n]) + [Cursor(init, steps[..n])]
  {
    assert steps[..n + 1][..n] == steps[..n];
  }

  /**
    The invariant of every pagination loop after `calls` calls: while the
    loop goes on it has not passed the stopping reply, once it has stopped
    normally the last reply was a last page, and what it gathered, the
    request it will send next and the requests it sent are those the
    script gives.
  */
  ghost predicate Progress<T, C>(init: C, steps: seq<Step<T, C>>, calls: nat, going: bool, got: seq<T>, cursor: C, sent: seq<C>)
    requires Halts(steps)
  {
    && (if going then calls <= FirstStop(steps) else calls == FirstStop(steps) + 1 && steps[calls - 1].Last?)
    && got == Collected(steps[..calls])
    && cursor == Cursor(init, steps[..calls])
    && sent == Requests(init, steps[..calls])
  }

  /** Before the first call nothing is gathered and nothing sent. */
  lemma ProgressStart<T, C>(init: C, steps: seq<Step<T, C>>)
    requires Halts(steps)
    ensures Progress(init, steps, 0, true, [], init, [])
  {
    assert steps[..0] == [];
  }

  /**
    One more call: a retry sends the same request again, a page that asks
    for more adds its items and moves the cursor, a last page adds its items
    and stops the loop, and an error stops it at the stopping reply with
    nothing more gathered.
  */
  lemma ProgressStep<T, C>(init: C, steps: seq<Step<T, C>>, calls: nat, got: seq<T>, cursor: C, sent: seq<C>)
    requires Halts(steps)
    requires Progress(init, steps, calls, true, got, cursor, sent)
    ensures calls < |steps|
    ensures steps[calls].Retry? ==> Progress(init, steps, calls + 1, true, got, cursor, sent + [cursor])
    ensures steps[calls].More? ==>
      Progress(init, steps, calls + 1, true, got + steps[calls].items, steps[calls].next, sent + [cursor])
    ensures steps[calls].Last? ==> Progress(init, steps, calls + 1, false, got + steps[calls].items, cursor, sent + [cursor])
    ensures steps[calls].Fatal? ==>
      && calls == FirstStop(steps)
      && StopError(steps) == Some(steps[calls].err)
      && got == Collected(steps[..calls + 1])
      && sent + [cursor] == Requests(init, steps[..calls + 1])
  {
    StepExtend(init, steps, calls);
  }

  /** A loop that stopped normally gathered everything up to the stopping reply, which was no error. */
  lemma ProgressDone<T, C>(init: C, steps: seq<Step<T, C>>, calls: nat, got: seq<T>, cursor: C, sent: seq<C>)
    requires Halts(steps)
    requires Progress(init, steps, calls, false, got, cursor, sent)
    ensures calls == FirstStop(steps) + 1
    ensures got == Collected(steps[..FirstStop(steps) + 1])
    ensures sent == Requests(init, steps[..FirstStop(steps) + 1])
    ensures StopError(steps) == None
  {
  }

  /**
    A retried call changes nothing: no item is gathered and the next call
    carries the same request.
  */
  lemma {:induction false} RetryRepeatsRequest<T, C>(init: C, steps: seq<Step<T, C>>, i: nat)
    requires i + 1 < |steps|
    requires steps[i].Retry?
    ensures Collected(steps[..i + 1]) == Collected(steps[..i])
    ensures Requests(init, steps)[i + 1] == Requests(init, steps)[i]
  {
    StepExtend(init, steps, i);
    RequestsPrefix(init, steps, i + 2);
    StepExtend(init, steps, i + 1);
    assert steps[..i + 2][..i + 1] == steps[..i + 1];
  }

  /** The requests of a shorter script are the first requests of a longer one. */
  lemma {:induction false} RequestsPrefix<T, C>(init: C, steps: seq<Step<T, C>>, n: nat)
    requires n <= |steps|
    ensures Requests(init, steps[..n]) == Requests(init, steps)[..n]
    decreases |steps|
  {
    if n < |steps| {
      var init' := steps[..|steps| - 1];
      assert init'[..n] == steps[..n];
      RequestsPrefix(init, init', n);
    } else {
      assert steps[..n] == steps;
    }
  }

  /**
    A page that asks for more makes the next call carry its cursor: the
    loop threads the cursor from reply to request.
  */
  lemma {:induction false} MoreThreadsCursor<T, C>(init: C, steps: seq<Step<T, C>>, i: nat)
    requires i + 1 < |steps|
    requires steps[i].More?
    ensures Requests(init, steps)[i + 1] == steps[i].next
  {
    RequestsPrefix(init, steps, i + 2);
    StepExtend(init, steps, i + 1);
    StepExtend(init, steps, i);
    assert Requests(init, steps)[i + 1] == Requests(init, steps[..i + 2])[i + 1];
    assert Requests(init, steps[..i + 2])[i + 1] == Cursor(init, steps[..i + 1]);
  }

  /** The first call carries the initial request. */
  lemma {:induction false} FirstRequest<T, C>(init: C, steps: seq<Step<T, C>>)
    requires steps != []
    ensures Requests(init, steps)[0] == init
  {
    RequestsPrefix(init, steps, 1);
    assert steps[..1][..0] == [];
  }

  /** Items are gathered from every page in order: a longer run's items extend a shorter run's. */
  lemma {:induction false} CollectedGrows<T, C>(steps: seq<Step<T, C>>, m: nat, n: nat)
    requires m <= n <= |steps|
    ensures Collected(steps[..m]) <= Collected(steps[..n])
    decreases n - m
  {
    if m < n {
      CollectedGrows(steps, m, n - 1);
      assert steps[..n][..n - 1] == steps[..n - 1];
    }
  }
}
