/**
  awslib/cloudfront.go: every page of `ListDistributions`, each kept as the
  `DistributionList` it came in.

  The CloudFront API echoes the request's marker in `DistributionList.Marker`
  and puts the marker of the following page in `DistributionList.NextMarker`.
  The loop as written sends `Marker` back, so it asks for the same page again
  and again; `GetAllCloudFrontDistributionsAsWritten` models that loop and
  `GetAllCloudFrontDistributions` the one that sends `NextMarker`.
*/
module CloudFront {
  import opened Wrappers
  import opened Paging

  /** A `DistributionList`: the echoed marker, the next page's marker, the truncation flag and the summaries. */
  datatype DistributionList<D> = DistributionList(marker: Option<string>, nextMarker: Option<string>,
                                                  isTruncated: Option<bool>, items: seq<D>)

  predicate Truncated<D>(list: DistributionList<D>)
  {
    list.isTruncated == Some(true)
  }

  /**
    How the loop reads a reply: "RateExceeded" is retried with the same
    input, any other error ends the loop, and every page contributes its whole
    `DistributionList`; a page that is not truncated is the last one, any
    other page's `NextMarker` is sent with the next request.
  */
  function DistributionsStep<D>(reply: Reply<DistributionList<D>>): (step: Step<DistributionList<D>, Option<string>>)
    ensures step.Retry? <==> reply.Failed? && RateExceeded(reply.err)
    ensures step.Fatal? <==> reply.Failed? && !RateExceeded(reply.err)
    ensures reply.Page? ==> step.items == [reply.page]
    ensures step.More? <==> reply.Page? && Truncated(reply.page)
    ensures step.More? ==> step.next == reply.page.nextMarker
  {
    match reply
    case Failed(e) => if RateExceeded(e) then Retry else Fatal(e)
    case Page(list) => if !Truncated(list) then Last([list]) else More([list], list.nextMarker)
  }

  /** The same reading with the cursor taken from `Marker`, as awslib/cloudfront.go line 50 does. */
  function DistributionsStepAsWritten<D>(reply: Reply<DistributionList<D>>): (step: Step<DistributionList<D>, Option<string>>)
    ensures step.Retry? <==> reply.Failed? && RateExceeded(reply.err)
    ensures step.Fatal? <==> reply.Failed? && !RateExceeded(reply.err)
    ensures reply.Page? ==> step.items == [reply.page]
    ensures step.More? <==> reply.Page? && Truncated(reply.page)
    ensures step.More? ==> step.next == reply.page.marker
  {
    match reply
    case Failed(e) => if RateExceeded(e) then Retry else Fatal(e)
    case Page(list) => if !Truncated(list) then Last([list]) else More([list], list.marker)
  }

  function DistributionsSteps<D>(script: seq<Reply<DistributionList<D>>>): (steps: seq<Step<DistributionList<D>, Option<string>>>)
    ensures |steps| == |script|
    ensures forall i :: 0 <= i < |script| ==> steps[i] == DistributionsStep(script[i])
  {
    seq(|script|, i requires 0 <= i < |script| => DistributionsStep(script[i]))
  }

  function DistributionsStepsAsWritten<D>(script: seq<Reply<DistributionList<D>>>): (steps: seq<Step<DistributionList<D>, Option<string>>>)
    ensures |steps| == |script|
    ensures forall i :: 0 <= i < |script| ==> steps[i] == DistributionsStepAsWritten(script[i])
  {
    seq(|script|, i requires 0 <= i < |script| => DistributionsStepAsWritten(script[i]))
  }

  /** One turn of the loop of `GetAllCloudFrontDistributions`, read off the reply itself. */
  lemma ReplyProgress<D>(script: seq<Reply<DistributionList<D>>>, calls: nat, got: seq<DistributionList<D>>,
                                marker: Option<string>, sent: seq<Option<string>>)
    requires Halts(DistributionsSteps(script))
    requires Progress(None, DistributionsSteps(script), calls, true, got, marker, sent)
    ensures calls < |script|
    ensures script[calls].Failed? && RateExceeded(script[calls].err) ==>
      Progress(None, DistributionsSteps(script), calls + 1, true, got, marker, sent + [marker])
    ensures script[calls].Failed? && !RateExceeded(script[calls].err) ==>
      var steps := DistributionsSteps(script);
      && got == Collected(steps[..FirstStop(steps) + 1])
      && Some(script[calls].err) == StopError(steps)
      && sent + [marker] == Requests(None, steps[..FirstStop(steps) + 1])
    ensures script[calls].Page? ==>
      var list := script[calls].page;
      Progress(None, DistributionsSteps(script), calls + 1, Truncated(list), got + [list],
               if Truncated(list) then list.nextMarker else marker, sent + [marker])
  {
    var steps := DistributionsSteps(script);
    ProgressStep(None, steps, calls, got, marker, sent);
    assert steps[calls] == DistributionsStep(script[calls]);
  }

  /**
    `GetAllCloudFrontDistributions` with the next request's marker taken from
    `NextMarker`: every page's list, in order (`nil` only if the loop stopped
    on its first reply without a page); an error other than throttling comes
    back with the lists gathered before it.
  */
  method GetAllCloudFrontDistributions<D>(script: seq<Reply<DistributionList<D>>>)
    returns (allDistributions: Slice<DistributionList<D>>, err: Option<ApiError>, ghost sent: seq<Option<string>>)
    requires Halts(DistributionsSteps(script))
    ensures var steps := DistributionsSteps(script);
      var n := FirstStop(steps) + 1;
      && allDistributions == FromNil(Collected(steps[..n]))
      && err == StopError(steps)
    ensures var steps := DistributionsSteps(script);
      sent == Requests(None, steps[..FirstStop(steps) + 1])
  {
    ghost var steps := DistributionsSteps(script);
    allDistributions := Nil;
    var nextPageExists := true;
    var marker: Option<string> := None;
    var calls := 0;
    sent := [];
    ghost var got := [];
    ProgressStart(None, steps);
    while nextPageExists
      invariant allDistributions == FromNil(got)
      invariant Progress(None, steps, calls, nextPageExists, got, marker, sent)
      decreases |script| - calls
    {
      ReplyProgress(script, calls, got, marker, sent);
      var result := script[calls];
      sent := sent + [marker];
      calls := calls + 1;
      match result {
        case Failed(e) =>
          // an awserr.Error and any other error both come back as they are
          if RateExceeded(e) {
            // back off, then the same input again
            continue;
          }
          return allDistributions, Some(e), sent;
        case Page(list) =>
          AppendFromNil(got, [list]);
          allDistributions := Append(allDistributions, [list]);
          got := got + [list];
          if !Truncated(list) {
            nextPageExists := false;
            break;
          }
          // the next page's request
          marker := list.nextMarker;
      }
    }
    ProgressDone(None, steps, calls, got, marker, sent);
    return allDistributions, None, sent;
  }

  /** One turn of the loop of `GetAllCloudFrontDistributionsAsWritten`, read off the reply itself. */
  lemma ReplyProgressAsWritten<D>(script: seq<Reply<DistributionList<D>>>, calls: nat, got: seq<DistributionList<D>>,
                                marker: Option<string>, sent: seq<Option<string>>)
    requires Halts(DistributionsStepsAsWritten(script))
    requires Progress(None, DistributionsStepsAsWritten(script), calls, true, got, marker, sent)
    ensures calls < |script|
    ensures script[calls].Failed? && RateExceeded(script[calls].err) ==>
      Progress(None, DistributionsStepsAsWritten(script), calls + 1, true, got, marker, sent + [marker])
    ensures script[calls].Failed? && !RateExceeded(script[calls].err) ==>
      var steps := DistributionsStepsAsWritten(script);
      && got == Collected(steps[..FirstStop(steps) + 1])
      && Some(script[calls].err) == StopError(steps)
      && sent + [marker] == Requests(None, steps[..FirstStop(steps) + 1])
    ensures script[calls].Page? ==>
      var list := script[calls].page;
      Progress(None, DistributionsStepsAsWritten(script), calls + 1, Truncated(list), got + [list],
               if Truncated(list) then list.marker else marker, sent + [marker])
  {
    var steps := DistributionsStepsAsWritten(script);
    ProgressStep(None, steps, calls, got, marker, sent);
    assert steps[calls] == DistributionsStepAsWritten(script[calls]);
  }

  /** `GetAllCloudFrontDistributions` exactly as written: the next request's marker is `DistributionList.Marker`. */
  method GetAllCloudFrontDistributionsAsWritten<D>(script: seq<Reply<DistributionList<D>>>)
    returns (allDistributions: Slice<DistributionList<D>>, err: Option<ApiError>, ghost sent: seq<Option<string>>)
    requires Halts(DistributionsStepsAsWritten(script))
    ensures var steps := DistributionsStepsAsWritten(script);
      var n := FirstStop(steps) + 1;
      && allDistributions == FromNil(Collected(steps[..n]))
      && err == StopError(steps)
    ensures var steps := DistributionsStepsAsWritten(script);
      sent == Requests(None, steps[..FirstStop(steps) + 1])
  {
    ghost var steps := DistributionsStepsAsWritten(script);
    allDistributions := Nil;
    var nextPageExists := true;
    var marker: Option<string> := None;
    var calls := 0;
    sent := [];
    ghost var got := [];
    ProgressStart(None, steps);
    while nextPageExists
      invariant allDistributions == FromNil(got)
      invariant Progress(None, steps, calls, nextPageExists, got, marker, sent)
      decreases |script| - calls
    {
      ReplyProgressAsWritten(script, calls, got, marker, sent);
      var result := script[calls];
      sent := sent + [marker];
      calls := calls + 1;
      match result {
        case Failed(e) =>
          // an awserr.Error and any other error both come back as they are
          if RateExceeded(e) {
            // back off, then the same input again
            continue;
          }
          return allDistributions, Some(e), sent;
        case Page(list) =>
          AppendFromNil(got, [list]);
          allDistributions := Append(allDistributions, [list]);
          got := got + [list];
          if !Truncated(list) {
            nextPageExists := false;
            break;
          }
          // the next page's request
          marker := list.marker;
      }
    }
    ProgressDone(None, steps, calls, got, marker, sent);
    return allDistributions, None, sent;
  }

  /**
    A provider that pages honestly: the reply to a request for marker `m`
    is `server(m)`, whose list echoes `m` in `Marker`.
  */
  ghost predicate Echoes<D>(server: Option<string> -> Reply<DistributionList<D>>)
  {
    forall m :: server(m).Page? ==> server(m).page.marker == m
  }

  /** `script` is what `server` answers to the requests the loop reading replies by `steps` sends. */
  ghost predicate ServedBy<D>(script: seq<Reply<DistributionList<D>>>, sent: seq<Option<string>>,
                              server: Option<string> -> Reply<DistributionList<D>>)
  {
    |sent| == |script| && forall i :: 0 <= i < |script| ==> script[i] == server(sent[i])
  }

  /**
    As written, against an honest provider, every request carries the first
    request's marker (none): the loop never leaves the first page.
  */
  lemma {:induction false} AsWrittenNeverAdvances<D>(script: seq<Reply<DistributionList<D>>>,
                                                     server: Option<string> -> Reply<DistributionList<D>>)
    requires Echoes(server)
    requires ServedBy(script, Requests(None, DistributionsStepsAsWritten(script)), server)
    ensures forall i :: 0 <= i < |script| ==> Requests(None, DistributionsStepsAsWritten(script))[i] == None
  {
    var steps := DistributionsStepsAsWritten(script);
    var sent := Requests(None, steps);
    forall i | 0 <= i < |script|
      ensures sent[i] == None
    {
      RequestIsFirst(script, server, i);
    }
  }

  lemma {:induction false} RequestIsFirst<D>(script: seq<Reply<DistributionList<D>>>,
                                             server: Option<string> -> Reply<DistributionList<D>>, i: nat)
    requires Echoes(server)
    requires ServedBy(script, Requests(None, DistributionsStepsAsWritten(script)), server)
    requires i < |script|
    ensures Requests(None, DistributionsStepsAsWritten(script))[i] == None
    decreases i
  {
    var steps := DistributionsStepsAsWritten(script);
    var sent := Requests(None, steps);
    if i == 0 {
      FirstRequest(None, steps);
    } else {
      RequestIsFirst(script, server, i - 1);
      if steps[i - 1].More? {
        MoreThreadsCursor(None, steps, i - 1);
        assert script[i - 1] == server(sent[i - 1]);
      } else {
        assert steps[i - 1].Retry? || Stops(steps[i - 1]);
        if steps[i - 1].Retry? {
          RetryRepeatsRequest(None, steps, i - 1);
        } else {
          StopThenSame(None, steps, i - 1);
        }
      }
    }
  }

  /** After a stopping step the cursor is not advanced either (the loop is over; the request is unchanged). */
  lemma StopThenSame<T, C>(init: C, steps: seq<Step<T, C>>, i: nat)
    requires i + 1 < |steps|
    requires !steps[i].More?
    ensures Requests(init, steps)[i + 1] == Requests(init, steps)[i]
  {
    RequestsPrefix(init, steps, i + 2);
    StepExtend(init, steps, i + 1);
    StepExtend(init, steps, i);
    assert steps[..i + 2][..i + 1] == steps[..i + 1];
  }

  /** Two pages: the first truncated and pointing at "2", the second final. */
  function TwoPages(m: Option<string>): Reply<DistributionList<nat>>
  {
    if m == Some("2") then Page(DistributionList(Some("2"), None, Some(false), [2]))
    else Page(DistributionList(m, Some("2"), Some(true), [1]))
  }

  /**
    Against the two-page provider the loop as written never stops: whatever
    the number of replies, none of them ends it.
  */
  lemma AsWrittenNeverStops(script: seq<Reply<DistributionList<nat>>>)
    requires ServedBy(script, Requests(None, DistributionsStepsAsWritten(script)), TwoPages)
    ensures !Halts(DistributionsStepsAsWritten(script))
  {
    var steps := DistributionsStepsAsWritten(script);
    AsWrittenNeverAdvances(script, TwoPages);
    forall i | 0 <= i < |script|
      ensures !Stops(steps[i])
    {
      assert script[i] == TwoPages(Requests(None, steps)[i]);
    }
  }

  /** With `NextMarker` the same provider is read in two calls, both pages in order. */
  lemma NextMarkerReadsBothPages()
    ensures var script := [TwoPages(None), TwoPages(Some("2"))];
      var steps := DistributionsSteps(script);
      && ServedBy(script, Requests(None, steps), TwoPages)
      && Halts(steps)
      && FirstStop(steps) == 1
      && Collected(steps) == [TwoPages(None).page, TwoPages(Some("2")).page]
  {
    var script := [TwoPages(None), TwoPages(Some("2"))];
    var steps := DistributionsSteps(script);
    assert Stops(steps[1]);
    FirstRequest(None, steps);
    MoreThreadsCursor(None, steps, 0);
    StepExtend(None, steps, 0);
    StepExtend(None, steps, 1);
    assert steps[..0] == [];
    assert steps[..2] == steps;
  }
}
