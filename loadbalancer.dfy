/**
  awslib/loadbalancer.go: `GetAllCLB` (classic load balancers) and
  `GetAllALBAndNLB` (application and network load balancers). The two loops
  are the same apart from the SDK types, so one generic method models both.
*/
module LoadBalancer {
  import opened Wrappers
  import opened Paging

  /** One `DescribeLoadBalancers` page: its load balancers and the marker of the next page, if any. */
  datatype LoadBalancersPage<L> = LoadBalancersPage(loadBalancers: seq<L>, nextMarker: Option<string>)

  /**
    How the loops read a reply: a "RateExceeded" error is retried with the
    same input, any other error ends the loop, a page without a next marker
    is the last one, any other page's marker is sent with the next request.
  */
  function LoadBalancersStep<L>(reply: Reply<LoadBalancersPage<L>>): (step: Step<L, Option<string>>)
    ensures step.Retry? <==> reply.Failed? && RateExceeded(reply.err)
    ensures step.Fatal? <==> reply.Failed? && !RateExceeded(reply.err)
    ensures reply.Page? && reply.page.nextMarker.Some? <==> step.More?
  {
    match reply
    case Failed(e) => if RateExceeded(e) then Retry else Fatal(e)
    case Page(p) => if p.nextMarker.None? then Last(p.loadBalancers) else More(p.loadBalancers, p.nextMarker)
  }

  function LoadBalancersSteps<L>(script: seq<Reply<LoadBalancersPage<L>>>): (steps: seq<Step<L, Option<string>>>)
    ensures |steps| == |script|
    ensures forall i :: 0 <= i < |script| ==> steps[i] == LoadBalancersStep(script[i])
  {
    seq(|script|, i requires 0 <= i < |script| => LoadBalancersStep(script[i]))
  }

  /**
    `GetAllCLB` / `GetAllALBAndNLB`: the replies to the successive
    `DescribeLoadBalancers` calls are `script`. The result is every load
    balancer of every page before the loop stopped, in order, `nil` when
    there is none; an error other than throttling comes back as it is,
    together with what was gathered before it.
  */
  method GetAllLoadBalancers<L>(script: seq<Reply<LoadBalancersPage<L>>>)
    returns (allLoadBalancers: Slice<L>, err: Option<ApiError>, ghost sent: seq<Option<string>>)
    requires Halts(LoadBalancersSteps(script))
    ensures var steps := LoadBalancersSteps(script);
      var n := FirstStop(steps) + 1;
      && allLoadBalancers == FromNil(Collected(steps[..n]))
      && err == StopError(steps)
    ensures var steps := LoadBalancersSteps(script);
      sent == Requests(None, steps[..FirstStop(steps) + 1])
  {
    ghost var steps := LoadBalancersSteps(script);
    allLoadBalancers := Nil;
    var input: Option<string> := None;
    var calls := 0;
    sent := [];
    var allLoadBalancersDone := false;
    ghost var got := [];
    ProgressStart(None, steps);
    while !allLoadBalancersDone
      invariant allLoadBalancers == FromNil(got)
      invariant Progress(None, steps, calls, !allLoadBalancersDone, got, input, sent)
      decreases |script| - calls
    {
      ProgressStep(None, steps, calls, got, input, sent);
      var result := script[calls];
      assert steps[calls] == LoadBalancersStep(result);
      sent := sent + [input];
      calls := calls + 1;
      match result {
        case Failed(e) =>
          // an awserr.Error and any other error both come back as they are
          if RateExceeded(e) {
            // back off, then the same input again
            continue;
          }
          return allLoadBalancers, Some(e), sent;
        case Page(page) =>
          AppendFromNil(got, page.loadBalancers);
          allLoadBalancers := Append(allLoadBalancers, page.loadBalancers);
          got := got + page.loadBalancers;
          if page.nextMarker.None? {
            allLoadBalancersDone := true;
          } else {
            input := page.nextMarker;
          }
      }
    }
    ProgressDone(None, steps, calls, got, input, sent);
    return allLoadBalancers, None, sent;
  }
}
