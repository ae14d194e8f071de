/** awslib/ec2.go: every EC2 instance of a region, gathered page by page with `NextToken`. */
module Ec2 {
  import opened Wrappers
  import opened Paging

  /** One `DescribeInstances` page: the instances of each reservation, and the next token if any. */
  datatype InstancesPage<I> = InstancesPage(reservations: seq<seq<I>>, nextToken: Option<string>)

  /** The instances of the reservations, reservation after reservation. */
  function Flatten<I>(reservations: seq<seq<I>>): seq<I>
    decreases |reservations|
  {
    if reservations == [] then []
    else Flatten(reservations[..|reservations| - 1]) + reservations[|reservations| - 1]
  }

  lemma FlattenStep<I>(reservations: seq<seq<I>>, j: nat)
    requires j < |reservations|
    ensures Flatten(reservations[..j + 1]) == Flatten(reservations[..j]) + reservations[j]
  {
    assert reservations[..j + 1][..j] == reservations[..j];
  }

  /** The inner loop of `GetAllInstances`: each reservation's instances appended in turn. */
  method AppendReservations<I>(s: Slice<I>, reservations: seq<seq<I>>) returns (r: Slice<I>)
    ensures r == Append(s, Flatten(reservations))
  {
    r := s;
    for j := 0 to |reservations|
      invariant r == Append(s, Flatten(reservations[..j]))
    {
      FlattenStep(reservations, j);
      r := Append(r, reservations[j]);
    }
    assert reservations[..|reservations|] == reservations;
  }

  /**
    How `GetAllInstances` reads a reply: an error ends the loop (there is no
    retry), a page without a token is the last one, any other page's token
    is sent with the next request.
  */
  function InstancesStep<I>(reply: Reply<InstancesPage<I>>): (step: Step<I, Option<string>>)
    ensures reply.Failed? <==> step.Fatal?
    ensures reply.Page? && reply.page.nextToken.Some? <==> step.More?
  {
    match reply
    case Failed(e) => Fatal(e)
    case Page(p) =>
      if p.nextToken.None? then Last(Flatten(p.reservations)) else More(Flatten(p.reservations), p.nextToken)
  }

  function InstancesSteps<I>(script: seq<Reply<InstancesPage<I>>>): (steps: seq<Step<I, Option<string>>>)
    ensures |steps| == |script|
    ensures forall i :: 0 <= i < |script| ==> steps[i] == InstancesStep(script[i])
  {
    seq(|script|, i requires 0 <= i < |script| => InstancesStep(script[i]))
  }

  /**
    `GetAllInstances`: the replies to the successive `DescribeInstances` calls
    are `script`. The result is every instance of every page before the loop
    stopped, in page and reservation order, `nil` when there is none; an
    error comes back together with what was gathered before it. `sent` is
    the `NextToken` of each request.
  */
  method GetAllInstances<I>(script: seq<Reply<InstancesPage<I>>>)
    returns (allInstances: Slice<I>, err: Option<ApiError>, ghost sent: seq<Option<string>>)
    requires Halts(InstancesSteps(script))
    ensures var steps := InstancesSteps(script);
      var n := FirstStop(steps) + 1;
      && allInstances == FromNil(Collected(steps[..n]))
      && err == StopError(steps)
    ensures var steps := InstancesSteps(script);
      sent == Requests(None, steps[..FirstStop(steps) + 1])
  {
    ghost var steps := InstancesSteps(script);
    allInstances := Nil;
    var input: Option<string> := None;
    var calls := 0;
    sent := [];
    var allInstancesDone := false;
    ghost var got := [];
    ProgressStart(None, steps);
    while !allInstancesDone
      invariant allInstances == FromNil(got)
      invariant Progress(None, steps, calls, !allInstancesDone, got, input, sent)
      decreases |script| - calls
    {
      ProgressStep(None, steps, calls, got, input, sent);
      var result := script[calls];
      assert steps[calls] == InstancesStep(result);
      sent := sent + [input];
      calls := calls + 1;
      match result {
        case Failed(e) =>
          return allInstances, Some(e), sent;
        case Page(page) =>
          AppendFromNil(got, Flatten(page.reservations));
          allInstances := AppendReservations(allInstances, page.reservations);
          got := got + Flatten(page.reservations);
          if page.nextToken.None? {
            allInstancesDone := true;
            break;
          }
          input := page.nextToken;
      }
    }
    ProgressDone(None, steps, calls, got, input, sent);
    return allInstances, None, sent;
  }
}
