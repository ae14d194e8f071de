/** awslib/rds.go: every RDS instance of a region, gathered page by page with `Marker`. */
module Rds {
  import opened Wrappers
  import opened Paging

  /** One `DescribeDBInstances` page: its instances and the marker of the next page, if any. */
  datatype DBInstancesPage<D> = DBInstancesPage(dbInstances: seq<D>, marker: Option<string>)

  /** The fixed error `GetAllDBInstances` returns in place of any provider error. */
  const DescribeError := "Error Describing Instances"

  /**
    How `GetAllDBInstances` reads a reply: an error ends the loop (there is
    no retry), a page without a marker is the last one, any other page's
    marker is sent with the next request.
  */
  function DBInstancesStep<D>(reply: Reply<DBInstancesPage<D>>): (step: Step<D, Option<string>>)
    ensures reply.Failed? <==> step.Fatal?
    ensures reply.Page? && reply.page.marker.Some? <==> step.More?
  {
    match reply
    case Failed(e) => Fatal(e)
    case Page(p) => if p.marker.None? then Last(p.dbInstances) else More(p.dbInstances, p.marker)
  }

  function DBInstancesSteps<D>(script: seq<Reply<DBInstancesPage<D>>>): (steps: seq<Step<D, Option<string>>>)
    ensures |steps| == |script|
    ensures forall i :: 0 <= i < |script| ==> steps[i] == DBInstancesStep(script[i])
  {
    seq(|script|, i requires 0 <= i < |script| => DBInstancesStep(script[i]))
  }

  /**
    `GetAllDBInstances`: the replies to the successive `DescribeDBInstances`
    calls are `script`. Without an error the result is every instance of
    every page, in order, `nil` when there is none; any error discards what
    was gathered and returns `nil` with the fixed error text.
  */
  method GetAllDBInstances<D>(script: seq<Reply<DBInstancesPage<D>>>)
    returns (allInstances: Slice<D>, err: Option<string>, ghost sent: seq<Option<string>>)
    requires Halts(DBInstancesSteps(script))
    ensures var steps := DBInstancesSteps(script);
      var n := FirstStop(steps) + 1;
      && (err.Some? <==> steps[n - 1].Fatal?)
      && (err.Some? ==> allInstances == Nil && err == Some(DescribeError))
      && (err.None? ==> allInstances == FromNil(Collected(steps[..n])))
    ensures var steps := DBInstancesSteps(script);
      sent == Requests(None, steps[..FirstStop(steps) + 1])
  {
    ghost var steps := DBInstancesSteps(script);
    allInstances := Nil;
    var input: Option<string> := None;
    var calls := 0;
    sent := [];
    var allInstancesDone := false;
    ghost var got := [];
    ProgressStart(None, steps);
    while !allInstancesDone
      invariant allInstances == FromNil(got)
      invariant Progress(None, steps, calls, !allInstancesDone, got, input, sent)
      decreases |script| - calls
    {
      ProgressStep(None, steps, calls, got, input, sent);
      var result := script[calls];
      assert steps[calls] == DBInstancesStep(result);
      sent := sent + [input];
      calls := calls + 1;
      match result {
        case Failed(_) =>
          return Nil, Some(DescribeError), sent;
        case Page(page) =>
          AppendFromNil(got, page.dbInstances);
          allInstances := Append(allInstances, page.dbInstances);
          got := got + page.dbInstances;
          if page.marker.None? {
            allInstancesDone := true;
            break;
          }
          input := page.marker;
      }
    }
    ProgressDone(None, steps, calls, got, input, sent);
    return allInstances, None, sent;
  }
}
