/** awslib/hostedzone.go: every Route 53 hosted zone, gathered page by page while the reply is truncated. */
module HostedZone {
  import opened Wrappers
  import opened Paging

  /** One `ListHostedZones` page: its zones, the `IsTruncated` flag (possibly absent) and the next marker. */
  datatype ZonesPage<Z> = ZonesPage(hostedZones: seq<Z>, isTruncated: Option<bool>, nextMarker: Option<string>)

  /** `IsTruncated` is present and true: the only case in which the loops ask for another page. */
  predicate Truncated(isTruncated: Option<bool>)
  {
    isTruncated == Some(true)
  }

  /**
    How the zone loops read a reply: every error is retried with the same
    request, a page that is not truncated is the last one, any other page's
    `NextMarker` (present or not) becomes the next request's marker.
  */
  function ZonesStep<Z>(reply: Reply<ZonesPage<Z>>): (step: Step<Z, Option<string>>)
    ensures !step.Fatal?
    ensures step.Retry? <==> reply.Failed?
    ensures step.More? <==> reply.Page? && Truncated(reply.page.isTruncated)
  {
    match reply
    case Failed(_) => Retry
    case Page(p) => if !Truncated(p.isTruncated) then Last(p.hostedZones) else More(p.hostedZones, p.nextMarker)
  }

  function ZonesSteps<Z>(script: seq<Reply<ZonesPage<Z>>>): (steps: seq<Step<Z, Option<string>>>)
    ensures |steps| == |script|
    ensures forall i :: 0 <= i < |script| ==> steps[i] == ZonesStep(script[i])
  {
    seq(|script|, i requires 0 <= i < |script| => ZonesStep(script[i]))
  }

  /**
    `GetAllHostedZones`: the replies to the successive `ListHostedZones` calls
    are `script`, which ends with a page that is not truncated (every error
    is retried, without limit). The result is every zone of every page, in
    order, never `nil`, and the error is always `nil`.
  */
  method GetAllHostedZones<Z>(script: seq<Reply<ZonesPage<Z>>>)
    returns (zones: Slice<Z>, err: Option<ApiError>, ghost sent: seq<Option<string>>)
    requires Halts(ZonesSteps(script))
    ensures var steps := ZonesSteps(script);
      var n := FirstStop(steps) + 1;
      && zones == Slice(Collected(steps[..n]))
      && err == None
    ensures var steps := ZonesSteps(script);
      sent == Requests(None, steps[..FirstStop(steps) + 1])
  {
    ghost var steps := ZonesSteps(script);
    zones := Slice([]);
    var nextPageExists := true;
    var marker: Option<string> := None;
    var calls := 0;
    sent := [];
    ProgressStart(None, steps);
    while nextPageExists
      invariant zones.Slice?
      invariant Progress(None, steps, calls, nextPageExists, zones.elems, marker, sent)
      decreases |script| - calls
    {
      ProgressStep(None, steps, calls, zones.elems, marker, sent);
      var response := script[calls];
      assert steps[calls] == ZonesStep(response);
      sent := sent + [marker];
      calls := calls + 1;
      match response {
        case Failed(_) =>
          // back off, then the same request again
        case Page(page) =>
          zones := AppendEach(zones, page.hostedZones);
          if !Truncated(page.isTruncated) {
            nextPageExists := false;
            break;
          }
          marker := page.nextMarker;
      }
    }
    ProgressDone(None, steps, calls, zones.elems, marker, sent);
    return zones, None, sent;
  }
}
