/**
  collector/awscollect.go: the AWS collector with a ceiling on concurrent
  fetches. It holds one session per region; each `Collect*` runs the batched
  collection rule of `Fanout` over those sessions, and the Route 53 readers
  page through hosted zones and record sets.
*/
module AwsCollect {
  import opened Wrappers
  import opened Strings
  import opened Paging
  import opened Fanout
  import HostedZone

  /** The seven per-region inventories `AWSCollector` gathers. */
  datatype Resource = EC2 | ClassicLoadBalancers | ApplicationAndNetworkLoadBalancers | VPC | Subnets | CloudFront | RDS

  /** The word each collector puts in "Failed to gather <word> Data: ...". */
  function Word(resource: Resource): string
  {
    match resource
    case EC2 => "EC2"
    case ClassicLoadBalancers => "LoadBalancers"
    case ApplicationAndNetworkLoadBalancers => "LoadBalancers"
    case VPC => "VPC"
    case Subnets => "Subnets"
    case CloudFront => "CloudFront"
    case RDS => "RDS"
  }

  predicate IsLoadBalancers(resource: Resource)
  {
    resource.ClassicLoadBalancers? || resource.ApplicationAndNetworkLoadBalancers?
  }

  /** Only the two load-balancer collectors share a word: any other failure names its resource. */
  lemma WordsDistinct(a: Resource, b: Resource)
    ensures Word(a) == Word(b) <==>
      a == b || (IsLoadBalancers(a) && IsLoadBalancers(b))
  {
    if Word(a) == Word(b) && a != b {
      assert Word(a)[0] == Word(b)[0];
      assert |Word(a)| == |Word(b)|;
    }
  }

  /** `getRegions`: the region list of the partition named case-insensitively, `nil` for any other name. */
  function GetRegions(partition: string, chinaRegions: Slice<string>, allRegions: Slice<string>): (regions: Slice<string>)
    ensures ToLower(partition) == "china" ==> regions == chinaRegions
    ensures ToLower(partition) == "default" ==> regions == allRegions
    ensures ToLower(partition) != "china" && ToLower(partition) != "default" ==> regions == Slice.Nil
  {
    var part := ToLower(partition);
    if part == "china" then chinaRegions
    else if part == "default" then allRegions
    else Slice.Nil
  }

  lemma {:induction false} ToLowerIdempotent(s: string)
    ensures ToLower(ToLower(s)) == ToLower(s)
  {
    forall i | 0 <= i < |s|
      ensures ToLower(ToLower(s))[i] == ToLower(s)[i]
    {
      var c := s[i];
      if 'A' <= c <= 'Z' {
        assert 'a' <= LowerChar(c) <= 'z';
      }
    }
  }

  /** Only the letter case of the partition name matters. */
  lemma GetRegionsIgnoresCase(partition: string, chinaRegions: Slice<string>, allRegions: Slice<string>)
    ensures GetRegions(ToLower(partition), chinaRegions, allRegions) == GetRegions(partition, chinaRegions, allRegions)
  {
    ToLowerIdempotent(partition);
  }

  /** "China" and "DEFAULT" select their partitions, "non-existent" none. */
  lemma GetRegionsExamples(chinaRegions: Slice<string>, allRegions: Slice<string>)
    ensures GetRegions("China", chinaRegions, allRegions) == chinaRegions
    ensures GetRegions("DEFAULT", chinaRegions, allRegions) == allRegions
    ensures GetRegions("non-existent", chinaRegions, allRegions) == Slice.Nil
  {
    assert ToLower("China") == "china";
    assert ToLower("DEFAULT") == "default";
    assert ToLower("non-existent") == "non-existent";
  }

  /** What a `Collect*PerSession` call returns, as the collector reads it: the error first, then `nil`. */
  function PerSession<T>(chunk: Slice<T>, err: Option<string>): (outcome: FetchOutcome<T>)
    ensures outcome.Failed? <==> err.Some?
    ensures outcome.Nil? <==> err.None? && chunk.Nil?
    ensures outcome.Fetched? ==> outcome.items == Elems(chunk)
  {
    if err.Some? then FetchOutcome.Failed(err.value) else if chunk.Nil? then FetchOutcome.Nil else Fetched(chunk.elems)
  }

  /** One page of `ListResourceRecordSets`: its record sets, the truncation flag and where the next page starts. */
  datatype RecordSetsPage<R> = RecordSetsPage(resourceRecordSets: seq<R>, isTruncated: Option<bool>,
                                              nextRecordName: Option<string>, nextRecordIdentifier: Option<string>,
                                              nextRecordType: Option<string>)

  /** A `ListResourceRecordSetsInput`: the zone and the start name, identifier and type. */
  datatype RecordSetsRequest = RecordSetsRequest(hostedZoneId: string, startRecordName: Option<string>,
                                                 startRecordIdentifier: Option<string>, startRecordType: Option<string>)

  /**
    How `GetHostedZoneRecords` reads a reply: any error is retried with the
    same request, a page that is not truncated is the last one, any other
    page moves all three start fields of the request to its `Next*` fields.
  */
  function RecordSetsStep<R>(hostedZoneId: string, reply: Reply<RecordSetsPage<R>>): (step: Step<R, RecordSetsRequest>)
    ensures !step.Fatal?
    ensures step.Retry? <==> reply.Failed?
    ensures step.More? <==> reply.Page? && HostedZone.Truncated(reply.page.isTruncated)
    ensures step.More? ==> step.next.hostedZoneId == hostedZoneId
  {
    match reply
    case Failed(_) => Retry
    case Page(p) =>
      if !HostedZone.Truncated(p.isTruncated) then Last(p.resourceRecordSets)
      else More(p.resourceRecordSets,
                RecordSetsRequest(hostedZoneId, p.nextRecordName, p.nextRecordIdentifier, p.nextRecordType))
  }

  function RecordSetsSteps<R>(hostedZoneId: string, script: seq<Reply<RecordSetsPage<R>>>): (steps: seq<Step<R, RecordSetsRequest>>)
    ensures |steps| == |script|
    ensures forall i :: 0 <= i < |script| ==> steps[i] == RecordSetsStep(hostedZoneId, script[i])
  {
    seq(|script|, i requires 0 <= i < |script| => RecordSetsStep(hostedZoneId, script[i]))
  }

  /** The first request: the zone, with no start fields. */
  function FirstRecordSets(hostedZoneId: string): RecordSetsRequest
  {
    RecordSetsRequest(hostedZoneId, None, None, None)
  }

  /** Every request of a `GetHostedZoneRecords` run asks for the zone it was given. */
  lemma {:induction false} RecordSetsKeepZone<R>(hostedZoneId: string, script: seq<Reply<RecordSetsPage<R>>>, n: nat)
    requires n <= |script|
    ensures var sent := Requests(FirstRecordSets(hostedZoneId), RecordSetsSteps(hostedZoneId, script)[..n]);
      forall i :: 0 <= i < n ==> sent[i].hostedZoneId == hostedZoneId
    ensures Cursor(FirstRecordSets(hostedZoneId), RecordSetsSteps(hostedZoneId, script)[..n]).hostedZoneId == hostedZoneId
  {
    if n > 0 {
      RecordSetsKeepZone(hostedZoneId, script, n - 1);
      StepExtend(FirstRecordSets(hostedZoneId), RecordSetsSteps(hostedZoneId, script), n - 1);
    }
  }

  /** `AWSCollector`: the sessions of the selected regions, keyed by region name. */
  class AWSCollector<S> {
    var sessions: map<string, S>

    /** The zero `AWSCollector`, whose session map is `nil`. */
    constructor()
      ensures sessions == map[]
    {
      sessions := map[];
    }

    /**
      `initSessions`: `build` stands for the SDK session builder (with or
      without explicit credentials). A failure leaves the sessions as they
      were and is wrapped in "Unable to build AWS Sessions: ...".
    */
    method InitSessions(regions: Slice<string>, build: Slice<string> -> Result<map<string, S>>) returns (err: Option<string>)
      modifies this
      ensures build(regions).Err? ==>
        err == Some("Unable to build AWS Sessions: " + build(regions).error) && sessions == old(sessions)
      ensures build(regions).Ok? ==> err == None && sessions == build(regions).value
    {
      var built := build(regions);
      if built.Err? {
        return Some("Unable to build AWS Sessions: " + built.error);
      }
      sessions := built.value;
      return None;
    }

    /** `CheckCredentials`: false as soon as some session's credentials have expired. */
    method CheckCredentials(expired: S -> bool) returns (ok: bool)
      ensures ok <==> forall region :: region in sessions ==> !expired(sessions[region])
    {
      var left := sessions.Keys;
      while left != {}
        invariant left <= sessions.Keys
        invariant forall region :: region in sessions && region !in left ==> !expired(sessions[region])
        decreases left
      {
        var region :| region in left;
        if expired(sessions[region]) {
          return false;
        }
        left := left - {region};
      }
      return true;
    }

    /**
      `CollectEC2`, `CollectClassicLoadBalancers`,
      `CollectApplicationAndNetworkLoadBalancers`, `CollectVPC`,
      `CollectSubnets`, `CollectCloudFront` and `CollectRDS`: the batched rule
      over the regions in the range order `order`, with the resource's word
      in the error text.
    */
    method Collect<T>(resource: Resource, order: seq<string>, fetch: S -> FetchOutcome<T>, maxGoRoutines: int)
      returns (r: Collection<T>, counts: map<string, int>, ghost trace: seq<Event>, ghost drained: seq<string>)
      requires Visits(order, sessions)
      ensures BatchedResult(Word(resource), order, sessions, fetch, BatchSize(maxGoRoutines, |order|), r, counts)
      ensures BatchedTrace(order, sessions, fetch, BatchSize(maxGoRoutines, |order|), trace, drained)
    {
      r, counts, trace, drained := CollectBatched(Word(resource), order, sessions, fetch, maxGoRoutines);
    }

    /**
      `CollectZones`: the replies to the successive `ListHostedZones` calls are
      `script`. Every zone of every page, in order, in a non-`nil` slice,
      with its length and no error.
    */
    method CollectZones<Z>(script: seq<Reply<HostedZone.ZonesPage<Z>>>)
      returns (zones: Slice<Z>, count: int, err: Option<string>, ghost sent: seq<Option<string>>)
      requires Halts(HostedZone.ZonesSteps(script))
      ensures var steps := HostedZone.ZonesSteps(script);
        var n := FirstStop(steps) + 1;
        && zones == Slice(Collected(steps[..n]))
        && count == |Collected(steps[..n])|
        && err == None
      ensures var steps := HostedZone.ZonesSteps(script);
        sent == Requests(None, steps[..FirstStop(steps) + 1])
    {
      ghost var steps := HostedZone.ZonesSteps(script);
      zones := Slice([]);
      var nextPageExists := true;
      var marker: Option<string> := None;
      var calls := 0;
      sent := [];
      ProgressStart(None, steps);
      while nextPageExists
        invariant zones.Slice?
        invariant Progress(None, steps, calls, nextPageExists, zones.elems, marker, sent)
        decreases |script| - calls
      {
        ProgressStep(None, steps, calls, zones.elems, marker, sent);
        var response := script[calls];
        assert steps[calls] == HostedZone.ZonesStep(response);
        sent := sent + [marker];
        calls := calls + 1;
        match response {
          case Failed(_) =>
            // back off, then the same request again
          case Page(page) =>
            zones := AppendEach(zones, page.hostedZones);
            if !HostedZone.Truncated(page.isTruncated) {
              nextPageExists := false;
              break;
            }
            marker := page.nextMarker;
        }
      }
      ProgressDone(None, steps, calls, zones.elems, marker, sent);
      return zones, |zones.elems|, None, sent;
    }

    /**
      `GetHostedZoneRecords`: the replies to the successive
      `ListResourceRecordSets` calls for `hostedZoneId` are `script`. Every
      record set of every page, in order, in a non-`nil` slice, with its
      length and no error.
    */
    method GetHostedZoneRecords<R>(hostedZoneId: string, script: seq<Reply<RecordSetsPage<R>>>)
      returns (records: Slice<R>, count: int, err: Option<string>, ghost sent: seq<RecordSetsRequest>)
      requires Halts(RecordSetsSteps(hostedZoneId, script))
      ensures var steps := RecordSetsSteps(hostedZoneId, script);
        var n := FirstStop(steps) + 1;
        && records == Slice(Collected(steps[..n]))
        && count == |Collected(steps[..n])|
        && err == None
      ensures var steps := RecordSetsSteps(hostedZoneId, script);
        sent == Requests(FirstRecordSets(hostedZoneId), steps[..FirstStop(steps) + 1])
    {
      ghost var steps := RecordSetsSteps(hostedZoneId, script);
      var nextPageExists := true;
      records := Slice([]);
      var request := FirstRecordSets(hostedZoneId);
      var calls := 0;
      sent := [];
      ProgressStart(FirstRecordSets(hostedZoneId), steps);
      while nextPageExists
        invariant records.Slice?
        invariant Progress(FirstRecordSets(hostedZoneId), steps, calls, nextPageExists, records.elems, request, sent)
        invariant request.hostedZoneId == hostedZoneId
        decreases |script| - calls
      {
        ProgressStep(FirstRecordSets(hostedZoneId), steps, calls, records.elems, request, sent);
        var response := script[calls];
        assert steps[calls] == RecordSetsStep(hostedZoneId, response);
        sent := sent + [request];
        calls := calls + 1;
        match response {
          case Failed(_) =>
            // back off, then the same request again
          case Page(page) =>
            records := Append(records, page.resourceRecordSets);
            if !HostedZone.Truncated(page.isTruncated) {
              nextPageExists := false;
              break;
            }
            request := request.(startRecordName := page.nextRecordName,
                                startRecordIdentifier := page.nextRecordIdentifier,
                                startRecordType := page.nextRecordType);
        }
      }
      ProgressDone(FirstRecordSets(hostedZoneId), steps, calls, records.elems, request, sent);
      return records, |records.elems|, None, sent;
    }
  }

  /**
    `NewAWSCollector`: the partition's regions, then the sessions, then the
    credential check. Each failing stage returns its own error, and the
    collector as far as it was built.
  */
  method NewAWSCollector<S>(partition: string, chinaRegions: Slice<string>, allRegions: Slice<string>,
                            build: Slice<string> -> Result<map<string, S>>, expired: S -> bool)
    returns (col: AWSCollector<S>, err: Option<string>)
    ensures fresh(col)
    ensures var regions := GetRegions(partition, chinaRegions, allRegions);
      && (regions.Nil? ==> err == Some("Invalid Region Selected") && col.sessions == map[])
      && (regions.Slice? ==> CreatedFrom(regions, build, expired, col.sessions, err))
  {
    col := new AWSCollector();
    var regions := GetRegions(partition, chinaRegions, allRegions);
    if regions.Nil? {
      return col, Some("Invalid Region Selected");
    }
    err := Create(col, regions, build, expired);
  }

  /**
    `NewAWSCollectorUserDefined`: the same stages from a region list given by
    the user, which must not be `nil`.
  */
  method NewAWSCollectorUserDefined<S>(regions: Slice<string>, build: Slice<string> -> Result<map<string, S>>, expired: S -> bool)
    returns (col: AWSCollector<S>, err: Option<string>)
    ensures fresh(col)
    ensures regions.Nil? ==> err == Some("Invalid Region Selected") && col.sessions == map[]
    ensures regions.Slice? ==> CreatedFrom(regions, build, expired, col.sessions, err)
  {
    col := new AWSCollector();
    if regions.Nil? {
      return col, Some("Invalid Region Selected");
    }
    err := Create(col, regions, build, expired);
  }

  /** The outcome of building the sessions of `regions` into a zero collector and checking their credentials. */
  ghost predicate CreatedFrom<S>(regions: Slice<string>, build: Slice<string> -> Result<map<string, S>>, expired: S -> bool,
                                 sessions: map<string, S>, err: Option<string>)
  {
    match build(regions)
    case Err(e) => err == Some("Unable to build AWS Sessions: " + e) && sessions == map[]
    case Ok(built) =>
      && sessions == built
      && (err == None <==> forall region :: region in built ==> !expired(built[region]))
      && (err != None ==> err == Some("Error obtaining AWS Credentials"))
  }

  /** The stages the two constructors share, on a zero collector. */
  method Create<S>(col: AWSCollector<S>, regions: Slice<string>, build: Slice<string> -> Result<map<string, S>>, expired: S -> bool)
    returns (err: Option<string>)
    requires col.sessions == map[]
    modifies col
    ensures CreatedFrom(regions, build, expired, col.sessions, err)
  {
    err := col.InitSessions(regions, build);
    if err.Some? {
      return err;
    }
    var ok := col.CheckCredentials(expired);
    if !ok {
      return Some("Error obtaining AWS Credentials");
    }
    return None;
  }
}
