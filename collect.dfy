/**
  collector/collect.go: the earlier AWS collector, which fetches every
  region concurrently with no ceiling and gathers EC2 and RDS inventories.
*/
module Collect {
  import opened Wrappers
  import opened Fanout

  /** The two inventories this collector gathers. */
  datatype Resource = EC2 | RDS

  /** The word each collector puts in "Failed to gather <word> Data: ...". */
  function Word(resource: Resource): string
  {
    match resource
    case EC2 => "EC2"
    case RDS => "RDS"
  }

  /** What a session's credentials report: whether `Get` fails, and whether they have expired. */
  datatype Credentials = Credentials(getFails: bool, expired: bool)

  /** `AWSCollector`: one session per region, keyed by region name. */
  class AWSCollector<S> {
    var sessions: map<string, S>

    /** The zero `AWSCollector`, whose session map is `nil`. */
    constructor()
      ensures sessions == map[]
    {
      sessions := map[];
    }

    /**
      `initSessions`: `built` is what the SDK session builder returned. Its
      error is replaced by the bare "Unable to build AWS Sessions", and the
      sessions stay as they were.
    */
    method InitSessions(built: Result<map<string, S>>) returns (err: Option<string>)
      modifies this
      ensures built.Err? ==> err == Some("Unable to build AWS Sessions") && sessions == old(sessions)
      ensures built.Ok? ==> err == None && sessions == built.value
    {
      if built.Err? {
        return Some("Unable to build AWS Sessions");
      }
      sessions := built.value;
      return None;
    }

    /** `CheckCredentials`: false as soon as some session's credentials cannot be read or have expired. */
    method CheckCredentials(credentials: S -> Credentials) returns (ok: bool)
      ensures ok <==> forall region :: region in sessions ==>
        !credentials(sessions[region]).getFails && !credentials(sessions[region]).expired
    {
      var left := sessions.Keys;
      while left != {}
        invariant left <= sessions.Keys
        invariant forall region :: region in sessions && region !in left ==>
          !credentials(sessions[region]).getFails && !credentials(sessions[region]).expired
        decreases left
      {
        var region :| region in left;
        var sess := sessions[region];
        if credentials(sess).getFails {
          return false;
        }
        if credentials(sess).expired {
          return false;
        }
        left := left - {region};
      }
      return true;
    }

    /**
      `CollectEC2` and `CollectRDS`: every region fetched at once, then the
      error check, then the merge. A `nil` fetch leaves its region out; any
      failure discards everything and reports one failing region.
    */
    method CollectUnbounded<T>(resource: Resource, order: seq<string>, fetch: S -> FetchOutcome<T>)
      returns (r: Collection<T>, ghost trace: seq<Event>, ghost drained: seq<string>)
      requires Visits(order, sessions)
      ensures r.Gathered? <==> !AnyFailed(order, sessions, fetch)
      ensures r.Gathered? ==>
        && r.items == GatheredFrom(order, sessions, fetch)
        && Lists(drained, r.items.Keys)
        && trace == FetchEvents(order) + StoreEvents(drained)
      ensures r.Aborted? ==>
        && ReportsBatchFailure(Word(resource), order, sessions, fetch, r.msg)
        && trace == FetchEvents(order)
    {
      r, trace, drained := CollectAll(Word(resource), order, sessions, fetch);
    }
  }

  /**
    `NewAWSCollector`: the sessions, then the credential check. Each failing
    stage returns its own error and the collector as far as it was built.
  */
  method NewAWSCollector<S>(built: Result<map<string, S>>, credentials: S -> Credentials)
    returns (col: AWSCollector<S>, err: Option<string>)
    ensures fresh(col)
    ensures built.Err? ==> err == Some("Unable to build AWS Sessions") && col.sessions == map[]
    ensures built.Ok? ==> col.sessions == built.value
    ensures built.Ok? ==>
      (err == None <==> forall region :: region in built.value ==>
        !credentials(built.value[region]).getFails && !credentials(built.value[region]).expired)
    ensures built.Ok? && err != None ==> err == Some("Error obtaining AWS Credentials.")
  {
    col := new AWSCollector();
    err := col.InitSessions(built);
    if err.Some? {
      return col, err;
    }
    var ok := col.CheckCredentials(credentials);
    if !ok {
      return col, Some("Error obtaining AWS Credentials.");
    }
    return col, None;
  }
}
