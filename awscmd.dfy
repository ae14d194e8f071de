/**
  cmd/aws.go: the `dump aws` command. It checks the filter, builds the
  collector (from a region file when one is given), asks the collector for
  the inventories the filter selects and writes them, as one JSON object
  keyed by service, only when every one of them was gathered.
*/
module AwsCmd {
  import opened Wrappers
  import opened Strings
  import opened Dispatch

  /** The filters the command accepts, in the order it tries them; "" means the default. */
  const ValidFilters: seq<string> := ["ec2", "cloudfront", "vpc", "subnet", "rds", "hostedzone", "loadbalancer", ""]

  /** `validateAWSFilter`: the filter equals one of the accepted names exactly. */
  method ValidateAWSFilter(filter: string) returns (ok: bool)
    ensures ok <==> filter in ValidFilters
  {
    for i := 0 to |ValidFilters|
      invariant forall j :: 0 <= j < i ==> ValidFilters[j] != filter
    {
      if filter == ValidFilters[i] {
        return true;
      }
    }
    return false;
  }

  /** The accepted filters are these eight strings and no others: no case folding, no trimming. */
  lemma ValidFiltersExactly(filter: string)
    ensures filter in ValidFilters <==>
      filter == "ec2" || filter == "cloudfront" || filter == "vpc" || filter == "subnet" ||
      filter == "rds" || filter == "hostedzone" || filter == "loadbalancer" || filter == ""
  {
  }

  lemma FilterIsCaseSensitive()
    ensures "EC2" !in ValidFilters && "ec2 " !in ValidFilters && "loadbalancers" !in ValidFilters
  {
    assert "EC2"[0] != "ec2"[0];
    assert |"ec2 "| == 4;
    assert |"loadbalancers"| == 13;
  }

  /** The collector calls the command can make. */
  datatype Part = EC2 | RDS | HostedZones | ClassicLoadBalancers | ApplicationAndNetworkLoadBalancers | CloudFront | VPC | Subnets

  /** The key each part's result is stored under; both kinds of load balancer share "loadbalancer". */
  function ResultKey(part: Part): string
  {
    match part
    case EC2 => "ec2"
    case RDS => "rds"
    case HostedZones => "hostedzones"
    case ClassicLoadBalancers => "loadbalancer"
    case ApplicationAndNetworkLoadBalancers => "loadbalancer"
    case CloudFront => "cdn"
    case VPC => "vpc"
    case Subnets => "subnet"
  }

  /**
    The parts a valid filter asks for, in order: the default asks for EC2
    then RDS, "loadbalancer" for the classic then the application and
    network load balancers, every other filter for one part.
  */
  function Plan(filter: string): (plan: seq<Part>)
    requires filter in ValidFilters
    ensures 1 <= |plan| <= 2
  {
    if filter == "ec2" then [EC2]
    else if filter == "rds" then [RDS]
    else if filter == "hostedzone" then [HostedZones]
    else if filter == "loadbalancer" then [ClassicLoadBalancers, ApplicationAndNetworkLoadBalancers]
    else if filter == "cloudfront" then [CloudFront]
    else if filter == "vpc" then [VPC]
    else if filter == "subnet" then [Subnets]
    else [EC2, RDS]
  }

  /** A value in the result object: one collection, or the list of load balancer collections. */
  datatype Stored<V> = Single(value: V) | List(values: seq<V>)

  /**
    The result object of a run whose every part succeeded: the two load
    balancer collections as one list, any other part under its own key.
  */
  function Expected<V>(plan: seq<Part>, outcome: Part -> Result<V>): map<string, Stored<V>>
    requires 1 <= |plan| <= 2 && AllOk(plan, outcome)
  {
    if plan == [ClassicLoadBalancers, ApplicationAndNetworkLoadBalancers] then
      map["loadbalancer" := List([outcome(plan[0]).value, outcome(plan[1]).value])]
    else if |plan| == 1 then
      map[ResultKey(plan[0]) := Single(outcome(plan[0]).value)]
    else
      map[ResultKey(plan[0]) := Single(outcome(plan[0]).value), ResultKey(plan[1]) := Single(outcome(plan[1]).value)]
  }

  /**
    The collector's results, keyed as the command stores them, and the
    parts asked for so far.
  */
  class Output<V> {
    var result: map<string, Stored<V>>
    ghost var asked: seq<Part>

    constructor()
      ensures result == map[] && asked == []
    {
      result := map[];
      asked := [];
    }

    /** `collectEC2`, `collectRDS`, `collectHostedZone`, `collectCloudFront`, `collectVpc`, `collectSubnets`. */
    method Collect(part: Part, outcome: Part -> Result<V>) returns (err: Option<string>)
      requires !part.ClassicLoadBalancers? && !part.ApplicationAndNetworkLoadBalancers?
      modifies this
      ensures asked == old(asked) + [part]
      ensures outcome(part).Err? ==> err == Some(outcome(part).error) && result == old(result)
      ensures outcome(part).Ok? ==> err == None && result == old(result)[ResultKey(part) := Single(outcome(part).value)]
      ensures old(asked) == [] && old(result) == map[] ==> Settled([part], outcome, asked, err, result)
    {
      AskedOne(part, outcome);
      asked := asked + [part];
      var instances := outcome(part);
      if instances.Err? {
        return Some(instances.error);
      }
      result := result[ResultKey(part) := Single(instances.value)];
      return None;
    }

    /**
      `collectLoadBalancers`: the classic load balancers, then the
      application and network ones, stored together as a two-element list;
      a failure stores nothing, and a classic failure ends it at once.
    */
    method CollectLoadBalancers(outcome: Part -> Result<V>) returns (err: Option<string>)
      modifies this
      ensures var plan := [ClassicLoadBalancers, ApplicationAndNetworkLoadBalancers];
        && asked == old(asked) + Asked(plan, outcome)
        && (AllOk(plan, outcome) ==>
              err == None && result == old(result)["loadbalancer" := List([outcome(plan[0]).value, outcome(plan[1]).value])])
        && (!AllOk(plan, outcome) ==> err == Some(FirstError(plan, outcome)) && result == old(result))
      ensures old(asked) == [] && old(result) == map[] ==>
        Settled([ClassicLoadBalancers, ApplicationAndNetworkLoadBalancers], outcome, asked, err, result)
    {
      AskedTwo(ClassicLoadBalancers, ApplicationAndNetworkLoadBalancers, outcome);
      var allLbs: seq<V> := [];
      asked := asked + [ClassicLoadBalancers];
      var clbs := outcome(ClassicLoadBalancers);
      if clbs.Err? {
        return Some(clbs.error);
      }
      allLbs := allLbs + [clbs.value];
      asked := asked + [ApplicationAndNetworkLoadBalancers];
      var anlbs := outcome(ApplicationAndNetworkLoadBalancers);
      if anlbs.Err? {
        return Some(anlbs.error);
      }
      allLbs := allLbs + [anlbs.value];
      assert allLbs == [clbs.value, anlbs.value];
      result := result["loadbalancer" := List(allLbs)];
      return None;
    }

    /** The default case of the command's switch: EC2, then RDS only when EC2 was gathered. */
    method CollectDefault(outcome: Part -> Result<V>) returns (err: Option<string>)
      modifies this
      ensures var plan := [EC2, RDS];
        && asked == old(asked) + Asked(plan, outcome)
        && (AllOk(plan, outcome) ==>
              err == None && result == old(result)["ec2" := Single(outcome(EC2).value)]["rds" := Single(outcome(RDS).value)])
        && (!AllOk(plan, outcome) ==> err == Some(FirstError(plan, outcome)))
      ensures !AllOk([EC2, RDS], outcome) ==>
        result == if outcome(EC2).Err? then old(result) else old(result)["ec2" := Single(outcome(EC2).value)]
      ensures old(asked) == [] && old(result) == map[] ==> Settled([EC2, RDS], outcome, asked, err, result)
    {
      AskedTwo(EC2, RDS, outcome);
      DefaultPlan(outcome);
      err := Collect(EC2, outcome);
      if err.None? {
        err := Collect(RDS, outcome);
      }
    }

    /** The command's switch on the filter: the collections the filter selects, each stored as it arrives. */
    method CollectFiltered(filter: string, outcome: Part -> Result<V>) returns (err: Option<string>)
      requires filter in ValidFilters
      requires asked == [] && result == map[]
      modifies this
      ensures Settled(Plan(filter), outcome, asked, err, result)
    {
      if filter == "ec2" {
        err := Collect(EC2, outcome);
      } else if filter == "rds" {
        err := Collect(RDS, outcome);
      } else if filter == "hostedzone" {
        err := Collect(HostedZones, outcome);
      } else if filter == "loadbalancer" {
        err := CollectLoadBalancers(outcome);
      } else if filter == "cloudfront" {
        err := Collect(CloudFront, outcome);
      } else if filter == "vpc" {
        err := Collect(VPC, outcome);
      } else if filter == "subnet" {
        err := Collect(Subnets, outcome);
      } else {
        err := CollectDefault(outcome);
      }
    }
  }

  /** The default plan stores EC2 under "ec2" and RDS under "rds", and stops on the first of their errors. */
  lemma DefaultPlan<V>(outcome: Part -> Result<V>)
    ensures AllOk([EC2, RDS], outcome) ==>
      && outcome(EC2).Ok? && outcome(RDS).Ok?
      && Expected([EC2, RDS], outcome) == map["ec2" := Single(outcome(EC2).value)]["rds" := Single(outcome(RDS).value)]
    ensures !AllOk([EC2, RDS], outcome) ==>
      FirstError([EC2, RDS], outcome) == if outcome(EC2).Err? then outcome(EC2).error else outcome(RDS).error
  {
    AskedTwo(EC2, RDS, outcome);
  }

  /** A collection run that followed `plan` asked for `asked` and ended with `err` and `result`. */
  ghost predicate Settled<V>(plan: seq<Part>, outcome: Part -> Result<V>, asked: seq<Part>, err: Option<string>,
                             result: map<string, Stored<V>>)
  {
    && 1 <= |plan| <= 2
    && asked == Asked(plan, outcome)
    && (err.None? <==> AllOk(plan, outcome))
    && (err.None? ==> result == Expected(plan, outcome))
  }

  /**
    The `Run` of the `dump aws` command. `created` is the error, if any, of
    building the collector; `outcome` is what each collector call returns.
    `dumped` is the object written out, or `None` when the command returns
    before writing: an invalid filter, a collector that could not be built,
    or a collection that failed.
  */
  method Run<V>(filter: string, created: Option<string>, outcome: Part -> Result<V>)
    returns (dumped: Option<map<string, Stored<V>>>, ghost asked: seq<Part>)
    ensures filter !in ValidFilters || created.Some? ==> dumped == None
    ensures filter in ValidFilters && created.None? ==>
      && (dumped.Some? <==> AllOk(Plan(filter), outcome))
      && (dumped.Some? ==> dumped.value == Expected(Plan(filter), outcome))
    ensures asked == if filter in ValidFilters && created.None? then Asked(Plan(filter), outcome) else []
  {
    var valid := ValidateAWSFilter(filter);
    if !valid {
      return None, [];
    }
    if created.Some? {
      return None, [];
    }
    var out := new Output<V>();
    var err := out.CollectFiltered(filter, outcome);
    if err.Some? {
      return None, out.asked;
    }
    return Some(out.result), out.asked;
  }

  /** "cloudfront" results are stored under "cdn" and "hostedzone" results under "hostedzones". */
  lemma RenamedKeys<V>(outcome: Part -> Result<V>)
    ensures AllOk(Plan("cloudfront"), outcome) ==> Expected(Plan("cloudfront"), outcome).Keys == {"cdn"}
    ensures AllOk(Plan("hostedzone"), outcome) ==> Expected(Plan("hostedzone"), outcome).Keys == {"hostedzones"}
  {
  }

  /** Every other single-service filter stores its result under its own name. */
  lemma OwnNameKeys<V>(filter: string, outcome: Part -> Result<V>)
    requires filter in ValidFilters && filter != "" && filter != "cloudfront" && filter != "hostedzone"
    requires AllOk(Plan(filter), outcome)
    ensures Expected(Plan(filter), outcome).Keys == {filter}
  {
  }

  /** The default run stores EC2 under "ec2" and RDS under "rds", and fails as soon as EC2 does. */
  lemma DefaultRun<V>(outcome: Part -> Result<V>)
    ensures AllOk(Plan(""), outcome) <==> outcome(EC2).Ok? && outcome(RDS).Ok?
    ensures outcome(EC2).Ok? && outcome(RDS).Ok? ==>
      Expected(Plan(""), outcome) == map["ec2" := Single(outcome(EC2).value), "rds" := Single(outcome(RDS).value)]
    ensures outcome(EC2).Err? ==> Asked(Plan(""), outcome) == [EC2] && !AllOk(Plan(""), outcome)
  {
    assert Plan("") == [EC2, RDS];
    AskedTwo(EC2, RDS, outcome);
  }

  /** A classic load balancer failure means the application and network load balancers are never asked for. */
  lemma ClassicFailureSkipsTheRest<V>(outcome: Part -> Result<V>)
    requires outcome(ClassicLoadBalancers).Err?
    ensures Asked(Plan("loadbalancer"), outcome) == [ClassicLoadBalancers]
    ensures !AllOk(Plan("loadbalancer"), outcome)
  {
    AskedTwo(ClassicLoadBalancers, ApplicationAndNetworkLoadBalancers, outcome);
  }

  /**
    The regions of a user's region file: its contents split on single
    spaces. Nothing is trimmed, so joining them with spaces gives the
    contents back.
  */
  function RegionsFromFile(contents: string): (regions: seq<string>)
    ensures |regions| >= 1
    ensures forall i :: 0 <= i < |regions| ==> ' ' !in regions[i]
    ensures Join(regions, ' ') == contents
  {
    JoinSplit(contents, ' ');
    Split(contents, ' ')
  }

  /** A line break ending the file stays in the last region, and a double space yields an empty region. */
  lemma TrailingNewlineKept()
    ensures RegionsFromFile("us-east-1 eu-west-1\n") == ["us-east-1", "eu-west-1\n"]
  {
    var a, b := "us-east-1", "eu-west-1\n";
    assert "us-east-1 eu-west-1\n" == a + [' '] + b;
    assert ' ' !in a;
    assert ' ' !in b;
    SplitAtSeparator(a, ' ', b);
    SplitWithoutSeparator(b, ' ');
  }

  /** Two separators in a row leave an empty piece between them. */
  lemma SplitDoubleSeparator(a: string, b: string, sep: char)
    requires sep !in a && sep !in b
    ensures Split(a + [sep, sep] + b, sep) == [a, "", b]
  {
    var t := [sep] + b;
    SplitWithoutSeparator(b, sep);
    assert t[1..] == b;
    assert a + [sep, sep] + b == a + [sep] + t;
    SplitAtSeparator(a, sep, t);
  }

  lemma DoubleSpaceGivesEmptyRegion()
    ensures RegionsFromFile("us-east-1  eu-west-1") == ["us-east-1", "", "eu-west-1"]
  {
    var a, b := "us-east-1", "eu-west-1";
    assert ' ' !in a;
    assert ' ' !in b;
    assert "us-east-1  eu-west-1" == a + [' ', ' '] + b;
    SplitDoubleSeparator(a, b, ' ');
  }
}
