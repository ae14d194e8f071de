/**
  cmd/azure.go: the `dump azure` command. It checks the filter, builds the
  collector, asks it for the virtual machines, the SQL databases or both,
  and writes them only when every collection asked for was gathered.
*/
module AzureCmd {
  import opened Wrappers
  import opened Dispatch

  /** The filters the command accepts, in the order it tries them; "" means both. */
  const ValidFilters: seq<string> := ["vm", "sqldb", ""]

  /** `validateAzureFilter`: the filter equals one of the accepted names exactly. */
  method ValidateAzureFilter(filter: string) returns (ok: bool)
    ensures ok <==> filter in ValidFilters
  {
    for i := 0 to |ValidFilters|
      invariant forall j :: 0 <= j < i ==> ValidFilters[j] != filter
    {
      if filter == ValidFilters[i] {
        return true;
      }
    }
    return false;
  }

  /** Exactly "vm", "sqldb" and "" are accepted: no case folding, no plural, no trimming. */
  lemma ValidFiltersExactly(filter: string)
    ensures filter in ValidFilters <==> filter == "vm" || filter == "sqldb" || filter == ""
    ensures "VM" !in ValidFilters && "vms" !in ValidFilters && " vm" !in ValidFilters
  {
    assert "VM"[0] != "vm"[0] && "VM"[0] != "sqldb"[0];
    assert |"vms"| == 3 && |" vm"| == 3;
  }

  /** The collector calls the command can make. */
  datatype Part = VMs | SQLDBs

  /** The key each part's result is stored under. */
  function ResultKey(part: Part): string
  {
    match part
    case VMs => "vm"
    case SQLDBs => "sqldb"
  }

  /** The parts a valid filter asks for, in order: the default asks for the machines, then the databases. */
  function Plan(filter: string): (plan: seq<Part>)
    requires filter in ValidFilters
    ensures 1 <= |plan| <= 2
  {
    if filter == "vm" then [VMs]
    else if filter == "sqldb" then [SQLDBs]
    else [VMs, SQLDBs]
  }

  /** The result object of a run whose every part succeeded: each part's collection under its key. */
  function Expected<V>(plan: seq<Part>, outcome: Part -> Result<V>): map<string, V>
    requires 1 <= |plan| <= 2 && AllOk(plan, outcome)
  {
    if |plan| == 1 then map[ResultKey(plan[0]) := outcome(plan[0]).value]
    else map[ResultKey(plan[0]) := outcome(plan[0]).value, ResultKey(plan[1]) := outcome(plan[1]).value]
  }

  /** Each filter stores under its own name; the default stores both, and fails as soon as the machines do. */
  lemma ExpectedKeys<V>(filter: string, outcome: Part -> Result<V>)
    requires filter in ValidFilters
    ensures AllOk(Plan(filter), outcome) && filter != "" ==> Expected(Plan(filter), outcome).Keys == {filter}
    ensures AllOk(Plan(filter), outcome) && filter == "" ==> Expected(Plan(filter), outcome).Keys == {"vm", "sqldb"}
    ensures filter == "" && outcome(VMs).Err? ==> Asked(Plan(filter), outcome) == [VMs]
  {
    if filter == "" {
      AskedTwo(VMs, SQLDBs, outcome);
    }
  }

  /** A collection run that followed `plan` asked for `asked` and ended with `err` and `result`. */
  ghost predicate Settled<V>(plan: seq<Part>, outcome: Part -> Result<V>, asked: seq<Part>, err: Option<string>,
                             result: map<string, V>)
  {
    && 1 <= |plan| <= 2
    && asked == Asked(plan, outcome)
    && (err.None? <==> AllOk(plan, outcome))
    && (err.None? ==> result == Expected(plan, outcome))
  }

  /** The collector's results, keyed as the command stores them, and the parts asked for so far. */
  class Output<V> {
    var result: map<string, V>
    ghost var asked: seq<Part>

    constructor()
      ensures result == map[] && asked == []
    {
      result := map[];
      asked := [];
    }

    /** `collectVMS` and `collectSQLDB`: store the collection, or return its error and store nothing. */
    method Collect(part: Part, outcome: Part -> Result<V>) returns (err: Option<string>)
      modifies this
      ensures asked == old(asked) + [part]
      ensures outcome(part).Err? ==> err == Some(outcome(part).error) && result == old(result)
      ensures outcome(part).Ok? ==> err == None && result == old(result)[ResultKey(part) := outcome(part).value]
      ensures old(asked) == [] && old(result) == map[] ==> Settled([part], outcome, asked, err, result)
    {
      AskedOne(part, outcome);
      asked := asked + [part];
      var instances := outcome(part);
      if instances.Err? {
        return Some(instances.error);
      }
      result := result[ResultKey(part) := instances.value];
      return None;
    }

    /** The command's switch on the filter: the machines, the databases, or both in that order. */
    method CollectFiltered(filter: string, outcome: Part -> Result<V>) returns (err: Option<string>)
      requires filter in ValidFilters
      requires asked == [] && result == map[]
      modifies this
      ensures Settled(Plan(filter), outcome, asked, err, result)
    {
      if filter == "vm" {
        err := Collect(VMs, outcome);
      } else if filter == "sqldb" {
        err := Collect(SQLDBs, outcome);
      } else {
        AskedTwo(VMs, SQLDBs, outcome);
        err := Collect(VMs, outcome);
        if err.None? {
          err := Collect(SQLDBs, outcome);
        }
      }
    }
  }

  /**
    The `Run` of the `dump azure` command. `created` is the error, if any,
    of building the collector; `outcome` is what each collector call
    returns. `dumped` is the object written out, or `None` when the command
    returns before writing.
  */
  method Run<V>(filter: string, created: Option<string>, outcome: Part -> Result<V>)
    returns (dumped: Option<map<string, V>>, ghost asked: seq<Part>)
    ensures filter !in ValidFilters || created.Some? ==> dumped == None
    ensures filter in ValidFilters && created.None? ==>
      && (dumped.Some? <==> AllOk(Plan(filter), outcome))
      && (dumped.Some? ==> dumped.value == Expected(Plan(filter), outcome))
    ensures asked == if filter in ValidFilters && created.None? then Asked(Plan(filter), outcome) else []
  {
    var valid := ValidateAzureFilter(filter);
    if !valid {
      return None, [];
    }
    if created.Some? {
      return None, [];
    }
    var out := new Output<V>();
    var err := out.CollectFiltered(filter, outcome);
    if err.Some? {
      return None, out.asked;
    }
    return Some(out.result), out.asked;
  }
}
