/**
  What the `dump` commands in cmd/aws.go and cmd/azure.go share: a filter
  selects a sequence of collections, each one is asked for in turn, and the
  first failure ends the command before anything is written out.
*/
module Dispatch {
  import opened Wrappers

  /** Every collection in `plan` succeeds. */
  predicate AllOk<P, V>(plan: seq<P>, outcome: P -> Result<V>)
  {
    forall i :: 0 <= i < |plan| ==> outcome(plan[i]).Ok?
  }

  /**
    The collections a command asks for when it follows `plan`: each in
    order, up to and including the first one that fails.
  */
  function Asked<P, V>(plan: seq<P>, outcome: P -> Result<V>): (asked: seq<P>)
    ensures asked <= plan
    ensures forall i :: 0 <= i < |asked| - 1 ==> outcome(asked[i]).Ok?
    ensures AllOk(plan, outcome) <==> asked == plan && (|plan| == 0 || outcome(plan[|plan| - 1]).Ok?)
    ensures !AllOk(plan, outcome) ==> |asked| > 0 && outcome(asked[|asked| - 1]).Err?
    decreases |plan|
  {
    if plan == [] then []
    else if outcome(plan[0]).Err? then [plan[0]]
    else
      var rest := Asked(plan[1..], outcome);
      assert AllOk(plan, outcome) <==> AllOk(plan[1..], outcome) by {
        if AllOk(plan[1..], outcome) {
          forall i | 0 <= i < |plan|
            ensures outcome(plan[i]).Ok?
          {
            if i > 0 {
              assert plan[i] == plan[1..][i - 1];
            }
          }
        }
      }
      [plan[0]] + rest
  }

  /** The first error along `plan`, which is the one the command stops on. */
  function FirstError<P, V>(plan: seq<P>, outcome: P -> Result<V>): (e: string)
    requires !AllOk(plan, outcome)
    ensures exists i :: 0 <= i < |plan| && outcome(plan[i]) == Err(e)
    ensures e == outcome(Asked(plan, outcome)[|Asked(plan, outcome)| - 1]).error
    decreases |plan|
  {
    if outcome(plan[0]).Err? then outcome(plan[0]).error
    else
      assert !AllOk(plan[1..], outcome) by {
        var i :| 0 <= i < |plan| && outcome(plan[i]).Err?;
        assert plan[1..][i - 1] == plan[i];
      }
      var e := FirstError(plan[1..], outcome);
      var i :| 0 <= i < |plan[1..]| && outcome(plan[1..][i]) == Err(e);
      assert plan[i + 1] == plan[1..][i];
      e
  }

  /** A one-collection plan asks for that collection and succeeds exactly when it does. */
  lemma AskedOne<P, V>(p: P, outcome: P -> Result<V>)
    ensures Asked([p], outcome) == [p]
    ensures AllOk([p], outcome) <==> outcome(p).Ok?
  {
    assert [p][0] == p;
  }

  /** A two-collection plan asks for the second only when the first succeeds. */
  lemma AskedTwo<P, V>(p: P, q: P, outcome: P -> Result<V>)
    ensures Asked([p, q], outcome) == if outcome(p).Err? then [p] else [p, q]
    ensures AllOk([p, q], outcome) <==> outcome(p).Ok? && outcome(q).Ok?
  {
    assert [p, q][1..] == [q];
    assert [p, q][0] == p && [p, q][1] == q;
  }
}
