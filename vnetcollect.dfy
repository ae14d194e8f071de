/**
  azurevnetcollector/vnetcollect.go: the Azure virtual-network collector,
  whose subscriptions come either from the account listing or from a list of
  IDs given by the user.
*/
module VnetCollect {
  import opened Wrappers
  import opened Strings
  import opened Fanout

  /** The word of the collector's error text, as the code has it. */
  const LoadBalancers := "load balancers"

  /** The name a user-given subscription ID gets: "SubscriptionID <i> : <id>". */
  function SubscriptionName(i: nat, id: string): string
  {
    "SubscriptionID " + Itoa(i) + " : " + id
  }

  /** The number of decimal digits `s` starts with. */
  function LeadingDigits(s: string): nat
    decreases |s|
  {
    if s != [] && IsDigit(s[0]) then 1 + LeadingDigits(s[1..]) else 0
  }

  lemma {:induction false} LeadingDigitsOf(a: string, x: string)
    requires forall i :: 0 <= i < |a| ==> IsDigit(a[i])
    requires x != [] && !IsDigit(x[0])
    ensures LeadingDigits(a + x) == |a|
    decreases |a|
  {
    if a == [] {
      assert a + x == x;
    } else {
      assert (a + x)[1..] == a[1..] + x;
      LeadingDigitsOf(a[1..], x);
    }
  }

  /** A run of digits followed by a non-digit determines where the digits end. */
  lemma DigitsThenSpace(a: string, b: string, x: string, y: string)
    requires forall i :: 0 <= i < |a| ==> IsDigit(a[i])
    requires forall i :: 0 <= i < |b| ==> IsDigit(b[i])
    requires x != [] && !IsDigit(x[0]) && y != [] && !IsDigit(y[0])
    requires a + x == b + y
    ensures a == b && x == y
  {
    LeadingDigitsOf(a, x);
    LeadingDigitsOf(b, y);
    assert a == (a + x)[..|a|];
    assert b == (b + y)[..|b|];
    assert x == (a + x)[|a|..];
    assert y == (b + y)[|b|..];
  }

  /** Different indices give different names, whatever the IDs: no user-given ID overwrites another. */
  lemma SubscriptionNameInjective(i: nat, a: string, j: nat, b: string)
    requires SubscriptionName(i, a) == SubscriptionName(j, b)
    ensures i == j && a == b
  {
    var prefix := "SubscriptionID ";
    assert SubscriptionName(i, a) == prefix + (Itoa(i) + (" : " + a));
    assert SubscriptionName(j, b) == prefix + (Itoa(j) + (" : " + b));
    assert (prefix + (Itoa(i) + (" : " + a)))[|prefix|..] == Itoa(i) + (" : " + a);
    assert (prefix + (Itoa(j) + (" : " + b)))[|prefix|..] == Itoa(j) + (" : " + b);
    DigitsThenSpace(Itoa(i), Itoa(j), " : " + a, " : " + b);
    ItoaInjective(i, j);
    assert a == (" : " + a)[3..];
    assert b == (" : " + b)[3..];
  }

  /** The name of the next ID is not among the names of the earlier ones. */
  lemma NameIsNew(ids: seq<string>, subID: map<string, string>, i: nat)
    requires i < |ids|
    requires forall name :: name in subID <==> exists j :: 0 <= j < i && name == SubscriptionName(j, ids[j])
    ensures SubscriptionName(i, ids[i]) !in subID
  {
    if SubscriptionName(i, ids[i]) in subID {
      var j :| 0 <= j < i && SubscriptionName(i, ids[i]) == SubscriptionName(j, ids[j]);
      SubscriptionNameInjective(i, ids[i], j, ids[j]);
    }
  }

  /** The keys of `m` are the names of the first `n` IDs. */
  ghost predicate KeysUpTo(ids: seq<string>, n: nat, m: map<string, string>)
    requires n <= |ids|
  {
    forall name :: name in m <==> exists j :: 0 <= j < n && name == SubscriptionName(j, ids[j])
  }

  /** Each of the first `n` IDs is stored under its name. */
  ghost predicate ValuesUpTo(ids: seq<string>, n: nat, m: map<string, string>)
    requires n <= |ids|
  {
    forall j :: 0 <= j < n ==> SubscriptionName(j, ids[j]) in m && m[SubscriptionName(j, ids[j])] == ids[j]
  }

  /** `m` names each of the first `n` IDs by its index, and holds nothing else. */
  ghost predicate NamesUpTo(ids: seq<string>, n: nat, m: map<string, string>)
    requires n <= |ids|
  {
    KeysUpTo(ids, n, m) && ValuesUpTo(ids, n, m) && |m| == n
  }

  lemma KeysStep(ids: seq<string>, i: nat, m: map<string, string>)
    requires i < |ids|
    requires KeysUpTo(ids, i, m)
    ensures KeysUpTo(ids, i + 1, m[SubscriptionName(i, ids[i]) := ids[i]])
  {
    var m' := m[SubscriptionName(i, ids[i]) := ids[i]];
    forall name
      ensures name in m' <==> exists j :: 0 <= j < i + 1 && name == SubscriptionName(j, ids[j])
    {
      if name == SubscriptionName(i, ids[i]) {
        assert 0 <= i < i + 1;
      }
    }
  }

  lemma ValuesStep(ids: seq<string>, i: nat, m: map<string, string>)
    requires i < |ids|
    requires ValuesUpTo(ids, i, m)
    ensures ValuesUpTo(ids, i + 1, m[SubscriptionName(i, ids[i]) := ids[i]])
  {
    var name := SubscriptionName(i, ids[i]);
    var m' := m[name := ids[i]];
    forall j | 0 <= j < i + 1
      ensures SubscriptionName(j, ids[j]) in m' && m'[SubscriptionName(j, ids[j])] == ids[j]
    {
      if j < i && SubscriptionName(j, ids[j]) == name {
        SubscriptionNameInjective(j, ids[j], i, ids[i]);
      }
    }
  }

  /** Naming the next ID adds one entry and keeps every earlier one. */
  lemma NamesStep(ids: seq<string>, i: nat, m: map<string, string>)
    requires i < |ids|
    requires NamesUpTo(ids, i, m)
    ensures NamesUpTo(ids, i + 1, m[SubscriptionName(i, ids[i]) := ids[i]])
  {
    NameIsNew(ids, m, i);
    KeysStep(ids, i, m);
    ValuesStep(ids, i, m);
  }

  /** `AzureCollector`: subscription name to subscription ID. */
  class AzureCollector {
    var subscriptionMap: map<string, string>

    /** The zero `AzureCollector`, whose subscription map is `nil`. */
    constructor()
      ensures subscriptionMap == map[]
    {
      subscriptionMap := map[];
    }

    /**
      `GetSubscription`: `listed` is what the subscription listing returned.
      Its error comes back unchanged and leaves the map as it was; otherwise
      the listing replaces the map.
    */
    method GetSubscription(listed: Result<map<string, string>>) returns (err: Option<string>)
      modifies this
      ensures listed.Err? ==> err == Some(listed.error) && subscriptionMap == old(subscriptionMap)
      ensures listed.Ok? ==> err == None && subscriptionMap == listed.value
    {
      if listed.Err? {
        return Some(listed.error);
      }
      subscriptionMap := listed.value;
      return None;
    }

    /**
      `CollectVirtualNetworks`: every subscription fetched at once with its
      ID, then the error check, then the merge under the subscription's name.
      A subscription whose list is `nil` gets no entry; any failure discards
      everything and reports one failing subscription, under the word "load
      balancers".
    */
    method CollectVirtualNetworks<V>(order: seq<string>, fetch: string -> FetchOutcome<V>)
      returns (r: Collection<V>, ghost trace: seq<Event>, ghost drained: seq<string>)
      requires Visits(order, subscriptionMap)
      ensures r.Gathered? <==> !AnyFailed(order, subscriptionMap, fetch)
      ensures r.Gathered? ==>
        && r.items.Keys <= subscriptionMap.Keys
        && (forall name :: name in r.items <==> name in subscriptionMap && fetch(subscriptionMap[name]).Fetched?)
        && (forall name :: name in r.items ==> r.items[name] == fetch(subscriptionMap[name]).items)
        && Lists(drained, r.items.Keys)
        && trace == FetchEvents(order) + StoreEvents(drained)
      ensures r.Aborted? ==>
        && ReportsBatchFailure(LoadBalancers, order, subscriptionMap, fetch, r.msg)
        && trace == FetchEvents(order)
    {
      r, trace, drained := CollectAll(LoadBalancers, order, subscriptionMap, fetch);
    }
  }

  /** `NewAzureCollector`: a zero collector filled by `GetSubscription`, whose error it returns. */
  method NewAzureCollector(listed: Result<map<string, string>>) returns (col: AzureCollector, err: Option<string>)
    ensures fresh(col)
    ensures listed.Err? ==> err == Some(listed.error) && col.subscriptionMap == map[]
    ensures listed.Ok? ==> err == None && col.subscriptionMap == listed.value
  {
    col := new AzureCollector();
    err := col.GetSubscription(listed);
  }

  /**
    `NewAzureCollectorUserDefined`: the i-th ID is stored under
    "SubscriptionID <i> : <id>", so the map has one entry per ID, repeated
    IDs included, and there is never an error.
  */
  method NewAzureCollectorUserDefined(subscriptionID: seq<string>) returns (col: AzureCollector, err: Option<string>)
    ensures fresh(col)
    ensures err == None
    ensures forall i :: 0 <= i < |subscriptionID| ==>
      SubscriptionName(i, subscriptionID[i]) in col.subscriptionMap
      && col.subscriptionMap[SubscriptionName(i, subscriptionID[i])] == subscriptionID[i]
    ensures forall name :: name in col.subscriptionMap ==>
      exists i :: 0 <= i < |subscriptionID| && name == SubscriptionName(i, subscriptionID[i])
    ensures |col.subscriptionMap| == |subscriptionID|
  {
    col := new AzureCollector();
    var subID: map<string, string> := map[];
    for i := 0 to |subscriptionID|
      invariant NamesUpTo(subscriptionID, i, subID)
    {
      var s := Itoa(i);
      NamesStep(subscriptionID, i, subID);
      subID := subID["SubscriptionID " + s + " : " + subscriptionID[i] := subscriptionID[i]];
    }
    col.subscriptionMap := subID;
    return col, None;
  }
}
