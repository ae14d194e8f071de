/**
  azurecollector/azurecollect.go: the Azure SQL database collector. Its scopes
  are subscriptions, keyed by subscription name, and each fetch is made with
  the subscription's ID.
*/
module AzureCollect {
  import opened Wrappers
  import opened Fanout

  /** The word of the collector's error text. */
  const SqlDatabases := "SQL databases"

  /** `AzureCollector`: subscription name to subscription ID. */
  class AzureCollector {
    var subscriptionmap: map<string, string>

    /** The zero `AzureCollector`, whose subscription map is `nil`. */
    constructor()
      ensures subscriptionmap == map[]
    {
      subscriptionmap := map[];
    }

    /**
      `InitSubscription`: `listed` is what the subscription listing returned.
      Its error comes back unchanged and leaves the map as it was; otherwise
      the listing replaces the map.
    */
    method InitSubscription(listed: Result<map<string, string>>) returns (err: Option<string>)
      modifies this
      ensures listed.Err? ==> err == Some(listed.error) && subscriptionmap == old(subscriptionmap)
      ensures listed.Ok? ==> err == None && subscriptionmap == listed.value
    {
      if listed.Err? {
        return Some(listed.error);
      }
      subscriptionmap := listed.value;
      return None;
    }

    /**
      `CollectSQLDBs`: every subscription fetched at once with its ID, then
      the error check, then the merge under the subscription's name. A
      subscription whose list is `nil` gets no entry; any failure discards
      everything and reports one failing subscription by name.
    */
    method CollectSQLDBs<D>(order: seq<string>, fetch: string -> FetchOutcome<D>)
      returns (r: Collection<D>, ghost trace: seq<Event>, ghost drained: seq<string>)
      requires Visits(order, subscriptionmap)
      ensures r.Gathered? <==> !AnyFailed(order, subscriptionmap, fetch)
      ensures r.Gathered? ==>
        && r.items.Keys <= subscriptionmap.Keys
        && (forall name :: name in r.items <==> name in subscriptionmap && fetch(subscriptionmap[name]).Fetched?)
        && (forall name :: name in r.items ==> r.items[name] == fetch(subscriptionmap[name]).items)
        && Lists(drained, r.items.Keys)
        && trace == FetchEvents(order) + StoreEvents(drained)
      ensures r.Aborted? ==>
        && ReportsBatchFailure(SqlDatabases, order, subscriptionmap, fetch, r.msg)
        && trace == FetchEvents(order)
    {
      r, trace, drained := CollectAll(SqlDatabases, order, subscriptionmap, fetch);
    }
  }
}
