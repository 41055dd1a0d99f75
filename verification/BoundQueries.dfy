/** From the configured registry to what a bound query means. */
module BoundQueries {
  import opened Text
  import opened Clusters
  import opened PromTokens
  import opened PromQL
  import opened PromQLScoping
  import opened PromQLMeaning
  import opened Sorting
  import Scope
  import ScopeProperties

  /** The name of a configured cluster can stand in a matcher as it is. */
  lemma ConfiguredIsClean(r: Registry, local: Option<string>, sqs: seq<Entry>, http: seq<Entry>, cluster: string)
    requires IsConfigured(r, local, sqs, http) && cluster in r.names
    ensures ScopeProperties.IsClean(cluster) && IsBound(Some(cluster))
  {
    hide Clusters.IsName, IsConfigured, Distinct;
    NamesAreDistinct(r, local, sqs, http);
    NameIsPlain(cluster);
    NameIsThere(cluster);
  }

  /**
   * Bound to any configured cluster, a query of any metrics tool that names no cluster reaches the central
   * server as a query that means, on every cluster's series, what the original means on that cluster's
   * alone; sent again, it would not change.
   */
  lemma BoundQueryReadsItsCluster<D, V>(r: Registry, local: Option<string>, sqs: seq<Entry>, http: seq<Entry>,
                                        cluster: string, tool: string, e: Expr, ws: seq<string>, rest: string,
                                        store: seq<Series<D>>, i: Interp<D, V>)
    requires IsConfigured(r, local, sqs, http) && cluster in r.names
    requires QueryLanguage(tool) == Some(Scope.PromQL)
    requires IsExpr(e) && IsLayout(Tokens(e), ws) && AreTelling(Selectors(e)) && NoneNamesCluster(Selectors(e))
    requires i.literal("\"" + cluster + "\"") == cluster
    ensures |Tokens(AddCluster(e, cluster))| + 1 == |ws|
    ensures var sent := Render(Tokens(AddCluster(e, cluster)), ws);
            && CallTool(r, Some(cluster), Clusters.Call.Call(tool, Some(Render(Tokens(e), ws)), rest))
               == Reaches(Central, Clusters.Call.Call(tool, Some(sent), rest))
            && Scope.Scoped(sent, cluster, Scope.PromQL) == sent
    ensures Eval(AddCluster(e, cluster), Everywhere(store), i) == Eval(e, Only(store, cluster), i)
  {
    hide Tokens, AddCluster, Render, IsExpr, Selectors, AreTelling, NoneNamesCluster, Eval, Scope.Scoped, IsConfigured,
      Clusters.IsName, ScopeProperties.IsClean;
    ConfiguredIsClean(r, local, sqs, http, cluster);
    ScopingKeepsMeaning(e, ws, cluster, store, i);
    var text := Render(Tokens(e), ws);
    ScopeProperties.ScopingIsIdempotent(text, cluster, cluster, Scope.PromQL);
    QueryToolsAreCentral(tool);
    StrictIff(r, local, sqs, http);
    CentralToolsAreHeld(r, local, sqs, http, Some(cluster), Clusters.Call.Call(tool, Some(text), rest));
  }
}
