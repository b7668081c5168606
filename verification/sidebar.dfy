/** The "Recent Recipes" widget of the sidebar (src/components/Sidebar.tsx):
    the first three recipes of the home listing. */
module Sidebar {
  import opened Wrappers
  import opened Api

  const RecentCount: nat := 3

  /** `(data?.nodes ?? []).slice(0, 3)`: the first three nodes, or all of
      them when there are fewer. */
  function Recent(data: Option<Connection>): (r: seq<RecipeSummary>)
    ensures |r| <= RecentCount
    ensures |r| <= |NodesOr(data)| && r == NodesOr(data)[..|r|]
    ensures |NodesOr(data)| < RecentCount ==> r == NodesOr(data)
    ensures |NodesOr(data)| >= RecentCount ==> |r| == RecentCount
  {
    var all := NodesOr(data);
    if |all| <= RecentCount then all else all[..RecentCount]
  }

  /** `RecentRecipesWidget()`: the home listing fetched without a cursor,
      its first three recipes shown. A failed fetch is not caught here, so
      the widget throws with the same failure. */
  function RecentRecipesWidget(endpoint: Option<string>, reply: Reply<HomeData>): (r: Result<seq<RecipeSummary>, Failure>)
    ensures GetAllRecipesForHome(endpoint, "", reply).result.Err? ==> r == Err(GetAllRecipesForHome(endpoint, "", reply).result.error)
    ensures forall data :: GetAllRecipesForHome(endpoint, "", reply).result == Ok(data) ==> r == Ok(Recent(data))
  {
    match GetAllRecipesForHome(endpoint, "", reply).result
    case Err(e) => Err(e)
    case Ok(data) => Ok(Recent(data))
  }

  /** The widget shows exactly the three newest recipes of a listing that
      has at least three, and a missing listing or missing nodes show
      nothing. */
  lemma RecentOfListing(nodes: seq<RecipeSummary>, info: Option<PageInfo>)
    ensures |nodes| >= 3 ==> Recent(Some(Connection(info, Some(nodes)))) == [nodes[0], nodes[1], nodes[2]]
    ensures Recent(None) == [] && Recent(Some(Connection(info, None))) == []
  {
  }
}
