/** The "load more" recipe list (src/components/RecipeList.tsx): a grid of
    recipe cards that starts from a server-rendered snapshot and grows one
    page at a time.

    The component's four pieces of React state are one `State` value, and
    each handler is one atomic transition. The awaited fetch is split into
    `Begin` (before the `await`) and the outcome of the fetch, which is a
    parameter; `LoadMore` is the whole handler. */
module RecipeList {
  import opened Wrappers
  import opened Api
  import Seqs

  datatype State = State(recipes: seq<RecipeSummary>, cursor: string, hasNextPage: bool, isLoading: bool)

  /** `c?.pageInfo?.endCursor || ''`. */
  function CursorOr(c: Option<Connection>): string {
    if c.Some? && c.value.pageInfo.Some? && c.value.pageInfo.value.endCursor.Some?
    then c.value.pageInfo.value.endCursor.value else ""
  }

  /** `c?.pageInfo?.hasNextPage || false`. */
  function HasNextOr(c: Option<Connection>): bool {
    c.Some? && c.value.pageInfo.Some? && c.value.pageInfo.value.hasNextPage == Some(true)
  }

  /** The state at mount: every field taken from the snapshot, with `[]`,
      `''` and `false` standing in for what the snapshot lacks, and no load
      in flight. */
  function Init(snapshot: Option<Connection>): (s: State)
    ensures !s.isLoading
    ensures snapshot.None? ==> s == State([], "", false, false)
    ensures snapshot.Some? && snapshot.value.nodes.Some? ==> s.recipes == snapshot.value.nodes.value
    ensures snapshot.Some? && snapshot.value.nodes.None? ==> s.recipes == []
    ensures forall c :: snapshot.Some? && snapshot.value.pageInfo.Some? && snapshot.value.pageInfo.value.endCursor == Some(c)
                        ==> s.cursor == c
    ensures s.cursor != "" ==> snapshot.Some? && snapshot.value.pageInfo.Some? && snapshot.value.pageInfo.value.endCursor == Some(s.cursor)
    ensures s.hasNextPage <==> snapshot.Some? && snapshot.value.pageInfo.Some? && snapshot.value.pageInfo.value.hasNextPage == Some(true)
  {
    State(NodesOr(snapshot), CursorOr(snapshot), HasNextOr(snapshot), false)
  }

  /** The effect that runs when the `initialRecipes` prop changes: recipes,
      cursor and `hasNextPage` are replaced wholesale by the new snapshot's,
      exactly as at mount, and `isLoading` is left as it was. */
  function Reset(s: State, snapshot: Option<Connection>): (r: State)
    ensures r.isLoading == s.isLoading
    ensures r.(isLoading := false) == Init(snapshot)
  {
    Init(snapshot).(isLoading := s.isLoading)
  }

  /** Nothing of the old list, cursor or flag survives a reset: two states
      reset with the same snapshot differ at most in `isLoading`. */
  lemma ResetForgetsHistory(s1: State, s2: State, snapshot: Option<Connection>)
    ensures Reset(s1, snapshot).(isLoading := false) == Reset(s2, snapshot).(isLoading := false)
  {
  }

  /** The "Load More Recipes" button is on screen and enabled: the list is
      not empty (otherwise only the placeholder renders), there is a next
      page, and no load is in flight. */
  predicate CanLoadMore(s: State) {
    |s.recipes| > 0 && s.hasNextPage && !s.isLoading
  }

  datatype Button = Button(caption: string, disabled: bool)

  datatype View =
    | Placeholder(text: string)
    | Grid(cards: seq<RecipeSummary>, button: Option<Button>)

  /** What the component renders: the placeholder alone for an empty list;
      otherwise one card per recipe in order, and the button only while
      there is a next page, disabled and relabelled during a load. */
  function Render(s: State): (v: View)
    ensures v.Placeholder? <==> s.recipes == []
    ensures v.Placeholder? ==> v.text == "No recipes posted yet."
    ensures v.Grid? ==> v.cards == s.recipes && (v.button.Some? <==> s.hasNextPage)
    ensures v.Grid? && v.button.Some? ==> v.button.value.disabled == s.isLoading
  {
    if s.recipes == [] then Placeholder("No recipes posted yet.")
    else Grid(s.recipes,
              if s.hasNextPage
              then Some(Button(if s.isLoading then "Loading..." else "Load More Recipes", s.isLoading))
              else None)
  }

  /** The handler can be reached exactly when the rendered view holds an
      enabled button. */
  lemma CanLoadMoreIffEnabledButton(s: State)
    ensures CanLoadMore(s) <==> Render(s).Grid? && Render(s).button.Some? && !Render(s).button.value.disabled
  {
  }

  /** `setIsLoading(true)`, before the request goes out. */
  function Begin(s: State): (r: State)
    requires CanLoadMore(s)
    ensures r.isLoading && !CanLoadMore(r)
    ensures r.recipes == s.recipes && r.cursor == s.cursor && r.hasNextPage == s.hasNextPage
  {
    s.(isLoading := true)
  }

  /** The request the handler sends, `getAllRecipesForHome(cursor)`, and
      what it resolves to. The cursor does not reach the request, and
      without an endpoint the call throws before sending anything. */
  function NextPage(endpoint: Option<string>, s: State, reply: Reply<HomeData>): (c: Call<Option<Connection>>)
    ensures c.sent.Some? <==> Configured(endpoint)
    ensures c.sent.Some? ==> c.sent.value.body == RequestBody(AllRecipesQuery, None)
    ensures !Configured(endpoint) ==> c.result == Err(FetchFailed(NotConfigured))
  {
    GetAllRecipesForHome(endpoint, s.cursor, reply)
  }

  /** The rest of the handler once the fetch resolved: the new nodes go after
      the old recipes, cursor and `hasNextPage` are overwritten from the
      response (never kept from before), and the load is over. */
  function Complete(s: State, page: Option<Connection>): (r: State)
    ensures r.recipes == s.recipes + NodesOr(page)
    ensures r.cursor == CursorOr(page) && r.hasNextPage == HasNextOr(page)
    ensures !r.isLoading
  {
    State(s.recipes + NodesOr(page), CursorOr(page), HasNextOr(page), false)
  }

  /** The whole `loadMoreRecipes` handler. On success the old recipes are a
      prefix of the new list, which is longer by exactly the page's node
      count; on a thrown fetch nothing after the `await` runs, so the list,
      cursor and flag are untouched and `isLoading` stays `true`. */
  function LoadMore(s: State, outcome: Result<Option<Connection>, Failure>): (r: State)
    requires CanLoadMore(s)
    ensures |s.recipes| <= |r.recipes| && r.recipes[..|s.recipes|] == s.recipes
    ensures outcome.Ok? ==> |r.recipes| == |s.recipes| + |NodesOr(outcome.value)|
    ensures outcome.Ok? ==> r.recipes[|s.recipes|..] == NodesOr(outcome.value)
    ensures outcome.Ok? && (outcome.value.None? || outcome.value.value.nodes.None?) ==> r.recipes == s.recipes
    ensures outcome.Ok? ==> r.cursor == CursorOr(outcome.value) && r.hasNextPage == HasNextOr(outcome.value)
    ensures outcome.Ok? ==> !r.isLoading
    ensures outcome.Err? ==> r.recipes == s.recipes && r.cursor == s.cursor && r.hasNextPage == s.hasNextPage
    ensures outcome.Err? ==> r.isLoading
  {
    match outcome
    case Ok(page) => Complete(Begin(s), page)
    case Err(_) => Begin(s)
  }

  /** The component runs in the browser, where the endpoint setting is not a
      public variable and reads as absent. Every click there throws before
      anything is sent, and the button stays disabled, reading
      "Loading...". */
  lemma ClientClickNeverLoads(s: State, reply: Reply<HomeData>)
    requires CanLoadMore(s)
    ensures NextPage(None, s, reply).sent.None?
    ensures var r := LoadMore(s, NextPage(None, s, reply).result);
            && r.isLoading && r.recipes == s.recipes && !CanLoadMore(r)
            && Render(r) == Grid(s.recipes, Some(Button("Loading...", true)))
  {
  }

  /** Where the endpoint is visible, a click with the corrected request
      sends it and appends the page the CMS delivers, and the load ends. */
  lemma ConfiguredClickLoads(endpoint: Option<string>, s: State, reply: Reply<HomeData>, home: HomeData)
    requires Configured(endpoint) && CanLoadMore(s) && Delivers(endpoint, reply, Some(home))
    ensures NextPageWithCursor(endpoint, s, reply).sent.Some?
    ensures var r := LoadMore(s, NextPageWithCursor(endpoint, s, reply).result);
            && !r.isLoading && r.recipes == s.recipes + NodesOr(home.recipes)
  {
  }

  /** After two loads from different states, the cursor and flag depend only
      on the response: overwrite, not merge. */
  lemma CursorOverwritten(s1: State, s2: State, page: Option<Connection>)
    requires CanLoadMore(s1) && CanLoadMore(s2)
    ensures LoadMore(s1, Ok(page)).cursor == LoadMore(s2, Ok(page)).cursor
    ensures LoadMore(s1, Ok(page)).hasNextPage == LoadMore(s2, Ok(page)).hasNextPage
  {
  }

  /** Resets applied one after another, as the parent passes new
      snapshots. */
  function ResetAll(s: State, snapshots: seq<Option<Connection>>): State
    decreases |snapshots|
  {
    if snapshots == [] then s else ResetAll(Reset(s, snapshots[0]), snapshots[1..])
  }

  /** A failed load leaves the button disabled for good: no later snapshot
      re-enables it, because a reset never clears `isLoading`. */
  lemma {:induction false} FailedLoadDisablesForever(s: State, failure: Failure, snapshots: seq<Option<Connection>>)
    requires CanLoadMore(s)
    ensures ResetAll(LoadMore(s, Err(failure)), snapshots).isLoading
    ensures !CanLoadMore(ResetAll(LoadMore(s, Err(failure)), snapshots))
  {
    StaysLoading(LoadMore(s, Err(failure)), snapshots);
  }

  lemma {:induction false} StaysLoading(s: State, snapshots: seq<Option<Connection>>)
    requires s.isLoading
    ensures ResetAll(s, snapshots).isLoading
    decreases |snapshots|
  {
    if snapshots != [] {
      StaysLoading(Reset(s, snapshots[0]), snapshots[1..]);
    }
  }

  /** A sequence of clicks on the button, each answered by one fetch
      outcome. A click while the button is hidden or disabled does
      nothing. */
  function Clicks(s: State, outcomes: seq<Result<Option<Connection>, Failure>>): State
    decreases |outcomes|
  {
    if outcomes == [] then s
    else Clicks(if CanLoadMore(s) then LoadMore(s, outcomes[0]) else s, outcomes[1..])
  }

  /** Whatever the clicks and outcomes, recipes are only ever appended. */
  lemma {:induction false} ClicksAppendOnly(s: State, outcomes: seq<Result<Option<Connection>, Failure>>)
    ensures |s.recipes| <= |Clicks(s, outcomes).recipes|
    ensures Clicks(s, outcomes).recipes[..|s.recipes|] == s.recipes
    decreases |outcomes|
  {
    if outcomes != [] {
      var next := if CanLoadMore(s) then LoadMore(s, outcomes[0]) else s;
      ClicksAppendOnly(next, outcomes[1..]);
      var final := Clicks(next, outcomes[1..]).recipes;
      assert final[..|s.recipes|] == final[..|next.recipes|][..|s.recipes|];
    }
  }

  /** Once the button is gone or disabled, clicking changes nothing. */
  lemma {:induction false} ClicksWhenDisabled(s: State, outcomes: seq<Result<Option<Connection>, Failure>>)
    requires !CanLoadMore(s)
    ensures Clicks(s, outcomes) == s
    decreases |outcomes|
  {
    if outcomes != [] {
      ClicksWhenDisabled(s, outcomes[1..]);
    }
  }

  /** The nodes of the successful responses of a run, in order. */
  function AllNodes(outcomes: seq<Result<Option<Connection>, Failure>>): seq<RecipeSummary>
    decreases |outcomes|
  {
    if outcomes == [] then []
    else (if outcomes[0].Ok? then NodesOr(outcomes[0].value) else []) + AllNodes(outcomes[1..])
  }

  /** Every outcome is a successful load, and every page but the last
      announces a next page. */
  predicate SuccessfulRun(outcomes: seq<Result<Option<Connection>, Failure>>) {
    && (forall i :: 0 <= i < |outcomes| ==> outcomes[i].Ok?)
    && (forall i :: 0 <= i < |outcomes| - 1 ==> outcomes[i].Ok? && HasNextOr(outcomes[i].value))
  }

  /** Successful loads, each but the last announcing a next page, leave the
      initial recipes followed by every page's nodes in order. */
  lemma {:induction false} SuccessfulLoadsConcatenate(s: State, outcomes: seq<Result<Option<Connection>, Failure>>)
    requires CanLoadMore(s)
    requires SuccessfulRun(outcomes)
    ensures Clicks(s, outcomes).recipes == s.recipes + AllNodes(outcomes)
    decreases |outcomes|
  {
    if outcomes != [] {
      SucceedingTail(outcomes);
      var page := outcomes[0].value;
      var rest := outcomes[1..];
      var next := FirstLoad(s, outcomes);
      assert AllNodes(outcomes) == NodesOr(page) + AllNodes(rest);
      if rest != [] {
        SuccessfulLoadsConcatenate(next, rest);
      } else {
        assert Clicks(next, rest) == next;
      }
      Seqs.AppendAssoc(s.recipes, NodesOr(page), AllNodes(rest));
    }
  }

  /** The first successful load of a run: the state it leads to, from which
      the remaining clicks proceed. */
  lemma FirstLoad(s: State, outcomes: seq<Result<Option<Connection>, Failure>>) returns (next: State)
    requires CanLoadMore(s) && |outcomes| >= 1 && outcomes[0].Ok?
    requires |outcomes| > 1 ==> HasNextOr(outcomes[0].value)
    ensures next.recipes == s.recipes + NodesOr(outcomes[0].value)
    ensures |outcomes| > 1 ==> CanLoadMore(next)
    ensures Clicks(s, outcomes) == Clicks(next, outcomes[1..])
  {
    next := Complete(Begin(s), outcomes[0].value);
    assert LoadMore(s, outcomes[0]) == next;
  }

  lemma SucceedingTail(outcomes: seq<Result<Option<Connection>, Failure>>)
    requires |outcomes| >= 1 && SuccessfulRun(outcomes)
    ensures outcomes[0].Ok? && (|outcomes| > 1 ==> HasNextOr(outcomes[0].value))
    ensures SuccessfulRun(outcomes[1..])
  {
    forall i | 0 <= i < |outcomes[1..]| ensures outcomes[1..][i] == outcomes[i + 1] {
    }
  }

  /** A snapshot of nine recipes with a next page, then one load answered
      with nine more and no next page: eighteen recipes in order, and the
      button is gone. */
  lemma TwoPageScenario(first: seq<RecipeSummary>, second: seq<RecipeSummary>)
    requires |first| == 9 && |second| == 9
    ensures var s0 := Init(Some(Connection(Some(PageInfo(Some(true), Some("c9"))), Some(first))));
            var s1 := LoadMore(s0, Ok(Some(Connection(Some(PageInfo(Some(false), Some("c18"))), Some(second)))));
            && CanLoadMore(s0)
            && s1.recipes == first + second && |s1.recipes| == 18
            && s1.cursor == "c18" && !s1.hasNextPage
            && !CanLoadMore(s1) && Render(s1).Grid? && Render(s1).button.None?
  {
  }

  /** The handler passes its cursor to `getAllRecipesForHome`, which does
      not send it: every load requests the first page again. Against a
      server that answers a request the same way each time, loading from a
      first page that says there is more appends that same first page a
      second time. */
  lemma LoadMoreRepeatsFirstPage(endpoint: Option<string>, serve: Request -> Reply<HomeData>, first: Connection)
    requires Configured(endpoint)
    requires GetAllRecipesForHome(endpoint, "", serve(Request(endpoint.value, "POST", JsonMediaType, RequestBody(AllRecipesQuery, None)))).result
             == Ok(Some(first))
    requires first.nodes.Some? && first.nodes.value != [] && HasNextOr(Some(first))
    ensures var s := Init(Some(first));
            var call := NextPage(endpoint, s, serve(Request(endpoint.value, "POST", JsonMediaType, RequestBody(AllRecipesQuery, None))));
            && call.sent == Some(Request(endpoint.value, "POST", JsonMediaType, RequestBody(AllRecipesQuery, None)))
            && CanLoadMore(s)
            && LoadMore(s, call.result).recipes == first.nodes.value + first.nodes.value
  {
    var req := Request(endpoint.value, "POST", JsonMediaType, RequestBody(AllRecipesQuery, None));
    var s := Init(Some(first));
    HomeIgnoresCursor(endpoint, s.cursor, "", serve(req));
  }

  /** The handler with the evidently intended request: the cursor of the
      current state is sent as `after`. */
  function NextPageWithCursor(endpoint: Option<string>, s: State, reply: Reply<HomeData>): (c: Call<Option<Connection>>)
    ensures c.sent.Some? ==> c.sent.value.body == RequestBody(AllRecipesQuery, Some(Js.Obj(map["after" := Js.Str(s.cursor)])))
  {
    GetAllRecipesForHomeWithCursor(endpoint, s.cursor, reply)
  }

  /** With the corrected request, states at different cursors ask for
      different pages. */
  lemma NextPageFollowsCursor(endpoint: Option<string>, s1: State, s2: State, reply: Reply<HomeData>)
    requires Configured(endpoint) && s1.cursor != s2.cursor
    ensures NextPageWithCursor(endpoint, s1, reply).sent != NextPageWithCursor(endpoint, s2, reply).sent
  {
    CursorReachesRequest(endpoint, s1.cursor, s2.cursor, reply);
  }
}
