/** The data access layer of the site (src/lib/api.ts): one entry point,
    `fetchAPI`, that POSTs a GraphQL query and either returns the `data` of
    the reply or throws, and the query wrappers that build variables for it
    and pick fields out of its `data`.

    The network round trip is not performed: the endpoint's reply is a
    parameter, and what the model computes is the request that would be
    sent (if any) and the outcome the caller would see. A thrown error is
    `Err`. Query documents are opaque strings, represented by their
    operation signature. */
module Api {
  import opened Wrappers
  import opened Js
  import Text

  // ---------------------------------------------------------------------
  // Data shapes of the CMS (every field may be missing)
  // ---------------------------------------------------------------------

  datatype PageInfo = PageInfo(hasNextPage: Option<bool>, endCursor: Option<string>)

  /** A recipe as a list node: the card fields the core reads. The other
      fields of the node are not modelled. */
  datatype RecipeSummary = RecipeSummary(id: string, slug: string, title: string)

  /** A single recipe as `getRecipeBySlug` returns it (abridged). */
  datatype Recipe = Recipe(title: Option<string>, content: Option<string>, databaseId: Option<int>)

  /** A static page as `getPageBySlug` returns it (abridged). */
  datatype Page = Page(title: Option<string>)

  /** A GraphQL connection: one page of nodes and its paging information. */
  datatype Connection = Connection(pageInfo: Option<PageInfo>, nodes: Option<seq<RecipeSummary>>)

  // ---------------------------------------------------------------------
  // fetchAPI
  // ---------------------------------------------------------------------

  /** A reply body that parsed as JSON. An object is described by its
      `errors` member (any JSON value, absent being `Undefined`) and its
      `data` member (absent or `null` being `None`). The document `null`
      is kept apart, because reading a member of it throws; any other
      non-object document (a number, string, boolean or array) has neither
      member, so both read as `undefined`. */
  datatype JsonBody<D> =
    | JsonBody(errors: Value, data: Option<D>)
    | NullDocument
    | NonObjectDocument

  /** What the transport delivers for one POST: either `fetch` rejects, or
      a response arrives with a status, an optional `content-type` header
      and a body that may fail to parse as JSON (`None`). */
  datatype Reply<D> =
    | NetworkFailure
    | Received(status: int, contentType: Option<string>, body: Option<JsonBody<D>>)

  /** The reasons `fetchAPI` throws. */
  datatype FetchError =
    | NotConfigured
    | NetworkError
    | NotJson(status: int)
    | MalformedJson
    | NullMemberRead
    | GraphQLErrors(errors: Value)

  /** The HTTP request `fetchAPI` sends; `body` is the JSON document. */
  datatype Request = Request(url: string, verb: string, contentType: string, body: Value)

  /** The request sent, if any, and the outcome of one `fetchAPI` call. */
  datatype Exchange<D> = Exchange(sent: Option<Request>, outcome: Result<Option<D>, FetchError>)

  const JsonMediaType: string := "application/json"

  /** The endpoint setting is present and not the empty string. */
  predicate Configured(endpoint: Option<string>) {
    endpoint.Some? && endpoint.value != ""
  }

  /** The reply declares JSON: a `content-type` header containing
      `application/json` anywhere (so parameters such as a charset are
      accepted, and the test is case-sensitive). */
  predicate DeclaresJson(contentType: Option<string>) {
    contentType.Some? && Text.Includes(contentType.value, JsonMediaType)
  }

  /** `JSON.stringify({query, variables})`: a `variables` member appears
      only when variables were given, since `undefined` members are
      dropped. */
  function RequestBody(query: string, variables: Option<Value>): (b: Value)
    ensures b.Obj? && "query" in b.fields && b.fields["query"] == Str(query)
    ensures variables.None? ==> b.fields.Keys == {"query"}
    ensures variables.Some? ==> b.fields.Keys == {"query", "variables"} && b.fields["variables"] == variables.value
  {
    match variables
    case None => Obj(map["query" := Str(query)])
    case Some(v) => Obj(map["query" := Str(query), "variables" := v])
  }

  /** How `fetchAPI` judges a reply once the request has been sent. */
  function Classify<D>(reply: Reply<D>): (r: Result<Option<D>, FetchError>)
    ensures r.Ok? <==>
      && reply.Received? && DeclaresJson(reply.contentType) && reply.body.Some?
      && (reply.body.value.NonObjectDocument? || (reply.body.value.JsonBody? && !Truthy(reply.body.value.errors)))
    ensures r.Ok? && reply.body.value.JsonBody? ==> r.value == reply.body.value.data
    ensures r.Ok? && reply.body.value.NonObjectDocument? ==> r.value.None?
    ensures reply.NetworkFailure? ==> r == Err(NetworkError)
    ensures reply.Received? && !DeclaresJson(reply.contentType) ==> r == Err(NotJson(reply.status))
    ensures reply.Received? && DeclaresJson(reply.contentType) && reply.body.None? ==> r == Err(MalformedJson)
    ensures reply.Received? && DeclaresJson(reply.contentType) && reply.body == Some(NullDocument) ==> r == Err(NullMemberRead)
    ensures reply.Received? && DeclaresJson(reply.contentType) && reply.body.Some? && reply.body.value.JsonBody?
            && Truthy(reply.body.value.errors)
            ==> r == Err(GraphQLErrors(reply.body.value.errors))
  {
    match reply
    case NetworkFailure => Err(NetworkError)
    case Received(status, contentType, body) =>
      if !DeclaresJson(contentType) then Err(NotJson(status))
      else match body
        case None => Err(MalformedJson)
        case Some(NullDocument) => Err(NullMemberRead)
        case Some(NonObjectDocument) => Ok(None)
        case Some(JsonBody(errors, data)) =>
          if Truthy(errors) then Err(GraphQLErrors(errors)) else Ok(data)
  }

  /** `fetchAPI(query, {variables})`. Without an endpoint it throws before
      sending anything; otherwise it POSTs `{query, variables}` as JSON to
      the endpoint and classifies the reply. */
  function FetchApi<D>(endpoint: Option<string>, query: string, variables: Option<Value>, reply: Reply<D>): (x: Exchange<D>)
    ensures x.sent.None? <==> !Configured(endpoint)
    ensures !Configured(endpoint) ==> x.outcome == Err(NotConfigured)
    ensures x.sent.Some? ==>
      && x.sent.value.url == endpoint.value
      && x.sent.value.verb == "POST"
      && x.sent.value.contentType == JsonMediaType
      && x.sent.value.body == RequestBody(query, variables)
    ensures Configured(endpoint) ==> x.outcome == Classify(reply)
  {
    if !Configured(endpoint) then
      Exchange(None, Err(NotConfigured))
    else
      Exchange(Some(Request(endpoint.value, "POST", JsonMediaType, RequestBody(query, variables))), Classify(reply))
  }

  /** An `errors` member that is truthy makes the call throw even when the
      reply also carries `data`; an empty `errors` array is truthy. */
  lemma ErrorsOverrideData<D>(endpoint: Option<string>, query: string, variables: Option<Value>,
                              status: int, contentType: string, errors: Value, data: D)
    requires Configured(endpoint) && Text.Includes(contentType, JsonMediaType)
    requires Truthy(errors)
    ensures FetchApi(endpoint, query, variables, Received(status, Some(contentType), Some(JsonBody(errors, Some(data))))).outcome
            == Err(GraphQLErrors(errors))
  {
  }

  lemma EmptyErrorListFails<D>(endpoint: Option<string>, query: string, variables: Option<Value>, data: Option<D>)
    requires Configured(endpoint)
    ensures FetchApi(endpoint, query, variables, Received(200, Some(JsonMediaType), Some(JsonBody(Arr([]), data)))).outcome
            == Err(GraphQLErrors(Arr([])))
  {
    assert Text.StartsWith(JsonMediaType, JsonMediaType);
  }

  /** A reply with a parameterised JSON media type is accepted; the same
      type in capitals is not. */
  lemma ContentTypeMatching()
    ensures DeclaresJson(Some("application/json; charset=utf-8"))
    ensures !DeclaresJson(Some("Application/JSON"))
    ensures !DeclaresJson(None)
  {
    assert Text.StartsWith("application/json; charset=utf-8", JsonMediaType);
    assert !Text.Includes("Application/JSON", JsonMediaType) by {
      forall i ensures !Text.OccursAt("Application/JSON", JsonMediaType, i) {
        if 0 <= i && i + |JsonMediaType| <= |"Application/JSON"| {
          assert i == 0;
          assert "Application/JSON"[0] != JsonMediaType[0];
        }
      }
    }
  }

  // ---------------------------------------------------------------------
  // Query wrappers
  // ---------------------------------------------------------------------

  /** Why a wrapper throws: `fetchAPI` threw, or a property was read from
      `null`/`undefined` while picking fields out of `data`. */
  datatype Failure = FetchFailed(cause: FetchError) | TypeError

  /** The request a wrapper sends, if any, and what it resolves to. */
  datatype Call<T> = Call(sent: Option<Request>, result: Result<T, Failure>)

  const AllRecipesQuery: string := "query AllRecipes($after: String)"
  const RecipeBySlugQuery: string := "query GetRecipeBySlug($id: ID!)"
  const RecipesByCategoryQuery: string := "query GetRecipesByCategory($categoryName: String!, $slug: ID!)"
  const SearchRecipesQuery: string := "query SearchRecipes($search: String!)"
  const PageBySlugQuery: string := "query GetPageBySlug($id: ID!)"

  /** Runs the field extraction on a successful `fetchAPI`, passing its
      failure through otherwise. */
  function Then<D, T>(x: Exchange<D>, extract: Option<D> -> Result<T, Failure>): (c: Call<T>)
    ensures c.sent == x.sent
    ensures x.outcome.Err? ==> c.result == Err(FetchFailed(x.outcome.error))
    ensures x.outcome.Ok? ==> c.result == extract(x.outcome.value)
  {
    match x.outcome
    case Err(e) => Call(x.sent, Err(FetchFailed(e)))
    case Ok(d) => Call(x.sent, extract(d))
  }

  /** The successful `data` of a reply, as `fetchAPI` would return it. */
  predicate Delivers<D(==)>(endpoint: Option<string>, reply: Reply<D>, data: Option<D>) {
    Configured(endpoint) && Classify(reply) == Ok(data)
  }

  /** Every way `fetchAPI` can throw reaches the wrapper's caller as the
      same failure. */
  predicate PassesFailure<D, T>(endpoint: Option<string>, reply: Reply<D>, c: Call<T>) {
    && (!Configured(endpoint) ==> c.result == Err(FetchFailed(NotConfigured)))
    && (Configured(endpoint) && Classify(reply).Err? ==> c.result == Err(FetchFailed(Classify(reply).error)))
  }

  /** `c?.nodes || []`, and equally `c?.nodes ?? []` since an array is
      never falsy: the nodes of a connection, none when it or they are
      missing. */
  function NodesOr(c: Option<Connection>): seq<RecipeSummary> {
    if c.Some? && c.value.nodes.Some? then c.value.nodes.value else []
  }

  datatype HomeData = HomeData(recipes: Option<Connection>)

  /** `getAllRecipesForHome(after)`: the first nine recipes newest first,
      i.e. `data?.recipes`. The `after` argument is accepted but NOT sent:
      the call passes no variables at all. */
  function GetAllRecipesForHome(endpoint: Option<string>, after: string, reply: Reply<HomeData>): (c: Call<Option<Connection>>)
    ensures c.sent.Some? <==> Configured(endpoint)
    ensures c.sent.Some? ==> c.sent.value.body == RequestBody(AllRecipesQuery, None)
    ensures PassesFailure(endpoint, reply, c)
    ensures Delivers(endpoint, reply, None) ==> c.result == Ok(None)
    ensures forall home :: Delivers(endpoint, reply, Some(home)) ==> c.result == Ok(home.recipes)
  {
    Then(FetchApi(endpoint, AllRecipesQuery, None, reply),
         (d: Option<HomeData>) => Ok(if d.Some? then d.value.recipes else None))
  }

  /** The `after` argument never reaches the request: two calls that differ
      only in it send the same request and resolve to the same value. */
  lemma HomeIgnoresCursor(endpoint: Option<string>, after1: string, after2: string, reply: Reply<HomeData>)
    ensures GetAllRecipesForHome(endpoint, after1, reply) == GetAllRecipesForHome(endpoint, after2, reply)
  {
  }

  /** The evidently intended `getAllRecipesForHome(after)`: the same query,
      with `{after}` as its variables. */
  function GetAllRecipesForHomeWithCursor(endpoint: Option<string>, after: string, reply: Reply<HomeData>): (c: Call<Option<Connection>>)
    ensures c.sent.Some? <==> Configured(endpoint)
    ensures c.sent.Some? ==> c.sent.value.body == RequestBody(AllRecipesQuery, Some(Obj(map["after" := Str(after)])))
    ensures PassesFailure(endpoint, reply, c)
    ensures Delivers(endpoint, reply, None) ==> c.result == Ok(None)
    ensures forall home :: Delivers(endpoint, reply, Some(home)) ==> c.result == Ok(home.recipes)
  {
    Then(FetchApi(endpoint, AllRecipesQuery, Some(Obj(map["after" := Str(after)])), reply),
         (d: Option<HomeData>) => Ok(if d.Some? then d.value.recipes else None))
  }

  /** With the cursor sent, different cursors make different requests, so
      the server can answer each with the page that follows it. */
  lemma CursorReachesRequest(endpoint: Option<string>, after1: string, after2: string, reply: Reply<HomeData>)
    requires Configured(endpoint) && after1 != after2
    ensures GetAllRecipesForHomeWithCursor(endpoint, after1, reply).sent
            != GetAllRecipesForHomeWithCursor(endpoint, after2, reply).sent
  {
    var b1 := GetAllRecipesForHomeWithCursor(endpoint, after1, reply).sent.value.body;
    var b2 := GetAllRecipesForHomeWithCursor(endpoint, after2, reply).sent.value.body;
    assert b1.fields["variables"].fields["after"] != b2.fields["variables"].fields["after"];
  }

  datatype RecipeData = RecipeData(recipe: Option<Recipe>)

  /** `getRecipeBySlug(slug)`: sends `{id: slug}` and resolves to
      `data?.recipe`, which is undefined (not an error) when `data` is
      null. */
  function GetRecipeBySlug(endpoint: Option<string>, slug: string, reply: Reply<RecipeData>): (c: Call<Option<Recipe>>)
    ensures c.sent.Some? <==> Configured(endpoint)
    ensures c.sent.Some? ==> c.sent.value.body == RequestBody(RecipeBySlugQuery, Some(Obj(map["id" := Str(slug)])))
    ensures PassesFailure(endpoint, reply, c)
    ensures Delivers(endpoint, reply, None) ==> c.result == Ok(None)
    ensures forall d :: Delivers(endpoint, reply, Some(d)) ==> c.result == Ok(d.recipe)
  {
    Then(FetchApi(endpoint, RecipeBySlugQuery, Some(Obj(map["id" := Str(slug)])), reply),
         (d: Option<RecipeData>) => Ok(if d.Some? then d.value.recipe else None))
  }

  datatype Category = Category(name: Option<string>)
  datatype CategoryData = CategoryData(recipes: Option<Connection>, category: Option<Category>)
  datatype CategoryResult = CategoryResult(recipes: Option<seq<RecipeSummary>>, categoryName: Option<string>)

  /** `getRecipesByCategory(slug)` as written: the slug is sent twice, as
      `categoryName` and as `slug`, and the result is
      `{recipes: data?.recipes.nodes, categoryName: data?.category.name}`.
      Only `data` is guarded, so a null `recipes` or `category` throws. */
  function GetRecipesByCategory(endpoint: Option<string>, slug: string, reply: Reply<CategoryData>): (c: Call<CategoryResult>)
    ensures c.sent.Some? <==> Configured(endpoint)
    ensures c.sent.Some? ==>
      c.sent.value.body == RequestBody(RecipesByCategoryQuery, Some(Obj(map["categoryName" := Str(slug), "slug" := Str(slug)])))
    ensures PassesFailure(endpoint, reply, c)
    ensures Delivers(endpoint, reply, None) ==> c.result == Ok(CategoryResult(None, None))
    ensures forall d :: Delivers(endpoint, reply, Some(d)) ==>
      (c.result.Ok? <==> d.recipes.Some? && d.category.Some?)
    ensures forall d :: Delivers(endpoint, reply, Some(d)) && d.recipes.Some? && d.category.Some? ==>
      c.result == Ok(CategoryResult(d.recipes.value.nodes, d.category.value.name))
    ensures forall d :: Delivers(endpoint, reply, Some(d)) && (d.recipes.None? || d.category.None?) ==>
      c.result == Err(TypeError)
  {
    Then(FetchApi(endpoint, RecipesByCategoryQuery,
                  Some(Obj(map["categoryName" := Str(slug), "slug" := Str(slug)])), reply),
         (d: Option<CategoryData>) =>
           match d
           case None => Ok(CategoryResult(None, None))
           case Some(cd) =>
             if cd.recipes.None? || cd.category.None? then Err(TypeError)
             else Ok(CategoryResult(cd.recipes.value.nodes, cd.category.value.name)))
  }

  /** A slug that names no category (the CMS answers `category: null`)
      makes the wrapper throw, so a caller that tests the returned
      `categoryName` for "not found" never gets to do so. */
  lemma UnknownCategoryThrows(endpoint: Option<string>, slug: string, recipes: Connection)
    requires Configured(endpoint)
    ensures GetRecipesByCategory(endpoint, slug,
              Received(200, Some(JsonMediaType), Some(JsonBody(Undefined, Some(CategoryData(Some(recipes), None)))))).result
            == Err(TypeError)
  {
    assert Text.StartsWith(JsonMediaType, JsonMediaType);
  }

  /** The evidently intended wrapper, `data?.recipes?.nodes` and
      `data?.category?.name`: same variables, but a missing field is
      undefined instead of a TypeError. */
  function GetRecipesByCategorySafe(endpoint: Option<string>, slug: string, reply: Reply<CategoryData>): (c: Call<CategoryResult>)
    ensures c.sent == GetRecipesByCategory(endpoint, slug, reply).sent
    ensures PassesFailure(endpoint, reply, c)
    ensures forall d :: Delivers(endpoint, reply, d) ==> c.result.Ok?
    ensures forall d :: Delivers(endpoint, reply, Some(d)) && d.category.None? ==> c.result.value.categoryName.None?
    ensures forall d :: Delivers(endpoint, reply, Some(d)) && d.category.Some? ==> c.result.value.categoryName == d.category.value.name
    ensures forall d :: Delivers(endpoint, reply, Some(d)) && d.recipes.Some? ==> c.result.value.recipes == d.recipes.value.nodes
  {
    Then(FetchApi(endpoint, RecipesByCategoryQuery,
                  Some(Obj(map["categoryName" := Str(slug), "slug" := Str(slug)])), reply),
         (d: Option<CategoryData>) =>
           match d
           case None => Ok(CategoryResult(None, None))
           case Some(cd) =>
             Ok(CategoryResult(if cd.recipes.Some? then cd.recipes.value.nodes else None,
                               if cd.category.Some? then cd.category.value.name else None)))
  }

  /** Where the two versions both succeed they agree; the safe one only
      turns the TypeError into "not found". */
  lemma SafeCategoryAgrees(endpoint: Option<string>, slug: string, reply: Reply<CategoryData>)
    ensures GetRecipesByCategory(endpoint, slug, reply).result.Ok? ==>
            GetRecipesByCategorySafe(endpoint, slug, reply).result == GetRecipesByCategory(endpoint, slug, reply).result
    ensures GetRecipesByCategory(endpoint, slug, reply).result == Err(TypeError) ==>
            GetRecipesByCategorySafe(endpoint, slug, reply).result.Ok?
  {
  }

  datatype SearchData = SearchData(recipes: Option<Connection>)

  /** `searchRecipes(term)`: sends `{search: term}` and resolves to
      `data?.recipes.nodes`. */
  function SearchRecipes(endpoint: Option<string>, term: string, reply: Reply<SearchData>): (c: Call<Option<seq<RecipeSummary>>>)
    ensures c.sent.Some? <==> Configured(endpoint)
    ensures c.sent.Some? ==> c.sent.value.body == RequestBody(SearchRecipesQuery, Some(Obj(map["search" := Str(term)])))
    ensures PassesFailure(endpoint, reply, c)
    ensures Delivers(endpoint, reply, None) ==> c.result == Ok(None)
    ensures forall d :: Delivers(endpoint, reply, Some(d)) && d.recipes.None? ==> c.result == Err(TypeError)
    ensures forall d :: Delivers(endpoint, reply, Some(d)) && d.recipes.Some? ==> c.result == Ok(d.recipes.value.nodes)
  {
    Then(FetchApi(endpoint, SearchRecipesQuery, Some(Obj(map["search" := Str(term)])), reply),
         (d: Option<SearchData>) =>
           match d
           case None => Ok(None)
           case Some(sd) => if sd.recipes.None? then Err(TypeError) else Ok(sd.recipes.value.nodes))
  }

  datatype PageData = PageData(page: Option<Page>)

  /** `getPageBySlug(slug)`: sends `{id: slug}` and resolves to
      `data?.page`. */
  function GetPageBySlug(endpoint: Option<string>, slug: string, reply: Reply<PageData>): (c: Call<Option<Page>>)
    ensures c.sent.Some? <==> Configured(endpoint)
    ensures c.sent.Some? ==> c.sent.value.body == RequestBody(PageBySlugQuery, Some(Obj(map["id" := Str(slug)])))
    ensures PassesFailure(endpoint, reply, c)
    ensures Delivers(endpoint, reply, None) ==> c.result == Ok(None)
    ensures forall d :: Delivers(endpoint, reply, Some(d)) ==> c.result == Ok(d.page)
  {
    Then(FetchApi(endpoint, PageBySlugQuery, Some(Obj(map["id" := Str(slug)])), reply),
         (d: Option<PageData>) => Ok(if d.Some? then d.value.page else None))
  }
}
