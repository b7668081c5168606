/** The search results page (src/app/search/page.tsx): the `q` query
    parameter, the search it triggers, and the heading and message shown
    with the results. */
module SearchPage {
  import opened Wrappers
  import opened Api

  const NoMatch: string := "Sorry, no recipes found matching your search. Please try another keyword."
  const EnterTerm: string := "Please enter a search term."

  /** The rendered page: what was sent to the CMS, the heading, the recipes
      shown and the message shown instead of an empty grid. `Crashed` is
      the page throwing while rendering. */
  datatype Page =
    | Shown(sent: Option<Request>, heading: string, recipes: seq<RecipeSummary>, message: Option<string>)
    | Crashed(sent: Option<Request>)

  /** `q ?? ""`. */
  function Term(q: Option<string>): (t: string)
    ensures q.Some? ==> t == q.value
    ensures q.None? ==> t == ""
  {
    q.GetOr("")
  }

  /** `Search Results {term && <>for: "{term}"</>}`. */
  function Heading(term: string): (h: string)
    ensures term == "" ==> h == "Search Results "
    ensures term != "" ==> h == "Search Results " + "for: \"" + term + "\""
  {
    "Search Results " + (if term == "" then "" else "for: \"" + term + "\"")
  }

  /** The text under an empty result: a prompt when nothing was asked, and
      the no-match text when a search found nothing. */
  function EmptyMessage(term: string): (m: string)
    ensures m == EnterTerm <==> term == ""
    ensures m == NoMatch <==> term != ""
  {
    if term == "" then EnterTerm else NoMatch
  }

  /** `SearchPage({searchParams})` for the endpoint setting and the CMS's
      reply to the search. An empty term sends nothing. A search that
      throws is logged and shows no results. A search that resolves to
      `undefined` or `null` (no `data`, or no `nodes`) is assigned as is,
      and reading its `length` outside the `try` throws. */
  function Render(endpoint: Option<string>, q: Option<string>, reply: Reply<SearchData>): (p: Page)
    ensures Term(q) == "" ==> p == Shown(None, Heading(""), [], Some(EnterTerm))
    ensures Term(q) != "" ==> p.sent == SearchRecipes(endpoint, Term(q), reply).sent
    ensures Term(q) != "" && SearchRecipes(endpoint, Term(q), reply).result.Err? ==>
      p == Shown(p.sent, Heading(Term(q)), [], Some(NoMatch))
    ensures p.Crashed? <==> Term(q) != "" && SearchRecipes(endpoint, Term(q), reply).result == Ok(None)
    ensures forall xs :: Term(q) != "" && SearchRecipes(endpoint, Term(q), reply).result == Ok(Some(xs)) ==>
      p.Shown? && p.recipes == xs && p.heading == Heading(Term(q))
    ensures p.Shown? ==> (p.message.Some? <==> p.recipes == []) && (p.message.Some? ==> p.message.value == EmptyMessage(Term(q)))
  {
    var term := Term(q);
    if term == "" then Shown(None, Heading(term), [], Some(EmptyMessage(term)))
    else
      var c := SearchRecipes(endpoint, term, reply);
      match c.result
      case Err(_) => Shown(c.sent, Heading(term), [], Some(EmptyMessage(term)))
      case Ok(None) => Crashed(c.sent)
      case Ok(Some(xs)) => Shown(c.sent, Heading(term), xs, if xs == [] then Some(EmptyMessage(term)) else None)
  }

  /** Failures are swallowed: whatever goes wrong in the search itself
      (no endpoint, a bad reply, GraphQL errors, or `data` without
      `recipes`, whose `nodes` cannot be read), the page still renders,
      with the no-match message. */
  lemma FailedSearchLooksEmpty(endpoint: Option<string>, term: string, reply: Reply<SearchData>)
    requires term != ""
    requires || !Configured(endpoint)
             || Classify(reply).Err?
             || (Classify(reply).Ok? && Classify(reply).value.Some? && Classify(reply).value.value.recipes.None?)
    ensures Render(endpoint, Some(term), reply).Shown?
    ensures Render(endpoint, Some(term), reply).recipes == []
    ensures Render(endpoint, Some(term), reply).message == Some(NoMatch)
  {
  }

  /** A reply whose `data` is `null` is not a failure of the search, so it
      is not swallowed: the page throws. */
  lemma NullDataCrashes(endpoint: Option<string>, term: string, reply: Reply<SearchData>)
    requires term != "" && Delivers(endpoint, reply, None)
    ensures Render(endpoint, Some(term), reply).Crashed?
  {
  }
}
