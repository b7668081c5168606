# Recipe blog front end: a Dafny model of its logic

This project models the logic inside a Next.js front end for a recipe blog
whose content comes from a headless CMS over GraphQL. Most of that
application is rendering. The model covers the small pieces of real logic
inside it and proves properties of them:

- **`fetchAPI` and the query wrappers** (`Api`).
  - How a GraphQL reply is classified: not configured, not JSON, GraphQL
    errors, a `null` document, or data.
  - The variables each wrapper sends and the fields it picks out of `data`.
- **The "load more" recipe list** (`RecipeList`). A snapshot-initialised
  state machine whose pages are appended one at a time.
- **The FAQ field** (`FaqAccordion`). The `Q: …|A: …` line parser and the
  accordion in which at most one item is open.
- **The recipe card** (`RecipeBlock`).
  - The ingredient, instruction and equipment lists cut from text fields.
  - The ingredient checkboxes and the cook-mode switch.
  - The star counts.
- **Comments** (`Comments`, `CommentForm`, `CommentsRoute`).
  - The comment list and its heading.
  - The form's idle → loading → success/error machine, with the optimistic
    pending comment.
  - The server route that validates a comment and forwards it as a
    mutation.
- **Smaller pages and routes**.
  - The revalidation route's token and path checks (`RevalidateRoute`).
  - The search page's term handling (`SearchPage`).
  - The sidebar's three recent recipes (`Sidebar`).

Shared modules:

- `Wrappers`: `Option` and `Result`.
- `Js`: the untyped JSON values the code passes around as `any`, with
  JavaScript truthiness, nullishness, property reads and object spread.
- `Text`: `split`, `includes`, `startsWith`, `trim` with the ECMAScript
  white-space set, and decimal rendering.
- `Http`: the parsed request body and the JSON response of a route.

Every network call, clock reading and framework side effect becomes a
parameter:

- the CMS reply;
- whether `revalidatePath` throws;
- `Date.now()` and the ISO date string.

Each React handler is one atomic transition. An exception is an `Err` or a
dedicated `Unhandled`/`Crashed` case.

`loadMoreRecipes` has no `catch`, so `isLoading` stays `true` after a failed
fetch. A new snapshot does not clear it either. The button therefore stays
disabled for good (`RecipeList.LoadMore`,
`RecipeList.FailedLoadDisablesForever`).

The recipe list is a client component, and it calls `fetchAPI` in the
browser. There the endpoint setting `WORDPRESS_GRAPHQL_ENDPOINT` reads as
absent: it has no `NEXT_PUBLIC_` prefix, and `next.config.ts` declares no
`env`. So on the client the endpoint is `None`, and every click throws
before anything is sent (`RecipeList.ClientClickNeverLoads`). The handler
is still modelled for any endpoint, which is what it does wherever the
setting is visible.

## Model

| member | source | states |
|---|---|---|
| Api.FetchApi | src/lib/api.ts:1-37 | Without a configured (non-empty) endpoint nothing is sent and the call fails with `NotConfigured`. Otherwise exactly one POST of `{query, variables}` as JSON goes to the endpoint, and the outcome is the reply's classification. |
| Api.RequestBody | src/lib/api.ts:13-16 | The JSON body holds `query`, plus `variables` exactly when variables were given, since `undefined` members are dropped by `JSON.stringify`. |
| Api.Classify | src/lib/api.ts:24-36 | Success holds exactly when a reply arrived, declares JSON and parses, and the document is either an object with a falsy `errors` or a non-object other than `null`. The result is then the object's `data`, possibly null, and undefined for a non-object. A failed `fetch` gives `NetworkError`. A missing or non-JSON content type gives `NotJson(status)`, and an unparseable body gives `MalformedJson`. The document `null` gives `NullMemberRead`, since reading `json.errors` throws. Truthy `errors` give `GraphQLErrors`. |
| Api.ContentTypeMatching | src/lib/api.ts:24-25 | `application/json` is found anywhere in the header, so a charset parameter is accepted. The test is case-sensitive, and a missing header fails. |
| Api.ErrorsOverrideData | src/lib/api.ts:32-35 | A truthy `errors` member fails the call even when `data` is present. |
| Api.EmptyErrorListFails | src/lib/api.ts:32-35 | An empty `errors` array is truthy, so it fails the call. |
| Api.Then | src/lib/api.ts:36 | A wrapper's extraction runs only on a successful fetch. Every fetch failure passes through unchanged. |
| Api.GetAllRecipesForHome | src/lib/api.ts:41-74 | The request carries no variables, whatever `after` is. It resolves to `data?.recipes` and passes every fetch failure through. |
| Api.HomeIgnoresCursor | src/lib/api.ts:41-73 | Two calls that differ only in `after` send the same request and give the same result. |
| Api.GetAllRecipesForHomeWithCursor | src/lib/api.ts:41-74 | Corrected wrapper: `{after}` is sent as the variables, with the same extraction. |
| Api.CursorReachesRequest | src/lib/api.ts:44-45 | With the corrected wrapper, different cursors produce different requests. |
| Api.GetRecipeBySlug | src/lib/api.ts:80-140 | Sends `{id: slug}`. It resolves to `data?.recipe`, which is undefined rather than an error when `data` is null. |
| Api.GetRecipesByCategory | src/lib/api.ts:192-229 | The slug is sent as both `categoryName` and `slug`. The result is `{recipes: data?.recipes.nodes, categoryName: data?.category.name}`. It throws a TypeError exactly when `data` is present and `recipes` or `category` is null. |
| Api.UnknownCategoryThrows | src/lib/api.ts:226-229 | A reply with `category: null` makes the wrapper throw instead of returning an empty `categoryName`. |
| Api.GetRecipesByCategorySafe | src/lib/api.ts:226-229 | Corrected wrapper: the same request. Every delivered `data` gives a result, and a missing category gives no name. |
| Api.SafeCategoryAgrees | src/lib/api.ts:226-229 | The corrected wrapper agrees with the original wherever the original succeeds. It succeeds wherever the original throws its TypeError. |
| Api.SearchRecipes | src/lib/api.ts:233-263 | Sends `{search: term}`. It resolves to `data?.recipes.nodes`, throwing when `recipes` is null. |
| Api.GetPageBySlug | src/lib/api.ts:268-294 | Sends `{id: slug}`. It resolves to `data?.page`, which is undefined when `data` is null. |
| RecipeList.Init | src/components/RecipeList.tsx:10-13 | Recipes, cursor and `hasNextPage` come from the snapshot, with the defaults `[]`, `''` and `false`. Nothing is loading. |
| RecipeList.Reset | src/components/RecipeList.tsx:16-20 | A new snapshot replaces the three fields exactly as at mount. `isLoading` is left alone. |
| RecipeList.ResetForgetsHistory | src/components/RecipeList.tsx:16-20 | Two states reset with the same snapshot differ at most in `isLoading`. |
| RecipeList.Render | src/components/RecipeList.tsx:34-56 | An empty list renders only "No recipes posted yet.". Otherwise every recipe renders as a card in order. The button appears exactly when there is a next page and is disabled exactly while loading. |
| RecipeList.CanLoadMoreIffEnabledButton | src/components/RecipeList.tsx:46-50 | The handler is reachable exactly when the rendered view holds an enabled button. |
| RecipeList.Begin | src/components/RecipeList.tsx:24 | Only `isLoading` changes before the request. |
| RecipeList.NextPage | src/components/RecipeList.tsx:25 | The handler's request goes out exactly when the endpoint is configured, and it carries no cursor. Without an endpoint the call fails with `NotConfigured`. |
| RecipeList.ClientClickNeverLoads | src/components/RecipeList.tsx:1-31 | In the browser the endpoint is absent. A click then sends nothing and leaves the list unchanged, with the button disabled and reading "Loading...". |
| RecipeList.ConfiguredClickLoads | src/components/RecipeList.tsx:23-31 | With a visible endpoint and the corrected request, a click sends the request and appends the delivered page, and the load ends. |
| RecipeList.Complete | src/components/RecipeList.tsx:27-30 | The new nodes go after the old recipes. Cursor and flag are overwritten from the response, and loading ends. |
| RecipeList.LoadMore | src/components/RecipeList.tsx:23-31 | On success the old recipes are a prefix of the new list, which grows by exactly the page's node count. Missing nodes leave it unchanged. On a thrown fetch, list, cursor and flag are untouched and `isLoading` stays true. |
| RecipeList.CursorOverwritten | src/components/RecipeList.tsx:28-29 | After a load, cursor and flag depend only on the response, never on the previous state. |
| RecipeList.FailedLoadDisablesForever | src/components/RecipeList.tsx:16-31 | After a failed load, no sequence of new snapshots re-enables the button. |
| RecipeList.ClicksAppendOnly | src/components/RecipeList.tsx:27 | Across any run of clicks and outcomes the original recipes remain a prefix of the list. |
| RecipeList.ClicksWhenDisabled | src/components/RecipeList.tsx:46-50 | Clicks on a hidden or disabled button change nothing. |
| RecipeList.SuccessfulLoadsConcatenate | src/components/RecipeList.tsx:27 | Successful loads, each announcing a next page, leave the initial recipes followed by every page's nodes in order. |
| RecipeList.TwoPageScenario | src/components/RecipeList.tsx:10-31 | Nine recipes with a next page, then one load of nine more without a next page, give the eighteen in order and remove the button. |
| RecipeList.LoadMoreRepeatsFirstPage | src/components/RecipeList.tsx:25 | Since the cursor is not sent, a load against a consistent server appends the first page a second time. |
| RecipeList.NextPageWithCursor | src/components/RecipeList.tsx:25 | Corrected request: the state's cursor is sent as `after`. |
| RecipeList.NextPageFollowsCursor | src/components/RecipeList.tsx:25 | With the corrected request, states with different cursors ask for different pages. |
| FaqAccordion.ParseLine | src/components/FaqAccordion.tsx:24-30 | One qualifying line gives a question and an answer, both free of leading and trailing white space. |
| FaqAccordion.ParseLineSegments | src/components/FaqAccordion.tsx:25 | The question is the text before the first bar and the answer the text up to the next bar. Anything after a second bar is ignored. |
| FaqAccordion.LineFaqs | src/components/FaqAccordion.tsx:23-24 | A line gives at most one pair, and none exactly when it has no bar. |
| FaqAccordion.StripLabel | src/components/FaqAccordion.tsx:28-29 | A segment that starts with the label loses exactly the label and the white space after it, and keeps everything from the first non-space character on. Any other segment is unchanged. |
| FaqAccordion.ParseLines | src/components/FaqAccordion.tsx:22-31 | There are never more pairs than lines. |
| FaqAccordion.Parse | src/components/FaqAccordion.tsx:21-31 | A text with `n` line breaks gives at most `n + 1` pairs. |
| FaqAccordion.NoPairsIffNoBar | src/components/FaqAccordion.tsx:23 | No pair comes out exactly when no line contains a bar. |
| FaqAccordion.ParseOneLine | src/components/FaqAccordion.tsx:22-24 | A single line gives one pair if it contains a bar and none otherwise. |
| FaqAccordion.ParseAcrossLines | src/components/FaqAccordion.tsx:22-24 | The pairs of two texts joined by a line break are those of the first followed by those of the second. Together with the one-line lemma this fixes one pair per qualifying line, in order. |
| FaqAccordion.SkipsLineWithoutBar | src/components/FaqAccordion.tsx:21-31 | A bar-less line between two `Q: q|A: a` lines is dropped, and the two pairs come out in order with their labels removed. |
| FaqAccordion.LabelOnlyAtStart | src/components/FaqAccordion.tsx:28-29 | The label is removed only at the very start: ` A: y` keeps `A:` and loses only the space. |
| FaqAccordion.LabelAndPaddingRemoved | src/components/FaqAccordion.tsx:28-29 | A label at the start goes together with all the white space around the body: `A:  y ` gives `y`. |
| FaqAccordion.CleanLabel | src/components/FaqAccordion.tsx:28-29 | A segment made of the label, a space and a trimmed body cleans to that body. An empty body gives the empty string. |
| FaqAccordion.Render | src/components/FaqAccordion.tsx:34-36 | Nothing renders exactly when no line contains a bar. Otherwise the parsed pairs render. |
| FaqAccordion.Toggle | src/components/FaqAccordion.tsx:38-41 | Clicking the open item closes it, and clicking another opens that one. |
| FaqAccordion.ToggleTwice | src/components/FaqAccordion.tsx:38-41 | Two clicks on the same item restore its state and leave every other item closed. |
| FaqAccordion.OpenIsLastClicked | src/components/FaqAccordion.tsx:18 | Starting from any state, after a run of clicks the open item, if any, is the one clicked last. |
| RecipeBlock.Lines | src/components/RecipeBlock.tsx:86-88 | An absent field gives no lines. No kept line is all white space or holds a line break. |
| RecipeBlock.LinesOfOneLine | src/components/RecipeBlock.tsx:86-88 | A single line is kept, untrimmed, exactly when it is not all white space. |
| RecipeBlock.LinesAcross | src/components/RecipeBlock.tsx:86-88 | The lines of two texts joined by a line break are those of the first followed by those of the second, so order is preserved. |
| RecipeBlock.BlankFieldNoLines | src/components/RecipeBlock.tsx:86-88 | An empty field, or one of white space and line breaks only, gives an empty list. |
| RecipeBlock.KeptSeparated | src/components/RecipeBlock.tsx:86-88 | Filtering blank lines never brings back a line break. |
| RecipeBlock.CookModeLabel | src/components/RecipeBlock.tsx:120-122 | The label reads "Cook Mode On" exactly when cook mode is on. |
| RecipeBlock.Checklist | src/components/RecipeBlock.tsx:156-165 | One entry per ingredient line, in order, each with the state of the checkbox at its position. |
| RecipeBlock.Numbered | src/components/RecipeBlock.tsx:178 | Step k is shown with number k + 1, beside the k-th instruction. |
| RecipeBlock.ToggleChecked | src/components/RecipeBlock.tsx:91-93 | Toggling flips how box i reads, and every other box reads as before. |
| RecipeBlock.ToggleTwice | src/components/RecipeBlock.tsx:36-92 | Toggling twice restores how every box reads. It restores the map itself when the box had been toggled before. |
| RecipeBlock.CheckedIffOddClicks | src/components/RecipeBlock.tsx:91-93 | After a run of clicks a box reads as before, flipped once per click on that box. |
| RecipeBlock.ToggleCookMode | src/components/RecipeBlock.tsx:99-101 | Each press negates cook mode. |
| RecipeBlock.CookModeParity | src/components/RecipeBlock.tsx:38-101 | Cook mode is on exactly after an odd number of presses. |
| RecipeBlock.StarCounts | src/components/RecipeBlock.tsx:7-16 | The counts exist exactly for a rating in [0, 5], a missing rating counting as 0. Full stars are the floor of the rating, and a half star appears exactly for a non-integral rating. Full, half and empty stars add up to five. Outside that range an array length is negative and rendering throws. |
| RecipeBlock.StarsBracketRating | src/components/RecipeBlock.tsx:8-10 | The full stars are the rating rounded down. With the half star they are the rating rounded up. |
| RecipeBlock.StarExamples | src/components/RecipeBlock.tsx:8-16 | 4.5 gives 4/half/0, 5 gives 5/0/0, and a missing rating gives 0/0/5. 5.5 and -0.5 throw. |
| RecipeBlock.Render | src/components/RecipeBlock.tsx:28-195 | No fields render nothing, and a bad rating crashes. Otherwise the card shows equipment only when it has lines, ingredients with their checkbox state by position, numbered steps, the cook-mode label, and notes only when non-empty. |
| Comments.Initial | src/components/Comments.tsx:39 | The list starts as `comments?.nodes`, or `[]` when either is missing. |
| Comments.Submitted | src/components/Comments.tsx:42-44 | A submitted comment becomes the first element, followed by the earlier ones in order. |
| Comments.SubmittedAllPrepends | src/components/Comments.tsx:43 | After any run of submissions the list is the new comments, newest first, followed by the server's comments. |
| Comments.Noun | src/components/Comments.tsx:49 | "Comment" exactly for a count of one, "Comments" otherwise, zero included. |
| Comments.HeadingShowsCount | src/components/Comments.tsx:49 | The heading (`Comments.Heading`) starts with the count in decimal, which reads back as the count, followed by the noun. |
| CommentForm.Begin | src/components/CommentForm.tsx:32 | Submitting sets the status to loading, which disables a second submission, and changes nothing else. |
| CommentForm.RequestBody | src/components/CommentForm.tsx:8-15 | The posted JSON holds exactly `postId`, `author`, `authorEmail` and `content`. |
| CommentForm.FormPassesValidation | src/components/CommentForm.tsx:8-15 | A form that can be sent passes the route's field check exactly when the post id is not 0. |
| CommentForm.FormReachesMutation | src/app/api/comments/route.ts:6-33 | A sendable form with a non-zero post id reaches the CMS, with a configured endpoint, as the `createComment` mutation. Its input holds the post id as `commentOn` and the author, e-mail and content exactly as typed. |
| CommentForm.Pending | src/components/CommentForm.tsx:42-53 | The optimistic comment has id `temp-<now>`, the content wrapped unescaped in `<p>`, the author's name, the placeholder avatar and the pending flag. |
| CommentForm.HandleSubmit | src/components/CommentForm.tsx:30-68 | The callback fires exactly when `result.success` is truthy, and then with the pending comment. The form is then cleared into the success state with the moderation message. Otherwise the status is error and the typed fields are kept. |
| CommentForm.Settle | src/components/CommentForm.tsx:34-67 | As written: the callback fires exactly on a truthy `success`. A failure answer that is not null shows `result.data?.message` or the generic text. |
| CommentForm.SettleWith | src/components/CommentForm.tsx:34-67 | A thrown request, or a null reply, shows "An unexpected error occurred."; a falsy `success` shows the failure message. |
| CommentForm.ErrorMessage | src/components/CommentForm.tsx:62 | The failure message is `result.data?.message` when truthy, and "There was an error." otherwise. |
| CommentForm.SubmissionReachesList | src/components/CommentForm.tsx:54 | A success puts exactly one comment, the pending one, on top of the list. A failure leaves the list unchanged. |
| CommentForm.Render | src/components/CommentForm.tsx:70-101 | In the success state the thank-you note replaces the form. The error message shows only in the error state, and the button is disabled and says "Submitting..." only while loading. |
| CommentForm.SuccessIsFinal | src/components/CommentForm.tsx:70-76 | After a success nothing can be submitted again, and the note shows the moderation message. |
| CommentForm.FailureAllowsRetry | src/components/CommentForm.tsx:56-66 | After a failure the typed fields are kept and the form can be sent again. |
| CommentForm.RouteMessageNeverShown | src/components/CommentForm.tsx:62 | Whatever the route answers, a failure shows only the generic or the unexpected-error text, never the route's message. |
| CommentForm.SettleFixed | src/components/CommentForm.tsx:62 | Corrected reading: the failure message is the reply's top-level `message`. |
| CommentForm.FixedShowsRouteMessage | src/components/CommentForm.tsx:62 | With the corrected reading, every failure answer of the route shows the route's own message. |
| CommentsRoute.Destructure | src/app/api/comments/route.ts:6 | Destructuring the body fails exactly for a null body. Otherwise the four fields are read off it. |
| CommentsRoute.Input | src/app/api/comments/route.ts:27-32 | The mutation input maps `postId` to `commentOn` and passes the other three fields unchanged. |
| CommentsRoute.Post | src/app/api/comments/route.ts:5-48 | A non-JSON or null body escapes the handler. A falsy field (the check `CommentsRoute.Complete` fails) gives 400 "Missing required fields" and nothing is sent. Otherwise the mutation is sent with the mapped input, and a fetch failure gives 500 with the generic message. |
| CommentsRoute.Respond | src/app/api/comments/route.ts:37-47 | A truthy `createComment.success` gives 200 with `success` truthy. A falsy one gives 500 `{success: false, message}`. A null `data` or `createComment` gives the generic 500. |
| CommentsRoute.CreatedEchoesMutation | src/app/api/comments/route.ts:38 | A success echoes every member of `createComment`, whose own `success` overrides the literal `true`. |
| CommentsRoute.FailuresCarryTopLevelMessage | src/app/api/comments/route.ts:10-46 | Every non-200 JSON answer carries one of the three messages as a top-level `message`, and none has a `data` member. |
| RevalidateRoute.Post | src/app/api/revalidate/route.ts:5-30 | The body is parsed first, and a non-JSON body escapes even with a bad token. A token that does not match gives 401. It matches (`RevalidateRoute.TokenMatches`) only when header and secret are both present and equal. Then a null body escapes and a falsy path gives 400. Otherwise `(path, 'page')` is rebuilt: a throw gives 500, and success gives `{revalidated: true, now}`. |
| RevalidateRoute.UnsetSecretRejectsAll | src/app/api/revalidate/route.ts:7-13 | With the secret unset nothing is ever rebuilt, and every parsed request gets 401. |
| RevalidateRoute.TokenBeforePath | src/app/api/revalidate/route.ts:11-19 | With a wrong token the answer does not depend on the body. |
| RevalidateRoute.RebuildNeedsTokenAndPath | src/app/api/revalidate/route.ts:11-25 | A path is rebuilt exactly for a matching token and a non-empty path, and then that path is rebuilt. |
| SearchPage.Render | src/app/search/page.tsx:8-47 | A missing `q` means `""`, and an empty term sends nothing and prompts for a term. A failed search shows no results with the no-match text. A search resolving to undefined crashes the page. Otherwise the results show, with the message exactly when there are none. |
| SearchPage.Term | src/app/search/page.tsx:11 | A given `q` is the term as is, and a missing one is the empty term. |
| SearchPage.Heading | src/app/search/page.tsx:23-29 | An empty term gives the bare "Search Results " heading. A non-empty one appends `for: "term"`. |
| SearchPage.EmptyMessage | src/app/search/page.tsx:39-41 | The prompt appears exactly for an empty term and the no-match text exactly for a non-empty one. |
| SearchPage.FailedSearchLooksEmpty | src/app/search/page.tsx:13-18 | Any failure of the search itself is swallowed into an empty result with the no-match text. This covers no endpoint, a failed fetch, and `data` without `recipes`, whose TypeError `searchRecipes` throws inside the `try`. |
| SearchPage.NullDataCrashes | src/app/search/page.tsx:15-31 | A reply with null `data` is not swallowed: the page throws on `recipes.length`. |
| Sidebar.Recent | src/components/Sidebar.tsx:54-55 | At most three recipes are shown, as a prefix of the nodes. All are shown when there are fewer than three, and exactly three otherwise. |
| Sidebar.RecentRecipesWidget | src/components/Sidebar.tsx:50-55 | The widget fetches the home listing without a cursor and shows its first three recipes. A failed fetch propagates. |
| Sidebar.RecentOfListing | src/components/Sidebar.tsx:54-55 | A listing of three or more shows its first three. A missing listing or missing nodes show nothing. |
| Text.Includes | src/lib/api.ts:25 | `s.includes(sub)` holds exactly when `sub` occurs at some position of `s`. |
| Text.Split | src/components/FaqAccordion.tsx:22 | There is always at least one piece, and exactly one when the separator does not occur. No piece contains the separator. |
| Text.SplitCount | src/components/FaqAccordion.tsx:22 | `n` occurrences of the separator give `n + 1` pieces. |
| Text.JoinSplit | src/components/FaqAccordion.tsx:22 | Joining the pieces of a split gives the string back. |
| Text.SplitJoin | src/components/FaqAccordion.tsx:22 | Splitting a join of separator-free pieces gives the pieces back. |
| Text.TrimSpacePrefix | src/components/FaqAccordion.tsx:28-29 | One space before an already trimmed string is all that `trim` removes. |
| Text.Trim | src/components/FaqAccordion.tsx:28-29 | The result starts and ends with no white space. It is empty exactly when the input is all white space. |
| Text.TrimSlice | src/components/RecipeBlock.tsx:86 | The trimmed string is a slice of the input with only white space cut on either side. |
| Text.DecimalRoundTrip | src/components/Comments.tsx:49 | The decimal rendering of a count reads back as that count. |

## Left out

- The Screen Wake Lock effect (src/components/RecipeBlock.tsx:41-82) is left out. It is an asynchronous, best-effort browser API.
- `window.print()` is left out. It is a browser call with no state.
- JSX layout, styling and animation are left out, and so are the meta grid's plain field echoes and the rating line's vote count and author text.
- HTML strings (comment content, notes, FAQ answers) are opaque values, shown without being interpreted.
- A JSON object whose `data` does not have the shape the query asks for is left out. Each wrapper's `data` is typed after its query, and only missing or `null` members are modelled.
- The GraphQL query documents are replaced by their operation signatures. Schema semantics are not modelled; only variables and field extraction are.
- `getFeaturedRecipes` and `getAllCategories` are outside the modelled core. They follow the same `fetchAPI` pattern.
- The real HTTP round trip is a `Reply` parameter, and the `next: { revalidate: 60 }` cache hint is left out. The logging of a non-JSON body is left out because it has no effect on the outcome.
- `request.json()` is an `Incoming` parameter, and `revalidatePath` is a flag saying whether it throws.
- `Date.now()` and `new Date().toISOString()` are parameters.
- The response the framework produces for an exception that escapes a route handler is only `Unhandled`. The form treats its body as not JSON.
- Numbers are exact `real`s. IEEE rounding, `NaN` ratings and non-numeric ratings are left out.
- RecipeBlock.StarCounts: treats `null` and a missing rating alike as 0, which matches `Math.floor(null)` and `null % 1`. A rating that is a string is not modelled.
- Js.Prop: only own members of objects are seen. Inherited properties such as `constructor` read as `undefined`.
- Js.Spread: spreading a non-object value adds nothing. Spreading strings or arrays by index is not modelled, because the route only spreads objects.
- CommentForm.CanSubmit: models the browser's `required` checks as non-empty fields. The `type="email"` format check is not modelled, so the contract admits more addresses than the browser does.
- The `onChange` handlers of the form are left out. The fields are whatever was typed, passed in as a `Form` value.
- React's scheduling and stale closures are left out. Each handler is one atomic transition over the state it was called in.
- The About and Search widgets of the sidebar and the pure rendering pages are left out. They hold no logic beyond presence checks.

## Findings

| source | as written | input that shows it | evidently intended | confidence | as-written member | corrected member |
|---|---|---|---|---|---|---|
| src/lib/api.ts:41-73 | `getAllRecipesForHome(after)` calls `fetchAPI` with no variables, so `$after` is always null | where the handler sees the endpoint: a first page with `hasNextPage: true`, then clicking "Load More Recipes" | the cursor is sent as `{after}` so the next page is requested | not executed | RecipeList.LoadMoreRepeatsFirstPage | RecipeList.NextPageFollowsCursor |
| src/lib/api.ts:226-229 | `data?.category.name` guards only `data`, so a null `category` throws a TypeError | a category slug the CMS does not know (`category: null`) | `data?.category?.name` yields undefined, so the category page's `notFound()` branch can run | not executed | Api.UnknownCategoryThrows | Api.SafeCategoryAgrees |
| src/components/RecipeList.tsx:1-4 | the client component calls `getAllRecipesForHome`, hence `fetchAPI`, in the browser, where `process.env.WORDPRESS_GRAPHQL_ENDPOINT` (not `NEXT_PUBLIC_`) is undefined | a first page with `hasNextPage: true`, then clicking "Load More Recipes" in the browser | the request reaches the CMS, through a public setting or a server action | not executed | RecipeList.ClientClickNeverLoads | RecipeList.ConfiguredClickLoads |
| src/components/CommentForm.tsx:62 | the failure text is read from `result.data?.message`, but the route puts `message` at the top level | any failed submission, e.g. the CMS answering `createComment.success: false` | `result.message` is shown ("Failed to create comment.") | not executed | CommentForm.RouteMessageNeverShown | CommentForm.FixedShowsRouteMessage |

The list controller keeps the request as written (`RecipeList.NextPage`), so
that it reproduces the duplicated page. The corrected request is defined
and proved beside it (`RecipeList.NextPageWithCursor`,
`Api.GetAllRecipesForHomeWithCursor`). Likewise, `CommentForm.HandleSubmit`
keeps the as-written message lookup, and the corrected lookup is
`CommentForm.SettleFixed`.
