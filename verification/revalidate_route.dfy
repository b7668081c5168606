/** The on-demand revalidation endpoint (src/app/api/revalidate/route.ts):
    a POST carrying a secret token in a header and a path in its JSON body
    asks the framework to rebuild that page. */
module RevalidateRoute {
  import opened Wrappers
  import opened Js
  import opened Http

  const TokenHeader: string := "x-revalidation-token"
  const InvalidToken: string := "Invalid token"
  const PathRequired: string := "Path is required"
  const RevalidateFailed: string := "Error revalidating"

  /** `headers.get(...) !== secret`, negated. The header is a string or
      `null`, the secret a string or `undefined`, so they are strictly equal
      only when both are present and the same string. */
  predicate TokenMatches(header: Option<string>, secret: Option<string>) {
    header.Some? && secret.Some? && header.value == secret.value
  }

  /** A handled request: the page asked to be rebuilt, if any (always with
      the type `'page'`), and the response. */
  datatype Handled = Handled(revalidated: Option<(Value, string)>, response: Response)

  /** `POST(request)` for the configured secret, the token header, the
      parsed body, whether `revalidatePath` throws, and the clock. The body
      is read first, then the token checked, then the path. */
  function Post(secret: Option<string>, header: Option<string>, incoming: Incoming,
                revalidateThrows: bool, now: int): (h: Handled)
    // A body that is not JSON escapes the handler before the token is looked at.
    ensures incoming.Unparseable? ==> h == Handled(None, Unhandled)
    ensures incoming.Parsed? && !TokenMatches(header, secret) ==> h == Handled(None, Json(401, MessageBody(InvalidToken)))
    // `body.path` on a `null` body throws outside the `try`.
    ensures h.response.Unhandled? <==> incoming.Unparseable? || (TokenMatches(header, secret) && Nullish(incoming.json))
    ensures h.response == Json(400, MessageBody(PathRequired)) <==>
      incoming.Parsed? && TokenMatches(header, secret) && !Nullish(incoming.json) && !Truthy(Prop(incoming.json, "path"))
    ensures h.revalidated.Some? <==>
      incoming.Parsed? && TokenMatches(header, secret) && !Nullish(incoming.json) && Truthy(Prop(incoming.json, "path"))
    ensures h.revalidated.Some? ==> h.revalidated.value == (Prop(incoming.json, "path"), "page")
    ensures h.revalidated.Some? && revalidateThrows ==> h.response == Json(500, MessageBody(RevalidateFailed))
    ensures h.revalidated.Some? && !revalidateThrows ==>
      h.response == Json(200, Obj(map["revalidated" := Bool(true), "now" := Num(now as real)]))
  {
    match incoming
    case Unparseable => Handled(None, Unhandled)
    case Parsed(body) =>
      if !TokenMatches(header, secret) then Handled(None, Json(401, MessageBody(InvalidToken)))
      else if Nullish(body) then Handled(None, Unhandled)
      else
        var path := Prop(body, "path");
        if !Truthy(path) then Handled(None, Json(400, MessageBody(PathRequired)))
        else if revalidateThrows then Handled(Some((path, "page")), Json(500, MessageBody(RevalidateFailed)))
        else Handled(Some((path, "page")), Json(200, Obj(map["revalidated" := Bool(true), "now" := Num(now as real)])))
  }

  /** Without a configured secret nothing is ever rebuilt: every request
      that gets as far as the token check is refused with 401. */
  lemma UnsetSecretRejectsAll(header: Option<string>, incoming: Incoming, revalidateThrows: bool, now: int)
    ensures var h := Post(None, header, incoming, revalidateThrows, now);
            h.revalidated.None? && (incoming.Parsed? ==> h.response.Json? && h.response.status == 401)
  {
  }

  /** The token is checked before the path: a wrong token is refused the
      same way whatever the body holds. */
  lemma TokenBeforePath(secret: Option<string>, header: Option<string>, body1: Value, body2: Value,
                        revalidateThrows: bool, now: int)
    requires !TokenMatches(header, secret)
    ensures Post(secret, header, Parsed(body1), revalidateThrows, now) == Post(secret, header, Parsed(body2), revalidateThrows, now)
  {
  }

  /** A page is rebuilt only for the right token and a non-empty path, and
      then exactly that path is rebuilt. */
  lemma RebuildNeedsTokenAndPath(secret: Option<string>, header: Option<string>, path: string,
                                 revalidateThrows: bool, now: int)
    ensures var h := Post(secret, header, Parsed(Obj(map["path" := Str(path)])), revalidateThrows, now);
            h.revalidated.Some? <==> TokenMatches(header, secret) && path != ""
    ensures var h := Post(secret, header, Parsed(Obj(map["path" := Str(path)])), revalidateThrows, now);
            h.revalidated.Some? ==> h.revalidated.value == (Str(path), "page")
  {
  }
}
