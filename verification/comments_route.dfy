/** The comment submission endpoint (src/app/api/comments/route.ts):
    validates the four fields of the posted JSON, forwards them to the CMS
    as a `createComment` mutation through `fetchAPI`, and maps the outcome
    to a JSON response. */
module CommentsRoute {
  import opened Wrappers
  import opened Js
  import opened Api
  import opened Http

  const CreateCommentMutation: string := "mutation CREATE_COMMENT($input: CreateCommentInput!)"

  const MissingFields: string := "Missing required fields"
  const CreateFailed: string := "Failed to create comment."
  const Unexpected: string := "An unexpected error occurred."

  /** The four fields the client posts, read off the body. */
  datatype Submission = Submission(postId: Value, author: Value, authorEmail: Value, content: Value)

  /** `const { postId, author, authorEmail, content } = body`, which throws
      on a `null` body (JSON cannot produce `undefined`, but it is treated
      the same way). */
  function Destructure(body: Value): (s: Option<Submission>)
    ensures s.None? <==> Nullish(body)
    ensures s.Some? ==> s.value == Submission(Prop(body, "postId"), Prop(body, "author"), Prop(body, "authorEmail"), Prop(body, "content"))
  {
    if Nullish(body) then None
    else Some(Submission(Prop(body, "postId"), Prop(body, "author"), Prop(body, "authorEmail"), Prop(body, "content")))
  }

  /** The check `!postId || !author || !authorEmail || !content` fails. */
  predicate Complete(s: Submission) {
    Truthy(s.postId) && Truthy(s.author) && Truthy(s.authorEmail) && Truthy(s.content)
  }

  /** The mutation's `input`: the post becomes `commentOn`, the other three
      fields are passed on as they came. */
  function Input(s: Submission): (v: Value)
    ensures v.Obj? && v.fields.Keys == {"commentOn", "author", "authorEmail", "content"}
    ensures v.fields["commentOn"] == s.postId
    ensures v.fields["author"] == s.author && v.fields["authorEmail"] == s.authorEmail && v.fields["content"] == s.content
  {
    Obj(map["commentOn" := s.postId, "author" := s.author, "authorEmail" := s.authorEmail, "content" := s.content])
  }

  function Variables(s: Submission): Value {
    Obj(map["input" := Input(s)])
  }

  /** The route's handling of one POST, with what it sent to the CMS. */
  datatype Handled = Handled(sent: Option<Request>, response: Response)

  /** The response for the mutation's `data`: a `null` data or a missing
      `createComment` is a TypeError caught as an unexpected error; a truthy
      `success` gives `{success: true, ...createComment}`; any other gives a
      500 with `success: false`. */
  function Respond(data: Option<Value>): (r: Response)
    ensures r.Json? && r.status in {200, 500}
    ensures r.status == 200 <==>
      data.Some? && !Nullish(data.value) && !Nullish(Prop(data.value, "createComment"))
      && Truthy(Prop(Prop(data.value, "createComment"), "success"))
    ensures r.status == 200 ==> r.body.Obj? && "success" in r.body.fields && Truthy(r.body.fields["success"])
    ensures r.body == MessageBody(Unexpected) <==>
      data.None? || Nullish(data.value) || Nullish(Prop(data.value, "createComment"))
    ensures r.status == 500 && r.body != MessageBody(Unexpected) ==>
      r.body == Obj(map["success" := Bool(false), "message" := Str(CreateFailed)])
  {
    if data.None? || Nullish(data.value) then Json(500, MessageBody(Unexpected))
    else
      var created := Prop(data.value, "createComment");
      if Nullish(created) then Json(500, MessageBody(Unexpected))
      else if Truthy(Prop(created, "success")) then Json(200, Obj(Spread(map["success" := Bool(true)], created)))
      else Json(500, Obj(map["success" := Bool(false), "message" := Str(CreateFailed)]))
  }

  /** `POST(request)` for the endpoint setting, the parsed request body and
      the CMS's reply to the mutation. */
  function Post(endpoint: Option<string>, incoming: Incoming, reply: Reply<Value>): (h: Handled)
    // Reading the body happens outside the `try`: a body that is not JSON,
    // or is `null`, escapes the handler.
    ensures h.response.Unhandled? <==> incoming.Unparseable? || Nullish(incoming.json)
    // Incomplete submissions are turned away before anything is sent.
    ensures incoming.Parsed? && !Nullish(incoming.json) && !Complete(Destructure(incoming.json).value)
            ==> h == Handled(None, Json(400, MessageBody(MissingFields)))
    ensures h.sent.Some? ==>
      && Configured(endpoint)
      && incoming.Parsed? && !Nullish(incoming.json) && Complete(Destructure(incoming.json).value)
      && h.sent.value.body == RequestBody(CreateCommentMutation, Some(Variables(Destructure(incoming.json).value)))
    ensures incoming.Parsed? && !Nullish(incoming.json) && Complete(Destructure(incoming.json).value) ==>
      && (h.sent.Some? <==> Configured(endpoint))
      && (FetchApi(endpoint, CreateCommentMutation, Some(Variables(Destructure(incoming.json).value)), reply).outcome.Err? ==>
            h.response == Json(500, MessageBody(Unexpected)))
      && (forall d :: FetchApi(endpoint, CreateCommentMutation, Some(Variables(Destructure(incoming.json).value)), reply).outcome == Ok(d) ==>
            h.response == Respond(d))
  {
    match incoming
    case Unparseable => Handled(None, Unhandled)
    case Parsed(body) =>
      match Destructure(body)
      case None => Handled(None, Unhandled)
      case Some(s) =>
        if !Complete(s) then Handled(None, Json(400, MessageBody(MissingFields)))
        else
          var x := FetchApi(endpoint, CreateCommentMutation, Some(Variables(s)), reply);
          match x.outcome
          case Err(_) => Handled(x.sent, Json(500, MessageBody(Unexpected)))
          case Ok(d) => Handled(x.sent, Respond(d))
  }

  /** A successful mutation answers 200 with every member of
      `createComment`, whose own `success` wins over the literal `true`. */
  lemma CreatedEchoesMutation(created: map<string, Value>)
    requires "success" in created && Truthy(created["success"])
    ensures var r := Respond(Some(Obj(map["createComment" := Obj(created)])));
            && r == Json(200, Obj(map["success" := Bool(true)] + created))
            && r.body.fields.Keys == created.Keys
            && forall k :: k in created ==> r.body.fields[k] == created[k]
  {
  }

  /** Every failure the client can be told about carries its text in a
      top-level `message` member, none carries a `data` member, and none
      has a truthy `success`. */
  lemma FailuresCarryTopLevelMessage(endpoint: Option<string>, incoming: Incoming, reply: Reply<Value>)
    ensures var r := Post(endpoint, incoming, reply).response;
            r.Json? && r.status != 200 ==>
              && r.body.Obj? && "message" in r.body.fields && "data" !in r.body.fields
              && r.body.fields["message"] in {Str(MissingFields), Str(CreateFailed), Str(Unexpected)}
              && !Truthy(Prop(r.body, "success"))
  {
  }
}
