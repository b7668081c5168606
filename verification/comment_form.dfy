/** The comment form (src/components/CommentForm.tsx): three controlled
    fields, a status that runs idle -> loading -> success or error, the
    optimistic pending comment handed to the list on success, and the
    message shown for each outcome.

    `handleSubmit` is one atomic step: `Begin` is what happens before the
    `await`, and the resolved (or rejected) `response.json()` is the
    `Outcome` parameter of `Settle`. */
module CommentForm {
  import opened Wrappers
  import opened Js
  import Text
  import Http
  import Comments
  import CommentsRoute
  import Api

  datatype Status = Idle | Loading | Success | Error

  /** The five pieces of state: the three fields, the status and the
      message (whatever the reply put there, so any JSON value). */
  datatype Form = Form(author: string, authorEmail: string, content: string, status: Status, message: Value)

  const Initial: Form := Form("", "", "", Idle, Str(""))

  const Thanks: string := "Thanks! Your comment is awaiting moderation."
  const GenericError: string := "There was an error."
  const Unexpected: string := "An unexpected error occurred."
  const DefaultAvatar: string := "/default-avatar.png"

  /** The form can be sent: it is on screen (not replaced by the thank-you
      note), its button is enabled (no request in flight), and the three
      `required` fields are filled in. */
  predicate CanSubmit(f: Form) {
    f.status != Success && f.status != Loading && f.author != "" && f.authorEmail != "" && f.content != ""
  }

  /** `setStatus('loading')`, the only change before the request. */
  function Begin(f: Form): (r: Form)
    requires CanSubmit(f)
    ensures r.status == Loading && !CanSubmit(r)
    ensures r.author == f.author && r.authorEmail == f.authorEmail && r.content == f.content && r.message == f.message
  {
    f.(status := Loading)
  }

  /** `JSON.stringify({ postId, author, authorEmail, content })`. */
  function RequestBody(postId: int, f: Form): (v: Value)
    ensures v.Obj? && v.fields.Keys == {"postId", "author", "authorEmail", "content"}
    ensures v.fields["postId"] == Num(postId as real)
    ensures v.fields["author"] == Str(f.author) && v.fields["authorEmail"] == Str(f.authorEmail)
    ensures v.fields["content"] == Str(f.content)
  {
    Obj(map["postId" := Num(postId as real), "author" := Str(f.author),
             "authorEmail" := Str(f.authorEmail), "content" := Str(f.content)])
  }

  /** A form that can be sent passes the route's field check exactly when
      the post id is not 0: the `required` fields are never empty. */
  lemma FormPassesValidation(postId: int, f: Form)
    requires CanSubmit(f)
    ensures CommentsRoute.Destructure(RequestBody(postId, f)).Some?
    ensures CommentsRoute.Complete(CommentsRoute.Destructure(RequestBody(postId, f)).value) <==> postId != 0
  {
  }

  /** End to end: the route forwards a sendable form with a post id to the
      CMS as a mutation whose input holds the post id as `commentOn` and the
      three typed fields unchanged. */
  lemma FormReachesMutation(endpoint: Option<string>, postId: int, f: Form, reply: Api.Reply<Value>)
    requires CanSubmit(f) && postId != 0 && Api.Configured(endpoint)
    ensures var h := CommentsRoute.Post(endpoint, Http.Parsed(RequestBody(postId, f)), reply);
            && h.sent.Some?
            && h.sent.value.body == Api.RequestBody(CommentsRoute.CreateCommentMutation, Some(Obj(map["input" := Obj(map[
                 "commentOn" := Num(postId as real), "author" := Str(f.author),
                 "authorEmail" := Str(f.authorEmail), "content" := Str(f.content)])])))
  {
  }

  /** How `await response.json()` settles: with the reply's JSON, or by
      throwing (the request failed or the body was not JSON). */
  datatype Outcome = Replied(result: Value) | Threw

  /** What the route's response gives the form: its JSON body, or, for an
      exception that escaped the route, an error page that does not parse. */
  function Received(r: Http.Response): (o: Outcome)
    ensures r.Json? <==> o.Replied?
    ensures r.Json? ==> o.result == r.body
  {
    match r
    case Json(_, body) => Replied(body)
    case Unhandled => Threw
  }

  /** The new comment shown at once, before moderation: a temporary id from
      the clock, the content wrapped in a paragraph without escaping, the
      author's name, a placeholder avatar and the pending flag. */
  function Pending(f: Form, now: nat, isoNow: string): (c: Comments.Comment)
    ensures c.id == "temp-" + Text.Decimal(now)
    ensures c.content == "<p>" + f.content + "</p>"
    ensures c.date == isoNow && c.authorName == f.author && c.avatarUrl == DefaultAvatar && c.isPending
  {
    Comments.Comment("temp-" + Text.Decimal(now), "<p>" + f.content + "</p>", isoNow, f.author, DefaultAvatar, true)
  }

  /** The state after the reply and the comment passed to
      `onCommentSubmitted`, if it was called. */
  datatype Settled = Settled(form: Form, posted: Option<Comments.Comment>)

  /** `result.success` on a reply that is not `null`. */
  predicate Succeeded(o: Outcome) {
    o.Replied? && !Nullish(o.result) && Truthy(Prop(o.result, "success"))
  }

  /** `result.data?.message || 'There was an error.'`. */
  function ErrorMessage(result: Value): (m: Value)
    requires !Nullish(result)
    ensures Truthy(m)
    ensures Truthy(OptProp(Prop(result, "data"), "message")) ==> m == OptProp(Prop(result, "data"), "message")
    ensures !Truthy(OptProp(Prop(result, "data"), "message")) ==> m == Str(GenericError)
  {
    var m := OptProp(Prop(result, "data"), "message");
    if Truthy(m) then m else Str(GenericError)
  }

  /** The rest of `handleSubmit` once the reply is in, with the failure
      message chosen by `message`. A `null` reply makes `result.success`
      throw inside the `try`, like a failed request. */
  function SettleWith(f: Form, o: Outcome, now: nat, isoNow: string, message: Value -> Value): (s: Settled)
    ensures s.posted.Some? <==> Succeeded(o)
    ensures Succeeded(o) ==>
      s == Settled(Form("", "", "", Success, Str(Thanks)), Some(Pending(f, now, isoNow)))
    ensures !Succeeded(o) ==>
      && s.form.status == Error
      && s.form.author == f.author && s.form.authorEmail == f.authorEmail && s.form.content == f.content
    ensures (o.Threw? || Nullish(o.result)) ==> s.form.message == Str(Unexpected)
    ensures o.Replied? && !Nullish(o.result) && !Succeeded(o) ==> s.form.message == message(o.result)
  {
    match o
    case Threw => Settled(f.(status := Error, message := Str(Unexpected)), None)
    case Replied(result) =>
      if Nullish(result) then Settled(f.(status := Error, message := Str(Unexpected)), None)
      else if Truthy(Prop(result, "success")) then
        Settled(Form("", "", "", Success, Str(Thanks)), Some(Pending(f, now, isoNow)))
      else Settled(f.(status := Error, message := message(result)), None)
  }

  /** As written: the failure message is looked for under `data`. */
  function Settle(f: Form, o: Outcome, now: nat, isoNow: string): (s: Settled)
    ensures s.posted.Some? <==> Succeeded(o)
    ensures o.Replied? && !Nullish(o.result) && !Succeeded(o) ==> s.form.message == ErrorMessage(o.result)
  {
    SettleWith(f, o, now, isoNow, (v: Value) => if Nullish(v) then Str(GenericError) else ErrorMessage(v))
  }

  /** `handleSubmit` from the click to the settled reply. */
  function HandleSubmit(f: Form, o: Outcome, now: nat, isoNow: string): (s: Settled)
    requires CanSubmit(f)
    ensures s.posted.Some? <==> Succeeded(o)
    ensures s.posted.Some? ==> s.posted.value == Pending(f, now, isoNow) && s.form == Form("", "", "", Success, Str(Thanks))
    ensures s.posted.None? ==> s.form.status == Error && s.form.(status := f.status, message := f.message) == f
  {
    Settle(Begin(f), o, now, isoNow)
  }

  /** The comment list after a submission: the parent's handler runs once
      for a success and not at all otherwise. */
  function AfterSubmit(list: seq<Comments.Comment>, s: Settled): seq<Comments.Comment> {
    if s.posted.Some? then Comments.Submitted(list, s.posted.value) else list
  }

  /** A successful submission puts exactly one comment, the pending one, at
      the top of the list; a failed one leaves the list as it was. */
  lemma SubmissionReachesList(list: seq<Comments.Comment>, f: Form, o: Outcome, now: nat, isoNow: string)
    requires CanSubmit(f)
    ensures var after := AfterSubmit(list, HandleSubmit(f, o, now, isoNow));
            && |after| == |list| + (if Succeeded(o) then 1 else 0)
            && (Succeeded(o) ==> after[0] == Pending(f, now, isoNow) && after[1..] == list)
            && (!Succeeded(o) ==> after == list)
  {
  }

  /** What the component shows. */
  datatype View =
    | ThankYou(message: Value)
    | Entry(error: Option<Value>, caption: string, disabled: bool)

  /** After a success the thank-you note replaces the form; otherwise the
      form is shown, with the message under it after an error, and its
      button disabled and relabelled during a request. */
  function Render(f: Form): (v: View)
    ensures v.ThankYou? <==> f.status == Success
    ensures v.ThankYou? ==> v.message == f.message
    ensures v.Entry? ==> (v.disabled <==> f.status == Loading) && (v.error.Some? <==> f.status == Error)
    ensures v.Entry? && v.error.Some? ==> v.error.value == f.message
    ensures v.Entry? ==> v.caption == if f.status == Loading then "Submitting..." else "Post Comment"
  {
    match f.status
    case Success => ThankYou(f.message)
    case Loading => Entry(None, "Submitting...", true)
    case Error => Entry(Some(f.message), "Post Comment", false)
    case Idle => Entry(None, "Post Comment", false)
  }

  /** Success is final: the form is gone, nothing can be sent again, and
      the note shows the moderation message. */
  lemma SuccessIsFinal(f: Form, o: Outcome, now: nat, isoNow: string)
    requires CanSubmit(f) && Succeeded(o)
    ensures var g := HandleSubmit(f, o, now, isoNow).form;
            !CanSubmit(g) && Render(g) == ThankYou(Str(Thanks))
  {
  }

  /** A failed submission keeps what was typed, so it can be sent again at
      once. */
  lemma FailureAllowsRetry(f: Form, o: Outcome, now: nat, isoNow: string)
    requires CanSubmit(f) && !Succeeded(o)
    ensures CanSubmit(HandleSubmit(f, o, now, isoNow).form)
  {
  }

  // ---------------------------------------------------------------------
  // The failure message the route sends is never shown
  // ---------------------------------------------------------------------

  /** Whatever the route answers, a failure shows the form's generic text
      or the unexpected-error text, never the route's own message: the
      route puts `message` at the top level and the form looks under
      `data`. So "Failed to create comment." and "Missing required fields"
      never reach the reader. */
  lemma RouteMessageNeverShown(endpoint: Option<string>, incoming: Http.Incoming, reply: Api.Reply<Value>,
                               f: Form, now: nat, isoNow: string)
    requires CanSubmit(f)
    ensures var o := Received(CommentsRoute.Post(endpoint, incoming, reply).response);
            var m := HandleSubmit(f, o, now, isoNow).form.message;
            !Succeeded(o) ==> m == Str(GenericError) || m == Str(Unexpected)
  {
    CommentsRoute.FailuresCarryTopLevelMessage(endpoint, incoming, reply);
  }

  /** The intended reading: `result.message || 'There was an error.'`. */
  function ErrorMessageFixed(result: Value): (m: Value)
    requires !Nullish(result)
    ensures Truthy(m)
    ensures Truthy(Prop(result, "message")) ==> m == Prop(result, "message")
    ensures !Truthy(Prop(result, "message")) ==> m == Str(GenericError)
  {
    var m := Prop(result, "message");
    if Truthy(m) then m else Str(GenericError)
  }

  function SettleFixed(f: Form, o: Outcome, now: nat, isoNow: string): (s: Settled)
    ensures s.posted.Some? <==> Succeeded(o)
    ensures o.Replied? && !Nullish(o.result) && !Succeeded(o) ==> s.form.message == ErrorMessageFixed(o.result)
    ensures s.posted == Settle(f, o, now, isoNow).posted
  {
    SettleWith(f, o, now, isoNow, (v: Value) => if Nullish(v) then Str(GenericError) else ErrorMessageFixed(v))
  }

  /** With the intended reading every failure answer of the route shows
      the route's own message. */
  lemma FixedShowsRouteMessage(endpoint: Option<string>, incoming: Http.Incoming, reply: Api.Reply<Value>,
                               f: Form, now: nat, isoNow: string)
    requires CanSubmit(f)
    ensures var r := CommentsRoute.Post(endpoint, incoming, reply).response;
            r.Json? && r.status != 200 ==>
              SettleFixed(Begin(f), Received(r), now, isoNow).form.message == r.body.fields["message"]
  {
    var r := CommentsRoute.Post(endpoint, incoming, reply).response;
    if r.Json? && r.status != 200 {
      CommentsRoute.FailuresCarryTopLevelMessage(endpoint, incoming, reply);
      FixedShowsMessage(Begin(f), r.body, now, isoNow);
    }
  }

  /** A failure body with a truthy top-level `message` shows that message
      under the intended reading. */
  lemma FixedShowsMessage(f: Form, body: Value, now: nat, isoNow: string)
    requires body.Obj? && "message" in body.fields && Truthy(body.fields["message"])
    requires !Truthy(Prop(body, "success"))
    ensures SettleFixed(f, Replied(body), now, isoNow).form.message == body.fields["message"]
  {
    assert !Succeeded(Replied(body));
    assert Prop(body, "message") == body.fields["message"];
  }
}
