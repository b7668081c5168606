/** The comment section of a recipe page (src/components/Comments.tsx):
    the list starts from the server's comments and grows at the top with
    every comment the form reports as submitted. */
module Comments {
  import opened Wrappers
  import Text

  /** A comment node, with its author flattened: `author.node.name` and
      `author.node.avatar.url`. `date` and `content` are opaque strings (an
      ISO timestamp and HTML). */
  datatype Comment = Comment(
    id: string,
    content: string,
    date: string,
    authorName: string,
    avatarUrl: string,
    isPending: bool)

  /** The `comments` prop: `null`, or an object whose `nodes` may be
      missing. */
  datatype CommentConnection = CommentConnection(nodes: Option<seq<Comment>>)

  /** `comments?.nodes || []`: the server's comments, none when the prop or
      its nodes are missing. */
  function Initial(comments: Option<CommentConnection>): (list: seq<Comment>)
    ensures comments.Some? && comments.value.nodes.Some? ==> list == comments.value.nodes.value
    ensures comments.None? || comments.value.nodes.None? ==> list == []
  {
    if comments.Some? && comments.value.nodes.Some? then comments.value.nodes.value else []
  }

  /** `handleCommentSubmitted(c)`: the new comment goes first and the
      earlier ones follow in their order. */
  function Submitted(list: seq<Comment>, c: Comment): (r: seq<Comment>)
    ensures |r| == |list| + 1
    ensures r[0] == c && r[1..] == list
  {
    [c] + list
  }

  /** The list after a run of submissions, oldest first. */
  function SubmittedAll(list: seq<Comment>, news: seq<Comment>): seq<Comment>
    decreases |news|
  {
    if news == [] then list else SubmittedAll(Submitted(list, news[0]), news[1..])
  }

  function Reverse<T>(xs: seq<T>): (r: seq<T>)
    ensures |r| == |xs|
    ensures forall k :: 0 <= k < |xs| ==> r[k] == xs[|xs| - 1 - k]
    decreases |xs|
  {
    if xs == [] then [] else Reverse(xs[1..]) + [xs[0]]
  }

  /** After a run of submissions the list holds the new comments newest
      first, then the server's comments untouched: nothing is dropped,
      reordered or replaced, and each submission adds exactly one. */
  lemma {:induction false} SubmittedAllPrepends(list: seq<Comment>, news: seq<Comment>)
    ensures SubmittedAll(list, news) == Reverse(news) + list
    decreases |news|
  {
    if news != [] {
      SubmittedAllPrepends([news[0]] + list, news[1..]);
      assert Reverse(news) == Reverse(news[1..]) + [news[0]];
    }
  }

  /** The noun of the heading: singular for exactly one comment, plural
      otherwise, zero included. */
  function Noun(count: nat): (w: string)
    ensures w == "Comment" <==> count == 1
    ensures w == "Comments" <==> count != 1
  {
    if count == 1 then "Comment" else "Comments"
  }

  /** The heading `{n} {noun}`. */
  function Heading(list: seq<Comment>): string {
    Text.Decimal(|list|) + " " + Noun(|list|)
  }

  /** The heading begins with the count in decimal, which reads back as the
      number of comments, and ends with the matching noun. */
  lemma HeadingShowsCount(list: seq<Comment>)
    ensures var h := Heading(list); var d := Text.Decimal(|list|);
            && h[..|d|] == d && Text.DigitsValue(d) == |list|
            && h[|d|..] == " " + Noun(|list|)
  {
    var d, tail := Text.Decimal(|list|), " " + Noun(|list|);
    assert Heading(list) == d + tail;
    Text.DecimalRoundTrip(|list|);
  }
}
