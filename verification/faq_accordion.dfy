/** The FAQ section of a recipe page (src/components/FaqAccordion.tsx): a
    free-text CMS field with one `Q: question|A: answer` pair per line,
    parsed into question/answer pairs and shown as an accordion in which at
    most one answer is open. */
module FaqAccordion {
  import opened Wrappers
  import Text
  import Seqs

  datatype Faq = Faq(question: string, answer: string)

  /** Replacing the regular expression `^L\s*` (for a literal label `L`)
      by nothing: the label and the white space after it are removed only
      at the very start of the segment. */
  function StripLabel(segment: string, lbl: string): (r: string)
    ensures !Text.StartsWith(segment, lbl) ==> r == segment
    ensures Text.StartsWith(segment, lbl) ==>
      && |lbl| + |r| <= |segment| && segment == lbl + segment[|lbl|..|segment| - |r|] + r
      && Text.Blank(segment[|lbl|..|segment| - |r|]) && (r == [] || !Text.IsSpace(r[0]))
  {
    if Text.StartsWith(segment, lbl) then
      var t := segment[|lbl|..];
      var r := Text.TrimStart(t);
      assert segment == lbl + t;
      assert segment[|lbl|..|segment| - |r|] == t[..|t| - |r|];
      r
    else segment
  }

  /** A segment with its label stripped and then trimmed. */
  function Clean(segment: string, lbl: string): (r: string)
    ensures Text.Trimmed(r)
  {
    Text.Trim(StripLabel(segment, lbl))
  }

  /** One qualifying line: the question is the text before the first `|`,
      the answer the text between the first and the second `|`; whatever
      follows a second `|` is dropped. */
  function ParseLine(line: string): (f: Faq)
    requires '|' in line
    ensures Text.Trimmed(f.question) && Text.Trimmed(f.answer)
  {
    var parts := Text.Split(line, '|');
    Faq(Clean(parts[0], "Q:"), Clean(parts[1], "A:"))
  }

  /** The segments of a line are the text up to the first bar and the text
      up to the next bar or the end; the rest does not matter. */
  lemma ParseLineSegments(q: string, a: string, rest: string)
    requires '|' !in q && '|' !in a
    requires rest == [] || rest[0] == '|'
    ensures '|' in q + "|" + a + rest
    ensures ParseLine(q + "|" + a + rest) == Faq(Clean(q, "Q:"), Clean(a, "A:"))
  {
    var line := q + "|" + a + rest;
    assert line == q + ['|'] + (a + rest);
    SecondPiece(a, rest);
    Text.SplitFirstPiece(q, a + rest, '|');
  }

  /** The first piece of `a + rest`, when `rest` is empty or starts with a
      bar, is `a`. */
  lemma SecondPiece(a: string, rest: string)
    requires '|' !in a
    requires rest == [] || rest[0] == '|'
    ensures Text.Split(a + rest, '|')[0] == a
  {
    if rest == [] {
      assert a + rest == a;
      Text.SplitNoSeparator(a, '|');
    } else {
      assert rest == ['|'] + rest[1..];
      assert a + rest == a + ['|'] + rest[1..];
      Text.SplitFirstPiece(a, rest[1..], '|');
    }
  }

  /** What one line contributes: a pair when it contains `|`, nothing
      otherwise. */
  function LineFaqs(line: string): (r: seq<Faq>)
    ensures |r| <= 1
    ensures r == [] <==> '|' !in line
  {
    if '|' in line then [ParseLine(line)] else []
  }

  /** The `filter(line => line.includes('|'))` / `map` pipeline. */
  function ParseLines(lines: seq<string>): (faqs: seq<Faq>)
    ensures |faqs| <= |lines|
    decreases |lines|
  {
    if lines == [] then [] else LineFaqs(lines[0]) + ParseLines(lines[1..])
  }

  /** No pair comes out exactly when no line contains `|`. */
  lemma {:induction false} NoPairsIffNoBar(lines: seq<string>)
    ensures ParseLines(lines) == [] <==> Text.Separated(lines, '|')
    decreases |lines|
  {
    if lines != [] {
      NoPairsIffNoBar(lines[1..]);
      if Text.Separated(lines, '|') {
        Text.TailPieces(lines, '|');
      }
    }
  }

  lemma {:induction false} ParseLinesAppend(xs: seq<string>, ys: seq<string>)
    ensures ParseLines(xs + ys) == ParseLines(xs) + ParseLines(ys)
    decreases |xs|
  {
    if xs == [] {
      assert xs + ys == ys;
    } else {
      var rest := xs[1..];
      assert xs + ys == [xs[0]] + (rest + ys);
      assert xs == [xs[0]] + rest;
      ParseLinesCons(xs[0], rest + ys);
      ParseLinesCons(xs[0], rest);
      ParseLinesAppend(rest, ys);
      Seqs.AppendAssoc(LineFaqs(xs[0]), ParseLines(rest), ParseLines(ys));
    }
  }

  lemma ParseLinesCons(line: string, rest: seq<string>)
    ensures ParseLines([line] + rest) == LineFaqs(line) + ParseLines(rest)
  {
    assert ([line] + rest)[1..] == rest;
  }

  /** `faqString.split('\n')` and the pipeline above. */
  function Parse(text: string): (faqs: seq<Faq>)
    ensures |faqs| <= multiset(text)['\n'] + 1
  {
    Text.SplitCount(text, '\n');
    ParseLines(Text.Split(text, '\n'))
  }

  /** A single line gives one pair if it contains a bar and none otherwise. */
  lemma ParseOneLine(line: string)
    requires '\n' !in line
    ensures Parse(line) == if '|' in line then [ParseLine(line)] else []
  {
    Text.SplitNoSeparator(line, '\n');
  }

  /** Parsing works line by line: the pairs of two texts joined by a line
      break are the pairs of the first followed by those of the second.
      With `ParseOneLine` this fixes the result for every text: one pair
      per line that contains `|`, in input order. */
  lemma ParseAcrossLines(a: string, b: string)
    ensures Parse(a + "\n" + b) == Parse(a) + Parse(b)
  {
    assert a + "\n" + b == a + ['\n'] + b;
    Text.SplitAround(a, b, '\n');
    ParseLinesAppend(Text.Split(a, '\n'), Text.Split(b, '\n'));
  }

  /** The labels are only recognised at the very start of a segment: one
      preceded by white space is kept, and only the white space trimmed. */
  lemma LabelOnlyAtStart()
    ensures Clean(" A: y", "A:") == "A: y"
  {
    assert " A: y" == " " + "A: y";
    assert " A: y"[..2][0] != "A:"[0];
    Text.TrimSpacePrefix("A: y");
  }

  /** A label at the start goes, and so does all the white space around
      the body, however much of it there is. */
  lemma LabelAndPaddingRemoved()
    ensures Clean("A:  y ", "A:") == "y"
  {
    assert Text.StartsWith("A:  y ", "A:");
    assert "A:  y "[2..] == "  y ";
    assert Text.LeadingSpaces("  y ") == 2;
    assert Text.TrailingSpaces("y ") == 1;
  }

  /** A line without a bar between two well-formed lines is skipped: the
      text `Q: q1|A: a1`, `other`, `Q: q2|A: a2` (one per line) gives the
      two pairs in order. */
  lemma SkipsLineWithoutBar(l1: string, other: string, l3: string, q1: string, a1: string, q2: string, a2: string)
    requires l1 == "Q: " + q1 + "|A: " + a1 && l3 == "Q: " + q2 + "|A: " + a2
    requires '|' !in q1 && '|' !in a1 && '\n' !in q1 && '\n' !in a1
    requires '|' !in q2 && '|' !in a2 && '\n' !in q2 && '\n' !in a2
    requires Text.Trimmed(q1) && q1 != [] && Text.Trimmed(a1) && a1 != []
    requires Text.Trimmed(q2) && q2 != [] && Text.Trimmed(a2) && a2 != []
    requires '|' !in other && '\n' !in other
    ensures Parse(l1 + "\n" + other + "\n" + l3) == [Faq(q1, a1), Faq(q2, a2)]
  {
    DropsLine(l1, other, l3);
    ExampleLine(l1, q1, a1);
    ExampleLine(l3, q2, a2);
  }

  /** A line without a bar contributes nothing. */
  lemma DropsLine(before: string, other: string, after: string)
    requires '|' !in other && '\n' !in other
    ensures Parse(before + "\n" + other + "\n" + after) == Parse(before) + Parse(after)
  {
    var rest := other + "\n" + after;
    ParseOneLine(other);
    assert Parse(other) == [];
    ParseAcrossLines(other, after);
    assert Parse(rest) == Parse(after);
    ParseAcrossLines(before, rest);
    assert Parse(before + "\n" + rest) == Parse(before) + Parse(after);
    Regroup(before, other, after, "\n");
  }

  lemma Regroup(a: string, b: string, c: string, sep: string)
    ensures a + sep + b + sep + c == a + sep + (b + sep + c)
  {
  }

  /** A line with one or two bars and no line break gives exactly one pair,
      built from its first two segments. */
  lemma ParseWellFormedLine(q: string, a: string, rest: string)
    requires '|' !in q && '|' !in a
    requires rest == [] || rest[0] == '|'
    requires '\n' !in q + "|" + a + rest
    ensures Parse(q + "|" + a + rest) == [Faq(Clean(q, "Q:"), Clean(a, "A:"))]
  {
    ParseOneLine(q + "|" + a + rest);
    ParseLineSegments(q, a, rest);
  }

  /** A well-formed line `Q: q|A: a` parses to the pair `(q, a)`. */
  lemma ExampleLine(line: string, q: string, a: string)
    requires line == "Q: " + q + "|A: " + a
    requires '|' !in q && '|' !in a && '\n' !in q && '\n' !in a
    requires Text.Trimmed(q) && Text.Trimmed(a)
    ensures Parse(line) == [Faq(q, a)]
  {
    var qs, as_ := "Q: " + q, "A: " + a;
    assert line == qs + "|" + as_ + "";
    ParseWellFormedLine(qs, as_, "");
    CleanQuestion(q);
    CleanAnswer(a);
  }

  lemma CleanQuestion(q: string)
    requires Text.Trimmed(q)
    ensures Clean("Q: " + q, "Q:") == q
  {
    CleanLabel("Q: " + q, "Q:", q);
  }

  lemma CleanAnswer(a: string)
    requires Text.Trimmed(a)
    ensures Clean("A: " + a, "A:") == a
  {
    CleanLabel("A: " + a, "A:", a);
  }

  /** `label + " " + body` cleans to `body` when `body` is trimmed. */
  lemma CleanLabel(segment: string, lbl: string, body: string)
    requires segment == lbl + " " + body
    requires Text.Trimmed(body)
    ensures Clean(segment, lbl) == body
  {
    assert segment[..|lbl|] == lbl;
    assert segment[|lbl|..] == " " + body;
    assert Text.LeadingSpaces(" " + body) == 1 by {
      assert (" " + body)[1..] == body;
      assert Text.LeadingSpaces(body) == 0;
    }
    assert (" " + body)[1..] == body;
    Text.TrimTrimmed(body);
  }

  /** What the component renders: nothing when no line qualifies. */
  function Render(text: string): (r: Option<seq<Faq>>)
    ensures r.None? <==> Text.Separated(Text.Split(text, '\n'), '|')
    ensures r.Some? ==> r.value == Parse(text) && r.value != []
  {
    var faqs := Parse(text);
    NoPairsIffNoBar(Text.Split(text, '\n'));
    if faqs == [] then None else Some(faqs)
  }

  // ---------------------------------------------------------------------
  // The accordion
  // ---------------------------------------------------------------------

  /** `activeIndex`: the index of the open item, or none. Initially none. */
  const InitiallyOpen: Option<nat> := None

  predicate IsOpen(active: Option<nat>, k: nat) {
    active == Some(k)
  }

  /** `toggleAccordion(i)`: clicking the open item closes it, clicking any
      other item opens it and closes the one that was open. */
  function Toggle(active: Option<nat>, i: nat): (r: Option<nat>)
    ensures forall k :: IsOpen(r, k) <==> k == i && !IsOpen(active, i)
  {
    if active == Some(i) then None else Some(i)
  }

  /** Clicking the same item twice restores it, and closes any other item
      that was open before. */
  lemma ToggleTwice(active: Option<nat>, i: nat)
    ensures IsOpen(Toggle(Toggle(active, i), i), i) == IsOpen(active, i)
    ensures forall k :: k != i ==> !IsOpen(Toggle(Toggle(active, i), i), k)
  {
  }

  /** The items after a run of clicks from the initial state. */
  function Clicks(active: Option<nat>, clicks: seq<nat>): Option<nat>
    decreases |clicks|
  {
    if clicks == [] then active else Clicks(Toggle(active, clicks[0]), clicks[1..])
  }

  /** After any run of clicks the open item, if any, is the last one
      clicked. */
  lemma {:induction false} OpenIsLastClicked(active: Option<nat>, clicks: seq<nat>)
    requires clicks != []
    ensures forall k :: IsOpen(Clicks(active, clicks), k) ==> k == clicks[|clicks| - 1]
    decreases |clicks|
  {
    if |clicks| > 1 {
      OpenIsLastClicked(Toggle(active, clicks[0]), clicks[1..]);
    }
  }
}
