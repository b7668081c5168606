/** The recipe card of a recipe page (src/components/RecipeBlock.tsx): the
    ingredient, instruction and equipment lists cut out of free-text CMS
    fields, the ingredient checkboxes, the "Cook Mode" switch and the star
    counts of the rating line. */
module RecipeBlock {
  import opened Wrappers
  import Text

  /** The custom fields of a recipe as the CMS returns them. A missing or
      null field is `None`; HTML fields are opaque strings. */
  datatype Fields = Fields(
    ingredients: Option<string>,
    instructions: Option<string>,
    equipment: Option<string>,
    rating: Option<real>,
    notes: Option<string>)

  // ---------------------------------------------------------------------
  // Line lists
  // ---------------------------------------------------------------------

  /** `filter(item => item.trim() !== '')`: keep the lines that are not all
      white space, untrimmed and in order. */
  function KeepNonBlank(lines: seq<string>): (kept: seq<string>)
    ensures |kept| <= |lines|
    ensures forall k :: 0 <= k < |kept| ==> !Text.Blank(kept[k])
    decreases |lines|
  {
    if lines == [] then []
    else if Text.Trim(lines[0]) != "" then [lines[0]] + KeepNonBlank(lines[1..])
    else KeepNonBlank(lines[1..])
  }

  lemma {:induction false} KeepNonBlankAppend(xs: seq<string>, ys: seq<string>)
    ensures KeepNonBlank(xs + ys) == KeepNonBlank(xs) + KeepNonBlank(ys)
    decreases |xs|
  {
    if xs == [] {
      assert xs + ys == ys;
    } else {
      assert (xs + ys)[0] == xs[0];
      assert (xs + ys)[1..] == xs[1..] + ys;
      KeepNonBlankAppend(xs[1..], ys);
    }
  }

  /** `field?.split('\n').filter(...) || []`: an absent field gives no
      lines; a present one gives its non-blank lines. No kept line holds a
      line break or is all white space. */
  function Lines(field: Option<string>): (r: seq<string>)
    ensures field.None? ==> r == []
    ensures forall k :: 0 <= k < |r| ==> !Text.Blank(r[k]) && '\n' !in r[k]
  {
    if field.None? then []
    else
      var parts := Text.Split(field.value, '\n');
      var kept := KeepNonBlank(parts);
      KeptSeparated(parts);
      kept
  }

  /** Lines without a line break stay without one when filtered. */
  lemma {:induction false} KeptSeparated(lines: seq<string>)
    requires Text.Separated(lines, '\n')
    ensures Text.Separated(KeepNonBlank(lines), '\n')
    decreases |lines|
  {
    if lines != [] {
      var rest := lines[1..];
      Text.TailPieces(lines, '\n');
      KeptSeparated(rest);
      if Text.Trim(lines[0]) != "" {
        Text.SeparatedCons(lines[0], KeepNonBlank(rest), '\n');
      }
    }
  }

  /** A single line is kept exactly when it is not all white space, and it
      is kept as it is, untrimmed. */
  lemma LinesOfOneLine(line: string)
    requires '\n' !in line
    ensures Lines(Some(line)) == if Text.Blank(line) then [] else [line]
  {
    Text.SplitNoSeparator(line, '\n');
    assert [line][1..] == [];
  }

  /** Lists are built line by line: the lines of two texts joined by a line
      break are the lines of the first followed by those of the second.
      With `LinesOfOneLine` this fixes every list, in input order. */
  lemma LinesAcross(a: string, b: string)
    ensures Lines(Some(a + "\n" + b)) == Lines(Some(a)) + Lines(Some(b))
  {
    assert a + "\n" + b == a + ['\n'] + b;
    Text.SplitAround(a, b, '\n');
    KeepNonBlankAppend(Text.Split(a, '\n'), Text.Split(b, '\n'));
  }

  /** A field of white space and line breaks only, the empty field among
      them, gives an empty list, like an absent one. */
  lemma {:induction false} BlankFieldNoLines(text: string)
    requires Text.Blank(text)
    ensures Lines(Some(text)) == []
    decreases |text|
  {
    if '\n' in text {
      var i := Text.IndexOf(text, '\n');
      var a, b := text[..i], text[i + 1..];
      assert Text.Blank(a) by {
        forall k | 0 <= k < |a| ensures Text.IsSpace(a[k]) {
          assert a[k] == text[k];
        }
      }
      assert Text.Blank(b) by {
        forall k | 0 <= k < |b| ensures Text.IsSpace(b[k]) {
          assert b[k] == text[i + 1 + k];
        }
      }
      assert text == a + "\n" + b;
      LinesAcross(a, b);
      LinesOfOneLine(a);
      BlankFieldNoLines(b);
    } else {
      LinesOfOneLine(text);
    }
  }

  /** `index + 1` beside each instruction: the steps numbered from `from`. */
  function NumberFrom(steps: seq<string>, from: nat): (r: seq<(nat, string)>)
    ensures |r| == |steps|
    ensures forall k :: 0 <= k < |r| ==> r[k] == (from + k, steps[k])
    decreases |steps|
  {
    if steps == [] then [] else [(from, steps[0])] + NumberFrom(steps[1..], from + 1)
  }

  /** The instructions are numbered 1, 2, 3, ... in order. */
  function Numbered(steps: seq<string>): (r: seq<(nat, string)>)
    ensures |r| == |steps|
    ensures forall k :: 0 <= k < |r| ==> r[k].0 == k + 1 && r[k].1 == steps[k]
  {
    NumberFrom(steps, 1)
  }

  // ---------------------------------------------------------------------
  // Checkboxes and cook mode
  // ---------------------------------------------------------------------

  /** `checkedIngredients`: a record from index to flag, empty at first. */
  type CheckedMap = map<nat, bool>

  const NoneChecked: CheckedMap := map[]

  /** `!!checkedIngredients[index]`: an index never toggled reads as
      unchecked. */
  predicate Checked(m: CheckedMap, i: nat) {
    i in m && m[i]
  }

  /** `handleCheckboxChange(index)`: entry `i` is set to the negation of
      what it reads as; every other entry is left as it was. */
  function ToggleChecked(m: CheckedMap, i: nat): (r: CheckedMap)
    ensures Checked(r, i) == !Checked(m, i)
    ensures forall j :: j != i ==> Checked(r, j) == Checked(m, j)
    ensures r.Keys == m.Keys + {i}
    ensures forall j :: j in m && j != i ==> r[j] == m[j]
  {
    m[i := !Checked(m, i)]
  }

  /** Toggling the same box twice restores every box as it reads; the map
      itself is restored when the box had been toggled before (an untouched
      box is left with an explicit `false`). */
  lemma ToggleTwice(m: CheckedMap, i: nat)
    ensures forall j :: Checked(ToggleChecked(ToggleChecked(m, i), i), j) == Checked(m, j)
    ensures i in m ==> ToggleChecked(ToggleChecked(m, i), i) == m
    ensures i !in m ==> ToggleChecked(ToggleChecked(m, i), i) == m[i := false]
  {
  }

  /** The boxes after a run of clicks. */
  function ClickBoxes(m: CheckedMap, clicks: seq<nat>): CheckedMap
    decreases |clicks|
  {
    if clicks == [] then m else ClickBoxes(ToggleChecked(m, clicks[0]), clicks[1..])
  }

  /** The number of times `i` occurs in `clicks`. */
  function Count(clicks: seq<nat>, i: nat): nat
    decreases |clicks|
  {
    if clicks == [] then 0 else (if clicks[0] == i then 1 else 0) + Count(clicks[1..], i)
  }

  /** After a run of clicks a box reads as it did before, flipped once per
      click on that box and never by a click on another one; from the
      initial state, it is ticked exactly when clicked an odd number of
      times. */
  lemma {:induction false} CheckedIffOddClicks(m: CheckedMap, clicks: seq<nat>, i: nat)
    ensures Checked(ClickBoxes(m, clicks), i) <==> (Checked(m, i) != (Count(clicks, i) % 2 == 1))
    decreases |clicks|
  {
    if clicks != [] {
      CheckedIffOddClicks(ToggleChecked(m, clicks[0]), clicks[1..], i);
    }
  }

  /** `isCookMode` starts off. */
  const CookModeInitially := false

  /** `toggleCookMode`. */
  function ToggleCookMode(on: bool): (r: bool)
    ensures r != on
  {
    !on
  }

  function CookModeAfter(toggles: nat): bool {
    if toggles == 0 then CookModeInitially else ToggleCookMode(CookModeAfter(toggles - 1))
  }

  /** Cook mode is on exactly after an odd number of presses. */
  lemma {:induction false} CookModeParity(toggles: nat)
    ensures CookModeAfter(toggles) <==> toggles % 2 == 1
  {
    if toggles > 0 {
      CookModeParity(toggles - 1);
    }
  }

  // ---------------------------------------------------------------------
  // Star rating
  // ---------------------------------------------------------------------

  datatype Stars = Stars(full: int, half: bool, empty: int)

  /** `Array(n)` with a negative length throws a RangeError. */
  datatype StarError = RangeError

  /** The three counts of `StarRating`: `Math.floor(rating)` full stars, a
      half star when `rating % 1 !== 0`, and the rest of five as empty
      stars. A missing rating counts as 0 (the default parameter covers
      `undefined`, and `Math.floor(null)` and `null % 1` are both 0). A
      rating below 0 or above 5 makes one of the array lengths negative,
      and building the array throws. */
  function StarCounts(rating: Option<real>): (r: Result<Stars, StarError>)
    ensures var x := rating.GetOr(0.0);
            r.Ok? <==> 0.0 <= x <= 5.0
    ensures r.Ok? ==> var x := rating.GetOr(0.0);
            && r.value.full == x.Floor
            && (r.value.half <==> x != x.Floor as real)
            && r.value.full + (if r.value.half then 1 else 0) + r.value.empty == 5
            && 0 <= r.value.full <= 5 && 0 <= r.value.empty <= 5
  {
    var x := rating.GetOr(0.0);
    var full := x.Floor;
    var half := x != full as real;
    var empty := 5 - full - (if half then 1 else 0);
    if full < 0 || empty < 0 then Err(RangeError) else Ok(Stars(full, half, empty))
  }

  /** The full stars and the half star together stand for the rating
      rounded up, and the full stars alone for it rounded down. */
  lemma StarsBracketRating(x: real)
    requires 0.0 <= x <= 5.0
    ensures StarCounts(Some(x)).Ok?
    ensures var s := StarCounts(Some(x)).value;
            s.full as real <= x <= (s.full + (if s.half then 1 else 0)) as real
            && x - (s.full as real) < 1.0
  {
  }

  /** Examples: 4.5 shows four full stars, a half and none empty; 5 shows
      five full; 0 and a missing rating show five empty; 5.5 and -0.5
      throw. */
  lemma StarExamples()
    ensures StarCounts(Some(4.5)) == Ok(Stars(4, true, 0))
    ensures StarCounts(Some(5.0)) == Ok(Stars(5, false, 0))
    ensures StarCounts(None) == Ok(Stars(0, false, 5)) == StarCounts(Some(0.0))
    ensures StarCounts(Some(5.5)).Err? && StarCounts(Some(-0.5)).Err?
  {
    assert (4.5).Floor == 4;
    assert (5.5).Floor == 5;
    assert (-0.5).Floor == -1;
  }

  // ---------------------------------------------------------------------
  // The component
  // ---------------------------------------------------------------------

  datatype Ingredient = Ingredient(text: string, checked: bool)

  datatype Card = Card(
    title: string,
    stars: Stars,
    cookModeLabel: string,
    equipment: Option<seq<string>>,
    ingredients: seq<Ingredient>,
    steps: seq<(nat, string)>,
    notes: Option<string>)

  datatype Rendered = Nothing | Crashed(error: StarError) | Shown(card: Card)

  /** `Cook Mode {isCookMode ? 'On' : 'Off'}`. */
  function CookModeLabel(on: bool): (l: string)
    ensures l == "Cook Mode On" <==> on
  {
    "Cook Mode " + (if on then "On" else "Off")
  }

  /** The ingredient list: each line beside the state of its checkbox. */
  function Checklist(lines: seq<string>, checked: CheckedMap): (r: seq<Ingredient>)
    ensures |r| == |lines|
    ensures forall k :: 0 <= k < |r| ==> r[k].text == lines[k] && (r[k].checked <==> Checked(checked, k))
  {
    seq(|lines|, k requires 0 <= k < |lines| => Ingredient(lines[k], Checked(checked, k)))
  }

  /** What the component renders for the given fields and state: nothing
      without fields; the thrown error when the star counts cannot be built;
      otherwise the card, whose equipment section appears only when it has
      lines, whose ingredients carry their checkbox state by position, and
      whose notes appear only when non-empty. */
  function Render(fields: Option<Fields>, title: string, checked: CheckedMap, cookMode: bool): (r: Rendered)
    ensures fields.None? <==> r.Nothing?
    ensures r.Crashed? <==> fields.Some? && StarCounts(fields.value.rating).Err?
    ensures r.Shown? ==> var f := fields.value; var c := r.card;
            && c.title == title
            && StarCounts(f.rating) == Ok(c.stars)
            && (c.cookModeLabel == "Cook Mode On" <==> cookMode)
            && (c.equipment.Some? <==> Lines(f.equipment) != [])
            && (c.equipment.Some? ==> c.equipment.value == Lines(f.equipment))
            && |c.ingredients| == |Lines(f.ingredients)|
            && (forall k :: 0 <= k < |c.ingredients| ==>
                  c.ingredients[k].text == Lines(f.ingredients)[k] && (c.ingredients[k].checked <==> Checked(checked, k)))
            && |c.steps| == |Lines(f.instructions)|
            && (forall k :: 0 <= k < |c.steps| ==> c.steps[k] == (k + 1, Lines(f.instructions)[k]))
            && (c.notes.Some? <==> f.notes.Some? && f.notes.value != "")
  {
    if fields.None? then Nothing
    else
      var f := fields.value;
      match StarCounts(f.rating)
      case Err(e) => Crashed(e)
      case Ok(stars) =>
        var equipment := Lines(f.equipment);
        Shown(Card(
          title,
          stars,
          CookModeLabel(cookMode),
          if |equipment| > 0 then Some(equipment) else None,
          Checklist(Lines(f.ingredients), checked),
          Numbered(Lines(f.instructions)),
          if f.notes.Some? && f.notes.value != "" then f.notes else None))
  }
}
