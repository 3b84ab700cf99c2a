/** The slide preview of the third wizard step: a cursor over the slides
    stepped by the two arrow buttons, the badge colour of each slide type,
    and the counts shown under the list. */
module SlidePreview {
  import opened Common
  import opened Text
  import opened JsonValue
  import opened LlmService

  datatype Direction = Next | Prev

  /** `navigateSlide(direction)` on the index, for `count` slides. */
  function Step(selected: int, count: nat, d: Direction): (r: int)
    ensures 0 <= selected < count ==> 0 <= r < count
    ensures d == Next ==> r == selected || r == selected + 1
    ensures d == Prev ==> r == selected || r == selected - 1
    ensures r != selected <==> (d == Next && selected < count - 1) || (d == Prev && selected > 0)
  {
    if d == Next && selected < count - 1 then selected + 1
    else if d == Prev && selected > 0 then selected - 1
    else selected
  }

  predicate PrevDisabled(selected: int) { selected == 0 }

  predicate NextDisabled(selected: int, count: nat) { selected == count - 1 }

  /** On a valid index a button is disabled exactly when pressing it would
      not move the cursor. */
  lemma DisabledExactlyWhenStuck(selected: int, count: nat)
    requires 0 <= selected < count
    ensures Step(selected, count, Prev) == selected <==> PrevDisabled(selected)
    ensures Step(selected, count, Next) == selected <==> NextDisabled(selected, count)
  {
  }

  /** The index after pressing the buttons in `presses` order. */
  function Walk(selected: int, count: nat, presses: seq<Direction>): int
    decreases |presses|
  {
    if presses == [] then selected
    else Walk(Step(selected, count, presses[0]), count, presses[1..])
  }

  /** Starting on a slide, no sequence of presses leaves the slides. */
  lemma {:induction false} WalkStaysInRange(selected: int, count: nat, presses: seq<Direction>)
    requires 0 <= selected < count
    ensures 0 <= Walk(selected, count, presses) < count
    decreases |presses|
  {
    if presses != [] {
      WalkStaysInRange(Step(selected, count, presses[0]), count, presses[1..]);
    }
  }

  /** Pressing "next" often enough reaches the last slide and stays there. */
  lemma {:induction false} NextReachesLast(selected: int, count: nat, presses: seq<Direction>)
    requires 0 <= selected < count
    requires |presses| >= count - 1 - selected
    requires forall k :: 0 <= k < |presses| ==> presses[k] == Next
    ensures Walk(selected, count, presses) == count - 1
    decreases |presses|
  {
    if presses != [] {
      NextReachesLast(Step(selected, count, Next), count, presses[1..]);
    }
  }

  /** As written, new slides arriving while the preview is shown leave the
      selected index as it was (`useState` keeps its value across prop
      changes, and nothing resets it). */
  function KeptSelection(selected: int, newCount: nat): (r: int)
    ensures r == selected
  {
    selected
  }

  /** A re-analysis that yields fewer slides than the selected index leaves
      the index past the end, so `slides[selectedSlide]` is undefined and
      reading its `slide_type` throws. */
  lemma KeptSelectionOutOfRange(selected: int, count: nat, newCount: nat)
    requires 0 <= selected < count && 0 < newCount <= selected
    ensures !(0 <= KeptSelection(selected, newCount) < newCount)
  {
  }

  /** The selection after new slides arrive, kept in range: the same slide
      while it still exists, the last slide otherwise. */
  function SelectionAfterNewSlides(selected: int, newCount: nat): (r: int)
    requires newCount > 0
    ensures 0 <= r < newCount
    ensures 0 <= selected < newCount ==> r == selected
    ensures selected >= newCount ==> r == newCount - 1
  {
    if selected < 0 then 0 else if selected < newCount then selected else newCount - 1
  }

  /** The component's selected-slide state over its `slides` prop. The
      component is mounted only while there are slides, so the count stays
      positive; it changes when a new analysis replaces the slides. */
  class Cursor {
    var count: nat
    var selected: int

    predicate Valid()
      reads this
    {
      count > 0 && 0 <= selected < count
    }

    /** The preview starts on the first slide. */
    constructor(count: nat)
      requires count > 0
      ensures this.count == count && selected == 0 && Valid()
    {
      this.count := count;
      selected := 0;
    }

    method Navigate(d: Direction)
      requires Valid()
      modifies this
      ensures Valid() && count == old(count)
      ensures selected == Step(old(selected), count, d)
    {
      if d == Next && selected < count - 1 {
        selected := selected + 1;
      } else if d == Prev && selected > 0 {
        selected := selected - 1;
      }
    }

    /** New slides from a re-analysis: the count follows the prop and the
      selection is brought back into range. */
    method ShowSlides(newCount: nat)
      requires Valid() && newCount > 0
      modifies this
      ensures Valid() && count == newCount
      ensures selected == SelectionAfterNewSlides(old(selected), newCount)
    {
      count := newCount;
      if selected >= newCount {
        selected := newCount - 1;
      }
    }

    /** Clicking an entry of the list selects it. */
    method Select(index: nat)
      requires Valid() && index < count
      modifies this
      ensures Valid() && count == old(count) && selected == index
    {
      selected := index;
    }
  }

  // ---------------------------------------------------------------------
  // Badges and counts

  const TitleColor := "bg-purple-100 text-purple-800 border-purple-200"
  const SectionColor := "bg-blue-100 text-blue-800 border-blue-200"
  const ConclusionColor := "bg-green-100 text-green-800 border-green-200"
  const DefaultColor := "bg-gray-100 text-gray-800 border-gray-200"

  /** `getSlideTypeColor`: three types have a colour of their own, every
      other value (a missing type included) gets the grey one. */
  function SlideTypeColor(kind: Json): (r: string)
    ensures r == DefaultColor <==> kind !in {JStr("title"), JStr("section"), JStr("conclusion")}
    ensures kind == JStr("title") <==> r == TitleColor
    ensures kind == JStr("section") <==> r == SectionColor
    ensures kind == JStr("conclusion") <==> r == ConclusionColor
  {
    match kind
    case JStr("title") => TitleColor
    case JStr("section") => SectionColor
    case JStr("conclusion") => ConclusionColor
    case _ => DefaultColor
  }

  /** `slides.filter(s => s.notes).length`, with the browser's truthiness. */
  function NotesCount(slides: seq<Slide>): (n: nat)
    ensures n <= |slides|
    ensures n == |slides| <==> forall k :: 0 <= k < |slides| ==> JsTruthy(slides[k].notes)
    ensures n == 0 <==> forall k :: 0 <= k < |slides| ==> !JsTruthy(slides[k].notes)
  {
    if slides == [] then 0
    else
      var rest := NotesCount(slides[1..]);
      assert forall k :: 0 < k < |slides| ==> slides[k] == slides[1..][k - 1];
      (if JsTruthy(slides[0].notes) then 1 else 0) + rest
  }

  /** The "N point(s)" line under a list entry: only for non-empty content,
      singular exactly for one item. */
  function PointsLabel(content: seq<string>): (r: Option<string>)
    ensures r.None? <==> content == []
    ensures r.Some? ==> StartsWith(r.value, NatToString(|content|) + " point")
    ensures r.Some? ==> (r.value[|r.value| - 1] == 's' <==> |content| != 1)
  {
    if content == [] then None
    else
      var base := NatToString(|content|) + " point";
      Some(base + if |content| != 1 then "s" else "")
  }

  datatype Stats = Stats(total: nat, withNotes: nat)

  /** The component renders nothing without slides; otherwise the totals
      under the list. */
  function StatsOf(slides: seq<Slide>): (r: Option<Stats>)
    ensures r.None? <==> slides == []
    ensures r.Some? ==> r.value.total == |slides| && r.value.withNotes <= r.value.total
  {
    if slides == [] then None else Some(Stats(|slides|, NotesCount(slides)))
  }
}
