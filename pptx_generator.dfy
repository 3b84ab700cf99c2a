/** Deck assembly helpers (backend/services/pptx_generator.py) over
    abstract records: layout choice, preview summaries, the output path,
    filling a text placeholder, and the typography and margin passes.
    Loading and saving decks with python-pptx is not part of this model. */
module PptxGenerator {
  import opened Common
  import opened Text
  import opened JsonValue
  import opened PptxAnalyzer

  // ---------------------------------------------------------------------
  // _get_layout_for_slide_type

  /** The usages preferred for a slide type (no entry for 'image'). */
  function GeneratorPreferences(slideType: string): (r: seq<string>)
    ensures |r| == 2
    ensures slideType !in {"title", "content", "section", "conclusion"} ==> r == ["content", "basic"]
  {
    if slideType == "title" then ["title", "basic"]
    else if slideType == "content" then ["content", "basic"]
    else if slideType == "section" then ["title", "content"]
    else if slideType == "conclusion" then ["content", "basic"]
    else ["content", "basic"]
  }

  /** A layout entry that names `pref` and points inside the deck. */
  predicate Usable(l: LayoutInfo, pref: string, layoutCount: nat) {
    UsageName(l.usedFor) == pref && l.index < layoutCount
  }

  /** The deck index of the first usable entry for `pref`. */
  function FirstUsable(layouts: seq<LayoutInfo>, pref: string, layoutCount: nat): (r: Option<nat>)
    ensures r.Some? ==> r.value < layoutCount
    ensures r.Some? ==> exists k :: (0 <= k < |layouts| && Usable(layouts[k], pref, layoutCount)
                                      && layouts[k].index == r.value
                                      && forall m :: 0 <= m < k ==> !Usable(layouts[m], pref, layoutCount))
    ensures r.None? <==> forall k :: 0 <= k < |layouts| ==> !Usable(layouts[k], pref, layoutCount)
  {
    if layouts == [] then None
    else if Usable(layouts[0], pref, layoutCount) then Some(layouts[0].index)
    else
      var t := FirstUsable(layouts[1..], pref, layoutCount);
      if t.Some? then
        var k :| 0 <= k < |layouts[1..]| && Usable(layouts[1..][k], pref, layoutCount)
          && layouts[1..][k].index == t.value
          && forall m :: 0 <= m < k ==> !Usable(layouts[1..][m], pref, layoutCount);
        assert forall m :: 0 <= m < k + 1 ==> !Usable(layouts[m], pref, layoutCount) by {
          forall m | 0 <= m < k + 1 ensures !Usable(layouts[m], pref, layoutCount) {
            if m > 0 { assert layouts[m] == layouts[1..][m - 1]; }
          }
        }
        assert layouts[k + 1] == layouts[1..][k];
        t
      else
        assert forall k :: 0 <= k < |layouts| ==> !Usable(layouts[k], pref, layoutCount) by {
          forall k | 0 <= k < |layouts| ensures !Usable(layouts[k], pref, layoutCount) {
            if k > 0 { assert layouts[k] == layouts[1..][k - 1]; }
          }
        }
        None
  }

  /** `_get_layout_for_slide_type`, giving the index of the chosen deck
      layout: the first usable entry for the first preference that has one;
      else layout 0; None when the deck has no layouts. */
  function GetLayoutForSlideType(layouts: seq<LayoutInfo>, layoutCount: nat, slideType: string): (r: Option<nat>)
    ensures r.None? <==> layoutCount == 0
    ensures r.Some? ==> r.value < layoutCount
    ensures var prefs := GeneratorPreferences(slideType);
      FirstUsable(layouts, prefs[0], layoutCount).Some? ==> r == FirstUsable(layouts, prefs[0], layoutCount)
    ensures var prefs := GeneratorPreferences(slideType);
      FirstUsable(layouts, prefs[0], layoutCount).None? ==>
        r == if FirstUsable(layouts, prefs[1], layoutCount).Some? then FirstUsable(layouts, prefs[1], layoutCount)
             else if layoutCount > 0 then Some(0) else None
  {
    var prefs := GeneratorPreferences(slideType);
    var first := FirstUsable(layouts, prefs[0], layoutCount);
    if first.Some? then first
    else
      var second := FirstUsable(layouts, prefs[1], layoutCount);
      if second.Some? then second
      else if layoutCount > 0 then Some(0) else None
  }

  /** An entry pointing past the deck's layouts is never chosen, even when
      it is the only one naming the preferred usage. */
  lemma OutOfRangeEntryIgnored(l: LayoutInfo, layoutCount: nat, slideType: string)
    requires l.index >= layoutCount
    ensures GetLayoutForSlideType([l], layoutCount, slideType) == if layoutCount > 0 then Some(0) else None
  {
    var prefs := GeneratorPreferences(slideType);
    assert !Usable([l][0], prefs[0], layoutCount) && !Usable([l][0], prefs[1], layoutCount);
  }

  // ---------------------------------------------------------------------
  // create_presentation_preview, _count_slide_elements, _suggest_layout

  /** A slide dictionary as the preview reads it; absent keys are None. */
  datatype SlideData = SlideData(number: Option<Json>, title: Option<string>, content: Option<seq<string>>,
                                 kind: Option<string>, notes: Option<Json>)

  datatype Elements = Elements(textBlocks: nat, hasTitle: bool, hasNotes: bool, estimatedImages: nat)

  datatype Preview = Preview(number: Json, title: string, contentPreview: seq<string>, kind: string,
                             hasNotes: bool, elements: Elements, suggestion: string)

  function ContentOf(s: SlideData): seq<string> { s.content.GetOr([]) }

  function KindOf(s: SlideData): string { s.kind.GetOr("content") }

  function NotesTruthy(s: SlideData): bool { Truthy(s.notes.GetOr(JStr(""))) }

  /** `_suggest_layout`: title slides get the title layout whatever their
      content; others are bucketed by their number of items. */
  function SuggestLayout(s: SlideData): (r: string)
    ensures KindOf(s) == "title" ==> r == "Title Slide"
    ensures KindOf(s) != "title" ==>
      (r == "Content Heavy" <==> |ContentOf(s)| > 5)
      && (r == "Minimal Content" <==> |ContentOf(s)| <= 2)
      && (r == "Standard Content" <==> 3 <= |ContentOf(s)| <= 5)
  {
    var count := |ContentOf(s)|;
    if KindOf(s) == "title" then "Title Slide"
    else if count > 5 then "Content Heavy"
    else if count <= 2 then "Minimal Content"
    else "Standard Content"
  }

  /** `_count_slide_elements`: one text block per item; one estimated image
      unless the slide type is 'title' (a missing type is not 'title'). */
  function CountSlideElements(s: SlideData): (e: Elements)
    ensures e.textBlocks == |ContentOf(s)|
    ensures e.estimatedImages == 0 <==> s.kind == Some("title")
    ensures e.hasTitle <==> s.title.Some? && s.title.value != []
    ensures e.hasNotes == NotesTruthy(s)
  {
    Elements(|ContentOf(s)|, s.title.GetOr("") != [], NotesTruthy(s),
             if s.kind != Some("title") then 1 else 0)
  }

  /** One slide's summary: the number defaulting to 1, the title to "",
      the type to 'content'; the first three items; the element counts and
      the layout suggestion of the slide. A title slide is suggested the
      title layout and estimated to have no image. */
  function PreviewOf(s: SlideData): (p: Preview)
    ensures p.number == s.number.GetOr(JNum(1))
    ensures p.title == s.title.GetOr("")
    ensures p.kind == s.kind.GetOr("content")
    ensures p.contentPreview == Take(ContentOf(s), 3) && |p.contentPreview| <= 3
    ensures p.elements == CountSlideElements(s) && p.suggestion == SuggestLayout(s)
    ensures p.hasNotes == p.elements.hasNotes
    ensures p.kind == "title" <==> p.elements.estimatedImages == 0
    ensures p.kind == "title" ==> p.suggestion == "Title Slide"
  {
    Preview(s.number.GetOr(JNum(1)), s.title.GetOr(""), Take(ContentOf(s), 3), KindOf(s),
            NotesTruthy(s), CountSlideElements(s), SuggestLayout(s))
  }

  /** `create_presentation_preview`: one summary per slide, in order. */
  function CreatePresentationPreview(slides: seq<SlideData>): (r: seq<Preview>)
    ensures |r| == |slides|
    ensures forall i :: 0 <= i < |r| ==> r[i] == PreviewOf(slides[i])
  {
    seq(|slides|, i requires 0 <= i < |slides| => PreviewOf(slides[i]))
  }

  /** The preview keeps every slide's first three items in order, numbers a
      slide without a number as 1, and its item counts sum to those of the
      deck. */
  lemma PreviewFacts(slides: seq<SlideData>, i: nat)
    requires i < |slides|
    ensures CreatePresentationPreview(slides)[i].contentPreview == ContentOf(slides[i])[..|CreatePresentationPreview(slides)[i].contentPreview|]
    ensures slides[i].number.None? ==> CreatePresentationPreview(slides)[i].number == JNum(1)
    ensures CreatePresentationPreview(slides)[i].elements.textBlocks == |ContentOf(slides[i])|
  {
  }

  // ---------------------------------------------------------------------
  // output path

  const Extension: string := ".pptx"
  const Rewritten: string := "_generated.pptx"
  const DefaultOutput: string := "generated_presentation.pptx"

  /** The path the deck is saved to: every '.pptx' in the template path is
      replaced by '_generated.pptx'; without a template a fixed name. */
  function OutputPath(templatePath: Option<string>): (r: string)
    ensures (templatePath.None? || templatePath.value == []) ==> r == DefaultOutput
  {
    if templatePath.Some? && templatePath.value != [] then ReplaceAll(templatePath.value, Extension, Rewritten)
    else DefaultOutput
  }

  /** A template stored as `<stem>.pptx`, with no '.' in the stem, is saved
      next to itself as `<stem>_generated.pptx`. */
  lemma {:induction false} OutputPathOfPptx(stem: string)
    requires forall i :: 0 <= i < |stem| ==> stem[i] != '.'
    ensures OutputPath(Some(stem + Extension)) == stem + Rewritten
    decreases |stem|
  {
    var s := stem + Extension;
    if stem == [] {
      assert s[..|Extension|] == Extension;
      assert ReplaceAll(s[|Extension|..], Extension, Rewritten) == [];
      assert stem + Rewritten == Rewritten + [];
    } else {
      assert s[0] == stem[0] && s[..|Extension|] != Extension;
      assert s[1..] == stem[1..] + Extension;
      OutputPathOfPptx(stem[1..]);
      assert stem == [stem[0]] + stem[1..];
    }
  }

  /** '.potx' never contains '.pptx', so a `<stem>.potx` template with no
      '.' in the stem comes back unchanged: the deck would overwrite it. */
  lemma PotxPathUnchanged(stem: string)
    requires forall i :: 0 <= i < |stem| ==> stem[i] != '.'
    ensures OutputPath(Some(stem + ".potx")) == stem + ".potx"
  {
    NoPptxInPotx(stem);
    ReplaceAllAbsent(stem + ".potx", Extension, Rewritten);
  }

  lemma {:induction false} NoPptxInPotx(stem: string)
    requires forall i :: 0 <= i < |stem| ==> stem[i] != '.'
    ensures !Contains(stem + ".potx", Extension)
    decreases |stem|
  {
    var s := stem + ".potx";
    if stem == [] {
      assert s == ".potx";
      assert s[..5] != Extension by { assert s[2] != Extension[2]; }
      assert s[1..] == "potx";
      assert !Contains("potx", Extension) by {
        assert "potx"[1..] == "otx";
        assert "otx"[1..] == "tx";
        assert "tx"[1..] == "x";
        assert "x"[1..] == "";
      }
    } else {
      assert s[0] != '.';
      assert s[1..] == stem[1..] + ".potx";
      NoPptxInPotx(stem[1..]);
    }
  }

  // ---------------------------------------------------------------------
  // _populate_text_placeholder

  /** EMU per point. */
  const EmuPerPoint: int := 12700
  const MaxItems: nat := 8

  function Pt(points: int): int { points * EmuPerPoint }

  datatype Run = Run(text: string, font: Option<string>, size: Option<int>)

  datatype Paragraph = Paragraph(runs: seq<Run>, level: nat)

  /** A paragraph holding one item, formatted by `_apply_paragraph_formatting`. */
  function ItemParagraph(item: string, bodyFont: string): Paragraph {
    Paragraph([Run(item, Some(bodyFont), Some(Pt(18)))], 0)
  }

  /** The paragraphs after filling: at most eight items, in order, the first
      in the frame's existing first paragraph, all at level 0. */
  function Filled(first: Paragraph, items: seq<string>, bodyFont: string): (r: seq<Paragraph>)
    ensures |r| == if |items| == 0 then 1 else if |items| < MaxItems then |items| else MaxItems
    ensures items == [] ==> r == [Paragraph([], first.level)]
    ensures forall i :: 0 <= i < |r| && i < |items| ==> r[i] == ItemParagraph(items[i], bodyFont)
  {
    var kept := Take(items, MaxItems);
    if kept == [] then [Paragraph([], first.level)]
    else seq(|kept|, i requires 0 <= i < |kept| => ItemParagraph(kept[i], bodyFont))
  }

  /** A placeholder's text frame; it always holds at least one paragraph. */
  class TextFrame {
    var paragraphs: seq<Paragraph>

    predicate Valid()
      reads this
    {
      |paragraphs| >= 1
    }

    constructor (ps: seq<Paragraph>)
      requires |ps| >= 1
      ensures Valid() && paragraphs == ps
    {
      paragraphs := ps;
    }

    /** `text_frame.clear()`: only the first paragraph stays, emptied. */
    method Clear()
      requires Valid()
      modifies this
      ensures Valid() && paragraphs == [Paragraph([], old(paragraphs[0].level))]
    {
      paragraphs := [Paragraph([], paragraphs[0].level)];
    }

    /** `_populate_text_placeholder`. */
    method PopulateTextPlaceholder(items: seq<string>, bodyFont: string)
      requires Valid()
      modifies this
      ensures Valid() && paragraphs == Filled(old(paragraphs[0]), items, bodyFont)
    {
      ghost var first := paragraphs[0];
      Clear();
      var kept := Take(items, MaxItems);
      var i := 0;
      while i < |kept|
        invariant 0 <= i <= |kept|
        invariant |paragraphs| == if i == 0 then 1 else i
        invariant i == 0 ==> paragraphs == [Paragraph([], first.level)]
        invariant forall k :: 0 <= k < i ==> paragraphs[k] == ItemParagraph(kept[k], bodyFont)
      {
        var p := ItemParagraph(kept[i], bodyFont);
        if i == 0 {
          paragraphs := [p];
        } else {
          paragraphs := paragraphs + [p];
        }
        i := i + 1;
      }
    }
  }

  // ---------------------------------------------------------------------
  // _improve_typography and _optimize_slide_layouts

  /** The font of one text run. */
  datatype RunFont = RunFont(name: Option<string>, size: Option<int>)

  /** One run after `_improve_typography`: a set size under 14pt becomes
      16pt; an unset, empty or Calibri name becomes the body font. */
  function Improved(r: RunFont, bodyFont: string): (s: RunFont)
    ensures s.size.None? || s.size.value == 0 || s.size.value >= Pt(14)
    ensures r.size.Some? && r.size.value != 0 && r.size.value < Pt(14) ==> s.size == Some(Pt(16))
    ensures r.size.None? || r.size.value == 0 || r.size.value >= Pt(14) ==> s.size == r.size
    ensures r.name.Some? && r.name.value != [] && r.name.value != "Calibri" ==> s.name == r.name
    ensures r.name.None? || r.name.value == [] || r.name.value == "Calibri" ==> s.name == Some(bodyFont)
  {
    var size := if r.size.Some? && r.size.value != 0 && r.size.value < Pt(14) then Some(Pt(16)) else r.size;
    var name := if r.name.None? || r.name.value == [] || r.name.value == "Calibri" then Some(bodyFont) else r.name;
    RunFont(name, size)
  }

  /** Running the pass twice changes nothing more. */
  lemma ImprovedIdempotent(r: RunFont, bodyFont: string)
    ensures Improved(Improved(r, bodyFont), bodyFont) == Improved(r, bodyFont)
  {
  }

  /** `_improve_typography` over every run of the deck. */
  method ImproveTypography(runs: array<RunFont>, bodyFont: string)
    modifies runs
    ensures forall i :: 0 <= i < runs.Length ==> runs[i] == Improved(old(runs[i]), bodyFont)
  {
    var i := 0;
    while i < runs.Length
      invariant 0 <= i <= runs.Length
      invariant forall k :: 0 <= k < i ==> runs[k] == Improved(old(runs[k]), bodyFont)
      invariant forall k :: i <= k < runs.Length ==> runs[k] == old(runs[k])
    {
      var run := runs[i];
      if run.size.Some? && run.size.value != 0 && run.size.value < Pt(14) {
        run := run.(size := Some(Pt(16)));
      }
      if run.name.None? || run.name.value == [] || run.name.value == "Calibri" {
        run := run.(name := Some(bodyFont));
      }
      runs[i] := run;
      i := i + 1;
    }
  }

  /** EMU per inch. */
  const EmuPerInch: int := 914400
  const MinOffset: int := EmuPerInch / 2
  const FrameMargin: int := EmuPerInch / 10

  datatype Margins = Margins(left: int, right: int, top: int, bottom: int)

  /** A shape's position; `margins` is present only for shapes with a text
      frame. */
  datatype ShapeBox = ShapeBox(hasText: bool, left: int, top: int, margins: Option<Margins>)

  /** A text shape after `_optimize_slide_layouts`: left and top raised to at
      least half an inch, the frame margins set to a tenth of an inch. Other
      shapes are untouched. */
  function Optimized(s: ShapeBox): (r: ShapeBox)
    ensures !s.hasText ==> r == s
    ensures s.hasText ==> r.left >= MinOffset && r.top >= MinOffset
    ensures s.hasText ==> (r.left == s.left <==> s.left >= MinOffset) && (r.top == s.top <==> s.top >= MinOffset)
    ensures s.hasText ==> r.margins == Some(Margins(FrameMargin, FrameMargin, FrameMargin, FrameMargin))
  {
    if !s.hasText then s
    else
      ShapeBox(true, if s.left < MinOffset then MinOffset else s.left,
               if s.top < MinOffset then MinOffset else s.top,
               Some(Margins(FrameMargin, FrameMargin, FrameMargin, FrameMargin)))
  }

  lemma OptimizedIdempotent(s: ShapeBox)
    ensures Optimized(Optimized(s)) == Optimized(s)
  {
  }

  /** `_optimize_slide_layouts` over every shape of the deck. */
  method OptimizeSlideLayouts(shapes: array<ShapeBox>)
    modifies shapes
    ensures forall i :: 0 <= i < shapes.Length ==> shapes[i] == Optimized(old(shapes[i]))
  {
    var i := 0;
    while i < shapes.Length
      invariant 0 <= i <= shapes.Length
      invariant forall k :: 0 <= k < i ==> shapes[k] == Optimized(old(shapes[k]))
      invariant forall k :: i <= k < shapes.Length ==> shapes[k] == old(shapes[k])
    {
      var s := shapes[i];
      if s.hasText {
        if s.left < MinOffset {
          s := s.(left := MinOffset);
        }
        if s.top < MinOffset {
          s := s.(top := MinOffset);
        }
        s := s.(margins := Some(Margins(FrameMargin, FrameMargin, FrameMargin, FrameMargin)));
      }
      shapes[i] := s;
      i := i + 1;
    }
  }
}
