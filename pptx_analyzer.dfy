/** Template inspection (backend/services/pptx_analyzer.py) over abstract
    records: a layout is its name and its placeholders, a shape is its fill
    colour, the colours and font names of its text runs and whether it holds
    a picture. python-pptx itself is not part of this model. */
module PptxAnalyzer {
  import opened Common
  import opened Text

  // ---------------------------------------------------------------------
  // _determine_layout_usage and _extract_layouts

  /** The usage a layout is classified for. */
  datatype Usage = Content | Title | Image | Complex | Basic

  /** The string stored under 'used_for'. */
  function UsageName(u: Usage): (r: string)
    ensures u == Content <==> r == "content"
    ensures u == Title <==> r == "title"
    ensures u == Image <==> r == "image"
    ensures u == Complex <==> r == "complex"
    ensures u == Basic <==> r == "basic"
  {
    match u
    case Content => "content"
    case Title => "title"
    case Image => "image"
    case Complex => "complex"
    case Basic => "basic"
  }

  /** The python-pptx numbering of placeholder types (`PP_PLACEHOLDER`):
      TITLE 1, BODY 2, CENTER_TITLE 3, ..., OBJECT 7, ..., SLIDE_NUMBER 13,
      ..., PICTURE 18, SLIDE_IMAGE 101, and MIXED -2. No placeholder type
      is 0. */
  const PhTitle: int := 1
  const PhBody: int := 2
  const PhObject: int := 7
  const PhSlideNumber: int := 13
  const PhPicture: int := 18

  predicate IsPlaceholderType(t: int) {
    1 <= t <= 18 || t == 101 || t == -2
  }

  /** `_determine_layout_usage` as written, comparing the placeholder
      types with the literals 1, 0 and 13: types 1 and 0 together give a
      content layout, a lone 0 a title layout, a 13 an image layout, more
      than three placeholders a complex one, anything else a basic one. */
  function DetermineLayoutUsage(types: seq<int>): (u: Usage)
    ensures u == Content <==> 0 in types && 1 in types
    ensures u == Title <==> types == [0]
    ensures u == Image <==> 13 in types && !(0 in types && 1 in types)
    ensures u == Complex ==> |types| > 3 && 13 !in types
    ensures u == Basic ==> |types| <= 3 && 13 !in types && types != [0]
  {
    if 1 in types && 0 in types then Content
    else if 0 in types && |types| == 1 then
      assert types == [0];
      Title
    else if 13 in types then Image
    else if |types| > 3 then Complex
    else Basic
  }

  /** As written, no layout python-pptx can report is ever classified as a
      content or a title layout, since none has a placeholder of type 0. */
  lemma LiteralTypesNeverContentOrTitle(types: seq<int>)
    requires forall k :: 0 <= k < |types| ==> IsPlaceholderType(types[k])
    ensures DetermineLayoutUsage(types) != Content && DetermineLayoutUsage(types) != Title
  {
    assert 0 !in types;
  }

  /** A layout with a title and a body (or object) placeholder is
      classified as basic as written, and one with a title and a slide number as an image
      layout; the intended classification makes them content and basic. */
  lemma LiteralTypesMisclassify()
    ensures DetermineLayoutUsage([PhTitle, PhBody]) == Basic
    ensures IntendedLayoutUsage([PhTitle, PhBody]) == Content
    ensures DetermineLayoutUsage([PhTitle, PhSlideNumber]) == Image
    ensures IntendedLayoutUsage([PhTitle, PhSlideNumber]) == Basic
    ensures DetermineLayoutUsage([PhTitle, PhObject]) == Basic
    ensures IntendedLayoutUsage([PhTitle, PhObject]) == Content
  {
  }

  /** The classification with the python-pptx numbers the comments name: a
      title with a content placeholder wins (BODY, or OBJECT, which is what
      the "Title and Content" layout reports and what the generator counts
      as content), a lone title placeholder is a title layout,
      a picture placeholder makes an image layout, more than three
      placeholders a complex one, anything else a basic one. */
  function IntendedLayoutUsage(types: seq<int>): (u: Usage)
    ensures u == Content <==> PhTitle in types && (PhBody in types || PhObject in types)
    ensures u == Title <==> types == [PhTitle]
    ensures u == Image <==> PhPicture in types && !(PhTitle in types && (PhBody in types || PhObject in types))
    ensures u == Complex ==> |types| > 3 && PhPicture !in types
    ensures u == Basic ==> |types| <= 3 && PhPicture !in types && types != [PhTitle]
  {
    if (PhBody in types || PhObject in types) && PhTitle in types then Content
    else if PhTitle in types && |types| == 1 then
      assert types == [PhTitle];
      Title
    else if PhPicture in types then Image
    else if |types| > 3 then Complex
    else Basic
  }

  /** The two classifications differ only through the numbers they
      disagree on: without a placeholder of type 0, 2, 7, 13 or 18, and other
      than a lone title placeholder, they agree. */
  lemma ClassificationsAgreeAwayFromTheLiterals(types: seq<int>)
    requires 0 !in types && PhBody !in types && PhObject !in types && PhPicture !in types && PhSlideNumber !in types
    requires types != [PhTitle]
    ensures DetermineLayoutUsage(types) == IntendedLayoutUsage(types)
  {
  }

  datatype Placeholder = Placeholder(kind: int, idx: int, left: int, top: int, width: int, height: int)

  /** A slide layout of the opened presentation. */
  datatype SourceLayout = SourceLayout(name: string, placeholders: seq<Placeholder>)

  /** One entry of the 'layouts' list of the analysis. */
  datatype LayoutInfo = LayoutInfo(index: nat, name: string, placeholders: seq<Placeholder>, usedFor: Usage)

  function PlaceholderTypes(ps: seq<Placeholder>): (r: seq<int>)
    ensures |r| == |ps| && forall k :: 0 <= k < |ps| ==> r[k] == ps[k].kind
  {
    seq(|ps|, k requires 0 <= k < |ps| => ps[k].kind)
  }

  /** `_extract_layouts`: one entry per layout, in order, whose 'index' is
      its position and whose usage is the (intended) classification of its
      placeholders. */
  method ExtractLayouts(source: seq<SourceLayout>) returns (layouts: seq<LayoutInfo>)
    ensures |layouts| == |source|
    ensures forall i :: 0 <= i < |layouts| ==> layouts[i].index == i
    ensures forall i :: 0 <= i < |layouts| ==>
      layouts[i].name == source[i].name && layouts[i].placeholders == source[i].placeholders
      && layouts[i].usedFor == IntendedLayoutUsage(PlaceholderTypes(source[i].placeholders))
  {
    layouts := [];
    var i := 0;
    while i < |source|
      invariant 0 <= i <= |source| && |layouts| == i
      invariant forall k :: 0 <= k < i ==> layouts[k].index == k
      invariant forall k :: 0 <= k < i ==>
        layouts[k].name == source[k].name && layouts[k].placeholders == source[k].placeholders
        && layouts[k].usedFor == IntendedLayoutUsage(PlaceholderTypes(source[k].placeholders))
    {
      var placeholders: seq<Placeholder> := [];
      var j := 0;
      while j < |source[i].placeholders|
        invariant 0 <= j <= |source[i].placeholders|
        invariant placeholders == source[i].placeholders[..j]
      {
        placeholders := placeholders + [source[i].placeholders[j]];
        j := j + 1;
      }
      assert source[i].placeholders[..j] == source[i].placeholders;
      var usage := IntendedLayoutUsage(PlaceholderTypes(source[i].placeholders));
      layouts := layouts + [LayoutInfo(i, source[i].name, placeholders, usage)];
      i := i + 1;
    }
  }

  // ---------------------------------------------------------------------
  // get_best_layout_for_slide_type

  /** The usages preferred for a slide type, best first. */
  function Preferences(slideType: string): (r: seq<string>)
    ensures |r| == 2 && r[0] != r[1]
    ensures slideType == "title" ==> r == ["title", "basic"]
    ensures slideType == "content" ==> r == ["content", "basic"]
    ensures slideType == "section" ==> r == ["title", "content"]
    ensures slideType == "conclusion" ==> r == ["content", "basic"]
    ensures slideType == "image" ==> r == ["image", "content"]
    ensures slideType !in {"title", "content", "section", "conclusion", "image"} ==> r == ["basic", "content"]
  {
    if slideType == "title" then ["title", "basic"]
    else if slideType == "content" then ["content", "basic"]
    else if slideType == "section" then ["title", "content"]
    else if slideType == "conclusion" then ["content", "basic"]
    else if slideType == "image" then ["image", "content"]
    else ["basic", "content"]
  }

  /** The first layout whose usage is `pref`. */
  function FirstWithUsage(layouts: seq<LayoutInfo>, pref: string): (r: Option<nat>)
    ensures r.Some? ==> r.value < |layouts| && UsageName(layouts[r.value].usedFor) == pref
    ensures r.Some? ==> forall k :: 0 <= k < r.value ==> UsageName(layouts[k].usedFor) != pref
    ensures r.None? ==> forall k :: 0 <= k < |layouts| ==> UsageName(layouts[k].usedFor) != pref
  {
    if layouts == [] then None
    else if UsageName(layouts[0].usedFor) == pref then Some(0)
    else
      var t := FirstWithUsage(layouts[1..], pref);
      if t.Some? then Some(t.value + 1) else None
  }

  /** The index found for the first preference that any layout matches. */
  function SearchPreferences(layouts: seq<LayoutInfo>, prefs: seq<string>): (r: Option<nat>)
    ensures r.Some? ==> r.value < |layouts|
    ensures r.Some? ==> exists p :: (0 <= p < |prefs| && FirstWithUsage(layouts, prefs[p]) == r
                                      && forall q :: 0 <= q < p ==> FirstWithUsage(layouts, prefs[q]).None?)
    ensures r.None? ==> forall p :: 0 <= p < |prefs| ==> FirstWithUsage(layouts, prefs[p]).None?
  {
    if prefs == [] then None
    else
      var first := FirstWithUsage(layouts, prefs[0]);
      if first.Some? then first
      else
        var rest := SearchPreferences(layouts, prefs[1..]);
        if rest.Some? then
          var p :| 1 <= p + 1 < |prefs| && FirstWithUsage(layouts, prefs[1..][p]) == rest
            && forall q :: 0 <= q < p ==> FirstWithUsage(layouts, prefs[1..][q]).None?;
          assert forall q :: 0 <= q < p + 1 ==> FirstWithUsage(layouts, prefs[q]).None? by {
            forall q | 0 <= q < p + 1 ensures FirstWithUsage(layouts, prefs[q]).None? {
              if q > 0 { assert prefs[q] == prefs[1..][q - 1]; }
            }
          }
          assert FirstWithUsage(layouts, prefs[p + 1]) == rest;
          rest
        else
          assert forall p :: 0 <= p < |prefs| ==> FirstWithUsage(layouts, prefs[p]).None? by {
            forall p | 0 <= p < |prefs| ensures FirstWithUsage(layouts, prefs[p]).None? {
              if p > 0 { assert prefs[p] == prefs[1..][p - 1]; }
            }
          }
          None
  }

  /** `get_best_layout_for_slide_type`: the first layout, in list order,
      matching the first preference any layout matches; otherwise the first
      layout; None only when there are no layouts. */
  function GetBestLayoutForSlideType(layouts: seq<LayoutInfo>, slideType: string): (r: Option<LayoutInfo>)
    ensures r.None? <==> layouts == []
    ensures r.Some? ==> r.value in layouts
    ensures (forall p :: 0 <= p < 2 ==> FirstWithUsage(layouts, Preferences(slideType)[p]).None?)
      ==> r == (if layouts == [] then None else Some(layouts[0]))
    ensures FirstWithUsage(layouts, Preferences(slideType)[0]).Some? ==>
      r == Some(layouts[FirstWithUsage(layouts, Preferences(slideType)[0]).value])
    ensures FirstWithUsage(layouts, Preferences(slideType)[0]).None? && FirstWithUsage(layouts, Preferences(slideType)[1]).Some? ==>
      r == Some(layouts[FirstWithUsage(layouts, Preferences(slideType)[1]).value])
    ensures r.Some? && r.value != layouts[0] ==>
      exists k :: 0 <= k < |layouts| && r.value == layouts[k] && UsageName(layouts[k].usedFor) in Preferences(slideType)
  {
    var found := SearchPreferences(layouts, Preferences(slideType));
    if found.Some? then Some(layouts[found.value])
    else if layouts == [] then None
    else Some(layouts[0])
  }

  // ---------------------------------------------------------------------
  // _get_image_content_type

  type Byte = x: int | 0 <= x < 256

  const PngMagic: seq<Byte> := [0x89, 0x50, 0x4E, 0x47]
  const JpegMagic: seq<Byte> := [0xFF, 0xD8, 0xFF]
  const GifMagic: seq<Byte> := [0x47, 0x49, 0x46]
  const BmpMagic: seq<Byte> := [0x42, 0x4D]

  /** `_get_image_content_type`: the MIME type named by the leading magic
      bytes. */
  function ImageContentType(data: seq<Byte>): (r: string)
    ensures r == "image/unknown" <==>
      !StartsWith(data, PngMagic) && !StartsWith(data, JpegMagic)
      && !StartsWith(data, GifMagic) && !StartsWith(data, BmpMagic)
  {
    if StartsWith(data, PngMagic) then "image/png"
    else if StartsWith(data, JpegMagic) then "image/jpeg"
    else if StartsWith(data, GifMagic) then "image/gif"
    else if StartsWith(data, BmpMagic) then "image/bmp"
    else "image/unknown"
  }

  /** No signature is a prefix of another's data, so the order of the checks
      does not matter: data opening with a signature gets that signature's
      type, whatever follows. */
  lemma ImageTypeOfSignature(rest: seq<Byte>)
    ensures ImageContentType(PngMagic + rest) == "image/png"
    ensures ImageContentType(JpegMagic + rest) == "image/jpeg"
    ensures ImageContentType(GifMagic + rest) == "image/gif"
    ensures ImageContentType(BmpMagic + rest) == "image/bmp"
  {
    assert (PngMagic + rest)[..4] == PngMagic;
    assert (JpegMagic + rest)[..3] == JpegMagic;
    assert (JpegMagic + rest)[0] == 0xFF;
    assert (GifMagic + rest)[..3] == GifMagic;
    assert (GifMagic + rest)[0] == 0x47;
    assert (BmpMagic + rest)[..2] == BmpMagic;
    assert (BmpMagic + rest)[0] == 0x42;
  }

  // ---------------------------------------------------------------------
  // _extract_colors and _extract_fonts

  type Channel = x: int | 0 <= x < 256

  /** python-pptx's RGBColor, a tuple of three channels. */
  datatype Rgb = Rgb(red: Channel, green: Channel, blue: Channel)

  /** A shape of a slide, reduced to what colour and font extraction read. */
  datatype Shape = Shape(fill: Option<Rgb>, runColors: seq<Option<Rgb>>, runFonts: seq<string>, hasImage: bool)

  /** The colours met while walking the shapes in document order: each
      shape's fill, then the colours of its runs. */
  function ShapeColors(s: Shape): seq<Rgb>
    decreases |s.runColors|
  {
    var fill := if s.fill.Some? then [s.fill.value] else [];
    fill + RunColors(s.runColors)
  }

  function RunColors(cs: seq<Option<Rgb>>): seq<Rgb> {
    if cs == [] then [] else (if cs[0].Some? then [cs[0].value] else []) + RunColors(cs[1..])
  }

  function AllColors(slides: seq<seq<Shape>>): seq<Rgb> {
    if slides == [] then [] else ShapeListColors(slides[0]) + AllColors(slides[1..])
  }

  function ShapeListColors(shapes: seq<Shape>): seq<Rgb> {
    if shapes == [] then [] else ShapeColors(shapes[0]) + ShapeListColors(shapes[1..])
  }

  /** The palette used when no colour was collected. */
  const Palette: set<string> := {"#000000", "#FFFFFF", "#1F497D", "#4F81BD", "#9CBB58"}

  const MaxColors: nat := 10

  /** `f"#{rgb:06X}"` as the source writes it: an RGBColor is a tuple, and a
      tuple refuses a non-empty format specification, so this always raises
      TypeError. */
  function FormatRgbAsWritten(c: Rgb): (r: Result<string>)
    ensures r.Err?
  {
    Err("unsupported format string passed to RGBColor.__format__")
  }

  function HexDigit(d: nat): (c: char)
    requires d < 16
    ensures ('0' <= c <= '9') || ('A' <= c <= 'F')
  {
    if d < 10 then ('0' as int + d) as char else ('A' as int + d - 10) as char
  }

  function HexPair(x: Channel): (r: string)
    ensures |r| == 2
  {
    [HexDigit(x / 16), HexDigit(x % 16)]
  }

  /** The intended `#RRGGBB` rendering (what `f"#{rgb}"`, i.e. python-pptx's
      `str(RGBColor)`, gives after the '#'). */
  function Hex6(c: Rgb): (r: string)
    ensures |r| == 7 && r[0] == '#'
  {
    "#" + HexPair(c.red) + HexPair(c.green) + HexPair(c.blue)
  }

  function FormatRgb(c: Rgb): (r: Result<string>)
    ensures r == Ok(Hex6(c))
  {
    Ok(Hex6(c))
  }

  lemma HexDigitInjective(a: nat, b: nat)
    requires a < 16 && b < 16 && HexDigit(a) == HexDigit(b)
    ensures a == b
  {
  }

  lemma HexPairInjective(x: Channel, y: Channel)
    requires HexPair(x) == HexPair(y)
    ensures x == y
  {
    assert HexPair(x)[0] == HexPair(y)[0] && HexPair(x)[1] == HexPair(y)[1];
    HexDigitInjective(x / 16, y / 16);
    HexDigitInjective(x % 16, y % 16);
  }

  /** Distinct colours render as distinct strings, so the collected set has
      one entry per distinct colour. */
  lemma Hex6Injective(a: Rgb, b: Rgb)
    requires Hex6(a) == Hex6(b)
    ensures a == b
  {
    assert Hex6(a)[1..3] == HexPair(a.red) && Hex6(b)[1..3] == HexPair(b.red);
    assert Hex6(a)[3..5] == HexPair(a.green) && Hex6(b)[3..5] == HexPair(b.green);
    assert Hex6(a)[5..7] == HexPair(a.blue) && Hex6(b)[5..7] == HexPair(b.blue);
    HexPairInjective(a.red, b.red);
    HexPairInjective(a.green, b.green);
    HexPairInjective(a.blue, b.blue);
  }

  /** The strings the formatter produces for the colours, where it does not
      raise. */
  function Formatted(colors: seq<Rgb>, format: Rgb -> Result<string>): (r: set<string>)
    ensures forall k :: 0 <= k < |colors| && format(colors[k]).Ok? ==> format(colors[k]).value in r
  {
    if colors == [] then {}
    else
      (if format(colors[0]).Ok? then {format(colors[0]).value} else {}) + Formatted(colors[1..], format)
  }

  /** A list holding each element of `s` once, in an unspecified order
      (Python `list(s)` on a set). */
  method SetToList(s: set<string>) returns (r: seq<string>)
    ensures |r| == |s|
    ensures forall x :: x in r <==> x in s
    ensures forall i, j :: 0 <= i < j < |r| ==> r[i] != r[j]
  {
    r := [];
    var rest := s;
    while rest != {}
      invariant rest <= s
      invariant forall x :: x in r <==> x in s && x !in rest
      invariant forall i, j :: 0 <= i < j < |r| ==> r[i] != r[j]
      invariant |r| + |rest| == |s|
      decreases |rest|
    {
      var x :| x in rest;
      r := r + [x];
      rest := rest - {x};
    }
  }

  /** `_extract_colors` with the given formatter: the distinct formatted
      colours, or the fixed palette when there are none, cut to ten. */
  method ExtractColors(slides: seq<seq<Shape>>, format: Rgb -> Result<string>) returns (r: seq<string>)
    ensures var found := Formatted(AllColors(slides), format);
      var pool := if found == {} then Palette else found;
      (forall x :: x in r ==> x in pool)
      && |r| == if |pool| < MaxColors then |pool| else MaxColors
    ensures forall i, j :: 0 <= i < j < |r| ==> r[i] != r[j]
    ensures 1 <= |r| <= MaxColors
  {
    var colors := AllColors(slides);
    var found: set<string> := {};
    var i := 0;
    while i < |colors|
      invariant 0 <= i <= |colors|
      invariant found + Formatted(colors[i..], format) == Formatted(colors, format)
      invariant found <= Formatted(colors, format)
    {
      var text := format(colors[i]);
      assert colors[i..][1..] == colors[i + 1..];
      if text.Ok? {
        found := found + {text.value};
      }
      i := i + 1;
    }
    if found == {} {
      found := Palette;
    }
    var list := SetToList(found);
    r := Take(list, MaxColors);
  }

  /** As written, nothing found in the template ever reaches the palette:
      every format attempt raises, so the set stays empty and the fixed
      palette is returned, whatever colours the shapes carry. */
  lemma AsWrittenFindsNothing(colors: seq<Rgb>)
    ensures Formatted(colors, FormatRgbAsWritten) == {}
  {
  }

  /** With the formatting corrected, every colour of the template is found,
      so the palette is used exactly when no shape carries a colour. */
  lemma {:induction false} CorrectedFindsEveryColor(colors: seq<Rgb>)
    ensures forall c :: c in colors ==> Hex6(c) in Formatted(colors, FormatRgb)
    ensures Formatted(colors, FormatRgb) == {} <==> colors == []
  {
    if colors != [] {
      CorrectedFindsEveryColor(colors[1..]);
      assert Hex6(colors[0]) in Formatted(colors, FormatRgb);
    }
  }

  /** A template with one red filled shape: the as-written formatting drops
      it, the corrected one renders it. */
  lemma RedFillExample()
    ensures AllColors([[Shape(Some(Rgb(255, 0, 0)), [], [], false)]]) == [Rgb(255, 0, 0)]
    ensures FormatRgbAsWritten(Rgb(255, 0, 0)).Err?
    ensures Hex6(Rgb(255, 0, 0)) == "#FF0000"
  {
    assert ShapeColors(Shape(Some(Rgb(255, 0, 0)), [], [], false)) == [Rgb(255, 0, 0)];
  }

  const DefaultFont: string := "Calibri"

  /** The fonts part of the analysis. */
  datatype Fonts = Fonts(titleFont: string, bodyFont: string, fontsUsed: seq<string>)

  /** `_extract_fonts` over the run font names met in document order: each
      non-empty name is collected once; the first listed becomes the body
      font and the second (or the first again) the title font; with none
      both stay Calibri. */
  method ExtractFonts(names: seq<string>) returns (f: Fonts)
    ensures forall x :: x in f.fontsUsed <==> x in names && x != []
    ensures forall i, j :: 0 <= i < j < |f.fontsUsed| ==> f.fontsUsed[i] != f.fontsUsed[j]
    ensures f.fontsUsed == [] ==> f.bodyFont == DefaultFont && f.titleFont == DefaultFont
    ensures f.fontsUsed != [] ==>
      (f.bodyFont == f.fontsUsed[0]
       && f.titleFont == if |f.fontsUsed| > 1 then f.fontsUsed[1] else f.fontsUsed[0])
  {
    var used: set<string> := {};
    var i := 0;
    while i < |names|
      invariant 0 <= i <= |names|
      invariant forall x :: x in used <==> x in names[..i] && x != []
    {
      if names[i] != [] {
        used := used + {names[i]};
      }
      i := i + 1;
      assert names[..i] == names[..i - 1] + [names[i - 1]];
    }
    assert names[..i] == names;
    var list := SetToList(used);
    if list == [] {
      f := Fonts(DefaultFont, DefaultFont, list);
    } else if |list| > 1 {
      f := Fonts(list[1], list[0], list);
    } else {
      f := Fonts(list[0], list[0], list);
    }
  }

  // ---------------------------------------------------------------------
  // validate_template

  /** What opening the template reveals. */
  datatype TemplateFacts = TemplateFacts(layoutCount: nat, hasMaster: bool, slides: seq<seq<Shape>>)

  datatype Summary = Summary(layouts: nat, slides: nat, images: nat, hasMaster: bool)

  datatype Validation = Validation(valid: bool, errors: seq<string>, warnings: seq<string>,
                                   score: int, recommendations: seq<string>, summary: Option<Summary>)

  function ShapeImages(shapes: seq<Shape>): (n: nat)
    ensures n <= |shapes|
  {
    if shapes == [] then 0 else (if shapes[0].hasImage then 1 else 0) + ShapeImages(shapes[1..])
  }

  /** The number of picture shapes on all slides. */
  function ImageCount(slides: seq<seq<Shape>>): nat {
    if slides == [] then 0 else ShapeImages(slides[0]) + ImageCount(slides[1..])
  }

  /** The compatibility score: 30 for at least two layouts, 20 for a master,
      25 for example slides, 25 for pictures. */
  function CompatibilityScore(layoutCount: nat, hasMaster: bool, slideCount: nat, images: nat): (s: int)
    ensures 0 <= s <= 100
    ensures s == 100 <==> layoutCount >= 2 && hasMaster && slideCount > 0 && images > 0
    ensures s == 0 <==> layoutCount < 2 && !hasMaster && slideCount == 0 && images == 0
  {
    (if layoutCount >= 2 then 30 else 0) + (if hasMaster then 20 else 0)
    + (if slideCount > 0 then 25 else 0) + (if images > 0 then 25 else 0)
  }

  lemma ImageCountAppend(slides: seq<seq<Shape>>, shapes: seq<Shape>)
    ensures ImageCount(slides + [shapes]) == ImageCount(slides) + ShapeImages(shapes)
  {
    if slides != [] {
      assert (slides + [shapes])[1..] == slides[1..] + [shapes];
    }
  }

  lemma ShapeImagesAppend(shapes: seq<Shape>, s: Shape)
    ensures ShapeImages(shapes + [s]) == ShapeImages(shapes) + (if s.hasImage then 1 else 0)
  {
    if shapes != [] {
      assert (shapes + [s])[1..] == shapes[1..] + [s];
    }
  }

  /** `validate_template`: a missing file is invalid with a single error and
      score 0; a file that fails to open is invalid with the failure
      message; otherwise it is valid and scored from its layouts, master,
      example slides and pictures. */
  method ValidateTemplate(fileExists: bool, loaded: Result<TemplateFacts>) returns (v: Validation)
    ensures !fileExists ==> v == Validation(false, ["Template file not found"], [], 0, [], None)
    ensures fileExists && loaded.Err? ==>
      !v.valid && v.errors == ["Failed to analyze template: " + loaded.msg] && v.score == 0
    ensures v.valid <==> fileExists && loaded.Ok?
    ensures v.valid ==>
      (v.errors == [] && v.summary.Some?
       && v.score == CompatibilityScore(loaded.value.layoutCount, loaded.value.hasMaster,
                                        |loaded.value.slides|, ImageCount(loaded.value.slides))
       && v.summary.value.images == ImageCount(loaded.value.slides)
       && (v.warnings == ["Template has very few layouts"] <==> loaded.value.layoutCount < 2))
    ensures 0 <= v.score <= 100
  {
    if !fileExists {
      return Validation(false, ["Template file not found"], [], 0, [], None);
    }
    if loaded.Err? {
      return Validation(false, ["Failed to analyze template: " + loaded.msg], [], 0, [], None);
    }
    var facts := loaded.value;
    var warnings: seq<string> := [];
    var recommendations: seq<string> := [];
    var score := 0;
    if facts.layoutCount < 2 {
      warnings := warnings + ["Template has very few layouts"];
    } else {
      score := score + 30;
    }
    if facts.hasMaster {
      score := score + 20;
    }
    var slideCount := |facts.slides|;
    if slideCount > 0 {
      score := score + 25;
      recommendations := recommendations + ["Template contains example slides"];
    }
    var imageCount := 0;
    var i := 0;
    while i < |facts.slides|
      invariant 0 <= i <= |facts.slides|
      invariant imageCount == ImageCount(facts.slides[..i])
    {
      var shapes := facts.slides[i];
      var j := 0;
      var before := imageCount;
      while j < |shapes|
        invariant 0 <= j <= |shapes|
        invariant imageCount == before + ShapeImages(shapes[..j])
      {
        if shapes[j].hasImage {
          imageCount := imageCount + 1;
        }
        ShapeImagesAppend(shapes[..j], shapes[j]);
        assert shapes[..j + 1] == shapes[..j] + [shapes[j]];
        j := j + 1;
      }
      assert shapes[..j] == shapes;
      ImageCountAppend(facts.slides[..i], shapes);
      assert facts.slides[..i + 1] == facts.slides[..i] + [shapes];
      i := i + 1;
    }
    assert facts.slides[..i] == facts.slides;
    if imageCount > 0 {
      score := score + 25;
      recommendations := recommendations + ["Template contains " + NatToString(imageCount) + " reusable images"];
    }
    v := Validation(true, [], warnings, score, recommendations,
                    Some(Summary(facts.layoutCount, slideCount, imageCount, facts.hasMaster)));
  }
}
