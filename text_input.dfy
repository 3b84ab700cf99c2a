/** The content field of the first wizard step: its word, character and
    slide counts, the remaining-characters notice and its two handlers. */
module TextInput {
  import opened Common
  import opened Text
  import Api

  const MaxLength: nat := 50000
  const NoticeThreshold: nat := 45000
  const WordsPerSlide: nat := 150

  const GuidanceExamples: seq<string> := [
    "Turn into an investor pitch deck",
    "Create a technical presentation for developers",
    "Make it suitable for executive summary",
    "Design as a training workshop presentation",
    "Convert to a sales presentation",
    "Format as an academic research presentation"
  ]

  /** The non-empty pieces of the trimmed text split at runs of white
      space: none for blank text, at least one otherwise. */
  function WordCount(text: string): (n: nat)
    ensures n == 0 <==> IsBlank(Js, text)
  {
    var t := Trim(Js, text);
    var parts := SplitWs(t);
    if t == [] then
      assert parts == [""];
      CountNonEmpty(parts)
    else
      SplitWsOfTrimmed(t);
      CountNonEmptyAll(parts);
      CountNonEmpty(parts)
  }

  /** For non-blank text the component's count and the client utilities'
      count agree; blank text is zero words here and one there. */
  lemma WordCountsAgree(text: string)
    ensures !IsBlank(Js, text) ==> WordCount(text) == Api.SplitWordCount(text)
    ensures IsBlank(Js, text) ==> WordCount(text) == 0 && Api.SplitWordCount(text) == 1
  {
    var t := Trim(Js, text);
    if t != [] {
      SplitWsOfTrimmed(t);
      CountNonEmptyAll(SplitWs(t));
    } else {
      Api.BlankTextIsOneWord(text);
    }
  }

  function CharacterCount(text: string): (n: nat)
    ensures n == |text|
  {
    |text|
  }

  /** `Math.max(1, Math.ceil(words / 150))`. */
  function EstimatedSlides(words: nat): (slides: nat)
    ensures slides >= 1
    ensures slides == 1 <==> words <= WordsPerSlide
    ensures words > 0 ==> (slides - 1) * WordsPerSlide < words <= slides * WordsPerSlide
  {
    Api.Max(1, Api.CeilDiv(words, WordsPerSlide))
  }

  /** More words never means fewer slides. */
  lemma EstimatedSlidesMonotone(a: nat, b: nat)
    requires a <= b
    ensures EstimatedSlides(a) <= EstimatedSlides(b)
  {
    var x := EstimatedSlides(a);
    var y := EstimatedSlides(b);
    if a > 0 {
      assert (x - 1) * WordsPerSlide < a <= b <= y * WordsPerSlide;
    }
  }

  /** The orange notice: shown only beyond 45000 characters, with how many
      of the 50000 allowed are left. */
  function RemainingNotice(text: string): (r: Option<int>)
    ensures r.Some? <==> |text| > NoticeThreshold
    ensures r.Some? ==> r.value == MaxLength - |text| && r.value < MaxLength - NoticeThreshold
  {
    if CharacterCount(text) > NoticeThreshold then Some(MaxLength - CharacterCount(text)) else None
  }

  /** The props the component edits through its callbacks, and its one
      piece of local state. */
  datatype View = View(text: string, guidance: string, showExamples: bool)

  /** Picking an example puts it in the guidance field and closes the list. */
  function ChooseExample(v: View, example: string): (r: View)
    ensures r.guidance == example && !r.showExamples && r.text == v.text
  {
    v.(guidance := example, showExamples := false)
  }

  /** `Clear All` is disabled while the wizard is busy or both fields are
      already empty. */
  predicate ClearDisabled(disabled: bool, v: View) {
    disabled || (v.text == [] && v.guidance == [])
  }

  function ClearAll(v: View): (r: View)
    ensures r.text == [] && r.guidance == [] && r.showExamples == v.showExamples
  {
    v.(text := "", guidance := "")
  }

  /** Clearing disables the button, and clearing again changes nothing. */
  lemma ClearAllSettles(v: View, disabled: bool)
    ensures ClearDisabled(disabled, ClearAll(v))
    ensures ClearAll(ClearAll(v)) == ClearAll(v)
  {
  }

  /** Clearing empties the word count. */
  lemma ClearedHasNoWords(v: View)
    ensures WordCount(ClearAll(v).text) == 0
  {
  }
}
