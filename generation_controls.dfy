/** The options panel of the third wizard step. The options themselves
    live in the wizard; this panel only emits one-key patches and shows
    what the options currently say. */
module GenerationControls {
  import opened Common
  import opened Text
  import opened JsonValue

  /** The options object, by key. */
  type Options = map<string, Json>

  /** `options[key]` is truthy in the browser; a missing key is undefined. */
  predicate IsSet(o: Options, key: string) {
    key in o && JsTruthy(o[key])
  }

  /** `handleToggle(key)`: a patch with that one key, negated. */
  function HandleToggle(o: Options, key: string): (patch: Options)
    ensures patch.Keys == {key}
    ensures patch[key] == JBool(!IsSet(o, key))
  {
    map[key := JBool(!IsSet(o, key))]
  }

  /** `handleSelectChange(key, value)`: a patch with that one key. */
  function HandleSelectChange(key: string, value: Json): (patch: Options)
    ensures patch.Keys == {key} && patch[key] == value
  {
    map[key := value]
  }

  /** `options[key] || fallback`. */
  function OrDefault(o: Options, key: string, fallback: string): (r: Json)
    ensures IsSet(o, key) ==> r == o[key]
    ensures !IsSet(o, key) ==> r == JStr(fallback)
  {
    if IsSet(o, key) then o[key] else JStr(fallback)
  }

  /** The value the two advanced selects show. */
  function SlideCountSelected(o: Options): Json { OrDefault(o, "preferredSlideCount", "auto") }

  function DensitySelected(o: Options): Json { OrDefault(o, "contentDensity", "balanced") }

  // ---------------------------------------------------------------------
  // Tone

  datatype Tone = Tone(value: string, name: string, description: string)

  const ToneOptions: seq<Tone> := [
    Tone("professional", "Professional", "Formal and business-appropriate"),
    Tone("casual", "Casual", "Relaxed and conversational"),
    Tone("technical", "Technical", "Detailed and precise"),
    Tone("creative", "Creative", "Engaging and dynamic"),
    Tone("academic", "Academic", "Scholarly and research-focused"),
    Tone("sales", "Sales", "Persuasive and compelling")
  ]

  /** `tones.find(t => t.value === v)`: strict equality, so only a string
      can match. */
  function FindTone(tones: seq<Tone>, v: Json): (r: Option<Tone>)
    ensures r.None? <==> forall k :: 0 <= k < |tones| ==> JStr(tones[k].value) != v
    ensures r.Some? ==> exists k :: (0 <= k < |tones| && tones[k] == r.value && JStr(r.value.value) == v
      && forall m :: 0 <= m < k ==> JStr(tones[m].value) != v)
  {
    if tones == [] then None
    else if JStr(tones[0].value) == v then
      assert tones[0] == tones[0];
      Some(tones[0])
    else
      var r := FindTone(tones[1..], v);
      if r.Some? then
        var k :| 0 <= k < |tones[1..]| && tones[1..][k] == r.value && JStr(r.value.value) == v
          && forall m :: 0 <= m < k ==> JStr(tones[1..][m].value) != v;
        assert tones[k + 1] == r.value;
        r
      else r
  }

  /** The six tone values are distinct, so every tone is found by its own
      value. */
  lemma ToneFoundByValue(i: nat)
    requires i < |ToneOptions|
    ensures FindTone(ToneOptions, JStr(ToneOptions[i].value)) == Some(ToneOptions[i])
  {
    var v := JStr(ToneOptions[i].value);
    var r := FindTone(ToneOptions, v);
    var k :| 0 <= k < |ToneOptions| && ToneOptions[k] == r.value && JStr(r.value.value) == v
      && forall m :: 0 <= m < k ==> JStr(ToneOptions[m].value) != v;
    assert ToneOptions[k].value == ToneOptions[i].value;
  }

  // ---------------------------------------------------------------------
  // Cost estimate

  /** A price range in cents. */
  datatype Cost = Cost(low: nat, high: nat)

  const AnalysisCost := Cost(1, 5)
  const NotesCost := Cost(2, 8)

  /** Cents below one dollar as "0.cc". */
  function Dollars(cents: nat): (r: string)
    requires cents < 100
    ensures |r| == 4 && r[..2] == "0."
    ensures forall i :: 2 <= i < |r| ==> '0' <= r[i] <= '9'
    ensures DigitsValue(r[2..]) == cents
  {
    var tens := DigitChar(cents / 10);
    var ones := DigitChar(cents % 10);
    assert DigitsValue([tens]) == cents / 10 by {
      assert [tens][..0] == [];
    }
    assert [tens, ones][..1] == [tens];
    "0." + [tens, ones]
  }

  function CostText(c: Cost): string
    requires c.low < 100 && c.high < 100
  {
    "~$" + Dollars(c.low) + " - $" + Dollars(c.high)
  }

  /** The itemised lines: text analysis always, speaker notes only when
      they are asked for. */
  function CostLines(o: Options): (r: seq<(string, string)>)
    ensures |r| == 2 <==> IsSet(o, "generateNotes")
    ensures |r| == 1 <==> !IsSet(o, "generateNotes")
    ensures r[0] == ("Text analysis:", CostText(AnalysisCost))
    ensures |r| == 2 ==> r[1] == ("Speaker notes:", CostText(NotesCost))
  {
    assert CostText(AnalysisCost) == "~$0.01 - $0.05";
    assert CostText(NotesCost) == "~$0.02 - $0.08";
    [("Text analysis:", "~$0.01 - $0.05")]
      + if IsSet(o, "generateNotes") then [("Speaker notes:", "~$0.02 - $0.08")] else []
  }

  /** The total line as written. */
  function TotalText(o: Options): string {
    if IsSet(o, "generateNotes") then "~$0.03 - $0.13" else "~$0.01 - $0.05"
  }

  /** The costs behind the itemised lines. */
  function LineCosts(o: Options): (r: seq<Cost>)
    ensures |r| == |CostLines(o)|
    ensures forall k :: 0 <= k < |r| ==> r[k].low < 100 && r[k].high < 100 && CostLines(o)[k].1 == CostText(r[k])
  {
    [AnalysisCost] + if IsSet(o, "generateNotes") then [NotesCost] else []
  }

  function Sum(cs: seq<Cost>): Cost {
    if cs == [] then Cost(0, 0)
    else var rest := Sum(cs[1..]); Cost(cs[0].low + rest.low, cs[0].high + rest.high)
  }

  /** Each itemised line prints its cost, and the total is their sum. */
  lemma TotalIsSumOfLines(o: Options)
    ensures forall k :: 0 <= k < |CostLines(o)| ==> CostLines(o)[k].1 == CostText(LineCosts(o)[k])
    ensures Sum(LineCosts(o)).low < 100 && Sum(LineCosts(o)).high < 100 && TotalText(o) == CostText(Sum(LineCosts(o)))
  {
    assert CostText(AnalysisCost) == "~$0.01 - $0.05";
    assert CostText(NotesCost) == "~$0.02 - $0.08";
    if IsSet(o, "generateNotes") {
      assert LineCosts(o) == [AnalysisCost, NotesCost];
      assert LineCosts(o)[1..] == [NotesCost];
      assert Sum([NotesCost]) == NotesCost;
      assert Sum(LineCosts(o)) == Cost(3, 13);
      assert CostText(Cost(3, 13)) == "~$0.03 - $0.13";
    } else {
      assert LineCosts(o) == [AnalysisCost];
      assert Sum(LineCosts(o)) == Cost(1, 5);
    }
  }

  // ---------------------------------------------------------------------
  // Summary

  datatype Summary = Summary(tone: Option<string>, images: string, notes: string, slideCount: Json, density: Json)

  /** The "Generation Summary" box. The tone line shows the display name
      of the tone whose value the option holds. */
  function SummaryOf(o: Options): (s: Summary)
    ensures s.tone.Some? <==> "presentationTone" in o && FindTone(ToneOptions, o["presentationTone"]).Some?
    ensures s.tone.Some? ==> s.tone.value == FindTone(ToneOptions, o["presentationTone"]).value.name
    ensures s.images == (if IsSet(o, "includeImages") then "Included" else "Not included")
    ensures s.notes == (if IsSet(o, "generateNotes") then "Yes" else "No")
    ensures s.slideCount == OrDefault(o, "preferredSlideCount", "Auto")
    ensures s.density == OrDefault(o, "contentDensity", "Balanced")
  {
    var tone := if "presentationTone" in o then FindTone(ToneOptions, o["presentationTone"]) else None;
    Summary(
      if tone.Some? then Some(tone.value.name) else None,
      if IsSet(o, "includeImages") then "Included" else "Not included",
      if IsSet(o, "generateNotes") then "Yes" else "No",
      OrDefault(o, "preferredSlideCount", "Auto"),
      OrDefault(o, "contentDensity", "Balanced"))
  }

  /** Choosing a tone shows that tone's display name in the summary. */
  lemma SummaryShowsChosenTone(o: Options, i: nat)
    requires i < |ToneOptions|
    ensures SummaryOf(o + HandleSelectChange("presentationTone", JStr(ToneOptions[i].value))).tone
            == Some(ToneOptions[i].name)
  {
    ToneFoundByValue(i);
  }

  /** Each toggle flips its line of the summary and leaves the other. */
  lemma ToggleFlipsSummary(o: Options)
    ensures SummaryOf(o + HandleToggle(o, "includeImages")).images != SummaryOf(o).images
    ensures SummaryOf(o + HandleToggle(o, "includeImages")).notes == SummaryOf(o).notes
    ensures SummaryOf(o + HandleToggle(o, "generateNotes")).notes != SummaryOf(o).notes
    ensures SummaryOf(o + HandleToggle(o, "generateNotes")).images == SummaryOf(o).images
  {
  }
}
