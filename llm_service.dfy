/** The back end's slide normalisation (backend/services/llm_service.py):
    the retry loop around one LLM request, extraction of the JSON array
    from the reply, validation of the decoded slides, the paragraph-based
    fallback used when any of that fails, and the in-place filling of
    speaker notes. The LLM itself is a sequence of per-attempt outcomes and
    `json.loads` is a decoding function passed in. */
module LlmService {
  import opened Common
  import opened Text
  import opened JsonValue

  /** A slide as `_validate_slides` and the fallback produce it: the fields
      copied from the reply keep their JSON type, title and bullets are
      strings. */
  datatype Slide = Slide(number: Json, kind: Json, title: string, content: seq<string>, notes: Json)

  const MaxBullets: nat := 8
  const MaxTitleLength: nat := 100
  const MaxBulletLength: nat := 200
  const MaxRetries: nat := 3

  /** `_create_default_slide`. */
  function DefaultSlides(): (r: seq<Slide>)
    ensures |r| == 1 && r[0].kind == JStr("title") && r[0].number == JNum(1)
  {
    [Slide(JNum(1), JStr("title"), "Generated Presentation",
           ["Content could not be processed automatically"],
           JStr("Please review and edit this presentation manually."))]
  }

  /** Slides whose title and bullets respect the validation caps. */
  predicate WithinCaps(s: Slide) {
    |s.title| <= MaxTitleLength && |s.content| <= MaxBullets
    && forall k :: 0 <= k < |s.content| ==> |s.content[k]| <= MaxBulletLength
  }

  // ---------------------------------------------------------------------
  // _make_llm_call: up to `maxRetries` attempts with exponential back-off

  /** What one request to the provider gave back. */
  datatype CallResult = Returned(text: string) | Raised | NoneReturned

  function Pow2(k: nat): (r: nat)
    ensures r >= 1
  {
    if k == 0 then 1 else 2 * Pow2(k - 1)
  }

  /** The sleeps `2 ** attempt` taken after the first k failed attempts. */
  function Backoff(k: nat): (r: seq<nat>)
    ensures |r| == k
    ensures forall i :: 0 <= i < k ==> r[i] == Pow2(i)
  {
    if k == 0 then [] else Backoff(k - 1) + [Pow2(k - 1)]
  }

  /** Attempt k's reply; attempts beyond the given ones fail. */
  function Attempt(attempts: seq<Option<string>>, k: nat): Option<string> {
    if k < |attempts| then attempts[k] else None
  }

  /** The first of the first n attempts that succeeds. */
  function FirstSuccess(attempts: seq<Option<string>>, n: nat): (r: Option<nat>)
    ensures r.Some? ==> r.value < n && Attempt(attempts, r.value).Some?
    ensures r.Some? ==> forall k :: 0 <= k < r.value ==> Attempt(attempts, k).None?
    ensures r.None? ==> forall k :: 0 <= k < n ==> Attempt(attempts, k).None?
  {
    if n == 0 then None
    else
      var p := FirstSuccess(attempts, n - 1);
      if p.Some? then p
      else if Attempt(attempts, n - 1).Some? then Some(n - 1)
      else None
  }

  /** `_make_llm_call`: returns the first successful reply, sleeping
      `2 ** attempt` only between attempts, and re-raises once the last
      attempt has failed. With no attempts allowed it returns `None`. */
  method MakeLlmCall(attempts: seq<Option<string>>, maxRetries: nat)
    returns (r: CallResult, tried: nat, sleeps: seq<nat>)
    ensures tried <= maxRetries
    ensures maxRetries == 0 ==> r == NoneReturned && tried == 0 && sleeps == []
    ensures FirstSuccess(attempts, maxRetries).Some? ==>
      var k := FirstSuccess(attempts, maxRetries).value;
      r == Returned(Attempt(attempts, k).value) && tried == k + 1 && sleeps == Backoff(k)
    ensures maxRetries > 0 && FirstSuccess(attempts, maxRetries).None? ==>
      r == Raised && tried == maxRetries && sleeps == Backoff(maxRetries - 1)
  {
    var attempt: nat := 0;
    sleeps := [];
    while attempt < maxRetries
      invariant attempt <= maxRetries
      invariant maxRetries == 0 || attempt < maxRetries
      invariant forall k :: 0 <= k < attempt ==> Attempt(attempts, k).None?
      invariant sleeps == Backoff(attempt)
    {
      var reply := Attempt(attempts, attempt);
      if reply.Some? {
        return Returned(reply.value), attempt + 1, sleeps;
      }
      if attempt < maxRetries - 1 {
        sleeps := sleeps + [Pow2(attempt)];
      } else {
        return Raised, attempt + 1, sleeps;
      }
      attempt := attempt + 1;
    }
    return NoneReturned, 0, sleeps;
  }

  // ---------------------------------------------------------------------
  // _parse_slide_response

  function FirstIndexOf(s: string, c: char): (r: Option<nat>)
    ensures r.Some? ==> r.value < |s| && s[r.value] == c
    ensures r.Some? ==> forall i :: 0 <= i < r.value ==> s[i] != c
    ensures r.None? ==> forall i :: 0 <= i < |s| ==> s[i] != c
  {
    if s == [] then None
    else if s[0] == c then Some(0)
    else
      var t := FirstIndexOf(s[1..], c);
      if t.Some? then Some(t.value + 1) else None
  }

  function LastIndexOf(s: string, c: char): (r: Option<nat>)
    ensures r.Some? ==> r.value < |s| && s[r.value] == c
    ensures r.Some? ==> forall i :: r.value < i < |s| ==> s[i] != c
    ensures r.None? ==> forall i :: 0 <= i < |s| ==> s[i] != c
  {
    if s == [] then None
    else if s[|s| - 1] == c then Some(|s| - 1)
    else LastIndexOf(s[..|s| - 1], c)
  }

  /** Some '[' comes before some ']'. */
  predicate HasBracketPair(s: string) {
    exists i, j :: 0 <= i < j < |s| && s[i] == '[' && s[j] == ']'
  }

  /** The text `re.search(r'\[.*\]', response, re.DOTALL)` matches: from the
      first '[' to the last ']' when such a pair exists, and the whole
      response otherwise. */
  function JsonCandidate(response: string): (r: string)
    ensures HasBracketPair(response) ==>
      exists i, j :: 0 <= i < j <= |response| && r == response[i..j]
        && r[0] == '[' && r[|r| - 1] == ']'
        && (forall k :: 0 <= k < i ==> response[k] != '[')
        && (forall k :: j <= k < |response| ==> response[k] != ']')
    ensures !HasBracketPair(response) ==> r == response
  {
    var open := FirstIndexOf(response, '[');
    var close := LastIndexOf(response, ']');
    if open.Some? && close.Some? && open.value < close.value then
      var r := response[open.value..close.value + 1];
      assert r[|r| - 1] == response[close.value];
      r
    else
      assert !HasBracketPair(response) by {
        forall i, j | 0 <= i < j < |response| && response[i] == '['
          ensures response[j] != ']'
        {
          assert open.Some? && open.value <= i;
        }
      }
      response
  }

  /** `_parse_slide_response`: decode the candidate, or raise ValueError. */
  function ParseSlideResponse(response: string, decode: string -> Option<Json>): (r: Result<Json>)
    ensures r.Ok? <==> decode(JsonCandidate(response)).Some?
    ensures r.Ok? ==> r.value == decode(JsonCandidate(response)).value
    ensures r.Err? ==> r.msg == "Invalid JSON response from LLM"
  {
    var decoded := decode(JsonCandidate(response));
    if decoded.Some? then Ok(decoded.value) else Err("Invalid JSON response from LLM")
  }

  // ---------------------------------------------------------------------
  // _validate_slides

  /** Python `for x in v`: the elements a list, a string (its characters)
      or an object (its keys) yields; other values are not iterable. */
  function Iterate(j: Json): (r: Option<seq<Json>>)
    ensures r.None? <==> (j.JNull? || j.JBool? || j.JNum?)
  {
    match j
    case JArr(items) => Some(items)
    case JStr(s) => Some(seq(|s|, i requires 0 <= i < |s| => JStr([s[i]])))
    case JObj(members) => Some(seq(|members|, i requires 0 <= i < |members| => JStr(members[i].key)))
    case _ => None
  }

  /** A string content becomes a one-bullet list; anything else that is not
      a list becomes no bullets. */
  function ContentItems(c: Json): (r: seq<Json>)
    ensures c.JStr? ==> r == [c]
    ensures c.JArr? ==> r == c.items
    ensures !c.JStr? && !c.JArr? ==> r == []
  {
    match c
    case JStr(_) => [c]
    case JArr(items) => items
    case _ => []
  }

  /** The first eight items, each as a string of at most 200 characters. */
  function CleanBullets(items: seq<Json>): (r: seq<string>)
    ensures |r| == if |items| < MaxBullets then |items| else MaxBullets
    ensures forall k :: 0 <= k < |r| ==> r[k] == Take(PyStr(items[k]), MaxBulletLength)
  {
    var kept := Take(items, MaxBullets);
    seq(|kept|, k requires 0 <= k < |kept| => Take(PyStr(kept[k]), MaxBulletLength))
  }

  /** The validated form of the i-th element, or None when validating it
      raises (the element is not an object and has no `.get`). */
  function ValidateOne(j: Json, i: nat): (r: Option<Slide>)
    ensures r.Some? <==> j.JObj?
    ensures r.Some? ==> WithinCaps(r.value)
    ensures r.Some? && Lookup(j.members, "slide_number").None? ==> r.value.number == JNum(i + 1)
    ensures r.Some? && Lookup(j.members, "slide_type").None? ==> r.value.kind == JStr("content")
    ensures r.Some? && Lookup(j.members, "title").None? ==> r.value.title == Take("Slide " + NatToString(i + 1), MaxTitleLength)
    ensures r.Some? && Lookup(j.members, "content").None? ==> r.value.content == []
    ensures r.Some? && Lookup(j.members, "notes").None? ==> r.value.notes == JStr("")
    ensures r.Some? && Lookup(j.members, "slide_number").Some? ==> r.value.number == Lookup(j.members, "slide_number").value
    ensures r.Some? && Lookup(j.members, "slide_type").Some? ==> r.value.kind == Lookup(j.members, "slide_type").value
    ensures r.Some? && Lookup(j.members, "title").Some? ==> r.value.title == Take(PyStr(Lookup(j.members, "title").value), MaxTitleLength)
    ensures r.Some? && Lookup(j.members, "content").Some? ==> r.value.content == CleanBullets(ContentItems(Lookup(j.members, "content").value))
    ensures r.Some? && Lookup(j.members, "notes").Some? ==> r.value.notes == Lookup(j.members, "notes").value
  {
    match j
    case JObj(ms) =>
      var title := PyStr(Get(ms, "title", JStr("Slide " + NatToString(i + 1))));
      Some(Slide(
        Get(ms, "slide_number", JNum(i + 1)),
        Get(ms, "slide_type", JStr("content")),
        Take(title, MaxTitleLength),
        CleanBullets(ContentItems(Get(ms, "content", JArr([])))),
        Get(ms, "notes", JStr(""))))
    case _ => None
  }

  /** The positions of the entries that are objects, in increasing order. */
  function ObjectIndices(xs: seq<Json>): (r: seq<nat>)
    ensures forall j :: 0 <= j < |r| ==> r[j] < |xs| && xs[r[j]].JObj?
    ensures forall k :: 0 <= k < |xs| && xs[k].JObj? ==> k in r
    ensures forall i, j :: 0 <= i < j < |r| ==> r[i] < r[j]
  {
    if xs == [] then []
    else
      var front := xs[..|xs| - 1];
      var r := ObjectIndices(front) + (if xs[|xs| - 1].JObj? then [|xs| - 1] else []);
      assert forall k :: 0 <= k < |front| ==> front[k] == xs[k];
      r
  }

  /** The slides that survive validation: exactly one per entry that is an
      object, in input order, each validated at its own position. */
  function Survivors(xs: seq<Json>): (r: seq<Slide>)
    ensures |r| == |ObjectIndices(xs)| <= |xs|
    ensures forall j :: 0 <= j < |r| ==> r[j] == ValidateOne(xs[ObjectIndices(xs)[j]], ObjectIndices(xs)[j]).value
  {
    if xs == [] then []
    else
      var front := xs[..|xs| - 1];
      var last := ValidateOne(xs[|xs| - 1], |xs| - 1);
      var r := Survivors(front) + (if last.Some? then [last.value] else []);
      assert forall k :: 0 <= k < |front| ==> front[k] == xs[k];
      NoMoreIndicesThanEntries(xs);
      r
  }

  lemma {:induction false} NoMoreIndicesThanEntries(xs: seq<Json>)
    ensures |ObjectIndices(xs)| <= |xs|
  {
    if xs != [] {
      NoMoreIndicesThanEntries(xs[..|xs| - 1]);
    }
  }

  /** What `_validate_slides` returns for the elements `xs`. */
  function Validated(xs: seq<Json>): (r: seq<Slide>)
    ensures r != []
    ensures (exists k :: 0 <= k < |xs| && xs[k].JObj?) ==> r == Survivors(xs)
    ensures (forall k :: 0 <= k < |xs| ==> !xs[k].JObj?) ==> r == DefaultSlides()
  {
    var v := Survivors(xs);
    if v == [] then DefaultSlides()
    else
      assert xs[ObjectIndices(xs)[0]].JObj?;
      v
  }

  /** `_validate_slides` itself: the elements of the decoded reply are
      validated one by one; a reply that is not iterable raises. */
  method ValidateSlides(parsed: Json) returns (r: Result<seq<Slide>>)
    ensures r.Err? <==> Iterate(parsed).None?
    ensures r.Ok? ==> r.value == Validated(Iterate(parsed).value)
  {
    var elements := Iterate(parsed);
    if elements.None? {
      return Err("object is not iterable");
    }
    var xs := elements.value;
    var validated: seq<Slide> := [];
    var i := 0;
    while i < |xs|
      invariant 0 <= i <= |xs|
      invariant validated == Survivors(xs[..i])
    {
      SurvivorsSnoc(xs, i);
      var one := ValidateOne(xs[i], i);
      if one.Some? {
        validated := validated + [one.value];
      }
      i := i + 1;
    }
    assert xs[..|xs|] == xs;
    if validated == [] {
      return Ok(DefaultSlides());
    }
    return Ok(validated);
  }

  /** Validating one more element appends its slide when it has one. */
  lemma SurvivorsSnoc(xs: seq<Json>, i: nat)
    requires i < |xs|
    ensures Survivors(xs[..i + 1]) == Survivors(xs[..i]) +
      (if ValidateOne(xs[i], i).Some? then [ValidateOne(xs[i], i).value] else [])
  {
    assert xs[..i + 1][..i] == xs[..i];
  }

  /** Every validated slide respects the caps: at most 8 bullets of at most
      200 characters and a title of at most 100. */
  lemma {:induction false} SurvivorsWithinCaps(xs: seq<Json>)
    ensures forall k :: 0 <= k < |Survivors(xs)| ==> WithinCaps(Survivors(xs)[k])
  {
    if xs != [] {
      SurvivorsWithinCaps(xs[..|xs| - 1]);
    }
  }

  lemma ValidatedWithinCaps(xs: seq<Json>)
    ensures forall k :: 0 <= k < |Validated(xs)| ==> WithinCaps(Validated(xs)[k])
  {
    SurvivorsWithinCaps(xs);
  }

  /** When every element is an object nothing is skipped and the order is
      kept: slide k is the validated k-th element. */
  lemma {:induction false} SurvivorsOfObjects(xs: seq<Json>)
    requires forall k :: 0 <= k < |xs| ==> xs[k].JObj?
    ensures |Survivors(xs)| == |xs|
    ensures forall k :: 0 <= k < |xs| ==> Survivors(xs)[k] == ValidateOne(xs[k], k).value
  {
    if xs != [] {
      var ys := xs[..|xs| - 1];
      var last := ValidateOne(xs[|xs| - 1], |xs| - 1);
      assert last.Some?;
      SurvivorsOfObjects(ys);
      assert Survivors(xs) == Survivors(ys) + [last.value];
      forall k | 0 <= k < |xs|
        ensures Survivors(xs)[k] == ValidateOne(xs[k], k).value
      {
        if k < |ys| {
          assert xs[k] == ys[k];
        }
      }
    }
  }

  /** When no element is an object, every one is skipped and the single
      default slide is returned. */
  lemma {:induction false} ValidatedWithoutObjects(xs: seq<Json>)
    requires forall k :: 0 <= k < |xs| ==> !xs[k].JObj?
    ensures Survivors(xs) == []
    ensures Validated(xs) == DefaultSlides()
  {
    if xs != [] {
      ValidatedWithoutObjects(xs[..|xs| - 1]);
    }
  }

  // ---------------------------------------------------------------------
  // _fallback_text_analysis

  /** The positions of the parts that are not blank, in increasing order. */
  function NonBlankIndices(parts: seq<string>): (r: seq<nat>)
    ensures |r| <= |parts|
    ensures forall j :: 0 <= j < |r| ==> r[j] < |parts| && !IsBlank(Py, parts[r[j]])
    ensures forall k :: 0 <= k < |parts| && !IsBlank(Py, parts[k]) ==> k in r
    ensures forall i, j :: 0 <= i < j < |r| ==> r[i] < r[j]
  {
    if parts == [] then []
    else
      var front := parts[..|parts| - 1];
      var r := NonBlankIndices(front) + (if !IsBlank(Py, parts[|parts| - 1]) then [|parts| - 1] else []);
      assert forall k :: 0 <= k < |front| ==> front[k] == parts[k];
      r
  }

  /** `[p.strip() for p in parts if p.strip()]`. */
  function StrippedNonBlank(parts: seq<string>): (r: seq<string>)
    ensures |r| <= |parts|
    ensures forall j :: 0 <= j < |r| ==> r[j] != [] && !IsSpace(Py, r[j][0]) && !IsSpace(Py, r[j][|r[j]| - 1])
  {
    if parts == [] then []
    else
      var front := parts[..|parts| - 1];
      var p := Trim(Py, parts[|parts| - 1]);
      StrippedNonBlank(front) + (if p != [] then [p] else [])
  }

  /** The stripped form of exactly the parts that are not blank is kept,
      in their order. */
  lemma {:induction false} StrippedNonBlankKeeps(parts: seq<string>)
    ensures |StrippedNonBlank(parts)| == |NonBlankIndices(parts)|
    ensures forall j :: 0 <= j < |StrippedNonBlank(parts)| ==>
      StrippedNonBlank(parts)[j] == Trim(Py, parts[NonBlankIndices(parts)[j]])
  {
    if parts != [] {
      var front := parts[..|parts| - 1];
      var last := |parts| - 1;
      StrippedNonBlankKeeps(front);
      assert forall k :: 0 <= k < |front| ==> front[k] == parts[k];
      var p := Trim(Py, parts[last]);
      var kept := StrippedNonBlank(front);
      var indices := NonBlankIndices(front);
      assert StrippedNonBlank(parts) == kept + (if p != [] then [p] else []);
      assert NonBlankIndices(parts) == indices + (if p != [] then [last] else []);
      forall j | 0 <= j < |StrippedNonBlank(parts)|
        ensures StrippedNonBlank(parts)[j] == Trim(Py, parts[NonBlankIndices(parts)[j]])
      {
        if j < |kept| {
          assert StrippedNonBlank(parts)[j] == kept[j];
          assert NonBlankIndices(parts)[j] == indices[j];
        }
      }
    }
  }

  /** The non-blank paragraphs of the text, stripped. */
  function Paragraphs(text: string): seq<string> {
    StrippedNonBlank(Split(text, "\n\n"))
  }

  /** The first five non-blank pieces of a paragraph cut at '.', each
      stripped. */
  function Sentences(paragraph: string): (r: seq<string>)
    ensures |r| <= 5
    ensures forall k :: 0 <= k < |r| ==> r[k] != []
    ensures var pieces := Split(paragraph, ".");
      |r| == if |NonBlankIndices(pieces)| < 5 then |NonBlankIndices(pieces)| else 5
    ensures var pieces := Split(paragraph, ".");
      forall k :: 0 <= k < |r| ==> r[k] == Trim(Py, pieces[NonBlankIndices(pieces)[k]])
  {
    StrippedNonBlankKeeps(Split(paragraph, "."));
    Take(StrippedNonBlank(Split(paragraph, ".")), 5)
  }

  /** The title slide: the first line, cut to 100 characters, or
      'Presentation' when that is empty. */
  function TitleSlide(text: string): (s: Slide)
    ensures s.number == JNum(1) && s.kind == JStr("title") && s.content == []
    ensures s.title != [] && |s.title| <= MaxTitleLength
    ensures var first := Take(Split(text, "\n")[0], MaxTitleLength);
      s.title == if first != [] then first else "Presentation"
    ensures s.notes == JStr("")
  {
    var firstLine := Take(Split(text, "\n")[0], MaxTitleLength);
    Slide(JNum(1), JStr("title"), if firstLine != [] then firstLine else "Presentation", [], JStr(""))
  }

  /** `max(1, len(paragraphs) // 8)`. */
  function StrideFor(n: nat): (k: nat)
    ensures k >= 1
  {
    if n / 8 < 1 then 1 else n / 8
  }

  /** Python `xs[::k]`. */
  function Stride<T>(xs: seq<T>, k: nat): (r: seq<T>)
    requires k >= 1
    decreases |xs|
  {
    if xs == [] then [] else if |xs| <= k then [xs[0]] else [xs[0]] + Stride(xs[k..], k)
  }

  /** `xs[::k]` keeps every k-th element, starting with the first. */
  lemma {:induction false} StrideAt<T>(xs: seq<T>, k: nat, i: nat)
    requires k >= 1 && i < |Stride(xs, k)|
    ensures i * k < |xs| && Stride(xs, k)[i] == xs[i * k]
    decreases |xs|
  {
    if i > 0 && |xs| > k {
      StrideAt(xs[k..], k, i - 1);
      assert (i - 1) * k + k == i * k;
    }
  }

  /** `xs[::k]` has ceil(|xs| / k) elements: k of them cover the input and
      one fewer do not. */
  lemma {:induction false} StrideLength<T>(xs: seq<T>, k: nat)
    requires k >= 1
    ensures xs == [] <==> Stride(xs, k) == []
    ensures xs != [] ==> (|Stride(xs, k)| - 1) * k < |xs| <= |Stride(xs, k)| * k
    decreases |xs|
  {
    if |xs| > k {
      var rest := Stride(xs[k..], k);
      StrideLength(xs[k..], k);
      assert |Stride(xs, k)| == |rest| + 1;
      assert (|rest| - 1) * k + k == |rest| * k;
      assert |rest| * k + k == (|rest| + 1) * k;
    }
  }

  /** The content slide made from the i-th picked paragraph. */
  function KeyPointSlide(i: nat, paragraph: string): (s: Slide)
    ensures s.number == JNum(i + 2) && s.kind == JStr("content")
    ensures s.title == "Key Point " + NatToString(i + 1)
    ensures s.content == Sentences(paragraph) && |s.content| <= 5
    ensures s.notes == JStr(Take(paragraph, 200) + "...")
  {
    Slide(JNum(i + 2), JStr("content"), "Key Point " + NatToString(i + 1),
          Sentences(paragraph), JStr(Take(paragraph, 200) + "..."))
  }

  /** The paragraphs the fallback turns into content slides. */
  function Picked(text: string): seq<string> {
    var paragraphs := Paragraphs(text);
    Stride(paragraphs, StrideFor(|paragraphs|))
  }

  /** One content slide per picked paragraph, in order. */
  function KeyPoints(picked: seq<string>): (r: seq<Slide>)
    ensures |r| == |picked|
    ensures forall i :: 0 <= i < |r| ==> r[i] == KeyPointSlide(i, picked[i])
  {
    seq(|picked|, i requires 0 <= i < |picked| => KeyPointSlide(i, picked[i]))
  }

  lemma KeyPointsSnoc(picked: seq<string>, i: nat)
    requires i < |picked|
    ensures KeyPoints(picked[..i + 1]) == KeyPoints(picked[..i]) + [KeyPointSlide(i, picked[i])]
  {
    assert KeyPoints(picked[..i + 1])[i] == KeyPointSlide(i, picked[i]);
  }

  /** What `_fallback_text_analysis` returns. */
  function Fallback(text: string): (r: seq<Slide>)
    ensures |r| == 1 + |Picked(text)|
    ensures r[0] == TitleSlide(text)
    ensures r[1..] == KeyPoints(Picked(text))
  {
    [TitleSlide(text)] + KeyPoints(Picked(text))
  }

  /** `_fallback_text_analysis`, appending one slide per picked paragraph
      and numbering it after those already there. */
  method FallbackTextAnalysis(text: string) returns (slides: seq<Slide>)
    ensures slides == Fallback(text)
  {
    var picked := Picked(text);
    slides := [TitleSlide(text)];
    var i := 0;
    while i < |picked|
      invariant 0 <= i <= |picked|
      invariant |slides| == i + 1
      invariant slides == [TitleSlide(text)] + KeyPoints(picked[..i])
    {
      ghost var before := slides;
      slides := slides + [Slide(JNum(|slides| + 1), JStr("content"), "Key Point " + NatToString(i + 1),
                                Sentences(picked[i]), JStr(Take(picked[i], 200) + "..."))];
      assert slides == before + [KeyPointSlide(i, picked[i])];
      KeyPointsSnoc(picked, i);
      i := i + 1;
    }
    assert picked[..i] == picked;
  }

  /** The j-th picked paragraph is the one at position j * stride of the
      stripped, non-blank paragraphs. */
  lemma PickedAt(text: string, j: nat)
    requires j < |Picked(text)|
    ensures j * StrideFor(|Paragraphs(text)|) < |Paragraphs(text)|
    ensures Picked(text)[j] == Paragraphs(text)[j * StrideFor(|Paragraphs(text)|)]
  {
    var paragraphs := Paragraphs(text);
    StrideAt(paragraphs, StrideFor(|paragraphs|), j);
  }

  /** Content slide j + 1 of the fallback is made from the j-th picked
      paragraph: titled "Key Point j+1", its bullets that paragraph's
      sentences and its notes the paragraph's first 200 characters
      followed by "...". */
  lemma FallbackAt(text: string, j: nat)
    requires j + 1 < |Fallback(text)|
    ensures j < |Picked(text)|
    ensures Fallback(text)[j + 1] == KeyPointSlide(j, Picked(text)[j])
  {
    var r := Fallback(text);
    assert r[j + 1] == r[1..][j];
  }

  /** Together: content slide j + 1 comes from the paragraph at position
      j * stride. */
  lemma FallbackContentSlide(text: string, j: nat)
    requires j + 1 < |Fallback(text)|
    ensures j * StrideFor(|Paragraphs(text)|) < |Paragraphs(text)|
    ensures Fallback(text)[j + 1] == KeyPointSlide(j, Paragraphs(text)[j * StrideFor(|Paragraphs(text)|)])
  {
    FallbackAt(text, j);
    PickedAt(text, j);
  }

  /** The fallback numbers its slides 1, 2, 3, … in order: the title slide
      first, then the content slides. */
  lemma FallbackNumbered(text: string)
    ensures forall i :: 0 <= i < |Fallback(text)| ==> Fallback(text)[i].number == JNum(i + 1)
  {
    var r := Fallback(text);
    forall i | 0 <= i < |r|
      ensures r[i].number == JNum(i + 1)
    {
      if i > 0 {
        assert r[i] == KeyPoints(Picked(text))[i - 1];
      }
    }
  }

  /** However many paragraphs there are, the fallback makes at most 16
      slides: the stride keeps at most 15 paragraphs. */
  lemma FallbackAtMostSixteen(text: string)
    ensures |Fallback(text)| <= 16
  {
    var paragraphs := Paragraphs(text);
    StrideLength(paragraphs, StrideFor(|paragraphs|));
    StrideAtMostFifteen(|paragraphs|, |Stride(paragraphs, StrideFor(|paragraphs|))|);
  }

  /** ceil(n / max(1, n // 8)) <= 15, stated through the bounds that
      `StrideLength` gives for c = ceil(n / k). */
  lemma StrideAtMostFifteen(n: nat, c: nat)
    requires n == 0 ==> c == 0
    requires n > 0 ==> (c - 1) * StrideFor(n) < n
    ensures c <= 15
  {
    var k := StrideFor(n);
    if c >= 16 {
      assert n >= 8;
      assert n < 8 * k + 8 by {
        assert n == 8 * (n / 8) + n % 8;
      }
      MulMonotone(15, c - 1, k);
    }
  }

  lemma MulMonotone(a: nat, b: nat, k: nat)
    requires a <= b
    ensures a * k <= b * k
  {
  }

  // ---------------------------------------------------------------------
  // analyze_text_for_slides

  /** Slides obtained from a reply, or None when any step raises. */
  function FromReply(reply: string, decode: string -> Option<Json>): Option<seq<Slide>> {
    var parsed := ParseSlideResponse(reply, decode);
    if parsed.Err? then None
    else
      var elements := Iterate(parsed.value);
      if elements.None? then None else Some(Validated(elements.value))
  }

  /** The slides of the first reply the LLM returns, when that reply
      parses and validates; None when every call fails or the reply's
      processing raises. */
  function ReplySlides(attempts: seq<Option<string>>, decode: string -> Option<Json>): (r: Option<seq<Slide>>)
    ensures r.Some? ==> FirstSuccess(attempts, MaxRetries).Some? && r.value != []
  {
    var first := FirstSuccess(attempts, MaxRetries);
    if first.Some? then FromReply(Attempt(attempts, first.value).value, decode) else None
  }

  /** The `try` block of `analyze_text_for_slides`: the call, the parse
      and the validation, with None for any of them raising. */
  method SlidesFromLlm(attempts: seq<Option<string>>, decode: string -> Option<Json>)
    returns (slides: Option<seq<Slide>>)
    ensures slides == ReplySlides(attempts, decode)
  {
    var reply, _, _ := MakeLlmCall(attempts, MaxRetries);
    if reply.Returned? {
      var parsed := ParseSlideResponse(reply.text, decode);
      if parsed.Ok? {
        var validated := ValidateSlides(parsed.value);
        if validated.Ok? {
          return Some(validated.value);
        }
      }
    }
    return None;
  }

  /** `analyze_text_for_slides`: the validated reply of the LLM, or the
      paragraph fallback when the call, the parse or the validation
      raises. Never empty. */
  method AnalyzeTextForSlides(text: string, attempts: seq<Option<string>>, decode: string -> Option<Json>)
    returns (slides: seq<Slide>)
    ensures slides != []
    ensures ReplySlides(attempts, decode).Some? ==> slides == ReplySlides(attempts, decode).value
    ensures ReplySlides(attempts, decode).None? ==> slides == Fallback(text)
  {
    var fromLlm := SlidesFromLlm(attempts, decode);
    if fromLlm.Some? {
      return fromLlm.value;
    }
    slides := FallbackTextAnalysis(text);
  }

  // ---------------------------------------------------------------------
  // generate_speaker_notes

  /** A slide after its notes pass: truthy notes are kept; otherwise the
      stripped reply, or 'Notes for: <title>' when the call failed. */
  function WithNotes(s: Slide, call: CallResult): (r: Slide)
    ensures r.number == s.number && r.kind == s.kind && r.title == s.title && r.content == s.content
    ensures Truthy(s.notes) ==> r == s
    ensures !Truthy(s.notes) && call.Returned? ==> r.notes == JStr(Trim(Py, call.text))
    ensures !Truthy(s.notes) && !call.Returned? ==> r.notes == JStr("Notes for: " + s.title)
  {
    if Truthy(s.notes) then s
    else if call.Returned? then s.(notes := JStr(Trim(Py, call.text)))
    else s.(notes := JStr("Notes for: " + s.title))
  }

  /** After the pass a slide lacks notes only if it had none and the LLM
      answered with nothing but white space. */
  lemma NotesAfterPass(s: Slide, call: CallResult)
    ensures !Truthy(WithNotes(s, call).notes) <==>
      !Truthy(s.notes) && call.Returned? && IsBlank(Py, call.text)
  {
  }

  /** The call made for slide i (calls beyond those given raise). */
  function NotesCall(calls: seq<CallResult>, i: nat): CallResult {
    if i < |calls| then calls[i] else Raised
  }

  /** The list `generate_speaker_notes` returns. */
  function FillNotes(slides: seq<Slide>, calls: seq<CallResult>): (r: seq<Slide>)
    ensures |r| == |slides|
    ensures forall i :: 0 <= i < |r| ==> r[i] == WithNotes(slides[i], NotesCall(calls, i))
  {
    seq(|slides|, i requires 0 <= i < |slides| => WithNotes(slides[i], NotesCall(calls, i)))
  }

  /** `generate_speaker_notes`, updating the slide records in place. */
  method GenerateSpeakerNotes(slides: array<Slide>, calls: seq<CallResult>)
    modifies slides
    ensures slides[..] == FillNotes(old(slides[..]), calls)
  {
    ghost var before := slides[..];
    var i := 0;
    while i < slides.Length
      invariant 0 <= i <= slides.Length
      invariant slides[..i] == FillNotes(before, calls)[..i]
      invariant slides[i..] == before[i..]
    {
      var slide := slides[i];
      assert slide == before[i];
      if !Truthy(slide.notes) {
        var call := NotesCall(calls, i);
        if call.Returned? {
          slides[i] := slide.(notes := JStr(Trim(Py, call.text)));
        } else {
          slides[i] := slide.(notes := JStr("Notes for: " + slide.title));
        }
      }
      assert slides[..i + 1] == slides[..i] + [slides[i]];
      assert FillNotes(before, calls)[..i + 1] == FillNotes(before, calls)[..i] + [FillNotes(before, calls)[i]];
      i := i + 1;
    }
    assert slides[..] == slides[..i];
  }
}
