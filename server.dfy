/** The Flask back end (backend/app.py): the in-memory session store, the
    upload allow-list, the order of each route's request checks, and the
    expiry filter of the cleanup thread. Requests are decoded JSON bodies or
    form fields; the LLM, python-pptx and the file system are outcomes
    passed in. Times are microseconds. */
module Server {
  import opened Common
  import opened Text
  import opened JsonValue
  import opened LlmService
  import opened PptxAnalyzer
  import opened PptxGenerator

  const MaxTextLength: nat := 50000
  const Hour: int := 3_600_000_000

  /** The extensions an uploaded template may have. */
  const AllowedExtensions: set<string> := {"pptx", "potx"}

  /** `allowed_file`: there is a '.' and the part after the last one,
      lower-cased, is an allowed extension. */
  function AllowedFile(filename: string): (r: bool)
    ensures r ==> '.' in filename
  {
    var dot := LastIndexOf(filename, '.');
    dot.Some? && Lower(filename[dot.value + 1..]) in AllowedExtensions
  }

  /** The last '.' of a name is the one with no '.' after it. */
  lemma {:induction false} LastDot(s: string, i: nat)
    requires i < |s| && s[i] == '.'
    requires forall k :: i < k < |s| ==> s[k] != '.'
    ensures LastIndexOf(s, '.') == Some(i)
    decreases |s|
  {
    if i < |s| - 1 {
      LastDot(s[..|s| - 1], i);
    }
  }

  /** A name is allowed exactly when it is some stem, a '.', and an
      extension without '.' that lower-cases to 'pptx' or 'potx'. */
  lemma AllowedFileIff(filename: string)
    ensures AllowedFile(filename) <==> exists i :: AllowedAt(filename, i)
  {
    var dot := LastIndexOf(filename, '.');
    if AllowedFile(filename) {
      assert AllowedAt(filename, dot.value);
    }
    if exists i :: AllowedAt(filename, i) {
      var i :| AllowedAt(filename, i);
      LastDot(filename, i);
    }
  }

  /** The '.' at position i is the last one and the extension after it is
      allowed. */
  predicate AllowedAt(filename: string, i: int) {
    0 <= i < |filename| && filename[i] == '.'
    && (forall k :: i < k < |filename| ==> filename[k] != '.')
    && Lower(filename[i + 1..]) in AllowedExtensions
  }

  lemma AllowedFileExamples()
    ensures AllowedFile("deck.PPTX")
    ensures AllowedFile("my.deck.potx")
    ensures !AllowedFile("deck.pdf")
    ensures !AllowedFile("pptx")
  {
    LastDot("deck.PPTX", 4);
    assert "deck.PPTX"[5..] == "PPTX";
    assert Lower("PPTX") == "pptx";
    LastDot("my.deck.potx", 7);
    assert "my.deck.potx"[8..] == "potx";
    assert Lower("potx") == "potx";
    LastDot("deck.pdf", 4);
    assert "deck.pdf"[5..] == "pdf";
    assert Lower("pdf") == "pdf";
    assert forall i :: 0 <= i < 4 ==> "pptx"[i] != '.';
  }

  /** The template part of a session: the analysis and the saved file. */
  datatype TemplateData = TemplateData(layouts: seq<LayoutInfo>, images: nat, colors: seq<string>)

  /** One entry of the session store. */
  datatype Session = Session(created: Option<int>, slideData: seq<Slide>, text: Json, guidance: Json,
                             template: Option<(TemplateData, string)>)

  /** The outcome of a route's request checks: the accepted request, or
      the status and message to answer with. */
  datatype Checked<T> = Pass(value: T) | Reject(status: int, message: string)

  /** What a route answers. */
  datatype Reply =
    | Error(status: int, message: string)
    | TextAnalyzed(sessionId: string, slides: seq<Slide>, slideCount: nat)
    | TemplateAnalyzed(layoutsFound: nat, imagesFound: nat, themeColors: nat)
    | FileSent(path: string, downloadName: string, slides: seq<Slide>)
    | NotesGenerated(slides: seq<Slide>)

  /** Expired sessions: created more than one hour before `now`; a session
      without a creation time never expires. */
  predicate Expired(s: Session, now: int) {
    s.created.Some? && now - s.created.value > Hour
  }

  /** The store after the cleanup filter. */
  function Unexpired(sessions: map<string, Session>, now: int): (r: map<string, Session>)
    ensures forall id :: id in r <==> id in sessions && !Expired(sessions[id], now)
    ensures forall id :: id in r ==> r[id] == sessions[id]
  {
    map id | id in sessions && !Expired(sessions[id], now) :: sessions[id]
  }

  /** Cleaning up twice at the same time removes nothing more; a later
      cleanup only removes more. */
  lemma UnexpiredMonotone(sessions: map<string, Session>, now: int, later: int)
    requires now <= later
    ensures Unexpired(Unexpired(sessions, now), now) == Unexpired(sessions, now)
    ensures Unexpired(sessions, later).Keys <= Unexpired(sessions, now).Keys
  {
  }

  /** `LLMService.__init__`: the provider, lower-cased, must be supported. */
  function CheckProvider(provider: Json): (r: Result<string>)
    ensures r.Ok? <==> provider.JStr? && Lower(provider.s) in {"openai", "anthropic", "gemini"}
    ensures r.Ok? ==> r.value == Lower(provider.s)
  {
    if !provider.JStr? then Err("'" + PyTypeName(provider) + "' object has no attribute 'lower'")
    else if Lower(provider.s) in {"openai", "anthropic", "gemini"} then Ok(Lower(provider.s))
    else Err("Unsupported provider: " + Lower(provider.s))
  }

  function PyTypeName(j: Json): string {
    match j
    case JNull => "NoneType"
    case JBool(_) => "bool"
    case JNum(_) => "int"
    case JStr(_) => "str"
    case JArr(_) => "list"
    case JObj(_) => "dict"
  }

  /** Python `len(v)` of a decoded JSON value: the characters of a string,
      the entries of a list, the members of an object; other values have no
      length and `len` raises. */
  function PyLen(j: Json): (r: Result<nat>)
    ensures r.Err? <==> j.JNull? || j.JBool? || j.JNum?
    ensures r.Err? ==> r.msg == "object of type '" + PyTypeName(j) + "' has no len()"
    ensures j.JStr? ==> r == Ok(|j.s|)
    ensures j.JArr? ==> r == Ok(|j.items|)
  {
    match j
    case JStr(s) => Ok(|s|)
    case JArr(items) => Ok(|items|)
    case JObj(members) => Ok(|members|)
    case _ => Err("object of type '" + PyTypeName(j) + "' has no len()")
  }

  /** What `text[:5000]` raises for an object text (a dictionary cannot be
      sliced). */
  const DictSliceError := "unhashable type: 'slice'"

  /** What `"Guidance: " + guidance` raises for a truthy guidance that is
      not a string. */
  function ConcatError(guidance: Json): string {
    "can only concatenate str (not \"" + PyTypeName(guidance) + "\") to str"
  }

  /** A text-analysis request that passed every check and whose prompt can
      be built: its text is a string or a list. */
  datatype TextRequest = TextRequest(text: Json, guidance: Json, provider: string)

  /** The checks of `analyze_text`, in order: a body with 'text', a
      non-empty key, a text with a length of at most 50000, a supported
      provider; then building the prompt, which slices the text and
      appends a truthy guidance to a string. Whatever raises is answered
      with status 500 and "Analysis failed: " before the error. */
  function CheckAnalyzeText(body: Option<seq<Member>>): (r: Checked<TextRequest>)
    ensures (body.None? || body.value == [] || Lookup(body.value, "text").None?) <==>
      r == Reject(400, "No text provided")
    ensures r == Reject(400, "API key is required") <==>
      (body.Some? && Lookup(body.value, "text").Some? && !Truthy(Get(body.value, "apiKey", JStr(""))))
    ensures body.Some? && Lookup(body.value, "text").Some? && Truthy(Get(body.value, "apiKey", JStr("")))
            && PyLen(Lookup(body.value, "text").value).Err? ==>
      r == Reject(500, "Analysis failed: " + PyLen(Lookup(body.value, "text").value).msg)
    ensures r == Reject(400, "Text too long. Maximum 50,000 characters.") ==>
      (Truthy(Get(body.value, "apiKey", JStr(""))) && PyLen(Lookup(body.value, "text").value).Ok?
       && PyLen(Lookup(body.value, "text").value).value > MaxTextLength)
    ensures r.Pass? ==>
      (body.Some? && Lookup(body.value, "text") == Some(r.value.text)
       && (r.value.text.JStr? || r.value.text.JArr?)
       && PyLen(r.value.text).Ok? && PyLen(r.value.text).value <= MaxTextLength
       && Truthy(Get(body.value, "apiKey", JStr("")))
       && CheckProvider(Get(body.value, "provider", JStr("openai"))) == Ok(r.value.provider)
       && r.value.guidance == Get(body.value, "guidance", JStr(""))
       && (Truthy(r.value.guidance) ==> r.value.guidance.JStr?))
    ensures body.Some? && Lookup(body.value, "text").Some? && Truthy(Get(body.value, "apiKey", JStr("")))
            && PyLen(Lookup(body.value, "text").value).Ok?
            && PyLen(Lookup(body.value, "text").value).value > MaxTextLength ==>
      r == Reject(400, "Text too long. Maximum 50,000 characters.")
    ensures body.Some? && Lookup(body.value, "text").Some?
            && (Lookup(body.value, "text").value.JStr? || Lookup(body.value, "text").value.JArr?)
            && PyLen(Lookup(body.value, "text").value).value <= MaxTextLength
            && Truthy(Get(body.value, "apiKey", JStr("")))
            && CheckProvider(Get(body.value, "provider", JStr("openai"))).Ok?
            && (Truthy(Get(body.value, "guidance", JStr(""))) ==> Get(body.value, "guidance", JStr("")).JStr?) ==>
      r == Pass(TextRequest(Lookup(body.value, "text").value, Get(body.value, "guidance", JStr("")),
                            CheckProvider(Get(body.value, "provider", JStr("openai"))).value))
  {
    if body.None? || body.value == [] || Lookup(body.value, "text").None? then Reject(400, "No text provided")
    else
      var ms := body.value;
      var text := Lookup(ms, "text").value;
      var guidance := Get(ms, "guidance", JStr(""));
      var length := PyLen(text);
      if !Truthy(Get(ms, "apiKey", JStr(""))) then Reject(400, "API key is required")
      else if length.Err? then Reject(500, "Analysis failed: " + length.msg)
      else if length.value > MaxTextLength then Reject(400, "Text too long. Maximum 50,000 characters.")
      else
        var provider := CheckProvider(Get(ms, "provider", JStr("openai")));
        if provider.Err? then Reject(500, "Analysis failed: " + provider.msg)
        else if text.JObj? then Reject(500, "Analysis failed: " + DictSliceError)
        else if Truthy(guidance) && !guidance.JStr? then Reject(500, "Analysis failed: " + ConcatError(guidance))
        else Pass(TextRequest(text, guidance, provider.value))
  }

  /** A number as the text is refused with a 500 naming its type, and no
      session is stored for it. */
  lemma NumberTextRefused(key: string)
    requires key != []
    ensures CheckAnalyzeText(Some([Member("text", JNum(5)), Member("apiKey", JStr(key))]))
            == Reject(500, "Analysis failed: " + PyLen(JNum(5)).msg)
    ensures PyLen(JNum(5)).msg == "object of type 'int' has no len()"
  {
    var ms := [Member("text", JNum(5)), Member("apiKey", JStr(key))];
    assert ms[..1] == [Member("text", JNum(5))];
    assert Lookup(ms, "text") == Some(JNum(5));
    assert Lookup(ms, "apiKey") == Some(JStr(key));
  }

  /** A truthy number as the guidance is refused with a 500 naming the
      failed concatenation, and no session is stored for it. */
  lemma NumberGuidanceRefused(key: string)
    requires key != []
    ensures CheckAnalyzeText(Some([Member("apiKey", JStr(key)), Member("guidance", JNum(1)), Member("text", JStr("hi"))]))
            == Reject(500, "Analysis failed: " + ConcatError(JNum(1)))
    ensures ConcatError(JNum(1)) == "can only concatenate str (not \"int\") to str"
  {
    var ms := [Member("apiKey", JStr(key)), Member("guidance", JNum(1)), Member("text", JStr("hi"))];
    assert ms[..2] == [Member("apiKey", JStr(key)), Member("guidance", JNum(1))];
    assert ms[..2][..1] == [Member("apiKey", JStr(key))];
    assert Lookup(ms, "text") == Some(JStr("hi"));
    assert Lookup(ms[..2], "guidance") == Some(JNum(1));
    assert Lookup(ms, "guidance") == Some(JNum(1));
    assert Lookup(ms[..2][..1], "apiKey") == Some(JStr(key));
    assert Lookup(ms, "apiKey") == Some(JStr(key));
    assert Lookup(ms, "provider").None?;
    assert Lower("openai") == "openai";
  }

  /** The uploaded template part. */
  datatype Upload = Upload(filename: string)

  /** The checks of `analyze_template`, in order: a template part, a known
      session, a file name, an allowed extension. */
  function CheckAnalyzeTemplate(sessions: map<string, Session>, template: Option<Upload>, sessionId: Option<string>)
    : (r: Checked<string>)
    ensures template.None? <==> r == Reject(400, "No template file provided")
    ensures r == Reject(400, "Invalid session") <==>
      (template.Some? && (sessionId.None? || sessionId.value == [] || sessionId.value !in sessions))
    ensures r == Reject(400, "No file selected") <==>
      (template.Some? && sessionId.Some? && sessionId.value in sessions && sessionId.value != []
       && template.value.filename == [])
    ensures r.Pass? <==>
      (template.Some? && sessionId.Some? && sessionId.value != [] && sessionId.value in sessions
       && template.value.filename != [] && AllowedFile(template.value.filename))
    ensures r.Pass? ==> r.value == sessionId.value
  {
    if template.None? then Reject(400, "No template file provided")
    else if sessionId.None? || sessionId.value == [] || sessionId.value !in sessions then Reject(400, "Invalid session")
    else if template.value.filename == [] then Reject(400, "No file selected")
    else if !AllowedFile(template.value.filename) then
      Reject(400, "Invalid file type. Only .pptx and .potx files are allowed")
    else Pass(sessionId.value)
  }

  /** `session_id not in session_store` for a JSON value: a falsy or
      unknown id is invalid, and a list or object cannot be hashed. */
  function FindSession(sessions: map<string, Session>, id: Json): (r: Result<Option<string>>)
    ensures r.Ok? && r.value.Some? <==> id.JStr? && id.s != [] && id.s in sessions
    ensures r.Ok? && r.value.Some? ==> r.value.value == id.s
    ensures r.Err? <==> Truthy(id) && (id.JArr? || id.JObj?)
  {
    if !Truthy(id) then Ok(None)
    else match id
      case JStr(s) => if s in sessions then Ok(Some(s)) else Ok(None)
      case JArr(_) => Err("unhashable type: 'list'")
      case JObj(_) => Err("unhashable type: 'dict'")
      case _ => Ok(None)
  }

  /** The checks of `generate_presentation`, in order: a known session,
      then an analysed template. */
  function CheckGenerate(sessions: map<string, Session>, body: Option<seq<Member>>): (r: Checked<string>)
    ensures r.Pass? ==> r.value in sessions && sessions[r.value].template.Some?
    ensures r.Pass? ==> body.Some? && Get(body.value, "session_id", JNull) == JStr(r.value)
    ensures r == Reject(400, "Template not analyzed") <==>
      (body.Some? && exists id :: id in sessions && id != [] && sessions[id].template.None?
                                  && Get(body.value, "session_id", JNull) == JStr(id))
    ensures body.Some? && FindSession(sessions, Get(body.value, "session_id", JNull)) == Ok(None) ==>
      r == Reject(400, "Invalid session")
    ensures body.None? ==> r == Reject(500, "Generation failed: 'NoneType' object has no attribute 'get'")
    ensures body.Some? && FindSession(sessions, Get(body.value, "session_id", JNull)).Err? ==>
      r == Reject(500, "Generation failed: " + FindSession(sessions, Get(body.value, "session_id", JNull)).msg)
    ensures body.Some? && Get(body.value, "session_id", JNull).JStr?
            && Get(body.value, "session_id", JNull).s != []
            && Get(body.value, "session_id", JNull).s in sessions
            && sessions[Get(body.value, "session_id", JNull).s].template.Some? ==>
      r == Pass(Get(body.value, "session_id", JNull).s)
  {
    if body.None? then Reject(500, "Generation failed: 'NoneType' object has no attribute 'get'")
    else
      var found := FindSession(sessions, Get(body.value, "session_id", JNull));
      if found.Err? then Reject(500, "Generation failed: " + found.msg)
      else if found.value.None? then Reject(400, "Invalid session")
      else if sessions[found.value.value].template.None? then Reject(400, "Template not analyzed")
      else Pass(found.value.value)
  }

  const DownloadPrefix := "generated_presentation_"

  /** The name the generated file is downloaded under: the fixed prefix,
      at most eight leading characters of the session id, '.pptx'. */
  function DownloadName(sessionId: string): (r: string)
    ensures StartsWith(r, DownloadPrefix) && |r| == |DownloadPrefix| + |Take(sessionId, 8)| + 5 <= 36
    ensures r[|r| - 5..] == ".pptx"
    ensures StartsWith(sessionId, r[|DownloadPrefix|..|r| - 5])
  {
    var r := DownloadPrefix + Take(sessionId, 8) + ".pptx";
    assert r[..|DownloadPrefix|] == DownloadPrefix;
    assert r[|DownloadPrefix|..|r| - 5] == Take(sessionId, 8);
    r
  }

  /** Two sessions get the same download name exactly when their ids
      agree on the first eight characters: the name tells sessions apart
      only by that prefix. */
  lemma {:induction false} DownloadNamesCollide(a: string, b: string)
    ensures DownloadName(a) == DownloadName(b) <==> Take(a, 8) == Take(b, 8)
  {
    var ra := DownloadName(a);
    var rb := DownloadName(b);
    if ra == rb {
      assert ra[|DownloadPrefix|..|ra| - 5] == Take(a, 8);
      assert rb[|DownloadPrefix|..|rb| - 5] == Take(b, 8);
    }
  }

  /** The session store and the routes that read and change it. */
  class SessionStore {
    var sessions: map<string, Session>

    constructor ()
      ensures sessions == map[]
    {
      sessions := map[];
    }

    /** `analyze_text`: after the checks, the text is analysed into slides
        and stored under the new session id; a rejected request changes
        nothing. A list given as the text reaches the LLM; when no reply
        yields slides, the paragraph fallback calls `split` on the list,
        which raises, and nothing is stored. */
    method AnalyzeText(body: Option<seq<Member>>, newId: string, now: int,
                       attempts: seq<Option<string>>, decode: string -> Option<Json>)
      returns (reply: Reply)
      modifies this
      ensures CheckAnalyzeText(body).Reject? ==>
        reply == Error(CheckAnalyzeText(body).status, CheckAnalyzeText(body).message) && sessions == old(sessions)
      ensures CheckAnalyzeText(body).Pass? && CheckAnalyzeText(body).value.text.JArr?
              && ReplySlides(attempts, decode).None? ==>
        reply == Error(500, "Analysis failed: 'list' object has no attribute 'split'") && sessions == old(sessions)
      ensures CheckAnalyzeText(body).Pass? && reply.TextAnalyzed? ==>
        var req := CheckAnalyzeText(body).value;
        reply.sessionId == newId && reply.slideCount == |reply.slides| && reply.slides != []
        && sessions == old(sessions)[newId := Session(Some(now), reply.slides, req.text, req.guidance, None)]
      ensures CheckAnalyzeText(body).Pass? ==>
        (reply.TextAnalyzed? <==> CheckAnalyzeText(body).value.text.JStr? || ReplySlides(attempts, decode).Some?)
      ensures reply.TextAnalyzed? && ReplySlides(attempts, decode).Some? ==> reply.slides == ReplySlides(attempts, decode).value
      ensures reply.TextAnalyzed? && ReplySlides(attempts, decode).None? ==>
        reply.slides == Fallback(CheckAnalyzeText(body).value.text.s)
    {
      var checked := CheckAnalyzeText(body);
      if checked.Reject? {
        return Error(checked.status, checked.message);
      }
      var req := checked.value;
      var slides: seq<Slide>;
      if req.text.JStr? {
        slides := AnalyzeTextForSlides(req.text.s, attempts, decode);
      } else {
        var fromLlm := SlidesFromLlm(attempts, decode);
        if fromLlm.None? {
          return Error(500, "Analysis failed: 'list' object has no attribute 'split'");
        }
        slides := fromLlm.value;
      }
      sessions := sessions[newId := Session(Some(now), slides, req.text, req.guidance, None)];
      reply := TextAnalyzed(newId, slides, |slides|);
    }

    /** `analyze_template`: after the checks, the saved file is analysed and
        the analysis and path are stored in that session only; a failed
        analysis changes nothing. */
    method AnalyzeTemplate(template: Option<Upload>, sessionId: Option<string>, savedPath: string,
                           analysis: Result<TemplateData>)
      returns (reply: Reply)
      modifies this
      ensures var c := CheckAnalyzeTemplate(old(sessions), template, sessionId);
        c.Reject? ==> reply == Error(c.status, c.message) && sessions == old(sessions)
      ensures CheckAnalyzeTemplate(old(sessions), template, sessionId).Pass? && analysis.Err? ==>
        reply == Error(500, "Template analysis failed: " + analysis.msg) && sessions == old(sessions)
      ensures CheckAnalyzeTemplate(old(sessions), template, sessionId).Pass? && analysis.Ok? ==>
        var id := sessionId.value;
        sessions == old(sessions)[id := old(sessions)[id].(template := Some((analysis.value, savedPath)))]
        && reply == TemplateAnalyzed(|analysis.value.layouts|, analysis.value.images, |analysis.value.colors|)
    {
      var checked := CheckAnalyzeTemplate(sessions, template, sessionId);
      if checked.Reject? {
        return Error(checked.status, checked.message);
      }
      if analysis.Err? {
        return Error(500, "Template analysis failed: " + analysis.msg);
      }
      var id := checked.value;
      var data := analysis.value;
      sessions := sessions[id := sessions[id].(template := Some((data, savedPath)))];
      reply := TemplateAnalyzed(|data.layouts|, data.images, |data.colors|);
    }

    /** `generate_presentation`: the deck is built from the session's own
        slides and template, never from the request; nothing is stored. */
    method GeneratePresentation(body: Option<seq<Member>>, generation: Result<()>)
      returns (reply: Reply)
      ensures var c := CheckGenerate(sessions, body); c.Reject? ==> reply == Error(c.status, c.message)
      ensures CheckGenerate(sessions, body).Pass? && generation.Err? ==>
        reply == Error(500, "Generation failed: " + generation.msg)
      ensures CheckGenerate(sessions, body).Pass? && generation.Ok? ==>
        var id := CheckGenerate(sessions, body).value;
        reply == FileSent(OutputPath(Some(sessions[id].template.value.1)), DownloadName(id), sessions[id].slideData)
    {
      var checked := CheckGenerate(sessions, body);
      if checked.Reject? {
        return Error(checked.status, checked.message);
      }
      if generation.Err? {
        return Error(500, "Generation failed: " + generation.msg);
      }
      var session := sessions[checked.value];
      reply := FileSent(OutputPath(Some(session.template.value.1)), DownloadName(checked.value), session.slideData);
    }

    /** `generate_speaker_notes`: the session's slides get their notes
        filled and are stored back; no other session changes. */
    method GenerateSpeakerNotes(body: Option<seq<Member>>, calls: seq<CallResult>) returns (reply: Reply)
      modifies this
      ensures body.None? ==> reply.Error? && sessions == old(sessions)
      ensures body.Some? ==>
        var found := FindSession(old(sessions), Get(body.value, "session_id", JNull));
        var provider := CheckProvider(Get(body.value, "provider", JStr("openai")));
        if found.Ok? && found.value.Some? && provider.Ok? then
          var id := found.value.value;
          var filled := FillNotes(old(sessions)[id].slideData, calls);
          sessions == old(sessions)[id := old(sessions)[id].(slideData := filled)] && reply == NotesGenerated(filled)
        else
          sessions == old(sessions) && reply.Error?
          && (found.Ok? && found.value.None? ==> reply == Error(400, "Invalid session"))
    {
      if body.None? {
        return Error(500, "Speaker notes generation failed: 'NoneType' object has no attribute 'get'");
      }
      var found := FindSession(sessions, Get(body.value, "session_id", JNull));
      if found.Err? {
        return Error(500, "Speaker notes generation failed: " + found.msg);
      }
      if found.value.None? {
        return Error(400, "Invalid session");
      }
      var provider := CheckProvider(Get(body.value, "provider", JStr("openai")));
      if provider.Err? {
        return Error(500, "Speaker notes generation failed: " + provider.msg);
      }
      var id := found.value.value;
      var current := sessions[id].slideData;
      var slides := new Slide[|current|](i requires 0 <= i < |current| => current[i]);
      assert slides[..] == current;
      LlmService.GenerateSpeakerNotes(slides, calls);
      sessions := sessions[id := sessions[id].(slideData := slides[..])];
      reply := NotesGenerated(slides[..]);
    }

    /** One pass of `cleanup_old_sessions`: the expired ids are collected,
        then deleted; every other entry is kept as it was. */
    method CleanupExpired(now: int)
      modifies this
      ensures sessions == Unexpired(old(sessions), now)
    {
      var expired: set<string> := {};
      var pending := sessions.Keys;
      while pending != {}
        invariant pending <= sessions.Keys
        invariant forall id :: id in expired <==> id in sessions && id !in pending && Expired(sessions[id], now)
        decreases |pending|
      {
        var id :| id in pending;
        if Expired(sessions[id], now) {
          expired := expired + {id};
        }
        pending := pending - {id};
      }
      ghost var before := sessions;
      var doomed := expired;
      while doomed != {}
        invariant doomed <= expired
        invariant forall id :: id in sessions <==> id in before && (id !in expired || id in doomed)
        invariant forall id :: id in sessions ==> sessions[id] == before[id]
        decreases |doomed|
      {
        var id :| id in doomed;
        if id in sessions {
          sessions := map k | k in sessions && k != id :: sessions[k];
        }
        doomed := doomed - {id};
      }
    }
  }
}
