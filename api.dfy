/** The browser's client of the back end: how a failed request is turned
    into the message the wizard shows, what each request carries, the
    API-key format check and the two reading estimates. */
module Api {
  import opened Common
  import opened Text
  import opened JsonValue

  // ---------------------------------------------------------------------
  // Error mapping of the response interceptor

  /** What the HTTP client reports about a failed request: its error code,
      the response status and the response body's `error` field when there
      was a response, and the client's own message. */
  datatype Failure = Failure(code: Option<string>, status: Option<int>, bodyError: Option<string>, message: string)

  const TimeoutMessage := "Request timed out. Please try again with shorter content."
  const TooLargeMessage := "File too large. Please use a smaller template file."
  const ServerMessage := "Server error. Please try again later."
  const UnexpectedMessage := "An unexpected error occurred"

  predicate Aborted(f: Failure) { f.code == Some("ECONNABORTED") }

  predicate ServerFault(f: Failure) { f.status.Some? && f.status.value >= 500 }

  /** The message of the error the interceptor throws for `f`. The checks
      run in a fixed order: timeout, 413, any 5xx, the body's error, then
      the client's message. */
  function MapError(f: Failure): (r: string)
    ensures r != []
    ensures Aborted(f) ==> r == TimeoutMessage
    ensures !Aborted(f) && f.status == Some(413) ==> r == TooLargeMessage
    ensures !Aborted(f) && f.status != Some(413) && ServerFault(f) ==> r == ServerMessage
    ensures !Aborted(f) && f.status != Some(413) && !ServerFault(f) ==>
              (if f.bodyError.Some? && f.bodyError.value != [] then r == f.bodyError.value
               else if f.message != [] then r == f.message
               else r == UnexpectedMessage)
  {
    if Aborted(f) then TimeoutMessage
    else if f.status == Some(413) then TooLargeMessage
    else if ServerFault(f) then ServerMessage
    else if f.bodyError.Some? && f.bodyError.value != "" then f.bodyError.value
    else if f.message != "" then f.message
    else UnexpectedMessage
  }

  /** A server fault hides whatever error text the server put in the body. */
  lemma ServerFaultHidesBody(f: Failure, bodyError: Option<string>)
    requires !Aborted(f) && f.status != Some(413) && ServerFault(f)
    ensures MapError(f) == MapError(f.(bodyError := bodyError)) == ServerMessage
  {
  }

  /** Below the 5xx range the body's error text, when non-empty, is shown
      verbatim, whatever the client's own message is. */
  lemma BodyErrorShown(f: Failure, e: string)
    requires !Aborted(f) && f.status != Some(413) && !ServerFault(f) && e != ""
    ensures MapError(f.(bodyError := Some(e))) == e
  {
  }

  // ---------------------------------------------------------------------
  // Requests

  /** A request as the client sends it. The template upload is a form with
      the file (an opaque handle here) and the session id. */
  datatype Request =
    | AnalyzeText(text: string, guidance: string, provider: string, apiKey: string)
    | AnalyzeTemplate(file: nat, sessionId: Json)
    | SpeakerNotes(sessionId: Json, provider: string, apiKey: string)
    | GeneratePresentation(sessionId: Json, options: map<string, Json>)
    | HealthCheck

  const DefaultTimeout: nat := 60000
  const GenerationTimeout: nat := 120000

  /** Milliseconds the client waits: two minutes for the deck itself, the
      instance default otherwise. */
  function Timeout(req: Request): (ms: nat)
    ensures ms == GenerationTimeout <==> req.GeneratePresentation?
    ensures ms == DefaultTimeout <==> !req.GeneratePresentation?
  {
    if req.GeneratePresentation? then GenerationTimeout else DefaultTimeout
  }

  /** The response is read as a binary blob only for the generated deck. */
  predicate WantsBlob(req: Request) { req.GeneratePresentation? }

  /** The keys of the JSON body (for the form upload, of the form fields). */
  function BodyKeys(req: Request): (keys: seq<string>)
    ensures req.HealthCheck? <==> keys == []
  {
    match req
    case AnalyzeText(_, _, _, _) => ["text", "guidance", "provider", "apiKey"]
    case AnalyzeTemplate(_, _) => ["template", "session_id"]
    case SpeakerNotes(_, _, _) => ["session_id", "provider", "apiKey"]
    case GeneratePresentation(_, _) => ["session_id", "options"]
    case HealthCheck => []
  }

  /** What the wizard hands to `generatePresentation`. */
  datatype GenerateArgs<S> = GenerateArgs(sessionId: Json, options: map<string, Json>, slides: seq<S>)

  /** `generatePresentation` destructures only the session id and the
      options, so the slides the wizard passes are never sent. */
  function GenerateRequest<S>(args: GenerateArgs<S>): (r: Request)
    ensures r.GeneratePresentation? && r.sessionId == args.sessionId && r.options == args.options
    ensures "slides" !in BodyKeys(r)
  {
    GeneratePresentation(args.sessionId, args.options)
  }

  /** Two calls that differ only in their slides send the same request. */
  lemma SlidesNeverSent<S>(a: GenerateArgs<S>, slides: seq<S>)
    ensures GenerateRequest(a.(slides := slides)) == GenerateRequest(a)
  {
  }

  /** The failure the interceptor sees when the server answers `req` with an
      error status and a JSON body carrying `serverError`. A request read
      as a blob gets the body as a blob, which has no `error` field. */
  function ServerRefusal(req: Request, status: int, serverError: string, clientMessage: string): (f: Failure)
    ensures f.status == Some(status) && f.code.None? && f.message == clientMessage
    ensures f.bodyError.Some? <==> !WantsBlob(req)
  {
    Failure(None, Some(status), if WantsBlob(req) then None else Some(serverError), clientMessage)
  }

  /** A 4xx refusal of the deck request never shows the server's reason,
      while the same refusal of any other request does. */
  lemma DeckRefusalHidesReason(req: Request, status: int, serverError: string, clientMessage: string)
    requires 400 <= status < 500 && status != 413 && serverError != "" && clientMessage != ""
    ensures req.GeneratePresentation? ==> MapError(ServerRefusal(req, status, serverError, clientMessage)) == clientMessage
    ensures !req.GeneratePresentation? ==> MapError(ServerRefusal(req, status, serverError, clientMessage)) == serverError
  {
  }

  // ---------------------------------------------------------------------
  // API-key format

  /** ASCII letters and digits (`[a-zA-Z0-9]`). */
  predicate Alnum(c: char) {
    'a' <= c <= 'z' || 'A' <= c <= 'Z' || '0' <= c <= '9'
  }

  datatype CharClass = Alnums | AlnumsDashUnderscore

  predicate InClass(cls: CharClass, c: char) {
    match cls
    case Alnums => Alnum(c)
    case AlnumsDashUnderscore => Alnum(c) || c == '-' || c == '_'
  }

  datatype Repeat = AtLeast(n: nat) | Exactly(n: nat)

  predicate CountFits(k: nat, rep: Repeat) {
    match rep
    case AtLeast(n) => k >= n
    case Exactly(n) => k == n
  }

  /** An anchored pattern `^prefix[class]{count}$`, the shape of all three
      key formats. */
  datatype KeyPattern = KeyPattern(prefix: string, cls: CharClass, count: Repeat)

  /** `pattern.test(key)`. */
  predicate Matches(key: string, p: KeyPattern) {
    StartsWith(key, p.prefix)
    && CountFits(|key| - |p.prefix|, p.count)
    && forall i :: |p.prefix| <= i < |key| ==> InClass(p.cls, key[i])
  }

  const OpenAiPattern := KeyPattern("sk-", Alnums, AtLeast(32))
  const AnthropicPattern := KeyPattern("sk-ant-", AlnumsDashUnderscore, AtLeast(32))
  const GeminiPattern := KeyPattern("AIza", AlnumsDashUnderscore, Exactly(35))

  /** The pattern table of the client utilities, looked up by provider id. */
  function Patterns(provider: string): (r: Option<KeyPattern>)
    ensures r.Some? <==> provider in {"openai", "anthropic", "gemini"}
  {
    if provider == "openai" then Some(OpenAiPattern)
    else if provider == "anthropic" then Some(AnthropicPattern)
    else if provider == "gemini" then Some(GeminiPattern)
    else None
  }

  /** The members every plain object inherits from `Object.prototype`.
      Indexing the pattern table with one of these names finds a function
      or an object, which is truthy and has no `test` method. */
  const InheritedMembers: set<string> := {
    "constructor", "toString", "toLocaleString", "valueOf", "hasOwnProperty",
    "isPrototypeOf", "propertyIsEnumerable", "__proto__", "__defineGetter__",
    "__defineSetter__", "__lookupGetter__", "__lookupSetter__" }

  /** The outcome of a key check: the returned verdict, or the TypeError
      thrown when the table lookup found an inherited member. */
  datatype KeyCheck = KeyCheck(valid: bool, message: string) | Thrown(error: string)

  const KeyRequired := "API key is required"
  const NotAFunction := "pattern.test is not a function"

  /** `utils.validateApiKey`: an empty key is refused; otherwise the key
      is valid exactly when the provider has no pattern or the key matches
      it, and the refusal names the provider id. A provider named like an
      inherited member makes the check throw. */
  function ValidateApiKey(apiKey: string, provider: string): (r: KeyCheck)
    ensures apiKey == [] ==> r == KeyCheck(false, KeyRequired)
    ensures r.Thrown? <==> apiKey != [] && provider in InheritedMembers
    ensures r.Thrown? ==> r.error == NotAFunction
    ensures apiKey != [] && r.KeyCheck? ==> (r.valid <==> (Patterns(provider).None? || Matches(apiKey, Patterns(provider).value)))
    ensures apiKey != [] && r.KeyCheck? && !r.valid ==> r.message == "Invalid " + provider + " API key format"
    ensures r.KeyCheck? && r.valid ==> r.message == []
  {
    if apiKey == [] then KeyCheck(false, KeyRequired)
    else if provider in InheritedMembers then Thrown(NotAFunction)
    else
      var pattern := Patterns(provider);
      if pattern.Some? && !Matches(apiKey, pattern.value) then
        KeyCheck(false, "Invalid " + provider + " API key format")
      else KeyCheck(true, "")
  }

  /** A key of the Anthropic format is never taken for an OpenAI key: its
      seventh character is a dash. */
  lemma AnthropicKeyIsNotOpenAi(key: string)
    requires Matches(key, AnthropicPattern)
    ensures !Matches(key, OpenAiPattern)
  {
    assert key[..7] == "sk-ant-";
    assert key[6] == key[..7][6] == '-';
    assert !Alnum(key[6]);
  }

  /** Any non-empty key passes for a provider that is neither in the
      table nor an inherited member, and makes the check throw for an
      inherited member. */
  lemma UnknownProviderAcceptsAnyKey(apiKey: string, provider: string)
    requires apiKey != [] && provider !in {"openai", "anthropic", "gemini"}
    ensures provider !in InheritedMembers ==> ValidateApiKey(apiKey, provider) == KeyCheck(true, "")
    ensures provider in InheritedMembers ==> ValidateApiKey(apiKey, provider) == Thrown(NotAFunction)
  {
  }

  /** Forty letters and digits. */
  const SampleKeyBody: string := seq(40, i => if i % 2 == 0 then 'a' else '7')

  /** "sk-" followed by forty letters and digits is a valid OpenAI key;
      "not-a-key" is not. */
  lemma OpenAiKeyExamples()
    ensures ValidateApiKey("sk-" + SampleKeyBody, "openai") == KeyCheck(true, "")
    ensures ValidateApiKey("not-a-key", "openai") == KeyCheck(false, "Invalid openai API key format")
  {
    var key := "sk-" + SampleKeyBody;
    assert key[..3] == "sk-";
    forall i | 3 <= i < |key| ensures Alnum(key[i]) {
      assert key[i] == SampleKeyBody[i - 3];
    }
    assert "not-a-key"[2] == 't';
  }

  // ---------------------------------------------------------------------
  // Estimates

  /** `text.trim().split(/\s+/).length`: never below one, since the
      split of the empty string is one empty piece. */
  function SplitWordCount(text: string): (n: nat)
    ensures n >= 1
  {
    |SplitWs(Trim(Js, text))|
  }

  /** Blank text still counts as one word here. */
  lemma BlankTextIsOneWord(text: string)
    requires IsBlank(Js, text)
    ensures SplitWordCount(text) == 1
  {
    assert Trim(Js, text) == [];
  }

  /** `Math.ceil(a / b)` for whole numbers. */
  function CeilDiv(a: nat, b: nat): (r: nat)
    requires b > 0
    ensures r * b >= a
    ensures r > 0 ==> (r - 1) * b < a
  {
    var q := (a + b - 1) / b;
    var rem := (a + b - 1) % b;
    assert a + b - 1 == q * b + rem && 0 <= rem < b;
    assert q * b == a + b - 1 - rem;
    assert (q - 1) * b == q * b - b;
    q
  }

  function Max(a: int, b: int): int { if a < b then b else a }

  /** Minutes to read `text` at 200 words a minute, rounded up. */
  function EstimateReadingTime(text: string): (minutes: nat)
    ensures minutes >= 1
    ensures (minutes - 1) * 200 < SplitWordCount(text) <= minutes * 200
  {
    CeilDiv(SplitWordCount(text), 200)
  }

  /** Slides for `text` at 175 words a slide, rounded up, at least one. */
  function EstimateSlideCount(text: string): (slides: nat)
    ensures slides >= 1
    ensures (slides - 1) * 175 < SplitWordCount(text) <= slides * 175
  {
    Max(1, CeilDiv(SplitWordCount(text), 175))
  }
}
