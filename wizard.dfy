/** The four-step wizard that drives the application: one state record,
    changed only by merging partial updates into it, and the handlers of
    its buttons. A remote call is represented by its outcome, given to the
    handler as a parameter; the requests it sends are logged. */
module Wizard {
  import opened Common
  import opened Text
  import opened JsonValue
  import opened GenerationControls
  import Api
  import TemplateUpload
  import LlmService

  /** The wizard's state record. */
  datatype State = State(
    inputText: string,
    guidance: string,
    apiKey: string,
    provider: string,
    templateFile: Option<TemplateUpload.File>,
    sessionId: Option<string>,
    slides: seq<LlmService.Slide>,
    templateAnalyzed: bool,
    currentStep: int,
    isLoading: bool,
    loadingMessage: string,
    error: Option<string>,
    success: Option<string>,
    options: Options)

  const DefaultOptions: Options :=
    map["includeImages" := JBool(true), "generateNotes" := JBool(false), "presentationTone" := JStr("professional")]

  /** The state the wizard starts in, and the one `Reset` returns to. */
  const Initial: State :=
    State("", "", "", "openai", None, None, [], false, 1, false, "", None, None, DefaultOptions)

  // ---------------------------------------------------------------------
  // updateState

  /** The fields an update names; an absent field is left as it is. */
  datatype Patch = Patch(
    inputText: Option<string>,
    guidance: Option<string>,
    apiKey: Option<string>,
    provider: Option<string>,
    templateFile: Option<Option<TemplateUpload.File>>,
    sessionId: Option<Option<string>>,
    slides: Option<seq<LlmService.Slide>>,
    templateAnalyzed: Option<bool>,
    currentStep: Option<int>,
    isLoading: Option<bool>,
    loadingMessage: Option<string>,
    error: Option<Option<string>>,
    success: Option<Option<string>>,
    options: Option<Options>)

  const NoChange: Patch :=
    Patch(None, None, None, None, None, None, None, None, None, None, None, None, None, None)

  /** A field after a merge: the update's value when it names the field,
      the previous value otherwise. */
  predicate Merged<T(==)>(after: T, update: Option<T>, before: T) {
    match update
    case Some(v) => after == v
    case None => after == before
  }

  /** `updateState(p)`: `{ ...prev, ...p }`. */
  function Apply(s: State, p: Patch): (r: State)
    ensures p == NoChange ==> r == s
    ensures p.currentStep.None? ==> r.currentStep == s.currentStep
    ensures p.sessionId.None? ==> r.sessionId == s.sessionId
    ensures p.slides.None? ==> r.slides == s.slides
    ensures p.templateAnalyzed.None? ==> r.templateAnalyzed == s.templateAnalyzed
  {
    State(
      p.inputText.GetOr(s.inputText),
      p.guidance.GetOr(s.guidance),
      p.apiKey.GetOr(s.apiKey),
      p.provider.GetOr(s.provider),
      p.templateFile.GetOr(s.templateFile),
      p.sessionId.GetOr(s.sessionId),
      p.slides.GetOr(s.slides),
      p.templateAnalyzed.GetOr(s.templateAnalyzed),
      p.currentStep.GetOr(s.currentStep),
      p.isLoading.GetOr(s.isLoading),
      p.loadingMessage.GetOr(s.loadingMessage),
      p.error.GetOr(s.error),
      p.success.GetOr(s.success),
      p.options.GetOr(s.options))
  }

  /** Every field the update names takes the update's value and every
      other field keeps its own. */
  lemma ApplyMerges(s: State, p: Patch)
    ensures var r := Apply(s, p);
      Merged(r.inputText, p.inputText, s.inputText) && Merged(r.guidance, p.guidance, s.guidance)
      && Merged(r.apiKey, p.apiKey, s.apiKey) && Merged(r.provider, p.provider, s.provider)
      && Merged(r.templateFile, p.templateFile, s.templateFile) && Merged(r.sessionId, p.sessionId, s.sessionId)
      && Merged(r.slides, p.slides, s.slides) && Merged(r.templateAnalyzed, p.templateAnalyzed, s.templateAnalyzed)
      && Merged(r.currentStep, p.currentStep, s.currentStep) && Merged(r.isLoading, p.isLoading, s.isLoading)
      && Merged(r.loadingMessage, p.loadingMessage, s.loadingMessage) && Merged(r.error, p.error, s.error)
      && Merged(r.success, p.success, s.success) && Merged(r.options, p.options, s.options)
  {
  }

  function Later<T>(first: Option<T>, second: Option<T>): Option<T> {
    if second.Some? then second else first
  }

  /** One update after another: the later one wins field by field. */
  function Then(p: Patch, q: Patch): Patch {
    Patch(
      Later(p.inputText, q.inputText), Later(p.guidance, q.guidance),
      Later(p.apiKey, q.apiKey), Later(p.provider, q.provider),
      Later(p.templateFile, q.templateFile), Later(p.sessionId, q.sessionId),
      Later(p.slides, q.slides), Later(p.templateAnalyzed, q.templateAnalyzed),
      Later(p.currentStep, q.currentStep), Later(p.isLoading, q.isLoading),
      Later(p.loadingMessage, q.loadingMessage), Later(p.error, q.error),
      Later(p.success, q.success), Later(p.options, q.options))
  }

  /** Two successive updates are one merged update, and repeating an
      update changes nothing more. */
  lemma ApplyThen(s: State, p: Patch, q: Patch)
    ensures Apply(Apply(s, p), q) == Apply(s, Then(p, q))
    ensures Apply(Apply(s, p), p) == Apply(s, p)
  {
  }

  /** `{ ...state.options, ...patch }`: the patch's keys take the patch's
      values, every other key keeps its value. */
  function MergeOptions(current: Options, patch: Options): (r: Options)
    ensures r.Keys == current.Keys + patch.Keys
    ensures forall k :: k in patch ==> r[k] == patch[k]
    ensures forall k :: k in current && k !in patch ==> r[k] == current[k]
  {
    current + patch
  }

  /** Toggling a switch twice restores it when it held a boolean. */
  lemma ToggleTwice(o: Options, key: string)
    requires key in o && o[key].JBool?
    ensures var once := MergeOptions(o, HandleToggle(o, key));
            MergeOptions(once, HandleToggle(once, key)) == o
  {
    var once := MergeOptions(o, HandleToggle(o, key));
    var twice := MergeOptions(once, HandleToggle(once, key));
    assert twice.Keys == o.Keys;
  }

  /** A select change sets its key and nothing else. */
  lemma SelectChangesOneKey(o: Options, key: string, v: Json)
    ensures var r := MergeOptions(o, HandleSelectChange(key, v));
            r[key] == v && forall k :: k in o && k != key ==> r[k] == o[k]
  {
  }

  // ---------------------------------------------------------------------
  // Step navigation

  /** `canProceedToStep`. */
  predicate CanProceedToStep(s: State, step: int) {
    match step
    case 1 => true
    case 2 => |s.slides| > 0
    case 3 => s.templateAnalyzed
    case 4 => s.templateAnalyzed
    case _ => false
  }

  /** `isStepCompleted`. */
  predicate IsStepCompleted(s: State, step: int) {
    match step
    case 1 => |s.slides| > 0
    case 2 => s.templateAnalyzed
    case 3 => s.currentStep > 3
    case _ => false
  }

  /** A fresh wizard can only go to the first step, and has completed none. */
  lemma InitialReachesOnlyStepOne(step: int)
    ensures CanProceedToStep(Initial, step) <==> step == 1
    ensures !IsStepCompleted(Initial, step)
  {
  }

  /** The facts every handler keeps: the step is one of the four, the last
      two are only reached with an analysed template, and a template is
      only analysed within a session. */
  predicate Consistent(s: State) {
    1 <= s.currentStep <= 4
    && (s.currentStep >= 3 ==> s.templateAnalyzed)
    && (s.templateAnalyzed ==> s.sessionId.Some?)
  }

  /** In a consistent state, a step the buttons may go to is never ahead of
      what has been done. */
  lemma ProceedableStepsAreEarned(s: State, step: int)
    requires Consistent(s) && CanProceedToStep(s, step)
    ensures step >= 2 ==> |s.slides| > 0 || s.templateAnalyzed
    ensures step >= 3 ==> s.templateAnalyzed && s.sessionId.Some?
  {
  }

  function StepPatch(step: int): Patch {
    NoChange.(currentStep := Some(step), error := Some(None))
  }

  // ---------------------------------------------------------------------
  // Remote calls

  /** The outcome of a remote call: the decoded reply, or the failure the
      client reported. */
  datatype Outcome<T> = Done(value: T) | Failed(failure: Api.Failure)

  datatype TextReply = TextReply(sessionId: string, slides: seq<LlmService.Slide>, slideCount: int)

  datatype TemplateReply = TemplateReply(layoutsFound: int, imagesFound: int)

  /** `error.message || fallback` for the error the interceptor threw. */
  function ShownError(f: Api.Failure, fallback: string): (r: string)
    ensures r == Api.MapError(f)
  {
    var m := Api.MapError(f);
    if m != "" then m else fallback
  }

  function Loading(message: string): Patch {
    NoChange.(isLoading := Some(true), loadingMessage := Some(message), error := Some(None))
  }

  function FailurePatch(f: Api.Failure, fallback: string): Patch {
    NoChange.(isLoading := Some(false), loadingMessage := Some(""), error := Some(Some(ShownError(f, fallback))))
  }

  function ErrorPatch(message: string): Patch {
    NoChange.(error := Some(Some(message)))
  }

  /** A failed call ends the loading and shows its error, and keeps the
      step, the session, the slides and the template flag. */
  predicate RolledForward(s: State, t: State, f: Api.Failure) {
    t.currentStep == s.currentStep && t.sessionId == s.sessionId
    && t.slides == s.slides && t.templateAnalyzed == s.templateAnalyzed
    && !t.isLoading && t.loadingMessage == "" && t.error == Some(Api.MapError(f))
  }

  // ---------------------------------------------------------------------
  // Text analysis

  const BothNeeded := "Please provide both text content and API key."
  const AnalysisFallback := "Failed to analyze text. Please check your API key and try again."

  predicate TextMissing(s: State) {
    Trim(Js, s.inputText) == [] || Trim(Js, s.apiKey) == []
  }

  function AnalyzedPatch(r: TextReply): Patch {
    NoChange.(sessionId := Some(Some(r.sessionId)), slides := Some(r.slides), isLoading := Some(false),
              loadingMessage := Some(""),
              success := Some(Some("Successfully analyzed text into " + IntToString(r.slideCount) + " slides!")),
              currentStep := Some(2))
  }

  /** The state after `handleTextAnalysis` with the given outcome. */
  function AfterTextAnalysis(s: State, outcome: Outcome<TextReply>): State {
    if TextMissing(s) then Apply(s, ErrorPatch(BothNeeded))
    else
      var loading := Apply(s, Loading("Analyzing your text..."));
      match outcome
      case Done(r) => Apply(loading, AnalyzedPatch(r))
      case Failed(f) => Apply(loading, FailurePatch(f, AnalysisFallback))
  }

  /** Blank text or a blank key only sets the error. */
  lemma TextMissingOnlySetsError(s: State, outcome: Outcome<TextReply>)
    requires TextMissing(s)
    ensures AfterTextAnalysis(s, outcome) == s.(error := Some(BothNeeded))
  {
  }

  /** A successful analysis opens the second step with the new session and
      slides, reports the slide count, and leaves the template flag. */
  lemma TextAnalysisSucceeds(s: State, r: TextReply)
    requires !TextMissing(s)
    ensures var t := AfterTextAnalysis(s, Done(r));
            t.sessionId == Some(r.sessionId) && t.slides == r.slides && t.currentStep == 2
            && !t.isLoading && t.error.None? && t.templateAnalyzed == s.templateAnalyzed
            && t.success.Some? && Contains(t.success.value, IntToString(r.slideCount))
  {
    ContainsInfix("Successfully analyzed text into ", IntToString(r.slideCount), " slides!");
  }

  lemma TextAnalysisFails(s: State, f: Api.Failure)
    requires !TextMissing(s)
    ensures RolledForward(s, AfterTextAnalysis(s, Failed(f)), f)
  {
  }

  function TextCalls(s: State): seq<Api.Request> {
    if TextMissing(s) then [] else [Api.AnalyzeText(s.inputText, s.guidance, s.provider, s.apiKey)]
  }

  // ---------------------------------------------------------------------
  // Template upload

  const AnalyzeFirst := "Please analyze your text first."
  const TemplateFallback := "Failed to analyze template. Please check the file format."

  /** `!state.sessionId` is false: a session id that is not empty. */
  predicate HasSession(s: State) {
    s.sessionId.Some? && s.sessionId.value != ""
  }

  function TemplatePatch(r: TemplateReply): Patch {
    NoChange.(templateAnalyzed := Some(true), isLoading := Some(false), loadingMessage := Some(""),
              success := Some(Some("Template analyzed! Found " + IntToString(r.layoutsFound) + " layouts and "
                                   + IntToString(r.imagesFound) + " images.")),
              currentStep := Some(3))
  }

  /** The state after `handleTemplateUpload(file)`; the file is recorded
      before the call is made. */
  function AfterTemplateUpload(s: State, file: TemplateUpload.File, outcome: Outcome<TemplateReply>): State {
    if !HasSession(s) then Apply(s, ErrorPatch(AnalyzeFirst))
    else
      var loading := Apply(s, Loading("Analyzing template...").(templateFile := Some(Some(file))));
      match outcome
      case Done(r) => Apply(loading, TemplatePatch(r))
      case Failed(f) => Apply(loading, FailurePatch(f, TemplateFallback))
  }

  lemma UploadNeedsSession(s: State, file: TemplateUpload.File, outcome: Outcome<TemplateReply>)
    requires !HasSession(s)
    ensures AfterTemplateUpload(s, file, outcome) == s.(error := Some(AnalyzeFirst))
  {
  }

  /** With a session the file is recorded whatever the outcome; success
      marks the template analysed and opens the third step. */
  lemma UploadOutcomes(s: State, file: TemplateUpload.File, outcome: Outcome<TemplateReply>)
    requires HasSession(s)
    ensures AfterTemplateUpload(s, file, outcome).templateFile == Some(file)
    ensures outcome.Done? ==> (AfterTemplateUpload(s, file, outcome).templateAnalyzed
                               && AfterTemplateUpload(s, file, outcome).currentStep == 3)
    ensures outcome.Failed? ==> RolledForward(s, AfterTemplateUpload(s, file, outcome), outcome.failure)
  {
  }

  function TemplateCalls(s: State, file: TemplateUpload.File): seq<Api.Request> {
    if !HasSession(s) then [] else [Api.AnalyzeTemplate(file.handle, JStr(s.sessionId.value))]
  }

  // ---------------------------------------------------------------------
  // Generation

  const StepsMissing := "Please complete all previous steps first."
  const GenerationFallback := "Failed to generate presentation. Please try again."
  const Generated := "Presentation generated successfully! Download should start automatically."

  predicate ReadyToGenerate(s: State) { HasSession(s) && s.templateAnalyzed }

  predicate NotesWanted(s: State) { IsSet(s.options, "generateNotes") }

  function GeneratedPatch(): Patch {
    NoChange.(isLoading := Some(false), loadingMessage := Some(""), success := Some(Some(Generated)),
              currentStep := Some(4))
  }

  /** The loading messages set before the deck is asked for. */
  function GenerationStart(s: State): State {
    var s1 := Apply(s, Loading("Generating your presentation..."));
    if NotesWanted(s) then Apply(s1, NoChange.(loadingMessage := Some("Adding speaker notes..."))) else s1
  }

  /** The deck call and what its outcome does to the state. */
  function DeckStep(s: State, deck: Outcome<()>): State {
    var s3 := Apply(s, NoChange.(loadingMessage := Some("Creating presentation file...")));
    match deck
    case Done(_) => Apply(s3, GeneratedPatch())
    case Failed(f) => Apply(s3, FailurePatch(f, GenerationFallback))
  }

  /** The state after `handleGeneration`: the notes call, when wanted, is
      made first, and its failure ends the handler. */
  function AfterGeneration(s: State, notes: Outcome<()>, deck: Outcome<()>): State {
    if !ReadyToGenerate(s) then Apply(s, ErrorPatch(StepsMissing))
    else if NotesWanted(s) && notes.Failed? then Apply(GenerationStart(s), FailurePatch(notes.failure, GenerationFallback))
    else DeckStep(GenerationStart(s), deck)
  }

  /** The deck is offered for download only when every call succeeded. */
  function GenerationDownloads(s: State, notes: Outcome<()>, deck: Outcome<()>, now: int): (r: seq<string>)
    ensures r != [] <==> ReadyToGenerate(s) && (!NotesWanted(s) || notes.Done?) && deck.Done?
  {
    if ReadyToGenerate(s) && (!NotesWanted(s) || notes.Done?) && deck.Done? then [DownloadName(now)] else []
  }

  /** The requests `handleGeneration` sends, in order. */
  function GenerationCalls(s: State, notes: Outcome<()>): (r: seq<Api.Request>)
    ensures !ReadyToGenerate(s) ==> r == []
    ensures ReadyToGenerate(s) ==> (NotesWanted(s) <==> r != [] && r[0].SpeakerNotes?)
    ensures ReadyToGenerate(s) ==> (r != [] && r[|r| - 1].GeneratePresentation? <==> !NotesWanted(s) || notes.Done?)
    ensures forall k :: 0 <= k < |r| ==> "slides" !in Api.BodyKeys(r[k])
  {
    if !ReadyToGenerate(s) then []
    else
      var sid := JStr(s.sessionId.value);
      var notesCall := if NotesWanted(s) then [Api.SpeakerNotes(sid, s.provider, s.apiKey)] else [];
      var deckCall := [Api.GenerateRequest(Api.GenerateArgs(sid, s.options, s.slides))];
      if NotesWanted(s) && notes.Failed? then notesCall else notesCall + deckCall
  }

  /** Generation reaches the last step only when every call succeeded. */
  lemma GenerationOutcomes(s: State, notes: Outcome<()>, deck: Outcome<()>)
    requires ReadyToGenerate(s)
    ensures var t := AfterGeneration(s, notes, deck);
            t.currentStep == 4 <==> s.currentStep == 4 || (deck.Done? && (!NotesWanted(s) || notes.Done?))
    ensures NotesWanted(s) && notes.Failed? ==> RolledForward(s, AfterGeneration(s, notes, deck), notes.failure)
    ensures (!NotesWanted(s) || notes.Done?) && deck.Failed? ==> RolledForward(s, AfterGeneration(s, notes, deck), deck.failure)
  {
  }

  lemma GenerationNeedsAllSteps(s: State, notes: Outcome<()>, deck: Outcome<()>)
    requires !ReadyToGenerate(s)
    ensures AfterGeneration(s, notes, deck) == s.(error := Some(StepsMissing))
  {
  }

  /** The name the downloaded deck gets. */
  function DownloadName(now: int): string {
    "generated-presentation-" + IntToString(now) + ".pptx"
  }

  // ---------------------------------------------------------------------
  // Invariant

  /** Each handler keeps the wizard consistent. */
  lemma TextAnalysisKeepsConsistent(s: State, outcome: Outcome<TextReply>)
    requires Consistent(s)
    ensures Consistent(AfterTextAnalysis(s, outcome))
  {
    if !TextMissing(s) {
      var loading := Apply(s, Loading("Analyzing your text..."));
      assert Consistent(loading);
    }
  }

  lemma TemplateUploadKeepsConsistent(s: State, file: TemplateUpload.File, outcome: Outcome<TemplateReply>)
    requires Consistent(s)
    ensures Consistent(AfterTemplateUpload(s, file, outcome))
  {
    if HasSession(s) {
      var loading := Apply(s, Loading("Analyzing template...").(templateFile := Some(Some(file))));
      assert Consistent(loading) && loading.sessionId == s.sessionId;
    }
  }

  lemma GenerationKeepsConsistent(s: State, notes: Outcome<()>, deck: Outcome<()>)
    requires Consistent(s)
    ensures Consistent(AfterGeneration(s, notes, deck))
  {
    if ReadyToGenerate(s) {
      var start := GenerationStart(s);
      assert Consistent(start) && start.templateAnalyzed;
      var s3 := Apply(start, NoChange.(loadingMessage := Some("Creating presentation file...")));
      assert Consistent(s3) && s3.templateAnalyzed;
    }
  }

  // ---------------------------------------------------------------------
  // The component

  /** The mounted wizard: its state, the requests it has sent and the
      file names it has offered for download. */
  class App {
    var state: State
    var calls: seq<Api.Request>
    var downloads: seq<string>

    predicate Valid()
      reads this
    {
      Consistent(state)
    }

    constructor()
      ensures state == Initial && calls == [] && downloads == [] && Valid()
    {
      state := Initial;
      calls := [];
      downloads := [];
    }

    method UpdateState(p: Patch)
      modifies this
      ensures state == Apply(old(state), p) && calls == old(calls) && downloads == old(downloads)
    {
      state := Apply(state, p);
    }

    /** A step button: it changes the step only when the step may be
        entered. */
    method ClickStep(step: int)
      requires Valid()
      modifies this
      ensures Valid() && calls == old(calls) && downloads == old(downloads)
      ensures CanProceedToStep(old(state), step) ==> state == Apply(old(state), StepPatch(step))
      ensures !CanProceedToStep(old(state), step) ==> state == old(state)
    {
      if CanProceedToStep(state, step) {
        UpdateState(StepPatch(step));
      }
    }

    /** The "Back" button, shown on the second and third steps. */
    method Back()
      requires Valid() && 2 <= state.currentStep <= 3
      modifies this
      ensures Valid() && calls == old(calls) && downloads == old(downloads)
      ensures state == Apply(old(state), StepPatch(old(state).currentStep - 1))
    {
      UpdateState(StepPatch(state.currentStep - 1));
    }

    /** The "Continue" button, shown on the second step once the template
        is analysed. */
    method Continue()
      requires Valid() && state.currentStep == 2 && state.templateAnalyzed
      modifies this
      ensures Valid() && calls == old(calls) && downloads == old(downloads)
      ensures state == Apply(old(state), StepPatch(3))
    {
      UpdateState(StepPatch(3));
    }

    /** The text, guidance, key and provider fields. */
    method Edit(inputText: Option<string>, guidance: Option<string>, apiKey: Option<string>, provider: Option<string>)
      requires Valid()
      modifies this
      ensures Valid() && calls == old(calls) && downloads == old(downloads)
      ensures state == Apply(old(state), NoChange.(inputText := inputText, guidance := guidance, apiKey := apiKey, provider := provider))
    {
      UpdateState(NoChange.(inputText := inputText, guidance := guidance, apiKey := apiKey, provider := provider));
    }

    /** The options panel's patch, merged into the current options. */
    method ChangeOptions(patch: Options)
      requires Valid()
      modifies this
      ensures Valid() && calls == old(calls) && downloads == old(downloads)
      ensures state == old(state).(options := MergeOptions(old(state).options, patch))
    {
      UpdateState(NoChange.(options := Some(MergeOptions(state.options, patch))));
    }

    /** Closing the error or success banner (the success banner also
        closes itself after a delay). */
    method Dismiss(error: bool, success: bool)
      requires Valid()
      modifies this
      ensures Valid() && calls == old(calls) && downloads == old(downloads)
      ensures state == old(state).(error := if error then None else old(state).error,
                                   success := if success then None else old(state).success)
    {
      if error {
        UpdateState(NoChange.(error := Some(None)));
      }
      if success {
        UpdateState(NoChange.(success := Some(None)));
      }
    }

    method AnalyzeText(outcome: Outcome<TextReply>)
      requires Valid()
      modifies this
      ensures Valid()
      ensures state == AfterTextAnalysis(old(state), outcome)
      ensures calls == old(calls) + TextCalls(old(state)) && downloads == old(downloads)
    {
      if Trim(Js, state.inputText) == [] || Trim(Js, state.apiKey) == [] {
        UpdateState(ErrorPatch(BothNeeded));
        return;
      }
      var request := Api.AnalyzeText(state.inputText, state.guidance, state.provider, state.apiKey);
      UpdateState(Loading("Analyzing your text..."));
      calls := calls + [request];
      match outcome {
        case Done(r) =>
          UpdateState(AnalyzedPatch(r));
        case Failed(f) =>
          UpdateState(FailurePatch(f, AnalysisFallback));
      }
      TextAnalysisKeepsConsistent(old(state), outcome);
    }

    method UploadTemplate(file: TemplateUpload.File, outcome: Outcome<TemplateReply>)
      requires Valid()
      modifies this
      ensures Valid()
      ensures state == AfterTemplateUpload(old(state), file, outcome)
      ensures calls == old(calls) + TemplateCalls(old(state), file) && downloads == old(downloads)
    {
      if !(state.sessionId.Some? && state.sessionId.value != "") {
        UpdateState(ErrorPatch(AnalyzeFirst));
        return;
      }
      var sessionId := state.sessionId.value;
      UpdateState(Loading("Analyzing template...").(templateFile := Some(Some(file))));
      calls := calls + [Api.AnalyzeTemplate(file.handle, JStr(sessionId))];
      match outcome {
        case Done(r) =>
          UpdateState(TemplatePatch(r));
        case Failed(f) =>
          UpdateState(FailurePatch(f, TemplateFallback));
      }
      TemplateUploadKeepsConsistent(old(state), file, outcome);
    }

    /** `handleGeneration`, with the outcomes of the notes call and of the
        deck call, and the clock reading that names the download. */
    method Generate(notes: Outcome<()>, deck: Outcome<()>, now: int)
      requires Valid()
      modifies this
      ensures Valid()
      ensures state == AfterGeneration(old(state), notes, deck)
      ensures calls == old(calls) + GenerationCalls(old(state), notes)
      ensures downloads == old(downloads) + GenerationDownloads(old(state), notes, deck, now)
    {
      GenerationKeepsConsistent(state, notes, deck);
      if !(state.sessionId.Some? && state.sessionId.value != "") || !state.templateAnalyzed {
        UpdateState(ErrorPatch(StepsMissing));
        return;
      }
      var sessionId := JStr(state.sessionId.value);
      var options := state.options;
      var slides := state.slides;
      var wanted := IsSet(state.options, "generateNotes");
      StartGeneration(wanted);
      if wanted {
        calls := calls + [Api.SpeakerNotes(sessionId, state.provider, state.apiKey)];
        if notes.Failed? {
          UpdateState(FailurePatch(notes.failure, GenerationFallback));
          return;
        }
      }
      RequestDeck(Api.GenerateArgs(sessionId, options, slides), deck, now);
    }

    /** The loading messages of `handleGeneration` before the deck call. */
    method StartGeneration(wanted: bool)
      requires wanted == NotesWanted(state)
      modifies this
      ensures state == GenerationStart(old(state)) && calls == old(calls) && downloads == old(downloads)
    {
      UpdateState(Loading("Generating your presentation..."));
      if wanted {
        UpdateState(NoChange.(loadingMessage := Some("Adding speaker notes...")));
      }
    }

    /** The deck call of `handleGeneration` and the download on success. */
    method RequestDeck(args: Api.GenerateArgs<LlmService.Slide>, deck: Outcome<()>, now: int)
      modifies this
      ensures state == DeckStep(old(state), deck)
      ensures calls == old(calls) + [Api.GenerateRequest(args)]
      ensures downloads == old(downloads) + (if deck.Done? then [DownloadName(now)] else [])
    {
      UpdateState(NoChange.(loadingMessage := Some("Creating presentation file...")));
      calls := calls + [Api.GenerateRequest(args)];
      match deck {
        case Done(_) =>
          downloads := downloads + [DownloadName(now)];
          UpdateState(GeneratedPatch());
        case Failed(f) =>
          UpdateState(FailurePatch(f, GenerationFallback));
      }
    }

    /** `handleReset`: back to the initial state, whatever came before. */
    method Reset()
      modifies this
      ensures state == Initial && Valid()
      ensures calls == old(calls) && downloads == old(downloads)
    {
      state := Initial;
    }
  }
}
