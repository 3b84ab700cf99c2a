# Text-to-PowerPoint wizard, modelled in Dafny

The system turns pasted text into a PowerPoint deck in four steps. In step 1
the user enters text, optional guidance, an LLM provider and an API key. In
step 2 they upload a `.pptx`/`.potx` template. In step 3 they choose the
generation options and preview the slides. In step 4 they download the deck.

A React front end drives the wizard. A Flask back end keeps one in-memory
session per analysed text. It asks an LLM for a slide outline, and falls back
to a paragraph-based outline when the LLM gives no usable answer. It reads the
layouts, colours and fonts of the template and writes the deck with python-pptx.

The model follows the program file by file. Each module below corresponds to
one source file.

- `Wizard` (App.js): the wizard state record and its handlers.
  - Class `Wizard.App` holds the record, the log of requests sent, and the
    downloads started.
  - Each handler is a method whose `ensures` ties the new state to a pure
    function of the old state and the remote outcomes.
  - The invariant `Consistent` is kept by every handler:
    - the step is always 1..4;
    - steps 3 and 4 need an analysed template;
    - an analysed template needs a session.
- `Api` (utils/api.js):
  - the response interceptor's error mapping;
  - the shape and timeout of each request;
  - the API-key patterns;
  - the two estimators.
- `ApiKeyInput`, `TextInput`, `GenerationControls`: the pure parts of those
  three components.
- `SlidePreview`, `TemplateUpload`: the state of those two components.
  - Class `SlidePreview.Cursor` is the selected slide.
  - Class `TemplateUpload.Dropzone` is the upload status and the callbacks
    fired.
  - The pure selectors are modelled as functions.
- `Server` (app.py):
  - Class `Server.SessionStore` is the session map.
  - It has one method per route, plus the cleanup filter.
  - The order of each route's request checks is a pure `Check…` function.
- `LlmService`:
  - the retry loop;
  - the JSON-candidate extraction;
  - slide validation;
  - the fallback outline;
  - speaker-notes filling, done in place on an array.
- `PptxAnalyzer`:
  - layout classification and layout choice;
  - image signatures;
  - colour and font extraction;
  - template scoring.
- `PptxGenerator`:
  - layout choice;
  - preview records;
  - the output path;
  - filling a text frame;
  - the typography and layout passes, done in place on arrays.
- `Common`, `Text`, `JsonValue`: shared support; `WordSplit`: what JavaScript's `split(/\s+/)` means, as a lemma about `Text.SplitWs`.
  - An `Option`/`Result` pair.
  - String helpers with the two languages' white-space sets and `trim`/`strip`.
  - A JSON value with both JavaScript and Python truthiness.

Remote calls, the LLM, python-pptx and the clock are parameters. A method
receives the outcome of each call it makes, and the current time where the
source reads the clock.

## Model

| member | source | states |
|---|---|---|
| Wizard.Apply | frontend/src/App.js:44-46 | `updateState` with an empty patch is the identity, and the step, session, slides and template flag change only when the patch names them |
| Wizard.ApplyMerges | frontend/src/App.js:44-46 | `updateState` merges field by field: each of the fourteen fields takes the patch's value when the patch names it and keeps its own otherwise |
| Wizard.ApplyThen | frontend/src/App.js:44-46 | two successive merges equal one merge of the combined patch, and re-applying the same patch changes nothing |
| Wizard.MergeOptions | frontend/src/App.js:421 | the options change keeps every existing key, adds the patch's keys, and takes the patch's value wherever both have one |
| Wizard.ToggleTwice | frontend/src/App.js:421 | toggling a boolean option twice restores the original options |
| Wizard.SelectChangesOneKey | frontend/src/App.js:421 | a select change alters exactly one option key and leaves all others |
| Wizard.InitialReachesOnlyStepOne | frontend/src/App.js:16-42 | from the initial state only step 1 can be proceeded to, and no step counts as completed |
| Wizard.ProceedableStepsAreEarned | frontend/src/App.js:271-288 | in a consistent state, step 2 is reachable only with slides or an analysed template, and steps 3 and 4 only with an analysed template and a session |
| Wizard.ShownError | frontend/src/App.js:80-86 | the message shown on a failed call is the interceptor's message, which is never empty, so the handler's fallback text is never used |
| Wizard.TextMissingOnlySetsError | frontend/src/App.js:53-56 | blank text or a blank key only sets the error; step, session, slides and every other field stay as they were |
| Wizard.TextAnalysisSucceeds | frontend/src/App.js:58-79 | a successful analysis stores the session id and slides, moves to step 2, clears loading, and reports the slide count in the success text |
| Wizard.TextAnalysisFails | frontend/src/App.js:80-86 | a failed analysis only clears loading and sets the mapped error; nothing else changes |
| Wizard.UploadNeedsSession | frontend/src/App.js:90-93 | without a session an upload only sets the "analyze first" error |
| Wizard.UploadOutcomes | frontend/src/App.js:95-122 | with a session the template file is recorded before the call; success marks the template analysed and moves to step 3; failure only clears loading and sets the error |
| Wizard.GenerationDownloads | frontend/src/App.js:186-236 | a download starts iff session and template are ready, the notes call succeeded or was not wanted, and the deck call succeeded |
| Wizard.GenerationCalls | frontend/src/App.js:186-234 | nothing is requested before both steps are done; the notes request is made iff notes are wanted, and before the deck request; the deck request is made iff notes were not wanted or they succeeded; no request carries slides |
| Wizard.GenerationOutcomes | frontend/src/App.js:186-245 | the wizard reaches step 4 iff the deck call succeeded and the notes call succeeded or was not wanted (or it was already there); a failed notes call or deck call only clears loading and sets that call's error |
| Wizard.GenerationNeedsAllSteps | frontend/src/App.js:187-190 | without a session or an analysed template, generation only sets the "complete all previous steps" error |
| Wizard.TextAnalysisKeepsConsistent | frontend/src/App.js:52-87 | text analysis keeps the step/template/session invariant, whatever the outcome |
| Wizard.TemplateUploadKeepsConsistent | frontend/src/App.js:89-123 | template upload keeps the invariant |
| Wizard.GenerationKeepsConsistent | frontend/src/App.js:186-245 | generation keeps the invariant |
| Wizard.App.constructor | frontend/src/App.js:16-42 | the wizard starts in the initial state with nothing sent and nothing downloaded |
| Wizard.App.UpdateState | frontend/src/App.js:44-46 | the state becomes the merge of the patch into the old state |
| Wizard.App.ClickStep | frontend/src/App.js:48-50 | a step button changes the step and clears the error exactly when `canProceedToStep` holds, and otherwise changes nothing |
| Wizard.App.Back | frontend/src/App.js:399 | the Back buttons of steps 2 and 3 go one step back and clear the error |
| Wizard.App.Continue | frontend/src/App.js:407 | Continue on step 2, shown once the template is analysed, moves to step 3 |
| Wizard.App.Edit | frontend/src/App.js:356-365 | text, guidance, key and provider edits replace only those fields |
| Wizard.App.ChangeOptions | frontend/src/App.js:421 | an options patch replaces the options by their merge with the patch and changes nothing else |
| Wizard.App.Dismiss | frontend/src/App.js:341-342 | closing the error or success banner, or the success timeout, clears only that field |
| Wizard.App.AnalyzeText | frontend/src/App.js:52-87 | the new state is the text-analysis outcome and the analyze request is logged exactly when text and key are present; the invariant is kept |
| Wizard.App.UploadTemplate | frontend/src/App.js:89-123 | the new state is the upload outcome and the template request is logged exactly when there is a session; the invariant is kept |
| Wizard.App.Generate | frontend/src/App.js:186-245 | the new state, the requests sent and the downloads started are those of the generation sequence; the invariant is kept |
| Wizard.App.StartGeneration | frontend/src/App.js:192-201 | generation starts loading with its message, replaced by the speaker-notes message when notes are wanted; nothing is sent yet |
| Wizard.App.RequestDeck | frontend/src/App.js:211-234 | the deck request is logged, and a download is started exactly when it succeeded |
| Wizard.App.Reset | frontend/src/App.js:248-269 | reset restores exactly the initial state, so a second reset changes nothing |
| Api.MapError | frontend/src/utils/api.js:15-38 | the interceptor tests timeout, then 413, then a 5xx status, then the body's error, then the client's message, then the fixed fallback; the result is never empty |
| Api.ServerFaultHidesBody | frontend/src/utils/api.js:28-30 | on a 5xx reply the body's error text is never shown |
| Api.BodyErrorShown | frontend/src/utils/api.js:32-34 | on any other reply with an error text in the body, that text is shown |
| Api.Timeout | frontend/src/utils/api.js:92-100 | the deck request waits 120000 ms and every other request 60000 ms |
| Api.BodyKeys | frontend/src/utils/api.js:42-118 | only the health check sends no body keys |
| Api.GenerateRequest | frontend/src/utils/api.js:92-107 | the deck request carries the session id and options and never the slides |
| Api.SlidesNeverSent | frontend/src/utils/api.js:92-97 | whatever slides the caller passes, the request is the same |
| Api.ServerRefusal | frontend/src/utils/api.js:92-100 | the deck reply is read as a blob, so its error body has no readable error field; every other request's error body does |
| Api.DeckRefusalHidesReason | frontend/src/utils/api.js:15-38 | a 4xx refusal of the deck request shows the client's generic message, while the same refusal of another request shows the server's reason |
| Api.Patterns | frontend/src/utils/api.js:127-131 | exactly the three providers openai, anthropic and gemini have a key pattern |
| Api.ValidateApiKey | frontend/src/utils/api.js:124-142 | an empty key is refused with "API key is required"; a provider named like an inherited object member ("constructor", "__proto__", …) makes the check throw "pattern.test is not a function"; otherwise a non-empty key is valid iff the provider has no pattern or the key matches it, and the refusal names the provider |
| Api.AnthropicKeyIsNotOpenAi | frontend/src/utils/api.js:128-129 | no key that fits the anthropic pattern fits the openai one |
| Api.UnknownProviderAcceptsAnyKey | frontend/src/utils/api.js:133-141 | a provider outside the table accepts every non-empty key, except an inherited member name, for which the check throws |
| Api.OpenAiKeyExamples | frontend/src/utils/api.js:124-142 | "sk-" followed by 40 alphanumerics is a valid openai key, and "not-a-key" is refused with "Invalid openai API key format" |
| Api.SplitWordCount | frontend/src/utils/api.js:155-162 | the estimators' word count is at least 1 |
| WordSplit.SplitWsShape | frontend/src/utils/api.js:156 | `split(/\s+/)` cuts the text at its maximal white-space runs: no piece holds white space, every gap is a non-empty run of white space, and pieces and gaps rejoin to the text |
| Api.BlankTextIsOneWord | frontend/src/utils/api.js:155-162 | blank text counts as one word |
| Api.CeilDiv | frontend/src/utils/api.js:157-164 | rounding up: the smallest multiple count that covers the dividend |
| Api.EstimateReadingTime | frontend/src/utils/api.js:154-158 | the reading time is the least number of 200-word minutes covering the words, and at least 1 |
| Api.EstimateSlideCount | frontend/src/utils/api.js:161-165 | the slide estimate is the least number of 175-word slides covering the words, and at least 1 |
| ApiKeyInput.FindProvider | frontend/src/components/APIKeyInput.js:34 | the lookup finds an entry with that id iff there is one |
| ApiKeyInput.SelectedProviderKnown | frontend/src/components/APIKeyInput.js:7-34 | the selected provider exists exactly for the three ids |
| ApiKeyInput.ProviderNames | frontend/src/components/APIKeyInput.js:7-32 | the three ids resolve to OpenAI, Anthropic and Google Gemini |
| ApiKeyInput.Validations | frontend/src/components/APIKeyInput.js:39-43 | the component's patterns are defined only for listed providers |
| ApiKeyInput.ValidateApiKey | frontend/src/components/APIKeyInput.js:36-54 | an empty key is refused as required; an id named like an inherited object member makes the check throw; otherwise a key is valid iff it matches its provider's pattern or there is none, and the refusal uses the provider's display name |
| ApiKeyInput.PatternTablesAgree | frontend/src/components/APIKeyInput.js:39-43 | the component's pattern table equals the utility's, provider by provider |
| ApiKeyInput.ValidatorsAgree | frontend/src/components/APIKeyInput.js:36-54 | the two validators throw for the same ids and otherwise agree on validity for every key and provider |
| ApiKeyInput.IndicatorFor | frontend/src/components/APIKeyInput.js:132-147 | an empty key shows nothing; a throwing check makes the render throw; otherwise exactly one of the invalid notice and the valid mark is shown, and the notice carries the validator's message |
| TextInput.WordCount | frontend/src/components/TextInput.js:21 | the word count is zero iff the text is blank |
| TextInput.WordCountsAgree | frontend/src/components/TextInput.js:21 | on non-blank text the component and the estimator count the same words; on blank text they say 0 and 1 |
| TextInput.CharacterCount | frontend/src/components/TextInput.js:22 | the character count is the text's length |
| TextInput.EstimatedSlides | frontend/src/components/TextInput.js:23 | at least one slide; exactly one iff at most 150 words; otherwise the least number of 150-word slides covering the words |
| TextInput.EstimatedSlidesMonotone | frontend/src/components/TextInput.js:23 | more words never give fewer estimated slides |
| TextInput.RemainingNotice | frontend/src/components/TextInput.js:54-58 | the remaining-characters notice appears iff the text is over 45000 characters, and shows 50000 minus the length |
| TextInput.ChooseExample | frontend/src/components/TextInput.js:16-19 | choosing an example sets the guidance to it, hides the list and keeps the text |
| TextInput.ClearAll | frontend/src/components/TextInput.js:209-215 | Clear All empties text and guidance |
| TextInput.ClearAllSettles | frontend/src/components/TextInput.js:209-215 | after Clear All the button is disabled, and a second Clear All changes nothing |
| TextInput.ClearedHasNoWords | frontend/src/components/TextInput.js:21 | cleared text counts zero words |
| GenerationControls.HandleToggle | frontend/src/components/GenerationControls.js:5-7 | a toggle emits exactly its one key, set to the negation of the current value |
| GenerationControls.HandleSelectChange | frontend/src/components/GenerationControls.js:9-11 | a select emits exactly its one key with the chosen value |
| GenerationControls.OrDefault | frontend/src/components/GenerationControls.js:111-129 | a set option shows its value, and an unset one the default |
| GenerationControls.FindTone | frontend/src/components/GenerationControls.js:172 | the tone lookup returns the first tone whose value is strictly equal to the option, and none iff no tone matches |
| GenerationControls.ToneFoundByValue | frontend/src/components/GenerationControls.js:13-20 | each of the six tones is found by its own value |
| GenerationControls.Dollars | frontend/src/components/GenerationControls.js:150-160 | a price under a dollar prints as "0." and two digits whose decimal value is the number of cents |
| GenerationControls.CostLines | frontend/src/components/GenerationControls.js:146-157 | the text-analysis line always comes first with its price; the speaker-notes line, with its price, follows iff generateNotes is set |
| GenerationControls.LineCosts | frontend/src/components/GenerationControls.js:146-160 | there is one price per itemised line, under a dollar, and each line prints its own price |
| GenerationControls.TotalIsSumOfLines | frontend/src/components/GenerationControls.js:146-160 | each line prints its price, and the total line ("~$0.03 - $0.13" or "~$0.01 - $0.05") is the sum of the lines |
| GenerationControls.SummaryOf | frontend/src/components/GenerationControls.js:172-176 | the tone line shows the display name of the tone whose value the option holds, and nothing iff no tone has that value; images and notes by truthiness; the slide-count and density defaults |
| GenerationControls.SummaryShowsChosenTone | frontend/src/components/GenerationControls.js:172 | choosing any of the six tones shows that tone's display name in the summary |
| GenerationControls.ToggleFlipsSummary | frontend/src/components/GenerationControls.js:173-174 | toggling images flips the images line and keeps the notes line, and the other way round |
| SlidePreview.Step | frontend/src/components/SlidePreview.js:22-28 | next moves forward only before the last slide, prev moves back only after the first; otherwise the index stays; a valid index stays valid |
| SlidePreview.DisabledExactlyWhenStuck | frontend/src/components/SlidePreview.js:50-62 | prev is disabled on the first slide and next on the last, exactly where pressing them would not move |
| SlidePreview.WalkStaysInRange | frontend/src/components/SlidePreview.js:22-28 | any sequence of presses starting on a slide stays on a slide |
| SlidePreview.NextReachesLast | frontend/src/components/SlidePreview.js:22-28 | enough presses of next reach the last slide |
| SlidePreview.Cursor.constructor | frontend/src/components/SlidePreview.js:5 | the preview starts on the first slide |
| SlidePreview.Cursor.Navigate | frontend/src/components/SlidePreview.js:22-28 | the arrow buttons step the index as `Step` says and keep it in range |
| SlidePreview.Cursor.Select | frontend/src/components/SlidePreview.js:122 | clicking an entry selects it |
| SlidePreview.Cursor.ShowSlides | frontend/src/App.js:479-483 | new slides from a re-analysis set the count and bring the selection back into range (the corrected behaviour, see Findings) |
| SlidePreview.KeptSelection | frontend/src/components/SlidePreview.js:5 | as written, new slides leave the selected index unchanged |
| SlidePreview.KeptSelectionOutOfRange | frontend/src/components/SlidePreview.js:11 | a re-analysis yielding no more slides than the selected index leaves the index past the end of the slides |
| SlidePreview.SelectionAfterNewSlides | frontend/src/components/SlidePreview.js:5-11 | the corrected selection is always in range, is the same slide while it exists, and the last slide otherwise |
| SlidePreview.SlideTypeColor | frontend/src/components/SlidePreview.js:13-20 | title, section and conclusion each get their own colour, and every other type the grey one |
| SlidePreview.NotesCount | frontend/src/components/SlidePreview.js:150-157 | the "With Notes" count is at most the total, equals it iff every slide has truthy notes, and is zero iff none has |
| SlidePreview.PointsLabel | frontend/src/components/SlidePreview.js:137-141 | the label appears only for non-empty content, starts with the count, and ends in "s" iff the count is not one |
| SlidePreview.StatsOf | frontend/src/components/SlidePreview.js:7-9 | nothing is shown without slides; otherwise the total is the slide count and the notes count is within it |
| TemplateUpload.FileErrors | frontend/src/components/TemplateUpload.js:29-38 | a file has no errors iff its type and size are accepted |
| TemplateUpload.Classify | frontend/src/components/TemplateUpload.js:29-38 | every dropped file is accepted or rejected; at most one is accepted, and it is an acceptable file from the drop |
| TemplateUpload.Decide | frontend/src/components/TemplateUpload.js:8-27 | any rejection refuses the drop with the first rejection's message; otherwise the first accepted file is uploaded; an empty drop does nothing |
| TemplateUpload.SeveralFilesAreRefused | frontend/src/components/TemplateUpload.js:8-38 | a drop of two or more files is always refused |
| TemplateUpload.UploadIffSingleAcceptable | frontend/src/components/TemplateUpload.js:8-38 | a drop uploads iff it is a single acceptable file, and then uploads that file |
| TemplateUpload.Dropzone.constructor | frontend/src/components/TemplateUpload.js:6 | the zone starts with no status and no upload |
| TemplateUpload.Dropzone.OnDrop | frontend/src/components/TemplateUpload.js:8-27 | a refusal sets the error status without uploading; an upload sets the uploading status and calls back once with the file; an empty drop changes nothing |
| TemplateUpload.DropzoneStyle | frontend/src/components/TemplateUpload.js:40-46 | disabled wins over drag-reject, which wins over drag-active, which wins over a chosen template |
| TemplateUpload.StatusIcon | frontend/src/components/TemplateUpload.js:48-53 | uploading wins over error, which wins over a chosen template |
| Server.AllowedFile | backend/app.py:31-33 | an allowed name contains a dot |
| Server.AllowedFileIff | backend/app.py:31-33 | a name is allowed iff it has a last dot after which the lower-cased rest is pptx or potx |
| Server.AllowedFileExamples | backend/app.py:31-33 | "deck.PPTX" and "my.deck.potx" are allowed; "deck.pdf" and "pptx" are not |
| Server.Unexpired | backend/app.py:35-51 | cleanup keeps exactly the sessions not created more than an hour ago, unchanged; a session with no creation time is kept |
| Server.UnexpiredMonotone | backend/app.py:35-51 | cleanup is idempotent, and a later cleanup keeps no more sessions than an earlier one |
| Server.CheckProvider | backend/services/llm_service.py:13-33 | the provider is accepted iff it is a string whose lower-case form is one of the three known ids |
| Server.CheckAnalyzeText | backend/app.py:71-83 | a missing body or text is refused first, then an empty key; a text without a length (number, boolean, null) is refused with a 500 naming its type; a text longer than 50000 is refused; a request passes exactly when its text is a string or list of at most 50000 entries, its key is truthy, its provider is supported and its guidance is a string or falsy, and it then carries that text, guidance and provider |
| Server.PyLen | backend/app.py:82 | `len` counts a string's characters, a list's entries and an object's members, and raises "object of type 'X' has no len()" for a number, a boolean or null |
| Server.NumberTextRefused | backend/app.py:82-107 | a number as the text is answered with 500 "Analysis failed: object of type 'int' has no len()" |
| Server.NumberGuidanceRefused | backend/services/llm_service.py:65 | a truthy number as the guidance is answered with 500 "Analysis failed: can only concatenate str (not "int") to str" |
| Server.CheckAnalyzeTemplate | backend/app.py:113-126 | a missing template is refused first, then an unknown session, then an empty file name, then a disallowed extension; a request passing all four names a known session |
| Server.FindSession | backend/app.py:158-162 | the session is found iff the id is a non-empty string naming a stored session; an unhashable id raises |
| Server.CheckGenerate | backend/app.py:158-167 | generation proceeds exactly for a known, non-empty session id holding template data; an unknown or falsy id is "Invalid session", a session without template data "Template not analyzed", an unhashable id or a missing body a 500 |
| Server.DownloadName | backend/app.py:181 | the name starts with "generated_presentation_", ends with ".pptx", is at most 36 characters, and what lies between is a prefix of the session id |
| Server.DownloadNamesCollide | backend/app.py:181 | two sessions get the same download name iff their ids agree on the first eight characters |
| Server.SessionStore.constructor | backend/app.py:29 | the store starts empty |
| Server.SessionStore.AnalyzeText | backend/app.py:66-108 | a refused request leaves the store unchanged; an accepted one stores one session under the new id (replacing an entry with that id, if any) holding the text, guidance and slides, and replies with the slide count; a list text with no usable LLM reply is answered with the 500 that the fallback's `split` raises, and nothing is stored |
| Server.SessionStore.AnalyzeTemplate | backend/app.py:110-152 | the session is updated only after every check passes and the analysis succeeds, and no other session changes |
| Server.SessionStore.GeneratePresentation | backend/app.py:154-188 | the deck is built from the session's stored slides, never from the request, and the store is unchanged |
| Server.SessionStore.GenerateSpeakerNotes | backend/app.py:190-220 | the session's slides are replaced by the notes-filled list, and no other session changes |
| Server.SessionStore.CleanupExpired | backend/app.py:35-51 | the store becomes its unexpired part |
| LlmService.DefaultSlides | backend/services/llm_service.py:224-232 | the default outline is one title slide numbered 1 |
| LlmService.Backoff | backend/services/llm_service.py:123-124 | the waits between attempts are 1, 2, 4, … seconds |
| LlmService.FirstSuccess | backend/services/llm_service.py:89-126 | the first attempt that succeeds, with every earlier attempt failed; none iff all attempts fail |
| LlmService.MakeLlmCall | backend/services/llm_service.py:89-126 | at most max_retries attempts; the first success is returned; the error is raised only after the last attempt fails; the loop sleeps only between attempts |
| LlmService.FirstIndexOf | backend/services/llm_service.py:132-134 | the first position of the character, or none if absent |
| LlmService.LastIndexOf | backend/services/llm_service.py:132-134 | the last position of the character, or none if absent |
| LlmService.JsonCandidate | backend/services/llm_service.py:132-138 | the candidate runs from the first '[' to the last ']' when such a pair exists, and is the whole reply otherwise |
| LlmService.ParseSlideResponse | backend/services/llm_service.py:128-145 | the reply parses iff its candidate decodes; otherwise the error is "Invalid JSON response from LLM" |
| LlmService.Iterate | backend/services/llm_service.py:151 | iterating a null, boolean or number raises; strings, lists and objects iterate |
| LlmService.ContentItems | backend/services/llm_service.py:161-165 | string content becomes a one-item list, list content is kept, and anything else becomes empty |
| LlmService.CleanBullets | backend/services/llm_service.py:167-173 | at most 8 bullets are kept, in order, each cut to 200 characters |
| LlmService.ValidateOne | backend/services/llm_service.py:152-175 | only an object survives; missing fields default to number i+1, type content, title "Slide i+1", empty content and empty notes; present number, type and notes are kept as given, a present title becomes its string form cut to 100 characters and present content its cleaned bullets; the result is within the caps |
| LlmService.Survivors | backend/services/llm_service.py:151-179 | exactly one slide per entry that is an object, in input order, each the validation of that entry at its own position |
| LlmService.ObjectIndices | backend/services/llm_service.py:151-179 | the positions of the object entries: each in range and an object, every object's position present, in increasing order |
| LlmService.Validated | backend/services/llm_service.py:177-185 | validation never returns an empty list: when some entry is an object the result is exactly the surviving slides, and otherwise the default slide |
| LlmService.ValidateSlides | backend/services/llm_service.py:147-185 | validation fails iff the reply cannot be iterated, and otherwise yields the validated list |
| LlmService.SurvivorsWithinCaps | backend/services/llm_service.py:161-173 | every surviving slide respects the title and bullet caps |
| LlmService.ValidatedWithinCaps | backend/services/llm_service.py:161-185 | every validated slide respects the caps |
| LlmService.SurvivorsOfObjects | backend/services/llm_service.py:151-175 | a list of objects keeps its length and order, slide i coming from entry i |
| LlmService.ValidatedWithoutObjects | backend/services/llm_service.py:181-185 | when no entry survives, the default slide is returned |
| LlmService.NonBlankIndices | backend/services/llm_service.py:192 | the positions of the non-blank parts: each in range and not blank, every non-blank part's position present, in increasing order |
| LlmService.StrippedNonBlank | backend/services/llm_service.py:192 | one entry per non-blank part, the stripped form of the part at that position, non-empty and with no white space at either end |
| LlmService.StrippedNonBlankKeeps | backend/services/llm_service.py:192 | exactly the non-blank parts are kept, in their order, each stripped |
| LlmService.Sentences | backend/services/llm_service.py:211-212 | the bullets are the first five non-blank pieces of the paragraph split at '.', each stripped |
| LlmService.TitleSlide | backend/services/llm_service.py:196-204 | the fallback title slide is numbered 1, of type title, with no content and empty notes; its title is the first line cut to 100 characters whenever that is non-empty, and "Presentation" exactly when it is empty |
| LlmService.StrideFor | backend/services/llm_service.py:207-208 | the paragraph stride is at least 1 |
| LlmService.StrideAt | backend/services/llm_service.py:210 | the i-th picked paragraph is paragraph i times the stride |
| LlmService.StrideLength | backend/services/llm_service.py:207-210 | the picks cover the paragraphs: nothing is picked iff there are none, and the count is the ceiling of paragraphs over stride |
| LlmService.KeyPointSlide | backend/services/llm_service.py:210-220 | the i-th key-point slide is numbered i+2, of type content, titled "Key Point i+1", its bullets the paragraph's sentences and its notes the paragraph's first 200 characters followed by "..." |
| LlmService.KeyPoints | backend/services/llm_service.py:210-219 | one key-point slide per picked paragraph, in order |
| LlmService.Fallback | backend/services/llm_service.py:187-222 | the fallback outline is the title slide followed by exactly the key-point slides of the picked paragraphs |
| LlmService.PickedAt | backend/services/llm_service.py:192-210 | the j-th picked paragraph is the stripped non-blank paragraph at position j times the stride |
| LlmService.FallbackAt | backend/services/llm_service.py:210-220 | content slide j+1 is the key-point slide of the j-th picked paragraph |
| LlmService.FallbackContentSlide | backend/services/llm_service.py:192-220 | content slide j+1 is built from the paragraph at position j times the stride: "Key Point j+1", its sentences, its first 200 characters and "..." |
| LlmService.FallbackTextAnalysis | backend/services/llm_service.py:187-222 | the loop builds exactly the fallback outline |
| LlmService.FallbackNumbered | backend/services/llm_service.py:196-219 | the fallback slides are numbered 1, 2, 3, … in order |
| LlmService.FallbackAtMostSixteen | backend/services/llm_service.py:191-210 | the fallback never has more than 16 slides |
| LlmService.AnalyzeTextForSlides | backend/services/llm_service.py:37-54 | the outline is never empty; it is the slides of the LLM's first reply when that reply parses and validates, and the paragraph fallback otherwise |
| LlmService.ReplySlides | backend/services/llm_service.py:42-49 | slides come from a reply only when some call succeeded, and they are never empty |
| LlmService.SlidesFromLlm | backend/services/llm_service.py:42-49 | the call, parse and validation give the slides of the first reply, or none when any of them raises |
| LlmService.WithNotes | backend/services/llm_service.py:237-259 | a slide with truthy notes is kept; otherwise only its notes change, to the stripped reply when the call returned and to "Notes for: " and the title when it failed |
| LlmService.NotesAfterPass | backend/services/llm_service.py:237-258 | after the pass a slide is left without truthy notes only when it had none and the LLM returned blank text |
| LlmService.FillNotes | backend/services/llm_service.py:234-261 | length and order are kept, and slide i is slide i with its notes filled |
| LlmService.GenerateSpeakerNotes | backend/services/llm_service.py:234-261 | the slides are updated in place to their notes-filled form |
| PptxAnalyzer.UsageName | backend/services/pptx_analyzer.py:79-95 | each of the five usages has its own name: content, title, image, complex, basic |
| PptxAnalyzer.DetermineLayoutUsage | backend/services/pptx_analyzer.py:79-95 | as written, with the literals: types 1 and 0 together give content; a lone 0 gives title; a 13 gives image; over three placeholders give complex; anything else basic |
| PptxAnalyzer.LiteralTypesNeverContentOrTitle | backend/services/pptx_analyzer.py:85-89 | as written, no layout whose placeholder types are python-pptx values is classified content or title, since no type is 0 |
| PptxAnalyzer.LiteralTypesMisclassify | backend/services/pptx_analyzer.py:85-91 | a title-and-body layout (types 1, 2) and a title-and-object layout (types 1, 7) are basic as written and content as intended; a title with a slide number (1, 13) is image as written and basic as intended |
| PptxAnalyzer.IntendedLayoutUsage | backend/services/pptx_analyzer.py:79-95 | with TITLE 1, BODY 2, OBJECT 7 and PICTURE 18: a title with a body or object placeholder gives content; a lone title gives title; a picture gives image; over three placeholders give complex; anything else basic |
| PptxAnalyzer.ClassificationsAgreeAwayFromTheLiterals | backend/services/pptx_analyzer.py:79-95 | the two classifications agree on every layout without types 0, 2, 7, 13 or 18 other than a lone title |
| PptxAnalyzer.PlaceholderTypes | backend/services/pptx_analyzer.py:81-82 | one type per placeholder, in order |
| PptxAnalyzer.ExtractLayouts | backend/services/pptx_analyzer.py:47-77 | one record per layout, each indexed by its position and classified by its placeholder types (with the intended numbering) |
| PptxAnalyzer.Preferences | backend/services/pptx_analyzer.py:286-295 | two distinct preferred usages per slide type, as the table lists them for title, content, section, conclusion and image, and basic then content for any other type |
| PptxAnalyzer.FirstWithUsage | backend/services/pptx_analyzer.py:297-299 | the first layout, in list order, with the wanted usage, or none |
| PptxAnalyzer.SearchPreferences | backend/services/pptx_analyzer.py:296-299 | the preferences are tried in order, and the first one with a matching layout wins |
| PptxAnalyzer.GetBestLayoutForSlideType | backend/services/pptx_analyzer.py:280-302 | none iff there are no layouts; otherwise the first layout matching the first preference, else the first matching the second, else the first layout |
| PptxAnalyzer.ImageContentType | backend/services/pptx_analyzer.py:228-239 | an unknown type is reported iff the data starts with none of the four signatures |
| PptxAnalyzer.ImageTypeOfSignature | backend/services/pptx_analyzer.py:228-239 | PNG, JPEG, GIF and BMP signatures give their own types |
| PptxAnalyzer.FormatRgbAsWritten | backend/services/pptx_analyzer.py:129 | formatting a colour value with the hexadecimal integer format fails for every colour |
| PptxAnalyzer.AsWrittenFindsNothing | backend/services/pptx_analyzer.py:121-143 | as written, no colour is ever collected |
| PptxAnalyzer.HexDigit | backend/services/pptx_analyzer.py:129 | a hexadecimal digit is 0-9 or A-F |
| PptxAnalyzer.Hex6 | backend/services/pptx_analyzer.py:129 | a formatted colour is '#' and six characters |
| PptxAnalyzer.FormatRgb | backend/services/pptx_analyzer.py:129 | corrected formatting always succeeds with "#RRGGBB" |
| PptxAnalyzer.HexDigitInjective | backend/services/pptx_analyzer.py:129 | distinct digits print differently |
| PptxAnalyzer.HexPairInjective | backend/services/pptx_analyzer.py:129 | distinct channels print differently |
| PptxAnalyzer.Hex6Injective | backend/services/pptx_analyzer.py:129 | distinct colours print differently, so the distinct-colour set loses nothing |
| PptxAnalyzer.CorrectedFindsEveryColor | backend/services/pptx_analyzer.py:121-143 | corrected, every colour met is collected, and the set is empty only when no colour was met |
| PptxAnalyzer.RedFillExample | backend/services/pptx_analyzer.py:124-129 | a red fill is met, fails as written, and formats as "#FF0000" corrected |
| PptxAnalyzer.Formatted | backend/services/pptx_analyzer.py:121-143 | every colour that formats is in the collected set |
| PptxAnalyzer.SetToList | backend/services/pptx_analyzer.py:154 | the list holds the set's elements once each |
| PptxAnalyzer.ExtractColors | backend/services/pptx_analyzer.py:115-154 | at most 10 distinct collected colours, or the fixed palette when none are found, so the result is never empty |
| PptxAnalyzer.ExtractFonts | backend/services/pptx_analyzer.py:156-186 | the used fonts are the distinct non-empty names; with fonts, body is the first and title the second (or the first); without, both are Calibri |
| PptxAnalyzer.ShapeImages | backend/services/pptx_analyzer.py:385-387 | a slide has at most one image per shape |
| PptxAnalyzer.ImageCountAppend | backend/services/pptx_analyzer.py:383-387 | the image count grows by each slide's images |
| PptxAnalyzer.ShapeImagesAppend | backend/services/pptx_analyzer.py:385-387 | a slide's count grows by one per picture shape |
| PptxAnalyzer.CompatibilityScore | backend/services/pptx_analyzer.py:366-391 | the score lies in 0..100, is 100 iff all four criteria hold and 0 iff none does |
| PptxAnalyzer.ValidateTemplate | backend/services/pptx_analyzer.py:343-405 | a missing file is invalid with one error and score 0; a load failure is invalid; otherwise valid with the four-part score in 0..100 |
| PptxGenerator.GeneratorPreferences | backend/services/pptx_generator.py:138-146 | every type has two preferences, and an unknown type uses content then basic |
| PptxGenerator.FirstUsable | backend/services/pptx_generator.py:149-154 | the first entry with the wanted usage and an index in range, or none iff there is no such entry |
| PptxGenerator.GetLayoutForSlideType | backend/services/pptx_generator.py:132-157 | none iff the template has no layouts; otherwise an index in range, the first usable preference's match when there is one, and layout 0 otherwise |
| PptxGenerator.OutOfRangeEntryIgnored | backend/services/pptx_generator.py:149-157 | an entry whose index is out of range is skipped |
| PptxGenerator.SuggestLayout | backend/services/pptx_generator.py:509-522 | a title slide suggests "Title Slide"; other slides are suggested by the number of content items |
| PptxGenerator.CountSlideElements | backend/services/pptx_generator.py:499-507 | text blocks equal the content length; estimated images are zero only for the title type; title and notes flags follow the slide |
| PptxGenerator.PreviewOf | backend/services/pptx_generator.py:484-494 | the number defaults to 1, the title to "", the type to content; the content preview is the first three items; the element counts and layout suggestion are those of the slide; a title slide is suggested the title layout and estimated to have no image |
| PptxGenerator.CreatePresentationPreview | backend/services/pptx_generator.py:478-497 | one preview per slide, in order |
| PptxGenerator.PreviewFacts | backend/services/pptx_generator.py:478-507 | each preview's content is a prefix of its slide's content, its number defaults to 1, and its text-block count is the content length |
| PptxGenerator.OutputPath | backend/services/pptx_generator.py:102-103 | with no template the output is generated_presentation.pptx |
| PptxGenerator.OutputPathOfPptx | backend/services/pptx_generator.py:102-103 | "name.pptx" becomes "name_generated.pptx" |
| PptxGenerator.PotxPathUnchanged | backend/services/pptx_generator.py:102-103 | a ".potx" template path comes back unchanged |
| PptxGenerator.NoPptxInPotx | backend/services/pptx_generator.py:102-103 | a ".potx" path holds no ".pptx" to replace |
| PptxGenerator.Filled | backend/services/pptx_generator.py:225-243 | at most 8 items are written, in order and at level 0, the first into the existing paragraph; no items leave one empty paragraph |
| PptxGenerator.TextFrame.constructor | backend/services/pptx_generator.py:228 | a text frame holds at least one paragraph |
| PptxGenerator.TextFrame.Clear | backend/services/pptx_generator.py:229 | clearing leaves one empty paragraph at the first paragraph's level |
| PptxGenerator.TextFrame.PopulateTextPlaceholder | backend/services/pptx_generator.py:225-243 | the frame's paragraphs become the filled list |
| PptxGenerator.Improved | backend/services/pptx_generator.py:430-447 | sizes under 14 pt become 16 pt and other sizes stay; a missing, empty or "Calibri" name becomes the body font and any other name stays |
| PptxGenerator.ImprovedIdempotent | backend/services/pptx_generator.py:430-447 | the typography pass changes nothing the second time |
| PptxGenerator.ImproveTypography | backend/services/pptx_generator.py:430-447 | every run is updated in place to its improved form |
| PptxGenerator.Optimized | backend/services/pptx_generator.py:456-476 | shapes without text stay; text shapes are moved to at least the minimum offset, only where they were closer, and get equal margins |
| PptxGenerator.OptimizedIdempotent | backend/services/pptx_generator.py:456-476 | the layout pass changes nothing the second time |
| PptxGenerator.OptimizeSlideLayouts | backend/services/pptx_generator.py:456-476 | every shape is updated in place to its optimised form |

## Left out

- React rendering, the Tailwind class strings (only their priority chains are modelled), and the purely presentational components Header, Footer, SuccessMessage, ErrorMessage and LoadingSpinner.
- The HTTP transport, FormData, the DOM anchor that starts a download (a download is a file name appended to `downloads`), `debounce`, `storage` and `formatFileSize` (floating point).
- Concurrency: the loading flag while a request is awaited is not observable, because each handler runs to completion with its outcomes given.
- The `setTimeout` that clears the success banner is modelled as `Wizard.App.Dismiss`, not as a timer.
- Wizard.App.Generate: the file-name timestamp is a parameter `now`, and the blob itself is not modelled.
- Wizard.TextAnalysisSucceeds: the state keeps a stale `templateAnalyzed` flag when the text is analysed again after a template was uploaded, as the source does. The model preserves it rather than resetting it.
- The component's `wordCount` and the estimators' word count differ on blank text (0 against 1). Both are modelled, and `TextInput.WordCountsAgree` states the difference.
- TemplateUpload.Classify: the drop-zone library's behaviour is modelled from its configuration. Its error texts are a parameter, and file names are lower-cased for ASCII only.
- Flask routing, CORS, `send_file`, the 413 and 500 handlers, and the cleanup thread's sleep loop. Only the expiry filter is modelled, as a function of `now`.
- Server.SessionStore.AnalyzeTemplate: the saved path produced by `secure_filename` and the file system is a parameter.
- The LLM SDKs, the prompt text and `json.loads`. A reply is decoded by a decoding function passed in.
- LlmService.MakeLlmCall: `time.sleep` is recorded as the list of waits, and nothing waits.
- python-pptx loading and saving, image decoding, temporary files and `os.remove`. A template is an abstract record of layouts (placeholder types), shapes, runs and colours.
- Sizes in inches and image geometry: these are floating point.
- The slide loop of the active `generate_presentation` (backend/services/pptx_generator.py:61-105), because it works on python-pptx slide objects; only its output path is modelled, as `PptxGenerator.OutputPath`. The loop drops the template's slides and puts every slide on layout 0. It sets the title and the notes. It fills content only when layout 0 has a placeholder of type 1, and there it calls `.split` on the validated content, which is a list, so it raises. `PptxGenerator.GetLayoutForSlideType`, `PptxGenerator.Filled` and `PptxGenerator.TextFrame` model `_get_layout_for_slide_type` and `_populate_text_placeholder` as the helpers they are. Only `_create_slide` calls them, and only the commented-out version of `generate_presentation` calls `_create_slide`.
- PptxGenerator.ItemParagraph: each item becomes exactly one run. python-pptx makes no run for an empty item and breaks an item at line feeds and vertical tabs. The run's font colour, which `_apply_paragraph_formatting` sets from the template's second colour (backend/services/pptx_generator.py:290-300), is not modelled.
- TextInput.CharacterCount: the count is the number of characters, while JavaScript's `.length` counts UTF-16 code units, so a character outside the Basic Multilingual Plane counts once here and twice in the browser.
- TextInput.RemainingNotice: the threshold and the remaining count use the same character count, so they differ from the browser for text with characters outside the Basic Multilingual Plane.
- Server.CheckAnalyzeText: a JSON body that is neither an object nor null is not modelled; the body is an optional list of members. In app.py an empty list, an empty string, 0 or false is refused as "No text provided"; a list or string holding "text" passes `'text' in data` and then raises on `data['text']`, and a non-zero number or true raises on `in`, both answered with a 500.
- Server.CheckGenerate: the same restriction. A list, string or number body raises on `data.get` in the generation and speaker-notes routes (backend/app.py:157-158, 193-194), which is answered with a 500.
- Server.SessionStore.AnalyzeText, Server.SessionStore.GeneratePresentation and Server.SessionStore.GenerateSpeakerNotes take their body through the checks above, so the same bodies are left out of them.
- Server.CheckAnalyzeText: an object given as the text is refused with the message Python up to 3.11 raises when slicing a dict ("unhashable type: 'slice'"). From 3.12 the error is a KeyError whose text is "slice(None, 5000, None)". The length of an object text is its number of members, assuming distinct keys as JSON decoding gives.
- The commented-out handlers in App.js and pptx_generator.py. The api/*.py wrappers import functions that do not exist.
- JsonValue.Repr: Python's `str()` of a value is modelled without string escaping, and numbers are integers only.
- Strings are sequences of characters. Lower-casing covers ASCII only, and there is no Unicode normalisation.

## Findings

| source | as written | input that shows it | evidently intended | confidence | as-written member | corrected member |
|---|---|---|---|---|---|---|
| backend/services/pptx_analyzer.py:124-143 | `f"#{rgb:06X}"` formats python-pptx's colour value, which is not an int, so the format raises. The bare `except` swallows the error, so no colour is ever collected and every template reports the fixed palette | a slide with a shape filled in RGB 255,0,0 | the colour printed as "#FF0000" and collected | not executed | PptxAnalyzer.FormatRgbAsWritten, PptxAnalyzer.AsWrittenFindsNothing | PptxAnalyzer.FormatRgb, PptxAnalyzer.CorrectedFindsEveryColor |
| frontend/src/components/SlidePreview.js:5-11 | the selected index lives in `useState` and is never reset. The preview stays mounted while the slides are non-empty, so a re-analysis that yields fewer slides leaves the index past the end; `slides[selectedSlide]` is undefined and reading its `slide_type` (line 73) throws | select slide 5 of 5, go back to the first step and analyse a text that yields 3 slides | the selection brought back into range when the slides change | not executed | SlidePreview.KeptSelection, SlidePreview.KeptSelectionOutOfRange | SlidePreview.SelectionAfterNewSlides, SlidePreview.Cursor.ShowSlides |
| backend/services/pptx_analyzer.py:85-91 | the placeholder types are compared with 1, 0 and 13. In python-pptx's numbering TITLE is 1, BODY is 2, 13 is SLIDE_NUMBER and PICTURE is 18, and no type is 0. So no layout is ever classified content or title, and any layout with a slide number becomes an image layout | a layout with a title and a body placeholder (types 1 and 2), or with a title and an object placeholder (types 1 and 7) as the standard "Title and Content" layout has | classified as a content layout; OBJECT counts as content as it does in the generator (backend/services/pptx_generator.py:207) | not executed | PptxAnalyzer.DetermineLayoutUsage, PptxAnalyzer.LiteralTypesNeverContentOrTitle, PptxAnalyzer.LiteralTypesMisclassify | PptxAnalyzer.IntendedLayoutUsage, PptxAnalyzer.ExtractLayouts |
