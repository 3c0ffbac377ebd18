# Photo-Pro-2026 workflow core in Dafny

Photo-Pro-2026 turns a phone photo of a dish into an editorial-style food
photograph. The user uploads a photo, picks a food category, the visual
enhancements and an output proportion, and pays R$ 1,00 by Pix. A hosted
image model checks the payment proof and then generates the new image from
the photo and a prompt built from the selections. The application also has
a handler that refines the result with free-text instructions, but the
result screen never calls it (see Findings).

This project models the core of that application:

- `app.dfy`: the single session record and its handlers.
  - `InitialState` and `Merge` (the `{ ...prev, ...updates }` of `updateState`).
  - One pure transition function per handler: `OnFileSelect`, `OnStartPayment`, `OnProofUpload`, `OnVerifyPayment`, `GenerateStep`/`OnGenerate`, `OnRefine` and `OnClose`.
  - The component itself as `class App`, one method per handler. Each method is proved to leave exactly the record its function computes.
  - An event-level `Apply`, the screen's guards (`Enabled`, where the payment modal and the result overlay each cover the page beneath them), and the invariant every offered handler keeps.
- `session.dfy`: the partial record (`Update`) and the field-by-field meaning of a merge.
- `prompt_service.dfy`:
  - the prompt template;
  - the scan of a model reply for its first inline image, with its `for…of` loop as a method;
  - the `data:` URL the scan builds and the regular-expression split that takes it apart again;
  - the refinement prompt;
  - the two service operations, with the model's reply as a parameter.
- `configuration.dfy`: the enhancement toggle, the single-field handlers, form validity and the proceed-button guard.
- `payment_modal.dfy`: when the payment modal is shown, which of its controls are enabled, and which chosen file it forwards.
- `upload_zone.dfy`: the MIME check on a chosen or dropped photo, first-file selection, and the drag highlight as a class.
- `types.dfy`: the enumerations, the records and the default enhancement catalogue.
- `strings.dfy` and `wrappers.dfy`: the JavaScript string operations used (join, substring search, first index, `trim` with the ECMAScript whitespace set), plus `Option` and `Result`.

Every external call is a parameter:

- the payment verifier's answer `{ isValid, reason }`;
- the image model's reply, or the error its call throws;
- what the file reader produces: the base64 payload, or its rejection;
- the object URL made for a file.

Files are opaque tokens that carry their MIME type.

The generation launched from a payment verification reads the session it was
rendered with: its guards, its prompt and its model request use the record as
it was when the verification started. Its updates land on the current record.
`GenerateStep(closure, s, skip, reply)` models this. `OnGenerate` is the case
where both records are the same.

## Model

| member | source | states |
|---|---|---|
| Session.MergeFields | App.tsx:35-37 | after `updateState(u)`, every field `u` names holds `u`'s value and every other field keeps its old value |
| Session.MergeNoChange | App.tsx:35-37 | `updateState({})` changes nothing |
| Session.ThenNames | App.tsx:35-37 | two partial records spread one after the other name what either names, and the later value wins |
| Session.MergeThen | App.tsx:35-37 | two updates in a row equal one update with the composed partial record, so a handler's consecutive `updateState` calls read as one merge |
| Session.MergeIdempotent | App.tsx:35-37 | repeating an update changes nothing more |
| App.App.constructor | App.tsx:32 | the component starts from `INITIAL_STATE` |
| App.App.UpdateState | App.tsx:35-37 | the state becomes the merge of the old state and the partial record |
| App.App.HandleFileSelect | App.tsx:43-55 | leaves `OnFileSelect` of the old state |
| App.App.HandleStartPayment | App.tsx:58-61 | leaves `OnStartPayment` of the old state |
| App.App.HandleProofUpload | App.tsx:64-71 | leaves `OnProofUpload` of the old state |
| App.App.Generate | App.tsx:96-132 | leaves `GenerateStep(closure, old state, skip, Received(encoded, reply))`, so a photo the reader cannot read fails the generation like a failed call; calls the model exactly when the closure has a photo, the skip flag or PAID holds, and the reader produced a payload, with the photo's MIME type, that payload and `generatePrompt(closure)` |
| App.App.HandleGenerate | App.tsx:96-132 | leaves `OnGenerate` of the old state and what the calls delivered; calls the model exactly when there is a photo, the skip flag or PAID holds, and the reader produced a payload |
| App.App.HandleVerifyPayment | App.tsx:74-93 | leaves `OnVerifyPayment` of the old state and what the calls delivered; calls the model exactly when there is a proof, the verifier accepts, a photo is present and the reader produced a payload, with the prompt of the pre-verification session |
| App.App.HandleRefine | App.tsx:134-158 | leaves `OnRefine` of the old state; any request goes to the image model with the mime type and payload the URL pattern captures and the edit prompt of the instruction, and a parsable URL always leads to a request |
| App.App.HandleClose | App.tsx:209 | leaves `OnClose` of the old state |
| App.App.HandleReset | App.tsx:160-163 | the state becomes `INITIAL_STATE` |
| App.App.HandleFoodTypeChange | components/Configuration.tsx:12-14 | only the category changes |
| App.App.HandleEnhancementToggle | components/Configuration.tsx:16-21 | only the enhancement list changes, to the toggled list |
| App.App.HandleRatioChange | components/Configuration.tsx:23-25 | only the proportion changes |
| App.App.HandleDescriptionChange | components/Configuration.tsx:27-29 | only the description changes |
| App.FileSelectEffect | App.tsx:43-55 | a new photo sets the photo and its preview and clears the result and the payment (IDLE, no proof, no proof preview, not complete); category, proportion, enhancements, description, error message, processing flag and prompt are untouched |
| App.StartPaymentEffect | App.tsx:58-61 | without a photo nothing changes; otherwise only the status changes, to PENDING |
| App.ProofUploadEffect | App.tsx:64-71 | stores the proof with its preview and clears the error message, nothing else |
| App.VerifyPaymentEffect | App.tsx:74-93 | no proof: nothing changes. Rejected: PENDING with the verifier's reason, or the fixed message when the reason is empty, proof kept. Accepted: PAID, error cleared, then generation with the skip flag on the pre-verification session |
| App.GenerateEffect | App.tsx:96-132 | no photo, or neither skip nor PAID: nothing changes. Otherwise the prompt of the session is stored and the status is PAID. Success: complete with the new URL. Failure: not complete and processing stops, with the old URL kept |
| App.GenerateStepEnds | App.tsx:105-131 | a generation that passes its guards ends PAID and not processing, has a URL whenever it is complete, and does not touch the photo, the proof or the enhancements |
| App.RefineEffect | App.tsx:134-158 | no URL or an empty one: nothing changes. Success: complete with the new URL. Failure: complete again with the previous URL |
| App.CloseEffect | App.tsx:209 | closing the modal only sets IDLE |
| App.InitialInv | App.tsx:11-29 | `INITIAL_STATE` satisfies the session invariant |
| App.VerifyPaymentKeepsInv | App.tsx:74-93 | a verification keeps the invariant, whatever the verifier and the model answer |
| App.RefineKeepsInv | App.tsx:134-158 | a refinement keeps the invariant |
| App.StepKeepsInv | App.tsx:43-209 | every handler the screen offers keeps the invariant: ERROR never set, never processing afterwards (so never processing and complete at once), proof and its preview together, photo and its preview together, complete implies a URL, no payment without a photo, no empty error message, distinct ids |
| App.RunKeepsInv | App.tsx:43-209 | any sequence of offered events keeps the invariant |
| App.RefineNeverOffered | components/ResultSection.tsx:4-9 | as written, a finished result is on screen with its reset buttons, yet no control reaches the refine handler |
| App.RefineOfferedOnResult | components/ResultSection.tsx:56-104 | as intended, refinement is offered exactly where reset is, on the finished result, which always has a URL to refine |
| App.WrittenRunsEnabled | App.tsx:214-219 | every event sequence the screen as written allows is one the intended screen allows |
| App.RunAsWrittenKeepsInv | App.tsx:214-219 | any event sequence the screen as written allows keeps the invariant |
| App.ErrorPanelShownIff | components/PaymentModal.tsx:109 | in a session satisfying the invariant, the error panel is shown exactly when a message is stored |
| App.VerifyPaymentStatus | App.tsx:74-93 | a verification leaves the status unchanged, PENDING or PAID |
| App.NoHandlerSetsError | App.tsx:43-209 | no handler assigns ERROR |
| App.PaidOnlyByAcceptedProof | App.tsx:83-85 | a handler that moves the status to PAID is a verification that had a proof and was accepted |
| App.GenerateNeedsPayment | App.tsx:96-104 | without the skip flag, generation on a session that is not PAID changes nothing |
| App.GuardsCloseTheMachine | App.tsx:184-212 | under the invariant, an offered confirm has a proof, PENDING and a photo; an offered proof pick has PENDING and a photo; an offered proceed button opens the modal in PENDING |
| App.ResetIsInitial | App.tsx:160-163 | reset gives `INITIAL_STATE` from any session and is idempotent; the initial session is 9:16, IDLE, with the default catalogue |
| App.PizzaOffered | App.tsx:179-212 | for a photo whose MIME type the upload zone accepts and non-empty object URLs, the screen offers the six steps of a first-attempt pizza session in order |
| App.PizzaVerified | App.tsx:74-132 | an accepted verification of a pizza, square-frame, default-catalogue session ends complete with the model's image, PAID, with a prompt naming "Pizza", "1:1" and all six default labels |
| App.PizzaSession | App.tsx:43-132 | the whole first-attempt pizza session with an accepted photo: every step is offered, and it ends as `PizzaVerified` states |
| PromptService.SelectedLabelsAppend | services/promptService.ts:10-12 | the filter/map distributes over concatenation, so the labels keep list order |
| PromptService.SelectedLabelsMembership | services/promptService.ts:10-12 | a label is in the result exactly when some selected option carries it |
| PromptService.SelectedLabelsEmpty | services/promptService.ts:10-12 | the result is empty exactly when nothing is selected |
| PromptService.SelectedLabelsAllSelected | services/promptService.ts:10-12 | with everything selected, the result is every label in list order |
| PromptService.ActiveEnhancementsEmpty | services/promptService.ts:10-13 | the clause is empty when nothing is selected, and with non-empty labels only then |
| PromptService.DefaultClauseNamesAll | services/promptService.ts:10-13 | the clause for the default catalogue names all six labels |
| PromptService.ContextNameCases | services/promptService.ts:20 | the context line names the category, or "alimento" before one is chosen |
| PromptService.UserInstructionsLine | services/promptService.ts:15-17 | the extra-instructions line is non-empty exactly when the description is, and then it is the label followed by the description |
| PromptService.GeneratePromptDependsOnSelections | services/promptService.ts:9-34 | the prompt depends only on category, enhancements, proportion and description |
| PromptService.TrimIndentedLines | services/promptService.ts:19-29 | `trim` removes exactly the template literal's indentation frame when the first line starts and the last line ends with non-whitespace |
| PromptService.PromptFirstLine | services/promptService.ts:20 | the first line starts with "[CONTEXTO]" |
| PromptService.PromptLayoutWith | services/promptService.ts:19-29 | for any directive and any closing paragraph that ends in non-whitespace, the trimmed template is the lines joined by indented line breaks; it starts with "[CONTEXTO]" and ends with the closing paragraph |
| PromptService.PromptMentionsWith | services/promptService.ts:19-29 | the joined lines contain the context line, the directive, the category line, the enhancement clause, the proportion line, and the description whenever it is non-empty |
| PromptService.ClosingEndsWithPeriod | services/promptService.ts:28 | the closing instruction ends with a full stop |
| PromptService.GeneratePromptLayout | services/promptService.ts:9-34 | `generatePrompt` is the nine lines joined by indented line breaks, starts with "[CONTEXTO]" and ends with the closing instruction |
| PromptService.GeneratePromptMentions | services/promptService.ts:9-34 | the prompt contains the context line, `BASE_PROMPT_CORE`, the category, the enhancement clause, the proportion and any non-empty description |
| PromptService.PizzaPromptScenario | services/promptService.ts:9-34 | a pizza in 1:1 with the default catalogue gives a prompt naming "Pizza", "1:1" and all six default labels |
| PromptService.FirstCandidateParts | services/promptService.ts:86 | the parts are found exactly when candidates, a first candidate, its content and its parts are all present |
| PromptService.FirstImageIndex | services/promptService.ts:87-88 | the index found is of a part with a non-empty payload and no earlier part has one; none is found exactly when no part has one |
| PromptService.ScanParts | services/promptService.ts:87-92 | the loop with early return gives the URL of the first part with a payload, or none |
| PromptService.ExtractImageCases | services/promptService.ts:86-96 | success exactly when the reply has an image part, and then the URL is that of the first one; a failed call passes its error on; otherwise the fixed error |
| PromptService.Scan | services/promptService.ts:86-96 | the imperative scan of a reply gives `ExtractImage` |
| PromptService.FirstImageUrlIgnoresRest | services/promptService.ts:87-92 | parts after the first image part do not affect the URL |
| PromptService.PartUrlDefaultsToPng | services/promptService.ts:90-91 | without a MIME type the URL announces image/png |
| PromptService.PngIsMime | services/promptService.ts:90 | the default image/png is in the refinement pattern's alphabet |
| PromptService.MimeHasNoSemicolon | services/promptService.ts:113 | a MIME type the pattern accepts contains no ';' |
| PromptService.ParseDataUrlSound | services/promptService.ts:113-120 | whatever the split accepts matches the pattern with the groups it returns |
| PromptService.ParseDataUrlRoundTrip | services/promptService.ts:113-120 | a URL built as on line 91 from a MIME type and payload in the pattern's alphabet splits back into that MIME type and payload |
| PromptService.ParseDataUrlExact | services/promptService.ts:113-117 | the split returns given groups exactly when the string matches the pattern with those groups |
| PromptService.ScanThenParse | services/promptService.ts:91 | the URL the scan builds from a part in the pattern's alphabet is split back into that part's MIME type and payload |
| PromptService.GenerateThenRefine | services/promptService.ts:91 | a URL the generation returned, from an image part in the pattern's alphabet, is accepted by the refinement, whose outcome is then the scan of its own reply |
| PromptService.EditPromptRecoversInstruction | services/promptService.ts:123 | the instruction sits verbatim between the fixed lead and tail |
| PromptService.EditPromptInjective | services/promptService.ts:123 | different instructions give different edit prompts |
| PromptService.GenerateEnhancedImage | services/promptService.ts:57-102 | without a photo: no request, and "No image file provided.". A photo the reader cannot read: no request, and the reader's error. Otherwise one request with the model name, the photo's MIME type, the payload and `generatePrompt(state)`, and the outcome is the scan of the reply |
| PromptService.RefineImage | services/promptService.ts:107-155 | a request is sent exactly when the URL matches the pattern, carrying the captured MIME type and payload and the edit prompt; otherwise "Dados da imagem inválidos para refinamento." |
| Configuration.Toggle | components/Configuration.tsx:16-21 | same length; every entry keeps its id and label; `selected` flips exactly on the entries with the id |
| Configuration.ToggleTwice | components/Configuration.tsx:16-21 | toggling the same id twice restores the list |
| Configuration.ToggleAbsent | components/Configuration.tsx:17-19 | toggling an id no entry carries changes nothing |
| Configuration.ToggleKeepsIds | components/Configuration.tsx:16-21 | distinct ids stay distinct, and with distinct ids at most one entry changes |
| Configuration.FoodTypeChangeOneField | components/Configuration.tsx:12-14 | the handler's partial record names only the category; merged, only the category changes |
| Configuration.EnhancementToggleOneField | components/Configuration.tsx:16-21 | names only the enhancement list; merged, only that list changes |
| Configuration.RatioChangeOneField | components/Configuration.tsx:23-25 | names only the proportion; merged, only the proportion changes |
| Configuration.DescriptionChangeOneField | components/Configuration.tsx:27-29 | names only the description; merged, only the description changes |
| Configuration.IsFormValidIff | components/Configuration.tsx:31 | the form is valid exactly when a photo and a category are chosen |
| Configuration.SubmitEnabledIff | components/Configuration.tsx:137 | the proceed button is enabled exactly when a photo and a category are chosen and nothing is processing |
| PaymentModal.RenderedStatuses | components/PaymentModal.tsx:39 | the modal is shown exactly in PENDING, VALIDATING and ERROR |
| PaymentModal.ControlsEnabled | components/PaymentModal.tsx:118-120 | confirm is enabled exactly with a non-empty preview outside VALIDATING; during VALIDATING, close, proof pick and confirm are all disabled |
| PaymentModal.HandleFileChange | components/PaymentModal.tsx:33-37 | only the first chosen file is forwarded; nothing when the list is missing or empty |
| Types.FirstFile | components/UploadZone.tsx:24 | the first file exactly when the list is present and non-empty |
| Types.DefaultEnhancementsShape | types.ts:56-63 | six entries, all selected, with non-empty labels and pairwise distinct ids |
| Types.FoodTypeLabels | types.ts:1-12 | ten categories, each listed, with non-empty, pairwise distinct labels |
| Types.FoodTypeLabelInjective | types.ts:1-12 | a category is determined by its label |
| Types.AspectRatioValues | types.ts:14-19 | four proportions with pairwise distinct values, all listed |
| Types.PaymentStatusValues | types.ts:21-27 | exactly five statuses, all listed and distinct |
| UploadZone.ValidateAndProcess | components/UploadZone.tsx:35-42 | a file is forwarded, unchanged, exactly when "image" occurs in its type |
| UploadZone.ImageTypeExamples | components/UploadZone.tsx:37 | image/jpeg passes and text/csv is rejected |
| UploadZone.UploadZone.constructor | components/UploadZone.tsx:10 | the highlight starts off |
| UploadZone.UploadZone.DragOver | components/UploadZone.tsx:12-15 | dragging over turns the highlight on |
| UploadZone.UploadZone.DragLeave | components/UploadZone.tsx:17-19 | leaving turns it off |
| UploadZone.UploadZone.Drop | components/UploadZone.tsx:21-27 | a drop turns the highlight off and forwards the first file exactly when there is one and it passes the check |
| UploadZone.UploadZone.Change | components/UploadZone.tsx:29-33 | a change forwards the first chosen file exactly when there is one and it passes the check, leaving the highlight as it was |

## Left out

- The image model and the payment verifier (`ai.models.generateContent`, `validatePaymentProof`) are opaque foreign calls. Their results are parameters.
- `validatePaymentProof` is taken never to throw. On its own failure it answers `isValid: false` with a fixed reason (services/paymentService.ts:73-79), so any `Validation` value stands for its answer.
- `fileToGoogleGenAIInput` and `URL.createObjectURL` are browser I/O. The reader's result (payload or rejection) and the object URLs are parameters. The handlers' transition functions take what the service's calls delivered, where a reader rejection fails like a model error since it rejects the same promise (`PromptService.Received`); the methods take the two separately.
- Of components/ResultSection.tsx only when it covers the page and which controls it offers is modelled (`App.Uncovered`, `App.ResultShown`, `App.OfferedAsWritten`); its progress bar and download link are not. components/Hero.tsx is not part of this model, and nor are the JSX, the CSS, `alert`, `console`, scrolling (`handleStart`, the scroll in `handleReset`), the Pix-key copy and its `copied` timer.
- React's asynchronous interleaving is not modelled. Each handler runs to its end before the next event. The one stale read that changes the outcome, the generation started by a verification reading the pre-verification record, is modelled (`GenerateStep`).
- App.Enabled: offers refinement on the finished result, beside reset. As written the result screen never calls `handleRefine` (see Findings); `App.OfferedAsWritten` is that screen, and `App.RunAsWrittenKeepsInv` proves the invariant for its runs.
- PromptService.ParseDataUrl: the check `matches.length !== 3` is always false after a successful match of a two-group pattern, so it is not modelled separately.
- PromptService.GeneratePromptMentions: shows that a non-empty description appears in the prompt. It does not show that an empty description leaves no extra-instructions line; `UserInstructionsLine` states that for the line itself.
- PaymentModal.ErrorPanelShown and PaymentModal.ConfirmDisabled follow the code's truthiness: an empty message or preview string counts as missing. For the error panel, `App.ErrorPanelShownIff` shows the truthy and non-null readings agree on every reachable session. For the confirm button the truthy reading is the one modelled; the two readings differ only on an empty proof preview URL, which the model can reach because object URLs are parameters, though a browser's object URLs are never empty.

## Findings

| source | as written | input that shows it | evidently intended | confidence | as-written member | corrected member |
|---|---|---|---|---|---|---|
| App.tsx:218 | the result overlay is handed `onRefine={handleRefine}`, but `ResultSection` declares and reads only `state` and `onReset` (components/ResultSection.tsx:4-9), so `handleRefine` is never called | any finished session, such as the end of the pizza session: reset is offered, refinement is not | the finished result offers a refine control that calls `handleRefine` with the typed instruction | not executed | App.RefineNeverOffered | App.RefineOfferedOnResult |
