/** The workflow of a session: one session record, replaced field by field
    through `updateState`, and the handlers that move it from a chosen photo
    through payment to a generated (and possibly refined) image. The outcome
    of every external call (the payment verifier, the image model) is a
    parameter. */
module App {
  import opened Wrappers
  import opened Strings
  import opened Types
  import opened Session
  import opened PromptService
  import opened Configuration
  import opened PaymentModal
  import opened UploadZone

  /** `INITIAL_STATE` */
  const InitialState: AppState :=
    AppState(None, None, None, Story, DefaultEnhancements, "", Idle, None, None, None, false, false, "", None)

  /** The verifier's answer `{ isValid, reason }`; the empty reason stands for
      a missing one, both being falsy. */
  datatype Validation = Validation(isValid: bool, reason: string)

  const PaymentFailedMessage: string :=
    "Não foi possível identificar o pagamento de R$ 1,00. Tente novamente."

  // ---------------------------------------------------------------------
  // The partial records the handlers pass to `updateState`
  // ---------------------------------------------------------------------

  /** A new photo: store it and its preview, drop the result and the payment. */
  function FileSelectUpdate(file: File, previewUrl: string): Update
  {
    NoChange.(imageFile := Some(Some(file)), imagePreviewUrl := Some(Some(previewUrl)),
              isComplete := Some(false), resultImageUrl := Some(None), paymentStatus := Some(Idle),
              proofFile := Some(None), proofPreviewUrl := Some(None))
  }

  const StartPaymentUpdate: Update := NoChange.(paymentStatus := Some(Pending))

  function ProofUploadUpdate(file: File, previewUrl: string): Update
  {
    NoChange.(proofFile := Some(Some(file)), proofPreviewUrl := Some(Some(previewUrl)),
              paymentErrorMessage := Some(None))
  }

  const ValidatingUpdate: Update :=
    NoChange.(paymentStatus := Some(Validating), paymentErrorMessage := Some(None))

  const PaidUpdate: Update := NoChange.(paymentStatus := Some(Paid))

  /** `validation.reason || "Não foi possível ..."` */
  function RejectionMessage(v: Validation): string
  {
    if v.reason != "" then v.reason else PaymentFailedMessage
  }

  function RejectedUpdate(v: Validation): Update
  {
    NoChange.(paymentStatus := Some(Pending), paymentErrorMessage := Some(Some(RejectionMessage(v))))
  }

  function StartGenerationUpdate(prompt: string): Update
  {
    NoChange.(isProcessing := Some(true), generatedPrompt := Some(prompt),
              isComplete := Some(false), paymentStatus := Some(Paid))
  }

  /** The success record of both generation and refinement. */
  function FinishedUpdate(url: string): Update
  {
    NoChange.(isProcessing := Some(false), isComplete := Some(true), resultImageUrl := Some(Some(url)))
  }

  const GenerationFailedUpdate: Update := NoChange.(isProcessing := Some(false))

  const StartRefineUpdate: Update := NoChange.(isProcessing := Some(true), isComplete := Some(false))

  const RefineFailedUpdate: Update := NoChange.(isProcessing := Some(false), isComplete := Some(true))

  const CloseUpdate: Update := NoChange.(paymentStatus := Some(Idle))

  // ---------------------------------------------------------------------
  // The handlers as functions of the session
  // ---------------------------------------------------------------------

  /** `handleFileSelect(file)`; `previewUrl` is the object URL made for it. */
  function OnFileSelect(s: AppState, file: File, previewUrl: string): AppState
  {
    Merge(s, FileSelectUpdate(file, previewUrl))
  }

  /** `handleStartPayment()` */
  function OnStartPayment(s: AppState): AppState
  {
    if s.imageFile.None? then s else Merge(s, StartPaymentUpdate)
  }

  /** `handleProofUpload(file)`; the handler itself does not look at the status. */
  function OnProofUpload(s: AppState, file: File, previewUrl: string): AppState
  {
    Merge(s, ProofUploadUpdate(file, previewUrl))
  }

  /** `handleGenerate(skipPaymentCheck)` run from the render whose session was
      `closure`, on the current session `s`: the guards, the prompt and the
      model call read `closure`, the updates go onto `s`. `reply` is what
      the service's calls delivered, a photo the file reader could not read
      failing like a model call (see `Received`). */
  function GenerateStep(closure: AppState, s: AppState, skip: bool, reply: Result<Response, string>): AppState
  {
    if closure.imageFile.None? then s
    else if !skip && closure.paymentStatus != Paid then s
    else
      var started := Merge(s, StartGenerationUpdate(GeneratePrompt(closure)));
      match GenerateOutcome(closure, reply)
      case Ok(url) => Merge(started, FinishedUpdate(url))
      case Err(_) => Merge(started, GenerationFailedUpdate)
  }

  /** `handleGenerate(skipPaymentCheck)` on the session it was rendered with. */
  function OnGenerate(s: AppState, skip: bool, reply: Result<Response, string>): AppState
  {
    GenerateStep(s, s, skip, reply)
  }

  /** `handleVerifyPayment()`: `v` is the verifier's answer for the proof,
      `reply` the image model's reply to the generation it starts. */
  function OnVerifyPayment(s: AppState, v: Validation, reply: Result<Response, string>): AppState
  {
    if s.proofFile.None? then s
    else
      var validating := Merge(s, ValidatingUpdate);
      if v.isValid then GenerateStep(s, Merge(validating, PaidUpdate), true, reply)
      else Merge(validating, RejectedUpdate(v))
  }

  /** `handleRefine(instruction)`; the instruction only shapes the request. */
  function OnRefine(s: AppState, reply: Result<Response, string>): AppState
  {
    if s.resultImageUrl.None? || s.resultImageUrl.value == "" then s
    else
      var started := Merge(s, StartRefineUpdate);
      match RefineOutcome(s.resultImageUrl.value, reply)
      case Ok(url) => Merge(started, FinishedUpdate(url))
      case Err(_) => Merge(started, RefineFailedUpdate)
  }

  /** The modal's `onClose`. */
  function OnClose(s: AppState): AppState
  {
    Merge(s, CloseUpdate)
  }

  // ---------------------------------------------------------------------
  // What each handler does
  // ---------------------------------------------------------------------

  /** A new photo resets the result and the payment (status IDLE, no proof)
      and keeps the selections, the payment error message, the processing
      flag and the last prompt. */
  lemma FileSelectEffect(s: AppState, file: File, previewUrl: string)
    ensures OnFileSelect(s, file, previewUrl) ==
      s.(imageFile := Some(file), imagePreviewUrl := Some(previewUrl), isComplete := false,
         resultImageUrl := None, paymentStatus := Idle, proofFile := None, proofPreviewUrl := None)
  {
  }

  /** Starting the payment needs a photo and then only moves the status to PENDING. */
  lemma StartPaymentEffect(s: AppState)
    ensures s.imageFile.None? ==> OnStartPayment(s) == s
    ensures s.imageFile.Some? ==> OnStartPayment(s) == s.(paymentStatus := Pending)
  {
  }

  /** Uploading a proof stores it with its preview and clears the error message. */
  lemma ProofUploadEffect(s: AppState, file: File, previewUrl: string)
    ensures OnProofUpload(s, file, previewUrl) ==
      s.(proofFile := Some(file), proofPreviewUrl := Some(previewUrl), paymentErrorMessage := None)
  {
  }

  /** Verification needs a proof. A rejection goes back to PENDING with the
      verifier's reason (or the fixed message when it gave none) and keeps the
      proof; only an acceptance sets PAID and then runs the generation on the
      session it was started from, skipping the payment check. */
  lemma VerifyPaymentEffect(s: AppState, v: Validation, reply: Result<Response, string>)
    ensures s.proofFile.None? ==> OnVerifyPayment(s, v, reply) == s
    ensures s.proofFile.Some? && !v.isValid ==>
      OnVerifyPayment(s, v, reply) ==
        s.(paymentStatus := Pending, paymentErrorMessage := Some(if v.reason != "" then v.reason else PaymentFailedMessage))
    ensures s.proofFile.Some? && v.isValid ==>
      OnVerifyPayment(s, v, reply) ==
        GenerateStep(s, s.(paymentStatus := Paid, paymentErrorMessage := None), true, reply)
  {
  }

  /** Generation needs a photo and either PAID or the skip flag; otherwise it
      changes nothing. It stores the prompt of the session's selections; on
      success it completes with the new URL, on failure it only stops
      processing, leaving the session incomplete and the old URL in place. */
  lemma GenerateEffect(s: AppState, skip: bool, reply: Result<Response, string>)
    ensures s.imageFile.None? || (!skip && s.paymentStatus != Paid) ==> OnGenerate(s, skip, reply) == s
    ensures s.imageFile.Some? && (skip || s.paymentStatus == Paid) ==>
      match ExtractImage(reply, NoImageReturnedMessage)
      case Ok(url) =>
        OnGenerate(s, skip, reply) ==
          s.(isProcessing := false, isComplete := true, resultImageUrl := Some(url),
             generatedPrompt := GeneratePrompt(s), paymentStatus := Paid)
      case Err(_) =>
        OnGenerate(s, skip, reply) ==
          s.(isProcessing := false, isComplete := false, generatedPrompt := GeneratePrompt(s), paymentStatus := Paid)
  {
  }

  /** Refinement needs a non-empty result URL; on success it completes with the new
      URL, on failure it keeps the previous URL and shows it again. */
  lemma RefineEffect(s: AppState, reply: Result<Response, string>)
    ensures s.resultImageUrl.None? || s.resultImageUrl.value == "" ==> OnRefine(s, reply) == s
    ensures s.resultImageUrl.Some? && s.resultImageUrl.value != "" ==>
      match RefineOutcome(s.resultImageUrl.value, reply)
      case Ok(url) =>
        OnRefine(s, reply) == s.(isProcessing := false, isComplete := true, resultImageUrl := Some(url))
      case Err(_) =>
        OnRefine(s, reply) == s.(isProcessing := false, isComplete := true)
  {
  }

  /** Closing the modal only moves the status to IDLE. */
  lemma CloseEffect(s: AppState)
    ensures OnClose(s) == s.(paymentStatus := Idle)
  {
  }

  // ---------------------------------------------------------------------
  // Events, the UI guards and the invariant they keep
  // ---------------------------------------------------------------------

  /** Everything a user can do, with the outcomes of the external calls it
      triggers. */
  datatype Event =
    | SelectImage(file: File, previewUrl: string)
    | ChooseFoodType(foodType: FoodType)
    | ToggleEnhancement(id: string)
    | ChooseRatio(ratio: AspectRatio)
    | Describe(description: string)
    | StartPayment
    | UploadProof(proof: File, proofPreviewUrl: string)
    | ConfirmPayment(validation: Validation, reply: Result<Response, string>)
    | ClosePayment
    | Refine(instruction: string, refineReply: Result<Response, string>)
    | Reset

  /** The session after the event's handler has run to the end. */
  function Apply(s: AppState, e: Event): AppState
  {
    match e
    case SelectImage(file, url) => OnFileSelect(s, file, url)
    case ChooseFoodType(f) => Merge(s, FoodTypeChange(f))
    case ToggleEnhancement(id) => Merge(s, EnhancementToggle(s, id))
    case ChooseRatio(r) => Merge(s, RatioChange(r))
    case Describe(d) => Merge(s, DescriptionChange(d))
    case StartPayment => OnStartPayment(s)
    case UploadProof(file, url) => OnProofUpload(s, file, url)
    case ConfirmPayment(v, reply) => OnVerifyPayment(s, v, reply)
    case ClosePayment => OnClose(s)
    case Refine(_, reply) => OnRefine(s, reply)
    case Reset => InitialState
  }

  /** `state.imagePreviewUrl && (...)`: the form and its proceed button are
      rendered only under a truthy, so non-empty, preview URL. */
  predicate Previewed(s: AppState)
  {
    s.imagePreviewUrl.Some? && s.imagePreviewUrl.value != ""
  }

  /** Neither full-screen overlay is up: the payment modal, rendered for the
      statuses `Rendered` names, and the result overlay, rendered while
      processing or complete, each cover the page beneath them. */
  predicate Uncovered(s: AppState)
  {
    !Rendered(s.paymentStatus) && !s.isProcessing && !s.isComplete
  }

  /** The result overlay shows the finished result, with its reset buttons,
      only when the session is complete and not processing. */
  predicate ResultShown(s: AppState)
  {
    s.isComplete && !s.isProcessing
  }

  /** The screen offers the event: the upload zone and the form only while no
      overlay covers them, the upload zone only a file its MIME check passes, the form and its proceed button only once a photo
      is previewed, the proceed button only when enabled, the modal's
      controls only while it is rendered and the control is enabled, and
      reset and refinement only on the finished result. Refinement is offered
      as evidently intended; the result screen as written never offers it
      (see `OfferedAsWritten`). */
  predicate Enabled(s: AppState, e: Event)
  {
    match e
    case SelectImage(file, _) => Uncovered(s) && IsImageType(file.mimeType)
    case ChooseFoodType(_) => Uncovered(s) && Previewed(s)
    case ToggleEnhancement(_) => Uncovered(s) && Previewed(s)
    case ChooseRatio(_) => Uncovered(s) && Previewed(s)
    case Describe(_) => Uncovered(s) && Previewed(s)
    case StartPayment => Uncovered(s) && Previewed(s) && !SubmitDisabled(s)
    case UploadProof(_, _) => Rendered(s.paymentStatus) && !PickerDisabled(s.paymentStatus)
    case ConfirmPayment(_, _) =>
      Rendered(s.paymentStatus) && !ConfirmDisabled(s.paymentStatus, s.proofPreviewUrl)
    case ClosePayment => Rendered(s.paymentStatus) && !CloseDisabled(s.paymentStatus)
    case Refine(_, _) => ResultShown(s)
    case Reset => ResultShown(s)
  }

  /** The screen as written: the result overlay takes only the session and
      the reset callback, so the refine handler it is handed is never called. */
  predicate OfferedAsWritten(s: AppState, e: Event)
  {
    if e.Refine? then false else Enabled(s, e)
  }

  /** What holds between handlers: the ERROR status is never reached, nothing
      is processing (so never processing and complete at once), a proof and
      its preview come and go together, as do the photo and its preview, a
      completed session has a result, without a photo there is no payment in
      progress, a stored payment error message is never empty, and the
      catalogue ids stay distinct. */
  ghost predicate Inv(s: AppState)
  {
    && s.paymentStatus != Error
    && !s.isProcessing
    && (s.proofFile.Some? <==> s.proofPreviewUrl.Some?)
    && (s.imageFile.Some? <==> s.imagePreviewUrl.Some?)
    && (s.isComplete ==> s.resultImageUrl.Some?)
    && (s.imageFile.None? ==> s.paymentStatus == Idle && s.proofFile.None?)
    && (s.paymentErrorMessage.Some? ==> s.paymentErrorMessage.value != "")
    && DistinctIds(s.enhancements)
  }

  lemma InitialInv()
    ensures Inv(InitialState)
  {
    // The catalogue's shape gives its distinct ids without unfolding `Toggle`.
    DefaultEnhancementsShape();
  }

  /** A generation started with a photo ends not processing, PAID, and
      complete exactly when it produced a URL. */
  lemma GenerateStepEnds(closure: AppState, s: AppState, reply: Result<Response, string>)
    requires closure.imageFile.Some?
    ensures var t := GenerateStep(closure, s, true, reply);
      && !t.isProcessing && t.paymentStatus == Paid
      && (t.isComplete ==> t.resultImageUrl.Some?)
      && t.imageFile == s.imageFile && t.imagePreviewUrl == s.imagePreviewUrl
      && t.proofFile == s.proofFile && t.proofPreviewUrl == s.proofPreviewUrl
      && t.enhancements == s.enhancements
  {
  }

  /** A verification keeps the invariant, whatever the verifier and the
      model answer. */
  lemma VerifyPaymentKeepsInv(s: AppState, v: Validation, reply: Result<Response, string>)
    requires Inv(s)
    ensures Inv(OnVerifyPayment(s, v, reply))
  {
    if s.proofFile.Some? && v.isValid {
      // The generation's summary spares the solver the prompt it stores.
      GenerateStepEnds(s, Merge(Merge(s, ValidatingUpdate), PaidUpdate), reply);
    }
  }

  /** A refinement keeps the invariant: on failure the previous URL stays. */
  lemma RefineKeepsInv(s: AppState, reply: Result<Response, string>)
    requires Inv(s)
    ensures Inv(OnRefine(s, reply))
  {
  }

  /** Every handler the screen offers keeps the invariant. */
  lemma StepKeepsInv(s: AppState, e: Event)
    requires Inv(s) && Enabled(s, e)
    ensures Inv(Apply(s, e))
  {
    match e
    case SelectImage(file, url) =>
    case ChooseFoodType(f) =>
    case ToggleEnhancement(id) =>
      ToggleKeepsIds(s.enhancements, id);
    case ChooseRatio(r) =>
    case Describe(d) =>
    case StartPayment =>
    case UploadProof(file, url) =>
    case ConfirmPayment(v, reply) =>
      VerifyPaymentKeepsInv(s, v, reply);
    case ClosePayment =>
    case Refine(_, reply) =>
      RefineKeepsInv(s, reply);
    case Reset =>
      InitialInv();
  }

  /** In every session the handlers can reach, the modal's error panel is
      shown exactly when an error message is stored: the handlers never store
      an empty one. */
  lemma ErrorPanelShownIff(s: AppState)
    requires Inv(s)
    ensures ErrorPanelShown(s.paymentErrorMessage) <==> s.paymentErrorMessage.Some?
  {
  }

  /** The session after a sequence of events. */
  function Run(s: AppState, events: seq<Event>): AppState
    decreases |events|
  {
    if |events| == 0 then s else Run(Apply(s, events[0]), events[1..])
  }

  /** Each event of the sequence is offered when it happens. */
  predicate AllEnabled(s: AppState, events: seq<Event>)
    decreases |events|
  {
    |events| == 0 || (Enabled(s, events[0]) && AllEnabled(Apply(s, events[0]), events[1..]))
  }

  /** Any sequence of offered events keeps the invariant; in particular every
      session reachable from the initial one satisfies it. */
  lemma {:induction false} RunKeepsInv(s: AppState, events: seq<Event>)
    requires Inv(s) && AllEnabled(s, events)
    ensures Inv(Run(s, events))
    decreases |events|
  {
    if |events| > 0 {
      StepKeepsInv(s, events[0]);
      RunKeepsInv(Apply(s, events[0]), events[1..]);
    }
  }

  /** As written, a finished result is on screen with its reset buttons, yet
      no control leads to the refine handler. */
  lemma RefineNeverOffered(s: AppState, instruction: string, reply: Result<Response, string>)
    requires Inv(s) && s.isComplete
    ensures s.resultImageUrl.Some? && OfferedAsWritten(s, Reset)
    ensures !OfferedAsWritten(s, Refine(instruction, reply))
  {
  }

  /** As intended, refinement is offered exactly where reset is, on the
      finished result, and then there is a result URL to refine. */
  lemma RefineOfferedOnResult(s: AppState, instruction: string, reply: Result<Response, string>)
    requires Inv(s)
    ensures Enabled(s, Refine(instruction, reply)) <==> s.isComplete
    ensures Enabled(s, Refine(instruction, reply)) <==> Enabled(s, Reset)
    ensures Enabled(s, Refine(instruction, reply)) ==> s.resultImageUrl.Some?
  {
  }

  /** Each event of the sequence is offered by the screen as written. */
  predicate AllOfferedAsWritten(s: AppState, events: seq<Event>)
    decreases |events|
  {
    |events| == 0 || (OfferedAsWritten(s, events[0]) && AllOfferedAsWritten(Apply(s, events[0]), events[1..]))
  }

  /** A run the screen as written allows is one the intended screen allows. */
  lemma {:induction false} WrittenRunsEnabled(s: AppState, events: seq<Event>)
    requires AllOfferedAsWritten(s, events)
    ensures AllEnabled(s, events)
    decreases |events|
  {
    if |events| > 0 {
      WrittenRunsEnabled(Apply(s, events[0]), events[1..]);
    }
  }

  /** Any run of the screen as written keeps the invariant. */
  lemma RunAsWrittenKeepsInv(s: AppState, events: seq<Event>)
    requires Inv(s) && AllOfferedAsWritten(s, events)
    ensures Inv(Run(s, events))
  {
    WrittenRunsEnabled(s, events);
    RunKeepsInv(s, events);
  }

  /** The statuses a verification can leave behind. */
  lemma VerifyPaymentStatus(s: AppState, v: Validation, reply: Result<Response, string>)
    ensures OnVerifyPayment(s, v, reply).paymentStatus == s.paymentStatus
         || OnVerifyPayment(s, v, reply).paymentStatus == Pending
         || OnVerifyPayment(s, v, reply).paymentStatus == Paid
  {
  }

  /** No handler ever assigns the ERROR status. */
  lemma NoHandlerSetsError(s: AppState, e: Event)
    requires s.paymentStatus != Error
    ensures Apply(s, e).paymentStatus != Error
  {
    match e
    case ConfirmPayment(v, reply) =>
      VerifyPaymentStatus(s, v, reply);
    case Refine(_, reply) =>
      assert OnRefine(s, reply).paymentStatus == s.paymentStatus;
    case _ =>
  }

  /** PAID is reached only by a verification that accepted the proof, and
      only when a proof was there. */
  lemma PaidOnlyByAcceptedProof(s: AppState, e: Event)
    requires s.paymentStatus != Paid && Apply(s, e).paymentStatus == Paid
    ensures e.ConfirmPayment? && e.validation.isValid && s.proofFile.Some?
  {
  }

  /** A generation without the skip flag refuses to run unless the session
      is already PAID; the skip flag is set only on the accepted branch of the
      verification. */
  lemma GenerateNeedsPayment(s: AppState, reply: Result<Response, string>)
    requires s.paymentStatus != Paid
    ensures OnGenerate(s, false, reply) == s
  {
  }

  /** Under the invariant, the modal's guards are what make its handlers act:
      an offered confirm always has a proof to verify, an offered proof pick
      happens while the payment is PENDING with a photo chosen, and an offered
      proceed button always opens the modal. */
  lemma GuardsCloseTheMachine(s: AppState, e: Event)
    requires Inv(s) && Enabled(s, e)
    ensures e.ConfirmPayment? ==> s.proofFile.Some? && s.paymentStatus == Pending && s.imageFile.Some?
    ensures e.UploadProof? ==> s.paymentStatus == Pending && s.imageFile.Some?
    ensures e.StartPayment? ==> Rendered(Apply(s, e).paymentStatus) && Apply(s, e).paymentStatus == Pending
  {
  }

  /** Reset gives back the initial session from anywhere, and resetting twice
      is resetting once. */
  lemma ResetIsInitial(s: AppState)
    ensures Apply(s, Reset) == InitialState
    ensures Apply(Apply(s, Reset), Reset) == Apply(s, Reset)
    ensures InitialState.aspectRatio == Story && InitialState.paymentStatus == Idle
    ensures InitialState.enhancements == DefaultEnhancements
  {
  }

  // ---------------------------------------------------------------------
  // An end-to-end session
  // ---------------------------------------------------------------------

  /** An accepted verification of a session with a photo, a proof, a pizza,
      a square frame and the default catalogue ends complete with the
      model's image, PAID, with a prompt that names "Pizza", "1:1" and all
      six default enhancements. */
  lemma PizzaVerified(s: AppState, reply: Result<Response, string>, url: string)
    requires s.imageFile.Some? && s.proofFile.Some?
    requires s.selectedFoodType == Some(Pizza) && s.aspectRatio == Square
    requires s.enhancements == DefaultEnhancements
    requires ExtractImage(reply, NoImageReturnedMessage) == Ok(url)
    ensures var t := OnVerifyPayment(s, Validation(true, ""), reply);
      && t.isComplete && !t.isProcessing && t.resultImageUrl == Some(url) && t.paymentStatus == Paid
      && Contains(t.generatedPrompt, "Pizza") && Contains(t.generatedPrompt, "1:1")
      && forall i :: 0 <= i < 6 ==> Contains(t.generatedPrompt, DefaultEnhancements[i].labelText)
  {
    var t := OnVerifyPayment(s, Validation(true, ""), reply);
    assert t.generatedPrompt == GeneratePrompt(s);
    PizzaPromptScenario(s);
  }

  /** The screen offers the six steps of a first-attempt pizza session one
      after the other, for a photo the upload zone accepts. */
  lemma PizzaOffered(photo: File, photoUrl: string, proof: File, proofUrl: string,
                     reply: Result<Response, string>)
    requires IsImageType(photo.mimeType) && photoUrl != "" && proofUrl != ""
    ensures var s1 := OnFileSelect(InitialState, photo, photoUrl);
      var s2 := Merge(s1, FoodTypeChange(Pizza));
      var s3 := Merge(s2, RatioChange(Square));
      var s4 := OnStartPayment(s3);
      var s5 := OnProofUpload(s4, proof, proofUrl);
      && Enabled(InitialState, SelectImage(photo, photoUrl)) && Enabled(s1, ChooseFoodType(Pizza))
      && Enabled(s2, ChooseRatio(Square)) && Enabled(s3, StartPayment)
      && Enabled(s4, UploadProof(proof, proofUrl)) && Enabled(s5, ConfirmPayment(Validation(true, ""), reply))
  {
  }

  /** A pizza photo of an image type in a square frame, paid for at the first attempt, as
      the six handlers the screen offers one after the other: each is offered
      when it happens, and the session ends complete with the model's image,
      PAID, and its prompt names "Pizza", "1:1" and all six default
      enhancements. */
  lemma PizzaSession(photo: File, photoUrl: string, proof: File, proofUrl: string,
                     reply: Result<Response, string>, url: string)
    requires IsImageType(photo.mimeType) && photoUrl != "" && proofUrl != ""
    requires ExtractImage(reply, NoImageReturnedMessage) == Ok(url)
    ensures var s1 := OnFileSelect(InitialState, photo, photoUrl);
      var s2 := Merge(s1, FoodTypeChange(Pizza));
      var s3 := Merge(s2, RatioChange(Square));
      var s4 := OnStartPayment(s3);
      var s5 := OnProofUpload(s4, proof, proofUrl);
      var t := OnVerifyPayment(s5, Validation(true, ""), reply);
      && Enabled(InitialState, SelectImage(photo, photoUrl)) && Enabled(s1, ChooseFoodType(Pizza))
      && Enabled(s2, ChooseRatio(Square)) && Enabled(s3, StartPayment)
      && Enabled(s4, UploadProof(proof, proofUrl)) && Enabled(s5, ConfirmPayment(Validation(true, ""), reply))
      && t.isComplete && !t.isProcessing && t.resultImageUrl == Some(url) && t.paymentStatus == Paid
      && Contains(t.generatedPrompt, "Pizza") && Contains(t.generatedPrompt, "1:1")
      && forall i :: 0 <= i < 6 ==> Contains(t.generatedPrompt, DefaultEnhancements[i].labelText)
  {
    var s1 := OnFileSelect(InitialState, photo, photoUrl);
    var s2 := Merge(s1, FoodTypeChange(Pizza));
    var s3 := Merge(s2, RatioChange(Square));
    var s4 := OnStartPayment(s3);
    var s5 := OnProofUpload(s4, proof, proofUrl);
    PizzaOffered(photo, photoUrl, proof, proofUrl, reply);
    PizzaVerified(s5, reply, url);
  }

  // ---------------------------------------------------------------------
  // The component: one session record and its handlers
  // ---------------------------------------------------------------------

  /** The `App` component: its state hook and the handlers it passes down.
      Every handler is proved to leave the record its function above
      computes, so the lemmas about the functions hold of the component. */
  class App {
    var state: AppState

    /** `useState<AppState>(INITIAL_STATE)` */
    constructor()
      ensures state == InitialState
    {
      state := InitialState;
    }

    /** `updateState(updates)` */
    method UpdateState(u: Update)
      modifies this
      ensures state == Merge(old(state), u)
    {
      state := Merge(state, u);
    }

    method HandleFileSelect(file: File, previewUrl: string)
      modifies this
      ensures state == OnFileSelect(old(state), file, previewUrl)
    {
      UpdateState(FileSelectUpdate(file, previewUrl));
    }

    method HandleStartPayment()
      modifies this
      ensures state == OnStartPayment(old(state))
    {
      if state.imageFile.None? {
        return;
      }
      UpdateState(StartPaymentUpdate);
    }

    method HandleProofUpload(file: File, previewUrl: string)
      modifies this
      ensures state == OnProofUpload(old(state), file, previewUrl)
    {
      UpdateState(ProofUploadUpdate(file, previewUrl));
    }

    /** `handleGenerate` as run from the render whose session was `closure`:
        `encoded` is what the file reader produced from the photo and `reply`
        the model's reply; `request` is the model call made, `None` when the guards
        stop the handler first. */
    method Generate(closure: AppState, skip: bool, encoded: Result<string, string>, reply: Result<Response, string>)
      returns (request: Option<Request>)
      modifies this
      ensures state == GenerateStep(closure, old(state), skip, Received(encoded, reply))
      ensures request.Some? <==> closure.imageFile.Some? && (skip || closure.paymentStatus == Paid) && encoded.Ok?
      ensures request.Some? ==>
        request.value == Request(ModelName, closure.imageFile.value.mimeType, encoded.value, GeneratePrompt(closure))
    {
      if closure.imageFile.None? {
        return None;
      }
      if !skip && closure.paymentStatus != Paid {
        return None;
      }
      var prompt := GeneratePrompt(closure);
      UpdateState(StartGenerationUpdate(prompt));
      var r;
      request, r := GenerateEnhancedImage(closure, encoded, reply);
      match r
      case Ok(url) =>
        UpdateState(FinishedUpdate(url));
      case Err(_) =>
        UpdateState(GenerationFailedUpdate);
    }

    /** `handleGenerate(skipPaymentCheck)` */
    method HandleGenerate(skip: bool, encoded: Result<string, string>, reply: Result<Response, string>)
      returns (request: Option<Request>)
      modifies this
      ensures state == OnGenerate(old(state), skip, Received(encoded, reply))
      ensures request.Some? <==>
        old(state).imageFile.Some? && (skip || old(state).paymentStatus == Paid) && encoded.Ok?
    {
      request := Generate(state, skip, encoded, reply);
    }

    /** `handleVerifyPayment()`: `v` is the verifier's answer; an accepted
        proof runs the generation on the session the handler was rendered
        with. */
    method HandleVerifyPayment(v: Validation, encoded: Result<string, string>, reply: Result<Response, string>)
      returns (request: Option<Request>)
      modifies this
      ensures state == OnVerifyPayment(old(state), v, Received(encoded, reply))
      ensures request.Some? <==>
        old(state).proofFile.Some? && v.isValid && old(state).imageFile.Some? && encoded.Ok?
      ensures request.Some? ==>
        request.value == Request(ModelName, old(state).imageFile.value.mimeType, encoded.value, GeneratePrompt(old(state)))
    {
      if state.proofFile.None? {
        return None;
      }
      var closure := state;
      UpdateState(ValidatingUpdate);
      if v.isValid {
        UpdateState(PaidUpdate);
        request := Generate(closure, true, encoded, reply);
      } else {
        UpdateState(RejectedUpdate(v));
        request := None;
      }
    }

    /** `handleRefine(instruction)` */
    method HandleRefine(instruction: string, reply: Result<Response, string>)
      returns (request: Option<Request>)
      modifies this
      ensures state == OnRefine(old(state), reply)
      ensures request.Some? ==>
        old(state).resultImageUrl.Some? &&
        DataUrlMatch(old(state).resultImageUrl.value, request.value.imageMime, request.value.imageData) &&
        request.value.model == ModelName && request.value.text == EditPrompt(instruction)
      ensures old(state).resultImageUrl.Some? && ParseDataUrl(old(state).resultImageUrl.value).Some? ==>
        request.Some?
    {
      if state.resultImageUrl.None? || state.resultImageUrl.value == "" {
        return None;
      }
      var url := state.resultImageUrl.value;
      UpdateState(StartRefineUpdate);
      var r;
      request, r := RefineImage(url, instruction, reply);
      match r
      case Ok(newUrl) =>
        UpdateState(FinishedUpdate(newUrl));
      case Err(_) =>
        UpdateState(RefineFailedUpdate);
    }

    /** The modal's `onClose`. */
    method HandleClose()
      modifies this
      ensures state == OnClose(old(state))
    {
      UpdateState(CloseUpdate);
    }

    /** `handleReset()` */
    method HandleReset()
      modifies this
      ensures state == InitialState
    {
      state := InitialState;
    }

    /** The form's handlers, which hand their partial records to `updateState`. */
    method HandleFoodTypeChange(f: FoodType)
      modifies this
      ensures state == old(state).(selectedFoodType := Some(f))
    {
      FoodTypeChangeOneField(state, f);
      UpdateState(FoodTypeChange(f));
    }

    method HandleEnhancementToggle(id: string)
      modifies this
      ensures state == old(state).(enhancements := Toggle(old(state).enhancements, id))
    {
      EnhancementToggleOneField(state, id);
      UpdateState(EnhancementToggle(state, id));
    }

    method HandleRatioChange(r: AspectRatio)
      modifies this
      ensures state == old(state).(aspectRatio := r)
    {
      RatioChangeOneField(state, r);
      UpdateState(RatioChange(r));
    }

    method HandleDescriptionChange(d: string)
      modifies this
      ensures state == old(state).(userDescription := d)
    {
      DescriptionChangeOneField(state, d);
      UpdateState(DescriptionChange(d));
    }
  }
}
