/** `updateState(updates)`: the spread `{ ...prev, ...updates }` that every
    handler of the workflow goes through, and the field-by-field view of a
    session record that states what such a merge changes. */
module Session {
  import opened Wrappers
  import opened Types

  /** The fourteen fields of a session record. */
  datatype Field =
    | ImageFileField | ImagePreviewField | FoodTypeField | RatioField
    | EnhancementsField | DescriptionField | StatusField | ProofFileField
    | ProofPreviewField | ErrorMessageField | ProcessingField | CompleteField
    | PromptField | ResultUrlField

  /** The partial record names the field. */
  predicate Names(u: Update, f: Field)
  {
    match f
    case ImageFileField => u.imageFile.Some?
    case ImagePreviewField => u.imagePreviewUrl.Some?
    case FoodTypeField => u.selectedFoodType.Some?
    case RatioField => u.aspectRatio.Some?
    case EnhancementsField => u.enhancements.Some?
    case DescriptionField => u.userDescription.Some?
    case StatusField => u.paymentStatus.Some?
    case ProofFileField => u.proofFile.Some?
    case ProofPreviewField => u.proofPreviewUrl.Some?
    case ErrorMessageField => u.paymentErrorMessage.Some?
    case ProcessingField => u.isProcessing.Some?
    case CompleteField => u.isComplete.Some?
    case PromptField => u.generatedPrompt.Some?
    case ResultUrlField => u.resultImageUrl.Some?
  }

  /** Two records agree on the field. */
  predicate SameField(s: AppState, t: AppState, f: Field)
  {
    match f
    case ImageFileField => s.imageFile == t.imageFile
    case ImagePreviewField => s.imagePreviewUrl == t.imagePreviewUrl
    case FoodTypeField => s.selectedFoodType == t.selectedFoodType
    case RatioField => s.aspectRatio == t.aspectRatio
    case EnhancementsField => s.enhancements == t.enhancements
    case DescriptionField => s.userDescription == t.userDescription
    case StatusField => s.paymentStatus == t.paymentStatus
    case ProofFileField => s.proofFile == t.proofFile
    case ProofPreviewField => s.proofPreviewUrl == t.proofPreviewUrl
    case ErrorMessageField => s.paymentErrorMessage == t.paymentErrorMessage
    case ProcessingField => s.isProcessing == t.isProcessing
    case CompleteField => s.isComplete == t.isComplete
    case PromptField => s.generatedPrompt == t.generatedPrompt
    case ResultUrlField => s.resultImageUrl == t.resultImageUrl
  }

  /** The record holds, in a field the partial record names, the value the
      partial record gives it. */
  predicate Takes(s: AppState, u: Update, f: Field)
    requires Names(u, f)
  {
    match f
    case ImageFileField => s.imageFile == u.imageFile.value
    case ImagePreviewField => s.imagePreviewUrl == u.imagePreviewUrl.value
    case FoodTypeField => s.selectedFoodType == u.selectedFoodType.value
    case RatioField => s.aspectRatio == u.aspectRatio.value
    case EnhancementsField => s.enhancements == u.enhancements.value
    case DescriptionField => s.userDescription == u.userDescription.value
    case StatusField => s.paymentStatus == u.paymentStatus.value
    case ProofFileField => s.proofFile == u.proofFile.value
    case ProofPreviewField => s.proofPreviewUrl == u.proofPreviewUrl.value
    case ErrorMessageField => s.paymentErrorMessage == u.paymentErrorMessage.value
    case ProcessingField => s.isProcessing == u.isProcessing.value
    case CompleteField => s.isComplete == u.isComplete.value
    case PromptField => s.generatedPrompt == u.generatedPrompt.value
    case ResultUrlField => s.resultImageUrl == u.resultImageUrl.value
  }

  /** `{ ...prev, ...updates }` */
  function Merge(s: AppState, u: Update): AppState
  {
    AppState(
      u.imageFile.GetOr(s.imageFile),
      u.imagePreviewUrl.GetOr(s.imagePreviewUrl),
      u.selectedFoodType.GetOr(s.selectedFoodType),
      u.aspectRatio.GetOr(s.aspectRatio),
      u.enhancements.GetOr(s.enhancements),
      u.userDescription.GetOr(s.userDescription),
      u.paymentStatus.GetOr(s.paymentStatus),
      u.proofFile.GetOr(s.proofFile),
      u.proofPreviewUrl.GetOr(s.proofPreviewUrl),
      u.paymentErrorMessage.GetOr(s.paymentErrorMessage),
      u.isProcessing.GetOr(s.isProcessing),
      u.isComplete.GetOr(s.isComplete),
      u.generatedPrompt.GetOr(s.generatedPrompt),
      u.resultImageUrl.GetOr(s.resultImageUrl))
  }

  /** The fields the partial record names take its values; every other field
      keeps the value it had. */
  lemma MergeFields(s: AppState, u: Update)
    ensures forall f :: Names(u, f) ==> Takes(Merge(s, u), u, f)
    ensures forall f :: !Names(u, f) ==> SameField(Merge(s, u), s, f)
  {
    // Taking one field at a time keeps this proof cheap.
    forall f ensures Names(u, f) ==> Takes(Merge(s, u), u, f) {
      match f
      case ImageFileField =>
      case ImagePreviewField =>
      case FoodTypeField =>
      case RatioField =>
      case EnhancementsField =>
      case DescriptionField =>
      case StatusField =>
      case ProofFileField =>
      case ProofPreviewField =>
      case ErrorMessageField =>
      case ProcessingField =>
      case CompleteField =>
      case PromptField =>
      case ResultUrlField =>
    }
  }

  /** `updateState({})` changes nothing. */
  lemma MergeNoChange(s: AppState)
    ensures Merge(s, NoChange) == s
  {
  }

  /** `{ ...u, ...v }`: the later partial record wins where both name a field.
      The handlers call `updateState` several times in a row (verification
      sets VALIDATING and then PAID or PENDING); `MergeThen` below is what
      lets such a run be read as one merge of the composed record. */
  function Then(u: Update, v: Update): Update
  {
    Update(
      if v.imageFile.Some? then v.imageFile else u.imageFile,
      if v.imagePreviewUrl.Some? then v.imagePreviewUrl else u.imagePreviewUrl,
      if v.selectedFoodType.Some? then v.selectedFoodType else u.selectedFoodType,
      if v.aspectRatio.Some? then v.aspectRatio else u.aspectRatio,
      if v.enhancements.Some? then v.enhancements else u.enhancements,
      if v.userDescription.Some? then v.userDescription else u.userDescription,
      if v.paymentStatus.Some? then v.paymentStatus else u.paymentStatus,
      if v.proofFile.Some? then v.proofFile else u.proofFile,
      if v.proofPreviewUrl.Some? then v.proofPreviewUrl else u.proofPreviewUrl,
      if v.paymentErrorMessage.Some? then v.paymentErrorMessage else u.paymentErrorMessage,
      if v.isProcessing.Some? then v.isProcessing else u.isProcessing,
      if v.isComplete.Some? then v.isComplete else u.isComplete,
      if v.generatedPrompt.Some? then v.generatedPrompt else u.generatedPrompt,
      if v.resultImageUrl.Some? then v.resultImageUrl else u.resultImageUrl)
  }

  /** The composed update names what either names, with the later value. */
  lemma ThenNames(u: Update, v: Update)
    ensures forall f :: Names(Then(u, v), f) <==> Names(u, f) || Names(v, f)
    ensures forall f :: Names(v, f) ==> forall s :: Takes(s, v, f) ==> Takes(s, Then(u, v), f)
  {
  }

  /** Two updates in a row are one update with the later one winning. */
  lemma MergeThen(s: AppState, u: Update, v: Update)
    ensures Merge(Merge(s, u), v) == Merge(s, Then(u, v))
  {
  }

  /** Repeating an update changes nothing more. */
  lemma MergeIdempotent(s: AppState, u: Update)
    ensures Merge(Merge(s, u), u) == Merge(s, u)
  {
  }
}
