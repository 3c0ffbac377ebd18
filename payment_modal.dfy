/** The payment modal as the workflow sees it: when it is shown, which of its
    controls are enabled, and which chosen file it forwards as the proof. */
module PaymentModal {
  import opened Wrappers
  import opened Types

  /** The modal renders nothing while the status is IDLE or PAID. */
  predicate Rendered(status: PaymentStatus)
  {
    !(status == Idle || status == Paid)
  }

  /** The modal is on screen exactly while a payment is pending, being
      validated, or in the error status. */
  lemma RenderedStatuses(status: PaymentStatus)
    ensures Rendered(status) <==> status in {Pending, Validating, Error}
  {
  }

  /** `disabled={status === PaymentStatus.VALIDATING}` on the close button. */
  predicate CloseDisabled(status: PaymentStatus)
  {
    status == Validating
  }

  /** The proof picker ignores clicks, and its file input is disabled, while
      the proof is being validated. */
  predicate PickerDisabled(status: PaymentStatus)
  {
    status == Validating
  }

  /** `disabled={!proofPreview || status === PaymentStatus.VALIDATING}` on
      the confirm button; an empty preview string is falsy like a missing one. */
  predicate ConfirmDisabled(status: PaymentStatus, proofPreview: Option<string>)
  {
    proofPreview.None? || proofPreview.value == "" || status == Validating
  }

  /** `{errorMessage && (...)}`: the error panel; an empty message is falsy. */
  predicate ErrorPanelShown(errorMessage: Option<string>)
  {
    errorMessage.Some? && errorMessage.value != ""
  }

  /** The confirm button is enabled exactly when a non-empty preview is
      present and no validation is running; so confirming is never possible
      without a proof on screen, and neither closing nor picking another proof
      is possible while a validation runs. */
  lemma ControlsEnabled(status: PaymentStatus, proofPreview: Option<string>)
    ensures !ConfirmDisabled(status, proofPreview) <==>
      proofPreview.Some? && proofPreview.value != "" && status != Validating
    ensures status == Validating ==>
      CloseDisabled(status) && PickerDisabled(status) && ConfirmDisabled(status, proofPreview)
  {
  }

  /** `handleFileChange`: the proof forwarded to `onUploadProof`, if any. */
  function HandleFileChange(files: Option<seq<File>>): (proof: Option<File>)
    ensures proof.Some? <==> files.Some? && |files.value| > 0
    ensures proof.Some? ==> proof.value == files.value[0]
  {
    FirstFile(files)
  }
}
