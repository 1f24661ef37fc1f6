/**
 * The older purpose step: its next-button gate, the "custom" chip and the
 * free-text box, which keeps what was typed while the store receives the
 * trimmed text.
 */
module PurposeStep {
  import opened Strings
  import opened OnboardingOptions
  import opened OnboardingStore
  import opened OnboardingPage

  /** `canProceed`: a purpose is chosen, and "custom" comes with a non-blank text. */
  predicate PurposeReady(s: OnboardingState) {
    ListReady(s.purpose, s.customPurposeText)
  }

  /** The step's gate is the wizard page's gate on step 1. */
  lemma PurposeReadySpec(s: OnboardingState)
    ensures PurposeReady(s) <==> |s.purpose| > 0 && (CUSTOM in s.purpose ==> !IsBlank(s.customPurposeText))
    ensures s.currentStep == 1 ==> (PurposeReady(s) <==> CanProceed(s))
  {
  }

  /** The step's own state: the text box's content. */
  class PurposeStepView {
    var customInput: string

    /** The box starts out with the stored text. */
    constructor (store: Store)
      ensures customInput == store.customPurposeText
    {
      customInput := store.customPurposeText;
    }

    /** The effect run when the stored text changes: the box shows it. */
    method OnStoredTextChange(store: Store)
      modifies this
      ensures customInput == store.customPurposeText
    {
      customInput := store.customPurposeText;
    }

    /** The "custom" chip. */
    method HandleCustomClick(store: Store)
      modifies store
      ensures store.Snapshot() == old(store.Snapshot()).(purpose := Toggled(old(store.purpose), CUSTOM))
      ensures Consistent(old(store.purpose)) ==> Consistent(store.purpose)
    {
      store.TogglePurpose(CUSTOM);
    }

    /**
     * An edit of the text box: the box keeps the raw value, the store gets it
     * trimmed, which leaves the gate as the raw value would set it.
     */
    method HandleCustomInputChange(value: string, store: Store)
      modifies this, store
      ensures customInput == value
      ensures store.Snapshot() == old(store.Snapshot()).(customPurposeText := TrimmedOrEmpty(value))
      ensures Trim(store.customPurposeText) == store.customPurposeText
      ensures PurposeReady(store.Snapshot()) <==> ListReady(store.purpose, value)
    {
      customInput := value;
      store.SetCustomPurposeText(TrimmedOrEmpty(value));
      TrimmedTextSameGate(store.purpose, value);
    }
  }
}
