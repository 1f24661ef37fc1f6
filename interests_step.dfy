/**
 * The older interests step: its next-button gate, the chips it offers, the
 * "n selected" counter and the free-text box.
 */
module InterestsStep {
  import opened Seqs
  import opened Strings
  import opened OnboardingOptions
  import opened OnboardingStore
  import opened OnboardingPage

  /** `canProceed`: an interest is chosen, and "custom" comes with a non-blank text. */
  predicate InterestsReady(s: OnboardingState) {
    ListReady(s.interests, s.customInterestText)
  }

  /** The step's gate is the wizard page's gate on step 2. */
  lemma InterestsReadySpec(s: OnboardingState)
    ensures InterestsReady(s) <==> |s.interests| > 0 && (CUSTOM in s.interests ==> !IsBlank(s.customInterestText))
    ensures s.currentStep == 2 ==> (InterestsReady(s) <==> CanProceed(s))
  {
  }

  predicate IsOffered(c: Choice) {
    c.value != OTHER
  }

  /** The interest chips: the catalog without "other". */
  function OfferedInterests(): seq<Choice> {
    Filter(INTEREST_OPTIONS, IsOffered)
  }

  /** Eleven chips: the catalog's first eleven entries, in catalog order; "other" alone is held back. */
  lemma OfferedInterestsSpec()
    ensures OfferedInterests() == INTEREST_OPTIONS[..11]
    ensures |OfferedInterests()| == 11
    ensures forall c :: c in INTEREST_OPTIONS ==> (c in OfferedInterests() <==> c.value != OTHER)
  {
    InterestCatalog();
    var head := INTEREST_OPTIONS[..11];
    var last := INTEREST_OPTIONS[11];
    assert INTEREST_OPTIONS == head + [last];
    forall c | c in head ensures IsOffered(c) {
      var k :| 0 <= k < 11 && head[k] == c;
      assert c == INTEREST_OPTIONS[k];
    }
    FilterIdentity(head, IsOffered);
    FilterSnoc(head, last, IsOffered);
  }

  /** The counter never counts "unsure" and counts "custom"; on a list built by taps it is the list's length, or 0 with "unsure". */
  lemma InterestsCountSpec(s: OnboardingState)
    requires Consistent(s.interests)
    ensures SelectionCount(s.interests) == if UNSURE in s.interests then 0 else |s.interests|
    ensures CUSTOM in s.interests ==> SelectionCount(s.interests) > 0
  {
    SelectionCountConsistent(s.interests);
  }

  /** The step's own state: the text box's content. */
  class InterestsStepView {
    var customInput: string

    /** The box starts out with the stored text. */
    constructor (store: Store)
      ensures customInput == store.customInterestText
    {
      customInput := store.customInterestText;
    }

    /** The effect run when the stored text changes: the box shows it. */
    method OnStoredTextChange(store: Store)
      modifies this
      ensures customInput == store.customInterestText
    {
      customInput := store.customInterestText;
    }

    /** An edit of the text box: the box keeps the raw value, the store gets it trimmed. */
    method HandleCustomInputChange(value: string, store: Store)
      modifies this, store
      ensures customInput == value
      ensures store.Snapshot() == old(store.Snapshot()).(customInterestText := TrimmedOrEmpty(value))
      ensures Trim(store.customInterestText) == store.customInterestText
      ensures InterestsReady(store.Snapshot()) <==> ListReady(store.interests, value)
    {
      customInput := value;
      store.SetCustomInterestText(TrimmedOrEmpty(value));
      TrimmedTextSameGate(store.interests, value);
    }
  }
}
