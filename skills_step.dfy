/**
 * The older skills step: the skills it offers for the chosen interests, its
 * paging, its next-button gate, the "n selected" counter and the free-text box.
 * Unlike the wizard page it also sets "other" aside when choosing the skill
 * lists, and its counter is not reset when the interests change.
 */
module SkillsStep {
  import opened Seqs
  import opened Wrappers
  import opened Strings
  import opened OnboardingOptions
  import opened OnboardingStore
  import Page = OnboardingPage

  const SKILLS_PER_PAGE: nat := 20

  /** An interest whose skill list the step offers: neither reserved answer, nor "other". */
  predicate IsValidInterest(i: string) {
    IsConcrete(i) && i != OTHER
  }

  function ValidInterests(interests: seq<string>): (r: seq<string>)
    ensures forall i :: i in r <==> i in interests && i != UNSURE && i != CUSTOM && i != OTHER
  {
    Filter(interests, IsValidInterest)
  }

  /** The skill lists to offer: the whole catalog without a valid interest, else the valid interests' lists in order. */
  function CandidateSkills(interests: seq<string>): seq<Choice> {
    var valid := ValidInterests(interests);
    if valid == [] then AllSkills() else Page.FlatSkills(valid)
  }

  /** `uniqueSkills`: the candidates without repeated values, the first entry per value kept. */
  function UniqueSkills(interests: seq<string>): seq<Choice> {
    Page.DedupeByValue(CandidateSkills(interests))
  }

  /**
   * The offered skills repeat no value, keep the candidates' order, are no
   * more than the candidates, offer every candidate value, and each is the
   * first candidate entry of its value.
   */
  lemma UniqueSkillsSpec(interests: seq<string>)
    ensures var r := UniqueSkills(interests); var cand := CandidateSkills(interests);
      DistinctValues(r) && Subseq(r, cand) && |r| <= |cand| &&
      (forall v :: Page.HasValue(r, v) <==> Page.HasValue(cand, v)) &&
      (forall k :: 0 <= k < |r| ==> FindChoice(cand, r[k].value) == Some(r[k]))
  {
    var cand := CandidateSkills(interests);
    Page.DedupeDistinct(cand);
    Page.DedupeSubseq(cand);
    SubseqLength(Page.DedupeByValue(cand), cand);
    Page.DedupeHasValue(cand);
    Page.DedupeKeepsFirst(cand);
  }

  /** Without a valid interest the whole catalog is offered, unchanged, since no value repeats in it. */
  lemma UniqueSkillsFallback(interests: seq<string>)
    requires ValidInterests(interests) == []
    ensures UniqueSkills(interests) == AllSkills()
  {
    AllSkillsDistinct();
    Page.DedupeIdentity(AllSkills());
  }

  /** With a valid interest, every offered skill belongs to a chosen valid interest. */
  lemma UniqueSkillsSelected(interests: seq<string>)
    requires ValidInterests(interests) != []
    ensures forall c :: c in UniqueSkills(interests) ==> exists i :: i in interests && IsValidInterest(i) && c in SkillsOf(i)
  {
  }

  /**
   * Where the step and the wizard page part: with "other" as the only
   * interest the page offers the "other" skills, the step the whole catalog.
   */
  lemma OtherOnlyDiffersFromPage()
    ensures Page.AvailableSkills([OTHER]) == OTHER_SKILLS
    ensures UniqueSkills([OTHER]) == AllSkills()
  {
    assert [OTHER] == [] + [OTHER];
    FilterSnoc([], OTHER, IsConcrete);
    FilterSnoc([], OTHER, IsValidInterest);
    assert ConcreteOf([OTHER]) == [OTHER];
    assert [OTHER][..0] == [];
    InterestCatalog();
    SkillsOfInterest(11);
    assert Page.FlatSkills([OTHER]) == OTHER_SKILLS;
    OtherGroup();
    Page.DedupeIdentity(OTHER_SKILLS);
    UniqueSkillsFallback([OTHER]);
  }

  /** The shown skills are the first `count` offered ones, and "more" shows exactly when some are left. */
  lemma SkillsPaging(interests: seq<string>, count: nat)
    ensures var r := UniqueSkills(interests); var shown := Page.VisibleSkills(r, count);
      |shown| == Min(count, |r|) && shown == r[..|shown|] && DistinctValues(shown) &&
      (Page.HasMoreSkills(r, count) <==> |r| > count)
  {
    UniqueSkillsSpec(interests);
  }

  /** `canProceed`: a skill is chosen, and "custom" comes with a non-blank text. */
  predicate SkillsReady(s: OnboardingState) {
    Page.ListReady(s.skills, s.customSkillText)
  }

  /** The step's gate is the wizard page's gate on step 3. */
  lemma SkillsReadySpec(s: OnboardingState)
    ensures SkillsReady(s) <==> |s.skills| > 0 && (CUSTOM in s.skills ==> !IsBlank(s.customSkillText))
    ensures s.currentStep == 3 ==> (SkillsReady(s) <==> Page.CanProceed(s))
  {
  }

  /** The counter never counts "unsure" and counts "custom"; on a list built by taps it is the list's length, or 0 with "unsure". */
  lemma SkillsCountSpec(s: OnboardingState)
    requires Consistent(s.skills)
    ensures SelectionCount(s.skills) == if UNSURE in s.skills then 0 else |s.skills|
    ensures CUSTOM in s.skills ==> SelectionCount(s.skills) > 0
  {
    SelectionCountConsistent(s.skills);
  }

  /** The step's own state: the text box's content and the number of skills shown. */
  class SkillsStepView {
    var customInput: string
    var visibleCount: nat

    /** The counter only ever holds whole pages. */
    predicate Valid()
      reads this
    {
      SKILLS_PER_PAGE <= visibleCount && visibleCount % SKILLS_PER_PAGE == 0
    }

    constructor (store: Store)
      ensures Valid()
      ensures customInput == store.customSkillText && visibleCount == SKILLS_PER_PAGE
    {
      customInput := store.customSkillText;
      visibleCount := SKILLS_PER_PAGE;
    }

    /** The "more" button: one page more. */
    method HandleShowMore()
      requires Valid()
      modifies this
      ensures Valid()
      ensures visibleCount == old(visibleCount) + SKILLS_PER_PAGE && customInput == old(customInput)
    {
      visibleCount := visibleCount + SKILLS_PER_PAGE;
    }

    /** The effect run when the stored text changes: the box shows it. */
    method OnStoredTextChange(store: Store)
      modifies this
      ensures customInput == store.customSkillText && visibleCount == old(visibleCount)
    {
      customInput := store.customSkillText;
    }

    /** An edit of the text box: the box keeps the raw value, the store gets it trimmed. */
    method HandleCustomInputChange(value: string, store: Store)
      modifies this, store
      ensures customInput == value && visibleCount == old(visibleCount)
      ensures store.Snapshot() == old(store.Snapshot()).(customSkillText := TrimmedOrEmpty(value))
      ensures Trim(store.customSkillText) == store.customSkillText
      ensures SkillsReady(store.Snapshot()) <==> Page.ListReady(store.skills, value)
    {
      customInput := value;
      store.SetCustomSkillText(TrimmedOrEmpty(value));
      Page.TrimmedTextSameGate(store.skills, value);
    }
  }
}
