/**
 * The older result step: the chosen answers projected to their catalog labels,
 * with no free-text or "unsure" line, and the same skill summary as the wizard
 * page without its suffixes.
 */
module ResultStep {
  import opened Seqs
  import opened OnboardingOptions
  import opened OnboardingStore
  import opened SkillLabels
  import opened OnboardingPage

  /** `values.map((p) => find(p)?.label).filter(Boolean)` over a purpose catalog. */
  function PurposeLabelTexts(options: seq<PurposeOption>, values: seq<string>): (r: seq<string>)
    ensures |r| <= |values|
    decreases |values|
  {
    if values == [] then []
    else
      PurposeLabelTexts(options, values[..|values| - 1]) +
      (match FindPurposeIn(options, values[|values| - 1])
       case None => []
       case Some(o) => if o.labelText != "" then [o.labelText] else [])
  }

  /** The step's purpose labels, looked up from the raw answers. */
  function ResultPurposeLabels(values: seq<string>): seq<string> {
    PurposeLabelTexts(PURPOSE_OPTIONS, values)
  }

  /** The step's interest labels, looked up from the raw answers. */
  function ResultInterestLabels(values: seq<string>): seq<string> {
    ChoiceLabelTexts(INTEREST_OPTIONS, values)
  }

  // ---------------------------------------------------------------------
  // Order: the projections work answer by answer
  // ---------------------------------------------------------------------

  lemma {:induction false} PurposeLabelTextsAppend(options: seq<PurposeOption>, a: seq<string>, b: seq<string>)
    ensures PurposeLabelTexts(options, a + b) == PurposeLabelTexts(options, a) + PurposeLabelTexts(options, b)
    decreases |b|
  {
    if b == [] {
      assert a + b == a;
    } else {
      var init := b[..|b| - 1];
      assert (a + b)[..|a + b| - 1] == a + init;
      assert (a + b)[|a + b| - 1] == b[|b| - 1];
      PurposeLabelTextsAppend(options, a, init);
    }
  }

  /** Answers are listed in the order they were chosen: the labels of a prefix come first. */
  lemma ResultLabelsInChoiceOrder(a: seq<string>, b: seq<string>)
    ensures ResultPurposeLabels(a + b) == ResultPurposeLabels(a) + ResultPurposeLabels(b)
    ensures ResultInterestLabels(a + b) == ResultInterestLabels(a) + ResultInterestLabels(b)
  {
    PurposeLabelTextsAppend(PURPOSE_OPTIONS, a, b);
    ChoiceLabelTextsAppend(INTEREST_OPTIONS, a, b);
  }

  // ---------------------------------------------------------------------
  // Sentinels are never found
  // ---------------------------------------------------------------------

  lemma {:induction false} PurposeLabelTextsConcrete(options: seq<PurposeOption>, values: seq<string>)
    requires forall o :: o in options ==> !IsSentinel(o.value)
    ensures PurposeLabelTexts(options, values) == PurposeLabelTexts(options, ConcreteOf(values))
    decreases |values|
  {
    if values != [] {
      var init := values[..|values| - 1];
      var v := values[|values| - 1];
      var tail := if IsConcrete(v) then [v] else [];
      assert values == init + [v];
      PurposeLabelTextsConcrete(options, init);
      PurposeLabelTextsAppend(options, init, [v]);
      FilterSnoc(init, v, IsConcrete);
      PurposeLabelTextsAppend(options, ConcreteOf(init), tail);
      assert [v][..0] == [];
      assert PurposeLabelTexts(options, [v]) == PurposeLabelTexts(options, tail);
    }
  }

  /**
   * Looking up the raw answers gives what looking up their concrete part
   * gives: "unsure" and "custom" are dropped because no catalog entry has
   * them.  The interest labels are therefore the wizard page's interest
   * summary without its free-text and "unsure" lines.
   */
  lemma ResultLabelsDropSentinels(values: seq<string>, customText: string)
    ensures ResultPurposeLabels(values) == ResultPurposeLabels(ConcreteOf(values))
    ensures InterestLabels(values, customText) ==
      ResultInterestLabels(values) + ReservedLines(values, customText, Quoted(customText), UNSURE_LABEL)
  {
    PurposeCatalog();
    InterestCatalog();
    PurposeLabelTextsConcrete(PURPOSE_OPTIONS, values);
    ChoiceLabelTextsConcrete(INTEREST_OPTIONS, values);
  }

  // ---------------------------------------------------------------------
  // Membership
  // ---------------------------------------------------------------------

  lemma {:induction false} PurposeLabelTextsMembers(options: seq<PurposeOption>, values: seq<string>)
    requires DistinctPurposeValues(options) && DistinctPurposeLabels(options)
    requires forall o :: o in options ==> o.labelText != ""
    ensures forall o :: o in options ==> (o.labelText in PurposeLabelTexts(options, values) <==> o.value in values)
    ensures forall l :: l in PurposeLabelTexts(options, values) ==> exists o :: o in options && l == o.labelText
    decreases |values|
  {
    if values != [] {
      var init := values[..|values| - 1];
      var v := values[|values| - 1];
      assert values == init + [v];
      PurposeLabelTextsMembers(options, init);
      forall o | o in options
        ensures o.labelText in PurposeLabelTexts(options, values) <==> o.value in values
      {
        var k :| 0 <= k < |options| && options[k] == o;
        FindPurposeAt(options, k);
        match FindPurposeIn(options, v)
        case None =>
        case Some(o') =>
          if o'.labelText == o.labelText {
            var k' :| 0 <= k' < |options| && options[k'] == o';
            assert k == k';
          }
      }
    }
  }

  /** A catalog purpose's label is listed iff the purpose was chosen, and only such labels are. */
  lemma ResultPurposeLabelsSpec(values: seq<string>)
    ensures forall o :: o in PURPOSE_OPTIONS ==> (o.labelText in ResultPurposeLabels(values) <==> o.value in values)
    ensures forall l :: l in ResultPurposeLabels(values) ==> exists o :: o in PURPOSE_OPTIONS && l == o.labelText
  {
    PurposeCatalog();
    PurposeLabelsDistinct();
    PurposeLabelTextsMembers(PURPOSE_OPTIONS, values);
  }

  /** A catalog interest's label is listed iff the interest was chosen, and only such labels are. */
  lemma ResultInterestLabelsSpec(values: seq<string>)
    ensures forall c :: c in INTEREST_OPTIONS ==> (c.labelText in ResultInterestLabels(values) <==> c.value in values)
    ensures forall l :: l in ResultInterestLabels(values) ==> exists c :: c in INTEREST_OPTIONS && l == c.labelText
  {
    InterestCatalog();
    InterestLabelsDistinct();
    ChoiceLabelTextsMembers(INTEREST_OPTIONS, values);
  }

  /**
   * The step's skill summary holds no suffix line: only labels of chosen
   * concrete skills found under a chosen interest, each once, the earlier
   * interests' labels first, each interest's new labels in the order the
   * skills were chosen, and nothing at all without an interest.
   */
  lemma ResultSkillLabelsSpec(values: seq<string>, interests: seq<string>, k: nat)
    requires k <= |interests|
    ensures Distinct(SkillLabelsOf(values, interests))
    ensures forall l :: l in SkillLabelsOf(values, interests) <==> FoundAmong(interests, ConcreteOf(values), l)
    ensures SkillLabelsOf(values, interests[..k]) <= SkillLabelsOf(values, interests)
    ensures interests == [] ==> SkillLabelsOf(values, interests) == []
    ensures k < |interests| ==>
      var before := SkillLabelsOf(values, interests[..k]);
      var after := SkillLabelsOf(values, interests[..k + 1]);
      |before| <= |after| && after[..|before|] == before &&
      Subseq(after[|before|..], FoundLabels(SkillsOf(interests[k]), ConcreteOf(values)))
  {
    SkillLabelsOfFacts(values, interests);
    ScanInterestsPrefix(interests, ConcreteOf(values), k);
    if k < |interests| {
      var before := SkillLabelsOf(values, interests[..k]);
      assert interests[..k + 1][..k] == interests[..k];
      ScanSkillsExtends(before, SkillsOf(interests[k]), ConcreteOf(values));
      ScanSkillsInSkillOrder(before, SkillsOf(interests[k]), ConcreteOf(values));
    }
  }
}
