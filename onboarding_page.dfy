/**
 * The wizard page: what it derives from the store (the summaries of earlier
 * answers, the gate on the next button, the skill options of step 3 and the
 * step counter in the header) and its own paging state.
 */
module OnboardingPage {
  import opened Seqs
  import opened Strings
  import opened Wrappers
  import opened OnboardingOptions
  import opened OnboardingStore
  import opened SkillLabels
  import opened App

  /** The label shown for the "unsure" answer. */
  const UNSURE_LABEL: string := "잘 모르겠어요"

  /** The number of course cards the result phase holds in total. */
  const MOCK_COURSE_COUNT: nat := 8

  const COURSES_PER_PAGE: nat := 4
  const SKILLS_PER_PAGE: nat := 20

  /** `"${text}"`: a free-text answer as its summary shows it. */
  function Quoted(text: string): (r: string)
    ensures |r| == |text| + 2 && r[0] == '"' && r[|r| - 1] == '"' && r[1..|r| - 1] == text
  {
    "\"" + text + "\""
  }

  // ---------------------------------------------------------------------
  // Summaries of the answers
  // ---------------------------------------------------------------------

  /** One line of the purpose summary: a label and, for catalog purposes, its description. */
  datatype Answer = Answer(labelText: string, description: Option<string>)

  function AnswerOf(o: PurposeOption): Answer {
    Answer(o.labelText, Some(o.description))
  }

  /** `values.map(find).filter(Boolean).map(toAnswer)`: the purposes of `options` among `values`, in order. */
  function PurposeAnswers(options: seq<PurposeOption>, values: seq<string>): (r: seq<Answer>)
    ensures |r| <= |values|
    decreases |values|
  {
    if values == [] then []
    else
      PurposeAnswers(options, values[..|values| - 1]) +
      (match FindPurposeIn(options, values[|values| - 1])
       case None => []
       case Some(o) => [AnswerOf(o)])
  }

  /** `values.map((v) => find(v)?.label).filter(Boolean)`: the labels of the options of `options` among `values`. */
  function ChoiceLabelTexts(options: seq<Choice>, values: seq<string>): (r: seq<string>)
    ensures |r| <= |values|
    decreases |values|
  {
    if values == [] then []
    else
      ChoiceLabelTexts(options, values[..|values| - 1]) +
      (match FindChoice(options, values[|values| - 1])
       case None => []
       case Some(c) => if c.labelText != "" then [c.labelText] else [])
  }

  /** The page's summary of the purpose answers. */
  function PurposeLabels(values: seq<string>, customText: string): seq<Answer> {
    PurposeAnswers(PURPOSE_OPTIONS, ConcreteOf(values)) +
    ReservedLines(values, customText, Answer(Quoted(customText), None), Answer(UNSURE_LABEL, None))
  }

  /** The page's summary of the interest answers. */
  function InterestLabels(values: seq<string>, customText: string): seq<string> {
    ChoiceLabelTexts(INTEREST_OPTIONS, ConcreteOf(values)) +
    ReservedLines(values, customText, Quoted(customText), UNSURE_LABEL)
  }

  // Order: the summaries work answer by answer, and skip the reserved answers

  lemma {:induction false} PurposeAnswersAppend(options: seq<PurposeOption>, a: seq<string>, b: seq<string>)
    ensures PurposeAnswers(options, a + b) == PurposeAnswers(options, a) + PurposeAnswers(options, b)
    decreases |b|
  {
    if b == [] {
      assert a + b == a;
    } else {
      var init := b[..|b| - 1];
      assert (a + b)[..|a + b| - 1] == a + init;
      assert (a + b)[|a + b| - 1] == b[|b| - 1];
      PurposeAnswersAppend(options, a, init);
    }
  }

  lemma {:induction false} ChoiceLabelTextsAppend(options: seq<Choice>, a: seq<string>, b: seq<string>)
    ensures ChoiceLabelTexts(options, a + b) == ChoiceLabelTexts(options, a) + ChoiceLabelTexts(options, b)
    decreases |b|
  {
    if b == [] {
      assert a + b == a;
    } else {
      var init := b[..|b| - 1];
      assert (a + b)[..|a + b| - 1] == a + init;
      assert (a + b)[|a + b| - 1] == b[|b| - 1];
      ChoiceLabelTextsAppend(options, a, init);
    }
  }

  /** Summarising the raw answers gives what summarising their concrete part gives. */
  lemma {:induction false} PurposeAnswersConcrete(options: seq<PurposeOption>, values: seq<string>)
    requires forall o :: o in options ==> !IsSentinel(o.value)
    ensures PurposeAnswers(options, values) == PurposeAnswers(options, ConcreteOf(values))
    decreases |values|
  {
    if values != [] {
      var init := values[..|values| - 1];
      var v := values[|values| - 1];
      var tail := if IsConcrete(v) then [v] else [];
      assert values == init + [v];
      PurposeAnswersConcrete(options, init);
      PurposeAnswersAppend(options, init, [v]);
      FilterSnoc(init, v, IsConcrete);
      PurposeAnswersAppend(options, ConcreteOf(init), tail);
      assert [v][..0] == [];
      assert PurposeAnswers(options, [v]) == PurposeAnswers(options, tail);
    }
  }

  lemma {:induction false} ChoiceLabelTextsConcrete(options: seq<Choice>, values: seq<string>)
    requires forall c :: c in options ==> !IsSentinel(c.value)
    ensures ChoiceLabelTexts(options, values) == ChoiceLabelTexts(options, ConcreteOf(values))
    decreases |values|
  {
    if values != [] {
      var init := values[..|values| - 1];
      var v := values[|values| - 1];
      var tail := if IsConcrete(v) then [v] else [];
      assert values == init + [v];
      ChoiceLabelTextsConcrete(options, init);
      ChoiceLabelTextsAppend(options, init, [v]);
      FilterSnoc(init, v, IsConcrete);
      ChoiceLabelTextsAppend(options, ConcreteOf(init), tail);
      assert [v][..0] == [];
      assert ChoiceLabelTexts(options, [v]) == ChoiceLabelTexts(options, tail);
    }
  }

  /**
   * The catalog part of a summary follows the order of the answers: the
   * lines of a prefix come first, and each answer contributes its own
   * catalog line, or none when the catalog does not hold it.
   */
  lemma SummaryInChoiceOrder(a: seq<string>, b: seq<string>, v: string)
    ensures PurposeAnswers(PURPOSE_OPTIONS, a + b) == PurposeAnswers(PURPOSE_OPTIONS, a) + PurposeAnswers(PURPOSE_OPTIONS, b)
    ensures PurposeAnswers(PURPOSE_OPTIONS, [v]) ==
      match FindPurposeIn(PURPOSE_OPTIONS, v) case None => [] case Some(o) => [AnswerOf(o)]
    ensures ChoiceLabelTexts(INTEREST_OPTIONS, a + b) == ChoiceLabelTexts(INTEREST_OPTIONS, a) + ChoiceLabelTexts(INTEREST_OPTIONS, b)
    ensures ChoiceLabelTexts(INTEREST_OPTIONS, [v]) ==
      match FindChoice(INTEREST_OPTIONS, v) case None => [] case Some(c) => [c.labelText]
  {
    PurposeAnswersAppend(PURPOSE_OPTIONS, a, b);
    ChoiceLabelTextsAppend(INTEREST_OPTIONS, a, b);
    assert [v][..0] == [];
    InterestCatalog();
  }

  /** An option is summarised iff it was chosen, and only options are. */
  lemma {:induction false} PurposeAnswersMembers(options: seq<PurposeOption>, values: seq<string>)
    requires DistinctPurposeValues(options) && DistinctPurposeLabels(options)
    ensures forall o :: o in options ==> (AnswerOf(o) in PurposeAnswers(options, values) <==> o.value in values)
    ensures forall a :: a in PurposeAnswers(options, values) ==> exists o :: o in options && a == AnswerOf(o)
    decreases |values|
  {
    if values != [] {
      var init := values[..|values| - 1];
      var v := values[|values| - 1];
      assert values == init + [v];
      PurposeAnswersMembers(options, init);
      forall o | o in options
        ensures AnswerOf(o) in PurposeAnswers(options, values) <==> o.value in values
      {
        var k :| 0 <= k < |options| && options[k] == o;
        FindPurposeAt(options, k);
        match FindPurposeIn(options, v)
        case None =>
        case Some(o') =>
          if AnswerOf(o') == AnswerOf(o) {
            var k' :| 0 <= k' < |options| && options[k'] == o';
            assert k == k';
          }
      }
    }
  }

  /** An option's label is summarised iff the option was chosen, and only options' labels are. */
  lemma {:induction false} ChoiceLabelTextsMembers(options: seq<Choice>, values: seq<string>)
    requires DistinctValues(options) && DistinctLabels(options)
    requires forall c :: c in options ==> c.labelText != ""
    ensures forall c :: c in options ==> (c.labelText in ChoiceLabelTexts(options, values) <==> c.value in values)
    ensures forall l :: l in ChoiceLabelTexts(options, values) ==> exists c :: c in options && l == c.labelText
    decreases |values|
  {
    if values != [] {
      var init := values[..|values| - 1];
      var v := values[|values| - 1];
      assert values == init + [v];
      ChoiceLabelTextsMembers(options, init);
      forall c | c in options
        ensures c.labelText in ChoiceLabelTexts(options, values) <==> c.value in values
      {
        var k :| 0 <= k < |options| && options[k] == c;
        FindChoiceAt(options, k);
        match FindChoice(options, v)
        case None =>
        case Some(c') =>
          if c'.labelText == c.labelText {
            var k' :| 0 <= k' < |options| && options[k'] == c';
            assert k == k';
          }
      }
    }
  }

  /** No catalog label looks like a quoted free-text answer or the "unsure" label. */
  lemma CatalogLabelsStandApart()
    ensures forall o :: o in PURPOSE_OPTIONS ==> o.labelText != UNSURE_LABEL
    ensures forall c :: c in INTEREST_OPTIONS ==> c.labelText != UNSURE_LABEL && c.labelText[0] != '"'
  {
  }

  lemma QuotedIsNotUnsure(text: string)
    ensures Quoted(text) != UNSURE_LABEL
  {
    assert Quoted(text)[0] == '"' && UNSURE_LABEL[0] == '잘';
  }

  /** Every catalog line of the purpose summary carries a description. */
  lemma {:induction false} PurposeAnswersDescribed(options: seq<PurposeOption>, values: seq<string>)
    ensures forall a :: a in PurposeAnswers(options, values) ==> a.description.Some?
    decreases |values|
  {
    if values != [] {
      PurposeAnswersDescribed(options, values[..|values| - 1]);
    }
  }

  /** The catalog part of a purpose summary over the concrete answers of `values`. */
  lemma PurposeAnswersOfConcrete(options: seq<PurposeOption>, values: seq<string>)
    requires DistinctPurposeValues(options) && DistinctPurposeLabels(options)
    requires forall o :: o in options ==> !IsSentinel(o.value)
    ensures forall o :: o in options ==> (AnswerOf(o) in PurposeAnswers(options, ConcreteOf(values)) <==> o.value in values)
    ensures forall a :: a in PurposeAnswers(options, ConcreteOf(values)) ==> exists o :: o in options && a == AnswerOf(o)
  {
    PurposeAnswersMembers(options, ConcreteOf(values));
  }

  /** The extra lines after the catalog part of a summary: the free text, then "unsure". */
  function ReservedLines<T>(values: seq<string>, customText: string, custom: T, unsure: T): (r: seq<T>)
    ensures forall x :: x in r ==> x == custom || x == unsure
    ensures custom in r <==> (customText != "" && CUSTOM in values) || (custom == unsure && UNSURE in values)
    ensures unsure in r <==> (UNSURE in values) || (custom == unsure && customText != "" && CUSTOM in values)
    ensures UNSURE in values ==> |r| > 0 && r[|r| - 1] == unsure
  {
    (if customText != "" && CUSTOM in values then [custom] else []) +
    (if UNSURE in values then [unsure] else [])
  }

  /** A catalog purpose is in the page's summary iff it was chosen. */
  lemma PurposeLabelsCatalogPart(values: seq<string>, customText: string)
    ensures forall o :: o in PURPOSE_OPTIONS ==> (AnswerOf(o) in PurposeLabels(values, customText) <==> o.value in values)
    ensures forall a :: a in PurposeLabels(values, customText) && a.description.Some? ==>
      exists o :: o in PURPOSE_OPTIONS && a == AnswerOf(o)
  {
    PurposeCatalog();
    PurposeLabelsDistinct();
    PurposeAnswersOfConcrete(PURPOSE_OPTIONS, values);
    var cat := PurposeAnswers(PURPOSE_OPTIONS, ConcreteOf(values));
    var rest := ReservedLines(values, customText, Answer(Quoted(customText), None), Answer(UNSURE_LABEL, None));
    assert PurposeLabels(values, customText) == cat + rest;
  }

  /** The free-text and "unsure" lines of the page's purpose summary. */
  lemma PurposeLabelsReservedPart(values: seq<string>, customText: string)
    ensures Answer(Quoted(customText), None) in PurposeLabels(values, customText) <==> customText != "" && CUSTOM in values
    ensures Answer(UNSURE_LABEL, None) in PurposeLabels(values, customText) <==> UNSURE in values
    ensures UNSURE in values ==> PurposeLabels(values, customText)[|PurposeLabels(values, customText)| - 1] == Answer(UNSURE_LABEL, None)
    ensures forall a :: a in PurposeLabels(values, customText) && a.description.None? ==>
      a == Answer(Quoted(customText), None) || a == Answer(UNSURE_LABEL, None)
  {
    PurposeAnswersDescribed(PURPOSE_OPTIONS, ConcreteOf(values));
    QuotedIsNotUnsure(customText);
  }

  /** The purpose summary is the catalog lines of the raw answers, then the reserved lines. */
  lemma PurposeLabelsInOrder(values: seq<string>, customText: string)
    ensures PurposeLabels(values, customText) == PurposeAnswers(PURPOSE_OPTIONS, values) +
      ReservedLines(values, customText, Answer(Quoted(customText), None), Answer(UNSURE_LABEL, None))
  {
    PurposeCatalog();
    PurposeAnswersConcrete(PURPOSE_OPTIONS, values);
  }

  /**
   * The purpose summary lists the chosen catalog purposes, then the quoted
   * free text iff "custom" is chosen and the text is non-empty, then the
   * "unsure" label iff "unsure" is chosen, and nothing else.
   */
  lemma PurposeLabelsSpec(values: seq<string>, customText: string)
    ensures PurposeLabels(values, customText) == PurposeAnswers(PURPOSE_OPTIONS, values) +
      ReservedLines(values, customText, Answer(Quoted(customText), None), Answer(UNSURE_LABEL, None))
    ensures var r := PurposeLabels(values, customText);
      (forall o :: o in PURPOSE_OPTIONS ==> (AnswerOf(o) in r <==> o.value in values)) &&
      (Answer(Quoted(customText), None) in r <==> customText != "" && CUSTOM in values) &&
      (Answer(UNSURE_LABEL, None) in r <==> UNSURE in values) &&
      (UNSURE in values ==> r[|r| - 1] == Answer(UNSURE_LABEL, None)) &&
      (forall a :: a in r ==>
        (exists o :: o in PURPOSE_OPTIONS && a == AnswerOf(o)) ||
        a == Answer(Quoted(customText), None) || a == Answer(UNSURE_LABEL, None))
  {
    PurposeLabelsInOrder(values, customText);
    PurposeLabelsCatalogPart(values, customText);
    PurposeLabelsReservedPart(values, customText);
  }

  /** A catalog interest's label is in the page's summary iff the interest was chosen. */
  lemma InterestLabelsCatalogPart(values: seq<string>, customText: string)
    ensures forall c :: c in INTEREST_OPTIONS ==> (c.labelText in InterestLabels(values, customText) <==> c.value in values)
  {
    var cs := ConcreteOf(values);
    InterestCatalog();
    InterestLabelsDistinct();
    ChoiceLabelTextsMembers(INTEREST_OPTIONS, cs);
    CatalogLabelsStandApart();
    forall c | c in INTEREST_OPTIONS ensures c.value in cs <==> c.value in values {
      assert IsConcrete(c.value);
    }
    forall c | c in INTEREST_OPTIONS ensures c.labelText != Quoted(customText) {
      assert Quoted(customText)[0] == '"';
    }
  }

  /** Every line of the page's interest summary is a catalog label, the free text or the "unsure" label. */
  lemma InterestLabelsLines(values: seq<string>, customText: string)
    ensures forall l :: l in InterestLabels(values, customText) ==>
      (exists c :: c in INTEREST_OPTIONS && l == c.labelText) || l == Quoted(customText) || l == UNSURE_LABEL
  {
    InterestCatalog();
    InterestLabelsDistinct();
    ChoiceLabelTextsMembers(INTEREST_OPTIONS, ConcreteOf(values));
  }

  /** The catalog part of the interest summary never holds the free-text or "unsure" line. */
  lemma {:induction false} ChoiceLabelsNotReserved(values: seq<string>, customText: string)
    ensures Quoted(customText) !in ChoiceLabelTexts(INTEREST_OPTIONS, values)
    ensures UNSURE_LABEL !in ChoiceLabelTexts(INTEREST_OPTIONS, values)
  {
    InterestCatalog();
    InterestLabelsDistinct();
    ChoiceLabelTextsMembers(INTEREST_OPTIONS, values);
    CatalogLabelsStandApart();
    forall c | c in INTEREST_OPTIONS ensures c.labelText != Quoted(customText) {
      assert Quoted(customText)[0] == '"';
    }
  }

  /** The free-text and "unsure" lines of the page's interest summary. */
  lemma InterestLabelsReservedPart(values: seq<string>, customText: string)
    ensures Quoted(customText) in InterestLabels(values, customText) <==> customText != "" && CUSTOM in values
    ensures UNSURE_LABEL in InterestLabels(values, customText) <==> UNSURE in values
    ensures UNSURE in values ==> InterestLabels(values, customText)[|InterestLabels(values, customText)| - 1] == UNSURE_LABEL
  {
    ChoiceLabelsNotReserved(ConcreteOf(values), customText);
    QuotedIsNotUnsure(customText);
  }

  /** The interest summary, likewise. */
  lemma InterestLabelsSpec(values: seq<string>, customText: string)
    ensures InterestLabels(values, customText) == ChoiceLabelTexts(INTEREST_OPTIONS, values) +
      ReservedLines(values, customText, Quoted(customText), UNSURE_LABEL)
    ensures var r := InterestLabels(values, customText);
      (forall c :: c in INTEREST_OPTIONS ==> (c.labelText in r <==> c.value in values)) &&
      (Quoted(customText) in r <==> customText != "" && CUSTOM in values) &&
      (UNSURE_LABEL in r <==> UNSURE in values) &&
      (UNSURE in values ==> r[|r| - 1] == UNSURE_LABEL) &&
      (forall l :: l in r ==>
        (exists c :: c in INTEREST_OPTIONS && l == c.labelText) || l == Quoted(customText) || l == UNSURE_LABEL)
  {
    InterestCatalog();
    ChoiceLabelTextsConcrete(INTEREST_OPTIONS, values);
    InterestLabelsCatalogPart(values, customText);
    InterestLabelsReservedPart(values, customText);
    InterestLabelsLines(values, customText);
  }

  /** The summary of the page's own example: a catalog purpose followed by a quoted free text. */
  lemma PurposeLabelsExample()
    ensures PurposeLabels(["job_seeking", CUSTOM], "AI") ==
      [Answer("취업 · 이직", Some("면접 준비, 포트폴리오, 역량 증명")), Answer("\"AI\"", None)]
  {
    var values := ["job_seeking", CUSTOM];
    assert values == ["job_seeking"] + [CUSTOM];
    assert ["job_seeking"] == [] + ["job_seeking"];
    FilterSnoc(["job_seeking"], CUSTOM, IsConcrete);
    FilterSnoc([], "job_seeking", IsConcrete);
    assert ConcreteOf(values) == ["job_seeking"];
    assert ["job_seeking"][..0] == [];
    assert FindPurposeIn(PURPOSE_OPTIONS, "job_seeking") == Some(PURPOSE_OPTIONS[0]);
    assert PurposeAnswers(PURPOSE_OPTIONS, ["job_seeking"]) == [AnswerOf(PURPOSE_OPTIONS[0])];
    assert UNSURE !in values;
    assert Quoted("AI") == "\"AI\"";
  }

  /** The page's skill summary: the collected labels, then the free-text and "unsure" lines. */
  method SkillLabelsFor(values: seq<string>, interests: seq<string>, customText: string) returns (labels: seq<string>)
    ensures labels == SkillLabelsOf(values, interests) +
      (if customText != "" && CUSTOM in values then [Quoted(customText)] else []) +
      (if UNSURE in values then [UNSURE_LABEL] else [])
  {
    labels := CollectSkillLabels(values, interests);
    if customText != "" && CUSTOM in values {
      labels := labels + [Quoted(customText)];
    }
    if UNSURE in values {
      labels := labels + [UNSURE_LABEL];
    }
  }

  // ---------------------------------------------------------------------
  // The next button's gate
  // ---------------------------------------------------------------------

  /** A step's answer is ready: something is chosen, and "custom" comes with a non-blank text. */
  predicate ListReady(l: seq<string>, text: string) {
    |l| > 0 && (CUSTOM in l ==> |Trim(text)| > 0)
  }

  /** `canProceed()`: the current question step's answer is ready; outside steps 1-3, never. */
  predicate CanProceed(s: OnboardingState) {
    if s.currentStep == 1 then ListReady(s.purpose, s.customPurposeText)
    else if s.currentStep == 2 then ListReady(s.interests, s.customInterestText)
    else if s.currentStep == 3 then ListReady(s.skills, s.customSkillText)
    else false
  }

  /** The gate is closed on a fresh store, and always in the result phase. */
  lemma GateClosedInitiallyAndAtResults(s: OnboardingState)
    ensures !CanProceed(INITIAL_STATE)
    ensures (s.currentStep < 1 || s.currentStep > TOTAL_STEPS) ==> !CanProceed(s)
  {
  }

  /** Choosing "unsure", or a concrete value not yet chosen, opens the gate whatever the text. */
  lemma ToggleOpensGate(l: seq<string>, v: string, text: string)
    requires (v == UNSURE && UNSURE !in l) || (IsConcrete(v) && v !in l)
    ensures ListReady(Toggled(l, v), text)
  {
  }

  /** Choosing "custom" opens the gate exactly when its text is not blank. */
  lemma CustomNeedsText(l: seq<string>, text: string)
    requires CUSTOM !in l
    ensures ListReady(Toggled(l, CUSTOM), text) <==> !IsBlank(text)
  {
  }

  /** Storing the trimmed text, as the custom inputs do, never changes the gate. */
  lemma TrimmedTextSameGate(l: seq<string>, text: string)
    ensures ListReady(l, TrimmedOrEmpty(text)) <==> ListReady(l, text)
  {
    var t := TrimmedOrEmpty(text);
    assert Trim(t) == t == Trim(text);
  }

  // ---------------------------------------------------------------------
  // Skill options of step 3
  // ---------------------------------------------------------------------

  /** Some entry of `s` carries value `v`. */
  predicate HasValue(s: seq<Choice>, v: string) {
    exists k :: 0 <= k < |s| && s[k].value == v
  }

  /** `s.filter((x, i) => i === s.findIndex((y) => y.value === x.value))`: the first entry per value. */
  function DedupeByValue(s: seq<Choice>): (r: seq<Choice>)
    ensures forall c :: c in r ==> c in s
    decreases |s|
  {
    if s == [] then []
    else
      var init := s[..|s| - 1];
      DedupeByValue(init) + (if HasValue(init, s[|s| - 1].value) then [] else [s[|s| - 1]])
  }

  /** `keys.flatMap((k) => SKILL_OPTIONS[k] || [])`. */
  function FlatSkills(keys: seq<string>): (r: seq<Choice>)
    ensures forall c :: c in r <==> exists k :: k in keys && c in SkillsOf(k)
    decreases |keys|
  {
    if keys == [] then []
    else
      var init := keys[..|keys| - 1];
      assert forall k :: k in keys <==> k in init || k == keys[|keys| - 1];
      FlatSkills(init) + SkillsOf(keys[|keys| - 1])
  }

  /** `getAvailableSkills()`: the whole catalog when no concrete interest is chosen, else the chosen ones' skills. */
  function AvailableSkills(interests: seq<string>): seq<Choice> {
    var valid := ConcreteOf(interests);
    if valid == [] then AllSkills() else DedupeByValue(FlatSkills(valid))
  }

  lemma {:induction false} DedupeSubseq(s: seq<Choice>)
    ensures Subseq(DedupeByValue(s), s)
    decreases |s|
  {
    if s != [] {
      var init := s[..|s| - 1];
      DedupeSubseq(init);
      var r := DedupeByValue(s);
      if HasValue(init, s[|s| - 1].value) {
        assert r == DedupeByValue(init);
      } else {
        assert r[..|r| - 1] == DedupeByValue(init);
      }
    }
  }

  lemma {:induction false} DedupeHasValue(s: seq<Choice>)
    ensures forall v :: HasValue(DedupeByValue(s), v) <==> HasValue(s, v)
    decreases |s|
  {
    if s != [] {
      var init := s[..|s| - 1];
      var last := s[|s| - 1];
      DedupeHasValue(init);
      var p := DedupeByValue(init);
      var r := DedupeByValue(s);
      assert forall m :: 0 <= m < |p| ==> r[m] == p[m];
      assert forall m :: 0 <= m < |init| ==> s[m] == init[m];
      forall v | HasValue(s, v) ensures HasValue(r, v) {
        var k :| 0 <= k < |s| && s[k].value == v;
        if k < |init| || HasValue(init, last.value) {
          assert HasValue(init, v);
          var m :| 0 <= m < |p| && p[m].value == v;
          assert r[m].value == v;
        } else {
          assert r[|r| - 1] == last;
        }
      }
      forall v | HasValue(r, v) ensures HasValue(s, v) {
        var k :| 0 <= k < |r| && r[k].value == v;
        if k < |p| {
          assert HasValue(p, v);
          var m :| 0 <= m < |init| && init[m].value == v;
          assert s[m].value == v;
        } else {
          assert s[|s| - 1] == r[k];
        }
      }
    }
  }

  lemma {:induction false} DedupeDistinct(s: seq<Choice>)
    ensures DistinctValues(DedupeByValue(s))
    decreases |s|
  {
    if s != [] {
      var init := s[..|s| - 1];
      var last := s[|s| - 1];
      DedupeDistinct(init);
      DedupeHasValue(init);
      var p := DedupeByValue(init);
      if !HasValue(init, last.value) {
        var r := p + [last];
        forall i, j | 0 <= i < j < |r| ensures r[i].value != r[j].value {
          if j == |p| {
            assert r[i] == p[i];
          } else {
            assert r[i] == p[i] && r[j] == p[j];
          }
        }
      }
    }
  }

  lemma {:induction false} FindChoiceAppend(a: seq<Choice>, b: seq<Choice>, v: string)
    ensures FindChoice(a + b, v) == if FindChoice(a, v).Some? then FindChoice(a, v) else FindChoice(b, v)
    decreases |a|
  {
    if a != [] {
      assert (a + b)[1..] == a[1..] + b;
      FindChoiceAppend(a[1..], b, v);
    } else {
      assert a + b == b;
    }
  }

  /** Each kept entry is the first entry of the input carrying its value. */
  lemma {:induction false} DedupeKeepsFirst(s: seq<Choice>)
    ensures forall k :: 0 <= k < |DedupeByValue(s)| ==> FindChoice(s, DedupeByValue(s)[k].value) == Some(DedupeByValue(s)[k])
    decreases |s|
  {
    if s != [] {
      var init := s[..|s| - 1];
      var last := s[|s| - 1];
      assert s == init + [last];
      DedupeKeepsFirst(init);
      var p := DedupeByValue(init);
      var r := DedupeByValue(s);
      forall k | 0 <= k < |r| ensures FindChoice(s, r[k].value) == Some(r[k]) {
        FindChoiceAppend(init, [last], r[k].value);
        if k < |p| {
          assert r[k] == p[k];
        } else {
          assert r[k] == last && !HasValue(init, last.value);
        }
      }
    }
  }

  lemma {:induction false} DedupeIdentity(s: seq<Choice>)
    requires DistinctValues(s)
    ensures DedupeByValue(s) == s
    decreases |s|
  {
    if s != [] {
      var init := s[..|s| - 1];
      var last := s[|s| - 1];
      assert DistinctValues(init) by {
        forall i, j | 0 <= i < j < |init| ensures init[i].value != init[j].value {
          assert init[i] == s[i] && init[j] == s[j];
        }
      }
      DedupeIdentity(init);
      assert !HasValue(init, last.value) by {
        forall k | 0 <= k < |init| ensures init[k].value != last.value {
          assert init[k] == s[k];
        }
      }
      assert s == init + [last];
    }
  }

  /**
   * With a concrete interest chosen, the options are the chosen interests'
   * skills without repeated values, each entry the first of its value, in
   * the order of the raw concatenation; every chosen interest's skill value
   * is offered.
   */
  lemma AvailableSkillsSelected(interests: seq<string>)
    requires ConcreteOf(interests) != []
    ensures var r := AvailableSkills(interests); var raw := FlatSkills(ConcreteOf(interests));
      DistinctValues(r) && Subseq(r, raw) &&
      (forall c :: c in r ==> exists i :: i in interests && IsConcrete(i) && c in SkillsOf(i)) &&
      (forall v :: HasValue(r, v) <==> HasValue(raw, v)) &&
      (forall k :: 0 <= k < |r| ==> FindChoice(raw, r[k].value) == Some(r[k]))
  {
    var raw := FlatSkills(ConcreteOf(interests));
    DedupeDistinct(raw);
    DedupeSubseq(raw);
    DedupeHasValue(raw);
    DedupeKeepsFirst(raw);
  }

  /** With no concrete interest, the options are the whole catalog, which repeats no value. */
  lemma AvailableSkillsFallback(interests: seq<string>)
    requires ConcreteOf(interests) == []
    ensures AvailableSkills(interests) == AllSkills()
    ensures DistinctValues(AvailableSkills(interests))
  {
    AllSkillsDistinct();
  }

  /** Choosing only "frontend" offers exactly the frontend skills, in catalog order. */
  lemma FrontendOnlyExample()
    ensures AvailableSkills(["frontend"]) == FRONTEND_SKILLS
  {
    assert ConcreteOf(["frontend"]) == ["frontend"] by {
      assert ["frontend"] == [] + ["frontend"];
      FilterSnoc([], "frontend", IsConcrete);
    }
    assert ["frontend"][..0] == [];
    SkillsOfInterest(0);
    assert FlatSkills(["frontend"]) == FRONTEND_SKILLS;
    FrontendGroup();
    DedupeIdentity(FRONTEND_SKILLS);
  }

  // ---------------------------------------------------------------------
  // Header and paging
  // ---------------------------------------------------------------------

  /** The step counter of the header: `min(step, 3)` out of 3, hidden in the result phase. */
  function StepCounter(step: int): (r: Option<int>)
    ensures r.None? <==> step == 4
    ensures r.Some? ==> r.value <= TOTAL_STEPS && (step <= TOTAL_STEPS ==> r.value == step)
    ensures step > TOTAL_STEPS && step != 4 ==> r == Some(TOTAL_STEPS)
  {
    if step == 4 then None else Some(Min(step, TOTAL_STEPS))
  }

  /** `available.slice(0, count)`: the skills shown. */
  function VisibleSkills(available: seq<Choice>, count: nat): seq<Choice> {
    Take(available, count)
  }

  /** The "more skills" button shows when some skill is not shown yet. */
  predicate HasMoreSkills(available: seq<Choice>, count: nat) {
    |available| > count
  }

  /** The shown skills are a prefix, and the button shows exactly when the rest is not empty. */
  lemma SkillPaging(available: seq<Choice>, count: nat)
    ensures VisibleSkills(available, count) + available[|VisibleSkills(available, count)|..] == available
    ensures HasMoreSkills(available, count) <==> |VisibleSkills(available, count)| < |available|
    ensures !HasMoreSkills(available, count) ==> VisibleSkills(available, count) == available
  {
  }

  /** The result panel: the knowledge-sharing choice, or the course list. */
  datatype ResultPanel = KnowledgeSharingChoice | CourseList(shown: nat, moreButton: bool)

  /** What the result phase shows for the chosen purposes and the page's state. */
  function ResultPanelFor(purpose: seq<string>, showPopularResults: bool, visibleCourses: nat): (r: ResultPanel)
    ensures r.KnowledgeSharingChoice? <==> "knowledge_sharing" in purpose && !showPopularResults
    ensures r.CourseList? ==> r.shown == Min(visibleCourses, MOCK_COURSE_COUNT) && (r.moreButton <==> visibleCourses < MOCK_COURSE_COUNT)
  {
    if "knowledge_sharing" in purpose && !showPopularResults then KnowledgeSharingChoice
    else CourseList(Min(visibleCourses, MOCK_COURSE_COUNT), visibleCourses < MOCK_COURSE_COUNT)
  }

  /** The page's own state: the paging counters and the knowledge-sharing detour. */
  class PageView {
    var visibleCourses: nat
    var showPopularResults: bool
    var visibleSkillsCount: nat

    /** The counters only ever hold whole pages, and the course counter never passes the course count. */
    predicate Valid()
      reads this
    {
      COURSES_PER_PAGE <= visibleCourses <= MOCK_COURSE_COUNT &&
      SKILLS_PER_PAGE <= visibleSkillsCount && visibleSkillsCount % SKILLS_PER_PAGE == 0
    }

    constructor ()
      ensures Valid()
      ensures visibleCourses == COURSES_PER_PAGE && !showPopularResults && visibleSkillsCount == SKILLS_PER_PAGE
    {
      visibleCourses := COURSES_PER_PAGE;
      showPopularResults := false;
      visibleSkillsCount := SKILLS_PER_PAGE;
    }

    /** The "more skills" button. */
    method LoadMoreSkills()
      requires Valid()
      modifies this
      ensures Valid()
      ensures visibleSkillsCount == old(visibleSkillsCount) + SKILLS_PER_PAGE
      ensures visibleCourses == old(visibleCourses) && showPopularResults == old(showPopularResults)
    {
      visibleSkillsCount := visibleSkillsCount + SKILLS_PER_PAGE;
    }

    /** The "more courses" button: four more, never past the last course. */
    method LoadMoreCourses()
      requires Valid()
      modifies this
      ensures Valid()
      ensures visibleCourses == Min(old(visibleCourses) + COURSES_PER_PAGE, MOCK_COURSE_COUNT)
      ensures visibleCourses >= old(visibleCourses)
      ensures old(visibleCourses) < MOCK_COURSE_COUNT ==> visibleCourses > old(visibleCourses)
      ensures visibleSkillsCount == old(visibleSkillsCount) && showPopularResults == old(showPopularResults)
    {
      visibleCourses := Min(visibleCourses + COURSES_PER_PAGE, MOCK_COURSE_COUNT);
    }

    /** "Browse popular courses" on the knowledge-sharing panel. */
    method ShowPopularResults()
      modifies this
      ensures showPopularResults
      ensures visibleCourses == old(visibleCourses) && visibleSkillsCount == old(visibleSkillsCount)
    {
      showPopularResults := true;
    }

    /** The effect run when the step changes to `step`: entering the result phase starts it over. */
    method OnStepChange(step: int)
      requires Valid()
      modifies this
      ensures Valid()
      ensures step == 4 ==> visibleCourses == COURSES_PER_PAGE && !showPopularResults
      ensures step != 4 ==> visibleCourses == old(visibleCourses) && showPopularResults == old(showPopularResults)
      ensures visibleSkillsCount == old(visibleSkillsCount)
    {
      if step == 4 {
        visibleCourses := COURSES_PER_PAGE;
        showPopularResults := false;
      }
    }

    /** The effect run when the step or the interests change: on step 3 the skill list starts over. */
    method OnSkillsContextChange(step: int)
      requires Valid()
      modifies this
      ensures Valid()
      ensures step == 3 ==> visibleSkillsCount == SKILLS_PER_PAGE
      ensures step != 3 ==> visibleSkillsCount == old(visibleSkillsCount)
      ensures visibleCourses == old(visibleCourses) && showPopularResults == old(showPopularResults)
    {
      if step == 3 {
        visibleSkillsCount := SKILLS_PER_PAGE;
      }
    }
  }

  /** `handleComplete`: the store starts over, then the host hears of the completion. */
  method HandleComplete(store: Store, host: AppHost?)
    modifies store, host
    ensures store.Snapshot() == INITIAL_STATE
    ensures host != null ==> host.Current() == AfterComplete(old(host.Current()))
  {
    store.Reset();
    if host != null {
      host.HandleOnboardingComplete();
    }
  }

  /** `handleSkip`: the host hears of the skip; the answers stay. */
  method HandleSkip(store: Store, host: AppHost?)
    modifies host
    ensures host != null ==> host.Current() == AfterSkip(old(host.Current()))
    ensures store.Snapshot() == old(store.Snapshot())
  {
    if host != null {
      host.HandleOnboardingSkip();
    }
  }
}
