/**
 * The wizard's answer store (`useOnboardingStore`): the current step, the three
 * answer lists with their free-text answers, and the completion flag, with the
 * actions that change them.  The three toggle actions share one selection rule,
 * `Toggled`, whose exclusivity between "unsure", "custom" and the concrete
 * values is what the rest of the wizard relies on.
 */
module OnboardingStore {
  import opened Seqs
  import opened OnboardingOptions

  /** A snapshot of the store's state. */
  datatype OnboardingState = OnboardingState(
    currentStep: int,
    purpose: seq<string>,
    customPurposeText: string,
    interests: seq<string>,
    customInterestText: string,
    skills: seq<string>,
    customSkillText: string,
    isCompleted: bool)

  /** The state a fresh store, and every `reset`, starts from. */
  const INITIAL_STATE: OnboardingState := OnboardingState(1, [], "", [], "", [], "", false)

  /** A value that is neither of the two reserved answers. */
  predicate IsConcrete(v: string) {
    !IsSentinel(v)
  }

  /**
   * The list after the user taps `v`, the rule all three toggle actions share:
   * "unsure" switches between being the only answer and no answer, "custom"
   * drops "unsure" and flips itself, and a concrete value drops both reserved
   * answers and flips itself, appended at the end when it is added.
   */
  function Toggled(l: seq<string>, v: string): (r: seq<string>)
    ensures v == UNSURE ==> (r == [] <==> UNSURE in l) && (r == [UNSURE] <==> UNSURE !in l)
    ensures v == CUSTOM ==>
      UNSURE !in r && (CUSTOM in r <==> CUSTOM !in l) &&
      (forall x :: IsConcrete(x) ==> (x in r <==> x in l))
    ensures IsConcrete(v) ==>
      UNSURE !in r && CUSTOM !in r && (v in r <==> v !in l) &&
      (forall x :: IsConcrete(x) && x != v ==> (x in r <==> x in l))
    // Order: a value that joins goes at the end, and the answers that stay keep their order.
    ensures v != UNSURE && v !in l ==> |r| > 0 && r[|r| - 1] == v && Subseq(r[..|r| - 1], l)
    ensures v != UNSURE && v in l ==> Subseq(r, l)
  {
    if v == UNSURE then
      if UNSURE in l then [] else [UNSURE]
    else if v == CUSTOM then
      var f := Without(l, UNSURE);
      FilterSubseq(l, NotEqualTo(UNSURE));
      if CUSTOM in f then
        FilterSubseq(f, NotEqualTo(CUSTOM));
        SubseqTrans(Without(f, CUSTOM), f, l);
        Without(f, CUSTOM)
      else
        assert (f + [CUSTOM])[..|f|] == f;
        f + [CUSTOM]
    else
      var f := Filter(l, IsConcrete);
      FilterSubseq(l, IsConcrete);
      if v in f then
        FilterSubseq(f, NotEqualTo(v));
        SubseqTrans(Without(f, v), f, l);
        Without(f, v)
      else
        assert (f + [v])[..|f|] == f;
        f + [v]
  }

  /** The shape every list built by toggles alone keeps: no duplicate, and "unsure" only on its own. */
  predicate Consistent(l: seq<string>) {
    Distinct(l) && (UNSURE in l ==> l == [UNSURE])
  }

  /** The concrete answers of a list, in order. */
  function ConcreteOf(l: seq<string>): (r: seq<string>)
    ensures forall x :: x in r <==> x in l && IsConcrete(x)
  {
    Filter(l, IsConcrete)
  }

  /** The "n selected" counter of the step components: every answer but "unsure", "custom" included. */
  function SelectionCount(l: seq<string>): (r: nat)
    ensures r <= |l|
    ensures CUSTOM in l ==> r > 0
  {
    |Without(l, UNSURE)|
  }

  // ---------------------------------------------------------------------
  // Lemmas about the selection rule
  // ---------------------------------------------------------------------

  lemma {:induction false} WithoutDistinct(l: seq<string>, x: string)
    requires Distinct(l)
    ensures Distinct(Without(l, x))
  {
    FilterDistinct(l, NotEqualTo(x));
  }

  /** Every toggle keeps a consistent list consistent. */
  lemma {:induction false} ToggledConsistent(l: seq<string>, v: string)
    requires Consistent(l)
    ensures Consistent(Toggled(l, v))
  {
    if v == CUSTOM {
      var f := Without(l, UNSURE);
      WithoutDistinct(l, UNSURE);
      if CUSTOM in f {
        WithoutDistinct(f, CUSTOM);
      } else {
        AppendDistinct(f, CUSTOM);
      }
    } else if v != UNSURE {
      var f := Filter(l, IsConcrete);
      FilterDistinct(l, IsConcrete);
      if v in f {
        WithoutDistinct(f, v);
      } else {
        AppendDistinct(f, v);
      }
    }
  }

  /** Any sequence of taps starting from no answer yields a consistent list. */
  function ToggleAll(l: seq<string>, taps: seq<string>): (r: seq<string>)
    decreases |taps|
  {
    if taps == [] then l else ToggleAll(Toggled(l, taps[0]), taps[1..])
  }

  lemma {:induction false} ToggleAllConsistent(l: seq<string>, taps: seq<string>)
    requires Consistent(l)
    ensures Consistent(ToggleAll(l, taps))
    decreases |taps|
  {
    if taps != [] {
      ToggledConsistent(l, taps[0]);
      ToggleAllConsistent(Toggled(l, taps[0]), taps[1..]);
    }
  }

  /** The reserved answers never mix with each other after a toggle. */
  lemma ToggledNeverMixesReserved(l: seq<string>, v: string)
    ensures !(UNSURE in Toggled(l, v) && CUSTOM in Toggled(l, v))
  {
  }

  /** Tapping "custom" twice on a list without reserved answers restores it. */
  lemma {:induction false} CustomTwice(l: seq<string>)
    requires UNSURE !in l && CUSTOM !in l
    ensures Toggled(Toggled(l, CUSTOM), CUSTOM) == l
  {
    WithoutAbsent(l, UNSURE);
    var once := l + [CUSTOM];
    assert Toggled(l, CUSTOM) == once;
    FilterSnoc(l, CUSTOM, NotEqualTo(UNSURE));
    assert Without(once, UNSURE) == once;
    FilterSnoc(l, CUSTOM, NotEqualTo(CUSTOM));
    WithoutAbsent(l, CUSTOM);
  }

  /** Tapping an unselected concrete value twice on a list without reserved answers restores it. */
  lemma {:induction false} ConcreteTwice(l: seq<string>, v: string)
    requires IsConcrete(v) && v !in l
    requires forall x :: x in l ==> IsConcrete(x)
    ensures Toggled(Toggled(l, v), v) == l
  {
    FilterIdentity(l, IsConcrete);
    var once := l + [v];
    assert Toggled(l, v) == once;
    FilterSnoc(l, v, IsConcrete);
    assert Filter(once, IsConcrete) == once;
    FilterSnoc(l, v, NotEqualTo(v));
    WithoutAbsent(l, v);
  }

  /** Tapping "unsure" twice on a list without it clears the list. */
  lemma UnsureTwice(l: seq<string>)
    requires UNSURE !in l
    ensures Toggled(Toggled(l, UNSURE), UNSURE) == []
  {
  }

  /** "custom" keeps the concrete answers exactly as they were, order included. */
  lemma {:induction false} CustomKeepsConcrete(l: seq<string>)
    ensures ConcreteOf(Toggled(l, CUSTOM)) == ConcreteOf(l)
  {
    var f := Without(l, UNSURE);
    FilterCompose(l, NotEqualTo(UNSURE), IsConcrete);
    if CUSTOM in f {
      FilterCompose(f, NotEqualTo(CUSTOM), IsConcrete);
    } else {
      FilterSnoc(f, CUSTOM, IsConcrete);
    }
  }

  /** On a consistent list the counter is zero with "unsure" and the list's length without it. */
  lemma SelectionCountConsistent(l: seq<string>)
    requires Consistent(l)
    ensures SelectionCount(l) == if UNSURE in l then 0 else |l|
  {
    if UNSURE !in l {
      WithoutAbsent(l, UNSURE);
    }
  }

  // ---------------------------------------------------------------------
  // The store
  // ---------------------------------------------------------------------

  class Store {
    var currentStep: int
    var purpose: seq<string>
    var customPurposeText: string
    var interests: seq<string>
    var customInterestText: string
    var skills: seq<string>
    var customSkillText: string
    var isCompleted: bool

    function Snapshot(): OnboardingState
      reads this
    {
      OnboardingState(currentStep, purpose, customPurposeText, interests,
                      customInterestText, skills, customSkillText, isCompleted)
    }

    constructor ()
      ensures Snapshot() == INITIAL_STATE
    {
      currentStep := 1;
      purpose := [];
      customPurposeText := "";
      interests := [];
      customInterestText := "";
      skills := [];
      customSkillText := "";
      isCompleted := false;
    }

    method SetPurpose(l: seq<string>)
      modifies this
      ensures Snapshot() == old(Snapshot()).(purpose := l)
    {
      purpose := l;
    }

    method SetCustomPurposeText(text: string)
      modifies this
      ensures Snapshot() == old(Snapshot()).(customPurposeText := text)
    {
      customPurposeText := text;
    }

    method TogglePurpose(value: string)
      modifies this
      ensures Snapshot() == old(Snapshot()).(purpose := Toggled(old(purpose), value))
      ensures Consistent(old(purpose)) ==> Consistent(purpose)
    {
      if Consistent(purpose) {
        ToggledConsistent(purpose, value);
      }
      purpose := Toggled(purpose, value);
    }

    method SetInterests(l: seq<string>)
      modifies this
      ensures Snapshot() == old(Snapshot()).(interests := l)
    {
      interests := l;
    }

    method SetCustomInterestText(text: string)
      modifies this
      ensures Snapshot() == old(Snapshot()).(customInterestText := text)
    {
      customInterestText := text;
    }

    method ToggleInterest(value: string)
      modifies this
      ensures Snapshot() == old(Snapshot()).(interests := Toggled(old(interests), value))
      ensures Consistent(old(interests)) ==> Consistent(interests)
    {
      if Consistent(interests) {
        ToggledConsistent(interests, value);
      }
      interests := Toggled(interests, value);
    }

    method SetSkills(l: seq<string>)
      modifies this
      ensures Snapshot() == old(Snapshot()).(skills := l)
    {
      skills := l;
    }

    method SetCustomSkillText(text: string)
      modifies this
      ensures Snapshot() == old(Snapshot()).(customSkillText := text)
    {
      customSkillText := text;
    }

    method ToggleSkill(value: string)
      modifies this
      ensures Snapshot() == old(Snapshot()).(skills := Toggled(old(skills), value))
      ensures Consistent(old(skills)) ==> Consistent(skills)
    {
      if Consistent(skills) {
        ToggledConsistent(skills, value);
      }
      skills := Toggled(skills, value);
    }

    method NextStep()
      modifies this
      ensures Snapshot() == old(Snapshot()).(currentStep := old(currentStep) + 1)
    {
      currentStep := currentStep + 1;
    }

    /** Steps back, never below zero. */
    method PrevStep()
      modifies this
      ensures Snapshot() == old(Snapshot()).(currentStep := PrevStepOf(old(currentStep)))
      ensures currentStep >= 0
    {
      currentStep := PrevStepOf(currentStep);
    }

    method GoToStep(step: int)
      modifies this
      ensures Snapshot() == old(Snapshot()).(currentStep := step)
    {
      currentStep := step;
    }

    method Complete()
      modifies this
      ensures Snapshot() == old(Snapshot()).(isCompleted := true)
    {
      isCompleted := true;
    }

    method Reset()
      modifies this
      ensures Snapshot() == INITIAL_STATE
    {
      currentStep := 1;
      purpose := [];
      customPurposeText := "";
      interests := [];
      customInterestText := "";
      skills := [];
      customSkillText := "";
      isCompleted := false;
    }
  }

  /** `Math.max(0, step - 1)`. */
  function PrevStepOf(step: int): (r: int)
    ensures r >= 0
    ensures step >= 1 ==> r == step - 1
    ensures step <= 1 ==> r == 0
  {
    if step - 1 >= 0 then step - 1 else 0
  }
}
