/**
 * The skill summary both the wizard page and the result step show: for each
 * chosen interest in turn, the labels of the chosen concrete skills that belong
 * to that interest's skill list, each label once.
 */
module SkillLabels {
  import opened Seqs
  import opened Wrappers
  import opened OnboardingOptions
  import opened OnboardingStore

  /** `if (!labels.includes(l)) labels.push(l)`. */
  function AddLabel(labels: seq<string>, l: string): (r: seq<string>)
    ensures forall x :: x in r <==> x in labels || x == l
    ensures |labels| <= |r| && r[..|labels|] == labels
  {
    if l in labels then labels else labels + [l]
  }

  /** The skill `s`, chosen under interest `i`, is shown with label `l`. */
  predicate IsFoundLabel(i: string, s: string, l: string) {
    FindChoice(SkillsOf(i), s).Some? && FindChoice(SkillsOf(i), s).value.labelText == l
  }

  /** Some skill of `skills` is shown with label `l` under interest `i`. */
  predicate FoundUnder(i: string, skills: seq<string>, l: string) {
    exists s :: s in skills && IsFoundLabel(i, s, l)
  }

  /** Some skill of `skills` is shown with label `l` under some interest of `interests`. */
  predicate FoundAmong(interests: seq<string>, skills: seq<string>, l: string) {
    exists i :: i in interests && FoundUnder(i, skills, l)
  }

  /** The inner loop over the chosen skills, for one interest's skill list. */
  function ScanSkills(labels: seq<string>, options: seq<Choice>, skills: seq<string>): seq<string>
    decreases |skills|
  {
    if skills == [] then labels
    else
      var prev := ScanSkills(labels, options, skills[..|skills| - 1]);
      match FindChoice(options, skills[|skills| - 1])
      case None => prev
      case Some(c) => AddLabel(prev, c.labelText)
  }

  /** The labels of the chosen skills that `options` holds, in the order the skills were chosen, repeats kept. */
  function FoundLabels(options: seq<Choice>, skills: seq<string>): (r: seq<string>)
    ensures |r| <= |skills|
    decreases |skills|
  {
    if skills == [] then []
    else
      FoundLabels(options, skills[..|skills| - 1]) +
      (match FindChoice(options, skills[|skills| - 1])
       case None => []
       case Some(c) => [c.labelText])
  }

  /** The outer loop over the chosen interests. */
  function ScanInterests(interests: seq<string>, skills: seq<string>): seq<string>
    decreases |interests|
  {
    if interests == [] then []
    else ScanSkills(ScanInterests(interests[..|interests| - 1], skills), SkillsOf(interests[|interests| - 1]), skills)
  }

  /** The summary of the chosen `values` under the chosen `interests`. */
  function SkillLabelsOf(values: seq<string>, interests: seq<string>): seq<string> {
    ScanInterests(interests, ConcreteOf(values))
  }

  // ---------------------------------------------------------------------
  // Properties of the scan
  // ---------------------------------------------------------------------

  /** The scan only appends: what was collected before stays, in place. */
  lemma {:induction false} ScanSkillsExtends(labels: seq<string>, options: seq<Choice>, skills: seq<string>)
    ensures |labels| <= |ScanSkills(labels, options, skills)|
    ensures ScanSkills(labels, options, skills)[..|labels|] == labels
    decreases |skills|
  {
    if skills != [] {
      ScanSkillsExtends(labels, options, skills[..|skills| - 1]);
    }
  }

  /** The scan goes skill by skill: scanning `a + b` is scanning `a`, then `b`. */
  lemma {:induction false} ScanSkillsAppend(labels: seq<string>, options: seq<Choice>, a: seq<string>, b: seq<string>)
    ensures ScanSkills(labels, options, a + b) == ScanSkills(ScanSkills(labels, options, a), options, b)
    decreases |b|
  {
    if b == [] {
      assert a + b == a;
    } else {
      var init := b[..|b| - 1];
      assert (a + b)[..|a + b| - 1] == a + init;
      assert (a + b)[|a + b| - 1] == b[|b| - 1];
      ScanSkillsAppend(labels, options, a, init);
    }
  }

  /** One chosen skill adds its label, unless the list lacks the skill or the label is already there. */
  lemma ScanSkillsOne(labels: seq<string>, options: seq<Choice>, s: string)
    ensures ScanSkills(labels, options, [s]) ==
      match FindChoice(options, s)
      case None => labels
      case Some(c) => if c.labelText in labels then labels else labels + [c.labelText]
  {
    assert [s][..0] == [];
  }

  /** What one scan appends follows the order of the chosen skills. */
  lemma {:induction false} ScanSkillsInSkillOrder(labels: seq<string>, options: seq<Choice>, skills: seq<string>)
    ensures |labels| <= |ScanSkills(labels, options, skills)|
    ensures Subseq(ScanSkills(labels, options, skills)[|labels|..], FoundLabels(options, skills))
    decreases |skills|
  {
    if skills == [] {
      assert ScanSkills(labels, options, skills)[|labels|..] == [];
    } else {
      var init := skills[..|skills| - 1];
      var prev := ScanSkills(labels, options, init);
      ScanSkillsInSkillOrder(labels, options, init);
      var added := prev[|labels|..];
      var f := FoundLabels(options, init);
      match FindChoice(options, skills[|skills| - 1])
      case None =>
        assert FoundLabels(options, skills) == f;
        assert ScanSkills(labels, options, skills) == prev;
      case Some(c) =>
        var l := c.labelText;
        assert FoundLabels(options, skills) == f + [l];
        assert (f + [l])[..|f + [l]| - 1] == f;
        if l !in prev {
          var r := (prev + [l])[|labels|..];
          assert r == added + [l];
          assert r[..|r| - 1] == added;
        }
    }
  }

  lemma {:induction false} ScanSkillsDistinct(labels: seq<string>, options: seq<Choice>, skills: seq<string>)
    requires Distinct(labels)
    ensures Distinct(ScanSkills(labels, options, skills))
    decreases |skills|
  {
    if skills != [] {
      var prev := ScanSkills(labels, options, skills[..|skills| - 1]);
      ScanSkillsDistinct(labels, options, skills[..|skills| - 1]);
      match FindChoice(options, skills[|skills| - 1])
      case None =>
      case Some(c) =>
        if c.labelText !in prev {
          AppendDistinct(prev, c.labelText);
        }
    }
  }

  lemma {:induction false} ScanSkillsMembers(labels: seq<string>, i: string, skills: seq<string>)
    ensures forall l :: l in ScanSkills(labels, SkillsOf(i), skills) <==> l in labels || FoundUnder(i, skills, l)
    decreases |skills|
  {
    if skills != [] {
      var init := skills[..|skills| - 1];
      var last := skills[|skills| - 1];
      ScanSkillsMembers(labels, i, init);
      assert skills == init + [last];
      forall l ensures FoundUnder(i, skills, l) <==> FoundUnder(i, init, l) || IsFoundLabel(i, last, l) {
        if FoundUnder(i, skills, l) {
          var s :| s in skills && IsFoundLabel(i, s, l);
          if s != last {
            assert s in init;
          }
        }
      }
    }
  }

  /** Every label comes from a chosen interest and a chosen skill, and every such label is there. */
  lemma {:induction false} ScanInterestsMembers(interests: seq<string>, skills: seq<string>)
    ensures forall l :: l in ScanInterests(interests, skills) <==> FoundAmong(interests, skills, l)
    decreases |interests|
  {
    if interests != [] {
      var init := interests[..|interests| - 1];
      var last := interests[|interests| - 1];
      ScanInterestsMembers(init, skills);
      ScanSkillsMembers(ScanInterests(init, skills), last, skills);
      assert interests == init + [last];
      forall l ensures FoundAmong(interests, skills, l) <==> FoundAmong(init, skills, l) || FoundUnder(last, skills, l) {
        if FoundAmong(interests, skills, l) {
          var i :| i in interests && FoundUnder(i, skills, l);
          if i != last {
            assert i in init;
          }
        }
      }
    }
  }

  /** No label is shown twice. */
  lemma {:induction false} ScanInterestsDistinct(interests: seq<string>, skills: seq<string>)
    ensures Distinct(ScanInterests(interests, skills))
    decreases |interests|
  {
    if interests != [] {
      var init := interests[..|interests| - 1];
      ScanInterestsDistinct(init, skills);
      ScanSkillsDistinct(ScanInterests(init, skills), SkillsOf(interests[|interests| - 1]), skills);
    }
  }

  /** The labels of the earlier interests come first: the summary grows in interest order. */
  lemma {:induction false} ScanInterestsPrefix(interests: seq<string>, skills: seq<string>, k: nat)
    requires k <= |interests|
    ensures |ScanInterests(interests[..k], skills)| <= |ScanInterests(interests, skills)|
    ensures ScanInterests(interests, skills)[..|ScanInterests(interests[..k], skills)|] == ScanInterests(interests[..k], skills)
    decreases |interests|
  {
    if k < |interests| {
      var init := interests[..|interests| - 1];
      assert init[..k] == interests[..k];
      ScanInterestsPrefix(init, skills, k);
      ScanSkillsExtends(ScanInterests(init, skills), SkillsOf(interests[|interests| - 1]), skills);
    } else {
      assert interests[..k] == interests;
    }
  }

  /** With no chosen interest the summary is empty, whatever skills are chosen. */
  lemma NoInterestsNoLabels(values: seq<string>)
    ensures SkillLabelsOf(values, []) == []
  {
  }

  /** The page's and the result step's nested loop: collects `SkillLabelsOf(values, interests)`. */
  method CollectSkillLabels(values: seq<string>, interests: seq<string>) returns (labels: seq<string>)
    ensures labels == SkillLabelsOf(values, interests)
  {
    var validSkills := ConcreteOf(values);
    labels := [];
    var n := 0;
    while n < |interests|
      invariant 0 <= n <= |interests|
      invariant labels == ScanInterests(interests[..n], validSkills)
    {
      labels := CollectUnder(labels, SkillsOf(interests[n]), validSkills);
      assert interests[..n + 1][..n] == interests[..n];
      n := n + 1;
    }
    assert interests[..n] == interests;
  }

  /** The inner loop: appends the labels `skillOptions` gives the chosen skills, each label once. */
  method CollectUnder(start: seq<string>, skillOptions: seq<Choice>, validSkills: seq<string>) returns (labels: seq<string>)
    ensures labels == ScanSkills(start, skillOptions, validSkills)
  {
    labels := start;
    var m := 0;
    while m < |validSkills|
      invariant 0 <= m <= |validSkills|
      invariant labels == ScanSkills(start, skillOptions, validSkills[..m])
    {
      var found := FindChoice(skillOptions, validSkills[m]);
      assert validSkills[..m + 1][..m] == validSkills[..m];
      if found.Some? && found.value.labelText !in labels {
        labels := labels + [found.value.labelText];
      }
      m := m + 1;
    }
    assert validSkills[..m] == validSkills;
  }

  /**
   * The summary holds exactly the labels of chosen concrete skills found in a
   * chosen interest's list, with no label twice.
   */
  lemma SkillLabelsOfFacts(values: seq<string>, interests: seq<string>)
    ensures Distinct(SkillLabelsOf(values, interests))
    ensures forall l :: l in SkillLabelsOf(values, interests) <==> FoundAmong(interests, ConcreteOf(values), l)
  {
    ScanInterestsDistinct(interests, ConcreteOf(values));
    ScanInterestsMembers(interests, ConcreteOf(values));
  }
}
