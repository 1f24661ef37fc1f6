/**
 * The option catalogs of the onboarding wizard: the purposes of question 1,
 * the interests of question 2, and the skills of question 3 grouped by
 * interest, together with the data facts the wizard's rules depend on.
 */
module OnboardingOptions {
  import opened Seqs
  import opened Wrappers

  /** The two reserved answer values that every question offers besides its catalog. */
  const UNSURE: string := "unsure"
  const CUSTOM: string := "custom"

  /** The interest the step-3 skills list ignores and the interest chips never offer. */
  const OTHER: string := "other"

  /** The number of question steps; step 4 is the result phase. */
  const TOTAL_STEPS: int := 3

  datatype PurposeOption = PurposeOption(value: string, labelText: string, description: string)

  /** An interest or a skill: a stored value and the label shown for it. */
  datatype Choice = Choice(value: string, labelText: string)

  /** One entry of the `SKILL_OPTIONS` record: an interest key and its skills. */
  datatype SkillGroup = SkillGroup(interest: string, skills: seq<Choice>)

  const PURPOSE_OPTIONS: seq<PurposeOption> := [
    PurposeOption("job_seeking", "취업 · 이직", "면접 준비, 포트폴리오, 역량 증명"),
    PurposeOption("efficiency", "업무 역량", "AI·도구 활용, 자동화, 생산성 향상, 실무 강화, 커뮤니케이션"),
    PurposeOption("new_start", "새로운 시작", "처음 배우는 분야, 최신 기술, 입문/비전공자"),
    PurposeOption("advanced", "심화 역량", "전문성 강화, 고급 실무 역량, 시니어 레벨, 리더십"),
    PurposeOption("side_project", "부업 · 사이드 프로젝트", "내 서비스 만들기, 추가 수입, 재테크"),
    PurposeOption("certification", "자격증 · 시험", "공인 시험/자격 취득 (IT, 어학, 전문)"),
    PurposeOption("self_development", "취미 · 교양 · 자기계발", "업무 외 개인적 성장 (외국어, 예술, 건강, 마인드 등)"),
    PurposeOption("knowledge_sharing", "지식공유 참여", "내 지식과 경험 나누기, 강의/챌린지/클립/멘토링 제작")
  ]

  const INTEREST_OPTIONS: seq<Choice> := [
    Choice("frontend", "프론트엔드"),
    Choice("backend", "백엔드"),
    Choice("mobile", "모바일"),
    Choice("data", "데이터"),
    Choice("ai", "인공지능"),
    Choice("devops", "데브옵스"),
    Choice("security", "보안"),
    Choice("game", "게임"),
    Choice("design", "디자인"),
    Choice("planning", "기획"),
    Choice("marketing", "마케팅"),
    Choice("other", "기타")
  ]

  const FRONTEND_SKILLS: seq<Choice> := [
    Choice("html_css", "HTML/CSS"), Choice("javascript", "JavaScript"),
    Choice("typescript", "TypeScript"), Choice("react", "React"),
    Choice("vue", "Vue.js"), Choice("nextjs", "Next.js"),
    Choice("svelte", "Svelte"), Choice("tailwind", "Tailwind CSS")
  ]
  const BACKEND_SKILLS: seq<Choice> := [
    Choice("nodejs", "Node.js"), Choice("python", "Python"),
    Choice("java", "Java"), Choice("spring", "Spring"),
    Choice("django", "Django"), Choice("nestjs", "NestJS"),
    Choice("go", "Go"), Choice("database", "Database")
  ]
  const MOBILE_SKILLS: seq<Choice> := [
    Choice("react_native", "React Native"), Choice("flutter", "Flutter"),
    Choice("swift", "Swift"), Choice("kotlin", "Kotlin"),
    Choice("ios", "iOS 개발"), Choice("android", "Android 개발")
  ]
  const DATA_SKILLS: seq<Choice> := [
    Choice("sql", "SQL"), Choice("python_data", "Python 데이터분석"),
    Choice("pandas", "Pandas"), Choice("visualization", "데이터 시각화"),
    Choice("bigquery", "BigQuery"), Choice("spark", "Spark"),
    Choice("tableau", "Tableau")
  ]
  const AI_SKILLS: seq<Choice> := [
    Choice("machine_learning", "머신러닝"), Choice("deep_learning", "딥러닝"),
    Choice("pytorch", "PyTorch"), Choice("tensorflow", "TensorFlow"),
    Choice("nlp", "자연어처리"), Choice("computer_vision", "컴퓨터비전"),
    Choice("llm", "LLM/ChatGPT")
  ]
  const DEVOPS_SKILLS: seq<Choice> := [
    Choice("docker", "Docker"), Choice("kubernetes", "Kubernetes"),
    Choice("aws", "AWS"), Choice("gcp", "GCP"),
    Choice("cicd", "CI/CD"), Choice("terraform", "Terraform"),
    Choice("linux", "Linux")
  ]
  const SECURITY_SKILLS: seq<Choice> := [
    Choice("web_security", "웹 보안"), Choice("network_security", "네트워크 보안"),
    Choice("encryption", "암호화"), Choice("pentest", "모의해킹"),
    Choice("security_cert", "보안 자격증")
  ]
  const GAME_SKILLS: seq<Choice> := [
    Choice("unity", "Unity"), Choice("unreal", "Unreal Engine"),
    Choice("csharp_game", "C# 게임개발"), Choice("cpp_game", "C++ 게임개발"),
    Choice("game_design", "게임 기획")
  ]
  const DESIGN_SKILLS: seq<Choice> := [
    Choice("figma", "Figma"), Choice("ux_design", "UX 디자인"),
    Choice("ui_design", "UI 디자인"), Choice("graphic_design", "그래픽 디자인"),
    Choice("motion", "모션 그래픽"), Choice("photoshop", "Photoshop")
  ]
  const PLANNING_SKILLS: seq<Choice> := [
    Choice("product_management", "프로덕트 매니지먼트"), Choice("agile", "애자일/스크럼"),
    Choice("user_research", "사용자 리서치"), Choice("data_analysis", "데이터 분석"),
    Choice("prototyping", "프로토타이핑")
  ]
  const MARKETING_SKILLS: seq<Choice> := [
    Choice("digital_marketing", "디지털 마케팅"), Choice("growth_hacking", "그로스 해킹"),
    Choice("seo", "SEO"), Choice("content_marketing", "콘텐츠 마케팅"),
    Choice("analytics", "마케팅 분석")
  ]
  const OTHER_SKILLS: seq<Choice> := [
    Choice("excel", "Excel"), Choice("notion", "Notion"),
    Choice("automation", "업무 자동화"), Choice("productivity", "생산성 도구")
  ]

  /** `SKILL_OPTIONS`, in the record's key order. */
  const SKILL_OPTIONS: seq<SkillGroup> := [
    SkillGroup("frontend", FRONTEND_SKILLS),
    SkillGroup("backend", BACKEND_SKILLS),
    SkillGroup("mobile", MOBILE_SKILLS),
    SkillGroup("data", DATA_SKILLS),
    SkillGroup("ai", AI_SKILLS),
    SkillGroup("devops", DEVOPS_SKILLS),
    SkillGroup("security", SECURITY_SKILLS),
    SkillGroup("game", GAME_SKILLS),
    SkillGroup("design", DESIGN_SKILLS),
    SkillGroup("planning", PLANNING_SKILLS),
    SkillGroup("marketing", MARKETING_SKILLS),
    SkillGroup("other", OTHER_SKILLS)
  ]

  predicate IsSentinel(v: string) {
    v == UNSURE || v == CUSTOM
  }

  /** `SKILL_OPTIONS[key] || []`: the skills of the first group with that key, or none. */
  function SkillsOfIn(groups: seq<SkillGroup>, key: string): (r: seq<Choice>)
    ensures (forall g :: g in groups ==> g.interest != key) ==> r == []
    ensures r != [] ==> SkillGroup(key, r) in groups
  {
    if groups == [] then []
    else if groups[0].interest == key then groups[0].skills
    else SkillsOfIn(groups[1..], key)
  }

  function SkillsOf(key: string): seq<Choice> {
    SkillsOfIn(SKILL_OPTIONS, key)
  }

  /** `Object.values(groups).flat()`. */
  function FlattenGroups(groups: seq<SkillGroup>): (r: seq<Choice>)
    ensures forall c :: c in r <==> exists g :: g in groups && c in g.skills
  {
    if groups == [] then [] else groups[0].skills + FlattenGroups(groups[1..])
  }

  /** Every skill of the catalog, in key order: the step-3 fallback list. */
  function AllSkills(): seq<Choice> {
    FlattenGroups(SKILL_OPTIONS)
  }

  /** The value of the first option carrying `v`, as `options.find((o) => o.value === v)`. */
  function FindChoice(options: seq<Choice>, v: string): (r: Option<Choice>)
    ensures r.Some? ==> r.value in options && r.value.value == v
    ensures r.None? <==> forall c :: c in options ==> c.value != v
  {
    if options == [] then None
    else if options[0].value == v then Some(options[0])
    else FindChoice(options[1..], v)
  }

  function FindPurpose(v: string): (r: Option<PurposeOption>)
    ensures r.Some? ==> r.value in PURPOSE_OPTIONS && r.value.value == v
    ensures r.None? <==> forall o :: o in PURPOSE_OPTIONS ==> o.value != v
  {
    FindPurposeIn(PURPOSE_OPTIONS, v)
  }

  function FindPurposeIn(options: seq<PurposeOption>, v: string): (r: Option<PurposeOption>)
    ensures r.Some? ==> r.value in options && r.value.value == v
    ensures r.None? <==> forall o :: o in options ==> o.value != v
  {
    if options == [] then None
    else if options[0].value == v then Some(options[0])
    else FindPurposeIn(options[1..], v)
  }

  predicate DistinctValues(s: seq<Choice>) {
    forall i, j :: 0 <= i < j < |s| ==> s[i].value != s[j].value
  }

  predicate DistinctPurposeValues(s: seq<PurposeOption>) {
    forall i, j :: 0 <= i < j < |s| ==> s[i].value != s[j].value
  }

  predicate DistinctLabels(s: seq<Choice>) {
    forall i, j :: 0 <= i < j < |s| ==> s[i].labelText != s[j].labelText
  }

  predicate DistinctPurposeLabels(s: seq<PurposeOption>) {
    forall i, j :: 0 <= i < j < |s| ==> s[i].labelText != s[j].labelText
  }

  /** No value occurs in both lists. */
  predicate ValuesDisjoint(a: seq<Choice>, b: seq<Choice>) {
    forall i, j :: 0 <= i < |a| && 0 <= j < |b| ==> a[i].value != b[j].value
  }

  /** The shape every skill list of the catalog has. */
  predicate WellFormedGroup(g: seq<Choice>) {
    4 <= |g| <= 8 && DistinctValues(g) &&
    forall i :: 0 <= i < |g| ==> !IsSentinel(g[i].value) && g[i].labelText != ""
  }

  /** Every group's list is duplicate-free and no two groups share a value. */
  predicate GroupsDisjoint(gs: seq<SkillGroup>) {
    (forall k :: 0 <= k < |gs| ==> DistinctValues(gs[k].skills)) &&
    (forall i, j :: 0 <= i < j < |gs| ==> ValuesDisjoint(gs[i].skills, gs[j].skills))
  }

  predicate DistinctInterests(gs: seq<SkillGroup>) {
    forall i, j :: 0 <= i < j < |gs| ==> gs[i].interest != gs[j].interest
  }

  // ---------------------------------------------------------------------
  // Lemmas about the lookups
  // ---------------------------------------------------------------------

  lemma DistinctValuesAppend(a: seq<Choice>, b: seq<Choice>)
    requires DistinctValues(a) && DistinctValues(b) && ValuesDisjoint(a, b)
    ensures DistinctValues(a + b)
  {
    var t := a + b;
    forall i, j | 0 <= i < j < |t| ensures t[i].value != t[j].value {
      if i < |a| && j >= |a| {
        assert t[i] == a[i] && t[j] == b[j - |a|];
      } else if i >= |a| {
        assert t[i] == b[i - |a|] && t[j] == b[j - |a|];
      }
    }
  }

  lemma {:induction false} DisjointFromFlatten(a: seq<Choice>, gs: seq<SkillGroup>)
    requires forall k :: 0 <= k < |gs| ==> ValuesDisjoint(a, gs[k].skills)
    ensures ValuesDisjoint(a, FlattenGroups(gs))
    decreases |gs|
  {
    if gs != [] {
      assert forall k :: 0 <= k < |gs[1..]| ==> gs[1..][k] == gs[k + 1];
      DisjointFromFlatten(a, gs[1..]);
      var b: seq<Choice>, c: seq<Choice> := gs[0].skills, FlattenGroups(gs[1..]);
      forall i, j | 0 <= i < |a| && 0 <= j < |b + c| ensures a[i].value != (b + c)[j].value {
        if j < |b| {
          assert (b + c)[j] == b[j];
        } else {
          assert (b + c)[j] == c[j - |b|];
        }
      }
    }
  }

  /** Groups that are duplicate-free and pairwise apart flatten to a duplicate-free list. */
  lemma {:induction false} FlattenDistinct(gs: seq<SkillGroup>)
    requires GroupsDisjoint(gs)
    ensures DistinctValues(FlattenGroups(gs))
    decreases |gs|
  {
    if gs != [] {
      var rest := gs[1..];
      assert forall k :: 0 <= k < |rest| ==> rest[k] == gs[k + 1];
      FlattenDistinct(rest);
      DisjointFromFlatten(gs[0].skills, rest);
      DistinctValuesAppend(gs[0].skills, FlattenGroups(rest));
    }
  }

  /** With unique keys, looking a group's key up yields exactly that group's skills. */
  lemma {:induction false} SkillsOfAt(gs: seq<SkillGroup>, k: nat)
    requires k < |gs| && DistinctInterests(gs)
    ensures SkillsOfIn(gs, gs[k].interest) == gs[k].skills
    decreases k
  {
    if k > 0 {
      assert gs[0].interest != gs[k].interest;
      assert gs[1..][k - 1] == gs[k];
      SkillsOfAt(gs[1..], k - 1);
    }
  }

  /** With unique values, looking an option's value up finds that very option. */
  lemma {:induction false} FindChoiceAt(options: seq<Choice>, k: nat)
    requires k < |options| && DistinctValues(options)
    ensures FindChoice(options, options[k].value) == Some(options[k])
    decreases k
  {
    if k > 0 {
      assert options[0].value != options[k].value;
      assert options[1..][k - 1] == options[k];
      FindChoiceAt(options[1..], k - 1);
    }
  }

  lemma {:induction false} FindPurposeAt(options: seq<PurposeOption>, k: nat)
    requires k < |options| && DistinctPurposeValues(options)
    ensures FindPurposeIn(options, options[k].value) == Some(options[k])
    decreases k
  {
    if k > 0 {
      assert options[0].value != options[k].value;
      assert options[1..][k - 1] == options[k];
      FindPurposeAt(options[1..], k - 1);
    }
  }

  // ---------------------------------------------------------------------
  // Data facts
  // ---------------------------------------------------------------------

  lemma PurposeCatalog()
    ensures |PURPOSE_OPTIONS| == 8
    ensures DistinctPurposeValues(PURPOSE_OPTIONS)
    ensures exists o :: o in PURPOSE_OPTIONS && o.value == "knowledge_sharing"
    ensures forall o :: o in PURPOSE_OPTIONS ==> !IsSentinel(o.value) && o.labelText != ""
  {
    assert PURPOSE_OPTIONS[7].value == "knowledge_sharing";
  }

  lemma PurposeLabelsDistinct()
    ensures DistinctPurposeLabels(PURPOSE_OPTIONS)
  {
  }

  /** Looking up a purpose's value finds that purpose, and purposes are told apart by label. */
  lemma PurposeLookup()
    ensures forall o :: o in PURPOSE_OPTIONS ==> FindPurpose(o.value) == Some(o)
    ensures forall o, o' :: o in PURPOSE_OPTIONS && o' in PURPOSE_OPTIONS && o.labelText == o'.labelText ==> o == o'
  {
    PurposeCatalog();
    PurposeLabelsDistinct();
    forall o | o in PURPOSE_OPTIONS ensures FindPurpose(o.value) == Some(o) {
      var k :| 0 <= k < |PURPOSE_OPTIONS| && PURPOSE_OPTIONS[k] == o;
      FindPurposeAt(PURPOSE_OPTIONS, k);
    }
  }

  lemma InterestLabelsDistinct()
    ensures DistinctLabels(INTEREST_OPTIONS)
  {
  }

  /** Looking up an interest's value finds that interest, and interests are told apart by label. */
  lemma InterestLookup()
    ensures forall c :: c in INTEREST_OPTIONS ==> FindChoice(INTEREST_OPTIONS, c.value) == Some(c)
    ensures forall c, c' :: c in INTEREST_OPTIONS && c' in INTEREST_OPTIONS && c.labelText == c'.labelText ==> c == c'
  {
    InterestValuesDistinct();
    InterestLabelsDistinct();
    forall c | c in INTEREST_OPTIONS ensures FindChoice(INTEREST_OPTIONS, c.value) == Some(c) {
      var k :| 0 <= k < |INTEREST_OPTIONS| && INTEREST_OPTIONS[k] == c;
      FindChoiceAt(INTEREST_OPTIONS, k);
    }
  }

  lemma InterestValuesDistinct()
    ensures DistinctValues(INTEREST_OPTIONS)
  {
  }

  lemma InterestCatalog()
    ensures |INTEREST_OPTIONS| == 12
    ensures DistinctValues(INTEREST_OPTIONS)
    ensures forall c :: c in INTEREST_OPTIONS ==> !IsSentinel(c.value) && c.labelText != ""
    ensures INTEREST_OPTIONS[11].value == OTHER
  {
    InterestValuesDistinct();
  }

  lemma FrontendGroup() ensures WellFormedGroup(FRONTEND_SKILLS) {}
  lemma BackendGroup() ensures WellFormedGroup(BACKEND_SKILLS) {}
  lemma MobileGroup() ensures WellFormedGroup(MOBILE_SKILLS) {}
  lemma DataGroup() ensures WellFormedGroup(DATA_SKILLS) {}
  lemma AiGroup() ensures WellFormedGroup(AI_SKILLS) {}
  lemma DevopsGroup() ensures WellFormedGroup(DEVOPS_SKILLS) {}
  lemma SecurityGroup() ensures WellFormedGroup(SECURITY_SKILLS) {}
  lemma GameGroup() ensures WellFormedGroup(GAME_SKILLS) {}
  lemma DesignGroup() ensures WellFormedGroup(DESIGN_SKILLS) {}
  lemma PlanningGroup() ensures WellFormedGroup(PLANNING_SKILLS) {}
  lemma MarketingGroup() ensures WellFormedGroup(MARKETING_SKILLS) {}
  lemma OtherGroup() ensures WellFormedGroup(OTHER_SKILLS) {}

  lemma FrontendBackendApart() ensures ValuesDisjoint(FRONTEND_SKILLS, BACKEND_SKILLS) {}
  lemma FrontendMobileApart() ensures ValuesDisjoint(FRONTEND_SKILLS, MOBILE_SKILLS) {}
  lemma FrontendDataApart() ensures ValuesDisjoint(FRONTEND_SKILLS, DATA_SKILLS) {}
  lemma FrontendAiApart() ensures ValuesDisjoint(FRONTEND_SKILLS, AI_SKILLS) {}
  lemma FrontendDevopsApart() ensures ValuesDisjoint(FRONTEND_SKILLS, DEVOPS_SKILLS) {}
  lemma FrontendSecurityApart() ensures ValuesDisjoint(FRONTEND_SKILLS, SECURITY_SKILLS) {}
  lemma FrontendGameApart() ensures ValuesDisjoint(FRONTEND_SKILLS, GAME_SKILLS) {}
  lemma FrontendDesignApart() ensures ValuesDisjoint(FRONTEND_SKILLS, DESIGN_SKILLS) {}
  lemma FrontendPlanningApart() ensures ValuesDisjoint(FRONTEND_SKILLS, PLANNING_SKILLS) {}
  lemma FrontendMarketingApart() ensures ValuesDisjoint(FRONTEND_SKILLS, MARKETING_SKILLS) {}
  lemma FrontendOtherApart() ensures ValuesDisjoint(FRONTEND_SKILLS, OTHER_SKILLS) {}
  lemma BackendMobileApart() ensures ValuesDisjoint(BACKEND_SKILLS, MOBILE_SKILLS) {}
  lemma BackendDataApart() ensures ValuesDisjoint(BACKEND_SKILLS, DATA_SKILLS) {}
  lemma BackendAiApart() ensures ValuesDisjoint(BACKEND_SKILLS, AI_SKILLS) {}
  lemma BackendDevopsApart() ensures ValuesDisjoint(BACKEND_SKILLS, DEVOPS_SKILLS) {}
  lemma BackendSecurityApart() ensures ValuesDisjoint(BACKEND_SKILLS, SECURITY_SKILLS) {}
  lemma BackendGameApart() ensures ValuesDisjoint(BACKEND_SKILLS, GAME_SKILLS) {}
  lemma BackendDesignApart() ensures ValuesDisjoint(BACKEND_SKILLS, DESIGN_SKILLS) {}
  lemma BackendPlanningApart() ensures ValuesDisjoint(BACKEND_SKILLS, PLANNING_SKILLS) {}
  lemma BackendMarketingApart() ensures ValuesDisjoint(BACKEND_SKILLS, MARKETING_SKILLS) {}
  lemma BackendOtherApart() ensures ValuesDisjoint(BACKEND_SKILLS, OTHER_SKILLS) {}
  lemma MobileDataApart() ensures ValuesDisjoint(MOBILE_SKILLS, DATA_SKILLS) {}
  lemma MobileAiApart() ensures ValuesDisjoint(MOBILE_SKILLS, AI_SKILLS) {}
  lemma MobileDevopsApart() ensures ValuesDisjoint(MOBILE_SKILLS, DEVOPS_SKILLS) {}
  lemma MobileSecurityApart() ensures ValuesDisjoint(MOBILE_SKILLS, SECURITY_SKILLS) {}
  lemma MobileGameApart() ensures ValuesDisjoint(MOBILE_SKILLS, GAME_SKILLS) {}
  lemma MobileDesignApart() ensures ValuesDisjoint(MOBILE_SKILLS, DESIGN_SKILLS) {}
  lemma MobilePlanningApart() ensures ValuesDisjoint(MOBILE_SKILLS, PLANNING_SKILLS) {}
  lemma MobileMarketingApart() ensures ValuesDisjoint(MOBILE_SKILLS, MARKETING_SKILLS) {}
  lemma MobileOtherApart() ensures ValuesDisjoint(MOBILE_SKILLS, OTHER_SKILLS) {}
  lemma DataAiApart() ensures ValuesDisjoint(DATA_SKILLS, AI_SKILLS) {}
  lemma DataDevopsApart() ensures ValuesDisjoint(DATA_SKILLS, DEVOPS_SKILLS) {}
  lemma DataSecurityApart() ensures ValuesDisjoint(DATA_SKILLS, SECURITY_SKILLS) {}
  lemma DataGameApart() ensures ValuesDisjoint(DATA_SKILLS, GAME_SKILLS) {}
  lemma DataDesignApart() ensures ValuesDisjoint(DATA_SKILLS, DESIGN_SKILLS) {}
  lemma DataPlanningApart() ensures ValuesDisjoint(DATA_SKILLS, PLANNING_SKILLS) {}
  lemma DataMarketingApart() ensures ValuesDisjoint(DATA_SKILLS, MARKETING_SKILLS) {}
  lemma DataOtherApart() ensures ValuesDisjoint(DATA_SKILLS, OTHER_SKILLS) {}
  lemma AiDevopsApart() ensures ValuesDisjoint(AI_SKILLS, DEVOPS_SKILLS) {}
  lemma AiSecurityApart() ensures ValuesDisjoint(AI_SKILLS, SECURITY_SKILLS) {}
  lemma AiGameApart() ensures ValuesDisjoint(AI_SKILLS, GAME_SKILLS) {}
  lemma AiDesignApart() ensures ValuesDisjoint(AI_SKILLS, DESIGN_SKILLS) {}
  lemma AiPlanningApart() ensures ValuesDisjoint(AI_SKILLS, PLANNING_SKILLS) {}
  lemma AiMarketingApart() ensures ValuesDisjoint(AI_SKILLS, MARKETING_SKILLS) {}
  lemma AiOtherApart() ensures ValuesDisjoint(AI_SKILLS, OTHER_SKILLS) {}
  lemma DevopsSecurityApart() ensures ValuesDisjoint(DEVOPS_SKILLS, SECURITY_SKILLS) {}
  lemma DevopsGameApart() ensures ValuesDisjoint(DEVOPS_SKILLS, GAME_SKILLS) {}
  lemma DevopsDesignApart() ensures ValuesDisjoint(DEVOPS_SKILLS, DESIGN_SKILLS) {}
  lemma DevopsPlanningApart() ensures ValuesDisjoint(DEVOPS_SKILLS, PLANNING_SKILLS) {}
  lemma DevopsMarketingApart() ensures ValuesDisjoint(DEVOPS_SKILLS, MARKETING_SKILLS) {}
  lemma DevopsOtherApart() ensures ValuesDisjoint(DEVOPS_SKILLS, OTHER_SKILLS) {}
  lemma SecurityGameApart() ensures ValuesDisjoint(SECURITY_SKILLS, GAME_SKILLS) {}
  lemma SecurityDesignApart() ensures ValuesDisjoint(SECURITY_SKILLS, DESIGN_SKILLS) {}
  lemma SecurityPlanningApart() ensures ValuesDisjoint(SECURITY_SKILLS, PLANNING_SKILLS) {}
  lemma SecurityMarketingApart() ensures ValuesDisjoint(SECURITY_SKILLS, MARKETING_SKILLS) {}
  lemma SecurityOtherApart() ensures ValuesDisjoint(SECURITY_SKILLS, OTHER_SKILLS) {}
  lemma GameDesignApart() ensures ValuesDisjoint(GAME_SKILLS, DESIGN_SKILLS) {}
  lemma GamePlanningApart() ensures ValuesDisjoint(GAME_SKILLS, PLANNING_SKILLS) {}
  lemma GameMarketingApart() ensures ValuesDisjoint(GAME_SKILLS, MARKETING_SKILLS) {}
  lemma GameOtherApart() ensures ValuesDisjoint(GAME_SKILLS, OTHER_SKILLS) {}
  lemma DesignPlanningApart() ensures ValuesDisjoint(DESIGN_SKILLS, PLANNING_SKILLS) {}
  lemma DesignMarketingApart() ensures ValuesDisjoint(DESIGN_SKILLS, MARKETING_SKILLS) {}
  lemma DesignOtherApart() ensures ValuesDisjoint(DESIGN_SKILLS, OTHER_SKILLS) {}
  lemma PlanningMarketingApart() ensures ValuesDisjoint(PLANNING_SKILLS, MARKETING_SKILLS) {}
  lemma PlanningOtherApart() ensures ValuesDisjoint(PLANNING_SKILLS, OTHER_SKILLS) {}
  lemma MarketingOtherApart() ensures ValuesDisjoint(MARKETING_SKILLS, OTHER_SKILLS) {}

  lemma FrontendApart()
    ensures forall j :: 0 < j < |SKILL_OPTIONS| ==> ValuesDisjoint(SKILL_OPTIONS[0].skills, SKILL_OPTIONS[j].skills)
  {
    FrontendBackendApart();
    FrontendMobileApart();
    FrontendDataApart();
    FrontendAiApart();
    FrontendDevopsApart();
    FrontendSecurityApart();
    FrontendGameApart();
    FrontendDesignApart();
    FrontendPlanningApart();
    FrontendMarketingApart();
    FrontendOtherApart();
  }

  lemma BackendApart()
    ensures forall j :: 1 < j < |SKILL_OPTIONS| ==> ValuesDisjoint(SKILL_OPTIONS[1].skills, SKILL_OPTIONS[j].skills)
  {
    BackendMobileApart();
    BackendDataApart();
    BackendAiApart();
    BackendDevopsApart();
    BackendSecurityApart();
    BackendGameApart();
    BackendDesignApart();
    BackendPlanningApart();
    BackendMarketingApart();
    BackendOtherApart();
  }

  lemma MobileApart()
    ensures forall j :: 2 < j < |SKILL_OPTIONS| ==> ValuesDisjoint(SKILL_OPTIONS[2].skills, SKILL_OPTIONS[j].skills)
  {
    MobileDataApart();
    MobileAiApart();
    MobileDevopsApart();
    MobileSecurityApart();
    MobileGameApart();
    MobileDesignApart();
    MobilePlanningApart();
    MobileMarketingApart();
    MobileOtherApart();
  }

  lemma DataApart()
    ensures forall j :: 3 < j < |SKILL_OPTIONS| ==> ValuesDisjoint(SKILL_OPTIONS[3].skills, SKILL_OPTIONS[j].skills)
  {
    DataAiApart();
    DataDevopsApart();
    DataSecurityApart();
    DataGameApart();
    DataDesignApart();
    DataPlanningApart();
    DataMarketingApart();
    DataOtherApart();
  }

  lemma AiApart()
    ensures forall j :: 4 < j < |SKILL_OPTIONS| ==> ValuesDisjoint(SKILL_OPTIONS[4].skills, SKILL_OPTIONS[j].skills)
  {
    AiDevopsApart();
    AiSecurityApart();
    AiGameApart();
    AiDesignApart();
    AiPlanningApart();
    AiMarketingApart();
    AiOtherApart();
  }

  lemma DevopsApart()
    ensures forall j :: 5 < j < |SKILL_OPTIONS| ==> ValuesDisjoint(SKILL_OPTIONS[5].skills, SKILL_OPTIONS[j].skills)
  {
    DevopsSecurityApart();
    DevopsGameApart();
    DevopsDesignApart();
    DevopsPlanningApart();
    DevopsMarketingApart();
    DevopsOtherApart();
  }

  lemma SecurityApart()
    ensures forall j :: 6 < j < |SKILL_OPTIONS| ==> ValuesDisjoint(SKILL_OPTIONS[6].skills, SKILL_OPTIONS[j].skills)
  {
    SecurityGameApart();
    SecurityDesignApart();
    SecurityPlanningApart();
    SecurityMarketingApart();
    SecurityOtherApart();
  }

  lemma GameApart()
    ensures forall j :: 7 < j < |SKILL_OPTIONS| ==> ValuesDisjoint(SKILL_OPTIONS[7].skills, SKILL_OPTIONS[j].skills)
  {
    GameDesignApart();
    GamePlanningApart();
    GameMarketingApart();
    GameOtherApart();
  }

  lemma DesignApart()
    ensures forall j :: 8 < j < |SKILL_OPTIONS| ==> ValuesDisjoint(SKILL_OPTIONS[8].skills, SKILL_OPTIONS[j].skills)
  {
    DesignPlanningApart();
    DesignMarketingApart();
    DesignOtherApart();
  }

  lemma PlanningApart()
    ensures forall j :: 9 < j < |SKILL_OPTIONS| ==> ValuesDisjoint(SKILL_OPTIONS[9].skills, SKILL_OPTIONS[j].skills)
  {
    PlanningMarketingApart();
    PlanningOtherApart();
  }

  lemma MarketingApart()
    ensures forall j :: 10 < j < |SKILL_OPTIONS| ==> ValuesDisjoint(SKILL_OPTIONS[10].skills, SKILL_OPTIONS[j].skills)
  {
    MarketingOtherApart();
  }

  /** The record's keys are the interests' values, in the same order. */
  lemma SkillKeys()
    ensures |SKILL_OPTIONS| == |INTEREST_OPTIONS|
    ensures forall k :: 0 <= k < |SKILL_OPTIONS| ==> SKILL_OPTIONS[k].interest == INTEREST_OPTIONS[k].value
  {
  }

  lemma SkillGroupsWellFormed()
    ensures forall k :: 0 <= k < |SKILL_OPTIONS| ==> WellFormedGroup(SKILL_OPTIONS[k].skills)
  {
    FrontendGroup();
    BackendGroup();
    MobileGroup();
    DataGroup();
    AiGroup();
    DevopsGroup();
    SecurityGroup();
    GameGroup();
    DesignGroup();
    PlanningGroup();
    MarketingGroup();
    OtherGroup();
  }

  lemma SkillGroupsApart()
    ensures forall i, j :: 0 <= i < j < |SKILL_OPTIONS| ==> ValuesDisjoint(SKILL_OPTIONS[i].skills, SKILL_OPTIONS[j].skills)
  {
    FrontendApart();
    BackendApart();
    MobileApart();
    DataApart();
    AiApart();
    DevopsApart();
    SecurityApart();
    GameApart();
    DesignApart();
    PlanningApart();
    MarketingApart();
  }

  /** The skills record: one group per interest, in the same order, each well formed and all apart. */
  lemma SkillCatalog()
    ensures |SKILL_OPTIONS| == |INTEREST_OPTIONS|
    ensures forall k :: 0 <= k < |SKILL_OPTIONS| ==> SKILL_OPTIONS[k].interest == INTEREST_OPTIONS[k].value
    ensures DistinctInterests(SKILL_OPTIONS)
    ensures forall k :: 0 <= k < |SKILL_OPTIONS| ==> WellFormedGroup(SKILL_OPTIONS[k].skills)
    ensures GroupsDisjoint(SKILL_OPTIONS)
  {
    SkillKeys();
    InterestCatalog();
    SkillGroupsWellFormed();
    SkillGroupsApart();
  }

  /** Every interest is a key of the skills record and has skills. */
  lemma SkillsOfInterest(k: nat)
    requires k < |INTEREST_OPTIONS|
    ensures SkillsOf(INTEREST_OPTIONS[k].value) == SKILL_OPTIONS[k].skills
    ensures WellFormedGroup(SkillsOf(INTEREST_OPTIONS[k].value))
  {
    SkillCatalog();
    SkillsOfAt(SKILL_OPTIONS, k);
  }

  /** The fallback list `Object.values(SKILL_OPTIONS).flat()` has no duplicate value. */
  lemma AllSkillsDistinct()
    ensures DistinctValues(AllSkills())
    ensures |AllSkills()| == 73
  {
    AllSkillsCount();
    SkillCatalog();
    FlattenDistinct(SKILL_OPTIONS);
  }

  /** The number of skills over a run of groups. */
  function SkillCount(gs: seq<SkillGroup>): nat {
    if gs == [] then 0 else |gs[0].skills| + SkillCount(gs[1..])
  }

  lemma {:induction false} FlattenLength(gs: seq<SkillGroup>)
    ensures |FlattenGroups(gs)| == SkillCount(gs)
    decreases |gs|
  {
    if gs != [] {
      FlattenLength(gs[1..]);
    }
  }

  lemma AllSkillsCount()
    ensures |AllSkills()| == 73
  {
    FlattenLength(SKILL_OPTIONS);
    var gs := SKILL_OPTIONS;
    assert SkillCount(gs[11..]) == 4;
    assert SkillCount(gs[10..]) == 9;
    assert SkillCount(gs[9..]) == 14;
    assert SkillCount(gs[8..]) == 20;
    assert SkillCount(gs[7..]) == 25;
    assert SkillCount(gs[6..]) == 30;
    assert SkillCount(gs[5..]) == 37;
    assert SkillCount(gs[4..]) == 44;
    assert SkillCount(gs[3..]) == 51;
    assert SkillCount(gs[2..]) == 57;
    assert SkillCount(gs[1..]) == 65;
  }
}
