/**
 * The home page's course logic: the popular-course filter chips and their
 * conjunctive filter, the sort selector and its stable sort, the search box
 * and the two display flags it takes from the host.  Ratings are integer
 * tenths.
 */
module HomePage {
  import opened Seqs
  import opened Strings
  import opened Wrappers
  import opened CourseCard
  import opened App

  /** The five filter chips. */
  datatype PopularFilter = Category | AiUsage | Difficulty | Discount | FreeOnly

  /** The five chips in the order the page shows them. */
  const POPULAR_FILTERS: seq<PopularFilter> := [Category, AiUsage, Difficulty, Discount, FreeOnly]

  function FilterLabel(f: PopularFilter): string {
    match f
    case Category => "카테고리"
    case AiUsage => "AI 활용"
    case Difficulty => "난이도"
    case Discount => "할인"
    case FreeOnly => "무료"
  }

  datatype SortOrder = Popular | Rating | PriceLow | PriceHigh

  const DEVELOPMENT_CATEGORY: string := "개발 · 프로그래밍"
  const LEVEL_INTRO: string := "입문"
  const LEVEL_BEGINNER: string := "초급"

  /** `Number.MAX_SAFE_INTEGER`. */
  const MAX_SAFE_INTEGER: int := 9007199254740991

  /** A course of the home page's lists, as far as filtering and sorting read it. */
  datatype HomeCourse = HomeCourse(
    title: string,
    ratingTenths: int,
    studentCount: int,
    category: Option<string>,
    aiUsage: Option<bool>,
    level: Option<string>,
    price: Option<Price>,
    originalPrice: Option<nat>)

  // ---------------------------------------------------------------------
  // Filter chips
  // ---------------------------------------------------------------------

  /** The chip list after a tap on `f`: `f` leaves if it was on, else it joins at the end. */
  function ToggledFilter(l: seq<PopularFilter>, f: PopularFilter): (r: seq<PopularFilter>)
    ensures f in r <==> f !in l
    ensures forall g :: g != f ==> (g in r <==> g in l)
    // Order: a chip that joins goes at the end, and the chips that stay keep their order.
    ensures f !in l ==> |r| > 0 && r[|r| - 1] == f && Subseq(r[..|r| - 1], l)
    ensures f in l ==> Subseq(r, l)
  {
    if f in l then
      FilterSubseq(l, NotEqualTo(f));
      Without(l, f)
    else
      SubseqRefl(l);
      assert (l + [f])[..|l|] == l;
      l + [f]
  }

  /** A tap keeps the chips free of duplicates; a second tap on a chip that was off restores the list. */
  lemma ToggledFilterFacts(l: seq<PopularFilter>, f: PopularFilter)
    ensures Distinct(l) ==> Distinct(ToggledFilter(l, f))
    ensures f !in l ==> ToggledFilter(ToggledFilter(l, f), f) == l
  {
    if Distinct(l) {
      if f in l {
        FilterDistinct(l, NotEqualTo(f));
      } else {
        AppendDistinct(l, f);
      }
    }
    if f !in l {
      FilterSnoc(l, f, NotEqualTo(f));
      WithoutAbsent(l, f);
    }
  }

  /** One chip's condition. */
  predicate MatchesFilter(c: HomeCourse, f: PopularFilter) {
    match f
    case Category => c.category == Some(DEVELOPMENT_CATEGORY)
    case AiUsage => c.aiUsage == Some(true)
    case Difficulty => c.level == Some(LEVEL_INTRO) || c.level == Some(LEVEL_BEGINNER)
    case Discount => HasDiscount(c.price, c.originalPrice)
    case FreeOnly => c.price == Some(Free)
  }

  /** `matchesFilters`: the course meets every active chip's condition. */
  function MatchesFilters(c: HomeCourse, filters: seq<PopularFilter>): (r: bool)
    ensures r <==> forall f :: f in filters ==> MatchesFilter(c, f)
    decreases |filters|
  {
    if filters == [] then true
    else
      var init := filters[..|filters| - 1];
      assert forall f :: f in filters <==> f in init || f == filters[|filters| - 1];
      MatchesFilters(c, init) && MatchesFilter(c, filters[|filters| - 1])
  }

  function PassesFilters(filters: seq<PopularFilter>): HomeCourse -> bool {
    c => MatchesFilters(c, filters)
  }

  /** One list filtered by the active chips. */
  function FilterCourses(courses: seq<HomeCourse>, filters: seq<PopularFilter>): seq<HomeCourse> {
    Filter(courses, PassesFilters(filters))
  }

  /** `filteredAllCourses`: the three lists joined, then filtered. */
  function FilteredAll(popular: seq<HomeCourse>, recent: seq<HomeCourse>, free: seq<HomeCourse>,
                       filters: seq<PopularFilter>): seq<HomeCourse> {
    FilterCourses(popular + recent + free, filters)
  }

  /**
   * A course is kept iff it meets every active chip; the kept courses keep
   * their order, and with no chip on nothing is dropped.
   */
  lemma FilterCoursesSpec(courses: seq<HomeCourse>, filters: seq<PopularFilter>)
    ensures forall c :: c in FilterCourses(courses, filters) <==>
      c in courses && forall f :: f in filters ==> MatchesFilter(c, f)
    ensures Subseq(FilterCourses(courses, filters), courses)
    ensures filters == [] ==> FilterCourses(courses, filters) == courses
  {
    FilterSubseq(courses, PassesFilters(filters));
    if filters == [] {
      FilterIdentity(courses, PassesFilters(filters));
    }
  }

  /** Filtering the joined lists gives the three filtered lists joined. */
  lemma FilteredAllJoins(popular: seq<HomeCourse>, recent: seq<HomeCourse>, free: seq<HomeCourse>,
                         filters: seq<PopularFilter>)
    ensures FilteredAll(popular, recent, free, filters) ==
      FilterCourses(popular, filters) + FilterCourses(recent, filters) + FilterCourses(free, filters)
  {
    FilterAppend(popular + recent, free, PassesFilters(filters));
    FilterAppend(popular, recent, PassesFilters(filters));
  }

  /** Turning one more chip on only ever removes courses. */
  lemma MoreFiltersFewerCourses(c: HomeCourse, filters: seq<PopularFilter>, f: PopularFilter)
    ensures MatchesFilters(c, filters + [f]) <==> MatchesFilters(c, filters) && MatchesFilter(c, f)
  {
  }

  // ---------------------------------------------------------------------
  // Sorting
  // ---------------------------------------------------------------------

  /** `getNumericPrice`: free is 0, an amount is itself, no price sorts last. */
  function NumericPrice(price: Option<Price>): (r: int)
    ensures price == Some(Free) ==> r == 0
    ensures price.Some? && price.value.Won? ==> r == price.value.amount
    ensures price.None? ==> r == MAX_SAFE_INTEGER
    ensures r >= 0
  {
    match price
    case None => MAX_SAFE_INTEGER
    case Some(Free) => 0
    case Some(Won(n)) => n
  }

  /**
   * The key the selected order sorts by, ascending: the comparators compare
   * students, ratings and prices downwards or upwards, and a key smaller by
   * their sign comes first.
   */
  function SortKey(order: SortOrder, c: HomeCourse): int {
    match order
    case Popular => -c.studentCount
    case Rating => -c.ratingTenths
    case PriceLow => NumericPrice(c.price)
    case PriceHigh => -NumericPrice(c.price)
  }

  function KeyOf(order: SortOrder): HomeCourse -> int {
    c => SortKey(order, c)
  }

  predicate SortedBy<T>(s: seq<T>, key: T -> int) {
    forall i, j :: 0 <= i < j < |s| ==> key(s[i]) <= key(s[j])
  }

  /** The elements of `s` whose key is `k`, in order. */
  function OfKey<T>(s: seq<T>, key: T -> int, k: int): seq<T>
    decreases |s|
  {
    if s == [] then []
    else OfKey(s[..|s| - 1], key, k) + (if key(s[|s| - 1]) == k then [s[|s| - 1]] else [])
  }

  /** Insertion of `x` after every element whose key is not larger than its own. */
  function InsertBy<T>(s: seq<T>, x: T, key: T -> int): (r: seq<T>)
    ensures multiset(r) == multiset(s) + multiset{x}
    ensures |r| == |s| + 1
    decreases |s|
  {
    if s == [] then [x]
    else if key(s[|s| - 1]) <= key(x) then s + [x]
    else
      assert s == s[..|s| - 1] + [s[|s| - 1]];
      InsertBy(s[..|s| - 1], x, key) + [s[|s| - 1]]
  }

  /** A stable sort: Array.prototype.sort with the page's comparator, on a copy. */
  function SortBy<T>(s: seq<T>, key: T -> int): (r: seq<T>)
    ensures multiset(r) == multiset(s)
    ensures |r| == |s|
    decreases |s|
  {
    if s == [] then []
    else
      assert s == s[..|s| - 1] + [s[|s| - 1]];
      InsertBy(SortBy(s[..|s| - 1], key), s[|s| - 1], key)
  }

  /** `sortCourses`: the courses in the selected order, the input left as it is. */
  function SortCourses(courses: seq<HomeCourse>, order: SortOrder): seq<HomeCourse> {
    SortBy(courses, KeyOf(order))
  }

  /** Appending an element no smaller than every element keeps a list sorted. */
  lemma SortedSnoc<T>(t: seq<T>, x: T, key: T -> int)
    requires SortedBy(t, key)
    requires forall y :: y in t ==> key(y) <= key(x)
    ensures SortedBy(t + [x], key)
  {
    var r := t + [x];
    forall i, j | 0 <= i < j < |r| ensures key(r[i]) <= key(r[j]) {
      assert r[i] == t[i];
      if j < |t| {
        assert r[j] == t[j];
      }
    }
  }

  lemma {:induction false} InsertMembers<T>(s: seq<T>, x: T, key: T -> int)
    ensures forall y :: y in InsertBy(s, x, key) ==> y == x || y in s
    decreases |s|
  {
    if s != [] && key(s[|s| - 1]) > key(x) {
      InsertMembers(s[..|s| - 1], x, key);
    }
  }

  lemma {:induction false} InsertSorted<T>(s: seq<T>, x: T, key: T -> int)
    requires SortedBy(s, key)
    ensures SortedBy(InsertBy(s, x, key), key)
    decreases |s|
  {
    if s != [] {
      var init := s[..|s| - 1];
      var last := s[|s| - 1];
      if key(last) > key(x) {
        assert SortedBy(init, key);
        InsertSorted(init, x, key);
        InsertMembers(init, x, key);
        forall y | y in InsertBy(init, x, key) ensures key(y) <= key(last) {
          if y != x {
            var k :| 0 <= k < |init| && init[k] == y;
            assert s[k] == y;
          }
        }
        SortedSnoc(InsertBy(init, x, key), last, key);
      } else {
        forall y | y in s ensures key(y) <= key(x) {
          var k :| 0 <= k < |s| && s[k] == y;
        }
        SortedSnoc(s, x, key);
      }
    }
  }

  /** The elements of any one key keep their order through an insertion. */
  lemma {:induction false} InsertStable<T>(s: seq<T>, x: T, key: T -> int, k: int)
    ensures OfKey(InsertBy(s, x, key), key, k) == OfKey(s, key, k) + (if key(x) == k then [x] else [])
    decreases |s|
  {
    if s == [] {
      assert [x][..0] == [];
    } else if key(s[|s| - 1]) <= key(x) {
      assert (s + [x])[..|s|] == s;
    } else {
      var init := s[..|s| - 1];
      var last := s[|s| - 1];
      var t := InsertBy(init, x, key);
      assert (t + [last])[..|t|] == t;
      InsertStable(init, x, key, k);
    }
  }

  /** The sort yields its input in ascending key order. */
  lemma {:induction false} SortBySorted<T>(s: seq<T>, key: T -> int)
    ensures SortedBy(SortBy(s, key), key)
    decreases |s|
  {
    if s != [] {
      SortBySorted(s[..|s| - 1], key);
      InsertSorted(SortBy(s[..|s| - 1], key), s[|s| - 1], key);
    }
  }

  /** Stability: the elements of any one key come out in their input order. */
  lemma {:induction false} SortByStable<T>(s: seq<T>, key: T -> int, k: int)
    ensures OfKey(SortBy(s, key), key, k) == OfKey(s, key, k)
    decreases |s|
  {
    if s != [] {
      var init := s[..|s| - 1];
      var last := s[|s| - 1];
      assert s == init + [last];
      SortByStable(init, key, k);
      InsertStable(SortBy(init, key), last, key, k);
    }
  }

  /**
   * `sortCourses` returns a permutation of the courses, ordered by the
   * selected key, in which courses of equal key keep their input order.
   */
  lemma SortCoursesSpec(courses: seq<HomeCourse>, order: SortOrder, k: int)
    ensures multiset(SortCourses(courses, order)) == multiset(courses)
    ensures SortedBy(SortCourses(courses, order), KeyOf(order))
    ensures OfKey(SortCourses(courses, order), KeyOf(order), k) == OfKey(courses, KeyOf(order), k)
  {
    SortBySorted(courses, KeyOf(order));
    SortByStable(courses, KeyOf(order), k);
  }

  /** In each order the first course wins on its criterion: most students, best rating, lowest or highest price. */
  lemma SortOrderMeaning(courses: seq<HomeCourse>, order: SortOrder, i: nat, j: nat)
    requires i < j < |SortCourses(courses, order)|
    ensures var r := SortCourses(courses, order);
      match order
      case Popular => r[i].studentCount >= r[j].studentCount
      case Rating => r[i].ratingTenths >= r[j].ratingTenths
      case PriceLow => NumericPrice(r[i].price) <= NumericPrice(r[j].price)
      case PriceHigh => NumericPrice(r[i].price) >= NumericPrice(r[j].price)
  {
    SortBySorted(courses, KeyOf(order));
    var r := SortCourses(courses, order);
    assert SortKey(order, r[i]) <= SortKey(order, r[j]);
  }

  // ---------------------------------------------------------------------
  // Search and display flags
  // ---------------------------------------------------------------------

  /** `handleSearch` and the search box's Enter key: the trimmed query, or no search when it is blank. */
  function SubmittedQuery(query: string): (r: Option<string>)
    ensures r.None? <==> IsBlank(query)
    ensures r.Some? ==> r.value == Trim(query) && r.value != "" && Trim(r.value) == r.value
  {
    TrimIdempotent(query);
    if Trim(query) == "" then None else Some(Trim(query))
  }

  /** `useCompactStyle` of the onboarding banner. */
  predicate UseCompactStyle(hasSkipped: bool, isOnboardingOpen: bool) {
    hasSkipped || isOnboardingOpen
  }

  /** The search popover shows while the box is focused, until onboarding is completed. */
  predicate ShowSearchPopover(isOnboardingCompleted: bool, isSearchPopoverOpen: bool) {
    !isOnboardingCompleted && isSearchPopoverOpen
  }

  /** The invitation above filtered results shows while filtering, until onboarding is completed. */
  predicate ShowOnboardingPrompt(isOnboardingCompleted: bool, filters: seq<PopularFilter>) {
    !isOnboardingCompleted && |filters| > 0
  }

  /** The banner component is compact on start, after a skip and whenever the wizard is reopened (the page no longer renders it). */
  lemma CompactBannerFlags(f: Flags)
    ensures UseCompactStyle(INITIAL_FLAGS.hasSkippedOnboarding, INITIAL_FLAGS.isOnboardingOpen)
    ensures UseCompactStyle(AfterSkip(f).hasSkippedOnboarding, AfterSkip(f).isOnboardingOpen)
    ensures UseCompactStyle(AfterStart(f).hasSkippedOnboarding, AfterStart(f).isOnboardingOpen)
    ensures !UseCompactStyle(AfterComplete(f).hasSkippedOnboarding, AfterComplete(f).isOnboardingOpen) <==> !f.hasSkippedOnboarding
  {
  }

  /** Once the wizard is completed the search popover never shows; before that it follows the box's focus. */
  lemma PopoverFlags(f: Flags, popoverOpen: bool)
    ensures !ShowSearchPopover(AfterComplete(f).isOnboardingCompleted, popoverOpen)
    ensures !f.isOnboardingCompleted ==> (ShowSearchPopover(f.isOnboardingCompleted, popoverOpen) <==> popoverOpen)
  {
  }

  /** Once the wizard is completed the invitation above filtered results never shows. */
  lemma PromptFlags(f: Flags, filters: seq<PopularFilter>)
    ensures !ShowOnboardingPrompt(AfterComplete(f).isOnboardingCompleted, filters)
    ensures !f.isOnboardingCompleted ==> (ShowOnboardingPrompt(f.isOnboardingCompleted, filters) <==> filters != [])
  {
  }

  /** The page's own state: the chips, the sort selector and the search box. */
  class HomeView {
    var popularFilters: seq<PopularFilter>
    var sortOrder: SortOrder
    var searchQuery: string

    /** No chip is listed twice. */
    predicate Valid()
      reads this
    {
      Distinct(popularFilters)
    }

    constructor ()
      ensures Valid()
      ensures popularFilters == [] && sortOrder == Popular && searchQuery == ""
    {
      popularFilters := [];
      sortOrder := Popular;
      searchQuery := "";
    }

    method TogglePopularFilter(f: PopularFilter)
      requires Valid()
      modifies this
      ensures Valid()
      ensures popularFilters == ToggledFilter(old(popularFilters), f)
      ensures sortOrder == old(sortOrder) && searchQuery == old(searchQuery)
    {
      ToggledFilterFacts(popularFilters, f);
      popularFilters := ToggledFilter(popularFilters, f);
    }

    /** The reset chip. */
    method ResetFilters()
      modifies this
      ensures Valid()
      ensures popularFilters == [] && sortOrder == old(sortOrder) && searchQuery == old(searchQuery)
    {
      popularFilters := [];
    }

    method SetSortOrder(order: SortOrder)
      modifies this
      ensures sortOrder == order
      ensures popularFilters == old(popularFilters) && searchQuery == old(searchQuery)
    {
      sortOrder := order;
    }

    method SetSearchQuery(query: string)
      modifies this
      ensures searchQuery == query
      ensures popularFilters == old(popularFilters) && sortOrder == old(sortOrder)
    {
      searchQuery := query;
    }

    /** The filtered, sorted list shown while a chip is on. */
    method SortedFilteredAll(popular: seq<HomeCourse>, recent: seq<HomeCourse>, free: seq<HomeCourse>)
      returns (r: seq<HomeCourse>)
      ensures r == SortCourses(FilteredAll(popular, recent, free, popularFilters), sortOrder)
    {
      r := SortCourses(FilteredAll(popular, recent, free, popularFilters), sortOrder);
    }

    /** The search button: what is handed to the search callback, if anything. */
    method HandleSearch() returns (submitted: Option<string>)
      ensures submitted == SubmittedQuery(searchQuery)
    {
      submitted := SubmittedQuery(searchQuery);
    }
  }
}
