/**
 * The search results page: the case-insensitive search over the course
 * list, the choice of what each result card shows for the query, and the
 * search box's Enter key.  Lower-casing covers ASCII letters only.
 */
module SearchResultsPage {
  import opened Seqs
  import opened Strings
  import opened Wrappers
  import opened CourseCard
  import HomePage

  /** A course of the search list, as far as the search and the cards read it. */
  datatype SearchCourse = SearchCourse(
    title: string,
    instructor: string,
    level: string,
    price: Price,
    originalPrice: Option<nat>,
    tags: seq<string>)

  const LEVEL_KEYWORDS: seq<string> := ["입문", "초급", "중급", "고급"]

  /** `query.trim().toLowerCase()`. */
  function Normalize(query: string): string {
    ToLower(Trim(query))
  }

  // ---------------------------------------------------------------------
  // The search
  // ---------------------------------------------------------------------

  /** Some field of `fields`, lower-cased, contains `needle`. */
  predicate SomeFieldContains(fields: seq<string>, needle: string) {
    exists k :: 0 <= k < |fields| && Contains(ToLower(fields[k]), needle)
  }

  /** The course's title, instructor or one of its tags contains the normalised query. */
  predicate MatchesQuery(c: SearchCourse, needle: string) {
    SomeFieldContains([c.title, c.instructor] + c.tags, needle)
  }

  function MatchesFor(needle: string): SearchCourse -> bool {
    c => MatchesQuery(c, needle)
  }

  /** `results`. */
  function Results(courses: seq<SearchCourse>, query: string): seq<SearchCourse> {
    Filter(courses, MatchesFor(Normalize(query)))
  }

  /** A course matches iff its lower-cased title, instructor or some tag contains the needle. */
  lemma MatchesQueryFields(c: SearchCourse, needle: string)
    ensures MatchesQuery(c, needle) <==>
      Contains(ToLower(c.title), needle) || Contains(ToLower(c.instructor), needle) ||
      exists t :: t in c.tags && Contains(ToLower(t), needle)
  {
    var fields := [c.title, c.instructor] + c.tags;
    assert fields[0] == c.title && fields[1] == c.instructor;
    if exists t :: t in c.tags && Contains(ToLower(t), needle) {
      var t :| t in c.tags && Contains(ToLower(t), needle);
      var k :| 0 <= k < |c.tags| && c.tags[k] == t;
      assert fields[k + 2] == t;
    }
    if MatchesQuery(c, needle) {
      var k :| 0 <= k < |fields| && Contains(ToLower(fields[k]), needle);
      if k >= 2 {
        assert fields[k] == c.tags[k - 2];
      }
    }
  }

  /**
   * A course is a result iff its lower-cased title, instructor or some tag
   * contains the trimmed, lower-cased query, and the results keep the list's
   * order.
   */
  lemma ResultsSpec(courses: seq<SearchCourse>, query: string)
    ensures forall c :: c in Results(courses, query) <==>
      c in courses &&
      (Contains(ToLower(c.title), Normalize(query)) || Contains(ToLower(c.instructor), Normalize(query)) ||
       exists t :: t in c.tags && Contains(ToLower(t), Normalize(query)))
    ensures Subseq(Results(courses, query), courses)
  {
    var needle := Normalize(query);
    forall c ensures c in Results(courses, query) <==> c in courses && MatchesQuery(c, needle) {
    }
    forall c ensures MatchesQuery(c, needle) <==>
      Contains(ToLower(c.title), needle) || Contains(ToLower(c.instructor), needle) ||
      exists t :: t in c.tags && Contains(ToLower(t), needle)
    {
      MatchesQueryFields(c, needle);
    }
    FilterSubseq(courses, MatchesFor(needle));
  }

  /** A blank query finds every course, in the list's order. */
  lemma BlankQueryFindsAll(courses: seq<SearchCourse>, query: string)
    requires IsBlank(query)
    ensures Results(courses, query) == courses
  {
    var needle := Normalize(query);
    assert needle == "";
    forall c | c in courses ensures MatchesFor(needle)(c) {
      ContainsEmpty(ToLower(c.title));
      assert ([c.title, c.instructor] + c.tags)[0] == c.title;
    }
    FilterIdentity(courses, MatchesFor(needle));
  }

  // ---------------------------------------------------------------------
  // What a result card shows
  // ---------------------------------------------------------------------

  datatype MetaVariant = Full | Compact

  datatype MetaConfig = MetaConfig(level: string, price: Price, tags: seq<string>, variant: MetaVariant, emphasizePrice: bool)

  /** The first level keyword the query contains. */
  function MatchedLevel(needle: string, keywords: seq<string>): (r: Option<string>)
    ensures r.Some? ==> r.value in keywords && Contains(needle, r.value)
    ensures r.None? <==> forall w :: w in keywords ==> !Contains(needle, w)
    decreases |keywords|
  {
    if keywords == [] then None
    else if Contains(needle, keywords[0]) then Some(keywords[0])
    else MatchedLevel(needle, keywords[1..])
  }

  function TagIn(needle: string): string -> bool {
    t => Contains(needle, ToLower(t))
  }

  /** The course's tags that the query contains, lower-cased, in the course's order. */
  function MatchedTags(needle: string, tags: seq<string>): seq<string> {
    Filter(tags, TagIn(needle))
  }

  predicate WantsFree(needle: string) {
    Contains(needle, "무료") || Contains(needle, "free")
  }

  predicate WantsPrice(needle: string) {
    Contains(needle, "원")
  }

  /** `getMetaConfig`. */
  function GetMetaConfig(query: string, c: SearchCourse): (r: MetaConfig)
    ensures var needle := Normalize(query);
      (r.variant == Compact <==>
        MatchedLevel(needle, LEVEL_KEYWORDS).Some? || MatchedTags(needle, c.tags) != [] ||
        WantsFree(needle) || WantsPrice(needle)) &&
      r.level == c.level && r.price == c.price &&
      (r.emphasizePrice <==> r.variant == Compact && (WantsFree(needle) || WantsPrice(needle))) &&
      (r.variant == Full ==> r.tags == c.tags) &&
      (r.variant == Compact ==> r.tags == if MatchedTags(needle, c.tags) != [] then MatchedTags(needle, c.tags) else c.tags)
  {
    var needle := Normalize(query);
    var matchedTags := MatchedTags(needle, c.tags);
    var emphasize := WantsFree(needle) || WantsPrice(needle);
    if MatchedLevel(needle, LEVEL_KEYWORDS).Some? || |matchedTags| > 0 || emphasize then
      MetaConfig(c.level, c.price, if |matchedTags| > 0 then matchedTags else c.tags, Compact, emphasize)
    else
      MetaConfig(c.level, c.price, c.tags, Full, false)
  }

  /**
   * The card's tags are always some of the course's own tags, in order; an
   * emphasised price comes only with the compact layout; and a tag is listed
   * in the compact layout iff the query contains it, when any is.
   */
  lemma MetaConfigTags(query: string, c: SearchCourse)
    ensures Subseq(GetMetaConfig(query, c).tags, c.tags)
    ensures GetMetaConfig(query, c).emphasizePrice ==> GetMetaConfig(query, c).variant == Compact
    ensures MatchedTags(Normalize(query), c.tags) != [] ==>
      forall t :: t in GetMetaConfig(query, c).tags <==> t in c.tags && Contains(Normalize(query), ToLower(t))
  {
    FilterSubseq(c.tags, TagIn(Normalize(query)));
    SubseqRefl(c.tags);
  }

  /** The card the page renders for a result: meta on, students inline, the config's fields passed through. */
  function ResultCardProps(query: string, c: SearchCourse, reviewCount: nat, studentCount: nat): (p: CardProps)
    ensures p.showMeta && p.showStudentInline && p.showReviewCount && p.showStudentCount
    ensures p.price == Some(c.price) && p.level == Some(c.level) && p.originalPrice == c.originalPrice
    ensures p.compact <==> GetMetaConfig(query, c).variant == Compact
    ensures p.tags == GetMetaConfig(query, c).tags && p.emphasizePrice == GetMetaConfig(query, c).emphasizePrice
  {
    var m := GetMetaConfig(query, c);
    CardProps(Some(reviewCount), Some(studentCount), Some(m.level), Some(m.price), c.originalPrice,
              m.tags, true, m.variant == Compact, true, true, true, m.emphasizePrice)
  }

  /** A result card always shows its price line, and at most two tags in the compact layout. */
  lemma ResultCardShows(query: string, c: SearchCourse, reviewCount: nat, studentCount: nat)
    ensures var v := Render(ResultCardProps(query, c, reviewCount, studentCount));
      v.priceLine == Some(PriceLabel(Some(c.price))) &&
      v.studentCount == Some(studentCount) &&
      (GetMetaConfig(query, c).variant == Compact ==> |v.tagBadges| <= 2) &&
      Subseq(v.tagBadges, c.tags)
  {
    var p := ResultCardProps(query, c, reviewCount, studentCount);
    var v := Render(p);
    MetaConfigTags(query, c);
    PrefixOfSubseq(p.tags, c.tags, |v.tagBadges|);
  }

  /** Enter in the search box: blank queries are not submitted, others trimmed. */
  method HandleEnter(searchQuery: string) returns (submitted: Option<string>)
    ensures submitted == HomePage.SubmittedQuery(searchQuery)
    ensures submitted.None? <==> IsBlank(searchQuery)
  {
    var trimmed := Trim(searchQuery);
    if trimmed != "" {
      submitted := Some(trimmed);
    } else {
      submitted := None;
    }
  }
}
