/**
 * The course card: which parts of a course it shows, and the price line with
 * its discount badge.  Amounts are whole won; the locale formatting of an
 * amount is kept abstract as `Amount(n)`.
 */
module CourseCard {
  import opened Seqs
  import opened Wrappers

  /** `'free' | number`: a course's price. */
  datatype Price = Free | Won(amount: nat)

  /** The price line's text: `'무료'`, the formatted amount followed by `원`, or nothing. */
  datatype PriceText = Literal(text: string) | Amount(n: nat)

  const FREE_LABEL: string := "무료"

  /** `priceLabel`. */
  function PriceLabel(price: Option<Price>): (r: PriceText)
    ensures r == Literal(FREE_LABEL) <==> price == Some(Free)
    ensures r == Literal("") <==> price.None?
    ensures r.Amount? <==> price.Some? && price.value.Won?
    ensures r.Amount? ==> r.n == price.value.amount
  {
    match price
    case None => Literal("")
    case Some(Free) => Literal(FREE_LABEL)
    case Some(Won(n)) => Amount(n)
  }

  /** `hasDiscount`: both prices are amounts and the original one is higher. */
  predicate HasDiscount(price: Option<Price>, originalPrice: Option<nat>) {
    price.Some? && price.value.Won? && originalPrice.Some? && originalPrice.value > price.value.amount
  }

  /**
   * `discountRate`: the saving in percent of the original price, rounded half
   * up, and 0 without a discount.  The percentage is taken exactly here.
   */
  function DiscountRate(price: Option<Price>, originalPrice: Option<nat>): (r: nat)
    ensures !HasDiscount(price, originalPrice) ==> r == 0
    ensures r <= 100
    ensures HasDiscount(price, originalPrice) ==>
      var o := originalPrice.value; var p := price.value.amount;
      2 * o * r <= 200 * (o - p) + o < 2 * o * (r + 1)
  {
    if HasDiscount(price, originalPrice) then
      var o := originalPrice.value;
      var p := price.value.amount;
      RoundedPercent(o - p, o)
    else 0
  }

  /** `Math.round(100 * part / whole)` for `0 < part <= whole`, exactly. */
  function RoundedPercent(part: nat, whole: nat): (r: nat)
    requires 0 < part <= whole
    ensures r <= 100
    ensures 2 * whole * r <= 200 * part + whole < 2 * whole * (r + 1)
  {
    var n, d := 200 * part + whole, 2 * whole;
    var r := n / d;
    QuotientBounds(n, d);
    assert r <= 100 by {
      if r > 100 {
        MulMonotone(d, 101, r);
      }
    }
    r
  }

  lemma QuotientBounds(n: nat, d: nat)
    requires d > 0
    ensures d * (n / d) <= n < d * (n / d + 1)
  {
    var q := n / d;
    assert d * q + n % d == n;
    assert d * (q + 1) == d * q + d;
  }

  lemma {:induction false} MulMonotone(d: nat, a: nat, b: nat)
    requires a <= b
    ensures d * a <= d * b
    decreases b - a
  {
    if a < b {
      MulMonotone(d, a, b - 1);
      assert d * b == d * (b - 1) + d;
    }
  }

  /** The card's inputs that decide what it shows. */
  datatype CardProps = CardProps(
    reviewCount: Option<nat>,
    studentCount: Option<nat>,
    level: Option<string>,
    price: Option<Price>,
    originalPrice: Option<nat>,
    tags: seq<string>,
    showMeta: bool,
    compact: bool,
    showReviewCount: bool,
    showStudentCount: bool,
    showStudentInline: bool,
    emphasizePrice: bool)

  /** The props a caller leaves unset take the component's defaults. */
  function DefaultProps(): CardProps {
    CardProps(None, None, None, None, None, [], false, false, true, true, false, false)
  }

  /** What the card shows beside the title, the instructor and the rating. */
  datatype CardView = CardView(
    reviewCount: Option<nat>,
    studentCount: Option<nat>,
    priceLine: Option<PriceText>,
    discount: Option<(nat, nat)>,
    emphasized: bool,
    levelBadge: Option<string>,
    tagBadges: seq<string>)

  /** The number of tag badges: 2 in the compact layout, 4 in the full one. */
  function TagLimit(compact: bool): nat {
    if compact then 2 else 4
  }

  /** The card the props produce. */
  function Render(p: CardProps): (v: CardView)
    ensures v.reviewCount.Some? <==> p.showReviewCount && p.reviewCount.Some?
    ensures v.reviewCount.Some? ==> v.reviewCount == p.reviewCount
    ensures v.studentCount.Some? <==> p.showStudentCount && p.showStudentInline && p.studentCount.Some?
    ensures v.studentCount.Some? ==> v.studentCount == p.studentCount
    ensures v.priceLine.Some? <==> p.showMeta && p.price.Some?
    ensures v.priceLine.Some? ==> v.priceLine.value == PriceLabel(p.price)
    ensures v.discount.Some? <==> v.priceLine.Some? && HasDiscount(p.price, p.originalPrice)
    ensures v.discount.Some? ==> v.discount.value == (DiscountRate(p.price, p.originalPrice), p.originalPrice.value)
    ensures v.emphasized <==> v.priceLine.Some? && p.emphasizePrice
    ensures v.levelBadge.Some? <==> p.showMeta && |p.tags| > 0 && p.level.Some? && p.level.value != ""
    ensures v.levelBadge.Some? ==> v.levelBadge == p.level
    ensures v.tagBadges != [] ==> p.showMeta
    ensures |v.tagBadges| <= TagLimit(p.compact) && v.tagBadges <= p.tags
    ensures p.showMeta ==> |v.tagBadges| == Min(TagLimit(p.compact), |p.tags|)
  {
    var priceShown := p.showMeta && p.price.Some?;
    var tagRow := p.showMeta && |p.tags| > 0;
    CardView(
      if p.showReviewCount then p.reviewCount else None,
      if p.showStudentCount && p.showStudentInline then p.studentCount else None,
      if priceShown then Some(PriceLabel(p.price)) else None,
      if priceShown && HasDiscount(p.price, p.originalPrice)
      then Some((DiscountRate(p.price, p.originalPrice), p.originalPrice.value)) else None,
      priceShown && p.emphasizePrice,
      if tagRow && p.level.Some? && p.level.value != "" then p.level else None,
      if tagRow then Take(p.tags, TagLimit(p.compact)) else [])
  }

  /** With the defaults the card shows only the review count, when there is one. */
  lemma DefaultCardIsBare(reviewCount: Option<nat>)
    ensures var v := Render(DefaultProps().(reviewCount := reviewCount));
      v.reviewCount == reviewCount && v.studentCount.None? && v.priceLine.None? &&
      v.discount.None? && v.levelBadge.None? && v.tagBadges == []
  {
  }
}
