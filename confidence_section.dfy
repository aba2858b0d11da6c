/** The confidence part of the results screen (src/components/results/ConfidenceSection.tsx):
    the tier a confidence score falls in, with its bar colour and caption; the price
    distribution histogram, drawn relative to its largest bucket; and the recent similar
    sales. Each list falls back to a default built around the suggested price only when it
    is absent. */
module ConfidenceSection {
  import opened Wrappers

  datatype Tier = High | Medium | Low

  const DefaultScore: int := 75

  /** `confidenceScore = 75`: the default applies only to an absent score. */
  function EffectiveScore(score: Option<int>): (r: int)
    ensures score.Some? ==> r == score.value
    ensures score.None? ==> r == DefaultScore
  {
    score.GetOr(DefaultScore)
  }

  /** The tier: 80 and above is high, 60 to 79 is medium, below 60 is low. */
  function TierOf(score: int): (r: Tier)
    ensures r == High <==> score >= 80
    ensures r == Medium <==> 60 <= score < 80
    ensures r == Low <==> score < 60
  {
    if score >= 80 then High else if score >= 60 then Medium else Low
  }

  /** The colour class of the score bar, chosen by its own comparisons. */
  function BarClass(score: int): string {
    if score >= 80 then "bg-green-500" else if score >= 60 then "bg-yellow-500" else "bg-orange-500"
  }

  /** The caption under the score bar, chosen by its own comparisons. */
  function Caption(score: int): string {
    if score >= 80 then "ثقة عالية - بيانات كافية من السوق العراقي"
    else if score >= 60 then "ثقة متوسطة - تقدير بناءً على منتجات مشابهة"
    else "ثقة منخفضة - بيانات محدودة، السعر تقريبي"
  }

  function TierColour(t: Tier): string {
    match t
    case High => "bg-green-500"
    case Medium => "bg-yellow-500"
    case Low => "bg-orange-500"
  }

  function TierCaption(t: Tier): string {
    match t
    case High => "ثقة عالية - بيانات كافية من السوق العراقي"
    case Medium => "ثقة متوسطة - تقدير بناءً على منتجات مشابهة"
    case Low => "ثقة منخفضة - بيانات محدودة، السعر تقريبي"
  }

  /** The bar colour and the caption use the same thresholds: both are determined by the
      tier, and different tiers get different colours and captions. */
  lemma ColourAndCaptionAgree(score: int)
    ensures BarClass(score) == TierColour(TierOf(score))
    ensures Caption(score) == TierCaption(TierOf(score))
    ensures forall t, u :: t != u ==> TierColour(t) != TierColour(u) && TierCaption(t) != TierCaption(u)
  {
  }

  /** An absent score is shown as 75, in the medium tier. */
  lemma DefaultScoreIsMedium()
    ensures TierOf(EffectiveScore(None)) == Medium
    ensures BarClass(EffectiveScore(None)) == "bg-yellow-500"
  {
  }

  // ---------------------------------------------------------------------------
  // Price distribution

  /** A bucket's label: text supplied with the result, or the default's span of prices
      (rendered through the platform's number formatting, which is not modelled). */
  datatype RangeLabel = Given(text: string) | Span(from: real, to: real)

  datatype PriceDistribution = PriceDistribution(range: RangeLabel, count: int, percentage: int)

  /** The four default buckets: 70-85 %, 85-100 %, 100-115 % and 115-130 % of the
      suggested price. */
  function DefaultDistribution(suggested: int): seq<PriceDistribution> {
    var s := suggested as real;
    [ PriceDistribution(Span(s * 0.7, s * 0.85), 12, 15),
      PriceDistribution(Span(s * 0.85, s), 35, 43),
      PriceDistribution(Span(s, s * 1.15), 28, 35),
      PriceDistribution(Span(s * 1.15, s * 1.3), 6, 7) ]
  }

  /** `priceDistribution || [...]`: any supplied array, even an empty one, is used as is. */
  function Distribution(supplied: Option<seq<PriceDistribution>>, suggested: int): (r: seq<PriceDistribution>)
    ensures supplied.Some? ==> r == supplied.value
    ensures supplied.None? ==> r == DefaultDistribution(suggested)
  {
    supplied.GetOr(DefaultDistribution(suggested))
  }

  function Percentages(d: seq<PriceDistribution>): (r: seq<int>)
    ensures |r| == |d| && forall k :: 0 <= k < |d| ==> r[k] == d[k].percentage
  {
    seq(|d|, k requires 0 <= k < |d| => d[k].percentage)
  }

  function Sum(xs: seq<int>): int {
    if xs == [] then 0 else xs[0] + Sum(xs[1..])
  }

  /** The default has four buckets; its counts are 12, 35, 28, 6 and its percentages
      15, 43, 35, 7, which add up to 100. The spans are contiguous, from 70 % to 130 % of
      the suggested price. */
  lemma DefaultDistributionShape(suggested: int)
    ensures var d := DefaultDistribution(suggested);
      |d| == 4 &&
      [d[0].count, d[1].count, d[2].count, d[3].count] == [12, 35, 28, 6] &&
      Percentages(d) == [15, 43, 35, 7] && Sum(Percentages(d)) == 100 &&
      d[0].range.from == suggested as real * 0.7 && d[3].range.to == suggested as real * 1.3 &&
      forall k :: 0 <= k < 3 ==> d[k].range.Span? && d[k].range.to == d[k + 1].range.from
  {
    var d := DefaultDistribution(suggested);
    assert Percentages(d) == [15, 43, 35, 7];
    assert Sum([7]) == 7;
    assert Sum([35, 7]) == 42 by { assert [35, 7][1..] == [7]; }
    assert Sum([43, 35, 7]) == 85 by { assert [43, 35, 7][1..] == [35, 7]; }
    assert [15, 43, 35, 7][1..] == [43, 35, 7];
  }

  /** `Math.max(...percentages)`, for a non-empty list. */
  function MaxPercentage(ps: seq<int>): (r: int)
    requires |ps| > 0
    ensures r in ps
    ensures forall k :: 0 <= k < |ps| ==> ps[k] <= r
  {
    if |ps| == 1 then ps[0]
    else
      var m := MaxPercentage(ps[1..]);
      if ps[0] >= m then ps[0] else m
  }

  /** A bucket's bar width in percent of the track: its share of the largest bucket. */
  function BarWidth(percentage: int, max: int): real
    requires max > 0
  {
    percentage as real / max as real * 100.0
  }

  /** With non-negative percentages and a positive maximum, the largest bucket's bar fills
      the track and every bar lies between empty and full. */
  lemma {:induction false} BarWidthsBounded(ps: seq<int>)
    requires |ps| > 0 && MaxPercentage(ps) > 0
    requires forall k :: 0 <= k < |ps| ==> ps[k] >= 0
    ensures exists k :: 0 <= k < |ps| && BarWidth(ps[k], MaxPercentage(ps)) == 100.0
    ensures forall k :: 0 <= k < |ps| ==> 0.0 <= BarWidth(ps[k], MaxPercentage(ps)) <= 100.0
  {
    var m := MaxPercentage(ps);
    var w :| 0 <= w < |ps| && ps[w] == m;
    WidthFull(m);
    forall k | 0 <= k < |ps|
      ensures 0.0 <= BarWidth(ps[k], m) <= 100.0
    {
      WidthBetween(ps[k], m);
    }
  }

  /** The real division, kept apart from the list's quantifiers so that the solver sees it
      alone. */
  lemma WidthFull(m: int)
    requires m > 0
    ensures BarWidth(m, m) == 100.0
  {
    assert m as real / m as real == 1.0;
  }

  lemma WidthBetween(p: int, m: int)
    requires 0 <= p <= m && m > 0
    ensures 0.0 <= BarWidth(p, m) <= 100.0
  {
    assert p as real / m as real <= 1.0;
  }

  /** Only rows 1 and 2 get the highlighted bar style. */
  predicate Highlighted(index: int) {
    index == 1 || index == 2
  }

  /** In the default histogram the highlighted rows are exactly the buckets whose span
      holds the suggested price, and the largest bucket is one of them, as the caption under
      the histogram says. */
  lemma DefaultHighlightsSuggested(suggested: int)
    requires suggested > 0
    ensures var d := DefaultDistribution(suggested);
      (forall k :: 0 <= k < |d| ==>
        (Highlighted(k) <==> d[k].range.from <= suggested as real <= d[k].range.to)) &&
      Highlighted(1) && d[1].percentage == MaxPercentage(Percentages(d))
  {
    var d := DefaultDistribution(suggested);
    DefaultDistributionShape(suggested);
    assert MaxPercentage([15, 43, 35, 7]) == 43;
  }

  // ---------------------------------------------------------------------------
  // Similar sales

  datatype SimilarSale = SimilarSale(title: string, price: int, soldDate: string, condition: string)

  /** `Math.round(suggested * percent / 100)`, computed exactly: the nearest integer, halves
      rounded up. */
  function RoundScaled(suggested: int, percent: int): (r: int)
    ensures 100 * r <= suggested * percent + 50 < 100 * r + 100
  {
    (suggested * percent + 50) / 100
  }

  function DefaultSales(suggested: int): seq<SimilarSale> {
    [ SimilarSale("منتج مشابه - حالة جيدة", RoundScaled(suggested, 95), "منذ 3 أيام", "مستعمل نظيف"),
      SimilarSale("منتج مشابه - حالة ممتازة", RoundScaled(suggested, 105), "منذ 5 أيام", "ممتاز"),
      SimilarSale("منتج مشابه - حالة متوسطة", RoundScaled(suggested, 85), "منذ أسبوع", "مستهلك") ]
  }

  /** `similarSales || [...]`: any supplied array is used as is. */
  function Sales(supplied: Option<seq<SimilarSale>>, suggested: int): (r: seq<SimilarSale>)
    ensures supplied.Some? ==> r == supplied.value
    ensures supplied.None? ==> r == DefaultSales(suggested)
  {
    supplied.GetOr(DefaultSales(suggested))
  }

  /** Rounding after scaling keeps the order of the factors. */
  lemma {:induction false} RoundScaledMonotone(suggested: int, p: int, q: int)
    requires suggested >= 0 && p <= q
    ensures RoundScaled(suggested, p) <= RoundScaled(suggested, q)
  {
    assert suggested * p <= suggested * q by {
      assert suggested * (q - p) >= 0;
    }
  }

  /** The three default sales are priced at 95 %, 105 % and 85 % of the suggested price,
      each rounded to the nearest dinar, so for a non-negative suggested price the
      "excellent" sale is the dearest and the "average" one the cheapest. */
  lemma {:induction false} DefaultSalesOrdered(suggested: int)
    requires suggested >= 0
    ensures var s := DefaultSales(suggested);
      |s| == 3 && s[2].price <= s[0].price <= s[1].price &&
      forall k :: 0 <= k < 3 ==> s[k].title != "" && s[k].soldDate != "" && s[k].condition != ""
  {
    RoundScaledMonotone(suggested, 85, 95);
    RoundScaledMonotone(suggested, 95, 105);
  }
}
