/** From usage, or from a VPA target, to the final request and limit of one resource. */
module SizingLaws {
  import opened Quantities
  import opened Calculator
  import opened NamespaceLimits
  import opened MergeLaws
  import opened ClampLaws

  /** Quantities are non-negative and a ratio, when set, is at least one. */
  predicate Sane(b: Bounds) {
    b.min >= 0.0 && RatioValid(b) && (b.max.AtMost? ==> b.max.value >= 0.0)
  }

  const LIMIT_RATIO := 1.5

  /** The own algorithm's pair before the namespace clamp. */
  function Proposed(demand: real, b: Bounds, default: Range): Amounts {
    SizeFor(demand, LIMIT_RATIO, EffectiveRange(b, default))
  }

  function Final(demand: real, b: Bounds, default: Range): Amounts {
    ClampAmounts(Proposed(demand, b, default), b)
  }

  predicate Usable(b: Bounds, default: Range) {
    Sane(b) && 0.0 < default.min <= default.max
  }

  lemma ProposedFacts(demand: real, b: Bounds, default: Range)
    requires Usable(b, default)
    ensures var r := EffectiveRange(b, default); var a := Proposed(demand, b, default);
      && 0.0 <= r.min <= r.max == b.max.Cap(default.max)
      && r.min <= a.request <= a.limit <= r.max
      && a.limit <= 1.5 * a.request
  {
  }

  // ---- The two clamps overlap ----

  /** The calculator's clamp makes the LimitRange stages idle exactly when the LimitRange min fits under both maxima. */
  lemma RangeStagesIdleIff(demand: real, b: Bounds, default: Range)
    requires Usable(b, default)
    ensures var a := Proposed(demand, b, default);
      b.min <= b.max.Cap(default.max) <==>
        && !Reports(a, b, MinRaised) && !Reports(a, b, LimitCapped) && !Reports(a, b, RequestCapped)
        && WithinRange(a, b) == a
  {
  }

  /** Then only ratio and quota can be reported, and no report means the pair passed through unchanged. */
  lemma OnlyRatioAndQuotaReport(demand: real, b: Bounds, default: Range, stage: Stage)
    requires Usable(b, default) && b.min <= b.max.Cap(default.max)
    ensures Reports(Proposed(demand, b, default), b, stage) ==> stage in {RatioCapped, QuotaCapped}
    ensures Silent(Proposed(demand, b, default), b) ==> Final(demand, b, default) == Proposed(demand, b, default)
  {
    RangeStagesIdleIff(demand, b, default);
    ProposedFacts(demand, b, default);
    if Silent(Proposed(demand, b, default), b) {
      SilentMeansRepairOnly(Proposed(demand, b, default), b);
    }
  }

  // ---- Monotonicity ----

  predicate AtMostAmounts(a: Amounts, b: Amounts) {
    a.request <= b.request && a.limit <= b.limit
  }

  /** The quota stage cuts the larger pair only, to a limit below that of the smaller pair. */
  predicate QuotaOvertakes(x: Amounts, y: Amounts, b: Bounds) {
    QuotaFires(y, b) && !QuotaFires(x, b) && x.limit > b.headroom.value * 2.0
  }

  /** The ratio stage skips the smaller pair for its zero request and cuts the limit of the larger below it. */
  predicate RatioOvertakes(x: Amounts, y: Amounts, b: Bounds) {
    b.ratio > 0.0 && x.request <= 0.0 && y.request > 0.0 && x.limit > Times(y.request, b.ratio)
  }

  /** The clamp keeps the order of two pairs except in exactly these two cases, whatever the bounds. */
  lemma ClampMonotoneIff(x: Amounts, y: Amounts, b: Bounds)
    requires AtMostAmounts(x, y)
    ensures AtMostAmounts(ClampAmounts(x, b), ClampAmounts(y, b)) <==>
      && !RatioOvertakes(WithinRange(x, b), WithinRange(y, b), b)
      && !QuotaOvertakes(BeforeQuota(x, b), BeforeQuota(y, b), b)
  {
    assert AtMostAmounts(WithinRange(x, b), WithinRange(y, b));
    RatioStageMonotoneIff(WithinRange(x, b), WithinRange(y, b), b);
  }

  lemma RatioStageMonotoneIff(x: Amounts, y: Amounts, b: Bounds)
    requires AtMostAmounts(x, y)
    ensures AtMostAmounts(CapByRatio(x, b), CapByRatio(y, b)) <==> !RatioOvertakes(x, y, b)
  {
    if b.ratio > 0.0 {
      ScaledBy(x.request, y.request, b.ratio);
    }
  }

  /** More demand never yields a smaller request or a smaller limit. */
  lemma FinalMonotone(less: real, more: real, b: Bounds, default: Range)
    requires Usable(b, default) && less <= more
    ensures AtMostAmounts(Final(less, b, default), Final(more, b, default))
  {
    ProposedFacts(less, b, default);
    ProposedFacts(more, b, default);
    var x, y := Proposed(less, b, default), Proposed(more, b, default);
    assert x.request <= y.request && x.limit <= y.limit;
    if b.min > b.max.Cap(default.max) {
      assert x == y;
    } else {
      RangeStagesIdleIff(less, b, default);
      RangeStagesIdleIff(more, b, default);
      BeforeQuotaFacts(x, b);
      if b.ratio > 0.0 && y.request > 0.0 {
        ScaledStrictly(y.request, 0.0, b.ratio);
      }
      ClampMonotoneIff(x, y, b);
    }
  }

  /** A larger request can halve the room for the limit: the quota stage at work. */
  lemma ClampNotMonotone() returns (x: Amounts, y: Amounts, b: Bounds)
    ensures Sane(b) && AtMostAmounts(x, y) && 0.0 < x.request && b.ratio == 0.0
    ensures ClampAmounts(x, b).limit > ClampAmounts(y, b).limit
  {
    b := EMPTY_BOUNDS.(headroom := AtMost(1.0));
    x, y := Amounts(1.0, 3.0), Amounts(1.1, 3.0);
    assert ClampAmounts(x, b) == Amounts(1.0, 3.0);
    assert ClampAmounts(y, b) == Amounts(1.0, 2.0);
  }

  /** A first positive request brings the limit down: the ratio stage at work. */
  lemma ClampNotMonotoneAtZero() returns (x: Amounts, y: Amounts, b: Bounds)
    ensures Sane(b) && AtMostAmounts(x, y) && x.request == 0.0 && b.headroom.Unbounded?
    ensures ClampAmounts(x, b).limit > ClampAmounts(y, b).limit
  {
    b := EMPTY_BOUNDS.(ratio := 1.0);
    x, y := Amounts(0.0, 5.0), Amounts(0.1, 5.0);
    assert ClampAmounts(x, b) == Amounts(0.0, 5.0);
    assert ClampAmounts(y, b) == Amounts(0.1, 0.1);
  }

  // ---- Admission by every object of the namespace ----

  /** Every Container item and every quota of the namespace accepts the pair. */
  predicate AcceptedBy(ranges: seq<LimitRange>, quotas: seq<ResourceQuota>, res: ResourceName, a: Amounts) {
    && a.request <= a.limit
    && (forall range, item | range in ranges && item in range.limits ::
          MinAllows(item, res, a.request) && MaxAllows(item, res, a.limit))
    && (forall rq | rq in quotas :: QuotaAllows(rq, res, a.request))
  }

  lemma AcceptedIffAdmissible(ranges: seq<LimitRange>, quotas: seq<ResourceQuota>, res: ResourceName, a: Amounts)
    requires a.request >= 0.0
    ensures AcceptedBy(ranges, quotas, res, a) <==> Admissible(a, MergedBounds(AllItems(ranges), quotas, res))
  {
    var items := AllItems(ranges);
    MergedMinIsExact(items, res, a.request);
    MergedMaxIsExact(items, res, a.limit);
    HeadroomIsExact(quotas, res, a.request);
    forall range, item | range in ranges && item in range.limits
      ensures item in items
    {
      AllItemsMembership(ranges, item);
    }
    forall item | item in items
      ensures exists range :: range in ranges && item in range.limits
    {
      AllItemsMembership(ranges, item);
    }
  }

  // ---- Truncation to whole steps ----

  function WrittenAmounts(a: Amounts, scale: Scale): Amounts {
    Amounts(Written(a.request, scale), Written(a.limit, scale))
  }

  /** Truncation keeps every upper bound and the order of request and limit. */
  lemma TruncationKeepsBounds(a: Amounts, b: Bounds, scale: Scale)
    requires a.request >= 0.0 && Admissible(a, b)
    ensures var w := WrittenAmounts(a, scale);
      0.0 <= w.request <= w.limit && b.max.Admits(w.limit) && b.headroom.Admits(w.request)
  {
    WrittenBounds(a.request, scale);
    WrittenBounds(a.limit, scale);
    WrittenMonotone(a.request, a.limit, scale);
  }

  /** What the namespace accepts it still accepts once written in whole steps, if the merged min is whole. */
  lemma WrittenStillAccepted(ranges: seq<LimitRange>, quotas: seq<ResourceQuota>, res: ResourceName, a: Amounts)
    requires a.request >= 0.0 && AcceptedBy(ranges, quotas, res, a)
    requires var min := MergeItems(AllItems(ranges), res).min; Written(min, StepsPerUnit(res)) == min
    ensures AcceptedBy(ranges, quotas, res, WrittenAmounts(a, StepsPerUnit(res)))
  {
    var b, scale := MergedBounds(AllItems(ranges), quotas, res), StepsPerUnit(res);
    AcceptedIffAdmissible(ranges, quotas, res, a);
    TruncationKeepsBounds(a, b, scale);
    MergedMinIsExact(AllItems(ranges), res, b.min);
    TruncationKeepsMinIff(b.min, scale);
    AcceptedIffAdmissible(ranges, quotas, res, WrittenAmounts(a, scale));
  }

  /** A lower bound survives truncation of every request above it iff it is itself a whole number of steps. */
  lemma TruncationKeepsMinIff(min: real, scale: Scale)
    requires min >= 0.0
    ensures (forall r | r >= min :: Written(r, scale) >= min) <==> Written(min, scale) == min
  {
    WrittenBounds(min, scale);
    if Written(min, scale) == min {
      forall r | r >= min
        ensures Written(r, scale) >= min
      {
        WrittenMonotone(min, r, scale);
      }
    }
  }

  /** In steps, the written limit exceeds the ratio by less than one step of the request. */
  lemma TruncationAlmostKeepsRatio(a: Amounts, ratio: real, scale: Scale)
    requires a.request >= 0.0 && a.limit >= 0.0 && ratio > 0.0 && a.limit <= Times(a.request, ratio)
    ensures var w := WrittenAmounts(a, scale);
      w.limit * scale < Times(w.request * scale + 1.0, ratio)
  {
    WrittenBounds(a.request, scale);
    WrittenBounds(a.limit, scale);
    RatioInSteps(a, Written(a.request, scale) * scale, Written(a.limit, scale) * scale, ratio, scale);
  }

  lemma RatioInSteps(a: Amounts, request: real, limit: real, ratio: real, scale: Scale)
    requires limit <= a.limit * scale && a.request * scale < request + 1.0
    requires ratio > 0.0 && a.limit <= Times(a.request, ratio)
    ensures limit < Times(request + 1.0, ratio)
  {
    ScaledStrictlyLeft(a.request * scale, request + 1.0, ratio);
    TimesInSteps(a.limit, a.request, ratio, scale);
  }

  lemma TimesInSteps(limit: real, request: real, ratio: real, scale: Scale)
    requires limit <= Times(request, ratio)
    ensures limit * scale <= Times(request * scale, ratio)
  {
  }

  lemma ScaledStrictlyLeft(x: real, y: real, factor: real)
    requires x < y && factor > 0.0
    ensures Times(x, factor) < Times(y, factor)
  {
  }
}
