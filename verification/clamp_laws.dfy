/** Laws of the five-stage clamp, each with the exact condition under which it holds. */
module ClampLaws {
  import opened Quantities
  import opened Calculator
  import opened NamespaceLimits

  /** What Kubernetes admits as a maxLimitRequestRatio; zero stands for none. */
  predicate RatioValid(b: Bounds) {
    b.ratio == 0.0 || b.ratio >= 1.0
  }

  lemma Scaled(x: real, lo: real, hi: real)
    requires x >= 0.0 && lo <= hi
    ensures Times(x, lo) <= Times(x, hi)
  {
  }

  lemma ScaledStrictly(x: real, lo: real, hi: real)
    requires x > 0.0 && lo < hi
    ensures Times(x, lo) < Times(x, hi)
  {
  }

  lemma ScaledBy(x: real, y: real, factor: real)
    requires x <= y && factor >= 0.0
    ensures Times(x, factor) <= Times(y, factor)
  {
  }

  /** Facts about the first four stages. */
  lemma BeforeQuotaFacts(a: Amounts, b: Bounds)
    ensures var w := WithinRange(a, b); var p := BeforeQuota(a, b);
      && w.request == p.request == b.max.Cap(if b.min > 0.0 && a.request < b.min then b.min else a.request)
      && w.request <= w.limit
      && b.max.Admits(w.limit) && p.limit <= w.limit
      && (RatioValid(b) ==> p.request <= p.limit)
      && (b.ratio > 0.0 && p.request > 0.0 ==> p.limit <= Times(p.request, b.ratio))
  {
  }

  // ---- The result, without the stages ----

  predicate PositiveHeadroom(b: Bounds) {
    b.headroom.AtMost? && b.headroom.value > 0.0
  }

  predicate Reaches(x: real, v: real) {
    v <= x
  }

  /** The request once min and max have had their say: it reaches v iff the asked one or a positive min does, as far as
      the max admits. */
  ghost predicate RangedRequest(a: Amounts, b: Bounds, request: real) {
    forall v: real ::
      Reaches(request, v) <==> (v <= a.request || (0.0 < b.min && v <= b.min)) && b.max.Admits(v)
  }

  /** The final request reaches v iff the ranged one does, as far as a positive headroom lets it. */
  ghost predicate FinalRequest(b: Bounds, ranged: real, request: real) {
    forall v: real :: Reaches(request, v) <==> v <= ranged && (PositiveHeadroom(b) ==> v <= b.headroom.value)
  }

  /** The limit reaches v iff the asked limit within the max or the ranged request does, as far as ratio and twice a
      headroom that cuts the request let it. */
  ghost predicate FinalLimit(a: Amounts, b: Bounds, ranged: real, limit: real) {
    forall v: real :: Reaches(limit, v) <==>
      && ((v <= a.limit && b.max.Admits(v)) || v <= ranged)
      && (b.ratio > 0.0 && ranged > 0.0 ==> v <= Times(ranged, b.ratio))
      && (PositiveHeadroom(b) && ranged > b.headroom.value ==> v <= 2.0 * b.headroom.value)
  }

  /** What the clamp makes of a pair. */
  ghost predicate ClampedTo(a: Amounts, b: Bounds, q: Amounts) {
    exists ranged: real ::
      RangedRequest(a, b, ranged) && FinalRequest(b, ranged, q.request) && FinalLimit(a, b, ranged, q.limit)
  }

  /** For every pair and all bounds. */
  lemma ClampIsExact(a: Amounts, b: Bounds)
    ensures ClampedTo(a, b, ClampAmounts(a, b))
  {
    var ranged := WithinRange(a, b).request;
    assert RangedRequest(a, b, ranged);
    assert FinalRequest(b, ranged, ClampAmounts(a, b).request);
    assert FinalLimit(a, b, ranged, ClampAmounts(a, b).limit);
  }

  lemma SameReach(x: real, y: real)
    requires forall v: real :: Reaches(x, v) <==> Reaches(y, v)
    ensures x == y
  {
    assert Reaches(x, x) && Reaches(y, y) && Reaches(x, y) && Reaches(y, x);
  }

  lemma OneRangedRequest(a: Amounts, b: Bounds, x: real, y: real)
    requires RangedRequest(a, b, x) && RangedRequest(a, b, y)
    ensures x == y
  {
    SameReach(x, y);
  }

  /** So nothing else is. */
  lemma ClampedToOne(a: Amounts, b: Bounds, p: Amounts, q: Amounts)
    requires ClampedTo(a, b, p) && ClampedTo(a, b, q)
    ensures p == q
  {
    var x: real :| RangedRequest(a, b, x) && FinalRequest(b, x, p.request) && FinalLimit(a, b, x, p.limit);
    var y: real :| RangedRequest(a, b, y) && FinalRequest(b, y, q.request) && FinalLimit(a, b, y, q.limit);
    OneRangedRequest(a, b, x, y);
    assert p.request == q.request by { SameReach(p.request, q.request); }
    assert p.limit == q.limit by { SameReach(p.limit, q.limit); }
  }

  // ---- Admission ----

  /** The LimitRange and quota leave room for a positive request. */
  predicate Feasible(b: Bounds) {
    && b.max.Admits(b.min)
    && b.headroom.Admits(b.min)
    && (b.headroom.AtMost? && b.headroom.value <= 0.0 ==> b.max.AtMost? && b.max.value <= b.headroom.value)
  }

  /** What the API server demands of one resource of one container. */
  predicate Admissible(a: Amounts, b: Bounds) {
    b.min <= a.request <= a.limit && b.max.Admits(a.limit) && b.headroom.Admits(a.request)
  }

  /** For a positive request, or a zero one under a max of zero, the clamp yields an admissible pair exactly when the
      bounds are feasible. */
  lemma ClampAdmissibleIff(a: Amounts, b: Bounds)
    requires a.request > 0.0 || (a.request == 0.0 && b.max == AtMost(0.0))
    requires b.min >= 0.0 && RatioValid(b)
    ensures Admissible(ClampAmounts(a, b), b) <==> Feasible(b)
  {
    BeforeQuotaFacts(a, b);
  }

  /** Without assuming a valid ratio: request <= limit fails only for a ratio below one that the quota stage does not
      undo. */
  lemma RequestBelowLimitIff(a: Amounts, b: Bounds)
    ensures var q := ClampAmounts(a, b); var w := WithinRange(a, b);
      q.request <= q.limit <==>
        || b.ratio <= 0.0 || b.ratio >= 1.0 || w.request <= 0.0
        || (QuotaFires(w, b) && b.headroom.value <= Times(w.request, b.ratio))
  {
    BeforeQuotaFacts(a, b);
    var w := WithinRange(a, b);
    if b.ratio <= 0.0 {
      assert BeforeQuota(a, b) == w;
    } else if b.ratio < 1.0 && w.request > 0.0 {
      ScaledStrictly(w.request, b.ratio, 1.0);
      assert BeforeQuota(a, b) == Amounts(w.request, Times(w.request, b.ratio));
    }
  }

  // ---- Ratio against quota ----

  predicate RatioKept(a: Amounts, b: Bounds) {
    a.limit <= Times(a.request, b.ratio)
  }

  /** The quota stage may stretch the ratio, never beyond two. */
  lemma RatioAtMostTwice(a: Amounts, b: Bounds)
    requires b.ratio > 0.0 && ClampAmounts(a, b).request > 0.0
    ensures var q := ClampAmounts(a, b); q.limit <= Times(q.request, Max(b.ratio, 2.0))
  {
    BeforeQuotaFacts(a, b);
    var q := ClampAmounts(a, b);
    if QuotaFires(BeforeQuota(a, b), b) {
      assert q.limit <= Times(q.request, 2.0);
    } else {
      assert q.limit <= Times(q.request, b.ratio);
    }
    if b.ratio < 2.0 { Scaled(q.request, b.ratio, 2.0); } else { Scaled(q.request, 2.0, b.ratio); }
  }

  /** The configured ratio survives iff the quota cap did not fire, or the ratio is at least two,
      or the limit was already small enough for the headroom. */
  lemma RatioKeptIff(a: Amounts, b: Bounds)
    requires b.ratio > 0.0 && ClampAmounts(a, b).request > 0.0
    ensures RatioKept(ClampAmounts(a, b), b) <==>
      var p := BeforeQuota(a, b);
      !QuotaFires(p, b) || b.ratio >= 2.0 || p.limit <= Times(b.headroom.value, b.ratio)
  {
    BeforeQuotaFacts(a, b);
    var p := BeforeQuota(a, b);
    if QuotaFires(p, b) {
      var h := b.headroom.value;
      assert ClampAmounts(a, b) == Amounts(h, if p.limit > h * 2.0 then h * 2.0 else p.limit);
      if b.ratio >= 2.0 { Scaled(h, 2.0, b.ratio); } else { ScaledStrictly(h, b.ratio, 2.0); }
    }
  }

  /** For every ratio in [1, 2) there are bounds and a pair whose ratio the quota stage breaks. */
  lemma RatioBrokenByQuota(ratio: real) returns (a: Amounts, b: Bounds)
    requires 1.0 <= ratio < 2.0
    ensures b.ratio == ratio && Feasible(b) && ClampAmounts(a, b).request > 0.0 && !RatioKept(ClampAmounts(a, b), b)
  {
    b := EMPTY_BOUNDS.(ratio := ratio, headroom := AtMost(1.0));
    a := Amounts(2.0, 2.0 * ratio);
    assert WithinRange(a, b) == a;
    assert BeforeQuota(a, b) == a;
  }

  // ---- A second pass ----

  /** The request after min and max, which depends on the request alone. */
  function BoundedRequest(request: real, b: Bounds): real {
    b.max.Cap(if b.min > 0.0 && request < b.min then b.min else request)
  }

  /** The limit the ratio stage of a second pass lets through, once the quota stage has cut the request. */
  function SecondRatioCap(b: Bounds): real
    requires b.headroom.AtMost?
  {
    Times(BoundedRequest(b.headroom.value, b), b.ratio)
  }

  /** Clamping twice is clamping once, iff the quota stage does not fire, or no ratio is set, or the limit that the
      quota stage sees, or twice the headroom, is within the ratio of a second pass. */
  lemma ClampIdempotentIff(a: Amounts, b: Bounds)
    requires RatioValid(b)
    ensures var p := BeforeQuota(a, b);
      ClampAmounts(ClampAmounts(a, b), b) == ClampAmounts(a, b) <==>
        || !QuotaFires(p, b) || b.ratio == 0.0
        || p.limit <= SecondRatioCap(b) || 2.0 * b.headroom.value <= SecondRatioCap(b)
  {
    if QuotaFires(BeforeQuota(a, b), b) {
      SecondPassAfterQuota(a, b);
    } else {
      SecondPassWithoutQuota(a, b);
    }
  }

  lemma SecondPassWithoutQuota(a: Amounts, b: Bounds)
    requires RatioValid(b) && !QuotaFires(BeforeQuota(a, b), b)
    ensures ClampAmounts(BeforeQuota(a, b), b) == BeforeQuota(a, b)
  {
  }

  lemma SecondPassAfterQuota(a: Amounts, b: Bounds)
    requires RatioValid(b) && QuotaFires(BeforeQuota(a, b), b)
    ensures var q := ClampAmounts(a, b);
      ClampAmounts(q, b) == q <==> b.ratio == 0.0 || q.limit <= SecondRatioCap(b)
  {
    BeforeQuotaFacts(a, b);
    var p, q := BeforeQuota(a, b), ClampAmounts(a, b);
    var h, e := b.headroom.value, BoundedRequest(q.request, b);
    assert q.request == h && h <= q.limit <= 2.0 * h;
    assert h <= e <= p.request <= p.limit;
    var w := WithinRange(q, b);
    assert w == Amounts(e, Max(q.limit, e));
    if b.ratio >= 1.0 {
      Scaled(e, 1.0, b.ratio);
    }
    assert e > 2.0 * h ==> q.limit == 2.0 * h;
  }

  /** A ratio that is absent, or at least two, always allows a second pass. */
  lemma ClampIdempotentForLargeRatio(a: Amounts, b: Bounds)
    requires b.ratio == 0.0 || b.ratio >= 2.0
    ensures ClampAmounts(ClampAmounts(a, b), b) == ClampAmounts(a, b)
  {
    ClampIdempotentIff(a, b);
    BeforeQuotaFacts(a, b);
    if QuotaFires(BeforeQuota(a, b), b) && b.ratio >= 2.0 {
      var h := b.headroom.value;
      assert h <= BoundedRequest(h, b);
      Scaled(BoundedRequest(h, b), 2.0, b.ratio);
    }
  }

  /** A ratio of 1.5 and an active quota: the second pass lowers the limit again. */
  lemma ClampNotIdempotent() returns (a: Amounts, b: Bounds)
    ensures b.ratio == 1.5 && Feasible(b) && ClampAmounts(ClampAmounts(a, b), b) != ClampAmounts(a, b)
  {
    b := EMPTY_BOUNDS.(ratio := 1.5, headroom := AtMost(1.0));
    a := Amounts(2.0, 3.0);
    assert ClampAmounts(a, b) == Amounts(1.0, 2.0);
    assert ClampAmounts(Amounts(1.0, 2.0), b) == Amounts(1.0, 1.5);
  }

  /** Where the first pass leaves the request: at or above the LimitRange min. */
  predicate MinSurvives(a: Amounts, b: Bounds) {
    || b.min <= 0.0
    || (if QuotaFires(BeforeQuota(a, b), b) then b.min <= b.headroom.value else b.max.Admits(b.min))
  }

  /** Where the first pass leaves the limit: within the ratio of the request. */
  predicate RatioSurvives(a: Amounts, b: Bounds) {
    var p := BeforeQuota(a, b);
    !QuotaFires(p, b) || b.ratio == 0.0 || b.ratio >= 2.0 || p.limit <= Times(b.headroom.value, b.ratio)
  }

  /** A second pass reports nothing iff min and ratio survive the first, which bounds and quota guard decide. */
  lemma SecondPassSilentIff(a: Amounts, b: Bounds)
    requires RatioValid(b)
    ensures Silent(ClampAmounts(a, b), b) <==> MinSurvives(a, b) && RatioSurvives(a, b)
  {
    BeforeQuotaFacts(a, b);
    var q := ClampAmounts(a, b);
    MinSurvivesMeans(a, b);
    RatioSurvivesMeans(a, b);
    if MinFires(q, b) {
      assert Reports(q, b, MinRaised);
    } else {
      assert WithinRange(q, b) == q;
      if RatioFires(q, b) {
        assert Reports(q, b, RatioCapped);
      } else {
        assert !QuotaFires(BeforeQuota(q, b), b);
      }
    }
  }

  lemma MinSurvivesMeans(a: Amounts, b: Bounds)
    ensures MinSurvives(a, b) <==> !MinFires(ClampAmounts(a, b), b)
  {
  }

  lemma RatioSurvivesMeans(a: Amounts, b: Bounds)
    requires RatioValid(b)
    ensures RatioSurvives(a, b) <==> !RatioFires(ClampAmounts(a, b), b)
  {
    BeforeQuotaFacts(a, b);
    if b.ratio > 0.0 && ClampAmounts(a, b).request > 0.0 {
      RatioKeptIff(a, b);
    }
  }

  // ---- What the reasons mean ----

  predicate Silent(a: Amounts, b: Bounds) {
    forall stage :: !Reports(a, b, stage)
  }

  /** The list names exactly the stages that fired. */
  lemma ReasonsAreExact(cpu: Amounts, memory: Amounts, policy: Policy, reason: Reason)
    ensures reason in ClampReasons(cpu, memory, policy) <==>
      || (reason.resource == CPU && Reports(cpu, policy.cpu, reason.stage))
      || (reason.resource == Memory && Reports(memory, policy.memory, reason.stage))
  {
    RangeReasonsAreExact(cpu, memory, policy, reason);
    var r0 := RangeReasons(cpu, memory, policy);
    var r1 := Note(r0, cpu, policy.cpu, CPU, RatioCapped);
    var r2 := Note(r1, memory, policy.memory, Memory, RatioCapped);
    var r3 := Note(r2, cpu, policy.cpu, CPU, QuotaCapped);
    NoteAdds(r0, cpu, policy.cpu, CPU, RatioCapped, reason);
    NoteAdds(r1, memory, policy.memory, Memory, RatioCapped, reason);
    NoteAdds(r2, cpu, policy.cpu, CPU, QuotaCapped, reason);
    NoteAdds(r3, memory, policy.memory, Memory, QuotaCapped, reason);
  }

  lemma NoteAdds(r: seq<Reason>, a: Amounts, b: Bounds, res: ResourceName, stage: Stage, reason: Reason)
    ensures reason in Note(r, a, b, res, stage) <==>
      reason in r || (reason == Reason(res, stage) && Reports(a, b, stage))
  {
  }

  lemma RangeReasonsAreExact(cpu: Amounts, memory: Amounts, policy: Policy, reason: Reason)
    ensures reason in RangeReasons(cpu, memory, policy) <==>
      reason.stage in {MinRaised, LimitCapped, RequestCapped} &&
      ((reason.resource == CPU && Reports(cpu, policy.cpu, reason.stage)) ||
       (reason.resource == Memory && Reports(memory, policy.memory, reason.stage)))
  {
    var r1 := Note([], cpu, policy.cpu, CPU, MinRaised);
    var r2 := Note(r1, memory, policy.memory, Memory, MinRaised);
    var r3 := Note(r2, cpu, policy.cpu, CPU, LimitCapped);
    var r4 := Note(r3, cpu, policy.cpu, CPU, RequestCapped);
    var r5 := Note(r4, memory, policy.memory, Memory, LimitCapped);
    NoteAdds([], cpu, policy.cpu, CPU, MinRaised, reason);
    NoteAdds(r1, memory, policy.memory, Memory, MinRaised, reason);
    NoteAdds(r2, cpu, policy.cpu, CPU, LimitCapped, reason);
    NoteAdds(r3, cpu, policy.cpu, CPU, RequestCapped, reason);
    NoteAdds(r4, memory, policy.memory, Memory, LimitCapped, reason);
    NoteAdds(r5, memory, policy.memory, Memory, RequestCapped, reason);
  }

  /** When a stage reports, in terms of the pair, the bounds and the ranged request. */
  lemma ReportsIff(a: Amounts, b: Bounds, request: real)
    requires RangedRequest(a, b, request)
    ensures Reports(a, b, MinRaised) <==> 0.0 < b.min && a.request < b.min
    ensures Reports(a, b, LimitCapped) <==> !b.max.Admits(a.limit)
    ensures Reports(a, b, RequestCapped) <==> !b.max.Admits(a.request) || (0.0 < b.min && !b.max.Admits(b.min))
    ensures Reports(a, b, RatioCapped) <==>
      && b.ratio > 0.0 && request > 0.0
      && (request > Times(request, b.ratio) || b.max.Cap(a.limit) > Times(request, b.ratio))
    ensures Reports(a, b, QuotaCapped) <==> PositiveHeadroom(b) && request > b.headroom.value
  {
    assert RangedRequest(a, b, WithinRange(a, b).request);
    OneRangedRequest(a, b, request, WithinRange(a, b).request);
  }

  /** The order in which the checks run. */
  function Rank(reason: Reason): nat {
    var memory := if reason.resource == Memory then 1 else 0;
    match reason.stage
    case MinRaised => memory
    case LimitCapped => 2 + 2 * memory
    case RequestCapped => 3 + 2 * memory
    case RatioCapped => 6 + memory
    case QuotaCapped => 8 + memory
  }

  /** In that order, each once, and all before a rank. */
  predicate InOrderBelow(reasons: seq<Reason>, rank: nat) {
    && (forall i, j | 0 <= i < j < |reasons| :: Rank(reasons[i]) < Rank(reasons[j]))
    && (forall i | 0 <= i < |reasons| :: Rank(reasons[i]) < rank)
  }

  lemma NoteInOrder(reasons: seq<Reason>, a: Amounts, b: Bounds, res: ResourceName, stage: Stage)
    requires InOrderBelow(reasons, Rank(Reason(res, stage)))
    ensures InOrderBelow(Note(reasons, a, b, res, stage), Rank(Reason(res, stage)) + 1)
  {
  }

  /** No reason is listed twice, and they come in the order of the checks. */
  lemma ReasonsInOrder(cpu: Amounts, memory: Amounts, policy: Policy)
    ensures InOrderBelow(ClampReasons(cpu, memory, policy), 10)
  {
    RangeReasonsInOrder(cpu, memory, policy);
    var r0 := RangeReasons(cpu, memory, policy);
    var r1 := Note(r0, cpu, policy.cpu, CPU, RatioCapped);
    var r2 := Note(r1, memory, policy.memory, Memory, RatioCapped);
    var r3 := Note(r2, cpu, policy.cpu, CPU, QuotaCapped);
    NoteInOrder(r0, cpu, policy.cpu, CPU, RatioCapped);
    NoteInOrder(r1, memory, policy.memory, Memory, RatioCapped);
    NoteInOrder(r2, cpu, policy.cpu, CPU, QuotaCapped);
    NoteInOrder(r3, memory, policy.memory, Memory, QuotaCapped);
  }

  lemma RangeReasonsInOrder(cpu: Amounts, memory: Amounts, policy: Policy)
    ensures InOrderBelow(RangeReasons(cpu, memory, policy), 6)
  {
    var r1 := Note([], cpu, policy.cpu, CPU, MinRaised);
    var r2 := Note(r1, memory, policy.memory, Memory, MinRaised);
    var r3 := Note(r2, cpu, policy.cpu, CPU, LimitCapped);
    var r4 := Note(r3, cpu, policy.cpu, CPU, RequestCapped);
    var r5 := Note(r4, memory, policy.memory, Memory, LimitCapped);
    NoteInOrder([], cpu, policy.cpu, CPU, MinRaised);
    NoteInOrder(r1, memory, policy.memory, Memory, MinRaised);
    NoteInOrder(r2, cpu, policy.cpu, CPU, LimitCapped);
    NoteInOrder(r3, cpu, policy.cpu, CPU, RequestCapped);
    NoteInOrder(r4, memory, policy.memory, Memory, LimitCapped);
    NoteInOrder(r5, memory, policy.memory, Memory, RequestCapped);
  }

  /** An empty list does not mean untouched: the limit repair reports nothing. */
  lemma SilentMeansRepairOnly(a: Amounts, b: Bounds)
    requires Silent(a, b)
    ensures ClampAmounts(a, b) == RepairLimit(a)
    ensures ClampAmounts(a, b) == a <==> a.request <= a.limit
  {
    assert !Reports(a, b, MinRaised) && !Reports(a, b, LimitCapped) && !Reports(a, b, RequestCapped);
    assert WithinRange(a, b) == RepairLimit(a);
    assert !Reports(a, b, RatioCapped) && !Reports(a, b, QuotaCapped);
  }

  /** Such a pair: nothing is reported, and the limit is raised from below the request. */
  lemma SilentRepair() returns (a: Amounts, b: Bounds)
    ensures Silent(a, b) && a.limit < a.request && ClampAmounts(a, b) == Amounts(a.request, a.request) != a
  {
    a, b := Amounts(2.0, 1.0), EMPTY_BOUNDS;
  }
}
