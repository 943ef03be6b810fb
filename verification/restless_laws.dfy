/** Which entries a repeated cycle adjusts again, read off demand, bounds and threshold before the first cycle. */
module RestlessLaws {
  import opened Quantities
  import opened Calculator
  import opened NamespaceLimits
  import opened ClampLaws
  import opened SizingLaws
  import opened PipelineLaws
  import opened Pods
  import opened ApiTypes
  import opened Metrics
  import opened Updater
  import opened Evaluation
  import opened Settling
  import opened ClosedLoop
  import opened Cycles
  import opened Counting
  import Vpa

  /** A positive headroom below the request. */
  predicate CutByHeadroom(request: real, b: Bounds) {
    QuotaFires(Amounts(request, request), b)
  }

  /** Writing a value in whole steps moves it by the threshold. From ten percent on, only values of fewer than ten steps
      can move that far. */
  predicate TruncatedAway(value: real, scale: Scale, threshold: real) {
    (threshold < 10.0 || value * scale < 10.0) && VariancePercent(value, Written(value, scale)) >= threshold
  }

  /** Own path: judged is the demand within the effective range, written is the headroom that cuts it, or a LimitRange
      min above the default max, or else the judged request itself. */
  predicate OwnRestless(demand: real, b: Bounds, default: Range, scale: Scale, threshold: real) {
    var judged := Clamp(demand, EffectiveRange(b, default));
    if CutByHeadroom(BoundedRequest(judged, b), b) then
      VariancePercent(judged, Written(b.headroom.value, scale)) >= threshold
    else if b.min > default.max && b.max.IsAbove(default.max) then
      VariancePercent(default.max, Written(b.max.Cap(b.min), scale)) >= threshold
    else
      (threshold < 10.0 || !b.max.Admits(default.min)) && TruncatedAway(judged, scale, threshold)
  }

  /** VPA path: what is judged is written, so only truncation is left: of the headroom that cuts the target, or of the
      bounded target. */
  predicate VpaRestless(target: real, b: Bounds, default: Range, scale: Scale, threshold: real) {
    var request := BoundedRequest(Clamp(target, EffectiveRange(b, default)), b);
    if CutByHeadroom(request, b) then
      TruncatedAway(b.headroom.value, scale, threshold)
    else
      (threshold < 10.0 || !b.max.Admits(default.min)) && TruncatedAway(request, scale, threshold)
  }

  predicate RestlessByBounds(plan: Plan, wish: Wish) {
    var cpu, memory, t := plan.policy.cpu, plan.policy.memory, plan.cfg.threshold;
    match wish
    case Measured(m) =>
      || OwnRestless(CpuDemand(m.cpu), cpu, DEFAULT_CONSTRAINTS.cpu, 1000.0, t)
      || OwnRestless(MemoryDemand(m.memory), memory, DEFAULT_CONSTRAINTS.memory, 1.0, t)
    case Recommended(rec) =>
      || VpaRestless(TargetOr(rec.target, CPU, 0.0), cpu, DEFAULT_CONSTRAINTS.cpu, 1000.0, t)
      || VpaRestless(TargetOr(rec.target, Memory, 0.0), memory, DEFAULT_CONSTRAINTS.memory, 1.0, t)
  }

  /** Usage is measured, so it is not negative. */
  predicate NonNegativeUsage(wish: Wish) {
    wish.Measured? ==> wish.m.cpu >= 0.0 && wish.m.memory >= 0.0
  }

  lemma ClampedRequest(a: Amounts, b: Bounds)
    ensures var p := BoundedRequest(a.request, b);
      ClampAmounts(a, b).request == if CutByHeadroom(p, b) then b.headroom.value else p
  {
    BeforeQuotaFacts(a, b);
  }

  lemma TruncatedAwayMeans(value: real, scale: Scale, threshold: real)
    ensures TruncatedAway(value, scale, threshold) <==> VariancePercent(value, Written(value, scale)) >= threshold
  {
    if value * scale >= 10.0 {
      TenStepsVariance(value, scale);
    }
  }

  /** The request within the effective range, and where the LimitRange stages take it. */
  lemma EffectiveRequest(demand: real, b: Bounds, default: Range)
    requires Usable(b, default)
    ensures var r := Clamp(demand, EffectiveRange(b, default)); var p := BoundedRequest(r, b);
      && (b.max.Admits(default.min) ==> default.min <= r && default.min <= p)
      && (if b.min > default.max && b.max.IsAbove(default.max) then r == default.max && p == b.max.Cap(b.min)
          else p == r)
  {
  }

  lemma OwnRestlessIff(demand: real, b: Bounds, default: Range, scale: Scale, threshold: real)
    requires Usable(b, default) && default.min * scale >= 10.0
    ensures var judged, final := Proposed(demand, b, default).request, Final(demand, b, default).request;
      OwnRestless(demand, b, default, scale, threshold) <==> VariancePercent(judged, Written(final, scale)) >= threshold
  {
    var r := Proposed(demand, b, default).request;
    EffectiveRequest(demand, b, default);
    ClampedRequest(Proposed(demand, b, default), b);
    TruncatedAwayMeans(r, scale, threshold);
  }

  lemma VpaRestlessIff(a: Amounts, target: real, b: Bounds, default: Range, scale: Scale, threshold: real)
    requires Usable(b, default) && default.min * scale >= 10.0
    requires a.request == Clamp(target, EffectiveRange(b, default))
    ensures var final := ClampAmounts(a, b).request;
      VpaRestless(target, b, default, scale, threshold) <==> VariancePercent(final, Written(final, scale)) >= threshold
  {
    EffectiveRequest(target, b, default);
    ClampedRequest(a, b);
    TruncatedAwayMeans(ClampAmounts(a, b).request, scale, threshold);
  }

  lemma UnfoundClampsNothing(plan: Plan, rec: ResourceRecommendation)
    requires Standard(plan) && 0.0 <= rec.cpu.request && 0.0 <= rec.memory.request
    ensures var clamped := ClampedBy(plan.policy, rec);
      && clamped.cpu.request == ClampAmounts(rec.cpu, plan.policy.cpu).request
      && clamped.memory.request == ClampAmounts(rec.memory, plan.policy.memory).request
  {
  }

  lemma OwnEntryRestlessIff(plan: Plan, m: ContainerMetrics)
    requires Standard(plan) && m.name != "" && NonNegativeUsage(Measured(m))
    ensures Restless(plan, Measured(m)) <==> RestlessByBounds(plan, Measured(m))
  {
    var none := ReadResources(BLANK);
    OwnProposalIsMarginOnUsage(plan, m, none);
    OwnRecommendationIsFinal(plan, m, none);
    OwnRestlessIff(CpuDemand(m.cpu), plan.policy.cpu, DEFAULT_CONSTRAINTS.cpu, 1000.0, plan.cfg.threshold);
    OwnRestlessIff(MemoryDemand(m.memory), plan.policy.memory, DEFAULT_CONSTRAINTS.memory, 1.0, plan.cfg.threshold);
  }

  lemma VpaEntryRestlessIff(plan: Plan, rec: Vpa.ContainerRecommendation)
    requires Standard(plan)
    ensures Restless(plan, Recommended(rec)) <==> RestlessByBounds(plan, Recommended(rec))
  {
    var proposal := VpaProposal(rec, plan.constraints);
    VpaEntriesJudgeWhatTheyWrite(plan, rec, BLANK);
    UnfoundClampsNothing(plan, proposal);
    VpaRestlessIff(proposal.cpu, TargetOr(rec.target, CPU, 0.0), plan.policy.cpu, DEFAULT_CONSTRAINTS.cpu, 1000.0,
      plan.cfg.threshold);
    VpaRestlessIff(proposal.memory, TargetOr(rec.target, Memory, 0.0), plan.policy.memory, DEFAULT_CONSTRAINTS.memory,
      1.0, plan.cfg.threshold);
  }

  /** On both paths and at every threshold: an adjusted container is adjusted again by the next identical cycle iff
      demand or target, bounds and threshold say so. */
  lemma AdjustsAgainByBounds(plan: Plan, wish: Wish, c: Container)
    requires Standard(plan) && NonNegativeUsage(wish)
    ensures Adjusts(plan, wish, Settled(plan, wish, c)) <==>
      Adjusts(plan, wish, c) && RestlessByBounds(plan, wish)
  {
    AdjustsAgainIff(plan, wish, c);
    if Adjusts(plan, wish, c) {
      match wish
      case Measured(m) => OwnEntryRestlessIff(plan, m);
      case Recommended(rec) => VpaEntryRestlessIff(plan, rec);
    }
  }

  // ---- Whole cycles ----

  /** The entry adjusts the container it names, and so it will in the next cycle. */
  predicate KeepsAdjusting(plan: Plan, wish: Wish, containers: seq<Container>) {
    AdjustsNamed(plan, wish, containers) && RestlessByBounds(plan, wish)
  }

  predicate StaysQuiet(plan: Plan, wishes: seq<Wish>, containers: seq<Container>) {
    forall j | 0 <= j < |wishes| :: !KeepsAdjusting(plan, wishes[j], containers)
  }

  predicate AllStayQuiet(plan: Plan, source: Source, pods: seq<ListedPod>) {
    forall i | 0 <= i < |pods| :: StaysQuiet(plan, WishesFor(source, pods[i].name), pods[i].value.containers)
  }

  predicate NonNegativeUsages(wishes: seq<Wish>) {
    forall j | 0 <= j < |wishes| :: NonNegativeUsage(wishes[j])
  }

  lemma KeepsAdjustingIff(plan: Plan, wish: Wish, containers: seq<Container>)
    requires Standard(plan) && NonNegativeUsage(wish)
    ensures KeepsAdjusting(plan, wish, containers) <==> AdjustsNamed(plan, wish, containers) && Restless(plan, wish)
  {
    if AdjustsNamed(plan, wish, containers) {
      var c := containers[FirstNamed(containers, wish.Name(), 0)];
      AdjustsAgainIff(plan, wish, c);
      AdjustsAgainByBounds(plan, wish, c);
    }
  }

  lemma RestlessDueSnoc(plan: Plan, rest: seq<Wish>, last: Wish, containers: seq<Container>)
    ensures RestlessDue(plan, rest + [last], containers) == RestlessDue(plan, rest, containers) +
      (if AdjustsNamed(plan, last, containers) && Restless(plan, last) then 1 else 0)
  {
    assert (rest + [last])[..|rest|] == rest;
  }

  lemma StaysQuietSnoc(plan: Plan, rest: seq<Wish>, last: Wish, containers: seq<Container>)
    ensures StaysQuiet(plan, rest + [last], containers) <==>
      StaysQuiet(plan, rest, containers) && !KeepsAdjusting(plan, last, containers)
  {
    var wishes := rest + [last];
    assert wishes[|rest|] == last;
    assert forall j | 0 <= j < |rest| :: wishes[j] == rest[j];
  }

  lemma {:induction false} NoneRestlessIff(plan: Plan, wishes: seq<Wish>, containers: seq<Container>)
    requires Standard(plan) && NonNegativeUsages(wishes)
    ensures RestlessDue(plan, wishes, containers) == 0 <==> StaysQuiet(plan, wishes, containers)
  {
    if wishes != [] {
      var rest, last := wishes[..|wishes| - 1], wishes[|wishes| - 1];
      assert wishes == rest + [last];
      NoneRestlessIff(plan, rest, containers);
      KeepsAdjustingIff(plan, last, containers);
      RestlessDueSnoc(plan, rest, last, containers);
      StaysQuietSnoc(plan, rest, last, containers);
    }
  }

  lemma AllStayQuietSnoc(plan: Plan, source: Source, rest: seq<ListedPod>, last: ListedPod)
    ensures AllStayQuiet(plan, source, rest + [last]) <==>
      && AllStayQuiet(plan, source, rest)
      && StaysQuiet(plan, WishesFor(source, last.name), last.value.containers)
  {
    var pods := rest + [last];
    assert pods[|rest|] == last;
    assert forall i | 0 <= i < |rest| :: pods[i] == rest[i];
  }

  lemma {:induction false} NoneRestlessInCycle(plan: Plan, source: Source, pods: seq<ListedPod>)
    requires Standard(plan)
    requires forall i | 0 <= i < |pods| :: NonNegativeUsages(WishesFor(source, pods[i].name))
    ensures RestlessCount(plan, source, pods) == 0 <==> AllStayQuiet(plan, source, pods)
  {
    if pods != [] {
      var rest, last := pods[..|pods| - 1], pods[|pods| - 1];
      assert pods == rest + [last];
      AllStayQuietSnoc(plan, source, rest, last);
      NoneRestlessInCycle(plan, source, rest);
      NoneRestlessIff(plan, WishesFor(source, last.name), last.value.containers);
    }
  }

  /** The second of two identical cycles adjusts nothing iff no entry that the first one adjusts is restless by its
      demand or target and the bounds. */
  lemma SecondCycleQuietIff(plan: Plan, answers: Answers, source: Source, w: World, pods: seq<ListedPod>)
    requires InPlaceModes(plan) && AccurateList(source, w, pods) && Standard(plan)
    requires Granted(answers, w, CycleAdjustments(plan, source, pods) + RestlessCount(plan, source, pods))
    requires forall i | 0 <= i < |pods| :: NonNegativeUsages(WishesFor(source, pods[i].name))
    ensures var c := CycleLoop(plan, answers, source, w, pods);
      CycleLoop(plan, answers, source, c.world, ListedAgain(pods, c.world.pods)).adjustments == 0 <==>
        AllStayQuiet(plan, source, pods)
  {
    SecondCycle(plan, answers, source, w, pods);
    NoneRestlessInCycle(plan, source, pods);
  }

  // ---- Two causes beside a headroom below the need ----

  function PlanUnder(policy: Policy): Plan {
    Plan(DEFAULT_CONFIG, EffectiveConstraints(policy, DEFAULT_CONSTRAINTS), policy, false, Auto)
  }

  /** A LimitRange min of 20 cores, no quota: the own path judges 16 cores and writes 20, which is 20 percent apart, in
      every cycle. */
  lemma MinAboveDefaultIsRestless() returns (plan: Plan, wish: Wish, c: Container)
    ensures Standard(plan) && InPlaceModes(plan) && plan.cfg == DEFAULT_CONFIG && !plan.policy.resourceQuotaFound
    ensures wish.Measured? && Adjusts(plan, wish, c) && RestlessByBounds(plan, wish)
    ensures Adjusts(plan, wish, Settled(plan, wish, c))
  {
    plan := PlanUnder(Policy(true, false, EMPTY_BOUNDS.(min := 20.0), EMPTY_BOUNDS));
    wish, c := Measured(ContainerMetrics("app", 1.0, 104857600.0)), Container("app", map[], map[]);
    assert plan.policy.cpu.max.Cap(20.0) == 20.0 == Written(20.0, 1000.0);
    assert VariancePercent(16.0, 20.0) == 20.0;
    AdjustsAgainByBounds(plan, wish, c);
  }

  /** A headroom of 1.5m: the VPA path judges 1.5m and writes 1m, which is 50 percent apart, in every cycle. */
  lemma VpaPathCanBeRestless() returns (plan: Plan, wish: Wish, c: Container)
    ensures Standard(plan) && InPlaceModes(plan) && plan.cfg == DEFAULT_CONFIG
    ensures wish.Recommended? && Adjusts(plan, wish, c) && RestlessByBounds(plan, wish)
    ensures Adjusts(plan, wish, Settled(plan, wish, c))
  {
    plan := PlanUnder(Policy(false, true, EMPTY_BOUNDS.(headroom := AtMost(0.0015)), EMPTY_BOUNDS));
    wish := Recommended(Vpa.ContainerRecommendation("app", map[CPU := 1.0], map[]));
    c := Container("app", map[], map[]);
    assert Written(0.0015, 1000.0) == 0.001 by { assert Truncate(1.5) == 1; }
    assert VariancePercent(0.0015, 0.001) == 50.0;
    AdjustsAgainByBounds(plan, wish, c);
  }
}
