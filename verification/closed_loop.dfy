/** What one cycle writes is what the next cycle reads: idempotence, quiescence and headroom over usage. */
module ClosedLoop {
  import opened Quantities
  import opened Calculator
  import opened NamespaceLimits
  import opened SizingLaws
  import opened PipelineLaws
  import opened Pods
  import opened ApiTypes
  import opened Metrics
  import opened Updater
  import opened Evaluation
  import opened Settling
  import Vpa

  // ---- One container ----

  /** The status reports exactly what is written to the pod and read back. */
  lemma StatusIsWhatIsReadBack(c: Container, rec: ResourceRecommendation)
    ensures var read, status := ReadResources(WriteResources(c, rec)), StatusOf(rec);
      && read.cpuRequest == status.target[CPU] && read.memoryRequest == status.target[Memory]
      && read.cpuLimit == status.upperBound[CPU] && read.memoryLimit == status.upperBound[Memory]
  {
  }

  /** The requests an entry asks for do not depend on the container, only their significance does. */
  lemma VerdictAmountsFixed(plan: Plan, wish: Wish, c: Container, d: Container)
    ensures Verdict(plan, wish, c).Some? <==> Verdict(plan, wish, d).Some?
    ensures Verdict(plan, wish, c).Some? ==>
      Verdict(plan, wish, c).value.cpu == Verdict(plan, wish, d).value.cpu &&
      Verdict(plan, wish, c).value.memory == Verdict(plan, wish, d).value.memory
  {
  }

  lemma WriteTwice(c: Container, rec: ResourceRecommendation, again: ResourceRecommendation)
    requires rec.cpu == again.cpu && rec.memory == again.memory
    ensures WriteResources(WriteResources(c, rec), again) == WriteResources(c, rec)
  {
  }

  lemma SettledTwice(plan: Plan, wish: Wish, c: Container)
    ensures Settled(plan, wish, Settled(plan, wish, c)) == Settled(plan, wish, c)
  {
    if Adjusts(plan, wish, c) {
      var d := Settled(plan, wish, c);
      VerdictAmountsFixed(plan, wish, c, d);
      WriteTwice(c, Verdict(plan, wish, c).value, Verdict(plan, wish, d).value);
    }
  }

  /** The requests that variance is measured from: before the namespace clamp on the own path, after it on the
      VPA path. */
  function JudgedRequests(plan: Plan, wish: Wish): (real, real) {
    match wish
    case Measured(m) =>
      (CpuAmounts(UsageOf(m), plan.cfg, plan.constraints.cpu).request,
       MemoryAmounts(UsageOf(m), plan.cfg, plan.constraints.memory).request)
    case Recommended(rec) =>
      var clamped := ClampedBy(plan.policy, VpaProposal(rec, plan.constraints));
      (clamped.cpu.request, clamped.memory.request)
  }

  const BLANK := Container("", map[], map[])

  /** The requests that are written, before truncation: those of the verdict, on whatever container. */
  function FinalRequests(plan: Plan, wish: Wish): (real, real) {
    var v := Verdict(plan, wish, BLANK);
    if v.None? then (0.0, 0.0) else (v.value.cpu.request, v.value.memory.request)
  }

  /** The verdict on a container writes the final requests, and is significant by the judged ones. */
  lemma VerdictJudges(plan: Plan, wish: Wish, c: Container)
    requires Verdict(plan, wish, c).Some?
    ensures var v, current := Verdict(plan, wish, c).value, ReadResources(c);
      var judged := JudgedRequests(plan, wish);
      && (v.cpu.request, v.memory.request) == FinalRequests(plan, wish)
      && v.cpuVariance == VariancePercent(judged.0, current.cpuRequest)
      && v.memoryVariance == VariancePercent(judged.1, current.memoryRequest)
      && (v.significant <==> v.cpuVariance >= plan.cfg.threshold || v.memoryVariance >= plan.cfg.threshold)
  {
  }

  /** What is written differs enough from what is judged to trigger the update again. */
  predicate Restless(plan: Plan, wish: Wish) {
    var judged, final := JudgedRequests(plan, wish), FinalRequests(plan, wish);
    || VariancePercent(judged.0, Written(final.0, 1000.0)) >= plan.cfg.threshold
    || VariancePercent(judged.1, Written(final.1, 1.0)) >= plan.cfg.threshold
  }

  /** After a cycle, the next identical cycle adjusts a container again iff this one did and the entry is restless. */
  lemma AdjustsAgainIff(plan: Plan, wish: Wish, c: Container)
    ensures Adjusts(plan, wish, Settled(plan, wish, c)) <==> Adjusts(plan, wish, c) && Restless(plan, wish)
  {
  }

  /** Truncation alone moves a request of n steps by less than 100/n percent. */
  lemma TruncationVariance(r: real, scale: Scale)
    requires r * scale >= 1.0
    ensures var steps := Truncate(r * scale) as real;
      steps >= 1.0 && Times(VariancePercent(r, Written(r, scale)), steps) < 100.0
  {
  }

  /** Requests of at least ten steps that the clamp left alone. */
  predicate Calm(plan: Plan, wish: Wish) {
    && JudgedRequests(plan, wish) == FinalRequests(plan, wish)
    && FinalRequests(plan, wish).0 * 1000.0 >= 10.0 && FinalRequests(plan, wish).1 >= 10.0
  }

  /** A calm entry is not restless at any threshold of ten percent or more. */
  lemma CalmIsNotRestless(plan: Plan, wish: Wish)
    requires plan.cfg.threshold >= 10.0 && Calm(plan, wish)
    ensures !Restless(plan, wish)
  {
    var final := FinalRequests(plan, wish);
    TenStepsVariance(final.0, 1000.0);
    TenStepsVariance(final.1, 1.0);
  }

  lemma TenStepsVariance(r: real, scale: Scale)
    requires r * scale >= 10.0
    ensures VariancePercent(r, Written(r, scale)) < 10.0
  {
  }

  /** On the VPA path the variances are those of the very requests that are written; nothing is clamped after. */
  lemma VpaEntriesJudgeWhatTheyWrite(plan: Plan, rec: Vpa.ContainerRecommendation, c: Container)
    ensures Verdict(plan, Recommended(rec), c).Some?
    ensures var v, current := Verdict(plan, Recommended(rec), c).value, ReadResources(c);
      && v.cpuVariance == VariancePercent(v.cpu.request, current.cpuRequest)
      && v.memoryVariance == VariancePercent(v.memory.request, current.memoryRequest)
    ensures JudgedRequests(plan, Recommended(rec)) == FinalRequests(plan, Recommended(rec))
  {
    VerdictJudges(plan, Recommended(rec), c);
  }

  /** The effective range is not collapsed and no positive quota headroom cuts the request. */
  predicate Uncut(demand: real, b: Bounds, default: Range) {
    && b.min <= b.max.Cap(default.max) && b.max.Admits(default.min)
    && !QuotaFires(Proposed(demand, b, default), b)
  }

  lemma UncutRequest(demand: real, b: Bounds, default: Range)
    requires Usable(b, default) && Uncut(demand, b, default)
    ensures ClampAmounts(Proposed(demand, b, default), b).request == Proposed(demand, b, default).request >= default.min
  {
  }

  /** On the own path, uncut requests are calm: the default minima of 10m and 16Mi give them enough steps. */
  lemma UncutEntriesAreCalm(plan: Plan, m: ContainerMetrics)
    requires Standard(plan) && m.name != "" && m.cpu >= 0.0 && m.memory >= 0.0
    requires Uncut(CpuDemand(m.cpu), plan.policy.cpu, DEFAULT_CONSTRAINTS.cpu)
    requires Uncut(MemoryDemand(m.memory), plan.policy.memory, DEFAULT_CONSTRAINTS.memory)
    ensures Calm(plan, Measured(m))
  {
    OwnProposalIsMarginOnUsage(plan, m, ContainerResources(0.0, 0.0, 0.0, 0.0));
    UncutRequest(CpuDemand(m.cpu), plan.policy.cpu, DEFAULT_CONSTRAINTS.cpu);
    UncutRequest(MemoryDemand(m.memory), plan.policy.memory, DEFAULT_CONSTRAINTS.memory);
  }

  /** Quota headroom below the need: the same values are written, and counted, in every cycle. */
  lemma OwnPathCanBeRestless() returns (plan: Plan, wish: Wish, c: Container)
    ensures Standard(plan) && InPlaceModes(plan) && plan.cfg == DEFAULT_CONFIG
    ensures Adjusts(plan, wish, c) && Restless(plan, wish)
    ensures Settled(plan, wish, Settled(plan, wish, c)) == Settled(plan, wish, c)
    ensures Adjusts(plan, wish, Settled(plan, wish, c))
  {
    var policy := Policy(false, true, EMPTY_BOUNDS.(headroom := AtMost(1.0)), EMPTY_BOUNDS);
    plan := Plan(DEFAULT_CONFIG, EffectiveConstraints(policy, DEFAULT_CONSTRAINTS), policy, false, Auto);
    var m := ContainerMetrics("app", 5.0, 104857600.0);
    wish := Measured(m);
    c := Container("app", map[], map[]);
    assert Demand(5.0, 5.0, 0.8, 20.0) == 6.0;
    assert CpuAmounts(UsageOf(m), plan.cfg, plan.constraints.cpu) == Amounts(6.0, 9.0);
    assert ClampAmounts(Amounts(6.0, 9.0), policy.cpu) == Amounts(1.0, 2.0);
    assert FinalRequests(plan, wish).0 == 1.0;
    assert Written(1.0, 1000.0) == 1.0;
    assert VariancePercent(6.0, 1.0) == 500.0;
    SettledTwice(plan, wish, c);
    AdjustsAgainIff(plan, wish, c);
  }

  // ---- Requests cover usage ----

  predicate Roomy(plan: Plan, m: ContainerMetrics) {
    && RoomFor(CpuDemand(m.cpu), plan.policy.cpu, DEFAULT_CONSTRAINTS.cpu)
    && RoomFor(MemoryDemand(m.memory), plan.policy.memory, DEFAULT_CONSTRAINTS.memory)
  }

  predicate FineMaxima(plan: Plan, m: ContainerMetrics) {
    && MaxFineEnough(m.cpu, plan.policy.cpu, DEFAULT_CONSTRAINTS.cpu, 1000.0)
    && MaxFineEnough(m.memory, plan.policy.memory, DEFAULT_CONSTRAINTS.memory, 1.0)
  }

  predicate Covers(c: Container, m: ContainerMetrics) {
    QuantityOrZero(c.requests, CPU) >= m.cpu && QuantityOrZero(c.requests, Memory) >= m.memory
  }

  predicate NonNegativeRequests(c: Container) {
    QuantityOrZero(c.requests, CPU) >= 0.0 && QuantityOrZero(c.requests, Memory) >= 0.0
  }

  /** A measured container with room ends the cycle with requests that cover its usage, iff it is skipped or the
      LimitRange maxima survive truncation. */
  lemma NeverStarved(plan: Plan, m: ContainerMetrics, c: Container)
    requires Standard(plan) && plan.cfg.threshold <= 20.0
    requires m.name != "" && m.cpu >= 0.0 && m.memory >= 0.0 && Roomy(plan, m) && NonNegativeRequests(c)
    ensures Covers(Settled(plan, Measured(m), c), m) <==> !Adjusts(plan, Measured(m), c) || FineMaxima(plan, m)
  {
    var current := ReadResources(c);
    OwnProposalIsMarginOnUsage(plan, m, current);
    var proposal := OwnProposal(plan, m, current).value;
    if Adjusts(plan, Measured(m), c) {
      OwnRecommendationIsFinal(plan, m, current);
      FinalCoversUsage(m.cpu, CpuDemand(m.cpu), plan.policy.cpu, DEFAULT_CONSTRAINTS.cpu, 1000.0);
      FinalCoversUsage(m.memory, MemoryDemand(m.memory), plan.policy.memory, DEFAULT_CONSTRAINTS.memory, 1.0);
    } else {
      ProposedFacts(CpuDemand(m.cpu), plan.policy.cpu, DEFAULT_CONSTRAINTS.cpu);
      ProposedFacts(MemoryDemand(m.memory), plan.policy.memory, DEFAULT_CONSTRAINTS.memory);
      SkippedCoversUsage(m.cpu, proposal.cpu.request, current.cpuRequest, plan.cfg.threshold);
      SkippedCoversUsage(m.memory, proposal.memory.request, current.memoryRequest, plan.cfg.threshold);
    }
  }

  /** The bound on the threshold is sharp: above twenty percent some container is left below its usage. */
  lemma StarvedAboveMargin(plan: Plan) returns (m: ContainerMetrics, c: Container)
    requires Standard(plan) && !plan.policy.Found() && plan.cfg.threshold > 20.0
    ensures m.name != "" && m.cpu >= 0.0 && m.memory >= 0.0 && Roomy(plan, m) && NonNegativeRequests(c)
    ensures !Covers(Settled(plan, Measured(m), c), m)
  {
    var usage, request, current := ThresholdAboveMarginStarves(plan.cfg.threshold);
    m := ContainerMetrics("app", usage, 80.0 * 1048576.0);
    c := Container("app", map[CPU := current, Memory := 100.0 * 1048576.0], map[]);
    OwnProposalIsMarginOnUsage(plan, m, ReadResources(c));
    assert CpuDemand(m.cpu) == 1.2 && MemoryDemand(m.memory) == 100.0 * 1048576.0;
    assert VariancePercent(100.0 * 1048576.0, 100.0 * 1048576.0) == 0.0;
    assert !Adjusts(plan, Measured(m), c);
  }
}
