/** The two recommendation paths from end to end: from usage or VPA target to the clamped recommendation. */
module PipelineLaws {
  import opened Quantities
  import opened Calculator
  import opened NamespaceLimits
  import opened MergeLaws
  import opened ClampLaws
  import opened SizingLaws
  import opened Metrics
  import opened ApiTypes
  import opened Evaluation
  import opened Reconciling
  import Vpa

  /** A plan as every cycle makes it, with the facts Kubernetes guarantees about its policy. */
  ghost predicate Standard(plan: Plan) {
    && Sane(plan.policy.cpu) && Sane(plan.policy.memory)
    && plan.constraints == EffectiveConstraints(plan.policy, DEFAULT_CONSTRAINTS)
    && plan.cfg == DEFAULT_CONFIG.(threshold := plan.cfg.threshold)
    && (!plan.policy.Found() ==> plan.policy.cpu == EMPTY_BOUNDS && plan.policy.memory == EMPTY_BOUNDS)
  }

  lemma PlansAreStandard(spec: Spec, obs: Observation)
    requires Sane(PolicyFor(obs).cpu) && Sane(PolicyFor(obs).memory)
    ensures Standard(PlanFor(spec, obs))
  {
  }

  /** Usage with the default safety margins. */
  function CpuDemand(usage: real): real {
    usage * 1.2
  }

  function MemoryDemand(usage: real): real {
    usage * 1.25
  }

  /** The two amounts of the own algorithm after the clamp, in terms of usage. */
  function OwnCpu(plan: Plan, usage: real): Amounts {
    Final(CpuDemand(usage), plan.policy.cpu, DEFAULT_CONSTRAINTS.cpu)
  }

  function OwnMemory(plan: Plan, usage: real): Amounts {
    Final(MemoryDemand(usage), plan.policy.memory, DEFAULT_CONSTRAINTS.memory)
  }

  /** With average and peak from the same reading, the margins alone decide: 20 percent for CPU, 25 for memory. */
  lemma OwnProposalIsMarginOnUsage(plan: Plan, m: ContainerMetrics, current: ContainerResources)
    requires Standard(plan) && m.name != "" && m.cpu >= 0.0 && m.memory >= 0.0
    ensures OwnProposal(plan, m, current).Some?
    ensures var rec := OwnProposal(plan, m, current).value;
      && rec.cpu == Proposed(CpuDemand(m.cpu), plan.policy.cpu, DEFAULT_CONSTRAINTS.cpu)
      && rec.memory == Proposed(MemoryDemand(m.memory), plan.policy.memory, DEFAULT_CONSTRAINTS.memory)
  {
  }

  lemma OwnRecommendationIsFinal(plan: Plan, m: ContainerMetrics, current: ContainerResources)
    requires Standard(plan) && m.name != "" && m.cpu >= 0.0 && m.memory >= 0.0
    ensures OwnProposal(plan, m, current).Some?
    ensures var rec := ClampedBy(plan.policy, OwnProposal(plan, m, current).value);
      rec.cpu == OwnCpu(plan, m.cpu) && rec.memory == OwnMemory(plan, m.memory)
  {
    OwnProposalIsMarginOnUsage(plan, m, current);
    ProposedFacts(CpuDemand(m.cpu), plan.policy.cpu, DEFAULT_CONSTRAINTS.cpu);
    ProposedFacts(MemoryDemand(m.memory), plan.policy.memory, DEFAULT_CONSTRAINTS.memory);
  }

  lemma OwnAmountsMonotone(plan: Plan, less: real, more: real)
    requires Standard(plan) && 0.0 <= less <= more
    ensures AtMostAmounts(OwnCpu(plan, less), OwnCpu(plan, more))
    ensures AtMostAmounts(OwnMemory(plan, less), OwnMemory(plan, more))
  {
    FinalMonotone(CpuDemand(less), CpuDemand(more), plan.policy.cpu, DEFAULT_CONSTRAINTS.cpu);
    FinalMonotone(MemoryDemand(less), MemoryDemand(more), plan.policy.memory, DEFAULT_CONSTRAINTS.memory);
  }

  /** The recommendation the own algorithm hands to the updater. */
  function OwnRecommendation(plan: Plan, m: ContainerMetrics,
      current: ContainerResources): Option<ResourceRecommendation> {
    var proposal := OwnProposal(plan, m, current);
    if proposal.None? then None else Some(ClampedBy(plan.policy, proposal.value))
  }

  /** More usage never lowers any of the four recommended values, whatever the allocations were. */
  lemma OwnPathMonotone(plan: Plan, less: ContainerMetrics, more: ContainerMetrics, x: ContainerResources,
      y: ContainerResources)
    requires Standard(plan) && less.name != "" && more.name != ""
    requires 0.0 <= less.cpu <= more.cpu && 0.0 <= less.memory <= more.memory
    ensures var a, b := OwnRecommendation(plan, less, x), OwnRecommendation(plan, more, y);
      a.Some? && b.Some? && AtMostAmounts(a.value.cpu, b.value.cpu) && AtMostAmounts(a.value.memory, b.value.memory)
  {
    OwnAmountsMonotone(plan, less.cpu, more.cpu);
    OwnAmountsMonotone(plan, less.memory, more.memory);
    var a, b := OwnRecommendation(plan, less, x), OwnRecommendation(plan, more, y);
    assert a.Some? && a.value.cpu == OwnCpu(plan, less.cpu) && a.value.memory == OwnMemory(plan, less.memory) by {
      OwnRecommendationIsFinal(plan, less, x);
    }
    assert b.Some? && b.value.cpu == OwnCpu(plan, more.cpu) && b.value.memory == OwnMemory(plan, more.memory) by {
      OwnRecommendationIsFinal(plan, more, y);
    }
  }

  /** Reasons of the own path name ratio or quota only, when the LimitRange mins fit; and then none means unchanged. */
  lemma OwnPathReasons(plan: Plan, m: ContainerMetrics, current: ContainerResources)
    requires Standard(plan) && m.name != "" && m.cpu >= 0.0 && m.memory >= 0.0
    requires plan.policy.cpu.min <= plan.policy.cpu.max.Cap(DEFAULT_CONSTRAINTS.cpu.max)
    requires plan.policy.memory.min <= plan.policy.memory.max.Cap(DEFAULT_CONSTRAINTS.memory.max)
    ensures OwnProposal(plan, m, current).Some?
    ensures var rec := OwnProposal(plan, m, current).value;
      && (forall reason | reason in ReasonsBy(plan.policy, rec) :: reason.stage in {RatioCapped, QuotaCapped})
      && (ReasonsBy(plan.policy, rec) == [] ==> ClampedBy(plan.policy, rec) == rec)
  {
    OwnProposalIsMarginOnUsage(plan, m, current);
    var rec := OwnProposal(plan, m, current).value;
    var cpu, memory := rec.cpu, rec.memory;
    forall reason | reason in ReasonsBy(plan.policy, rec)
      ensures reason.stage in {RatioCapped, QuotaCapped}
    {
      ReasonsAreExact(cpu, memory, plan.policy, reason);
      OnlyRatioAndQuotaReport(CpuDemand(m.cpu), plan.policy.cpu, DEFAULT_CONSTRAINTS.cpu, reason.stage);
      OnlyRatioAndQuotaReport(MemoryDemand(m.memory), plan.policy.memory, DEFAULT_CONSTRAINTS.memory, reason.stage);
    }
    if ReasonsBy(plan.policy, rec) == [] && plan.policy.Found() {
      forall stage
        ensures !Reports(cpu, plan.policy.cpu, stage) && !Reports(memory, plan.policy.memory, stage)
      {
        ReasonsAreExact(cpu, memory, plan.policy, Reason(CPU, stage));
        ReasonsAreExact(cpu, memory, plan.policy, Reason(Memory, stage));
      }
      OnlyRatioAndQuotaReport(CpuDemand(m.cpu), plan.policy.cpu, DEFAULT_CONSTRAINTS.cpu, MinRaised);
      OnlyRatioAndQuotaReport(MemoryDemand(m.memory), plan.policy.memory, DEFAULT_CONSTRAINTS.memory, MinRaised);
    }
  }

  // ---- Admission ----

  /** Every LimitRange item and quota of the namespace accepts both resources of the recommendation. */
  predicate Accepted(ranges: seq<LimitRange>, quotas: seq<ResourceQuota>, rec: ResourceRecommendation) {
    AcceptedBy(ranges, quotas, CPU, rec.cpu) && AcceptedBy(ranges, quotas, Memory, rec.memory)
  }

  lemma ClampAcceptedIff(ranges: seq<LimitRange>, quotas: seq<ResourceQuota>, res: ResourceName, a: Amounts)
    requires var b := MergedBounds(AllItems(ranges), quotas, res);
      Sane(b) && (a.request > 0.0 || (a.request == 0.0 && b.max == AtMost(0.0)))
    ensures var b := MergedBounds(AllItems(ranges), quotas, res);
      AcceptedBy(ranges, quotas, res, ClampAmounts(a, b)) <==> Feasible(b)
  {
    var b := MergedBounds(AllItems(ranges), quotas, res);
    BeforeQuotaFacts(a, b);
    AcceptedIffAdmissible(ranges, quotas, res, ClampAmounts(a, b));
    ClampAdmissibleIff(a, b);
  }

  lemma NothingFound(ranges: seq<LimitRange>, quotas: seq<ResourceQuota>, res: ResourceName, a: Amounts)
    requires ranges == [] && quotas == []
    ensures MergedBounds(AllItems(ranges), quotas, res) == EMPTY_BOUNDS
    ensures AcceptedBy(ranges, quotas, res, a) <==> a.request <= a.limit
  {
  }

  /** Own algorithm: the namespace accepts the recommendation iff its merged bounds are feasible. */
  lemma OwnPathAcceptedIff(spec: Spec, obs: Observation, m: ContainerMetrics, current: ContainerResources)
    requires obs.limitsConfigured && obs.ranges.Some? && obs.quotas.Some?
    requires var p := PolicyFor(obs); Sane(p.cpu) && Sane(p.memory)
    requires m.name != "" && m.cpu >= 0.0 && m.memory >= 0.0
    ensures var plan := PlanFor(spec, obs);
      OwnProposal(plan, m, current).Some? &&
      (Accepted(obs.ranges.value, obs.quotas.value, ClampedBy(plan.policy, OwnProposal(plan, m, current).value))
       <==> Feasible(plan.policy.cpu) && Feasible(plan.policy.memory))
  {
    var plan := PlanFor(spec, obs);
    PlansAreStandard(spec, obs);
    OwnRecommendationIsFinal(plan, m, current);
    ProposedFacts(CpuDemand(m.cpu), plan.policy.cpu, DEFAULT_CONSTRAINTS.cpu);
    ProposedFacts(MemoryDemand(m.memory), plan.policy.memory, DEFAULT_CONSTRAINTS.memory);
    var cpu := Proposed(CpuDemand(m.cpu), plan.policy.cpu, DEFAULT_CONSTRAINTS.cpu);
    var memory := Proposed(MemoryDemand(m.memory), plan.policy.memory, DEFAULT_CONSTRAINTS.memory);
    ClampAcceptedIff(obs.ranges.value, obs.quotas.value, CPU, cpu);
    ClampAcceptedIff(obs.ranges.value, obs.quotas.value, Memory, memory);
  }

  /** The upper bound of a VPA entry, when it has one, ends no lower than the target: it is no lower, or the target is
      raised to the range's min anyway, or the bound is cut to the range's max. A missing target reads as zero. */
  predicate UpperBoundFits(rec: Vpa.ContainerRecommendation, res: ResourceName, range: Range) {
    var target := TargetOr(rec.target, res, 0.0);
    || res !in rec.upperBound
    || target <= rec.upperBound[res] || target <= range.min || rec.upperBound[res] >= range.max
  }

  predicate UpperBoundsFit(rec: Vpa.ContainerRecommendation, constraints: Constraints) {
    UpperBoundFits(rec, CPU, constraints.cpu) && UpperBoundFits(rec, Memory, constraints.memory)
  }

  lemma UpperBoundFitsMeans(rec: Vpa.ContainerRecommendation, res: ResourceName, range: Range)
    requires 0.0 < range.min < range.max
    ensures var a := VpaAmounts(rec, res, range); a.request <= a.limit <==> UpperBoundFits(rec, res, range)
  {
  }

  /** Only a LimitRange max of zero makes the request zero. */
  lemma VpaRequestPositive(rec: Vpa.ContainerRecommendation, res: ResourceName, b: Bounds, default: Range)
    requires Usable(b, default)
    ensures var request := VpaAmounts(rec, res, EffectiveRange(b, default)).request;
      request > 0.0 || (request == 0.0 && b.max == AtMost(0.0))
  {
  }

  /** VPA path: feasible bounds are not enough when the namespace has neither object, because then nothing
      repairs an upper bound below the target. */
  lemma VpaPathAcceptedIff(spec: Spec, obs: Observation, vpaRec: Vpa.ContainerRecommendation)
    requires obs.limitsConfigured && obs.ranges.Some? && obs.quotas.Some?
    requires var p := PolicyFor(obs); Sane(p.cpu) && Sane(p.memory)
    ensures var plan := PlanFor(spec, obs);
      Accepted(obs.ranges.value, obs.quotas.value, ClampedBy(plan.policy, VpaProposal(vpaRec, plan.constraints)))
      <==>
        if plan.policy.Found() then Feasible(plan.policy.cpu) && Feasible(plan.policy.memory)
        else UpperBoundsFit(vpaRec, DEFAULT_CONSTRAINTS)
  {
    var plan := PlanFor(spec, obs);
    var proposal := VpaProposal(vpaRec, plan.constraints);
    var ranges, quotas := obs.ranges.value, obs.quotas.value;
    VpaRequestPositive(vpaRec, CPU, plan.policy.cpu, DEFAULT_CONSTRAINTS.cpu);
    VpaRequestPositive(vpaRec, Memory, plan.policy.memory, DEFAULT_CONSTRAINTS.memory);
    if plan.policy.Found() {
      ClampAcceptedIff(ranges, quotas, CPU, proposal.cpu);
      ClampAcceptedIff(ranges, quotas, Memory, proposal.memory);
    } else {
      NothingFound(ranges, quotas, CPU, proposal.cpu);
      NothingFound(ranges, quotas, Memory, proposal.memory);
      UpperBoundFitsMeans(vpaRec, CPU, DEFAULT_CONSTRAINTS.cpu);
      UpperBoundFitsMeans(vpaRec, Memory, DEFAULT_CONSTRAINTS.memory);
    }
  }

  /** An upper bound below the target, in a namespace without LimitRange and quota, gives a limit below the request. */
  lemma VpaLimitBelowRequest(spec: Spec, obs: Observation) returns (vpaRec: Vpa.ContainerRecommendation)
    requires !PolicyFor(obs).Found() && PolicyFor(obs).cpu == EMPTY_BOUNDS
    ensures var plan := PlanFor(spec, obs);
      var rec := ClampedBy(plan.policy, VpaProposal(vpaRec, plan.constraints)); rec.cpu.limit < rec.cpu.request
  {
    vpaRec := Vpa.ContainerRecommendation("app", map[CPU := 2.0], map[CPU := 1.0]);
  }

  // ---- Never below usage ----

  /** The demand fits under the effective max, and no positive quota headroom cuts the request. */
  predicate RoomFor(demand: real, b: Bounds, default: Range) {
    demand <= b.max.Cap(default.max) && !QuotaFires(BeforeQuota(Proposed(demand, b, default), b), b)
  }

  /** A LimitRange max below the default min is what gets written, so its whole steps must cover the usage. */
  predicate MaxFineEnough(usage: real, b: Bounds, default: Range, scale: Scale) {
    b.max.Admits(default.min) || usage <= Written(b.max.value, scale)
  }

  /** With room for the margin, the written request covers the usage exactly when truncation of the max does. */
  lemma FinalCoversUsage(usage: real, demand: real, b: Bounds, default: Range, scale: Scale)
    requires Usable(b, default) && default.min * scale >= 10.0
    requires 0.0 <= usage && usage * 1.2 <= demand && RoomFor(demand, b, default)
    ensures Written(Final(demand, b, default).request, scale) >= usage <==> MaxFineEnough(usage, b, default, scale)
  {
    var request := Final(demand, b, default).request;
    RoomyRequest(demand, b, default);
    if b.max.Admits(default.min) {
      WrittenCovers(usage, request, scale);
    }
  }

  /** With room, the request covers the demand, and is at least the default min or else the LimitRange max. */
  lemma RoomyRequest(demand: real, b: Bounds, default: Range)
    requires Usable(b, default) && RoomFor(demand, b, default)
    ensures var request := Final(demand, b, default).request;
      demand <= request && (if b.max.Admits(default.min) then default.min <= request else request == b.max.value)
  {
  }

  /** From ten steps on, truncation takes less than the margin of 20 percent. */
  lemma WrittenCovers(usage: real, request: real, scale: Scale)
    requires 0.0 <= usage && usage * 1.2 <= request && request * scale >= 10.0
    ensures Written(request, scale) >= usage
  {
  }

  /** A CPU max of 1.5m: usage of 1.25m fits under it with its margin, and is left with a request of 1m. */
  lemma CoarseMaxStarves() returns (usage: real, b: Bounds)
    ensures var default := DEFAULT_CONSTRAINTS.cpu;
      && Usable(b, default) && 0.0 < usage && RoomFor(CpuDemand(usage), b, default)
      && 0.0 < Written(Final(CpuDemand(usage), b, default).request, 1000.0) < usage
  {
    usage, b := 0.00125, EMPTY_BOUNDS.(max := AtMost(0.0015));
    assert Final(CpuDemand(usage), b, DEFAULT_CONSTRAINTS.cpu).request == 0.0015;
    assert Truncate(1.5) == 1;
  }

  /** An allocation within the threshold of a request with margin still covers the usage. */
  lemma SkippedCoversUsage(usage: real, request: real, current: real, threshold: real)
    requires 0.0 <= usage && request >= usage * 1.2 && current >= 0.0
    requires threshold <= 20.0 && VariancePercent(request, current) < threshold
    ensures current >= usage
  {
    if request > current {
      assert (request - current) / current * 100.0 < 20.0;
      assert (request - current) / current < 0.2;
      assert request - current == (request - current) / current * current;
      assert request - current <= 0.2 * current;
    }
  }

  /** Twenty percent is the exact margin: for every larger threshold some allocation is skipped below its usage. */
  lemma ThresholdAboveMarginStarves(threshold: real) returns (usage: real, request: real, current: real)
    requires threshold > 20.0
    ensures usage == 1.0 && request == 1.2 && 0.0 < current < usage
    ensures VariancePercent(request, current) < threshold
  {
    usage, request := 1.0, 1.2;
    var gap := if threshold > 40.0 then 30.0 else (threshold + 20.0) / 2.0;
    assert 20.0 < gap < threshold;
    current := 1.2 / (1.0 + gap / 100.0);
    assert current * (1.0 + gap / 100.0) == 1.2;
    assert current > 0.0 && current < 1.0;
    assert 1.2 - current == current * (gap / 100.0);
    assert (1.2 - current) / current == gap / 100.0;
  }
}
