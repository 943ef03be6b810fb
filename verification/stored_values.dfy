/** The values an adjusted container is stored with, from usage or VPA entry to whole steps. */
module StoredValues {
  import opened Quantities
  import opened Calculator
  import opened CalculatorLaws
  import opened NamespaceLimits
  import opened ClampLaws
  import opened Pods
  import opened ApiTypes
  import opened Metrics
  import opened Updater
  import opened UpdaterLaws
  import opened Evaluation
  import opened Settling
  import Vpa

  /** The value within the range, or else the nearer end. */
  predicate BroughtInto(range: Range, v: real, r: real) {
    && range.min <= r <= range.max
    && (range.min <= v <= range.max ==> r == v)
    && (v < range.min ==> r == range.min)
    && (v > range.max ==> r == range.max)
  }

  /** The target is the request, zero when missing; the upper bound is the limit, one and a half times the target when
      missing; each brought into the range. */
  predicate SizedByVpa(rec: Vpa.ContainerRecommendation, res: ResourceName, range: Range, a: Amounts) {
    && (res in rec.target ==> BroughtInto(range, rec.target[res], a.request))
    && (res !in rec.target ==> BroughtInto(range, 0.0, a.request))
    && (res in rec.upperBound ==> BroughtInto(range, rec.upperBound[res], a.limit))
    && (res !in rec.upperBound && res in rec.target ==> BroughtInto(range, rec.target[res] * 1.5, a.limit))
    && (res !in rec.upperBound && res !in rec.target ==> BroughtInto(range, 0.0, a.limit))
  }

  lemma VpaAmountsAreSized(rec: Vpa.ContainerRecommendation, res: ResourceName, range: Range)
    requires range.min <= range.max
    ensures SizedByVpa(rec, res, range, VpaAmounts(rec, res, range))
  {
  }

  predicate ProperRanges(constraints: Constraints) {
    constraints.cpu.min <= constraints.cpu.max && constraints.memory.min <= constraints.memory.max
  }

  /** Both resources of a VPA entry are sized, each from its own quantities and into its own range. */
  lemma VpaProposalIsSized(rec: Vpa.ContainerRecommendation, constraints: Constraints)
    requires ProperRanges(constraints)
    ensures var proposal := VpaProposal(rec, constraints);
      && proposal.name == rec.containerName
      && SizedByVpa(rec, CPU, constraints.cpu, proposal.cpu)
      && SizedByVpa(rec, Memory, constraints.memory, proposal.memory)
  {
    VpaAmountsAreSized(rec, CPU, constraints.cpu);
    VpaAmountsAreSized(rec, Memory, constraints.memory);
  }

  /** The clamp runs iff the namespace has an object. */
  ghost predicate Restricted(policy: Policy, a: Amounts, b: Bounds, q: Amounts) {
    if policy.limitRangeFound || policy.resourceQuotaFound then ClampedTo(a, b, q) else q == a
  }

  lemma ClampedByIsRestricted(policy: Policy, rec: ResourceRecommendation)
    ensures var clamped := ClampedBy(policy, rec);
      && clamped.name == rec.name
      && Restricted(policy, rec.cpu, policy.cpu, clamped.cpu)
      && Restricted(policy, rec.memory, policy.memory, clamped.memory)
  {
    ClampIsExact(rec.cpu, policy.cpu);
    ClampIsExact(rec.memory, policy.memory);
  }

  /** The reasons of a recommendation: those of the stages that adjusted it, each once, and none without an object. */
  lemma ReasonsByAre(policy: Policy, rec: ResourceRecommendation, reason: Reason)
    ensures reason in ReasonsBy(policy, rec) <==>
      && (policy.limitRangeFound || policy.resourceQuotaFound)
      && ((reason.resource == CPU && Reports(rec.cpu, policy.cpu, reason.stage)) ||
          (reason.resource == Memory && Reports(rec.memory, policy.memory, reason.stage)))
    ensures InOrderBelow(ReasonsBy(policy, rec), 10)
  {
    ReasonsAreExact(rec.cpu, rec.memory, policy, reason);
    ReasonsInOrder(rec.cpu, rec.memory, policy);
  }

  /** A container's requests and limits are set to these amounts in whole steps. */
  ghost predicate Keeps(before: Container, after: Container, cpu: Amounts, memory: Amounts) {
    && after.name == before.name
    && SetTo(before.requests, after.requests, cpu.request, memory.request)
    && SetTo(before.limits, after.limits, cpu.limit, memory.limit)
  }

  /** An adjusted container holds what the VPA entry asks for, restricted by the namespace. */
  lemma VpaStored(plan: Plan, rec: Vpa.ContainerRecommendation, c: Container)
    returns (cpu: Amounts, memory: Amounts, finalCpu: Amounts, finalMemory: Amounts)
    requires ProperRanges(plan.constraints) && Adjusts(plan, Recommended(rec), c)
    ensures SizedByVpa(rec, CPU, plan.constraints.cpu, cpu) && SizedByVpa(rec, Memory, plan.constraints.memory, memory)
    ensures Restricted(plan.policy, cpu, plan.policy.cpu, finalCpu)
    ensures Restricted(plan.policy, memory, plan.policy.memory, finalMemory)
    ensures Keeps(c, Settled(plan, Recommended(rec), c), finalCpu, finalMemory)
  {
    var proposal := VpaProposal(rec, plan.constraints);
    var final := ClampedBy(plan.policy, proposal);
    VpaProposalIsSized(rec, plan.constraints);
    ClampedByIsRestricted(plan.policy, proposal);
    WrittenContainer(c, Verdict(plan, Recommended(rec), c).value);
    cpu, memory, finalCpu, finalMemory := proposal.cpu, proposal.memory, final.cpu, final.memory;
  }

  /** And on the own path what the usage asks for. */
  lemma OwnStored(plan: Plan, m: ContainerMetrics, c: Container)
    returns (cpu: Amounts, memory: Amounts, finalCpu: Amounts, finalMemory: Amounts)
    requires ProperRanges(plan.constraints) && Adjusts(plan, Measured(m), c)
    requires plan.cfg.cpuMargin >= -100.0 && plan.cfg.memoryMargin >= -100.0
    ensures Sized(cpu, m.cpu, Times(m.cpu, plan.cfg.cpuDampening), MarginFactor(plan.cfg.cpuMargin),
      plan.cfg.limitRatio, plan.constraints.cpu)
    ensures Sized(memory, m.memory, Times(m.memory, plan.cfg.memoryDampening), MarginFactor(plan.cfg.memoryMargin),
      plan.cfg.limitRatio, plan.constraints.memory)
    ensures Restricted(plan.policy, cpu, plan.policy.cpu, finalCpu)
    ensures Restricted(plan.policy, memory, plan.policy.memory, finalMemory)
    ensures Keeps(c, Settled(plan, Measured(m), c), finalCpu, finalMemory)
  {
    var proposal := OwnProposal(plan, m, ReadResources(c)).value;
    var final := ClampedBy(plan.policy, proposal);
    CalculateIsSized(UsageOf(m), AllocationOf(m.name, ReadResources(c)), plan.cfg, plan.constraints);
    ClampedByIsRestricted(plan.policy, proposal);
    WrittenContainer(c, final);
    cpu, memory, finalCpu, finalMemory := proposal.cpu, proposal.memory, final.cpu, final.memory;
  }
}
