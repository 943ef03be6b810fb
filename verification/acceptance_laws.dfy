/** What the namespace makes of the containers that a cycle leaves stored. */
module AcceptanceLaws {
  import opened Quantities
  import opened Calculator
  import opened NamespaceLimits
  import opened MergeLaws
  import opened ClampLaws
  import opened SizingLaws
  import opened PipelineLaws
  import opened Pods
  import opened ApiTypes
  import opened Metrics
  import opened Updater
  import opened Evaluation
  import opened Reconciling
  import opened Settling
  import opened Cycles
  import opened RestlessLaws
  import Vpa

  /** Every LimitRange item and quota of the namespace accepts the container's values for both resources. */
  predicate ContainerAccepted(ranges: seq<LimitRange>, quotas: seq<ResourceQuota>, c: Container) {
    && AcceptedBy(ranges, quotas, CPU, Amounts(QuantityOrZero(c.requests, CPU), QuantityOrZero(c.limits, CPU)))
    && AcceptedBy(ranges, quotas, Memory,
        Amounts(QuantityOrZero(c.requests, Memory), QuantityOrZero(c.limits, Memory)))
  }

  /** Bounds that leave room, with a min of whole steps. */
  predicate Roomful(b: Bounds, scale: Scale) {
    Sane(b) && Feasible(b) && Written(b.min, scale) == b.min
  }

  /** Both lists were read, and the merged bounds leave room. */
  predicate NamespaceFits(obs: Observation) {
    && obs.limitsConfigured && obs.ranges.Some? && obs.quotas.Some?
    && Roomful(PolicyFor(obs).cpu, 1000.0) && Roomful(PolicyFor(obs).memory, 1.0)
  }

  /** A VPA entry in a namespace without objects has its upper bounds in order. */
  predicate EntryFits(obs: Observation, wish: Wish) {
    match wish
    case Measured(m) => NonNegativeUsage(wish)
    case Recommended(rec) => PolicyFor(obs).Found() || UpperBoundsFit(rec, DEFAULT_CONSTRAINTS)
  }

  lemma ClampNotNegative(a: Amounts, b: Bounds)
    requires Sane(b) && a.request >= 0.0
    ensures ClampAmounts(a, b).request >= 0.0
  {
    BeforeQuotaFacts(a, b);
  }

  lemma VerdictAccepted(spec: Spec, obs: Observation, wish: Wish, c: Container)
    requires NamespaceFits(obs) && EntryFits(obs, wish) && Adjusts(PlanFor(spec, obs), wish, c)
    ensures var rec := Verdict(PlanFor(spec, obs), wish, c).value;
      Accepted(obs.ranges.value, obs.quotas.value, rec) && rec.cpu.request >= 0.0 && rec.memory.request >= 0.0
  {
    var plan := PlanFor(spec, obs);
    PlansAreStandard(spec, obs);
    var proposal;
    match wish
    case Measured(m) =>
      OwnPathAcceptedIff(spec, obs, m, ReadResources(c));
      proposal := OwnProposal(plan, m, ReadResources(c)).value;
      ClampNotNegative(proposal.cpu, plan.policy.cpu);
      ClampNotNegative(proposal.memory, plan.policy.memory);
    case Recommended(rec) =>
      VpaPathAcceptedIff(spec, obs, rec);
      proposal := VpaProposal(rec, plan.constraints);
      ClampNotNegative(proposal.cpu, plan.policy.cpu);
      ClampNotNegative(proposal.memory, plan.policy.memory);
  }

  /** An adjusted container is accepted as written. */
  lemma SettledAccepted(spec: Spec, obs: Observation, wish: Wish, c: Container)
    requires NamespaceFits(obs) && EntryFits(obs, wish) && Adjusts(PlanFor(spec, obs), wish, c)
    ensures ContainerAccepted(obs.ranges.value, obs.quotas.value, Settled(PlanFor(spec, obs), wish, c))
  {
    var rec := Verdict(PlanFor(spec, obs), wish, c).value;
    VerdictAccepted(spec, obs, wish, c);
    WrittenStillAccepted(obs.ranges.value, obs.quotas.value, CPU, rec.cpu);
    WrittenStillAccepted(obs.ranges.value, obs.quotas.value, Memory, rec.memory);
  }

  /** After a cycle every container that an entry adjusts is stored with values that every LimitRange item and quota of
      the namespace accepts, when the merged bounds leave room and their mins are whole steps. */
  lemma CycleIsAccepted(spec: Spec, obs: Observation, answers: Answers, source: Source, w: World, pods: seq<ListedPod>,
      i: nat, j: nat)
    requires var plan := PlanFor(spec, obs);
      && NamespaceFits(obs) && InPlaceModes(plan) && AccurateList(source, w, pods)
      && Granted(answers, w, CycleAdjustments(plan, source, pods))
    requires i < |pods| && j < |pods[i].value.containers|
    requires var c := pods[i].value.containers[j];
      var wish := WishFor(WishesFor(source, pods[i].name), c.name);
      wish.Some? && Adjusts(PlanFor(spec, obs), wish.value, c) && EntryFits(obs, wish.value)
    ensures var after := CycleLoop(PlanFor(spec, obs), answers, source, w, pods).world.pods;
      && pods[i].name in after && |after[pods[i].name].containers| == |pods[i].value.containers|
      && ContainerAccepted(obs.ranges.value, obs.quotas.value, after[pods[i].name].containers[j])
  {
    var plan, c := PlanFor(spec, obs), pods[i].value.containers[j];
    var wishes := WishesFor(source, pods[i].name);
    CycleSettles(plan, answers, source, w, pods);
    SettledAccepted(spec, obs, WishFor(wishes, c.name).value, c);
    assert SettledBy(plan, wishes, c) == Settled(plan, WishFor(wishes, c.name).value, c);
  }
}
