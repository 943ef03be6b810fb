/** The object after a cycle: its finalizers, and every field of its status. */
module StatusLaws {
  import opened Quantities
  import opened Calculator
  import opened CalculatorLaws
  import opened NamespaceLimits
  import opened Pods
  import opened ApiTypes
  import opened Server
  import opened Evaluation
  import opened Conditions
  import opened Reconciling
  import opened VpaLaws
  import opened Settling
  import opened Cycles
  import opened CycleSafety
  import opened StoredValues
  import opened ReportingLaws
  import opened Runs
  import opened ConditionHistory
  import opened RunCounters
  import opened ReconcileLaws
  import Vpa

  // ---- The object and the calls ----

  /** Without an object, or without fetching it, nothing happens. */
  lemma NothingFetched(answers: Answers, c: Cluster, obs: Observation)
    requires !obs.fetched || c.autoscaler.None?
    ensures Reconcile(answers, c, obs) == c
  {
  }

  /** A deletion cycle ends with one update of the object, which takes the own finalizer away and leaves the others; the
      object is gone iff there are none. Without the own finalizer it does nothing. */
  lemma DeletionOfObject(answers: Answers, c: Cluster, obs: Observation)
    requires obs.fetched && c.autoscaler.Some? && c.autoscaler.value.deleting
    ensures var pa, after := c.autoscaler.value, Reconcile(answers, c, obs);
      var k := |c.world.log| + CleanupCalls(obs);
      var rest := pa.finalizers - {FINALIZER};
      if FINALIZER !in pa.finalizers then after == c
      else
        && |after.world.log| == k + 1 && after.world.log[k] == Call(ObjectUpdate, answers(k))
        && after.autoscaler ==
            (if !answers(k) then Some(pa) else if rest == {} then None else Some(pa.(finalizers := rest)))
  {
    CleanupManagedResult(answers, c.world, obs);
  }

  /** Otherwise the own finalizer is added to the others first, and unless it is there the cycle ends. */
  lemma FinalizerOfObject(answers: Answers, c: Cluster, obs: Observation)
    requires obs.fetched && c.autoscaler.Some? && !c.autoscaler.value.deleting
    requires FINALIZER !in c.autoscaler.value.finalizers
    ensures var pa, n := c.autoscaler.value, |c.world.log|;
      var logged := c.world.(log := c.world.log + [Call(ObjectUpdate, answers(n))]);
      Reconcile(answers, c, obs) ==
        if answers(n)
        then Reconcile(answers, Cluster(logged, Some(pa.(finalizers := pa.finalizers + {FINALIZER}))), obs)
        else Cluster(logged, Some(pa))
  {
  }

  /** On a managed object a cycle changes the status only. Its last call is the status write; it makes no other when it
      does not evaluate, and none at all when the pods could not be listed. */
  lemma CallsOfManagedCycle(answers: Answers, c: Cluster, obs: Observation)
    requires Managed(c) && obs.fetched
    ensures var pa, after := c.autoscaler.value, Reconcile(answers, c, obs);
      && after.autoscaler.Some? && after.autoscaler.value == pa.(status := after.autoscaler.value.status)
      && (obs.selectorValid && obs.listed.None? ==> after == c)
      && (!obs.selectorValid || (obs.listed.Some? && !Evaluates(pa.spec, obs)) ==>
            after.world == c.world.(log := c.world.log + [Call(StatusUpdate, answers(|c.world.log|))]))
  {
  }

  // ---- The status of a cycle that evaluates ----

  /** Everything in the status but phase and conditions. */
  ghost predicate EvaluatedInto(s: Status, t: Status, c: Cluster, obs: Observation, plan: Plan, source: Source,
      adjustments: nat)
    requires c.autoscaler.Some? && obs.listed.Some?
  {
    var pods := Running(obs.listed.value);
    var entries := CycleYields(source, pods);
    && t.monitoredPods == |pods|
    && t.recommendation == (if entries == [] then s.recommendation else ReportList(plan, entries))
    && t.lastEvaluationTime == Some(obs.now)
    && t.lastUpdateTime == (if adjustments > 0 then Some(obs.now) else s.lastUpdateTime)
    && t.totalAdjustments == s.totalAdjustments + adjustments
    && t.observedGeneration == c.autoscaler.value.generation
    && t.clampReasons ==
        (if plan.policy.limitRangeFound || plan.policy.resourceQuotaFound then Some(ReasonsOf(plan, entries)) else None)
  }

  /** The VPA part of a status, in terms of the object that is found. */
  ghost predicate VpaStatusIs(status: Option<VpaStatus>, spec: Spec, view: VpaView) {
    && (forall obj | Finds(spec, view, obj) ::
          var mode := if obj.updateMode.Some? then obj.updateMode.value else "Auto";
          status == Some(VpaStatus(true, obj.name, mode, Drives(obj), mode != "Off")))
    && ((forall obj :: !Finds(spec, view, obj)) ==>
          status == (if !view.configured then None else Some(VpaStatus(Looked(spec, view), "", "", false, false))))
  }

  lemma CheckedVpaStatus(spec: Spec, view: VpaView)
    ensures VpaStatusIs(CheckVpa(spec, view).status, spec, view)
  {
    forall obj | Finds(spec, view, obj)
      ensures CheckVpa(spec, view).status == Some(VpaStatus(true, obj.name,
        if obj.updateMode.Some? then obj.updateMode.value else "Auto", Drives(obj), obj.updateMode != Some("Off")))
    {
      CheckWithObject(spec, view, obj);
    }
    if forall obj :: !Finds(spec, view, obj) {
      CheckWithoutObject(spec, view);
    }
  }

  /** Under any API answers: if the last call succeeds, the stored status reports the recommendations and reasons of all
      entries that yield one, and carries the counter, times and VPA findings of this cycle; otherwise it is the old
      one. Phase and conditions are those that the cycle says. */
  lemma EvaluatedStatusStored(answers: Answers, c: Cluster, obs: Observation, plan: Plan, source: Source)
    requires EvaluatesAs(c, obs, plan, source)
    ensures var s, after := c.autoscaler.value.status, Reconcile(answers, c, obs);
      var e := CycleLoop(plan, answers, source, c.world, Running(obs.listed.value));
      && after.autoscaler.Some? && after.world.pods == e.world.pods
      && var t := after.autoscaler.value.status;
      if answers(|e.world.log|) then
        && EvaluatedInto(s, t, c, obs, plan, source, e.adjustments)
        && VpaStatusIs(t.vpaStatus, c.autoscaler.value.spec, obs.vpa)
      else t == s
  {
    EvaluatesAsPlanned(c, obs, plan, source);
    CycleReports(plan, answers, source, c.world, Running(obs.listed.value));
    CheckedVpaStatus(c.autoscaler.value.spec, obs.vpa);
    var e := EvaluateAll(answers, c.world, c.autoscaler.value.spec, obs);
    assert Reconcile(answers, c, obs) ==
      WriteStatus(answers, c.(world := e.world), StatusOfCycle(answers, c, obs));
    var t := StatusOfCycle(answers, c, obs);
    assert EvaluatedInto(c.autoscaler.value.status, t, c, obs, plan, source, e.adjustments);
  }

  /** A cycle that writes its status without evaluating changes phase and conditions, with running pods the number of
      pods and the VPA findings, and nothing else. */
  lemma UnevaluatedStatusStored(answers: Answers, c: Cluster, obs: Observation)
    requires Managed(c) && obs.fetched && !Evaluates(c.autoscaler.value.spec, obs)
    ensures var s, after := c.autoscaler.value.status, Reconcile(answers, c, obs);
      && after.autoscaler.Some?
      && var t := after.autoscaler.value.status;
      if (obs.selectorValid && obs.listed.None?) || !answers(|c.world.log|) then t == s
      else if !obs.selectorValid then t == s.(phase := t.phase, conditions := t.conditions)
      else
        var pods := Running(obs.listed.value);
        && t == s.(phase := t.phase, conditions := t.conditions, monitoredPods := |pods|, vpaStatus := t.vpaStatus)
        && (if pods == [] then t.vpaStatus == s.vpaStatus
            else VpaStatusIs(t.vpaStatus, c.autoscaler.value.spec, obs.vpa))
  {
    CheckedVpaStatus(c.autoscaler.value.spec, obs.vpa);
  }

  // ---- One container through a whole cycle ----

  lemma PlannedRangesAreProper(plan: Plan, spec: Spec, obs: Observation)
    requires PlanIs(plan, spec, obs)
    ensures ProperRanges(plan.constraints)
  {
  }

  /** The j-th container of the i-th running pod, which this entry adjusts. */
  ghost predicate AdjustedBy(obs: Observation, plan: Plan, source: Source, i: nat, j: nat, wish: Wish)
    requires obs.listed.Some?
  {
    var pods := Running(obs.listed.value);
    && i < |pods| && j < |pods[i].value.containers|
    && var container := pods[i].value.containers[j];
    && WishFor(WishesFor(source, pods[i].name), container.name) == Some(wish) && Adjusts(plan, wish, container)
  }

  /** That container is stored with these amounts. */
  ghost predicate StoredAs(c: Cluster, obs: Observation, after: Cluster, i: nat, j: nat, cpu: Amounts, memory: Amounts)
    requires obs.listed.Some? && i < |Running(obs.listed.value)|
    requires j < |Running(obs.listed.value)[i].value.containers|
  {
    var pod := Running(obs.listed.value)[i];
    && pod.name in after.world.pods && j < |after.world.pods[pod.name].containers|
    && Keeps(pod.value.containers[j], after.world.pods[pod.name].containers[j], cpu, memory)
  }

  lemma SettledContainer(answers: Answers, c: Cluster, obs: Observation, plan: Plan, source: Source, i: nat, j: nat,
      wish: Wish)
    requires c.autoscaler.Some? && obs.listed.Some? && AdjustedBy(obs, plan, source, i, j, wish)
    requires SettlesFrom(answers, c, obs, plan, source)
    ensures var pod, after := Running(obs.listed.value)[i], Reconcile(answers, c, obs).world.pods;
      && pod.name in after && |after[pod.name].containers| == |pod.value.containers|
      && after[pod.name].containers[j] == Settled(plan, wish, pod.value.containers[j])
  {
    var pod := Running(obs.listed.value)[i];
    assert SettledBy(plan, WishesFor(source, pod.name), pod.value.containers[j]) ==
      Settled(plan, wish, pod.value.containers[j]);
  }

  /** A container that an entry of a driving VPA object adjusts is stored with that entry's target and upper bound,
      restricted by the namespace, in whole steps. */
  lemma DrivenContainer(answers: Answers, c: Cluster, obs: Observation, plan: Plan, obj: Vpa.VpaObject, i: nat, j: nat,
      rec: Vpa.ContainerRecommendation)
    returns (cpu: Amounts, memory: Amounts, finalCpu: Amounts, finalMemory: Amounts)
    requires Ready(c, obs, plan) && Finds(c.autoscaler.value.spec, obs.vpa, obj) && Drives(obj)
    requires Unhindered(answers, c, obs, plan, EntriesOf(obs, obj))
    requires AdjustedBy(obs, plan, EntriesOf(obs, obj), i, j, Recommended(rec))
    ensures SizedByVpa(rec, CPU, plan.constraints.cpu, cpu) && SizedByVpa(rec, Memory, plan.constraints.memory, memory)
    ensures Restricted(plan.policy, cpu, plan.policy.cpu, finalCpu)
    ensures Restricted(plan.policy, memory, plan.policy.memory, finalMemory)
    ensures StoredAs(c, obs, Reconcile(answers, c, obs), i, j, finalCpu, finalMemory)
  {
    PlannedRangesAreProper(plan, c.autoscaler.value.spec, obs);
    DrivenByVpa(answers, c, obs, plan, obj);
    SettledContainer(answers, c, obs, plan, EntriesOf(obs, obj), i, j, Recommended(rec));
    cpu, memory, finalCpu, finalMemory :=
      VpaStored(plan, rec, Running(obs.listed.value)[i].value.containers[j]);
  }

  /** And one that a measurement adjusts with the least values that cover the usage with its margin, and one and a half
      times that as the limit. */
  lemma MeasuredContainer(answers: Answers, c: Cluster, obs: Observation, plan: Plan, i: nat, j: nat,
      m: ContainerMetrics)
    returns (cpu: Amounts, memory: Amounts, finalCpu: Amounts, finalMemory: Amounts)
    requires Ready(c, obs, plan) && !Stopped(c.autoscaler.value.spec, obs.vpa)
    requires forall obj | Finds(c.autoscaler.value.spec, obs.vpa, obj) :: !Drives(obj)
    requires Unhindered(answers, c, obs, plan, OwnAlgorithm(obs.metrics))
    requires AdjustedBy(obs, plan, OwnAlgorithm(obs.metrics), i, j, Measured(m))
    ensures Sized(cpu, m.cpu, Times(m.cpu, 0.8), 1.2, 1.5, plan.constraints.cpu)
    ensures Sized(memory, m.memory, Times(m.memory, 0.9), 1.25, 1.5, plan.constraints.memory)
    ensures Restricted(plan.policy, cpu, plan.policy.cpu, finalCpu)
    ensures Restricted(plan.policy, memory, plan.policy.memory, finalMemory)
    ensures StoredAs(c, obs, Reconcile(answers, c, obs), i, j, finalCpu, finalMemory)
  {
    PlannedRangesAreProper(plan, c.autoscaler.value.spec, obs);
    DrivenByMetrics(answers, c, obs, plan);
    SettledContainer(answers, c, obs, plan, OwnAlgorithm(obs.metrics), i, j, Measured(m));
    assert MarginFactor(20.0) == 1.2 && MarginFactor(25.0) == 1.25;
    cpu, memory, finalCpu, finalMemory :=
      OwnStored(plan, m, Running(obs.listed.value)[i].value.containers[j]);
  }
}
