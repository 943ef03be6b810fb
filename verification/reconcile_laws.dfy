/** What a whole cycle makes of the cluster, in terms of the object, its spec and what the cycle observes. */
module ReconcileLaws {
  import opened Quantities
  import opened Calculator
  import opened NamespaceLimits
  import opened MergeLaws
  import opened Pods
  import opened ApiTypes
  import opened Server
  import opened Evaluation
  import opened Conditions
  import opened Reconciling
  import opened VpaLaws
  import opened Settling
  import opened Cycles
  import opened CycleSafety
  import opened Counting
  import opened AttemptLaws
  import opened Runs
  import opened ConditionHistory
  import opened RunCounters
  import Vpa

  // ---- The running pods ----

  predicate IsRunning(pod: ListedPod) {
    pod.value.running && !pod.value.terminating
  }

  function RunningBefore(pods: seq<ListedPod>, i: nat): nat
    requires i <= |pods|
  {
    if i == 0 then 0 else RunningBefore(pods, i - 1) + (if IsRunning(pods[i - 1]) then 1 else 0)
  }

  lemma {:induction false} RunningBeforePrefix(pods: seq<ListedPod>, n: nat, i: nat)
    requires i <= n <= |pods|
    ensures RunningBefore(pods[..n], i) == RunningBefore(pods, i)
  {
    if i > 0 {
      RunningBeforePrefix(pods, n, i - 1);
    }
  }

  /** Every running pod that is not terminating is kept, in its place among those, and no other. */
  lemma {:induction false} RunningInPlace(pods: seq<ListedPod>)
    ensures |Running(pods)| == RunningBefore(pods, |pods|)
    ensures forall i | 0 <= i < |pods| && IsRunning(pods[i]) ::
      RunningBefore(pods, i) < |Running(pods)| && Running(pods)[RunningBefore(pods, i)] == pods[i]
  {
    if pods != [] {
      var n := |pods| - 1;
      RunningInPlace(pods[..n]);
      RunningBeforePrefix(pods, n, n);
      forall i | 0 <= i < |pods| && IsRunning(pods[i])
        ensures RunningBefore(pods, i) < |Running(pods)| && Running(pods)[RunningBefore(pods, i)] == pods[i]
      {
        RunningBeforePrefix(pods, n, i);
        if i < n {
          assert pods[..n][i] == pods[i];
        }
      }
    }
  }

  // ---- The plan ----

  const DOCUMENTED_CPU := Range(0.01, 16.0)
  const DOCUMENTED_MEMORY := Range(16777216.0, 68719476736.0)

  /** No bound at all. */
  predicate Unrestricted(b: Bounds) {
    b.min == 0.0 && b.max.Unbounded? && b.ratio == 0.0 && b.headroom.Unbounded?
  }

  /** The threshold of the spec or 15 percent, the mode of the spec or Auto, the merged policy if both lists could be
      read and none otherwise, and the documented margins and ranges. */
  ghost predicate PlanIs(plan: Plan, spec: Spec, obs: Observation) {
    && plan.cfg == Config(20.0, 25.0, 1.5, 0.8, 0.9,
        if spec.varianceThresholdPercent.Some? then spec.varianceThresholdPercent.value as real else 15.0)
    && plan.dryRun == spec.dryRun
    && plan.mode == (if spec.updatePolicy.Some? then spec.updatePolicy.value else Auto)
    && (if obs.limitsConfigured && obs.ranges.Some? && obs.quotas.Some? then
          && plan.policy.limitRangeFound == (obs.ranges.value != [])
          && plan.policy.resourceQuotaFound == (obs.quotas.value != [])
          && plan.policy.cpu == MergedBounds(AllItems(obs.ranges.value), obs.quotas.value, CPU)
          && plan.policy.memory == MergedBounds(AllItems(obs.ranges.value), obs.quotas.value, Memory)
        else plan.policy == EMPTY_POLICY)
    && plan.constraints.cpu == EffectiveRange(plan.policy.cpu, DOCUMENTED_CPU)
    && plan.constraints.memory == EffectiveRange(plan.policy.memory, DOCUMENTED_MEMORY)
  }

  lemma PlanForIs(spec: Spec, obs: Observation)
    ensures PlanIs(PlanFor(spec, obs), spec, obs)
    ensures !EMPTY_POLICY.Found() && Unrestricted(EMPTY_POLICY.cpu) && Unrestricted(EMPTY_POLICY.memory)
  {
  }

  lemma OnePlan(plan: Plan, spec: Spec, obs: Observation)
    requires PlanIs(plan, spec, obs)
    ensures plan == PlanFor(spec, obs)
  {
  }

  // ---- The source ----

  /** The recommendations of the found object if it drives, the metrics otherwise. */
  ghost predicate SourceIs(source: Source, spec: Spec, obs: Observation) {
    && (forall obj | Finds(spec, obs.vpa, obj) && Drives(obj) ::
          source == FromVpa(Vpa.ParsedRecommendations(obs.vpa.parse, obj.containerRecommendations.value)))
    && ((forall obj | Finds(spec, obs.vpa, obj) :: !Drives(obj)) ==> source == OwnAlgorithm(obs.metrics))
  }

  lemma OneSource(source: Source, spec: Spec, obs: Observation)
    requires SourceIs(source, spec, obs)
    ensures source == SourceFor(obs, CheckVpa(spec, obs.vpa))
  {
    if obj :| Finds(spec, obs.vpa, obj) {
      CheckWithObject(spec, obs.vpa, obj);
      forall other | Finds(spec, obs.vpa, other)
        ensures Drives(other) <==> Drives(obj)
      {
        CheckWithObject(spec, obs.vpa, other);
      }
    } else {
      CheckWithoutObject(spec, obs.vpa);
    }
  }

  /** The found object is in another mode than Off, and the policy is strict. */
  ghost predicate Stopped(spec: Spec, view: VpaView) {
    && spec.vpaPolicy.Some? && spec.vpaPolicy.value.strictMode
    && exists obj :: Finds(spec, view, obj) && obj.updateMode != Some("Off")
  }

  lemma StoppedIff(spec: Spec, view: VpaView)
    ensures Halts(spec, CheckVpa(spec, view)) <==> Stopped(spec, view)
  {
    if obj :| Finds(spec, view, obj) {
      CheckWithObject(spec, view, obj);
      forall other | Finds(spec, view, other)
        ensures obj.updateMode == Some("Off") <==> other.updateMode == Some("Off")
      {
        CheckWithObject(spec, view, other);
      }
    } else {
      CheckWithoutObject(spec, view);
    }
  }

  // ---- Pods and counter after a cycle ----

  /** A managed object whose cycle gets as far as evaluating pods, from this plan and this source. */
  ghost predicate EvaluatesAs(c: Cluster, obs: Observation, plan: Plan, source: Source) {
    && Managed(c) && obs.fetched && obs.selectorValid && obs.listed.Some? && Running(obs.listed.value) != []
    && var spec := c.autoscaler.value.spec;
    && !Stopped(spec, obs.vpa) && PlanIs(plan, spec, obs) && SourceIs(source, spec, obs)
  }

  lemma EvaluatesAsPlanned(c: Cluster, obs: Observation, plan: Plan, source: Source)
    requires EvaluatesAs(c, obs, plan, source)
    ensures var spec := c.autoscaler.value.spec;
      && Evaluates(spec, obs) && plan == PlanFor(spec, obs)
      && source == SourceFor(obs, CheckVpa(spec, obs.vpa))
  {
    StoppedIff(c.autoscaler.value.spec, obs.vpa);
    OnePlan(plan, c.autoscaler.value.spec, obs);
    OneSource(source, c.autoscaler.value.spec, obs);
  }

  /** Resizing in place, on an accurate list of running pods, with the calls for pods granted. */
  ghost predicate Unhindered(answers: Answers, c: Cluster, obs: Observation, plan: Plan, source: Source)
    requires obs.listed.Some?
  {
    var pods := Running(obs.listed.value);
    && InPlaceModes(plan) && AccurateList(source, c.world, pods)
    && Granted(answers, c.world, CycleAdjustments(plan, source, pods))
  }

  /** The stored pods are settled from that source, and the counter grows by the adjustments if the status write, the
      next call, succeeds. */
  ghost predicate SettlesFrom(answers: Answers, c: Cluster, obs: Observation, plan: Plan, source: Source)
    requires c.autoscaler.Some? && obs.listed.Some?
  {
    var pods, after := Running(obs.listed.value), Reconcile(answers, c, obs);
    var due, total := CycleAdjustments(plan, source, pods), c.autoscaler.value.status.totalAdjustments;
    && Managed(after) && SettledWorld(plan, source, c.world.pods, pods, after.world.pods)
    && |after.world.log| == |c.world.log| + due + 1
    && after.autoscaler.value.status.totalAdjustments ==
        (if answers(|c.world.log| + due) then total + due else total)
  }

  lemma ReconcileSettles(answers: Answers, c: Cluster, obs: Observation, plan: Plan, source: Source)
    requires EvaluatesAs(c, obs, plan, source) && Unhindered(answers, c, obs, plan, source)
    ensures SettlesFrom(answers, c, obs, plan, source)
  {
    EvaluatesAsPlanned(c, obs, plan, source);
    CycleSettles(plan, answers, source, c.world, Running(obs.listed.value));
    ManagedCycle(answers, c, obs);
    LogOfCycle(answers, c, obs);
  }

  /** Under any answers and in every mode that acts: one attempt for every entry that is due, and the counter grows by
      the accepted resizes and evictions if the last call, the status write, succeeds. */
  lemma ReconcileTries(answers: Answers, c: Cluster, obs: Observation, plan: Plan, source: Source)
    requires EvaluatesAs(c, obs, plan, source) && Acts(plan)
    requires AccurateList(source, c.world, Running(obs.listed.value))
    ensures var pods, after := Running(obs.listed.value), Reconcile(answers, c, obs);
      var total := c.autoscaler.value.status.totalAdjustments;
      && after.autoscaler.Some?
      && AllTried(plan.mode, c.world.log, after.world.log, CycleAdjustments(plan, source, pods))
      && after.world.log != [] && after.world.log[|after.world.log| - 1].kind == StatusUpdate
      && after.autoscaler.value.status.totalAdjustments ==
          (if after.world.log[|after.world.log| - 1].accepted then total + Applications(c.world.log, after.world.log)
           else total)
  {
    EvaluatesAsPlanned(c, obs, plan, source);
    var pods := Running(obs.listed.value);
    var e := CycleLoop(plan, answers, source, c.world, pods);
    CycleTries(plan, answers, source, c.world, pods);
    CycleTallied(plan, answers, source, c.world, pods);
    ManagedCycle(answers, c, obs);
    LogOfCycle(answers, c, obs);
    StatusCallCounts(plan.mode, c.world.log, e.world.log, answers(|e.world.log|), CycleAdjustments(plan, source, pods));
  }

  lemma StatusCallCounts(mode: UpdateMode, before: seq<Call>, log: seq<Call>, ok: bool, due: nat)
    requires AllTried(mode, before, log, due)
    ensures var after := log + [Call(StatusUpdate, ok)];
      AllTried(mode, before, after, due) && Applications(before, after) == Applications(before, log)
  {
    CountOfSnoc(log, Call(StatusUpdate, ok), Call(Resize, true));
    CountOfSnoc(log, Call(StatusUpdate, ok), Call(Resize, false));
    CountOfSnoc(log, Call(StatusUpdate, ok), Call(Annotate, true));
    CountOfSnoc(log, Call(StatusUpdate, ok), Call(Annotate, false));
    CountOfSnoc(log, Call(StatusUpdate, ok), Call(Eviction, true));
  }

  lemma LogOfCycle(answers: Answers, c: Cluster, obs: Observation)
    requires Managed(c) && obs.fetched && Evaluates(c.autoscaler.value.spec, obs)
    ensures var e := EvaluateAll(answers, c.world, c.autoscaler.value.spec, obs);
      Reconcile(answers, c, obs).world.log == e.world.log + [Call(StatusUpdate, answers(|e.world.log|))]
  {
  }

  lemma FoundDrives(spec: Spec, obs: Observation, obj: Vpa.VpaObject)
    requires Finds(spec, obs.vpa, obj) && Drives(obj)
    ensures !Stopped(spec, obs.vpa)
    ensures SourceIs(EntriesOf(obs, obj), spec, obs)
  {
    CheckWithObject(spec, obs.vpa, obj);
    StoppedIff(spec, obs.vpa);
    forall other | Finds(spec, obs.vpa, other)
      ensures Drives(other) && EntriesOf(obs, other) == EntriesOf(obs, obj)
    {
      CheckWithObject(spec, obs.vpa, other);
    }
  }

  /** The entries of a VPA object as they are read. */
  function EntriesOf(obs: Observation, obj: Vpa.VpaObject): Source
    requires Drives(obj)
  {
    FromVpa(Vpa.ParsedRecommendations(obs.vpa.parse, obj.containerRecommendations.value))
  }

  /** The object is managed, the observation complete, some pod runs, and the plan is that of spec and observation. */
  ghost predicate Ready(c: Cluster, obs: Observation, plan: Plan) {
    && Managed(c) && obs.fetched && obs.selectorValid && obs.listed.Some? && Running(obs.listed.value) != []
    && PlanIs(plan, c.autoscaler.value.spec, obs)
  }

  /** From the entries of a VPA object that is found and drives. */
  lemma DrivenByVpa(answers: Answers, c: Cluster, obs: Observation, plan: Plan, obj: Vpa.VpaObject)
    requires Ready(c, obs, plan) && Finds(c.autoscaler.value.spec, obs.vpa, obj) && Drives(obj)
    requires Unhindered(answers, c, obs, plan, EntriesOf(obs, obj))
    ensures SettlesFrom(answers, c, obs, plan, EntriesOf(obs, obj))
  {
    FoundDrives(c.autoscaler.value.spec, obs, obj);
    ReconcileSettles(answers, c, obs, plan, EntriesOf(obs, obj));
  }

  /** And from the metrics when no object that is found drives, or stops the cycle. */
  lemma DrivenByMetrics(answers: Answers, c: Cluster, obs: Observation, plan: Plan)
    requires Ready(c, obs, plan) && !Stopped(c.autoscaler.value.spec, obs.vpa)
    requires forall obj | Finds(c.autoscaler.value.spec, obs.vpa, obj) :: !Drives(obj)
    requires Unhindered(answers, c, obs, plan, OwnAlgorithm(obs.metrics))
    ensures SettlesFrom(answers, c, obs, plan, OwnAlgorithm(obs.metrics))
  {
    ReconcileSettles(answers, c, obs, plan, OwnAlgorithm(obs.metrics));
  }
}
