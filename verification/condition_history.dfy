/** Persisted conditions and phase as a function of what the cycles of a run said. */
module ConditionHistory {
  import opened Quantities
  import opened Pods
  import opened ApiTypes
  import opened Server
  import opened Evaluation
  import opened Conditions
  import opened Reconciling
  import opened Runs

  /** Metrics are available for every running pod, or not needed. */
  predicate MetricsSeen(spec: Spec, obs: Observation)
    requires obs.listed.Some?
  {
    UsingVpa(CheckVpa(spec, obs.vpa)) || HaveMetrics(obs.metrics, Running(obs.listed.value))
  }

  predicate HaveMetrics(metrics: map<string, seq<ContainerMetrics>>, pods: seq<ListedPod>) {
    forall i | 0 <= i < |pods| :: pods[i].name in metrics
  }

  /** What the status of a cycle says about a condition, with the reason; None leaves the condition as it is. */
  function Says(spec: Spec, obs: Observation, kind: string): Option<(bool, string)> {
    if !obs.selectorValid then
      if kind == READY then Some((false, "InvalidSelector")) else None
    else if obs.listed.None? then None
    else if Running(obs.listed.value) == [] then
      if kind == READY then Some((false, "NoPodsFound")) else None
    else if Halts(spec, CheckVpa(spec, obs.vpa)) then
      if kind == VPA_CONFLICT then Some((true, "VPAConflict")) else None
    else if kind == VPA_CONFLICT then
      if CheckVpa(spec, obs.vpa).clearsConflict then Some((false, "NoConflict")) else None
    else if kind == METRICS_AVAILABLE then
      Some(if MetricsSeen(spec, obs) then (true, "MetricsCollected") else (false, "MetricsUnavailable"))
    else if kind == READY && MetricsSeen(spec, obs) then Some((true, "Reconciled"))
    else None
  }

  /** And about the phase. */
  function SaysPhase(spec: Spec, obs: Observation): Option<Phase> {
    if !obs.selectorValid then Some(Error)
    else if obs.listed.None? then None
    else if Running(obs.listed.value) == [] then Some(Pending)
    else if !Halts(spec, CheckVpa(spec, obs.vpa)) && MetricsSeen(spec, obs) then Some(Active)
    else Some(Degraded)
  }

  /** The cycle gets as far as writing a status, and the write succeeds. */
  predicate Speaks(answers: Answers, c: Cluster, obs: Observation) {
    && obs.fetched && c.autoscaler.Some? && !c.autoscaler.value.deleting
    && var ready := EnsureFinalizer(answers, c);
    && Managed(ready)
    && answers(if Evaluates(c.autoscaler.value.spec, obs)
               then |EvaluateAll(answers, ready.world, c.autoscaler.value.spec, obs).world.log|
               else |ready.world.log|)
  }

  /** What the stored status of a cycle says; None when no status is stored. */
  function Spoken(answers: Answers, c: Cluster, obs: Observation, kind: string): Option<(bool, string)> {
    if Speaks(answers, c, obs) then Says(c.autoscaler.value.spec, obs, kind) else None
  }

  function SpokenPhase(answers: Answers, c: Cluster, obs: Observation): Option<Phase> {
    if Speaks(answers, c, obs) then SaysPhase(c.autoscaler.value.spec, obs) else None
  }

  function Latest<T>(said: Option<T>, before: Option<T>): Option<T> {
    if said.Some? then said else before
  }

  /** A condition as it was last said in a status that was stored, with the time since when. */
  function LastSaid(answers: Answers, c: Cluster, events: seq<Event>, kind: string): Option<Condition> {
    if events == [] then None else
    var rest, last := events[..|events| - 1], events[|events| - 1];
    var said := LastSaid(answers, c, rest, kind);
    if last.Cycle? then Updated(said, kind, Spoken(answers, Run(answers, c, rest), last.obs, kind), last.obs.now)
    else said
  }

  function LastPhase(answers: Answers, c: Cluster, events: seq<Event>): Option<Phase> {
    if events == [] then Some(Unset) else
    var rest, last := events[..|events| - 1], events[|events| - 1];
    var said := LastPhase(answers, c, rest);
    if last.Cycle? then Latest(SpokenPhase(answers, Run(answers, c, rest), last.obs), said) else said
  }

  lemma {:induction false} AvailabilityIsSeen(plan: Plan, answers: Answers, source: Source, w: World,
      pods: seq<ListedPod>)
    ensures CycleLoop(plan, answers, source, w, pods).metricsAvailable <==>
      source.FromVpa? || HaveMetrics(source.metrics, pods)
    decreases |pods|
  {
    if pods != [] {
      AvailabilityIsSeen(plan, answers, source, w, pods[..|pods| - 1]);
    }
  }

  lemma EvaluatedSays(s: Status, spec: Spec, obs: Observation, generation: int, e: CycleProgress, kind: string)
    requires kind in {READY, METRICS_AVAILABLE, VPA_CONFLICT} && Evaluates(spec, obs)
    requires e.metricsAvailable <==> MetricsSeen(spec, obs)
    ensures var check := CheckVpa(spec, obs.vpa);
      var t := EvaluatedStatus(CheckedStatus(s, check, obs.now), generation, PlanFor(spec, obs), e, obs.now);
      && Entry(t.conditions, kind) == Updated(Entry(s.conditions, kind), kind, Says(spec, obs, kind), obs.now)
      && Some(t.phase) == SaysPhase(spec, obs)
  {
    var checked := CheckedStatus(s, CheckVpa(spec, obs.vpa), obs.now).conditions;
    SetConditionEntry(s.conditions, VPA_CONFLICT, false, "NoConflict", obs.now, kind);
    SetConditionEntry(checked, READY, true, "Reconciled", obs.now, kind);
    var ready := SetCondition(checked, READY, true, "Reconciled", obs.now);
    SetConditionEntry(ready, METRICS_AVAILABLE, true, "MetricsCollected", obs.now, kind);
    SetConditionEntry(checked, METRICS_AVAILABLE, false, "MetricsUnavailable", obs.now, kind);
  }

  lemma UnevaluatedSays(s: Status, spec: Spec, obs: Observation, kind: string)
    requires kind in {READY, METRICS_AVAILABLE, VPA_CONFLICT}
    ensures var before, now := Entry(s.conditions, kind), obs.now;
      var check := CheckVpa(spec, obs.vpa);
      var conflict := ConflictStatus(CheckedStatus(s, check, now), now).conditions;
      && Entry(ErrorStatus(s, now).conditions, kind) ==
          Updated(before, kind, if kind == READY then Some((false, "InvalidSelector")) else None, now)
      && Entry(PendingStatus(s, now).conditions, kind) ==
          Updated(before, kind, if kind == READY then Some((false, "NoPodsFound")) else None, now)
      && (Halts(spec, check) ==>
            Entry(conflict, kind) ==
            Updated(before, kind, if kind == VPA_CONFLICT then Some((true, "VPAConflict")) else None, now))
  {
    SetConditionEntry(s.conditions, READY, false, "InvalidSelector", obs.now, kind);
    SetConditionEntry(s.conditions, READY, false, "NoPodsFound", obs.now, kind);
    SetConditionEntry(s.conditions, VPA_CONFLICT, true, "VPAConflict", obs.now, kind);
  }

  /** The object is there, with this condition and phase. */
  predicate Shows(after: Option<Autoscaler>, kind: string, entry: Option<Condition>, phase: Option<Phase>) {
    && after.Some?
    && Entry(after.value.status.conditions, kind) == entry && Some(after.value.status.phase) == phase
  }

  /** The status that an evaluating cycle writes. */
  function StatusOfCycle(answers: Answers, c: Cluster, obs: Observation): Status
    requires Managed(c) && Evaluates(c.autoscaler.value.spec, obs)
  {
    var pa := c.autoscaler.value;
    var counted := pa.status.(monitoredPods := |Running(obs.listed.value)|);
    var checked := CheckedStatus(counted, CheckVpa(pa.spec, obs.vpa), obs.now);
    var e := EvaluateAll(answers, c.world, pa.spec, obs);
    EvaluatedStatus(checked, pa.generation, PlanFor(pa.spec, obs), e, obs.now)
  }

  lemma EvaluatingCycleSays(answers: Answers, c: Cluster, obs: Observation, kind: string)
    requires Managed(c) && Evaluates(c.autoscaler.value.spec, obs) && kind in {READY, METRICS_AVAILABLE, VPA_CONFLICT}
    ensures var pa, t := c.autoscaler.value, StatusOfCycle(answers, c, obs);
      && Entry(t.conditions, kind) ==
          Updated(Entry(pa.status.conditions, kind), kind, Says(pa.spec, obs, kind), obs.now)
      && Some(t.phase) == SaysPhase(pa.spec, obs)
  {
    var pa := c.autoscaler.value;
    var counted := pa.status.(monitoredPods := |Running(obs.listed.value)|);
    var e := EvaluateAll(answers, c.world, pa.spec, obs);
    var source := SourceFor(obs, CheckVpa(pa.spec, obs.vpa));
    AvailabilityIsSeen(PlanFor(pa.spec, obs), answers, source, c.world, Running(obs.listed.value));
    EvaluatedSays(counted, pa.spec, obs, pa.generation, e, kind);
  }

  /** One cycle on a managed object: what it says and can store, and otherwise what was there. */
  lemma EvaluationSays(answers: Answers, c: Cluster, obs: Observation, kind: string)
    requires Managed(c) && obs.fetched && kind in {READY, METRICS_AVAILABLE, VPA_CONFLICT}
    ensures var before := c.autoscaler.value.status;
      Shows(Evaluate(answers, c, obs).autoscaler, kind,
        Updated(Entry(before.conditions, kind), kind, Spoken(answers, c, obs, kind), obs.now),
        Latest(SpokenPhase(answers, c, obs), Some(before.phase)))
  {
    var pa := c.autoscaler.value;
    if Evaluates(pa.spec, obs) {
      var e := EvaluateAll(answers, c.world, pa.spec, obs);
      EvaluatingCycleSays(answers, c, obs, kind);
      assert Evaluate(answers, c, obs) ==
        WriteStatus(answers, c.(world := e.world), StatusOfCycle(answers, c, obs));
    } else if !obs.selectorValid {
      UnevaluatedSays(pa.status, pa.spec, obs, kind);
    } else if obs.listed.Some? {
      UnevaluatedSays(pa.status.(monitoredPods := |Running(obs.listed.value)|), pa.spec, obs, kind);
    }
  }

  lemma SpeaksWhenReady(answers: Answers, c: Cluster, obs: Observation)
    requires c.autoscaler.Some? && !c.autoscaler.value.deleting && Managed(EnsureFinalizer(answers, c))
    ensures var ready := EnsureFinalizer(answers, c);
      && ready.autoscaler.value.spec == c.autoscaler.value.spec
      && ready.autoscaler.value.status == c.autoscaler.value.status
      && EnsureFinalizer(answers, ready) == ready
      && (Speaks(answers, c, obs) <==> Speaks(answers, ready, obs))
  {
  }

  lemma CycleSays(answers: Answers, c: Cluster, obs: Observation, kind: string)
    requires c.autoscaler.Some? && kind in {READY, METRICS_AVAILABLE, VPA_CONFLICT}
    ensures var after, before := Reconcile(answers, c, obs).autoscaler, c.autoscaler.value.status;
      after.Some? ==>
        Shows(after, kind,
          Updated(Entry(before.conditions, kind), kind, Spoken(answers, c, obs, kind), obs.now),
          Latest(SpokenPhase(answers, c, obs), Some(before.phase)))
  {
    if obs.fetched && !c.autoscaler.value.deleting {
      var ready := EnsureFinalizer(answers, c);
      if Managed(ready) {
        SpeaksWhenReady(answers, c, obs);
        EvaluationSays(answers, ready, obs, kind);
      }
    }
  }

  /** In every run: a persisted condition has the status and reason last said of it in a stored status, since the first
      cycle that said so, and the phase is the last one said. In particular a persisted VPAConflict=True is current iff
      no later stored status cleared it; phase Active does not. */
  lemma {:induction false} ConditionsAreLastSaid(answers: Answers, c: Cluster, events: seq<Event>, kind: string)
    requires Fresh(c) && kind in {READY, METRICS_AVAILABLE, VPA_CONFLICT}
    ensures var after := Run(answers, c, events).autoscaler;
      after.Some? ==> Shows(after, kind, LastSaid(answers, c, events, kind), LastPhase(answers, c, events))
    decreases |events|
  {
    if events != [] {
      var rest, last := events[..|events| - 1], events[|events| - 1];
      ConditionsAreLastSaid(answers, c, rest, kind);
      var before := Run(answers, c, rest);
      if last.Cycle? && before.autoscaler.Some? {
        CycleSays(answers, before, last.obs, kind);
      }
    }
  }

  /** A conflict recorded earlier survives an evaluated cycle, beside phase Active, iff the check does not clear it. */
  lemma ConflictSurvivesIff(answers: Answers, c: Cluster, obs: Observation)
    requires Managed(c) && obs.fetched && Evaluates(c.autoscaler.value.spec, obs) && Speaks(answers, c, obs)
    requires Holds(c.autoscaler.value.status.conditions, VPA_CONFLICT, true)
    ensures var after := Reconcile(answers, c, obs).autoscaler;
      && after.Some?
      && (Holds(after.value.status.conditions, VPA_CONFLICT, true) <==>
          !CheckVpa(c.autoscaler.value.spec, obs.vpa).clearsConflict)
      && (after.value.status.phase == Active <==> MetricsSeen(c.autoscaler.value.spec, obs))
  {
    EvaluationSays(answers, c, obs, VPA_CONFLICT);
  }
}
