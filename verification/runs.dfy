/** Every run: reconcile cycles interleaved with whatever users and workloads do. */
module Runs {
  import opened Quantities
  import opened Pods
  import opened ApiTypes
  import opened Server
  import opened Evaluation
  import opened Conditions
  import opened Reconciling
  import opened CycleSafety

  /** What can happen between and including cycles. */
  datatype Event =
    | Cycle(obs: Observation)
    | SpecEdited(spec: Spec)
    | DeletionRequested
    | PodsChanged(pods: map<string, PodValue>)

  function Step(answers: Answers, c: Cluster, event: Event): Cluster {
    match event
    case Cycle(obs) => Reconcile(answers, c, obs)
    case SpecEdited(spec) =>
      if c.autoscaler.None? then c else
      var pa := c.autoscaler.value;
      c.(autoscaler := Some(pa.(spec := spec, generation := pa.generation + 1)))
    case DeletionRequested =>
      if c.autoscaler.None? then c
      else if c.autoscaler.value.finalizers == {} then c.(autoscaler := None)
      else
        var pa := c.autoscaler.value;
        c.(autoscaler := Some(pa.(deleting := true, generation := pa.generation + 1)))
    case PodsChanged(pods) => c.(world := c.world.(pods := pods))
  }

  function Run(answers: Answers, c: Cluster, events: seq<Event>): Cluster {
    if events == [] then c
    else Step(answers, Run(answers, c, events[..|events| - 1]), events[|events| - 1])
  }

  /** A PodAutoscaler as its user creates it, perhaps with finalizers of others. */
  predicate Fresh(c: Cluster) {
    && c.autoscaler.Some? && !c.autoscaler.value.deleting && FINALIZER !in c.autoscaler.value.finalizers
    && c.autoscaler.value.generation >= 0 && c.autoscaler.value.status == FRESH_STATUS
  }

  // ---- Phase and conditions ----

  predicate PhaseAgrees(s: Status) {
    && (s.phase == Active ==> Holds(s.conditions, READY, true) && Holds(s.conditions, METRICS_AVAILABLE, true))
    && (s.phase == Pending || s.phase == Error ==> Holds(s.conditions, READY, false))
    && (s.phase == Degraded ==>
          Holds(s.conditions, VPA_CONFLICT, true) || Holds(s.conditions, METRICS_AVAILABLE, false))
  }

  predicate StatusSound(s: Status) {
    WellFormed(s.conditions) && PhaseAgrees(s)
  }

  lemma SetAndRead(cs: seq<Condition>, kind: string, status: bool, reason: string, now: int)
    requires WellFormed(cs) && kind in {READY, METRICS_AVAILABLE, VPA_CONFLICT}
    ensures var ds := SetCondition(cs, kind, status, reason, now); WellFormed(ds) && Holds(ds, kind, status)
  {
    SetConditionKeepsWellFormed(cs, kind, status, reason, now);
    SetConditionIsMapUpdate(cs, kind, status, reason, now, kind);
  }

  /** Each of the four statuses a cycle can write is sound. */
  lemma WrittenStatusesSound(s: Status, check: VpaCheck, generation: int, plan: Plan, e: CycleProgress, now: int)
    requires WellFormed(s.conditions)
    ensures StatusSound(ErrorStatus(s, now)) && StatusSound(PendingStatus(s, now))
    ensures WellFormed(CheckedStatus(s, check, now).conditions)
    ensures StatusSound(ConflictStatus(s, now)) && StatusSound(EvaluatedStatus(s, generation, plan, e, now))
  {
    SetAndRead(s.conditions, READY, false, "InvalidSelector", now);
    SetAndRead(s.conditions, READY, false, "NoPodsFound", now);
    SetAndRead(s.conditions, VPA_CONFLICT, false, "NoConflict", now);
    SetAndRead(s.conditions, VPA_CONFLICT, true, "VPAConflict", now);
    SetAndRead(s.conditions, METRICS_AVAILABLE, false, "MetricsUnavailable", now);
    SetAndRead(s.conditions, READY, true, "Reconciled", now);
    var ready := SetCondition(s.conditions, READY, true, "Reconciled", now);
    SetAndRead(ready, METRICS_AVAILABLE, true, "MetricsCollected", now);
    SetConditionIsMapUpdate(ready, METRICS_AVAILABLE, true, "MetricsCollected", now, READY);
  }

  predicate Sound(c: Cluster) {
    c.autoscaler.Some? ==> StatusSound(c.autoscaler.value.status)
  }

  lemma CycleKeepsSound(answers: Answers, c: Cluster, obs: Observation)
    requires Sound(c)
    ensures Sound(Reconcile(answers, c, obs))
  {
    if obs.fetched && c.autoscaler.Some? && !c.autoscaler.value.deleting {
      var ready := EnsureFinalizer(answers, c);
      if Managed(ready) {
        EvaluationKeepsSound(answers, ready, obs);
      }
    }
  }

  lemma WriteKeepsSound(answers: Answers, c: Cluster, status: Status)
    requires Sound(c) && StatusSound(status)
    ensures Sound(WriteStatus(answers, c, status))
  {
  }

  lemma EvaluationKeepsSound(answers: Answers, c: Cluster, obs: Observation)
    requires Managed(c) && Sound(c)
    ensures Sound(Evaluate(answers, c, obs))
  {
    var pa := c.autoscaler.value;
    var check, plan := CheckVpa(pa.spec, obs.vpa), PlanFor(pa.spec, obs);
    var none := CycleProgress(c.world, [], 0, [], true);
    if !obs.selectorValid || obs.listed.None? {
      WrittenStatusesSound(pa.status, check, pa.generation, plan, none, obs.now);
    } else {
      var counted := pa.status.(monitoredPods := |Running(obs.listed.value)|);
      WrittenStatusesSound(counted, check, pa.generation, plan, none, obs.now);
      if Running(obs.listed.value) != [] {
        var checked := CheckedStatus(counted, check, obs.now);
        var e := EvaluateAll(answers, c.world, pa.spec, obs);
        WrittenStatusesSound(checked, check, pa.generation, plan, e, obs.now);
        WriteKeepsSound(answers, c.(world := e.world), EvaluatedStatus(checked, pa.generation, plan, e, obs.now));
      }
    }
  }

  /** Over every run, whatever calls fail: conditions stay a map over three types, and the persisted phase
      agrees with them. */
  lemma {:induction false} PhaseAgreesInEveryRun(answers: Answers, c: Cluster, events: seq<Event>)
    requires Fresh(c)
    ensures Sound(Run(answers, c, events))
    decreases |events|
  {
    if events != [] {
      var rest, last := events[..|events| - 1], events[|events| - 1];
      PhaseAgreesInEveryRun(answers, c, rest);
      if last.Cycle? {
        CycleKeepsSound(answers, Run(answers, c, rest), last.obs);
      }
    }
  }

  // ---- Counters and times ----

  /** The cycle gets as far as evaluating pods. */
  predicate Evaluates(spec: Spec, obs: Observation) {
    obs.selectorValid && obs.listed.Some? && Running(obs.listed.value) != [] && !Halts(spec, CheckVpa(spec, obs.vpa))
  }

  /** Error-free applications of an evaluation whose final status write succeeded. */
  function CreditedEvaluation(answers: Answers, c: Cluster, obs: Observation): nat
    requires Managed(c)
  {
    if !Evaluates(c.autoscaler.value.spec, obs) then 0 else
    var e := EvaluateAll(answers, c.world, c.autoscaler.value.spec, obs);
    if answers(|e.world.log|) then e.adjustments else 0
  }

  function Credited(answers: Answers, c: Cluster, obs: Observation): nat {
    if !obs.fetched || c.autoscaler.None? || c.autoscaler.value.deleting then 0 else
    var ready := EnsureFinalizer(answers, c);
    if Managed(ready) then CreditedEvaluation(answers, ready, obs) else 0
  }

  function CreditedInRun(answers: Answers, c: Cluster, events: seq<Event>): nat {
    if events == [] then 0 else
    var rest, last := events[..|events| - 1], events[|events| - 1];
    CreditedInRun(answers, c, rest) + (if last.Cycle? then Credited(answers, Run(answers, c, rest), last.obs) else 0)
  }

  /** Books of a status: the counter, both times against a clock, and the generation. */
  predicate Balanced(pa: Autoscaler, total: nat, clock: int) {
    && pa.status.totalAdjustments == total
    && (pa.status.lastUpdateTime.Some? <==> total > 0)
    && (pa.status.lastUpdateTime.Some? ==>
          pa.status.lastEvaluationTime.Some? && pa.status.lastUpdateTime.value <= pa.status.lastEvaluationTime.value)
    && (pa.status.lastEvaluationTime.Some? ==> pa.status.lastEvaluationTime.value <= clock)
    && pa.status.observedGeneration <= pa.generation
  }

  predicate Books(c: Cluster, total: nat, clock: int) {
    c.autoscaler.Some? ==> Balanced(c.autoscaler.value, total, clock)
  }

  lemma EvaluatedStatusBalances(pa: Autoscaler, s: Status, plan: Plan, e: CycleProgress, total: nat, clock: int,
      now: int)
    requires Balanced(pa.(status := s), total, clock) && clock <= now
    ensures Balanced(pa.(status := EvaluatedStatus(s, pa.generation, plan, e, now)), total + e.adjustments, now)
  {
  }

  lemma EvaluationKeepsBalance(answers: Answers, c: Cluster, obs: Observation, total: nat, clock: int)
    requires clock <= obs.now && Managed(c) && Books(c, total, clock)
    ensures Books(Evaluate(answers, c, obs), total + CreditedEvaluation(answers, c, obs), obs.now)
  {
    var pa := c.autoscaler.value;
    if Evaluates(pa.spec, obs) {
      var check := CheckVpa(pa.spec, obs.vpa);
      var checked := CheckedStatus(pa.status.(monitoredPods := |Running(obs.listed.value)|), check, obs.now);
      var e := EvaluateAll(answers, c.world, pa.spec, obs);
      EvaluatedStatusBalances(pa, checked, PlanFor(pa.spec, obs), e, total, clock, obs.now);
    }
  }

  lemma CycleKeepsBalance(answers: Answers, c: Cluster, obs: Observation, total: nat, clock: int)
    requires clock <= obs.now && Books(c, total, clock)
    ensures Books(Reconcile(answers, c, obs), total + Credited(answers, c, obs), obs.now)
  {
    if obs.fetched && c.autoscaler.Some? && !c.autoscaler.value.deleting && Managed(EnsureFinalizer(answers, c)) {
      EvaluationKeepsBalance(answers, EnsureFinalizer(answers, c), obs, total, clock);
    }
  }

  /** The clock readings of a run never go back. */
  predicate Clocked(events: seq<Event>) {
    forall i, j | 0 <= i < j < |events| && events[i].Cycle? && events[j].Cycle? ::
      events[i].obs.now <= events[j].obs.now
  }

  /** The latest clock reading; any earlier time when there is none. */
  function LastClock(events: seq<Event>, start: int): int {
    if events == [] then start
    else if events[|events| - 1].Cycle? then events[|events| - 1].obs.now
    else LastClock(events[..|events| - 1], start)
  }

  lemma {:induction false} LastClockBound(events: seq<Event>, start: int, now: int)
    requires forall i | 0 <= i < |events| && events[i].Cycle? :: events[i].obs.now <= now
    requires start <= now
    ensures LastClock(events, start) <= now
  {
    if events != [] && !events[|events| - 1].Cycle? {
      LastClockBound(events[..|events| - 1], start, now);
    }
  }

  /** Over every run with a clock that does not go back: the persisted counter equals the credited applications,
      the last update is set iff something was credited and is never later than the last evaluation. */
  lemma {:induction false} CountersBalanceInEveryRun(answers: Answers, c: Cluster, events: seq<Event>, start: int)
    requires Fresh(c) && Clocked(events)
    requires forall i | 0 <= i < |events| && events[i].Cycle? :: start <= events[i].obs.now
    ensures Books(Run(answers, c, events), CreditedInRun(answers, c, events), LastClock(events, start))
    decreases |events|
  {
    if events != [] {
      var rest, last := events[..|events| - 1], events[|events| - 1];
      CountersBalanceInEveryRun(answers, c, rest, start);
      if last.Cycle? {
        LastClockBound(rest, start, last.obs.now);
        var total, clock := CreditedInRun(answers, c, rest), LastClock(rest, start);
        CycleKeepsBalance(answers, Run(answers, c, rest), last.obs, total, clock);
      }
    }
  }

  // ---- Pods ----

  predicate SpecHandsOff(spec: Spec) {
    spec.dryRun || ModeFor(spec).Off? || ModeFor(spec).UnknownMode?
  }

  /** The spec after some events: the last one edited in. */
  function SpecInForce(spec: Spec, events: seq<Event>): Spec {
    if events == [] then spec
    else if events[|events| - 1].SpecEdited? then events[|events| - 1].spec
    else SpecInForce(spec, events[..|events| - 1])
  }

  predicate DeletionAsked(events: seq<Event>) {
    exists i | 0 <= i < |events| :: events[i].DeletionRequested?
  }

  lemma DeletionAskedSnoc(rest: seq<Event>, last: Event)
    ensures DeletionAsked(rest + [last]) <==> DeletionAsked(rest) || last.DeletionRequested?
  {
    var events := rest + [last];
    assert events[|rest|] == last;
    assert forall i | 0 <= i < |rest| :: events[i] == rest[i];
  }

  lemma SpecSurvivesCycle(answers: Answers, c: Cluster, obs: Observation)
    ensures var after := Reconcile(answers, c, obs);
      after.autoscaler.Some? ==>
        && c.autoscaler.Some?
        && after.autoscaler.value.spec == c.autoscaler.value.spec
        && after.autoscaler.value.deleting == c.autoscaler.value.deleting
  {
  }

  predicate GoingAway(c: Cluster) {
    c.autoscaler.Some? ==> c.autoscaler.value.deleting
  }

  /** Cycles neither edit the spec nor request the deletion. */
  lemma {:induction false} SpecOfRun(answers: Answers, c: Cluster, events: seq<Event>)
    requires c.autoscaler.Some?
    ensures var after := Run(answers, c, events);
      after.autoscaler.Some? ==>
        && after.autoscaler.value.spec == SpecInForce(c.autoscaler.value.spec, events)
        && (after.autoscaler.value.deleting <==> c.autoscaler.value.deleting || DeletionAsked(events))
    decreases |events|
  {
    if events != [] {
      var rest, last := events[..|events| - 1], events[|events| - 1];
      assert events == rest + [last];
      SpecOfRun(answers, c, rest);
      DeletionAskedSnoc(rest, last);
      if last.Cycle? {
        SpecSurvivesCycle(answers, Run(answers, c, rest), last.obs);
      }
    }
  }

  lemma RunThroughCycle(answers: Answers, c: Cluster, events: seq<Event>, k: nat)
    requires k < |events| && events[k].Cycle?
    ensures Run(answers, c, events[..k + 1]) == Reconcile(answers, Run(answers, c, events[..k]), events[k].obs)
  {
    assert events[..k + 1][..k] == events[..k];
  }

  /** In every run, a cycle under a spec that forbids changes, or halted by a strict VPA conflict, changes no stored
      pod; after a deletion request it may remove the recommendation annotation. */
  lemma HandsOffRunsTouchNothing(answers: Answers, c: Cluster, events: seq<Event>, k: nat)
    requires c.autoscaler.Some? && k < |events| && events[k].Cycle?
    requires var spec := SpecInForce(c.autoscaler.value.spec, events[..k]);
      SpecHandsOff(spec) || Halts(spec, CheckVpa(spec, events[k].obs.vpa))
    ensures var before, after := Run(answers, c, events[..k]).world.pods, Run(answers, c, events[..k + 1]).world.pods;
      if c.autoscaler.value.deleting || DeletionAsked(events[..k]) then OnlyUnannotated(before, after)
      else after == before
  {
    var before := Run(answers, c, events[..k]);
    SpecOfRun(answers, c, events[..k]);
    RunThroughCycle(answers, c, events, k);
    if GoingAway(before) {
      DeletionNeverResizes(answers, before, events[k].obs);
    } else {
      QuietCycle(answers, before, events[k].obs);
    }
  }

  /** In every run, no cycle after a deletion request applies a recommendation. */
  lemma NoResizeAfterDeletion(answers: Answers, c: Cluster, events: seq<Event>, d: nat, k: nat)
    requires c.autoscaler.Some? && d < k < |events| && events[d].DeletionRequested? && events[k].Cycle?
    ensures OnlyUnannotated(Run(answers, c, events[..k]).world.pods, Run(answers, c, events[..k + 1]).world.pods)
  {
    assert events[..k][d].DeletionRequested?;
    SpecOfRun(answers, c, events[..k]);
    RunThroughCycle(answers, c, events, k);
    DeletionNeverResizes(answers, Run(answers, c, events[..k]), events[k].obs);
  }

  // ---- Finalizer protocol ----

  lemma CycleGuardedIff(answers: Answers, c: Cluster, obs: Observation)
    requires Guarded(c)
    ensures Guarded(Reconcile(answers, c, obs)) <==> (Deletes(c, obs) ==> CleanDeletion(answers, c, obs))
  {
    if Deletes(c, obs) {
      DeletionCleansIff(answers, c, obs);
    } else if Reconcile(answers, c, obs).world.pods != c.world.pods {
      PodsChangeUnderFinalizer(answers, c, obs);
    } else {
      FinalizerStays(answers, c, obs);
    }
  }

  lemma FinalizerStays(answers: Answers, c: Cluster, obs: Observation)
    requires !Deletes(c, obs)
    ensures FinalizerHeld(c) ==> FinalizerHeld(Reconcile(answers, c, obs))
  {
  }

  /** Workloads do not write the recommendation annotation themselves. */
  predicate ForeignPods(before: map<string, PodValue>, after: map<string, PodValue>) {
    forall name | name in after && Annotated(after[name]) :: name in before && Annotated(before[name])
  }

  /** The event is not a cycle that gives the finalizer back over an annotated pod. */
  ghost predicate CleanEvent(answers: Answers, c: Cluster, event: Event) {
    event.Cycle? && Deletes(c, event.obs) ==> CleanDeletion(answers, c, event.obs)
  }

  lemma EventGuardedIff(answers: Answers, c: Cluster, event: Event)
    requires Guarded(c) && (event.PodsChanged? ==> ForeignPods(c.world.pods, event.pods))
    ensures Guarded(Step(answers, c, event)) <==> CleanEvent(answers, c, event)
  {
    if event.Cycle? {
      CycleGuardedIff(answers, c, event.obs);
    }
  }

  /** Every event of the run is clean. */
  ghost predicate CleanRun(answers: Answers, c: Cluster, events: seq<Event>) {
    events == [] ||
    var rest, last := events[..|events| - 1], events[|events| - 1];
    CleanRun(answers, c, rest) && CleanEvent(answers, Run(answers, c, rest), last)
  }

  /** No workload of the run writes the recommendation annotation itself. */
  ghost predicate WorkloadsForeign(answers: Answers, c: Cluster, events: seq<Event>) {
    events == [] ||
    var rest, last := events[..|events| - 1], events[|events| - 1];
    && WorkloadsForeign(answers, c, rest)
    && (last.PodsChanged? ==> ForeignPods(Run(answers, c, rest).world.pods, last.pods))
  }

  /** Annotated pods are guarded at the start and after every event. */
  ghost predicate AlwaysGuarded(answers: Answers, c: Cluster, events: seq<Event>) {
    && Guarded(Run(answers, c, events))
    && (events == [] || AlwaysGuarded(answers, c, events[..|events| - 1]))
  }

  /** In every run whose workloads leave the annotation alone, annotated pods stay guarded throughout iff every
      deletion cycle is clean. */
  lemma {:induction false} NoAnnotationWithoutFinalizer(answers: Answers, c: Cluster, events: seq<Event>)
    requires Guarded(c) && WorkloadsForeign(answers, c, events)
    ensures AlwaysGuarded(answers, c, events) <==> CleanRun(answers, c, events)
    decreases |events|
  {
    if events != [] {
      var rest, last := events[..|events| - 1], events[|events| - 1];
      NoAnnotationWithoutFinalizer(answers, c, rest);
      if AlwaysGuarded(answers, c, rest) {
        EventGuardedIff(answers, Run(answers, c, rest), last);
      }
    }
  }
}
