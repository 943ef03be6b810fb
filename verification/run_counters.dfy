/** The persisted counter over runs: against the log of API calls, and over cycles that see the same. */
module RunCounters {
  import opened Quantities
  import opened Pods
  import opened ApiTypes
  import opened Server
  import opened Evaluation
  import opened Reconciling
  import opened Settling
  import opened Cycles
  import opened CycleSafety
  import opened Counting
  import opened Metrics
  import opened Runs

  // ---- Against the log ----

  /** The cluster as a cycle starts to evaluate pods; None when it does not get that far. */
  function EvaluationStart(answers: Answers, c: Cluster, obs: Observation): (start: Option<Cluster>)
    ensures start.Some? ==> Managed(start.value) && Evaluates(start.value.autoscaler.value.spec, obs)
  {
    if !obs.fetched || c.autoscaler.None? || c.autoscaler.value.deleting then None else
    var ready := EnsureFinalizer(answers, c);
    if Managed(ready) && Evaluates(ready.autoscaler.value.spec, obs) then Some(ready) else None
  }

  /** Mode Off, and not a dry run: adjustments are counted without being made. */
  predicate OnlyCounts(spec: Spec) {
    ModeFor(spec).Off? && !spec.dryRun
  }

  /** The status write that ends the evaluation succeeds. */
  predicate Persists(answers: Answers, start: Cluster, obs: Observation)
    requires Managed(start) && Evaluates(start.autoscaler.value.spec, obs)
  {
    answers(|EvaluateAll(answers, start.world, start.autoscaler.value.spec, obs).world.log|)
  }

  /** Applications of a cycle whose final status write failed. */
  function Lost(answers: Answers, c: Cluster, obs: Observation): nat {
    var start := EvaluationStart(answers, c, obs);
    if start.None? || OnlyCounts(start.value.autoscaler.value.spec) || Persists(answers, start.value, obs) then 0
    else EvaluateAll(answers, start.value.world, start.value.autoscaler.value.spec, obs).adjustments
  }

  /** What a cycle in mode Off would have applied, where the final status write succeeded. */
  function MerelyCounted(answers: Answers, c: Cluster, obs: Observation): nat {
    var start := EvaluationStart(answers, c, obs);
    if start.None? || !OnlyCounts(start.value.autoscaler.value.spec) || !Persists(answers, start.value, obs) then 0
    else DueNow(start.value.autoscaler.value.spec, obs)
  }

  /** The significant entries for the running pods as listed. */
  function DueNow(spec: Spec, obs: Observation): nat
    requires obs.listed.Some?
  {
    CycleAdjustments(PlanFor(spec, obs), SourceFor(obs, CheckVpa(spec, obs.vpa)), Running(obs.listed.value))
  }

  function LostInRun(answers: Answers, c: Cluster, events: seq<Event>): nat {
    if events == [] then 0 else
    var rest, last := events[..|events| - 1], events[|events| - 1];
    LostInRun(answers, c, rest) + (if last.Cycle? then Lost(answers, Run(answers, c, rest), last.obs) else 0)
  }

  function MerelyCountedInRun(answers: Answers, c: Cluster, events: seq<Event>): nat {
    if events == [] then 0 else
    var rest, last := events[..|events| - 1], events[|events| - 1];
    MerelyCountedInRun(answers, c, rest) +
      (if last.Cycle? then MerelyCounted(answers, Run(answers, c, rest), last.obs) else 0)
  }

  lemma OtherCallsApplyNothing(log: seq<Call>, call: Call)
    requires call.kind in {Unannotate, ObjectUpdate, StatusUpdate}
    ensures Applications(log, log + [call]) == 0
  {
    GainedByCall(log, call);
  }

  lemma {:induction false} CleanupAppliesNothing(answers: Answers, w: World, pods: seq<ListedPod>)
    ensures Applications(w.log, Cleanup(answers, w, pods).log) == 0
    decreases |pods|
  {
    if pods != [] {
      var rest := pods[..|pods| - 1];
      CleanupAppliesNothing(answers, w, rest);
      OtherCallsApplyNothing(Cleanup(answers, w, rest).log, Call(Unannotate, true));
      OtherCallsApplyNothing(Cleanup(answers, w, rest).log, Call(Unannotate, false));
    }
  }

  lemma DeletionAppliesNothing(answers: Answers, c: Cluster, obs: Observation)
    requires c.autoscaler.Some?
    ensures Applications(c.world.log, Delete(answers, c, obs).world.log) == 0
  {
    if obs.selectorValid && obs.listed.Some? {
      CleanupAppliesNothing(answers, c.world, obs.listed.value);
    }
    var cleaned := CleanupManaged(answers, c.world, obs);
    OtherCallsApplyNothing(cleaned.log, Call(ObjectUpdate, true));
    OtherCallsApplyNothing(cleaned.log, Call(ObjectUpdate, false));
  }

  /** Containers of a listed pod have distinct names. */
  predicate DistinctListing(obs: Observation) {
    obs.listed.Some? ==>
      forall i | 0 <= i < |Running(obs.listed.value)| :: DistinctNames(Running(obs.listed.value)[i].value.containers)
  }

  /** Outside mode Off what an evaluation applies is what it counts; in mode Off it applies nothing and counts what is
      due; in a dry run neither. */
  lemma EvaluationApplies(answers: Answers, w: World, spec: Spec, obs: Observation)
    requires Evaluates(spec, obs) && DistinctListing(obs)
    ensures var e := EvaluateAll(answers, w, spec, obs);
      if OnlyCounts(spec) then Applications(w.log, e.world.log) == 0 && e.adjustments == DueNow(spec, obs)
      else Applications(w.log, e.world.log) == e.adjustments
  {
    var plan, source := PlanFor(spec, obs), SourceFor(obs, CheckVpa(spec, obs.vpa));
    var pods := Running(obs.listed.value);
    if OnlyCounts(spec) {
      OffCountsWhatIsDue(plan, answers, source, w, pods);
    } else {
      CycleTallied(plan, answers, source, w, pods);
      if plan.dryRun {
        CycleHandsOff(plan, answers, source, w, pods);
      }
    }
  }

  lemma StatusWriteAppliesNothing(answers: Answers, c: Cluster, status: Status)
    ensures Applications(c.world.log, WriteStatus(answers, c, status).world.log) == 0
  {
    OtherCallsApplyNothing(c.world.log, Call(StatusUpdate, true));
    OtherCallsApplyNothing(c.world.log, Call(StatusUpdate, false));
  }

  lemma StartIsManaged(answers: Answers, c: Cluster, obs: Observation)
    requires Managed(c) && obs.fetched
    ensures EvaluationStart(answers, c, obs) == if Evaluates(c.autoscaler.value.spec, obs) then Some(c) else None
  {
  }

  lemma ManagedCycleApplies(answers: Answers, c: Cluster, obs: Observation)
    requires Managed(c) && obs.fetched && DistinctListing(obs)
    ensures Applications(c.world.log, Evaluate(answers, c, obs).world.log) + MerelyCounted(answers, c, obs) ==
      CreditedEvaluation(answers, c, obs) + Lost(answers, c, obs)
  {
    var pa := c.autoscaler.value;
    StartIsManaged(answers, c, obs);
    if Evaluates(pa.spec, obs) {
      var counted := pa.status.(monitoredPods := |Running(obs.listed.value)|);
      var checked := CheckedStatus(counted, CheckVpa(pa.spec, obs.vpa), obs.now);
      var e := EvaluateAll(answers, c.world, pa.spec, obs);
      var status := EvaluatedStatus(checked, pa.generation, PlanFor(pa.spec, obs), e, obs.now);
      EvaluationApplies(answers, c.world, pa.spec, obs);
      StatusWriteAppliesNothing(answers, c.(world := e.world), status);
    } else {
      EvaluationWithout(answers, c, obs);
    }
  }

  lemma EvaluationWithout(answers: Answers, c: Cluster, obs: Observation)
    requires Managed(c) && !Evaluates(c.autoscaler.value.spec, obs)
    ensures Applications(c.world.log, Evaluate(answers, c, obs).world.log) == 0
  {
    OtherCallsApplyNothing(c.world.log, Call(StatusUpdate, true));
    OtherCallsApplyNothing(c.world.log, Call(StatusUpdate, false));
  }

  lemma FinalizerAppliesNothing(answers: Answers, c: Cluster)
    requires c.autoscaler.Some?
    ensures Applications(c.world.log, EnsureFinalizer(answers, c).world.log) == 0
  {
    OtherCallsApplyNothing(c.world.log, Call(ObjectUpdate, true));
    OtherCallsApplyNothing(c.world.log, Call(ObjectUpdate, false));
  }

  lemma CycleApplies(answers: Answers, c: Cluster, obs: Observation)
    requires DistinctListing(obs)
    ensures Applications(c.world.log, Reconcile(answers, c, obs).world.log) + MerelyCounted(answers, c, obs) ==
      Credited(answers, c, obs) + Lost(answers, c, obs)
  {
    if obs.fetched && c.autoscaler.Some? {
      if c.autoscaler.value.deleting {
        DeletionAppliesNothing(answers, c, obs);
      } else {
        FinalizerAppliesNothing(answers, c);
        var ready := EnsureFinalizer(answers, c);
        if Managed(ready) {
          StartIsManaged(answers, ready, obs);
          assert EvaluationStart(answers, c, obs) == EvaluationStart(answers, ready, obs);
          ManagedCycleApplies(answers, ready, obs);
        }
      }
    }
  }

  predicate DistinctListings(events: seq<Event>) {
    forall k | 0 <= k < |events| && events[k].Cycle? :: DistinctListing(events[k].obs)
  }

  lemma {:induction false} RunApplies(answers: Answers, c: Cluster, events: seq<Event>)
    requires DistinctListings(events)
    ensures Applications(c.world.log, Run(answers, c, events).world.log) + MerelyCountedInRun(answers, c, events) ==
      CreditedInRun(answers, c, events) + LostInRun(answers, c, events)
    decreases |events|
  {
    if events != [] {
      var rest, last := events[..|events| - 1], events[|events| - 1];
      RunApplies(answers, c, rest);
      if last.Cycle? {
        CycleApplies(answers, Run(answers, c, rest), last.obs);
      }
    }
  }

  /** Over every clocked run, in whatever modes: the persisted counter is the accepted resizes and evictions in the log,
      plus what cycles in mode Off merely counted, less those of cycles whose status write failed. */
  lemma CounterAgainstLog(answers: Answers, c: Cluster, events: seq<Event>, start: int)
    requires Fresh(c) && Clocked(events) && DistinctListings(events)
    requires forall i | 0 <= i < |events| && events[i].Cycle? :: start <= events[i].obs.now
    ensures var after := Run(answers, c, events);
      after.autoscaler.Some? ==>
        after.autoscaler.value.status.totalAdjustments == Applications(c.world.log, after.world.log) +
          MerelyCountedInRun(answers, c, events) - LostInRun(answers, c, events)
  {
    CountersBalanceInEveryRun(answers, c, events, start);
    RunApplies(answers, c, events);
  }

  /** The cycle's status write succeeds, if it evaluates. */
  predicate Kept(answers: Answers, c: Cluster, obs: Observation) {
    var start := EvaluationStart(answers, c, obs);
    start.Some? ==> Persists(answers, start.value, obs)
  }

  /** The cycle does not evaluate in mode Off, or finds no entry significant. */
  predicate OffFindsNothing(answers: Answers, c: Cluster, obs: Observation) {
    var start := EvaluationStart(answers, c, obs);
    start.Some? && OnlyCounts(start.value.autoscaler.value.spec) ==>
      var spec := start.value.autoscaler.value.spec;
      NothingSignificant(PlanFor(spec, obs), SourceFor(obs, CheckVpa(spec, obs.vpa)), Running(obs.listed.value))
  }

  predicate AllKept(answers: Answers, c: Cluster, events: seq<Event>) {
    events == [] ||
    var rest, last := events[..|events| - 1], events[|events| - 1];
    AllKept(answers, c, rest) && (last.Cycle? ==> Kept(answers, Run(answers, c, rest), last.obs))
  }

  predicate OffNeverFinds(answers: Answers, c: Cluster, events: seq<Event>) {
    events == [] ||
    var rest, last := events[..|events| - 1], events[|events| - 1];
    OffNeverFinds(answers, c, rest) && (last.Cycle? ==> OffFindsNothing(answers, Run(answers, c, rest), last.obs))
  }

  lemma KeptCycle(answers: Answers, c: Cluster, obs: Observation)
    requires Kept(answers, c, obs)
    ensures Lost(answers, c, obs) == 0
    ensures MerelyCounted(answers, c, obs) == 0 <==> OffFindsNothing(answers, c, obs)
  {
    var start := EvaluationStart(answers, c, obs);
    if start.Some? {
      var spec := start.value.autoscaler.value.spec;
      NoneDueInCycle(PlanFor(spec, obs), SourceFor(obs, CheckVpa(spec, obs.vpa)), Running(obs.listed.value));
    }
  }

  lemma {:induction false} KeptRun(answers: Answers, c: Cluster, events: seq<Event>)
    requires AllKept(answers, c, events)
    ensures LostInRun(answers, c, events) == 0
    ensures MerelyCountedInRun(answers, c, events) == 0 <==> OffNeverFinds(answers, c, events)
    decreases |events|
  {
    if events != [] {
      var rest, last := events[..|events| - 1], events[|events| - 1];
      KeptRun(answers, c, rest);
      if last.Cycle? {
        KeptCycle(answers, Run(answers, c, rest), last.obs);
      }
    }
  }

  /** With every status write accepted, the counter is honest, equal to the applications in the log, iff no cycle in
      mode Off ever found a significant entry. */
  lemma CounterHonestInRunIff(answers: Answers, c: Cluster, events: seq<Event>, start: int)
    requires Fresh(c) && Clocked(events) && DistinctListings(events) && AllKept(answers, c, events)
    requires forall i | 0 <= i < |events| && events[i].Cycle? :: start <= events[i].obs.now
    requires Run(answers, c, events).autoscaler.Some?
    ensures var after := Run(answers, c, events);
      after.autoscaler.value.status.totalAdjustments == Applications(c.world.log, after.world.log) <==>
        OffNeverFinds(answers, c, events)
  {
    CounterAgainstLog(answers, c, events, start);
    KeptRun(answers, c, events);
  }

  // ---- Over cycles that see the same ----

  /** The cycle evaluates under this plan, from this source, the same running pods as they are stored now. */
  predicate SameView(c: Cluster, obs: Observation, plan: Plan, source: Source, pods: seq<ListedPod>)
    requires c.autoscaler.Some?
  {
    var spec := c.autoscaler.value.spec;
    && obs.fetched && Evaluates(spec, obs)
    && PlanFor(spec, obs) == plan && SourceFor(obs, CheckVpa(spec, obs.vpa)) == source
    && Running(obs.listed.value) == ListedAgain(pods, c.world.pods)
  }

  /** A cycle on a managed object that sees this, and whose calls for pods are granted. Its status write may fail. */
  predicate SeesAgain(answers: Answers, c: Cluster, event: Event, plan: Plan, source: Source, pods: seq<ListedPod>,
      due: nat) {
    && Managed(c) && event.Cycle? && SameView(c, event.obs, plan, source, pods) && Granted(answers, c.world, due)
  }

  /** What a run of such cycles adds to the counter: due in the first, restless in each further one, as far as the
      status write, which is the last call of a cycle, succeeds. */
  function Reported(answers: Answers, c: Cluster, events: seq<Event>, first: nat, again: nat): nat {
    if events == [] then 0 else
    Reported(answers, c, events[..|events| - 1], first, again) +
      (if !WroteStatus(answers, Run(answers, c, events)) then 0 else if |events| == 1 then first else again)
  }

  predicate WroteStatus(answers: Answers, after: Cluster) {
    after.world.log != [] && answers(|after.world.log| - 1)
  }

  lemma StatusWritten(answers: Answers, c: Cluster, status: Status)
    requires Managed(c)
    ensures var after := WriteStatus(answers, c, status);
      && Managed(after) && after.world.pods == c.world.pods
      && (WroteStatus(answers, after) <==> answers(|c.world.log|))
      && after.autoscaler.value.status == if WroteStatus(answers, after) then status else c.autoscaler.value.status
  {
  }

  lemma ManagedCycle(answers: Answers, c: Cluster, obs: Observation)
    requires Managed(c) && obs.fetched && Evaluates(c.autoscaler.value.spec, obs)
    ensures var e := EvaluateAll(answers, c.world, c.autoscaler.value.spec, obs);
      var after := Reconcile(answers, c, obs);
      && Managed(after) && after.world.pods == e.world.pods
      && after.autoscaler.value.status.totalAdjustments == c.autoscaler.value.status.totalAdjustments +
          (if WroteStatus(answers, after) then e.adjustments else 0)
  {
    var pa := c.autoscaler.value;
    var counted := pa.status.(monitoredPods := |Running(obs.listed.value)|);
    var checked := CheckedStatus(counted, CheckVpa(pa.spec, obs.vpa), obs.now);
    var e := EvaluateAll(answers, c.world, pa.spec, obs);
    var status := EvaluatedStatus(checked, pa.generation, PlanFor(pa.spec, obs), e, obs.now);
    assert Reconcile(answers, c, obs) == WriteStatus(answers, c.(world := e.world), status);
    assert status.totalAdjustments == pa.status.totalAdjustments + e.adjustments;
    StatusWritten(answers, c.(world := e.world), status);
  }

  /** The first cycle adjusts what is due, the others what is restless. */
  function DueAt(plan: Plan, source: Source, pods: seq<ListedPod>, k: nat): nat {
    if k == 0 then CycleAdjustments(plan, source, pods) else RestlessCount(plan, source, pods)
  }

  /** Every event of the run sees the same. */
  ghost predicate Repeats(answers: Answers, c: Cluster, events: seq<Event>, plan: Plan, source: Source,
      pods: seq<ListedPod>) {
    forall k | 0 <= k < |events| ::
      SeesAgain(answers, Run(answers, c, events[..k]), events[k], plan, source, pods, DueAt(plan, source, pods, k))
  }

  /** The object is still there, its counter has grown by the count, and the pods are settled. */
  ghost predicate Grown(c: Cluster, after: Cluster, plan: Plan, source: Source, pods: seq<ListedPod>, count: nat)
    requires c.autoscaler.Some?
  {
    && after.autoscaler.Some?
    && after.autoscaler.value.status.totalAdjustments == c.autoscaler.value.status.totalAdjustments + count
    && SettledWorld(plan, source, c.world.pods, pods, after.world.pods)
  }

  lemma FirstInRun(answers: Answers, c: Cluster, event: Event, plan: Plan, source: Source, pods: seq<ListedPod>)
    requires c.autoscaler.Some? && InPlaceModes(plan) && AccurateList(source, c.world, pods)
    requires SeesAgain(answers, c, event, plan, source, pods, CycleAdjustments(plan, source, pods))
    ensures var after := Step(answers, c, event);
      Grown(c, after, plan, source, pods,
        if WroteStatus(answers, after) then CycleAdjustments(plan, source, pods) else 0)
  {
    assert ListedAgain(pods, c.world.pods) == pods;
    CycleSettles(plan, answers, source, c.world, pods);
    ManagedCycle(answers, c, event.obs);
  }

  lemma AgainInRun(answers: Answers, start: Cluster, c: Cluster, event: Event, plan: Plan, source: Source,
      pods: seq<ListedPod>, count: nat)
    requires start.autoscaler.Some? && InPlaceModes(plan) && AccurateList(source, start.world, pods)
    requires Grown(start, c, plan, source, pods, count)
    requires SeesAgain(answers, c, event, plan, source, pods, RestlessCount(plan, source, pods))
    ensures var after := Step(answers, c, event);
      Grown(start, after, plan, source, pods,
        count + if WroteStatus(answers, after) then RestlessCount(plan, source, pods) else 0)
  {
    FurtherCycle(plan, answers, source, start.world, pods, c.world);
    ManagedCycle(answers, c, event.obs);
  }

  lemma ReportedSnoc(answers: Answers, c: Cluster, events: seq<Event>, k: nat, first: nat, again: nat)
    requires k < |events|
    ensures var after := Run(answers, c, events[..k + 1]);
      && after == Step(answers, Run(answers, c, events[..k]), events[k])
      && Reported(answers, c, events[..k + 1], first, again) ==
          Reported(answers, c, events[..k], first, again) +
          (if !WroteStatus(answers, after) then 0 else if k == 0 then first else again)
  {
    assert events[..k + 1][..k] == events[..k];
  }

  /** In such a run the persisted counter grows by what is due in the first cycle and by the restless entries in every
      further cycle, as far as they can write their status; the pods are as one cycle settles them. */
  lemma {:induction false} TotalOverRun(answers: Answers, c: Cluster, events: seq<Event>, plan: Plan, source: Source,
      pods: seq<ListedPod>, k: nat)
    requires c.autoscaler.Some? && InPlaceModes(plan) && AccurateList(source, c.world, pods)
    requires Repeats(answers, c, events, plan, source, pods) && 0 < k <= |events|
    ensures Grown(c, Run(answers, c, events[..k]), plan, source, pods,
      Reported(answers, c, events[..k], CycleAdjustments(plan, source, pods), RestlessCount(plan, source, pods)))
    decreases k
  {
    var first, again := CycleAdjustments(plan, source, pods), RestlessCount(plan, source, pods);
    ReportedSnoc(answers, c, events, k - 1, first, again);
    var before := Run(answers, c, events[..k - 1]);
    assert SeesAgain(answers, before, events[k - 1], plan, source, pods, DueAt(plan, source, pods, k - 1));
    if k == 1 {
      FirstInRun(answers, c, events[0], plan, source, pods);
    } else {
      TotalOverRun(answers, c, events, plan, source, pods, k - 1);
      AgainInRun(answers, c, before, events[k - 1], plan, source, pods,
        Reported(answers, c, events[..k - 1], first, again));
    }
  }

  lemma SettledOneWay(plan: Plan, source: Source, before: map<string, PodValue>, pods: seq<ListedPod>,
      x: map<string, PodValue>, y: map<string, PodValue>)
    requires SettledWorld(plan, source, before, pods, x) && SettledWorld(plan, source, before, pods, y)
    ensures x == y
  {
    forall name | name in before
      ensures x[name] == y[name]
    {
      if i :| 0 <= i < |pods| && pods[i].name == name {
        assert x[pods[i].name] == y[pods[i].name];
      }
    }
  }

  /** From the first cycle on the stored pods stand still. */
  lemma PodsStandStill(answers: Answers, c: Cluster, events: seq<Event>, plan: Plan, source: Source,
      pods: seq<ListedPod>, k: nat)
    requires c.autoscaler.Some? && InPlaceModes(plan) && AccurateList(source, c.world, pods)
    requires 0 < k <= |events| && Repeats(answers, c, events, plan, source, pods)
    ensures Run(answers, c, events[..k]).world.pods == Run(answers, c, events).world.pods
  {
    TotalOverRun(answers, c, events, plan, source, pods, k);
    TotalOverRun(answers, c, events, plan, source, pods, |events|);
    assert events[..|events|] == events;
    SettledOneWay(plan, source, c.world.pods, pods, Run(answers, c, events[..k]).world.pods,
      Run(answers, c, events).world.pods);
  }

  /** Without failed status writes: the count due once, and the restless count in every further cycle. */
  lemma {:induction false} ReportedIsLinear(answers: Answers, c: Cluster, events: seq<Event>, first: nat, again: nat)
    requires events != []
    requires forall k | 0 < k <= |events| :: WroteStatus(answers, Run(answers, c, events[..k]))
    ensures Reported(answers, c, events, first, again) == first + (|events| - 1) * again
    decreases |events|
  {
    assert events[..|events|] == events;
    if |events| > 1 {
      var rest := events[..|events| - 1];
      assert forall k | 0 < k <= |rest| :: rest[..k] == events[..k];
      ReportedIsLinear(answers, c, rest, first, again);
      OneMoreTime(|rest|, again);
    }
  }

  // ---- Such runs exist ----

  predicate AllRunning(pods: seq<ListedPod>) {
    forall i | 0 <= i < |pods| :: pods[i].value.running && !pods[i].value.terminating
  }

  lemma {:induction false} RunningAreRunning(pods: seq<ListedPod>)
    ensures AllRunning(Running(pods))
  {
    if pods != [] {
      RunningAreRunning(pods[..|pods| - 1]);
    }
  }

  lemma {:induction false} AllRunningStay(pods: seq<ListedPod>)
    requires AllRunning(pods)
    ensures Running(pods) == pods
  {
    if pods != [] {
      var rest, last := pods[..|pods| - 1], pods[|pods| - 1];
      AllRunningStay(rest);
      assert Running(pods) == rest + [last];
    }
  }

  /** Settling keeps pods running, so listing them again finds them all. */
  lemma SettledRun(plan: Plan, source: Source, before: map<string, PodValue>, pods: seq<ListedPod>,
      after: map<string, PodValue>)
    requires SettledWorld(plan, source, before, pods, after) && AllRunning(pods)
    ensures Running(ListedAgain(pods, after)) == ListedAgain(pods, after)
  {
    var again := ListedAgain(pods, after);
    forall i | 0 <= i < |again|
      ensures again[i].value.running && !again[i].value.terminating
    {
      assert again[i].value == SettledPod(plan, WishesFor(source, pods[i].name), pods[i].value);
    }
    AllRunningStay(again);
  }

  lemma CycleKeepsManaged(answers: Answers, c: Cluster, obs: Observation)
    requires Managed(c)
    ensures Managed(Reconcile(answers, c, obs))
    ensures Reconcile(answers, c, obs).autoscaler.value.spec == c.autoscaler.value.spec
  {
  }

  /** What the controller sees when it lists the running pods of a first observation as they are now. */
  function LookAgain(c: Cluster, obs: Observation, pods: seq<ListedPod>): Event {
    Cycle(obs.(listed := Some(ListedAgain(pods, c.world.pods))))
  }

  /** When every call succeeds, looking again for any number of cycles makes such a run. */
  lemma {:induction false} RepeatsAttained(answers: Answers, c: Cluster, obs: Observation, plan: Plan, source: Source,
      n: nat) returns (events: seq<Event>)
    requires Managed(c) && obs.listed.Some? && forall k :: answers(k)
    requires var pods := Running(obs.listed.value);
      InPlaceModes(plan) && AccurateList(source, c.world, pods) && SameView(c, obs, plan, source, pods)
    ensures |events| == n && Repeats(answers, c, events, plan, source, Running(obs.listed.value))
    ensures var after := Run(answers, c, events);
      Managed(after) && after.autoscaler.value.spec == c.autoscaler.value.spec
  {
    events := [];
    if n > 0 {
      var pods := Running(obs.listed.value);
      events := RepeatsAttained(answers, c, obs, plan, source, n - 1);
      var before := Run(answers, c, events);
      var event := LookAgain(before, obs, pods);
      assert Running(event.obs.listed.value) == event.obs.listed.value by {
        RunningAreRunning(obs.listed.value);
        StillRunning(answers, c, events, plan, source, pods);
      }
      CycleKeepsManaged(answers, before, event.obs);
      RepeatsSnoc(answers, c, events, event, plan, source, pods);
      events := events + [event];
    }
  }

  lemma StillRunning(answers: Answers, c: Cluster, events: seq<Event>, plan: Plan, source: Source,
      pods: seq<ListedPod>)
    requires c.autoscaler.Some? && InPlaceModes(plan) && AccurateList(source, c.world, pods)
    requires Repeats(answers, c, events, plan, source, pods) && AllRunning(pods)
    ensures var again := ListedAgain(pods, Run(answers, c, events).world.pods); Running(again) == again
  {
    if events == [] {
      assert ListedAgain(pods, c.world.pods) == pods;
      AllRunningStay(pods);
    } else {
      TotalOverRun(answers, c, events, plan, source, pods, |events|);
      assert events[..|events|] == events;
      SettledRun(plan, source, c.world.pods, pods, Run(answers, c, events).world.pods);
    }
  }

  lemma RepeatsSnoc(answers: Answers, c: Cluster, rest: seq<Event>, event: Event, plan: Plan, source: Source,
      pods: seq<ListedPod>)
    requires Repeats(answers, c, rest, plan, source, pods)
    requires SeesAgain(answers, Run(answers, c, rest), event, plan, source, pods, DueAt(plan, source, pods, |rest|))
    ensures Repeats(answers, c, rest + [event], plan, source, pods)
    ensures Run(answers, c, rest + [event]) == Step(answers, Run(answers, c, rest), event)
  {
    var events := rest + [event];
    assert events[..|rest|] == rest;
    forall k | 0 <= k < |events|
      ensures SeesAgain(answers, Run(answers, c, events[..k]), events[k], plan, source, pods,
        DueAt(plan, source, pods, k))
    {
      assert k < |rest| ==> events[..k] == rest[..k] && events[k] == rest[k];
    }
  }
}
