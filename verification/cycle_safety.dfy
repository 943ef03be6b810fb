/** What a cycle may do to pods, under any sequence of API answers and any list of pods. */
module CycleSafety {
  import opened Quantities
  import opened Calculator
  import opened NamespaceLimits
  import opened Pods
  import opened ApiTypes
  import opened Server
  import opened Metrics
  import opened Updater
  import opened Evaluation
  import opened Reconciling
  import Vpa

  // ---- Plans that touch nothing ----

  predicate HandsOff(plan: Plan) {
    plan.dryRun || plan.mode.Off? || plan.mode.UnknownMode?
  }

  lemma {:induction false} OwnLoopHandsOff(plan: Plan, answers: Answers, name: string,
      allocations: map<string, ContainerResources>, p: Progress, ms: seq<ContainerMetrics>)
    requires HandsOff(plan)
    ensures var q := OwnLoop(plan, answers, name, allocations, p, ms);
      q.world == p.world && q.pod == p.pod && (plan.dryRun ==> q.adjustments == p.adjustments)
    decreases |ms|
  {
    if ms != [] {
      OwnLoopHandsOff(plan, answers, name, allocations, p, ms[..|ms| - 1]);
    }
  }

  lemma {:induction false} VpaLoopHandsOff(plan: Plan, answers: Answers, name: string, p: Progress,
      recs: seq<Vpa.ContainerRecommendation>)
    requires HandsOff(plan)
    ensures var q := VpaLoop(plan, answers, name, p, recs);
      q.world == p.world && q.pod == p.pod && (plan.dryRun ==> q.adjustments == p.adjustments)
    decreases |recs|
  {
    if recs != [] {
      VpaLoopHandsOff(plan, answers, name, p, recs[..|recs| - 1]);
    }
  }

  /** Dry runs, mode Off and unknown modes make no API call for any pod, and a dry run counts nothing. */
  lemma {:induction false} CycleHandsOff(plan: Plan, answers: Answers, source: Source, w: World, pods: seq<ListedPod>)
    requires HandsOff(plan)
    ensures var c := CycleLoop(plan, answers, source, w, pods); c.world == w && (plan.dryRun ==> c.adjustments == 0)
    decreases |pods|
  {
    if pods != [] {
      var rest, last := pods[..|pods| - 1], pods[|pods| - 1];
      CycleHandsOff(plan, answers, source, w, rest);
      var start := Progress(w, last.value, [], 0, []);
      match source {
        case FromVpa(recs) => VpaLoopHandsOff(plan, answers, last.name, start, recs);
        case OwnAlgorithm(metrics) =>
          if last.name in metrics {
            OwnLoopHandsOff(plan, answers, last.name, Allocations(last.value.containers), start, metrics[last.name]);
          }
      }
    }
  }

  /** A cycle whose spec forbids changes, or that halts on a VPA conflict, leaves every stored pod as it was. */
  lemma QuietCycle(answers: Answers, c: Cluster, obs: Observation)
    requires c.autoscaler.Some? && !c.autoscaler.value.deleting
    requires var spec := c.autoscaler.value.spec;
      spec.dryRun || ModeFor(spec).Off? || ModeFor(spec).UnknownMode? || Halts(spec, CheckVpa(spec, obs.vpa))
    ensures Reconcile(answers, c, obs).world.pods == c.world.pods
  {
    var ready := EnsureFinalizer(answers, c);
    if obs.fetched && Managed(ready) && obs.listed.Some? {
      var spec := ready.autoscaler.value.spec;
      assert spec == c.autoscaler.value.spec;
      if !Halts(spec, CheckVpa(spec, obs.vpa)) {
        var plan, source := PlanFor(spec, obs), SourceFor(obs, CheckVpa(spec, obs.vpa));
        CycleHandsOff(plan, answers, source, ready.world, Running(obs.listed.value));
      }
    }
  }

  // ---- Deletion ----

  /** Nothing happened to a pod but the removal of the recommendation annotation. */
  predicate OnlyUnannotated(before: map<string, PodValue>, after: map<string, PodValue>) {
    && after.Keys == before.Keys
    && forall name | name in before :: after[name] == before[name] || after[name] == WithoutAnnotation(before[name])
  }

  /** Number of API calls cleanup makes for the first pods of a list. */
  function CallsBefore(pods: seq<ListedPod>, i: nat): nat
    requires i <= |pods|
  {
    if i == 0 then 0 else CallsBefore(pods, i - 1) + (if Annotated(pods[i - 1].value) then 1 else 0)
  }

  lemma {:induction false} CallsBeforePrefix(rest: seq<ListedPod>, last: ListedPod, i: nat)
    requires i <= |rest|
    ensures CallsBefore(rest + [last], i) == CallsBefore(rest, i)
  {
    if i > 0 {
      CallsBeforePrefix(rest, last, i - 1);
    }
  }

  /** The i-th pod of the list is of that name and listed with the annotation, and its patch is accepted. */
  predicate ClearedAt(answers: Answers, w: World, pods: seq<ListedPod>, i: nat, name: string)
    requires i < |pods|
  {
    pods[i].name == name && Annotated(pods[i].value) && answers(|w.log| + CallsBefore(pods, i))
  }

  predicate Cleared(answers: Answers, w: World, pods: seq<ListedPod>, name: string) {
    exists i | 0 <= i < |pods| :: ClearedAt(answers, w, pods, i, name)
  }

  /** The last pod of a list clears the name. */
  predicate ClearedByLast(answers: Answers, w: World, rest: seq<ListedPod>, last: ListedPod, name: string) {
    last.name == name && Annotated(last.value) && answers(|w.log| + CallsBefore(rest, |rest|))
  }

  lemma ClearedAtSnoc(answers: Answers, w: World, rest: seq<ListedPod>, last: ListedPod, i: nat, name: string)
    requires i <= |rest|
    ensures ClearedAt(answers, w, rest + [last], i, name) <==>
      if i < |rest| then ClearedAt(answers, w, rest, i, name) else ClearedByLast(answers, w, rest, last, name)
  {
    CallsBeforePrefix(rest, last, i);
  }

  lemma ClearedSnoc(answers: Answers, w: World, rest: seq<ListedPod>, last: ListedPod, name: string)
    ensures Cleared(answers, w, rest + [last], name) <==>
      Cleared(answers, w, rest, name) || ClearedByLast(answers, w, rest, last, name)
  {
    var pods := rest + [last];
    if i :| 0 <= i < |pods| && ClearedAt(answers, w, pods, i, name) {
      ClearedAtSnoc(answers, w, rest, last, i, name);
    }
    if i :| 0 <= i < |rest| && ClearedAt(answers, w, rest, i, name) {
      ClearedAtSnoc(answers, w, rest, last, i, name);
      assert ClearedAt(answers, w, pods, i, name);
    }
    ClearedAtSnoc(answers, w, rest, last, |rest|, name);
    assert ClearedAt(answers, w, pods, |rest|, name) <==> ClearedByLast(answers, w, rest, last, name);
  }

  /** What cleanup leaves of a stored pod. */
  function AfterCleanup(answers: Answers, w: World, pods: seq<ListedPod>, name: string): PodValue
    requires name in w.pods
  {
    if Cleared(answers, w, pods, name) then WithoutAnnotation(w.pods[name]) else w.pods[name]
  }

  lemma UnannotatingPatch(stored: PodValue, base: PodValue)
    requires Annotated(base)
    ensures MergePatch(stored, base, WithoutAnnotation(base)) == WithoutAnnotation(stored)
    ensures WithoutAnnotation(WithoutAnnotation(stored)) == WithoutAnnotation(stored)
  {
  }

  /** From any list, however stale: a stored pod loses the annotation iff it is cleared, and nothing else changes. */
  lemma {:induction false} CleanupResult(answers: Answers, w: World, pods: seq<ListedPod>)
    ensures var after := Cleanup(answers, w, pods);
      && |after.log| == |w.log| + CallsBefore(pods, |pods|) && after.pods.Keys == w.pods.Keys
      && (forall name | name in w.pods :: after.pods[name] == AfterCleanup(answers, w, pods, name))
    decreases |pods|
  {
    if pods != [] {
      var rest, last := pods[..|pods| - 1], pods[|pods| - 1];
      assert pods == rest + [last];
      CleanupResult(answers, w, rest);
      CallsBeforePrefix(rest, last, |rest|);
      var mid, after := Cleanup(answers, w, rest), Cleanup(answers, w, pods);
      if last.name in mid.pods && Annotated(last.value) {
        UnannotatingPatch(mid.pods[last.name], last.value);
        UnannotatingPatch(w.pods[last.name], last.value);
      }
      forall name | name in w.pods
        ensures after.pods[name] == AfterCleanup(answers, w, pods, name)
      {
        ClearedSnoc(answers, w, rest, last, name);
      }
    }
  }

  /** Once deletion is requested no cycle applies a recommendation. */
  lemma DeletionNeverResizes(answers: Answers, c: Cluster, obs: Observation)
    requires c.autoscaler.Some? ==> c.autoscaler.value.deleting
    ensures OnlyUnannotated(c.world.pods, Reconcile(answers, c, obs).world.pods)
  {
    if obs.fetched && c.autoscaler.Some? && obs.selectorValid && obs.listed.Some? {
      CleanupResult(answers, c.world, obs.listed.value);
    }
  }

  // ---- The finalizer and the annotations ----

  predicate FinalizerHeld(c: Cluster) {
    c.autoscaler.Some? && FINALIZER in c.autoscaler.value.finalizers
  }

  ghost predicate NoneAnnotated(pods: map<string, PodValue>) {
    forall name | name in pods :: !Annotated(pods[name])
  }

  /** An annotated pod exists only while the finalizer is persisted. */
  ghost predicate Guarded(c: Cluster) {
    FinalizerHeld(c) || NoneAnnotated(c.world.pods)
  }

  /** A cycle that cleans up and gives the finalizer back. */
  predicate Deletes(c: Cluster, obs: Observation) {
    obs.fetched && FinalizerHeld(c) && c.autoscaler.value.deleting
  }

  /** Calls made before the finalizer is given back. */
  function CleanupCalls(obs: Observation): nat {
    if obs.selectorValid && obs.listed.Some? then CallsBefore(obs.listed.value, |obs.listed.value|) else 0
  }

  /** Every annotated pod is cleared, which takes a valid selector and a list. */
  ghost predicate AllCleared(answers: Answers, w: World, obs: Observation) {
    forall name | name in w.pods && Annotated(w.pods[name]) ::
      obs.selectorValid && obs.listed.Some? && Cleared(answers, w, obs.listed.value, name)
  }

  /** The finalizer is given back only with every annotated pod cleared. */
  ghost predicate CleanDeletion(answers: Answers, c: Cluster, obs: Observation) {
    answers(|c.world.log| + CleanupCalls(obs)) ==> AllCleared(answers, c.world, obs)
  }

  lemma CleanupManagedResult(answers: Answers, w: World, obs: Observation)
    ensures |CleanupManaged(answers, w, obs).log| == |w.log| + CleanupCalls(obs)
    ensures NoneAnnotated(CleanupManaged(answers, w, obs).pods) <==> AllCleared(answers, w, obs)
  {
    var after := CleanupManaged(answers, w, obs);
    if obs.selectorValid && obs.listed.Some? {
      CleanupResult(answers, w, obs.listed.value);
      assert forall name | name in w.pods ::
        Annotated(after.pods[name]) <==> Annotated(w.pods[name]) && !Cleared(answers, w, obs.listed.value, name);
    }
  }

  /** Every deletion cycle: no annotation is left iff all annotated pods are cleared; the finalizer goes iff its update
      is accepted, cleared or not; so annotations stay guarded iff the deletion is clean. */
  lemma DeletionCleansIff(answers: Answers, c: Cluster, obs: Observation)
    requires Deletes(c, obs)
    ensures var after := Reconcile(answers, c, obs);
      && (NoneAnnotated(after.world.pods) <==> AllCleared(answers, c.world, obs))
      && (FinalizerHeld(after) <==> !answers(|c.world.log| + CleanupCalls(obs)))
      && (Guarded(after) <==> CleanDeletion(answers, c, obs))
  {
    CleanupManagedResult(answers, c.world, obs);
  }

  /** Without a list, or with an invalid selector, an accepted update gives the finalizer back over pods that all keep
      their annotation. */
  lemma UnlistedDeletionLeavesAll(answers: Answers, c: Cluster, obs: Observation)
    requires Deletes(c, obs) && (!obs.selectorValid || obs.listed.None?) && answers(|c.world.log|)
    ensures var after := Reconcile(answers, c, obs); !FinalizerHeld(after) && after.world.pods == c.world.pods
  {
  }

  /** One rejected patch on an accurate list: the object is gone, the pod still annotated. */
  lemma AnnotationLeftBehind(obs: Observation) returns (answers: Answers, c: Cluster, pods: seq<ListedPod>)
    requires obs.fetched && obs.selectorValid
    ensures Deletes(c, obs) && Guarded(c)
    ensures |pods| == 1 && c.world.pods == map[pods[0].name := pods[0].value]
    ensures var after := Reconcile(answers, c, obs.(listed := Some(pods)));
      after.autoscaler.None? && !NoneAnnotated(after.world.pods) && !Guarded(after)
  {
    var value := PodValue([], map[RECOMMENDATION_KEY := Text("")], true, false);
    pods := [ListedPod("pod", value)];
    answers := n => n != 0;
    var pa := Autoscaler(true, {FINALIZER}, 0, Spec(None, None, None, false, None), FRESH_STATUS);
    c := Cluster(World(map["pod" := value], []), Some(pa));
    assert CallsBefore(pods, 1) == CallsBefore(pods, 0) + 1 == 1;
    assert !Cleared(answers, c.world, pods, "pod");
    var seen := obs.(listed := Some(pods));
    assert "pod" in c.world.pods && Annotated(c.world.pods["pod"]) && !AllCleared(answers, c.world, seen);
    DeletionCleansIff(answers, c, seen);
  }

  /** Pods change only in a cycle during which the finalizer is persisted on the object. */
  lemma PodsChangeUnderFinalizer(answers: Answers, c: Cluster, obs: Observation)
    requires Reconcile(answers, c, obs).world.pods != c.world.pods
    ensures c.autoscaler.Some?
    ensures var pa := c.autoscaler.value;
      if pa.deleting then FINALIZER in pa.finalizers
      else
        && Managed(EnsureFinalizer(answers, c)) && EnsureFinalizer(answers, c).world.pods == c.world.pods
        && Managed(Reconcile(answers, c, obs))
  {
  }
}
