/** What each update mode may do to stored pods, under any API answers and any copies of the pods. */
module ModeLaws {
  import opened Quantities
  import opened Calculator
  import opened Pods
  import opened ApiTypes
  import opened Metrics
  import opened Updater
  import opened Evaluation
  import Settling
  import Vpa

  /** What an eviction, tried or done, leaves: every other annotation stays, the own one changes to a recommendation
      only, and a pod once terminating stays so. */
  predicate EvictionAllows(before: PodValue, after: PodValue) {
    && after.running == before.running && (before.terminating ==> after.terminating)
    && after.annotations - {RECOMMENDATION_KEY} == before.annotations - {RECOMMENDATION_KEY}
    && (after.annotations != before.annotations ==>
          Annotated(after) && after.annotations[RECOMMENDATION_KEY].SerializedRecommendation?)
  }

  /** InPlace changes containers only, Recreate never changes them but may evict, Auto may do both, Off and unknown
      modes change nothing. */
  predicate ModeAllows(mode: UpdateMode, before: PodValue, after: PodValue) {
    match mode
    case InPlace => after == before.(containers := after.containers)
    case Recreate => after.containers == before.containers && EvictionAllows(before, after)
    case Auto => EvictionAllows(before, after)
    case Off => after == before
    case UnknownMode(_) => after == before
  }

  /** No pod appears or disappears, other pods are unchanged, and the named pod changes as the mode allows. */
  predicate Respects(mode: UpdateMode, name: string, before: map<string, PodValue>, after: map<string, PodValue>) {
    && after.Keys == before.Keys
    && (forall other | other in before && other != name :: after[other] == before[other])
    && (name in before ==> ModeAllows(mode, before[name], after[name]))
  }

  lemma InPlaceRespects(answers: Answers, w: World, name: string, pod: PodValue, rec: ResourceRecommendation)
    ensures Respects(InPlace, name, w.pods, ApplyInPlace(answers, w, name, pod, rec).world.pods)
  {
  }

  lemma AnnotationRespects(answers: Answers, w: World, name: string, pod: PodValue, rec: ResourceRecommendation)
    ensures var patched := Patch(answers, w, Annotate, name, pod, WithAnnotation(pod, rec));
      Respects(Recreate, name, w.pods, patched.world.pods)
  {
    if name in w.pods {
      AnnotatingPatch(w.pods[name], pod, rec);
    }
  }

  lemma AnnotatingPatch(stored: PodValue, base: PodValue, rec: ResourceRecommendation)
    ensures var after := MergePatch(stored, base, WithAnnotation(base, rec));
      after == stored.(annotations := after.annotations) && EvictionAllows(stored, after)
  {
  }

  lemma EvictRespects(answers: Answers, w: World, name: string, pod: PodValue)
    ensures Respects(Recreate, name, w.pods, Evict(answers, w, name, pod).world.pods)
  {
  }

  lemma EvictionRespects(answers: Answers, w: World, name: string, pod: PodValue, rec: ResourceRecommendation)
    ensures Respects(Recreate, name, w.pods, ApplyViaEviction(answers, w, name, pod, rec).world.pods)
  {
    var patched := Patch(answers, w, Annotate, name, pod, WithAnnotation(pod, rec));
    AnnotationRespects(answers, w, name, pod, rec);
    EvictRespects(answers, patched.world, name, patched.pod);
    if patched.ok {
      var after := Evict(answers, patched.world, name, patched.pod).world.pods;
      RespectsTransitive(Recreate, name, w.pods, patched.world.pods, after);
    }
  }

  lemma ApplyRespectsMode(answers: Answers, w: World, name: string, pod: PodValue, rec: ResourceRecommendation,
      mode: UpdateMode)
    ensures Respects(mode, name, w.pods, Apply(answers, w, name, pod, rec, mode).world.pods)
  {
    if mode.InPlace? || mode.Auto? {
      InPlaceRespects(answers, w, name, pod, rec);
    }
    if mode.Recreate? {
      EvictionRespects(answers, w, name, pod, rec);
    }
    if mode.Auto? {
      var o := ApplyInPlace(answers, w, name, pod, rec);
      EvictionRespects(answers, o.world, name, o.pod, rec);
    }
  }

  lemma RespectsTransitive(mode: UpdateMode, name: string, x: map<string, PodValue>, y: map<string, PodValue>,
      z: map<string, PodValue>)
    requires Respects(mode, name, x, y) && Respects(mode, name, y, z)
    ensures Respects(mode, name, x, z)
  {
  }

  lemma CommitRespectsMode(plan: Plan, answers: Answers, name: string, before: map<string, PodValue>, p: Progress,
      rec: ResourceRecommendation)
    requires Respects(plan.mode, name, before, p.world.pods)
    ensures Respects(plan.mode, name, before, Commit(plan, answers, name, p, rec).world.pods)
  {
    if rec.significant && !plan.dryRun {
      ApplyRespectsMode(answers, p.world, name, p.pod, rec, plan.mode);
      RespectsTransitive(plan.mode, name, before, p.world.pods, Commit(plan, answers, name, p, rec).world.pods);
    }
  }

  lemma {:induction false} OwnLoopRespectsMode(plan: Plan, answers: Answers, name: string,
      allocations: map<string, ContainerResources>, p: Progress, ms: seq<ContainerMetrics>)
    ensures Respects(plan.mode, name, p.world.pods, OwnLoop(plan, answers, name, allocations, p, ms).world.pods)
    decreases |ms|
  {
    if ms != [] {
      var rest, m := ms[..|ms| - 1], ms[|ms| - 1];
      OwnLoopRespectsMode(plan, answers, name, allocations, p, rest);
      var q := OwnLoop(plan, answers, name, allocations, p, rest);
      if m.name in allocations && OwnProposal(plan, m, allocations[m.name]).Some? {
        var proposal := OwnProposal(plan, m, allocations[m.name]).value;
        q := q.(reasons := q.reasons + ReasonsBy(plan.policy, proposal));
        CommitRespectsMode(plan, answers, name, p.world.pods, q, ClampedBy(plan.policy, proposal));
      }
    }
  }

  lemma {:induction false} VpaLoopRespectsMode(plan: Plan, answers: Answers, name: string, p: Progress,
      recs: seq<Vpa.ContainerRecommendation>)
    ensures Respects(plan.mode, name, p.world.pods, VpaLoop(plan, answers, name, p, recs).world.pods)
    decreases |recs|
  {
    if recs != [] {
      var rest, rec := recs[..|recs| - 1], recs[|recs| - 1];
      VpaLoopRespectsMode(plan, answers, name, p, rest);
      var q := VpaLoop(plan, answers, name, p, rest);
      var proposal := VpaProposal(rec, plan.constraints);
      q := q.(reasons := q.reasons + ReasonsBy(plan.policy, proposal));
      CommitRespectsMode(plan, answers, name, p.world.pods, q,
        VpaJudged(plan, ClampedBy(plan.policy, proposal), Allocations(q.pod.containers)));
    }
  }

  predicate Lists(pods: seq<ListedPod>, name: string) {
    exists i | 0 <= i < |pods| :: pods[i].name == name
  }

  predicate CycleRespects(mode: UpdateMode, pods: seq<ListedPod>, before: map<string, PodValue>,
      after: map<string, PodValue>) {
    && after.Keys == before.Keys
    && forall name | name in before ::
      if Lists(pods, name) then ModeAllows(mode, before[name], after[name]) else after[name] == before[name]
  }

  lemma CycleRespectsSnoc(mode: UpdateMode, rest: seq<ListedPod>, last: ListedPod, x: map<string, PodValue>,
      y: map<string, PodValue>, z: map<string, PodValue>)
    requires CycleRespects(mode, rest, x, y) && Respects(mode, last.name, y, z)
    ensures CycleRespects(mode, rest + [last], x, z)
  {
    var pods := rest + [last];
    forall name | name in x
      ensures if Lists(pods, name) then ModeAllows(mode, x[name], z[name]) else z[name] == x[name]
    {
      ListsSnoc(rest, last, name);
    }
  }

  lemma ListsSnoc(rest: seq<ListedPod>, last: ListedPod, name: string)
    ensures Lists(rest + [last], name) <==> Lists(rest, name) || last.name == name
  {
    var pods := rest + [last];
    assert pods[|rest|] == last;
    assert forall i | 0 <= i < |rest| :: pods[i] == rest[i];
  }

  lemma PodRespectsMode(plan: Plan, answers: Answers, source: Source, w: World, pod: ListedPod)
    ensures Respects(plan.mode, pod.name, w.pods, EvaluatePod(plan, answers, source, w, pod).world.pods)
  {
    var start := Progress(w, pod.value, [], 0, []);
    match source
    case FromVpa(recs) => VpaLoopRespectsMode(plan, answers, pod.name, start, recs);
    case OwnAlgorithm(metrics) =>
      if pod.name in metrics {
        OwnLoopRespectsMode(plan, answers, pod.name, Allocations(pod.value.containers), start, metrics[pod.name]);
      }
  }

  /** A cycle changes listed pods only, and those only as its mode allows, whatever calls fail. */
  lemma {:induction false} CycleRespectsMode(plan: Plan, answers: Answers, source: Source, w: World,
      pods: seq<ListedPod>)
    ensures CycleRespects(plan.mode, pods, w.pods, CycleLoop(plan, answers, source, w, pods).world.pods)
    decreases |pods|
  {
    if pods != [] {
      var rest, last := pods[..|pods| - 1], pods[|pods| - 1];
      assert pods == rest + [last];
      CycleRespectsMode(plan, answers, source, w, rest);
      var mid := CycleLoop(plan, answers, source, w, rest).world;
      PodRespectsMode(plan, answers, source, mid, last);
      CycleRespectsSnoc(plan.mode, rest, last, w.pods, mid.pods, CycleLoop(plan, answers, source, w, pods).world.pods);
    }
  }

  // ---- A failed in-place patch is not undone in the copy ----

  /** The resize of one container, rejected by the API server, is stored after all by the next successful patch
      of another container, because the copy kept it and a merge patch carries the whole container list. Only a
      patch that changes nothing leaves it out. */
  lemma RejectedResizeRidesAlong(answers: Answers, w: World, name: string, pod: PodValue,
      first: ResourceRecommendation, second: ResourceRecommendation, i: nat, j: nat)
    requires name in w.pods && w.pods[name] == pod && DistinctNames(pod.containers)
    requires i < |pod.containers| && j < |pod.containers| && i != j
    requires pod.containers[i].name == first.name && pod.containers[j].name == second.name
    requires !answers(|w.log|) && answers(|w.log| + 1)
    ensures var rejected := ApplyInPlace(answers, w, name, pod, first);
      var accepted := ApplyInPlace(answers, rejected.world, name, rejected.pod, second);
      var resized := WriteResources(pod.containers[j], second);
      && !rejected.ok && rejected.world.pods == w.pods && accepted.ok
      && accepted.world.pods[name].containers ==
          if resized == pod.containers[j] then pod.containers
          else pod.containers[i := WriteResources(pod.containers[i], first)][j := resized]
  {
    assert FirstNamed(pod.containers, first.name, 0) == i;
    var copy := pod.(containers := pod.containers[i := WriteResources(pod.containers[i], first)]);
    Settling.SameFirstNamed(copy.containers, pod.containers, second.name, 0);
    assert FirstNamed(pod.containers, second.name, 0) == j;
    if WriteResources(pod.containers[j], second) == pod.containers[j] {
      assert copy.containers[j := WriteResources(pod.containers[j], second)] == copy.containers;
    } else {
      assert copy.containers[j := WriteResources(pod.containers[j], second)][j] != copy.containers[j];
    }
  }
}
