/** Where the resources of stored containers come from, in every mode and under any API answers. */
module Provenance {
  import opened Quantities
  import opened Calculator
  import opened Pods
  import opened ApiTypes
  import opened Metrics
  import opened Updater
  import opened Evaluation
  import opened Settling
  import opened Cycles
  import opened ModeLaws
  import Vpa

  /** The container lists that a pod was stored or listed with. */
  type Bases = set<seq<Container>>

  /** A recommendation that some entry makes for containers of that name. */
  ghost predicate Entered(plan: Plan, wishes: seq<Wish>, name: string, rec: ResourceRecommendation) {
    exists wish, judged | wish in wishes && wish.Name() == name :: Verdict(plan, wish, judged) == Some(rec)
  }

  /** A container of one of the lists, perhaps with a recommendation for its name written over it. */
  ghost predicate Touched(plan: Plan, wishes: seq<Wish>, bases: Bases, d: Container) {
    exists base, c: Container | base in bases && c in base ::
      d == c || (exists rec | Entered(plan, wishes, c.name, rec) :: d == WriteResources(c, rec))
  }

  /** A recommendation that some entry makes, and finds significant, for such a container of that name. */
  ghost predicate Significant(plan: Plan, wishes: seq<Wish>, bases: Bases, name: string, rec: ResourceRecommendation) {
    exists wish, judged: Container |
      wish in wishes && wish.Name() == name == judged.name && Touched(plan, wishes, bases, judged) ::
      Verdict(plan, wish, judged) == Some(rec) && rec.significant
  }

  /** The container as it was, or with a significant recommendation for its name. */
  ghost predicate Justified(plan: Plan, wishes: seq<Wish>, bases: Bases, before: Container, after: Container) {
    || after == before
    || exists rec | Significant(plan, wishes, bases, before.name, rec) :: after == WriteResources(before, rec)
  }

  ghost predicate JustifiedAll(plan: Plan, wishes: seq<Wish>, bases: Bases, before: seq<Container>,
      after: seq<Container>) {
    |after| == |before| && forall i | 0 <= i < |after| :: Justified(plan, wishes, bases, before[i], after[i])
  }

  /** One of the lists, container by container justified. */
  ghost predicate Traceable(plan: Plan, wishes: seq<Wish>, bases: Bases, containers: seq<Container>) {
    exists base | base in bases :: JustifiedAll(plan, wishes, bases, base, containers)
  }

  ghost predicate TraceableBoth(plan: Plan, wishes: seq<Wish>, bases: Bases, name: string, p: Progress) {
    && Traceable(plan, wishes, bases, p.pod.containers)
    && (name in p.world.pods ==> Traceable(plan, wishes, bases, p.world.pods[name].containers))
  }

  lemma BaseIsTraceable(plan: Plan, wishes: seq<Wish>, bases: Bases, base: seq<Container>)
    requires base in bases
    ensures Traceable(plan, wishes, bases, base)
  {
    assert JustifiedAll(plan, wishes, bases, base, base);
  }

  lemma TraceableIsTouched(plan: Plan, wishes: seq<Wish>, bases: Bases, containers: seq<Container>, d: Container)
    requires Traceable(plan, wishes, bases, containers) && d in containers
    ensures Touched(plan, wishes, bases, d)
  {
    var base: seq<Container> :| base in bases && JustifiedAll(plan, wishes, bases, base, containers);
    var i :| 0 <= i < |containers| && containers[i] == d;
    assert Justified(plan, wishes, bases, base[i], d);
    assert base[i] in base;
    if d != base[i] {
      var rec :| Significant(plan, wishes, bases, base[i].name, rec) && d == WriteResources(base[i], rec);
      SignificantIsEntered(plan, wishes, bases, base[i].name, rec);
    }
  }

  lemma SignificantIsEntered(plan: Plan, wishes: seq<Wish>, bases: Bases, name: string, rec: ResourceRecommendation)
    requires Significant(plan, wishes, bases, name, rec)
    ensures Entered(plan, wishes, name, rec)
  {
  }

  lemma OverwriteIsWrite(c: Container, first: ResourceRecommendation, second: ResourceRecommendation)
    ensures WriteResources(WriteResources(c, first), second) == WriteResources(c, second)
    ensures WriteResources(c, first).name == c.name
  {
  }

  /** Writing over a justified container is writing over the original. */
  lemma JustifiedAgain(plan: Plan, wishes: seq<Wish>, bases: Bases, before: Container, mid: Container,
      rec: ResourceRecommendation)
    requires Justified(plan, wishes, bases, before, mid) && Significant(plan, wishes, bases, mid.name, rec)
    ensures Justified(plan, wishes, bases, before, WriteResources(mid, rec))
  {
    if mid != before {
      var first :| Significant(plan, wishes, bases, before.name, first) && mid == WriteResources(before, first);
      OverwriteIsWrite(before, first, rec);
    }
  }

  /** The resize of a traceable copy is traceable. */
  lemma ResizedIsTraceable(plan: Plan, wishes: seq<Wish>, bases: Bases, pod: PodValue, rec: ResourceRecommendation)
    requires Traceable(plan, wishes, bases, pod.containers) && Significant(plan, wishes, bases, rec.name, rec)
    requires Resized(pod, rec).Some?
    ensures Traceable(plan, wishes, bases, Resized(pod, rec).value.containers)
  {
    var base: seq<Container> :| base in bases && JustifiedAll(plan, wishes, bases, base, pod.containers);
    var k := FirstNamed(pod.containers, rec.name, 0);
    assert Justified(plan, wishes, bases, base[k], pod.containers[k]);
    JustifiedAgain(plan, wishes, bases, base[k], pod.containers[k], rec);
    assert JustifiedAll(plan, wishes, bases, base, pod.containers[k := WriteResources(pod.containers[k], rec)]);
  }

  /** A patch stores either the stored containers or those of the changed copy. */
  lemma PatchIsTraceable(plan: Plan, wishes: seq<Wish>, bases: Bases, answers: Answers, w: World, kind: CallKind,
      name: string, base: PodValue, changed: PodValue)
    requires Traceable(plan, wishes, bases, changed.containers)
    requires name in w.pods ==> Traceable(plan, wishes, bases, w.pods[name].containers)
    ensures var o := Patch(answers, w, kind, name, base, changed);
      && Traceable(plan, wishes, bases, o.pod.containers)
      && (name in o.world.pods ==> Traceable(plan, wishes, bases, o.world.pods[name].containers))
  {
  }

  lemma InPlaceIsTraceable(plan: Plan, wishes: seq<Wish>, bases: Bases, answers: Answers, w: World, name: string,
      pod: PodValue, rec: ResourceRecommendation)
    requires Traceable(plan, wishes, bases, pod.containers) && Significant(plan, wishes, bases, rec.name, rec)
    requires name in w.pods ==> Traceable(plan, wishes, bases, w.pods[name].containers)
    ensures var o := ApplyInPlace(answers, w, name, pod, rec);
      && Traceable(plan, wishes, bases, o.pod.containers)
      && (name in o.world.pods ==> Traceable(plan, wishes, bases, o.world.pods[name].containers))
  {
    var resized := Resized(pod, rec);
    if resized.Some? {
      ResizedIsTraceable(plan, wishes, bases, pod, rec);
      PatchIsTraceable(plan, wishes, bases, answers, w, Resize, name, pod, resized.value);
    }
  }

  lemma EvictionIsTraceable(plan: Plan, wishes: seq<Wish>, bases: Bases, answers: Answers, w: World, name: string,
      pod: PodValue, rec: ResourceRecommendation)
    requires Traceable(plan, wishes, bases, pod.containers)
    requires name in w.pods ==> Traceable(plan, wishes, bases, w.pods[name].containers)
    ensures var o := ApplyViaEviction(answers, w, name, pod, rec);
      && Traceable(plan, wishes, bases, o.pod.containers)
      && (name in o.world.pods ==> Traceable(plan, wishes, bases, o.world.pods[name].containers))
  {
    PatchIsTraceable(plan, wishes, bases, answers, w, Annotate, name, pod, WithAnnotation(pod, rec));
  }

  lemma CommitIsTraceable(plan: Plan, wishes: seq<Wish>, bases: Bases, answers: Answers, name: string, p: Progress,
      rec: ResourceRecommendation)
    requires TraceableBoth(plan, wishes, bases, name, p)
    requires rec.significant ==> Significant(plan, wishes, bases, rec.name, rec)
    ensures TraceableBoth(plan, wishes, bases, name, Commit(plan, answers, name, p, rec))
  {
    if rec.significant && !plan.dryRun {
      if plan.mode in {Auto, InPlace} {
        InPlaceIsTraceable(plan, wishes, bases, answers, p.world, name, p.pod, rec);
      }
      if plan.mode.Recreate? {
        EvictionIsTraceable(plan, wishes, bases, answers, p.world, name, p.pod, rec);
      }
      if plan.mode.Auto? {
        var o := ApplyInPlace(answers, p.world, name, p.pod, rec);
        EvictionIsTraceable(plan, wishes, bases, answers, o.world, name, o.pod, rec);
      }
    }
  }

  /** What an entry says of a container that was stored or listed. */
  lemma VerdictIsSignificant(plan: Plan, wishes: seq<Wish>, bases: Bases, wish: Wish, judged: Container)
    requires wish in wishes && judged.name == wish.Name() && Touched(plan, wishes, bases, judged)
    requires Verdict(plan, wish, judged).Some?
    ensures var rec := Verdict(plan, wish, judged).value;
      rec.name == wish.Name() && (rec.significant ==> Significant(plan, wishes, bases, rec.name, rec))
  {
    assert Verdict(plan, wish, judged).value.name == wish.Name();
  }

  /** Every allocation is that of some container of its name. */
  lemma {:induction false} AllocationSource(containers: seq<Container>, name: string) returns (d: Container)
    requires name in Allocations(containers)
    ensures d in containers && d.name == name && ReadResources(d) == Allocations(containers)[name]
  {
    d := containers[|containers| - 1];
    if d.name != name {
      d := AllocationSource(containers[..|containers| - 1], name);
    }
  }

  lemma {:induction false} OwnLoopIsTraceable(plan: Plan, wishes: seq<Wish>, bases: Bases, answers: Answers,
      name: string, listed: seq<Container>, p: Progress, ms: seq<ContainerMetrics>)
    requires TraceableBoth(plan, wishes, bases, name, p) && listed in bases
    requires forall m | m in ms :: Measured(m) in wishes
    ensures TraceableBoth(plan, wishes, bases, name, OwnLoop(plan, answers, name, Allocations(listed), p, ms))
    decreases |ms|
  {
    if ms != [] {
      var rest, m := ms[..|ms| - 1], ms[|ms| - 1];
      OwnLoopIsTraceable(plan, wishes, bases, answers, name, listed, p, rest);
      var q := OwnLoop(plan, answers, name, Allocations(listed), p, rest);
      if m.name in Allocations(listed) && OwnProposal(plan, m, Allocations(listed)[m.name]).Some? {
        var judged := AllocationSource(listed, m.name);
        var proposal := OwnProposal(plan, m, Allocations(listed)[m.name]).value;
        BaseIsTraceable(plan, wishes, bases, listed);
        TraceableIsTouched(plan, wishes, bases, listed, judged);
        VerdictIsSignificant(plan, wishes, bases, Measured(m), judged);
        CommitIsTraceable(plan, wishes, bases, answers, name,
          q.(reasons := q.reasons + ReasonsBy(plan.policy, proposal)), ClampedBy(plan.policy, proposal));
      }
    }
  }

  lemma {:induction false} VpaLoopIsTraceable(plan: Plan, wishes: seq<Wish>, bases: Bases, answers: Answers,
      name: string, p: Progress, recs: seq<Vpa.ContainerRecommendation>)
    requires TraceableBoth(plan, wishes, bases, name, p)
    requires forall rec | rec in recs :: Recommended(rec) in wishes
    ensures TraceableBoth(plan, wishes, bases, name, VpaLoop(plan, answers, name, p, recs))
    decreases |recs|
  {
    if recs != [] {
      var rest, rec := recs[..|recs| - 1], recs[|recs| - 1];
      VpaLoopIsTraceable(plan, wishes, bases, answers, name, p, rest);
      VpaStepIsTraceable(plan, wishes, bases, answers, name, VpaLoop(plan, answers, name, p, rest), rec);
    }
  }

  lemma VpaStepIsTraceable(plan: Plan, wishes: seq<Wish>, bases: Bases, answers: Answers, name: string, q: Progress,
      rec: Vpa.ContainerRecommendation)
    requires TraceableBoth(plan, wishes, bases, name, q) && Recommended(rec) in wishes
    ensures TraceableBoth(plan, wishes, bases, name, VpaStep(plan, answers, name, q, rec))
  {
    if rec.containerName in Allocations(q.pod.containers) {
      var judged := AllocationSource(q.pod.containers, rec.containerName);
      TraceableIsTouched(plan, wishes, bases, q.pod.containers, judged);
      KnownEntryJudged(plan, rec, judged, Allocations(q.pod.containers));
      VerdictIsSignificant(plan, wishes, bases, Recommended(rec), judged);
      CommitIsTraceable(plan, wishes, bases, answers, name,
        q.(reasons := q.reasons + ReasonsBy(plan.policy, VpaProposal(rec, plan.constraints))),
        Verdict(plan, Recommended(rec), judged).value);
    } else {
      UnknownEntrySkipped(plan, answers, name, q, rec);
    }
  }

  lemma PodIsTraceable(plan: Plan, bases: Bases, answers: Answers, source: Source, w: World, pod: ListedPod)
    requires pod.value.containers in bases
    requires pod.name in w.pods ==>
      Traceable(plan, WishesFor(source, pod.name), bases, w.pods[pod.name].containers)
    ensures var after := EvaluatePod(plan, answers, source, w, pod).world;
      pod.name in after.pods ==> Traceable(plan, WishesFor(source, pod.name), bases, after.pods[pod.name].containers)
  {
    var wishes, start := WishesFor(source, pod.name), Progress(w, pod.value, [], 0, []);
    BaseIsTraceable(plan, wishes, bases, pod.value.containers);
    match source
    case FromVpa(recs) =>
      assert forall i | 0 <= i < |recs| :: wishes[i] == Recommended(recs[i]);
      VpaLoopIsTraceable(plan, wishes, bases, answers, pod.name, start, recs);
    case OwnAlgorithm(metrics) =>
      if pod.name in metrics {
        assert forall i | 0 <= i < |metrics[pod.name]| :: wishes[i] == Measured(metrics[pod.name][i]);
        OwnLoopIsTraceable(plan, wishes, bases, answers, pod.name, pod.value.containers, start, metrics[pod.name]);
      }
  }

  /** In every mode, whatever calls fail and however stale the list: the containers that a cycle leaves stored are
      those of the pod as stored before or as listed, each unchanged or with a significant recommendation for its
      name written over it. */
  lemma {:induction false} CycleIsTraceable(plan: Plan, bases: Bases, answers: Answers, source: Source, w: World,
      pods: seq<ListedPod>, name: string)
    requires name in w.pods && w.pods[name].containers in bases
    requires forall i | 0 <= i < |pods| && pods[i].name == name :: pods[i].value.containers in bases
    ensures var after := CycleLoop(plan, answers, source, w, pods).world.pods;
      name in after && Traceable(plan, WishesFor(source, name), bases, after[name].containers)
    decreases |pods|
  {
    if pods == [] {
      BaseIsTraceable(plan, WishesFor(source, name), bases, w.pods[name].containers);
    } else {
      var rest, last := pods[..|pods| - 1], pods[|pods| - 1];
      CycleIsTraceable(plan, bases, answers, source, w, rest, name);
      var mid := CycleLoop(plan, answers, source, w, rest).world;
      PodRespectsMode(plan, answers, source, mid, last);
      if last.name == name {
        PodIsTraceable(plan, bases, answers, source, mid, last);
      }
    }
  }
}
