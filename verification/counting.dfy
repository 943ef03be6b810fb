/** What totalAdjustments counts in each mode, under any API answers and any list of pods. */
module Counting {
  import opened Quantities
  import opened Calculator
  import opened NamespaceLimits
  import opened Pods
  import opened ApiTypes
  import opened Metrics
  import opened Updater
  import opened Evaluation
  import opened Settling
  import opened Cycles
  import opened CycleSafety
  import Vpa

  // ---- Every mode but Off counts what the API server accepted ----

  /** Calls of a kind with a given answer. */
  function CountOf(log: seq<Call>, call: Call): nat {
    if log == [] then 0 else CountOf(log[..|log| - 1], call) + (if log[|log| - 1] == call then 1 else 0)
  }

  function Gained(before: seq<Call>, after: seq<Call>, kind: CallKind, accepted: bool): int {
    CountOf(after, Call(kind, accepted)) - CountOf(before, Call(kind, accepted))
  }

  /** Accepted calls that put a recommendation into force: resizes and evictions. */
  function Applications(before: seq<Call>, after: seq<Call>): int {
    Gained(before, after, Resize, true) + Gained(before, after, Eviction, true)
  }

  /** The calls a mode makes, and what it counts. An eviction is tried exactly after an accepted annotation. */
  predicate Tallied(mode: UpdateMode, before: seq<Call>, after: seq<Call>, adjustments: nat) {
    && Gained(before, after, Eviction, true) + Gained(before, after, Eviction, false) ==
       Gained(before, after, Annotate, true)
    && (!mode.Off? ==> adjustments == Applications(before, after))
    && (mode.InPlace? ==> Gained(before, after, Annotate, true) == Gained(before, after, Annotate, false) == 0)
    && (mode.Recreate? ==> Gained(before, after, Resize, true) == Gained(before, after, Resize, false) == 0)
    && (mode.Off? || mode.UnknownMode? ==> after == before)
  }

  lemma CountOfSnoc(log: seq<Call>, call: Call, other: Call)
    ensures CountOf(log + [call], other) == CountOf(log, other) + (if call == other then 1 else 0)
  {
    assert (log + [call])[..|log|] == log;
  }

  /** One more call. */
  lemma GainedByCall(log: seq<Call>, call: Call)
    ensures forall kind, accepted ::
      Gained(log, log + [call], kind, accepted) == if call == Call(kind, accepted) then 1 else 0
  {
    forall kind, accepted
      ensures Gained(log, log + [call], kind, accepted) == if call == Call(kind, accepted) then 1 else 0
    {
      CountOfSnoc(log, call, Call(kind, accepted));
    }
  }

  lemma ResizeTallied(answers: Answers, w: World, name: string, pod: PodValue, rec: ResourceRecommendation)
    ensures var o := ApplyInPlace(answers, w, name, pod, rec);
      Tallied(InPlace, w.log, o.world.log, if o.ok then 1 else 0)
  {
    GainedByCall(w.log, Call(Resize, true));
    GainedByCall(w.log, Call(Resize, false));
  }

  lemma EvictionTallied(answers: Answers, w: World, name: string, pod: PodValue, rec: ResourceRecommendation)
    ensures var o := ApplyViaEviction(answers, w, name, pod, rec);
      Tallied(Recreate, w.log, o.world.log, if o.ok then 1 else 0)
  {
    GainedByCall(w.log, Call(Annotate, true));
    GainedByCall(w.log, Call(Annotate, false));
    GainedByCall(w.log + [Call(Annotate, true)], Call(Eviction, true));
    GainedByCall(w.log + [Call(Annotate, true)], Call(Eviction, false));
  }

  lemma ApplyTallied(answers: Answers, w: World, name: string, pod: PodValue, rec: ResourceRecommendation,
      mode: UpdateMode)
    ensures var a := Apply(answers, w, name, pod, rec, mode);
      Tallied(mode, w.log, a.world.log, if a.strategy.Some? then 1 else 0)
  {
    match mode {
      case InPlace => ResizeTallied(answers, w, name, pod, rec);
      case Recreate => EvictionTallied(answers, w, name, pod, rec);
      case Auto =>
        ResizeTallied(answers, w, name, pod, rec);
        var o := ApplyInPlace(answers, w, name, pod, rec);
        EvictionTallied(answers, o.world, name, o.pod, rec);
      case Off =>
      case UnknownMode(_) =>
    }
  }

  lemma CommitTallied(plan: Plan, answers: Answers, name: string, log: seq<Call>, p: Progress,
      rec: ResourceRecommendation)
    requires Tallied(plan.mode, log, p.world.log, p.adjustments)
    ensures var q := Commit(plan, answers, name, p, rec); Tallied(plan.mode, log, q.world.log, q.adjustments)
  {
    ApplyTallied(answers, p.world, name, p.pod, rec, plan.mode);
  }

  lemma {:induction false} OwnLoopTallied(plan: Plan, answers: Answers, name: string,
      allocations: map<string, ContainerResources>, p: Progress, ms: seq<ContainerMetrics>)
    requires p.adjustments == 0
    ensures var q := OwnLoop(plan, answers, name, allocations, p, ms);
      Tallied(plan.mode, p.world.log, q.world.log, q.adjustments)
    decreases |ms|
  {
    if ms != [] {
      var rest, m := ms[..|ms| - 1], ms[|ms| - 1];
      OwnLoopTallied(plan, answers, name, allocations, p, rest);
      var q := OwnLoop(plan, answers, name, allocations, p, rest);
      if m.name in allocations && OwnProposal(plan, m, allocations[m.name]).Some? {
        var proposal := OwnProposal(plan, m, allocations[m.name]).value;
        q := q.(reasons := q.reasons + ReasonsBy(plan.policy, proposal));
        CommitTallied(plan, answers, name, p.world.log, q, ClampedBy(plan.policy, proposal));
      }
    }
  }

  lemma {:induction false} VpaLoopTallied(plan: Plan, answers: Answers, name: string, p: Progress,
      recs: seq<Vpa.ContainerRecommendation>)
    requires p.adjustments == 0
    ensures var q := VpaLoop(plan, answers, name, p, recs);
      Tallied(plan.mode, p.world.log, q.world.log, q.adjustments)
    decreases |recs|
  {
    if recs != [] {
      var rest, rec := recs[..|recs| - 1], recs[|recs| - 1];
      VpaLoopTallied(plan, answers, name, p, rest);
      var q := VpaLoop(plan, answers, name, p, rest);
      var proposal := VpaProposal(rec, plan.constraints);
      q := q.(reasons := q.reasons + ReasonsBy(plan.policy, proposal));
      CommitTallied(plan, answers, name, p.world.log, q,
        VpaJudged(plan, ClampedBy(plan.policy, proposal), Allocations(q.pod.containers)));
    }
  }

  lemma PodTallied(plan: Plan, answers: Answers, source: Source, w: World, pod: ListedPod)
    ensures var p := EvaluatePod(plan, answers, source, w, pod); Tallied(plan.mode, w.log, p.world.log, p.adjustments)
  {
    var start := Progress(w, pod.value, [], 0, []);
    match source
    case FromVpa(recs) => VpaLoopTallied(plan, answers, pod.name, start, recs);
    case OwnAlgorithm(metrics) =>
      if pod.name in metrics {
        OwnLoopTallied(plan, answers, pod.name, Allocations(pod.value.containers), start, metrics[pod.name]);
      }
  }

  lemma TalliedTogether(mode: UpdateMode, x: seq<Call>, y: seq<Call>, z: seq<Call>, first: nat, second: nat)
    requires Tallied(mode, x, y, first) && Tallied(mode, y, z, second)
    ensures Tallied(mode, x, z, first + second)
  {
  }

  /** In every mode but Off a cycle counts exactly the resizes and evictions that the API server accepted: resizes
      only in mode InPlace, evictions only in mode Recreate. */
  lemma {:induction false} CycleTallied(plan: Plan, answers: Answers, source: Source, w: World, pods: seq<ListedPod>)
    ensures var c := CycleLoop(plan, answers, source, w, pods);
      Tallied(plan.mode, w.log, c.world.log, c.adjustments)
    decreases |pods|
  {
    if pods != [] {
      var rest, last := pods[..|pods| - 1], pods[|pods| - 1];
      CycleTallied(plan, answers, source, w, rest);
      var c := CycleLoop(plan, answers, source, w, rest);
      PodTallied(plan, answers, source, c.world, last);
      var p := EvaluatePod(plan, answers, source, c.world, last);
      TalliedTogether(plan.mode, w.log, c.world.log, p.world.log, c.adjustments, p.adjustments);
    }
  }

  // ---- In mode InPlace every call counts unless it fails ----

  /** Number of successful answers between two points. */
  function Successes(answers: Answers, from: nat, until: nat): nat
    requires from <= until
    decreases until
  {
    if from == until then 0 else Successes(answers, from, until - 1) + (if answers(until - 1) then 1 else 0)
  }

  lemma {:induction false} SuccessesSplit(answers: Answers, from: nat, mid: nat, until: nat)
    requires from <= mid <= until
    ensures Successes(answers, from, until) == Successes(answers, from, mid) + Successes(answers, mid, until)
    decreases until
  {
    if mid < until {
      SuccessesSplit(answers, from, mid, until - 1);
    }
  }

  /** What holds of a pod loop in mode InPlace: one adjustment for every successful call since its start. */
  predicate Matched(answers: Answers, start: World, p: Progress) {
    && |start.log| <= |p.world.log| && p.world.pods.Keys == start.pods.Keys
    && p.adjustments == Successes(answers, |start.log|, |p.world.log|)
  }

  lemma CommitMatched(plan: Plan, answers: Answers, name: string, start: World, p: Progress,
      rec: ResourceRecommendation)
    requires plan.mode.InPlace? && name in start.pods && Matched(answers, start, p)
    ensures Matched(answers, start, Commit(plan, answers, name, p, rec))
  {
  }

  lemma {:induction false} OwnLoopMatched(plan: Plan, answers: Answers, name: string,
      allocations: map<string, ContainerResources>, start: World, p: Progress, ms: seq<ContainerMetrics>)
    requires plan.mode.InPlace? && name in start.pods && Matched(answers, start, p)
    ensures Matched(answers, start, OwnLoop(plan, answers, name, allocations, p, ms))
    decreases |ms|
  {
    if ms != [] {
      var rest, m := ms[..|ms| - 1], ms[|ms| - 1];
      OwnLoopMatched(plan, answers, name, allocations, start, p, rest);
      var q := OwnLoop(plan, answers, name, allocations, p, rest);
      if m.name in allocations && OwnProposal(plan, m, allocations[m.name]).Some? {
        var proposal := OwnProposal(plan, m, allocations[m.name]).value;
        q := q.(reasons := q.reasons + ReasonsBy(plan.policy, proposal));
        CommitMatched(plan, answers, name, start, q, ClampedBy(plan.policy, proposal));
      }
    }
  }

  lemma {:induction false} VpaLoopMatched(plan: Plan, answers: Answers, name: string, start: World, p: Progress,
      recs: seq<Vpa.ContainerRecommendation>)
    requires plan.mode.InPlace? && name in start.pods && Matched(answers, start, p)
    ensures Matched(answers, start, VpaLoop(plan, answers, name, p, recs))
    decreases |recs|
  {
    if recs != [] {
      var rest, rec := recs[..|recs| - 1], recs[|recs| - 1];
      VpaLoopMatched(plan, answers, name, start, p, rest);
      var q := VpaLoop(plan, answers, name, p, rest);
      var proposal := VpaProposal(rec, plan.constraints);
      q := q.(reasons := q.reasons + ReasonsBy(plan.policy, proposal));
      CommitMatched(plan, answers, name, start, q,
        VpaJudged(plan, ClampedBy(plan.policy, proposal), Allocations(q.pod.containers)));
    }
  }

  /** In mode InPlace a cycle's adjustments are exactly the API calls answered with success. */
  lemma {:induction false} InPlaceAdjustmentsAreSuccesses(plan: Plan, answers: Answers, source: Source, w: World,
      pods: seq<ListedPod>)
    requires plan.mode.InPlace?
    requires forall i | 0 <= i < |pods| :: pods[i].name in w.pods
    ensures var c := CycleLoop(plan, answers, source, w, pods);
      && |w.log| <= |c.world.log| && c.world.pods.Keys == w.pods.Keys
      && c.adjustments == Successes(answers, |w.log|, |c.world.log|)
    decreases |pods|
  {
    if pods != [] {
      var rest, last := pods[..|pods| - 1], pods[|pods| - 1];
      InPlaceAdjustmentsAreSuccesses(plan, answers, source, w, rest);
      var c := CycleLoop(plan, answers, source, w, rest);
      assert last.name in c.world.pods;
      var start := Progress(c.world, last.value, [], 0, []);
      match source {
        case FromVpa(recs) => VpaLoopMatched(plan, answers, last.name, c.world, start, recs);
        case OwnAlgorithm(metrics) =>
          if last.name in metrics {
            var allocations := Allocations(last.value.containers);
            OwnLoopMatched(plan, answers, last.name, allocations, c.world, start, metrics[last.name]);
          }
      }
      SuccessesSplit(answers, |w.log|, |c.world.log|, |CycleLoop(plan, answers, source, w, pods).world.log|);
    }
  }

  // ---- Mode Off counts what it would have applied ----

  /** What a pod loop has done in mode Off after the first entries of its list. */
  predicate OnlyCounted(plan: Plan, wishes: seq<Wish>, w: World, pod: PodValue, p: Progress) {
    p.world == w && p.pod == pod && p.adjustments == AdjustmentsDue(plan, wishes, pod.containers)
  }

  lemma {:induction false} OwnLoopOnlyCounts(plan: Plan, answers: Answers, w: World, name: string, pod: PodValue,
      ms: seq<ContainerMetrics>)
    requires plan.mode.Off? && !plan.dryRun && DistinctNames(pod.containers)
    ensures OnlyCounted(plan, MeasuredWishes(ms), w, pod,
      OwnLoop(plan, answers, name, Allocations(pod.containers), Progress(w, pod, [], 0, []), ms))
    decreases |ms|
  {
    if ms != [] {
      var rest, m := ms[..|ms| - 1], ms[|ms| - 1];
      OwnLoopOnlyCounts(plan, answers, w, name, pod, rest);
      assert MeasuredWishes(ms) == MeasuredWishes(rest) + [Measured(m)];
      OwnStepOnlyCounts(plan, answers, MeasuredWishes(rest), m, w, name, pod,
        OwnLoop(plan, answers, name, Allocations(pod.containers), Progress(w, pod, [], 0, []), rest));
    }
  }

  lemma OwnStepOnlyCounts(plan: Plan, answers: Answers, wishes: seq<Wish>, m: ContainerMetrics, w: World,
      name: string, pod: PodValue, p: Progress)
    requires plan.mode.Off? && !plan.dryRun && DistinctNames(pod.containers)
    requires OnlyCounted(plan, wishes, w, pod, p)
    ensures OnlyCounted(plan, wishes + [Measured(m)], w, pod,
      OwnStep(plan, answers, name, Allocations(pod.containers), p, m))
  {
    AdjustmentsDueSnoc(plan, wishes, Measured(m), pod.containers);
    AllocationOfNamed(pod.containers, m.name);
  }

  lemma {:induction false} VpaLoopOnlyCounts(plan: Plan, answers: Answers, w: World, name: string, pod: PodValue,
      recs: seq<Vpa.ContainerRecommendation>)
    requires plan.mode.Off? && !plan.dryRun && DistinctNames(pod.containers)
    ensures OnlyCounted(plan, RecommendedWishes(recs), w, pod,
      VpaLoop(plan, answers, name, Progress(w, pod, [], 0, []), recs))
    decreases |recs|
  {
    if recs != [] {
      var rest, rec := recs[..|recs| - 1], recs[|recs| - 1];
      VpaLoopOnlyCounts(plan, answers, w, name, pod, rest);
      assert RecommendedWishes(recs) == RecommendedWishes(rest) + [Recommended(rec)];
      VpaStepOnlyCounts(plan, answers, RecommendedWishes(rest), rec, w, name, pod,
        VpaLoop(plan, answers, name, Progress(w, pod, [], 0, []), rest));
    }
  }

  lemma VpaStepOnlyCounts(plan: Plan, answers: Answers, wishes: seq<Wish>, rec: Vpa.ContainerRecommendation, w: World,
      name: string, pod: PodValue, p: Progress)
    requires plan.mode.Off? && !plan.dryRun && DistinctNames(pod.containers)
    requires OnlyCounted(plan, wishes, w, pod, p)
    ensures OnlyCounted(plan, wishes + [Recommended(rec)], w, pod, VpaStep(plan, answers, name, p, rec))
  {
    var wish, k := Recommended(rec), FirstNamed(pod.containers, rec.containerName, 0);
    AdjustmentsDueSnoc(plan, wishes, wish, pod.containers);
    AllocationOfNamed(pod.containers, rec.containerName);
    if k == |pod.containers| {
      UnknownEntrySkipped(plan, answers, name, p, rec);
    } else {
      KnownEntryJudged(plan, rec, pod.containers[k], Allocations(pod.containers));
    }
  }

  /** A cycle in mode Off calls nobody, and counts every entry that would adjust its container. */
  lemma {:induction false} OffCountsWhatIsDue(plan: Plan, answers: Answers, source: Source, w: World,
      pods: seq<ListedPod>)
    requires plan.mode.Off? && !plan.dryRun
    requires forall i | 0 <= i < |pods| :: DistinctNames(pods[i].value.containers)
    ensures var c := CycleLoop(plan, answers, source, w, pods);
      c.world == w && c.adjustments == CycleAdjustments(plan, source, pods)
    decreases |pods|
  {
    if pods != [] {
      var rest, last := pods[..|pods| - 1], pods[|pods| - 1];
      OffCountsWhatIsDue(plan, answers, source, w, rest);
      match source {
        case FromVpa(recs) => VpaLoopOnlyCounts(plan, answers, w, last.name, last.value, recs);
        case OwnAlgorithm(metrics) =>
          if last.name in metrics {
            OwnLoopOnlyCounts(plan, answers, w, last.name, last.value, metrics[last.name]);
          }
      }
    }
  }

  /** The entry adjusts the container it names. */
  predicate AdjustsNamed(plan: Plan, wish: Wish, containers: seq<Container>) {
    var k := FirstNamed(containers, wish.Name(), 0);
    k < |containers| && Adjusts(plan, wish, containers[k])
  }

  predicate NoneSignificant(plan: Plan, wishes: seq<Wish>, containers: seq<Container>) {
    forall j | 0 <= j < |wishes| :: !AdjustsNamed(plan, wishes[j], containers)
  }

  predicate NothingSignificant(plan: Plan, source: Source, pods: seq<ListedPod>) {
    forall i | 0 <= i < |pods| ::
      NoneSignificant(plan, WishesFor(source, pods[i].name), pods[i].value.containers)
  }

  lemma {:induction false} NoneDue(plan: Plan, wishes: seq<Wish>, containers: seq<Container>)
    ensures AdjustmentsDue(plan, wishes, containers) == 0 <==> NoneSignificant(plan, wishes, containers)
  {
    if wishes != [] {
      var rest, last := wishes[..|wishes| - 1], wishes[|wishes| - 1];
      NoneDue(plan, rest, containers);
      assert NoneSignificant(plan, wishes, containers) <==>
        NoneSignificant(plan, rest, containers) && !AdjustsNamed(plan, last, containers);
    }
  }

  lemma {:induction false} NoneDueInCycle(plan: Plan, source: Source, pods: seq<ListedPod>)
    ensures CycleAdjustments(plan, source, pods) == 0 <==> NothingSignificant(plan, source, pods)
  {
    if pods != [] {
      var rest, last := pods[..|pods| - 1], pods[|pods| - 1];
      assert pods == rest + [last];
      NothingSignificantSnoc(plan, source, rest, last);
      NoneDueInCycle(plan, source, rest);
      NoneDue(plan, WishesFor(source, last.name), last.value.containers);
    }
  }

  lemma NothingSignificantSnoc(plan: Plan, source: Source, rest: seq<ListedPod>, last: ListedPod)
    ensures NothingSignificant(plan, source, rest + [last]) <==>
      && NothingSignificant(plan, source, rest)
      && NoneSignificant(plan, WishesFor(source, last.name), last.value.containers)
  {
    var pods := rest + [last];
    assert pods[|rest|] == last;
    assert forall i | 0 <= i < |rest| :: pods[i] == rest[i];
  }

  /** The counter is honest, that is equal to the applications in the log: always outside mode Off and in dry runs,
      and otherwise iff no entry is significant for the container it names. */
  lemma CounterHonestIff(plan: Plan, answers: Answers, source: Source, w: World, pods: seq<ListedPod>)
    requires forall i | 0 <= i < |pods| :: DistinctNames(pods[i].value.containers)
    ensures var c := CycleLoop(plan, answers, source, w, pods);
      c.adjustments == Applications(w.log, c.world.log) <==>
        !plan.mode.Off? || plan.dryRun || NothingSignificant(plan, source, pods)
  {
    CycleTallied(plan, answers, source, w, pods);
    if plan.mode.Off? && plan.dryRun {
      CycleHandsOff(plan, answers, source, w, pods);
    } else if plan.mode.Off? {
      OffCountsWhatIsDue(plan, answers, source, w, pods);
      NoneDueInCycle(plan, source, pods);
    }
  }

  /** Mode Off counts adjustments although nothing was adjusted. */
  lemma OffCountsWithoutTouching(answers: Answers, w: World) returns (plan: Plan, source: Source, pods: seq<ListedPod>)
    ensures plan.mode.Off? && !plan.dryRun
    ensures var c := CycleLoop(plan, answers, source, w, pods); c.adjustments > 0 && c.world == w
  {
    plan := Plan(DEFAULT_CONFIG, DEFAULT_CONSTRAINTS, EMPTY_POLICY, false, Off);
    var m := ContainerMetrics("app", 1.0, 1.0);
    var pod := ListedPod("pod", PodValue([Container("app", map[], map[])], map[], true, false));
    source, pods := OwnAlgorithm(map["pod" := [m]]), [pod];
    CycleHandsOff(plan, answers, source, w, pods);
    var allocations := Allocations(pod.value.containers);
    assert pod.value.containers[..0] == [];
    assert "app" in allocations && allocations["app"].cpuRequest == 0.0;
    var start := Progress(w, pod.value, [], 0, []);
    assert [m][..0] == [];
    assert OwnLoop(plan, answers, "pod", allocations, start, []) == start;
    assert OwnStep(plan, answers, "pod", allocations, start, m).adjustments == 1;
    assert OwnLoop(plan, answers, "pod", allocations, start, [m]) ==
      OwnStep(plan, answers, "pod", allocations, start, m);
    assert pods[..0] == [];
    assert EvaluatePod(plan, answers, source, w, pod).adjustments == 1;
    assert CycleLoop(plan, answers, source, w, []) == CycleProgress(w, [], 0, [], true);
  }
}
