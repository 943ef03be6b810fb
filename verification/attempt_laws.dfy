/** Which calls a cycle tries, in every mode and under any API answers: one attempt for every entry that is due. */
module AttemptLaws {
  import opened Quantities
  import opened Calculator
  import opened NamespaceLimits
  import opened Pods
  import opened ApiTypes
  import opened Metrics
  import opened Updater
  import opened UpdaterLaws
  import opened Evaluation
  import opened Settling
  import opened Cycles
  import opened Counting
  import opened Rejections
  import opened ModeLaws
  import Vpa

  predicate Acts(plan: Plan) {
    !plan.dryRun && plan.mode in {Auto, InPlace, Recreate}
  }

  /** Calls of a kind, accepted or not. */
  function Tries(before: seq<Call>, after: seq<Call>, kind: CallKind): int {
    Gained(before, after, kind, true) + Gained(before, after, kind, false)
  }

  /** Every due entry is tried: in modes InPlace and Auto by a resize, in mode Recreate by an annotation, and in mode
      Auto an annotation follows every rejected resize. */
  predicate AllTried(mode: UpdateMode, before: seq<Call>, after: seq<Call>, due: nat) {
    && (mode.InPlace? || mode.Auto? ==> Tries(before, after, Resize) == due)
    && (mode.Recreate? ==> Tries(before, after, Annotate) == due)
    && (mode.Auto? ==> Tries(before, after, Annotate) == Gained(before, after, Resize, false))
  }

  lemma AllTriedTogether(mode: UpdateMode, x: seq<Call>, y: seq<Call>, z: seq<Call>, first: nat, second: nat)
    requires AllTried(mode, x, y, first) && AllTried(mode, y, z, second)
    ensures AllTried(mode, x, z, first + second)
  {
  }

  /** A call of that kind with that answer, if it is made. */
  function WithCall(log: seq<Call>, kind: CallKind, answer: Option<bool>): seq<Call> {
    if answer.Some? then log + [Call(kind, answer.value)] else log
  }

  lemma GainedWithCall(log: seq<Call>, made: CallKind, answer: Option<bool>, kind: CallKind, ok: bool)
    ensures Gained(log, WithCall(log, made, answer), kind, ok) == if kind == made && answer == Some(ok) then 1 else 0
  {
    if answer.Some? {
      CountOfSnoc(log, Call(made, answer.value), Call(kind, ok));
    }
  }

  /** The calls of one attempt: a resize, an annotation, an eviction, as far as they are made. */
  function WithAttempt(log: seq<Call>, resize: Option<bool>, annotate: Option<bool>, evict: Option<bool>): seq<Call> {
    WithCall(WithCall(WithCall(log, Resize, resize), Annotate, annotate), Eviction, evict)
  }

  lemma GainedWithAttempt(log: seq<Call>, resize: Option<bool>, annotate: Option<bool>, evict: Option<bool>,
      kind: CallKind, ok: bool)
    requires kind in {Resize, Annotate, Eviction}
    ensures Gained(log, WithAttempt(log, resize, annotate, evict), kind, ok) ==
      if (if kind == Resize then resize else if kind == Annotate then annotate else evict) == Some(ok) then 1 else 0
  {
    var l1 := WithCall(log, Resize, resize);
    GainedWithCall(log, Resize, resize, kind, ok);
    GainedWithCall(l1, Annotate, annotate, kind, ok);
    GainedWithCall(WithCall(l1, Annotate, annotate), Eviction, evict, kind, ok);
  }

  /** The containers of no earlier entry are as they were. */
  predicate Untouched(wishes: seq<Wish>, before: seq<Container>, now: seq<Container>) {
    && |now| == |before|
    && forall k | 0 <= k < |before| ::
      now[k].name == before[k].name && (NoneNamed(wishes, before[k].name) ==> now[k] == before[k])
  }

  /** The calls an attempt makes in a mode. */
  predicate ProperAttempt(mode: UpdateMode, resize: Option<bool>, annotate: Option<bool>, evict: Option<bool>) {
    && (mode.InPlace? || mode.Auto? ==> resize.Some?)
    && (mode.Recreate? ==> annotate.Some?)
    && (mode.Auto? ==> (annotate.Some? <==> resize == Some(false)))
    && (evict.Some? <==> annotate == Some(true))
  }

  /** These calls are made, and an accepted eviction leaves the pod terminating. */
  predicate MadeCalls(mode: UpdateMode, w: World, name: string, after: World, resize: Option<bool>,
      annotate: Option<bool>, evict: Option<bool>)
    requires name in w.pods && name in after.pods
  {
    && ProperAttempt(mode, resize, annotate, evict) && after.log == WithAttempt(w.log, resize, annotate, evict)
    && (after.pods[name].terminating <==> w.pods[name].terminating || evict == Some(true))
  }

  /** What one attempt with an entry of that name may do to copy and store, and the calls it makes. */
  ghost predicate AttemptedOn(mode: UpdateMode, w: World, name: string, pod: PodValue, rec: ResourceRecommendation,
      after: World, copy: PodValue) {
    && name in w.pods && name in after.pods
    && ChangedAt(pod.containers, copy.containers, w.pods[name].containers, rec.name)
    && ChangedAt(pod.containers, after.pods[name].containers, w.pods[name].containers, rec.name)
    && exists resize: Option<bool>, annotate: Option<bool>, evict: Option<bool> ::
        MadeCalls(mode, w, name, after, resize, annotate, evict)
  }

  /** Containers of other names are those of the copy or those of the store. */
  predicate ChangedAt(copy: seq<Container>, now: seq<Container>, stored: seq<Container>, name: string) {
    || now == stored
    || (|now| == |copy| && forall k | 0 <= k < |copy| ::
          now[k].name == copy[k].name && (copy[k].name != name ==> now[k] == copy[k]))
  }

  lemma FirstWrittenChanges(before: seq<Container>, after: seq<Container>, stored: seq<Container>,
      rec: ResourceRecommendation)
    requires FirstWritten(before, after, rec)
    ensures ChangedAt(before, after, stored, rec.name)
  {
  }

  lemma ResizeAttempted(answers: Answers, w: World, name: string, pod: PodValue, rec: ResourceRecommendation)
    requires name in w.pods && HasContainer(pod, rec.name)
    ensures var a := Apply(answers, w, name, pod, rec, InPlace);
      AttemptedOn(InPlace, w, name, pod, rec, a.world, a.pod)
  {
    InPlaceOutcome(answers, w, name, pod, rec);
    var a, n := Apply(answers, w, name, pod, rec, InPlace), |w.log|;
    assert MadeCalls(InPlace, w, name, a.world, Some(answers(n)), None, None);
  }

  lemma RecreateAttempted(answers: Answers, w: World, name: string, pod: PodValue, rec: ResourceRecommendation)
    requires name in w.pods
    ensures var a := Apply(answers, w, name, pod, rec, Recreate);
      AttemptedOn(Recreate, w, name, pod, rec, a.world, a.pod)
  {
    RecreateOutcome(answers, w, name, pod, rec);
    var a, n := Apply(answers, w, name, pod, rec, Recreate), |w.log|;
    var evict := if answers(n) then Some(answers(n + 1)) else None;
    assert MadeCalls(Recreate, w, name, a.world, None, Some(answers(n)), evict);
  }

  lemma AutoAttempted(answers: Answers, w: World, name: string, pod: PodValue, rec: ResourceRecommendation)
    requires name in w.pods && HasContainer(pod, rec.name)
    ensures var a := Apply(answers, w, name, pod, rec, Auto);
      AttemptedOn(Auto, w, name, pod, rec, a.world, a.pod)
  {
    AutoOutcome(answers, w, name, pod, rec);
    var a, n := Apply(answers, w, name, pod, rec, Auto), |w.log|;
    if answers(n) {
      assert MadeCalls(Auto, w, name, a.world, Some(true), None, None);
    } else {
      var evict := if answers(n + 1) then Some(answers(n + 2)) else None;
      assert MadeCalls(Auto, w, name, a.world, Some(false), Some(answers(n + 1)), evict);
    }
  }

  // ---- A whole pod ----

  /** What a loop has done to one pod after the first entries of its list. */
  ghost predicate Attempted(plan: Plan, wishes: seq<Wish>, w: World, name: string, pod: PodValue, p: Progress) {
    && name in p.world.pods
    && Untouched(wishes, pod.containers, p.pod.containers)
    && Untouched(wishes, pod.containers, p.world.pods[name].containers)
    && AllTried(plan.mode, w.log, p.world.log, AdjustmentsDue(plan, wishes, pod.containers))
    && (p.world.pods[name].terminating <==> pod.terminating || Gained(w.log, p.world.log, Eviction, true) > 0)
    && Gained(w.log, p.world.log, Eviction, true) >= 0
  }

  lemma UntouchedNext(wishes: seq<Wish>, wish: Wish, before: seq<Container>, copy: seq<Container>, now: seq<Container>,
      stored: seq<Container>)
    requires Untouched(wishes, before, copy) && Untouched(wishes, before, stored)
    requires ChangedAt(copy, now, stored, wish.Name())
    ensures Untouched(wishes + [wish], before, now)
  {
    forall k | 0 <= k < |before| && NoneNamed(wishes + [wish], before[k].name)
      ensures NoneNamed(wishes, before[k].name) && wish.Name() != before[k].name
    {
      var all := wishes + [wish];
      assert all[|wishes|] == wish;
      assert forall i | 0 <= i < |wishes| :: all[i] == wishes[i];
    }
  }

  lemma UntouchedStays(wishes: seq<Wish>, wish: Wish, before: seq<Container>, now: seq<Container>)
    requires Untouched(wishes, before, now)
    ensures Untouched(wishes + [wish], before, now)
  {
    UntouchedNext(wishes, wish, before, now, now, now);
  }

  lemma OneTried(mode: UpdateMode, log: seq<Call>, resize: Option<bool>, annotate: Option<bool>, evict: Option<bool>)
    requires ProperAttempt(mode, resize, annotate, evict)
    ensures var after := WithAttempt(log, resize, annotate, evict);
      AllTried(mode, log, after, 1) && Gained(log, after, Eviction, true) == if evict == Some(true) then 1 else 0
  {
    GainedWithAttempt(log, resize, annotate, evict, Resize, true);
    GainedWithAttempt(log, resize, annotate, evict, Resize, false);
    GainedWithAttempt(log, resize, annotate, evict, Annotate, true);
    GainedWithAttempt(log, resize, annotate, evict, Annotate, false);
    GainedWithAttempt(log, resize, annotate, evict, Eviction, true);
  }

  lemma AttemptCounts(plan: Plan, wishes: seq<Wish>, wish: Wish, w: World, name: string, pod: PodValue, p: Progress,
      q: Progress, rec: ResourceRecommendation)
    requires Attempted(plan, wishes, w, name, pod, p) && rec.name == wish.Name()
    requires AdjustsNamed(plan, wish, pod.containers)
    requires AttemptedOn(plan.mode, p.world, name, p.pod, rec, q.world, q.pod)
    ensures Attempted(plan, wishes + [wish], w, name, pod, q)
  {
    var resize: Option<bool>, annotate: Option<bool>, evict: Option<bool> :|
      MadeCalls(plan.mode, p.world, name, q.world, resize, annotate, evict);
    OneTried(plan.mode, p.world.log, resize, annotate, evict);
    DueNext(plan, wishes, wish, pod.containers);
    AllTriedTogether(plan.mode, w.log, p.world.log, q.world.log, AdjustmentsDue(plan, wishes, pod.containers), 1);
    var stored := p.world.pods[name].containers;
    UntouchedNext(wishes, wish, pod.containers, p.pod.containers, q.pod.containers, stored);
    UntouchedNext(wishes, wish, pod.containers, p.pod.containers, q.world.pods[name].containers, stored);
  }

  lemma SkipAttempted(plan: Plan, wishes: seq<Wish>, wish: Wish, w: World, name: string, pod: PodValue, p: Progress)
    requires Attempted(plan, wishes, w, name, pod, p) && !AdjustsNamed(plan, wish, pod.containers)
    ensures Attempted(plan, wishes + [wish], w, name, pod, p)
  {
    DueNext(plan, wishes, wish, pod.containers);
    UntouchedStays(wishes, wish, pod.containers, p.pod.containers);
    UntouchedStays(wishes, wish, pod.containers, p.world.pods[name].containers);
  }

  lemma CommitAttempts(plan: Plan, answers: Answers, wishes: seq<Wish>, wish: Wish, w: World, name: string,
      pod: PodValue, p: Progress)
    requires Acts(plan) && Attempted(plan, wishes, w, name, pod, p)
    requires var k := FirstNamed(pod.containers, wish.Name(), 0);
      k < |pod.containers| && Verdict(plan, wish, pod.containers[k]).Some?
    ensures var k := FirstNamed(pod.containers, wish.Name(), 0);
      Attempted(plan, wishes + [wish], w, name, pod,
        Commit(plan, answers, name, p, Verdict(plan, wish, pod.containers[k]).value))
  {
    var k := FirstNamed(pod.containers, wish.Name(), 0);
    var rec := Verdict(plan, wish, pod.containers[k]).value;
    var q := Commit(plan, answers, name, p, rec);
    assert rec.name == wish.Name();
    if rec.significant {
      assert p.pod.containers[k].name == rec.name && p.pod.containers[k] in p.pod.containers;
      match plan.mode {
        case InPlace => ResizeAttempted(answers, p.world, name, p.pod, rec);
        case Recreate => RecreateAttempted(answers, p.world, name, p.pod, rec);
        case Auto => AutoAttempted(answers, p.world, name, p.pod, rec);
      }
      AttemptCounts(plan, wishes, wish, w, name, pod, p, q, rec);
    } else {
      SkipAttempted(plan, wishes, wish, w, name, pod, q);
    }
  }

  lemma NothingAttempted(plan: Plan, w: World, name: string, pod: PodValue)
    requires Current(w, name, pod)
    ensures Attempted(plan, [], w, name, pod, Progress(w, pod, [], 0, []))
  {
  }

  lemma {:induction false} OwnLoopAttempts(plan: Plan, answers: Answers, w: World, name: string, pod: PodValue,
      ms: seq<ContainerMetrics>)
    requires Acts(plan) && Current(w, name, pod) && DistinctNames(pod.containers)
    ensures Attempted(plan, MeasuredWishes(ms), w, name, pod,
      OwnLoop(plan, answers, name, Allocations(pod.containers), Progress(w, pod, [], 0, []), ms))
    decreases |ms|
  {
    if ms == [] {
      NothingAttempted(plan, w, name, pod);
    } else {
      var rest, m := ms[..|ms| - 1], ms[|ms| - 1];
      var before, wish := MeasuredWishes(rest), Measured(m);
      assert MeasuredWishes(ms) == before + [wish];
      OwnLoopAttempts(plan, answers, w, name, pod, rest);
      AllocationOfNamed(pod.containers, m.name);
      var p := OwnLoop(plan, answers, name, Allocations(pod.containers), Progress(w, pod, [], 0, []), rest);
      var k := FirstNamed(pod.containers, m.name, 0);
      if k == |pod.containers| || OwnProposal(plan, m, ReadResources(pod.containers[k])).None? {
        SkipAttempted(plan, before, wish, w, name, pod, p);
      } else {
        var proposal := OwnProposal(plan, m, ReadResources(pod.containers[k])).value;
        var q := p.(reasons := p.reasons + ReasonsBy(plan.policy, proposal));
        CommitAttempts(plan, answers, before, wish, w, name, pod, q);
      }
    }
  }

  lemma VpaStepAttempts(plan: Plan, answers: Answers, before: seq<Wish>, rec: Vpa.ContainerRecommendation, w: World,
      name: string, pod: PodValue, p: Progress)
    requires Acts(plan) && DistinctNames(pod.containers)
    requires NoneNamed(before, rec.containerName) && Attempted(plan, before, w, name, pod, p)
    ensures Attempted(plan, before + [Recommended(rec)], w, name, pod, VpaStep(plan, answers, name, p, rec))
  {
    var wish, k := Recommended(rec), FirstNamed(pod.containers, rec.containerName, 0);
    SameFirstNamed(p.pod.containers, pod.containers, rec.containerName, 0);
    AllocationOfNamed(p.pod.containers, rec.containerName);
    var q := p.(reasons := p.reasons + ReasonsBy(plan.policy, VpaProposal(rec, plan.constraints)));
    if k == |pod.containers| {
      UnknownEntrySkipped(plan, answers, name, p, rec);
      SkipAttempted(plan, before, wish, w, name, pod, VpaStep(plan, answers, name, p, rec));
    } else {
      KnownEntryJudged(plan, rec, pod.containers[k], Allocations(p.pod.containers));
      CommitAttempts(plan, answers, before, wish, w, name, pod, q);
    }
  }

  lemma {:induction false} VpaLoopAttempts(plan: Plan, answers: Answers, w: World, name: string, pod: PodValue,
      recs: seq<Vpa.ContainerRecommendation>)
    requires Acts(plan) && Current(w, name, pod) && DistinctNames(pod.containers)
    requires DistinctWishes(RecommendedWishes(recs))
    ensures Attempted(plan, RecommendedWishes(recs), w, name, pod,
      VpaLoop(plan, answers, name, Progress(w, pod, [], 0, []), recs))
    decreases |recs|
  {
    if recs == [] {
      NothingAttempted(plan, w, name, pod);
    } else {
      var rest, rec := recs[..|recs| - 1], recs[|recs| - 1];
      var before := RecommendedWishes(rest);
      assert RecommendedWishes(recs) == before + [Recommended(rec)];
      LastNameIsNew(before, Recommended(rec));
      VpaLoopAttempts(plan, answers, w, name, pod, rest);
      VpaStepAttempts(plan, answers, before, rec, w, name, pod,
        VpaLoop(plan, answers, name, Progress(w, pod, [], 0, []), rest));
    }
  }

  // ---- A whole cycle ----

  /** Evaluating a pod makes one attempt for every entry that is due, and leaves the pod terminating iff it was, or an
      eviction was accepted. */
  lemma PodAttempts(plan: Plan, answers: Answers, source: Source, w: World, pod: ListedPod)
    requires Acts(plan) && Current(w, pod.name, pod.value) && DistinctNames(pod.value.containers)
    requires DistinctWishes(WishesFor(source, pod.name))
    ensures Attempted(plan, WishesFor(source, pod.name), w, pod.name, pod.value,
      EvaluatePod(plan, answers, source, w, pod))
  {
    match source
    case FromVpa(recs) => VpaLoopAttempts(plan, answers, w, pod.name, pod.value, recs);
    case OwnAlgorithm(metrics) =>
      if pod.name in metrics {
        OwnLoopAttempts(plan, answers, w, pod.name, pod.value, metrics[pod.name]);
      } else {
        NothingAttempted(plan, w, pod.name, pod.value);
      }
  }

  /** In every mode that acts and under any answers, a cycle on an accurate list makes one attempt for every entry that
      is due. */
  lemma {:induction false} CycleTries(plan: Plan, answers: Answers, source: Source, w: World, pods: seq<ListedPod>)
    requires Acts(plan) && AccurateList(source, w, pods)
    ensures var c := CycleLoop(plan, answers, source, w, pods);
      AllTried(plan.mode, w.log, c.world.log, CycleAdjustments(plan, source, pods))
    decreases |pods|
  {
    if pods != [] {
      var rest, last := pods[..|pods| - 1], pods[|pods| - 1];
      assert pods == rest + [last];
      AccuratePrefix(source, w, rest, last);
      CycleTries(plan, answers, source, w, rest);
      var c := CycleLoop(plan, answers, source, w, rest);
      CycleRespectsMode(plan, answers, source, w, rest);
      assert !Lists(rest, last.name);
      PodAttempts(plan, answers, source, c.world, last);
      var p := EvaluatePod(plan, answers, source, c.world, last);
      AllTriedTogether(plan.mode, w.log, c.world.log, p.world.log, CycleAdjustments(plan, source, rest),
        AdjustmentsDue(plan, WishesFor(source, last.name), last.value.containers));
    }
  }
}
