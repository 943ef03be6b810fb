/** Lists in which a container is named more than once: the two paths judge a repeated entry differently. */
module RepeatedEntries {
  import opened Quantities
  import opened Calculator
  import opened NamespaceLimits
  import opened Pods
  import opened ApiTypes
  import opened Metrics
  import opened Updater
  import opened Evaluation
  import opened Settling
  import Vpa

  /** The pod with its k-th container replaced. */
  function WithContainer(pod: PodValue, k: nat, c: Container): PodValue
    requires k < |pod.containers|
  {
    pod.(containers := pod.containers[k := c])
  }

  /** The entry adjusts a container when it is judged on this pod. */
  predicate DueOn(plan: Plan, wish: Wish, judged: PodValue) {
    var k := FirstNamed(judged.containers, wish.Name(), 0);
    k < |judged.containers| && Adjusts(plan, wish, judged.containers[k])
  }

  /** What becomes of a pod by an entry that is judged on another one with the same containers. */
  function WithEntry(plan: Plan, wish: Wish, judged: PodValue, pod: PodValue): (after: PodValue)
    requires |pod.containers| == |judged.containers|
    ensures |after.containers| == |pod.containers|
    ensures forall k | 0 <= k < |pod.containers| :: after.containers[k].name == pod.containers[k].name
  {
    var k := FirstNamed(judged.containers, wish.Name(), 0);
    if !DueOn(plan, wish, judged) then pod
    else WithContainer(pod, k, WriteResources(pod.containers[k], Verdict(plan, wish, judged.containers[k]).value))
  }

  /** VPA path: every entry is judged on what the entries before it have left. */
  function InSequence(plan: Plan, wishes: seq<Wish>, pod: PodValue): (after: PodValue)
    ensures |after.containers| == |pod.containers|
    ensures forall k | 0 <= k < |pod.containers| :: after.containers[k].name == pod.containers[k].name
  {
    if wishes == [] then pod else
    var before := InSequence(plan, wishes[..|wishes| - 1], pod);
    WithEntry(plan, wishes[|wishes| - 1], before, before)
  }

  function CountInSequence(plan: Plan, wishes: seq<Wish>, pod: PodValue): nat {
    if wishes == [] then 0 else
    var rest, wish := wishes[..|wishes| - 1], wishes[|wishes| - 1];
    CountInSequence(plan, rest, pod) + (if DueOn(plan, wish, InSequence(plan, rest, pod)) then 1 else 0)
  }

  /** Own path: every entry is judged on the pod as it was listed. */
  function AllAtOnce(plan: Plan, wishes: seq<Wish>, pod: PodValue): (after: PodValue)
    ensures |after.containers| == |pod.containers|
    ensures forall k | 0 <= k < |pod.containers| :: after.containers[k].name == pod.containers[k].name
  {
    if wishes == [] then pod else
    WithEntry(plan, wishes[|wishes| - 1], pod, AllAtOnce(plan, wishes[..|wishes| - 1], pod))
  }

  /** The copy and the store are this pod, after so many calls, all of them counted. */
  predicate Came(w: World, name: string, p: Progress, after: PodValue, count: nat) {
    && p.pod == after && p.world.pods == w.pods[name := after]
    && p.adjustments == count && |p.world.log| == |w.log| + count
  }

  lemma CameNext(plan: Plan, answers: Answers, w: World, name: string, p: Progress, before: PodValue, count: nat,
      k: nat, rec: ResourceRecommendation)
    requires InPlaceModes(plan) && name in w.pods && Came(w, name, p, before, count)
    requires k == FirstNamed(before.containers, rec.name, 0) < |before.containers|
    requires rec.significant ==> answers(|p.world.log|)
    ensures var written := WithContainer(before, k, WriteResources(before.containers[k], rec));
      Came(w, name, Commit(plan, answers, name, p, rec), if rec.significant then written else before,
        count + if rec.significant then 1 else 0)
  {
    if rec.significant {
      InPlaceSucceeds(answers, p.world, name, p.pod, rec, plan.mode);
      var q := Commit(plan, answers, name, p, rec);
      assert w.pods[name := before][name := q.pod] == w.pods[name := q.pod];
    }
  }

  lemma SequenceSnoc(plan: Plan, wishes: seq<Wish>, wish: Wish, pod: PodValue)
    ensures var before, all := InSequence(plan, wishes, pod), wishes + [wish];
      && InSequence(plan, all, pod) == WithEntry(plan, wish, before, before)
      && CountInSequence(plan, all, pod) ==
          CountInSequence(plan, wishes, pod) + (if DueOn(plan, wish, before) then 1 else 0)
  {
    var all := wishes + [wish];
    assert all[..|all| - 1] == wishes && all[|all| - 1] == wish;
  }

  lemma SameNamesDistinct(x: seq<Container>, y: seq<Container>)
    requires DistinctNames(x) && |x| == |y| && forall k | 0 <= k < |x| :: y[k].name == x[k].name
    ensures DistinctNames(y)
  {
  }

  /** The VPA loop, on any list of entries. */
  lemma {:induction false} VpaLoopInSequence(plan: Plan, answers: Answers, w: World, name: string, pod: PodValue,
      recs: seq<Vpa.ContainerRecommendation>)
    requires InPlaceModes(plan) && Current(w, name, pod) && DistinctNames(pod.containers)
    requires Granted(answers, w, CountInSequence(plan, RecommendedWishes(recs), pod))
    ensures Came(w, name, VpaLoop(plan, answers, name, Progress(w, pod, [], 0, []), recs),
      InSequence(plan, RecommendedWishes(recs), pod), CountInSequence(plan, RecommendedWishes(recs), pod))
    decreases |recs|
  {
    if recs == [] {
      assert w.pods[name := pod] == w.pods;
    } else {
      var rest, rec := recs[..|recs| - 1], recs[|recs| - 1];
      assert RecommendedWishes(recs) == RecommendedWishes(rest) + [Recommended(rec)];
      SequenceSnoc(plan, RecommendedWishes(rest), Recommended(rec), pod);
      VpaLoopInSequence(plan, answers, w, name, pod, rest);
      VpaEntryInSequence(plan, answers, w, name, pod, rest, rec);
    }
  }

  lemma VpaEntryInSequence(plan: Plan, answers: Answers, w: World, name: string, pod: PodValue,
      rest: seq<Vpa.ContainerRecommendation>, rec: Vpa.ContainerRecommendation)
    requires InPlaceModes(plan) && Current(w, name, pod) && DistinctNames(pod.containers)
    requires var wishes := RecommendedWishes(rest);
      && Granted(answers, w, CountInSequence(plan, wishes + [Recommended(rec)], pod))
      && Came(w, name, VpaLoop(plan, answers, name, Progress(w, pod, [], 0, []), rest),
          InSequence(plan, wishes, pod), CountInSequence(plan, wishes, pod))
    ensures var wishes := RecommendedWishes(rest) + [Recommended(rec)];
      var p := VpaLoop(plan, answers, name, Progress(w, pod, [], 0, []), rest);
      Came(w, name, VpaStep(plan, answers, name, p, rec), InSequence(plan, wishes, pod),
        CountInSequence(plan, wishes, pod))
  {
    var wishes := RecommendedWishes(rest);
    var before, count := InSequence(plan, wishes, pod), CountInSequence(plan, wishes, pod);
    SequenceSnoc(plan, wishes, Recommended(rec), pod);
    SameNamesDistinct(pod.containers, before.containers);
    var p := VpaLoop(plan, answers, name, Progress(w, pod, [], 0, []), rest);
    VpaStepInSequence(plan, answers, w, name, p, before, count, rec);
  }

  lemma VpaStepInSequence(plan: Plan, answers: Answers, w: World, name: string, p: Progress, before: PodValue,
      count: nat, rec: Vpa.ContainerRecommendation)
    requires InPlaceModes(plan) && name in w.pods && DistinctNames(before.containers)
    requires Came(w, name, p, before, count) && (DueOn(plan, Recommended(rec), before) ==> answers(|p.world.log|))
    ensures Came(w, name, VpaStep(plan, answers, name, p, rec), WithEntry(plan, Recommended(rec), before, before),
      count + if DueOn(plan, Recommended(rec), before) then 1 else 0)
  {
    var k := FirstNamed(before.containers, rec.containerName, 0);
    AllocationOfNamed(before.containers, rec.containerName);
    if k == |before.containers| {
      UnknownEntrySkipped(plan, answers, name, p, rec);
    } else {
      KnownEntryJudged(plan, rec, before.containers[k], Allocations(before.containers));
      var q := p.(reasons := p.reasons + ReasonsBy(plan.policy, VpaProposal(rec, plan.constraints)));
      var verdict := Verdict(plan, Recommended(rec), before.containers[k]).value;
      CameNext(plan, answers, w, name, q, before, count, k, verdict);
    }
  }

  lemma AtOnceSnoc(plan: Plan, wishes: seq<Wish>, wish: Wish, pod: PodValue)
    ensures AllAtOnce(plan, wishes + [wish], pod) == WithEntry(plan, wish, pod, AllAtOnce(plan, wishes, pod))
  {
    var all := wishes + [wish];
    assert all[..|all| - 1] == wishes && all[|all| - 1] == wish;
  }

  lemma DueNext(plan: Plan, wishes: seq<Wish>, wish: Wish, pod: PodValue)
    ensures AdjustmentsDue(plan, wishes + [wish], pod.containers) ==
      AdjustmentsDue(plan, wishes, pod.containers) + (if DueOn(plan, wish, pod) then 1 else 0)
  {
    AdjustmentsDueSnoc(plan, wishes, wish, pod.containers);
  }

  /** The own loop, on any list of measurements. */
  lemma {:induction false} OwnLoopAllAtOnce(plan: Plan, answers: Answers, w: World, name: string, pod: PodValue,
      ms: seq<ContainerMetrics>)
    requires InPlaceModes(plan) && Current(w, name, pod) && DistinctNames(pod.containers)
    requires Granted(answers, w, AdjustmentsDue(plan, MeasuredWishes(ms), pod.containers))
    ensures Came(w, name, OwnLoop(plan, answers, name, Allocations(pod.containers), Progress(w, pod, [], 0, []), ms),
      AllAtOnce(plan, MeasuredWishes(ms), pod), AdjustmentsDue(plan, MeasuredWishes(ms), pod.containers))
    decreases |ms|
  {
    if ms == [] {
      assert w.pods[name := pod] == w.pods;
    } else {
      var rest, m := ms[..|ms| - 1], ms[|ms| - 1];
      var wishes := MeasuredWishes(rest);
      assert MeasuredWishes(ms) == wishes + [Measured(m)];
      AtOnceSnoc(plan, wishes, Measured(m), pod);
      DueNext(plan, wishes, Measured(m), pod);
      OwnLoopAllAtOnce(plan, answers, w, name, pod, rest);
      var p := OwnLoop(plan, answers, name, Allocations(pod.containers), Progress(w, pod, [], 0, []), rest);
      OwnStepAtOnce(plan, answers, w, name, pod, p, AllAtOnce(plan, wishes, pod),
        AdjustmentsDue(plan, wishes, pod.containers), m);
    }
  }

  lemma OwnStepAtOnce(plan: Plan, answers: Answers, w: World, name: string, pod: PodValue, p: Progress,
      before: PodValue, count: nat, m: ContainerMetrics)
    requires InPlaceModes(plan) && name in w.pods && DistinctNames(pod.containers)
    requires |before.containers| == |pod.containers|
    requires forall k | 0 <= k < |pod.containers| :: before.containers[k].name == pod.containers[k].name
    requires Came(w, name, p, before, count) && (DueOn(plan, Measured(m), pod) ==> answers(|p.world.log|))
    ensures Came(w, name, OwnStep(plan, answers, name, Allocations(pod.containers), p, m),
      WithEntry(plan, Measured(m), pod, before), count + if DueOn(plan, Measured(m), pod) then 1 else 0)
  {
    var k := FirstNamed(pod.containers, m.name, 0);
    AllocationOfNamed(pod.containers, m.name);
    SameFirstNamed(before.containers, pod.containers, m.name, 0);
    if k < |pod.containers| && Verdict(plan, Measured(m), pod.containers[k]).Some? {
      var proposal := OwnProposal(plan, m, ReadResources(pod.containers[k])).value;
      var q := p.(reasons := p.reasons + ReasonsBy(plan.policy, proposal));
      CameNext(plan, answers, w, name, q, before, count, k, Verdict(plan, Measured(m), pod.containers[k]).value);
    }
  }
}
