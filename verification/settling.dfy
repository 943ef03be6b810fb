/** With patches that succeed, the evaluation loops act on every container independently. */
module Settling {
  import opened Quantities
  import opened Calculator
  import opened NamespaceLimits
  import opened Pods
  import opened ApiTypes
  import opened Metrics
  import opened Updater
  import opened Evaluation
  import Vpa

  /** One entry of either path's input list. */
  datatype Wish = Measured(m: ContainerMetrics) | Recommended(rec: Vpa.ContainerRecommendation) {
    function Name(): string {
      match this
      case Measured(m) => m.name
      case Recommended(rec) => rec.containerName
    }
  }

  /** The recommendation an entry makes for a container, with its significance. */
  function Verdict(plan: Plan, wish: Wish, c: Container): Option<ResourceRecommendation> {
    match wish
    case Measured(m) =>
      var proposal := OwnProposal(plan, m, ReadResources(c));
      if proposal.None? then None else Some(ClampedBy(plan.policy, proposal.value))
    case Recommended(rec) =>
      Some(VpaJudged(plan, ClampedBy(plan.policy, VpaProposal(rec, plan.constraints)),
                     map[rec.containerName := ReadResources(c)]))
  }

  predicate Adjusts(plan: Plan, wish: Wish, c: Container) {
    var v := Verdict(plan, wish, c);
    v.Some? && v.value.significant
  }

  function Settled(plan: Plan, wish: Wish, c: Container): Container {
    if Adjusts(plan, wish, c) then WriteResources(c, Verdict(plan, wish, c).value) else c
  }

  predicate DistinctWishes(wishes: seq<Wish>) {
    forall i, j | 0 <= i < j < |wishes| :: wishes[i].Name() != wishes[j].Name()
  }

  function WishFor(wishes: seq<Wish>, name: string): Option<Wish> {
    if wishes == [] then None
    else if wishes[|wishes| - 1].Name() == name then Some(wishes[|wishes| - 1])
    else WishFor(wishes[..|wishes| - 1], name)
  }

  function SettledBy(plan: Plan, wishes: seq<Wish>, c: Container): Container {
    var wish := WishFor(wishes, c.name);
    if wish.None? then c else Settled(plan, wish.value, c)
  }

  function SettledPod(plan: Plan, wishes: seq<Wish>, pod: PodValue): PodValue {
    var settled :=
      seq(|pod.containers|, i requires 0 <= i < |pod.containers| => SettledBy(plan, wishes, pod.containers[i]));
    pod.(containers := settled)
  }

  /** How many entries name a container they adjust. */
  function AdjustmentsDue(plan: Plan, wishes: seq<Wish>, containers: seq<Container>): nat {
    if wishes == [] then 0 else
    var last := wishes[|wishes| - 1];
    var k := FirstNamed(containers, last.Name(), 0);
    AdjustmentsDue(plan, wishes[..|wishes| - 1], containers) +
      (if k < |containers| && Adjusts(plan, last, containers[k]) then 1 else 0)
  }

  predicate InPlaceModes(plan: Plan) {
    !plan.dryRun && plan.mode in {Auto, InPlace}
  }

  /** The next calls, so many of them, succeed. */
  predicate Granted(answers: Answers, w: World, count: nat) {
    forall n | |w.log| <= n < |w.log| + count :: answers(n)
  }

  /** The copy of the pod is what the API server stores. */
  predicate Current(w: World, name: string, pod: PodValue) {
    name in w.pods && w.pods[name] == pod
  }

  /** What a loop has done to one pod after the first entries of its list. */
  predicate Progressed(plan: Plan, wishes: seq<Wish>, w: World, name: string, pod: PodValue, p: Progress) {
    && p.pod == SettledPod(plan, wishes, pod)
    && p.world.pods == w.pods[name := p.pod]
    && p.adjustments == AdjustmentsDue(plan, wishes, pod.containers)
    && |p.world.log| == |w.log| + p.adjustments
  }

  lemma {:induction false} AbsentWish(wishes: seq<Wish>, name: string)
    requires forall i | 0 <= i < |wishes| :: wishes[i].Name() != name
    ensures WishFor(wishes, name).None?
  {
    if wishes != [] {
      AbsentWish(wishes[..|wishes| - 1], name);
    }
  }

  lemma {:induction false} FoundWish(wishes: seq<Wish>, k: nat)
    requires k < |wishes| && DistinctWishes(wishes)
    ensures WishFor(wishes, wishes[k].Name()) == Some(wishes[k])
  {
    if k < |wishes| - 1 {
      FoundWish(wishes[..|wishes| - 1], k);
    }
  }

  /** A succeeding in-place update stores exactly the resized copy. */
  lemma InPlaceSucceeds(answers: Answers, w: World, name: string, pod: PodValue, rec: ResourceRecommendation,
      mode: UpdateMode)
    requires answers(|w.log|) && Current(w, name, pod) && mode in {Auto, InPlace}
    requires FirstNamed(pod.containers, rec.name, 0) < |pod.containers|
    ensures var a := Apply(answers, w, name, pod, rec, mode);
      var changed := Resized(pod, rec).value;
      a.strategy == Some(StrategyInPlace) && a.pod == changed && a.world.pods == w.pods[name := changed]
      && |a.world.log| == |w.log| + 1
  {
  }

  /** An entry for a name not seen before: only the first container of that name changes. */
  lemma SettledPodSnoc(plan: Plan, wishes: seq<Wish>, wish: Wish, pod: PodValue)
    requires DistinctNames(pod.containers)
    requires forall i | 0 <= i < |wishes| :: wishes[i].Name() != wish.Name()
    ensures var k := FirstNamed(pod.containers, wish.Name(), 0);
      var before, after := SettledPod(plan, wishes, pod), SettledPod(plan, wishes + [wish], pod);
      && FirstNamed(before.containers, wish.Name(), 0) == k
      && (k == |pod.containers| ==> after == before)
      && (k < |pod.containers| ==>
            before.containers[k] == pod.containers[k] &&
            after == before.(containers := before.containers[k := Settled(plan, wish, pod.containers[k])]))
  {
    var k := FirstNamed(pod.containers, wish.Name(), 0);
    var before, after := SettledPod(plan, wishes, pod), SettledPod(plan, wishes + [wish], pod);
    assert (wishes + [wish])[..|wishes|] == wishes;
    AbsentWish(wishes, wish.Name());
    assert forall i | 0 <= i < |pod.containers| :: before.containers[i].name == pod.containers[i].name;
    SameFirstNamed(before.containers, pod.containers, wish.Name(), 0);
    assert forall i | 0 <= i < |pod.containers| && pod.containers[i].name != wish.Name() ::
      after.containers[i] == before.containers[i];
    if k == |pod.containers| {
      assert after.containers == before.containers;
    } else {
      assert forall i | 0 <= i < |pod.containers| && i != k :: pod.containers[i].name != wish.Name();
      assert after.containers == before.containers[k := Settled(plan, wish, pod.containers[k])];
    }
  }

  lemma SameFirstNamed(xs: seq<Container>, ys: seq<Container>, name: string, from: nat)
    requires |xs| == |ys| && from <= |xs| && forall i | 0 <= i < |xs| :: xs[i].name == ys[i].name
    ensures FirstNamed(xs, name, from) == FirstNamed(ys, name, from)
    decreases |xs| - from
  {
  }

  lemma AdjustmentsDueSnoc(plan: Plan, wishes: seq<Wish>, wish: Wish, containers: seq<Container>)
    ensures var k := FirstNamed(containers, wish.Name(), 0);
      AdjustmentsDue(plan, wishes + [wish], containers) == AdjustmentsDue(plan, wishes, containers) +
        (if k < |containers| && Adjusts(plan, wish, containers[k]) then 1 else 0)
  {
    assert (wishes + [wish])[..|wishes|] == wishes;
  }

  lemma CommitResizes(plan: Plan, answers: Answers, name: string, p: Progress, rec: ResourceRecommendation,
      after: PodValue)
    requires InPlaceModes(plan) && answers(|p.world.log|) && Current(p.world, name, p.pod)
    requires rec.significant && Resized(p.pod, rec) == Some(after)
    ensures var q := Commit(plan, answers, name, p, rec);
      && q.pod == after && q.world.pods == p.world.pods[name := after]
      && q.adjustments == p.adjustments + 1 && |q.world.log| == |p.world.log| + 1
  {
    InPlaceSucceeds(answers, p.world, name, p.pod, rec, plan.mode);
  }

  /** Committing the verdict for the container of that name is one more settled entry. */
  lemma CommitSettles(plan: Plan, answers: Answers, wishes: seq<Wish>, wish: Wish, w: World, name: string,
      pod: PodValue, p: Progress)
    requires InPlaceModes(plan) && name in w.pods && DistinctNames(pod.containers)
    requires Granted(answers, w, AdjustmentsDue(plan, wishes + [wish], pod.containers))
    requires forall i | 0 <= i < |wishes| :: wishes[i].Name() != wish.Name()
    requires Progressed(plan, wishes, w, name, pod, p)
    requires var k := FirstNamed(pod.containers, wish.Name(), 0);
      k < |pod.containers| && Verdict(plan, wish, pod.containers[k]).Some?
    ensures var k := FirstNamed(pod.containers, wish.Name(), 0);
      Progressed(plan, wishes + [wish], w, name, pod,
        Commit(plan, answers, name, p, Verdict(plan, wish, pod.containers[k]).value))
  {
    var k := FirstNamed(pod.containers, wish.Name(), 0);
    var rec := Verdict(plan, wish, pod.containers[k]).value;
    var after := SettledPod(plan, wishes + [wish], pod);
    VerdictSettles(plan, wishes, wish, pod);
    AdjustmentsDueSnoc(plan, wishes, wish, pod.containers);
    if rec.significant {
      CommitResizes(plan, answers, name, p, rec, after);
    } else {
      assert w.pods[name := p.pod][name := p.pod] == w.pods[name := p.pod];
    }
    ProgressedSnoc(plan, wishes, wish, w, name, pod, p, Commit(plan, answers, name, p, rec));
  }

  lemma ProgressedSnoc(plan: Plan, wishes: seq<Wish>, wish: Wish, w: World, name: string, pod: PodValue, p: Progress,
      q: Progress)
    requires Progressed(plan, wishes, w, name, pod, p)
    requires q.pod == SettledPod(plan, wishes + [wish], pod) && q.world.pods == p.world.pods[name := q.pod]
    requires |q.world.log| - |p.world.log| == q.adjustments - p.adjustments
    requires var k := FirstNamed(pod.containers, wish.Name(), 0);
      q.adjustments == p.adjustments + (if k < |pod.containers| && Adjusts(plan, wish, pod.containers[k]) then 1 else 0)
    ensures Progressed(plan, wishes + [wish], w, name, pod, q)
  {
    AdjustmentsDueSnoc(plan, wishes, wish, pod.containers);
    assert w.pods[name := p.pod][name := q.pod] == w.pods[name := q.pod];
  }

  lemma VerdictSettles(plan: Plan, wishes: seq<Wish>, wish: Wish, pod: PodValue)
    requires DistinctNames(pod.containers) && forall i | 0 <= i < |wishes| :: wishes[i].Name() != wish.Name()
    requires var k := FirstNamed(pod.containers, wish.Name(), 0);
      k < |pod.containers| && Verdict(plan, wish, pod.containers[k]).Some?
    ensures var k := FirstNamed(pod.containers, wish.Name(), 0);
      var rec := Verdict(plan, wish, pod.containers[k]).value;
      var before, after := SettledPod(plan, wishes, pod), SettledPod(plan, wishes + [wish], pod);
      if rec.significant then Resized(before, rec) == Some(after) else after == before
  {
    SettledPodSnoc(plan, wishes, wish, pod);
    var k := FirstNamed(pod.containers, wish.Name(), 0);
    var before := SettledPod(plan, wishes, pod);
    assert Verdict(plan, wish, pod.containers[k]).value.name == wish.Name();
    assert before.containers[k := pod.containers[k]] == before.containers;
  }

  /** An entry that names no container, or yields no verdict, changes nothing. */
  lemma SkipSettles(plan: Plan, wishes: seq<Wish>, wish: Wish, w: World, name: string, pod: PodValue, p: Progress)
    requires DistinctNames(pod.containers)
    requires forall i | 0 <= i < |wishes| :: wishes[i].Name() != wish.Name()
    requires Progressed(plan, wishes, w, name, pod, p)
    requires var k := FirstNamed(pod.containers, wish.Name(), 0);
      k < |pod.containers| ==> Verdict(plan, wish, pod.containers[k]).None?
    ensures Progressed(plan, wishes + [wish], w, name, pod, p)
  {
    SettledPodSnoc(plan, wishes, wish, pod);
    assert (wishes + [wish])[..|wishes|] == wishes;
    var k := FirstNamed(pod.containers, wish.Name(), 0);
    if k < |pod.containers| {
      assert Settled(plan, wish, pod.containers[k]) == pod.containers[k];
    }
  }

  function MeasuredWishes(ms: seq<ContainerMetrics>): seq<Wish> {
    seq(|ms|, i requires 0 <= i < |ms| => Measured(ms[i]))
  }

  function RecommendedWishes(recs: seq<Vpa.ContainerRecommendation>): seq<Wish> {
    seq(|recs|, i requires 0 <= i < |recs| => Recommended(recs[i]))
  }

  lemma LastNameIsNew(before: seq<Wish>, wish: Wish)
    requires DistinctWishes(before + [wish])
    ensures DistinctWishes(before)
    ensures forall i | 0 <= i < |before| :: before[i].Name() != wish.Name()
  {
    var all := before + [wish];
    assert all[|before|] == wish;
    assert forall i | 0 <= i < |before| :: all[i] == before[i];
  }

  lemma NothingSettled(plan: Plan, w: World, name: string, pod: PodValue)
    requires Current(w, name, pod)
    ensures Progressed(plan, [], w, name, pod, Progress(w, pod, [], 0, []))
  {
  }

  lemma AllocationOfNamed(containers: seq<Container>, name: string)
    requires DistinctNames(containers)
    ensures var k := FirstNamed(containers, name, 0);
      && (name in Allocations(containers) <==> k < |containers|)
      && (k < |containers| ==> Allocations(containers)[name] == ReadResources(containers[k]))
  {
    AllocationsAreReadBack(containers);
  }

  /** The own algorithm's loop settles every container with the entry of its name. */
  lemma {:induction false} OwnLoopSettles(plan: Plan, answers: Answers, w: World, name: string, pod: PodValue,
      ms: seq<ContainerMetrics>)
    requires InPlaceModes(plan) && Current(w, name, pod) && DistinctNames(pod.containers)
    requires DistinctWishes(MeasuredWishes(ms))
    requires Granted(answers, w, AdjustmentsDue(plan, MeasuredWishes(ms), pod.containers))
    ensures Progressed(plan, MeasuredWishes(ms), w, name, pod,
      OwnLoop(plan, answers, name, Allocations(pod.containers), Progress(w, pod, [], 0, []), ms))
    decreases |ms|
  {
    if ms == [] {
      NothingSettled(plan, w, name, pod);
    } else {
      var rest, m := ms[..|ms| - 1], ms[|ms| - 1];
      var before, wish := MeasuredWishes(rest), Measured(m);
      assert MeasuredWishes(ms) == before + [wish];
      LastNameIsNew(before, wish);
      AdjustmentsDueSnoc(plan, before, wish, pod.containers);
      OwnLoopSettles(plan, answers, w, name, pod, rest);
      AllocationOfNamed(pod.containers, m.name);
      var p := OwnLoop(plan, answers, name, Allocations(pod.containers), Progress(w, pod, [], 0, []), rest);
      var k := FirstNamed(pod.containers, m.name, 0);
      if k == |pod.containers| || OwnProposal(plan, m, ReadResources(pod.containers[k])).None? {
        SkipSettles(plan, before, wish, w, name, pod, p);
      } else {
        var proposal := OwnProposal(plan, m, ReadResources(pod.containers[k])).value;
        var q := p.(reasons := p.reasons + ReasonsBy(plan.policy, proposal));
        CommitSettles(plan, answers, before, wish, w, name, pod, q);
      }
    }
  }

  lemma VpaStepSettles(plan: Plan, answers: Answers, before: seq<Wish>, rec: Vpa.ContainerRecommendation, w: World,
      name: string, pod: PodValue, p: Progress)
    requires InPlaceModes(plan) && name in w.pods && DistinctNames(pod.containers)
    requires Granted(answers, w, AdjustmentsDue(plan, before + [Recommended(rec)], pod.containers))
    requires forall i | 0 <= i < |before| :: before[i].Name() != rec.containerName
    requires Progressed(plan, before, w, name, pod, p)
    ensures Progressed(plan, before + [Recommended(rec)], w, name, pod, VpaStep(plan, answers, name, p, rec))
  {
    var wish, k := Recommended(rec), FirstNamed(pod.containers, rec.containerName, 0);
    assert FirstNamed(p.pod.containers, rec.containerName, 0) == k &&
        (k < |pod.containers| ==> p.pod.containers[k] == pod.containers[k]) by {
      SettledPodSnoc(plan, before, wish, pod);
    }
    SettledNamesDistinct(plan, before, pod);
    AllocationOfNamed(p.pod.containers, rec.containerName);
    var q := p.(reasons := p.reasons + ReasonsBy(plan.policy, VpaProposal(rec, plan.constraints)));
    if k == |pod.containers| {
      UnknownEntrySkipped(plan, answers, name, p, rec);
      SkipSettles(plan, before, wish, w, name, pod, VpaStep(plan, answers, name, p, rec));
    } else {
      KnownEntryJudged(plan, rec, pod.containers[k], Allocations(p.pod.containers));
      CommitSettles(plan, answers, before, wish, w, name, pod, q);
    }
  }

  lemma KnownEntryJudged(plan: Plan, rec: Vpa.ContainerRecommendation, c: Container,
      allocations: map<string, ContainerResources>)
    requires rec.containerName in allocations && allocations[rec.containerName] == ReadResources(c)
    ensures Verdict(plan, Recommended(rec), c) ==
      Some(VpaJudged(plan, ClampedBy(plan.policy, VpaProposal(rec, plan.constraints)), allocations))
  {
  }

  lemma UnknownEntrySkipped(plan: Plan, answers: Answers, name: string, p: Progress, rec: Vpa.ContainerRecommendation)
    requires rec.containerName !in Allocations(p.pod.containers)
    ensures var q := VpaStep(plan, answers, name, p, rec);
      q.world == p.world && q.pod == p.pod && q.adjustments == p.adjustments
  {
  }

  /** So does the VPA loop, although it reads the allocations afresh for every entry. */
  lemma {:induction false} VpaLoopSettles(plan: Plan, answers: Answers, w: World, name: string, pod: PodValue,
      recs: seq<Vpa.ContainerRecommendation>)
    requires InPlaceModes(plan) && Current(w, name, pod) && DistinctNames(pod.containers)
    requires DistinctWishes(RecommendedWishes(recs))
    requires Granted(answers, w, AdjustmentsDue(plan, RecommendedWishes(recs), pod.containers))
    ensures Progressed(plan, RecommendedWishes(recs), w, name, pod,
      VpaLoop(plan, answers, name, Progress(w, pod, [], 0, []), recs))
    decreases |recs|
  {
    if recs == [] {
      NothingSettled(plan, w, name, pod);
    } else {
      var rest, rec := recs[..|recs| - 1], recs[|recs| - 1];
      var before := RecommendedWishes(rest);
      assert RecommendedWishes(recs) == before + [Recommended(rec)];
      LastNameIsNew(before, Recommended(rec));
      AdjustmentsDueSnoc(plan, before, Recommended(rec), pod.containers);
      VpaLoopSettles(plan, answers, w, name, pod, rest);
      VpaStepSettles(plan, answers, before, rec, w, name, pod,
        VpaLoop(plan, answers, name, Progress(w, pod, [], 0, []), rest));
    }
  }

  lemma SettledNamesDistinct(plan: Plan, wishes: seq<Wish>, pod: PodValue)
    requires DistinctNames(pod.containers)
    ensures DistinctNames(SettledPod(plan, wishes, pod).containers)
  {
  }
}
