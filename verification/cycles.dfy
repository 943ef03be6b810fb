/** Whole evaluation cycles over all running pods. */
module Cycles {
  import opened Quantities
  import opened Calculator
  import opened PipelineLaws
  import opened Pods
  import opened ApiTypes
  import opened Metrics
  import opened Updater
  import opened Evaluation
  import opened Settling
  import opened ClosedLoop

  /** The entries that concern a pod. */
  function WishesFor(source: Source, name: string): seq<Wish> {
    match source
    case FromVpa(recs) => RecommendedWishes(recs)
    case OwnAlgorithm(metrics) => if name in metrics then MeasuredWishes(metrics[name]) else []
  }

  predicate DistinctPods(pods: seq<ListedPod>) {
    forall i, j | 0 <= i < j < |pods| :: pods[i].name != pods[j].name
  }

  /** An accurate list of pods whose containers, like the entries for them, have distinct names. */
  predicate AccurateList(source: Source, w: World, pods: seq<ListedPod>) {
    && DistinctPods(pods)
    && forall i | 0 <= i < |pods| ::
      && Current(w, pods[i].name, pods[i].value) && DistinctNames(pods[i].value.containers)
      && DistinctWishes(WishesFor(source, pods[i].name))
  }

  lemma PodSettles(plan: Plan, answers: Answers, source: Source, w: World, pod: ListedPod)
    requires InPlaceModes(plan) && Current(w, pod.name, pod.value)
    requires DistinctNames(pod.value.containers) && DistinctWishes(WishesFor(source, pod.name))
    requires Granted(answers, w, AdjustmentsDue(plan, WishesFor(source, pod.name), pod.value.containers))
    ensures Progressed(plan, WishesFor(source, pod.name), w, pod.name, pod.value,
      EvaluatePod(plan, answers, source, w, pod))
  {
    match source
    case FromVpa(recs) => VpaLoopSettles(plan, answers, w, pod.name, pod.value, recs);
    case OwnAlgorithm(metrics) =>
      if pod.name in metrics {
        OwnLoopSettles(plan, answers, w, pod.name, pod.value, metrics[pod.name]);
      } else {
        NothingSettled(plan, w, pod.name, pod.value);
      }
  }

  /** The stored pods after a cycle: every listed pod settled, all others as before. */
  ghost predicate SettledWorld(plan: Plan, source: Source, before: map<string, PodValue>, pods: seq<ListedPod>,
      after: map<string, PodValue>) {
    && after.Keys == before.Keys
    && (forall i | 0 <= i < |pods| ::
          && pods[i].name in after
          && after[pods[i].name] == SettledPod(plan, WishesFor(source, pods[i].name), pods[i].value))
    && (forall name | name in before && (forall i | 0 <= i < |pods| :: pods[i].name != name) ::
          after[name] == before[name])
  }

  function CycleAdjustments(plan: Plan, source: Source, pods: seq<ListedPod>): nat {
    if pods == [] then 0 else
    var last := pods[|pods| - 1];
    CycleAdjustments(plan, source, pods[..|pods| - 1]) +
      AdjustmentsDue(plan, WishesFor(source, last.name), last.value.containers)
  }

  lemma SettledWorldSnoc(plan: Plan, source: Source, before: map<string, PodValue>, rest: seq<ListedPod>,
      last: ListedPod, mid: map<string, PodValue>)
    requires SettledWorld(plan, source, before, rest, mid) && last.name in before
    requires forall i | 0 <= i < |rest| :: rest[i].name != last.name
    ensures SettledWorld(plan, source, before, rest + [last],
      mid[last.name := SettledPod(plan, WishesFor(source, last.name), last.value)])
  {
    var pods := rest + [last];
    var after := mid[last.name := SettledPod(plan, WishesFor(source, last.name), last.value)];
    forall name | name in before && (forall i | 0 <= i < |pods| :: pods[i].name != name)
      ensures after[name] == before[name]
    {
      assert pods[|rest|].name != name;
      assert forall i | 0 <= i < |rest| :: pods[i] == rest[i];
    }
  }

  lemma AccuratePrefix(source: Source, w: World, rest: seq<ListedPod>, last: ListedPod)
    requires AccurateList(source, w, rest + [last])
    ensures AccurateList(source, w, rest)
    ensures forall i | 0 <= i < |rest| :: rest[i].name != last.name
    ensures Current(w, last.name, last.value) && DistinctNames(last.value.containers)
    ensures DistinctWishes(WishesFor(source, last.name))
  {
    var pods := rest + [last];
    assert pods[|rest|] == last;
    assert forall i | 0 <= i < |rest| :: pods[i] == rest[i];
  }

  /** With the calls of the cycle granted, its two nested loops settle every container of every listed pod, and count
      what they adjust: one call each. */
  lemma {:induction false} CycleSettles(plan: Plan, answers: Answers, source: Source, w: World, pods: seq<ListedPod>)
    requires InPlaceModes(plan) && AccurateList(source, w, pods)
    requires Granted(answers, w, CycleAdjustments(plan, source, pods))
    ensures var c := CycleLoop(plan, answers, source, w, pods);
      && SettledWorld(plan, source, w.pods, pods, c.world.pods)
      && c.adjustments == CycleAdjustments(plan, source, pods) && |c.world.log| == |w.log| + c.adjustments
    decreases |pods|
  {
    if pods != [] {
      var rest, last := pods[..|pods| - 1], pods[|pods| - 1];
      assert pods == rest + [last];
      AccuratePrefix(source, w, rest, last);
      CycleSettles(plan, answers, source, w, rest);
      var c := CycleLoop(plan, answers, source, w, rest);
      PodSettles(plan, answers, source, c.world, last);
      SettledWorldSnoc(plan, source, w.pods, rest, last, c.world.pods);
    }
  }

  /** The same pods, listed again. */
  function ListedAgain(pods: seq<ListedPod>, stored: map<string, PodValue>): seq<ListedPod> {
    seq(|pods|, i requires 0 <= i < |pods| =>
      if pods[i].name in stored then pods[i].(value := stored[pods[i].name]) else pods[i])
  }

  lemma SettledPodTwice(plan: Plan, wishes: seq<Wish>, pod: PodValue)
    ensures SettledPod(plan, wishes, SettledPod(plan, wishes, pod)) == SettledPod(plan, wishes, pod)
  {
    var once := SettledPod(plan, wishes, pod);
    var twice := SettledPod(plan, wishes, once);
    forall i | 0 <= i < |pod.containers|
      ensures twice.containers[i] == once.containers[i]
    {
      var c := pod.containers[i];
      var wish := WishFor(wishes, c.name);
      if wish.Some? { SettledTwice(plan, wish.value, c); }
    }
    assert twice.containers == once.containers;
  }

  lemma SettledListIsAccurate(plan: Plan, source: Source, w: World, pods: seq<ListedPod>, after: World)
    requires AccurateList(source, w, pods) && SettledWorld(plan, source, w.pods, pods, after.pods)
    ensures AccurateList(source, after, ListedAgain(pods, after.pods))
  {
  }

  lemma SettledWorldTwice(plan: Plan, source: Source, before: map<string, PodValue>, pods: seq<ListedPod>,
      once: map<string, PodValue>, twice: map<string, PodValue>)
    requires SettledWorld(plan, source, before, pods, once)
    requires SettledWorld(plan, source, once, ListedAgain(pods, once), twice)
    ensures twice == once
  {
    var again := ListedAgain(pods, once);
    forall name | name in once
      ensures twice[name] == once[name]
    {
      if i :| 0 <= i < |pods| && pods[i].name == name {
        assert again[i].name == name;
        SettledPodTwice(plan, WishesFor(source, name), pods[i].value);
      } else {
        assert forall i | 0 <= i < |again| :: again[i].name != name;
      }
    }
  }

  // ---- How much a second cycle adjusts ----

  /** The entries of a pod that this cycle adjusts and the next one adjusts again. */
  function RestlessDue(plan: Plan, wishes: seq<Wish>, containers: seq<Container>): nat {
    if wishes == [] then 0 else
    var last := wishes[|wishes| - 1];
    var k := FirstNamed(containers, last.Name(), 0);
    RestlessDue(plan, wishes[..|wishes| - 1], containers) +
      (if k < |containers| && Adjusts(plan, last, containers[k]) && Restless(plan, last) then 1 else 0)
  }

  /** The container an entry names, in the settled pod. */
  lemma NamedInSettledPod(plan: Plan, wishes: seq<Wish>, at: nat, pod: PodValue)
    requires at < |wishes| && DistinctWishes(wishes)
    ensures var k := FirstNamed(pod.containers, wishes[at].Name(), 0);
      var settled := SettledPod(plan, wishes, pod).containers;
      && FirstNamed(settled, wishes[at].Name(), 0) == k
      && (k < |pod.containers| ==> settled[k] == Settled(plan, wishes[at], pod.containers[k]))
  {
    var settled := SettledPod(plan, wishes, pod).containers;
    assert forall i | 0 <= i < |settled| :: settled[i].name == pod.containers[i].name;
    SameFirstNamed(settled, pod.containers, wishes[at].Name(), 0);
    FoundWish(wishes, at);
  }

  /** The entry adjusts its container in the second list iff it is restless and adjusted it in the first. */
  predicate AdjustsOnlyAgain(plan: Plan, wish: Wish, first: seq<Container>, second: seq<Container>) {
    var k, l := FirstNamed(first, wish.Name(), 0), FirstNamed(second, wish.Name(), 0);
    (l < |second| && Adjusts(plan, wish, second[l])) <==>
    (k < |first| && Adjusts(plan, wish, first[k]) && Restless(plan, wish))
  }

  lemma EntryAdjustsAgain(plan: Plan, wishes: seq<Wish>, at: nat, pod: PodValue)
    requires at < |wishes| && DistinctWishes(wishes)
    ensures AdjustsOnlyAgain(plan, wishes[at], pod.containers, SettledPod(plan, wishes, pod).containers)
  {
    NamedInSettledPod(plan, wishes, at, pod);
    var k := FirstNamed(pod.containers, wishes[at].Name(), 0);
    if k < |pod.containers| {
      AdjustsAgainIff(plan, wishes[at], pod.containers[k]);
    }
  }

  lemma {:induction false} EntriesAdjustAgain(plan: Plan, wishes: seq<Wish>, first: seq<Container>,
      second: seq<Container>)
    requires forall i | 0 <= i < |wishes| :: AdjustsOnlyAgain(plan, wishes[i], first, second)
    ensures AdjustmentsDue(plan, wishes, second) == RestlessDue(plan, wishes, first)
  {
    if wishes != [] {
      EntriesAdjustAgain(plan, wishes[..|wishes| - 1], first, second);
      assert AdjustsOnlyAgain(plan, wishes[|wishes| - 1], first, second);
    }
  }

  lemma PodAdjustsAgain(plan: Plan, wishes: seq<Wish>, pod: PodValue)
    requires DistinctWishes(wishes)
    ensures AdjustmentsDue(plan, wishes, SettledPod(plan, wishes, pod).containers) ==
      RestlessDue(plan, wishes, pod.containers)
  {
    forall i | 0 <= i < |wishes|
      ensures AdjustsOnlyAgain(plan, wishes[i], pod.containers, SettledPod(plan, wishes, pod).containers)
    {
      EntryAdjustsAgain(plan, wishes, i, pod);
    }
    EntriesAdjustAgain(plan, wishes, pod.containers, SettledPod(plan, wishes, pod).containers);
  }

  function RestlessCount(plan: Plan, source: Source, pods: seq<ListedPod>): nat {
    if pods == [] then 0 else
    var last := pods[|pods| - 1];
    RestlessCount(plan, source, pods[..|pods| - 1]) +
      RestlessDue(plan, WishesFor(source, last.name), last.value.containers)
  }

  lemma {:induction false} AgainCounted(plan: Plan, source: Source, pods: seq<ListedPod>, again: seq<ListedPod>)
    requires |again| == |pods|
    requires forall i | 0 <= i < |pods| ::
      && DistinctNames(pods[i].value.containers) && DistinctWishes(WishesFor(source, pods[i].name))
      && again[i] == ListedPod(pods[i].name, SettledPod(plan, WishesFor(source, pods[i].name), pods[i].value))
    ensures CycleAdjustments(plan, source, again) == RestlessCount(plan, source, pods)
  {
    if pods != [] {
      var last := pods[|pods| - 1];
      AgainCounted(plan, source, pods[..|pods| - 1], again[..|pods| - 1]);
      PodAdjustsAgain(plan, WishesFor(source, last.name), last.value);
    }
  }

  /** World and total adjustments after a number of cycles over the same pods. */
  function Repeated(plan: Plan, answers: Answers, source: Source, w: World, pods: seq<ListedPod>,
      cycles: nat): (World, nat) {
    if cycles == 0 then (w, 0) else
    var (before, total) := Repeated(plan, answers, source, w, pods, cycles - 1);
    var c := CycleLoop(plan, answers, source, before, ListedAgain(pods, before.pods));
    (c.world, total + c.adjustments)
  }

  /** A further cycle, in a world whose pods the first cycle settled. */
  lemma FurtherCycle(plan: Plan, answers: Answers, source: Source, w: World, pods: seq<ListedPod>, before: World)
    requires InPlaceModes(plan) && AccurateList(source, w, pods)
    requires SettledWorld(plan, source, w.pods, pods, before.pods)
    requires Granted(answers, before, RestlessCount(plan, source, pods))
    ensures var c := CycleLoop(plan, answers, source, before, ListedAgain(pods, before.pods));
      && c.world.pods == before.pods && c.adjustments == RestlessCount(plan, source, pods)
      && |c.world.log| == |before.log| + c.adjustments
  {
    var again := ListedAgain(pods, before.pods);
    SettledListIsAccurate(plan, source, w, pods, before);
    AgainCounted(plan, source, pods, again);
    CycleSettles(plan, answers, source, before, again);
    var after := CycleLoop(plan, answers, source, before, again).world;
    SettledWorldTwice(plan, source, w.pods, pods, before.pods, after.pods);
  }

  /** Adjustments of a first cycle and of further ones. */
  function TotalDue(plan: Plan, source: Source, pods: seq<ListedPod>, further: nat): nat {
    if further == 0 then CycleAdjustments(plan, source, pods)
    else TotalDue(plan, source, pods, further - 1) + RestlessCount(plan, source, pods)
  }

  lemma {:induction false} TotalDueIsLinear(plan: Plan, source: Source, pods: seq<ListedPod>, further: nat)
    ensures TotalDue(plan, source, pods, further) ==
      CycleAdjustments(plan, source, pods) + further * RestlessCount(plan, source, pods)
  {
    if further > 0 {
      TotalDueIsLinear(plan, source, pods, further - 1);
      OneMoreTime(further, RestlessCount(plan, source, pods));
    }
  }

  lemma OneMoreTime(n: nat, x: nat)
    requires n > 0
    ensures (n - 1) * x + x == n * x
  {
  }

  /** Calls granted for a first part and a second part. */
  lemma GrantedInTwo(answers: Answers, w: World, first: nat, mid: World, second: nat)
    requires Granted(answers, w, first + second) && |mid.log| == |w.log| + first
    ensures Granted(answers, w, first) && Granted(answers, mid, second)
  {
  }

  /** Running a cycle a second time, on the list the first one left, changes no stored pod, and adjusts exactly
      the restless entries of the first. */
  lemma SecondCycle(plan: Plan, answers: Answers, source: Source, w: World, pods: seq<ListedPod>)
    requires InPlaceModes(plan) && AccurateList(source, w, pods)
    requires Granted(answers, w, CycleAdjustments(plan, source, pods) + RestlessCount(plan, source, pods))
    ensures var c := CycleLoop(plan, answers, source, w, pods);
      var d := CycleLoop(plan, answers, source, c.world, ListedAgain(pods, c.world.pods));
      d.world.pods == c.world.pods && d.adjustments == RestlessCount(plan, source, pods)
  {
    var first, again := CycleAdjustments(plan, source, pods), RestlessCount(plan, source, pods);
    var before := CycleLoop(plan, answers, source, w, pods).world;
    CycleSettles(plan, answers, source, w, pods);
    GrantedInTwo(answers, w, first, before, again);
    FurtherCycle(plan, answers, source, w, pods, before);
  }

  /** Over any number of cycles: the pods stand still after the first, and every later cycle counts the
      restless entries once more. */
  lemma TotalOverCycles(plan: Plan, answers: Answers, source: Source, w: World, pods: seq<ListedPod>, cycles: nat)
    requires InPlaceModes(plan) && AccurateList(source, w, pods) && cycles > 0
    requires Granted(answers, w, TotalDue(plan, source, pods, cycles - 1))
    ensures var (after, total) := Repeated(plan, answers, source, w, pods, cycles);
      && after.pods == CycleLoop(plan, answers, source, w, pods).world.pods
      && total == CycleAdjustments(plan, source, pods) + (cycles - 1) * RestlessCount(plan, source, pods)
  {
    AllCycles(plan, answers, source, w, pods, cycles);
    TotalDueIsLinear(plan, source, pods, cycles - 1);
  }

  lemma {:induction false} AllCycles(plan: Plan, answers: Answers, source: Source, w: World, pods: seq<ListedPod>,
      cycles: nat)
    requires InPlaceModes(plan) && AccurateList(source, w, pods) && cycles > 0
    requires Granted(answers, w, TotalDue(plan, source, pods, cycles - 1))
    ensures var (after, total) := Repeated(plan, answers, source, w, pods, cycles);
      && after.pods == CycleLoop(plan, answers, source, w, pods).world.pods
      && total == TotalDue(plan, source, pods, cycles - 1) && |after.log| == |w.log| + total
  {
    if cycles == 1 {
      CycleSettles(plan, answers, source, w, pods);
      assert Repeated(plan, answers, source, w, pods, 0) == (w, 0);
      assert ListedAgain(pods, w.pods) == pods;
    } else {
      AllCycles(plan, answers, source, w, pods, cycles - 1);
      var before := Repeated(plan, answers, source, w, pods, cycles - 1).0;
      FirstIsDue(plan, source, pods, cycles - 1);
      GrantedInTwo(answers, w, TotalDue(plan, source, pods, cycles - 2), before, RestlessCount(plan, source, pods));
      assert SettledWorld(plan, source, w.pods, pods, before.pods) by {
        CycleSettles(plan, answers, source, w, pods);
      }
      FurtherCycle(plan, answers, source, w, pods, before);
    }
  }

  lemma FirstIsDue(plan: Plan, source: Source, pods: seq<ListedPod>, further: nat)
    ensures CycleAdjustments(plan, source, pods) <= TotalDue(plan, source, pods, further)
  {
  }

  /** With a threshold of at least ten percent and calm entries, the second cycle adjusts nothing. */
  lemma SecondCycleQuiet(plan: Plan, answers: Answers, source: Source, w: World, pods: seq<ListedPod>)
    requires InPlaceModes(plan) && AccurateList(source, w, pods) && plan.cfg.threshold >= 10.0
    requires Granted(answers, w, CycleAdjustments(plan, source, pods))
    requires forall i, wish | 0 <= i < |pods| && wish in WishesFor(source, pods[i].name) :: Calm(plan, wish)
    ensures var c := CycleLoop(plan, answers, source, w, pods);
      CycleLoop(plan, answers, source, c.world, ListedAgain(pods, c.world.pods)).adjustments == 0
  {
    NoneRestless(plan, source, pods);
    SecondCycle(plan, answers, source, w, pods);
  }

  lemma {:induction false} NoneRestless(plan: Plan, source: Source, pods: seq<ListedPod>)
    requires plan.cfg.threshold >= 10.0
    requires forall i, wish | 0 <= i < |pods| && wish in WishesFor(source, pods[i].name) :: Calm(plan, wish)
    ensures RestlessCount(plan, source, pods) == 0
  {
    if pods != [] {
      var rest, last := pods[..|pods| - 1], pods[|pods| - 1];
      forall i, wish | 0 <= i < |rest| && wish in WishesFor(source, rest[i].name)
        ensures Calm(plan, wish)
      {
        assert rest[i] == pods[i];
      }
      NoneRestless(plan, source, rest);
      forall wish | wish in WishesFor(source, last.name)
        ensures !Restless(plan, wish)
      {
        CalmIsNotRestless(plan, wish);
      }
      NoRestlessEntries(plan, WishesFor(source, last.name), last.value.containers);
    }
  }

  lemma {:induction false} NoRestlessEntries(plan: Plan, wishes: seq<Wish>, containers: seq<Container>)
    requires forall wish | wish in wishes :: !Restless(plan, wish)
    ensures RestlessDue(plan, wishes, containers) == 0
  {
    if wishes != [] {
      NoRestlessEntries(plan, wishes[..|wishes| - 1], containers);
    }
  }

  // ---- No container below its usage ----

  /** After a cycle a measured container of a listed pod has requests that cover its usage, if there is room for its
      margin, and unless it was adjusted under a LimitRange max that does not survive truncation. */
  lemma CycleCoversUsage(plan: Plan, answers: Answers, metrics: map<string, seq<ContainerMetrics>>, w: World,
      pods: seq<ListedPod>, i: nat, j: nat, k: nat)
    requires InPlaceModes(plan) && AccurateList(OwnAlgorithm(metrics), w, pods)
    requires Granted(answers, w, CycleAdjustments(plan, OwnAlgorithm(metrics), pods))
    requires Standard(plan) && plan.cfg.threshold <= 20.0
    requires i < |pods| && j < |pods[i].value.containers| && NonNegativeRequests(pods[i].value.containers[j])
    requires pods[i].name in metrics && k < |metrics[pods[i].name]|
    requires var m := metrics[pods[i].name][k];
      m.name == pods[i].value.containers[j].name != "" && m.cpu >= 0.0 && m.memory >= 0.0 && Roomy(plan, m)
    ensures var after := CycleLoop(plan, answers, OwnAlgorithm(metrics), w, pods).world.pods;
      var m, c := metrics[pods[i].name][k], pods[i].value.containers[j];
      && pods[i].name in after && |after[pods[i].name].containers| == |pods[i].value.containers|
      && (Covers(after[pods[i].name].containers[j], m) <==> !Adjusts(plan, Measured(m), c) || FineMaxima(plan, m))
  {
    var source := OwnAlgorithm(metrics);
    CycleSettles(plan, answers, source, w, pods);
    var wishes, m, c := WishesFor(source, pods[i].name), metrics[pods[i].name][k], pods[i].value.containers[j];
    assert wishes[k] == Measured(m);
    FoundWish(wishes, k);
    assert SettledBy(plan, wishes, c) == Settled(plan, Measured(m), c);
    NeverStarved(plan, m, c);
  }
}
