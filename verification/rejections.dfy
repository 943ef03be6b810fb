/** Mode InPlace under any pattern of rejected patches: which resizes of a pod end up stored. */
module Rejections {
  import opened Quantities
  import opened Calculator
  import opened Pods
  import opened ApiTypes
  import opened Metrics
  import opened Updater
  import opened Evaluation
  import opened Settling
  import opened Cycles
  import opened Counting
  import Vpa

  predicate ResizesOnly(plan: Plan) {
    plan.mode.InPlace? && !plan.dryRun
  }

  /** What becomes of an entry: it makes no call, its call is rejected, or accepted without or with a change to the
      copy. */
  datatype Attempt = Skipped | Rejected | Unchanged | Changing {
    predicate Accepted() {
      Unchanged? || Changing?
    }
  }

  /** The values of the entry are not those of the container already. */
  predicate Changes(plan: Plan, wish: Wish, containers: seq<Container>) {
    var k := FirstNamed(containers, wish.Name(), 0);
    k < |containers| && Settled(plan, wish, containers[k]) != containers[k]
  }

  /** Each entry that adjusts its container makes one call, after those of the entries before it. */
  function AttemptAfter(plan: Plan, answers: Answers, w: World, before: seq<Wish>, wish: Wish,
      containers: seq<Container>): Attempt {
    if !AdjustsNamed(plan, wish, containers) then Skipped
    else Tried(answers(|w.log| + AdjustmentsDue(plan, before, containers)), Changes(plan, wish, containers))
  }

  function Tried(accepted: bool, changes: bool): Attempt {
    if !accepted then Rejected else if changes then Changing else Unchanged
  }

  function Attempts(plan: Plan, answers: Answers, w: World, wishes: seq<Wish>, containers: seq<Container>)
    : seq<Attempt>
  {
    seq(|wishes|, i requires 0 <= i < |wishes| => AttemptAfter(plan, answers, w, wishes[..i], wishes[i], containers))
  }

  /** The entries whose values are stored, and those whose values are in the copy. */
  datatype Landing = Landing(stored: seq<Wish>, copy: seq<Wish>) {

    /** A rejected resize stays in the copy; an accepted one stores the whole copy if it changes it, and otherwise
        resets the copy to what is stored. */
    function After(wish: Wish, attempt: Attempt): Landing {
      match attempt
      case Skipped => this
      case Rejected => this.(copy := copy + [wish])
      case Unchanged => Landing(stored, stored)
      case Changing => Landing(copy + [wish], copy + [wish])
    }
  }

  function Effect(wishes: seq<Wish>, attempts: seq<Attempt>): Landing
    requires |attempts| == |wishes|
  {
    if wishes == [] then Landing([], []) else
    var n := |wishes| - 1;
    Effect(wishes[..n], attempts[..n]).After(wishes[n], attempts[n])
  }

  /** The pod and its stored value are settled by these entries. */
  predicate Landed(plan: Plan, e: Landing, w: World, name: string, pod: PodValue, p: Progress) {
    && p.pod == SettledPod(plan, e.copy, pod)
    && p.world.pods == w.pods[name := SettledPod(plan, e.stored, pod)]
  }

  /** What a loop has done to one pod after the first entries of its list. */
  predicate Pends(plan: Plan, answers: Answers, wishes: seq<Wish>, w: World, name: string, pod: PodValue, p: Progress) {
    && Landed(plan, Effect(wishes, Attempts(plan, answers, w, wishes, pod.containers)), w, name, pod, p)
    && |p.world.log| == |w.log| + AdjustmentsDue(plan, wishes, pod.containers)
  }

  predicate NoneNamed(wishes: seq<Wish>, name: string) {
    forall i | 0 <= i < |wishes| :: wishes[i].Name() != name
  }

  lemma {:induction false} EffectNames(wishes: seq<Wish>, attempts: seq<Attempt>, name: string)
    requires |attempts| == |wishes| && NoneNamed(wishes, name)
    ensures var e := Effect(wishes, attempts); NoneNamed(e.stored, name) && NoneNamed(e.copy, name)
  {
    if wishes != [] {
      EffectNames(wishes[..|wishes| - 1], attempts[..|wishes| - 1], name);
    }
  }

  lemma EffectSnoc(wishes: seq<Wish>, attempts: seq<Attempt>, wish: Wish, attempt: Attempt)
    requires |attempts| == |wishes|
    ensures Effect(wishes + [wish], attempts + [attempt]) == Effect(wishes, attempts).After(wish, attempt)
  {
    var n := |wishes|;
    assert (wishes + [wish])[..n] == wishes && (attempts + [attempt])[..n] == attempts;
    assert (wishes + [wish])[n] == wish && (attempts + [attempt])[n] == attempt;
  }

  lemma AttemptsSnoc(plan: Plan, answers: Answers, w: World, rest: seq<Wish>, last: Wish, containers: seq<Container>)
    ensures Attempts(plan, answers, w, rest + [last], containers) ==
      Attempts(plan, answers, w, rest, containers) + [AttemptAfter(plan, answers, w, rest, last, containers)]
  {
    var wishes := rest + [last];
    var all, before := Attempts(plan, answers, w, wishes, containers), Attempts(plan, answers, w, rest, containers);
    assert wishes[..|rest|] == rest && wishes[|rest|] == last;
    forall i | 0 <= i < |rest|
      ensures all[i] == before[i]
    {
      assert wishes[..i] == rest[..i] && wishes[i] == rest[i];
    }
    assert all[..|rest|] == before;
    assert all == all[..|rest|] + [all[|rest|]];
  }

  lemma SameAnnotations(x: map<string, Annotation>)
    ensures MergeAnnotations(x, x, x) == x
  {
  }

  /** Patching one settled pod into another. */
  lemma PatchSettled(plan: Plan, stored: seq<Wish>, copy: seq<Wish>, wish: Wish, pod: PodValue)
    requires DistinctNames(pod.containers) && NoneNamed(copy, wish.Name())
    ensures var settled, changed := SettledPod(plan, stored, pod), SettledPod(plan, copy + [wish], pod);
      MergePatch(settled, SettledPod(plan, copy, pod), changed) ==
        if Changes(plan, wish, pod.containers) then changed else settled
  {
    SettledPodSnoc(plan, copy, wish, pod);
    SameAnnotations(pod.annotations);
    var base, changed := SettledPod(plan, copy, pod), SettledPod(plan, copy + [wish], pod);
    if Changes(plan, wish, pod.containers) {
      var k := FirstNamed(pod.containers, wish.Name(), 0);
      assert changed.containers[k] != base.containers[k];
    } else {
      assert changed.containers == base.containers;
    }
  }

  /** What one call does to copy and store. */
  predicate Called(accepted: bool, w: World, name: string, pod: PodValue, changed: PodValue, after: World,
      copy: PodValue)
  {
    && name in w.pods && |after.log| == |w.log| + 1
    && if accepted then copy == MergePatch(w.pods[name], pod, changed) && after.pods == w.pods[name := copy]
       else copy == changed && after.pods == w.pods
  }

  lemma CommitCalls(plan: Plan, answers: Answers, name: string, p: Progress, rec: ResourceRecommendation,
      changed: PodValue)
    requires ResizesOnly(plan) && name in p.world.pods && rec.significant && Resized(p.pod, rec) == Some(changed)
    ensures var q := Commit(plan, answers, name, p, rec);
      Called(answers(|p.world.log|), p.world, name, p.pod, changed, q.world, q.pod)
  {
  }

  lemma CallLands(plan: Plan, accepted: bool, changes: bool, e: Landing, wish: Wish, w: World, name: string,
      pod: PodValue, p: Progress, q: Progress)
    requires var settled, base, changed := SettledPod(plan, e.stored, pod), SettledPod(plan, e.copy, pod),
        SettledPod(plan, e.copy + [wish], pod);
      && MergePatch(settled, base, changed) == (if changes then changed else settled)
      && Called(accepted, p.world, name, base, changed, q.world, q.pod)
    requires Landed(plan, e, w, name, pod, p)
    ensures Landed(plan, e.After(wish, Tried(accepted, changes)), w, name, pod, q)
  {
    var settled := SettledPod(plan, e.stored, pod);
    assert accepted ==> w.pods[name := settled][name := q.pod] == w.pods[name := q.pod];
  }

  lemma CommitLands(plan: Plan, answers: Answers, e: Landing, wish: Wish, w: World, name: string, pod: PodValue,
      p: Progress, rec: ResourceRecommendation)
    requires ResizesOnly(plan) && name in w.pods && DistinctNames(pod.containers) && NoneNamed(e.copy, wish.Name())
    requires Landed(plan, e, w, name, pod, p) && rec.significant
    requires Resized(p.pod, rec) == Some(SettledPod(plan, e.copy + [wish], pod))
    ensures var q := Commit(plan, answers, name, p, rec);
      var attempt := Tried(answers(|p.world.log|), Changes(plan, wish, pod.containers));
      && Landed(plan, e.After(wish, attempt), w, name, pod, q)
      && |q.world.log| == |p.world.log| + 1
  {
    var q := Commit(plan, answers, name, p, rec);
    CommitCalls(plan, answers, name, p, rec, SettledPod(plan, e.copy + [wish], pod));
    PatchSettled(plan, e.stored, e.copy, wish, pod);
    CallLands(plan, answers(|p.world.log|), Changes(plan, wish, pod.containers), e, wish, w, name, pod, p, q);
  }

  /** A call of the entry is the effect of one more entry. */
  lemma AttemptPends(plan: Plan, answers: Answers, wishes: seq<Wish>, wish: Wish, w: World, name: string,
      pod: PodValue, p: Progress, q: Progress)
    requires Pends(plan, answers, wishes, w, name, pod, p) && AdjustsNamed(plan, wish, pod.containers)
    requires |q.world.log| == |p.world.log| + 1
    requires var e := Effect(wishes, Attempts(plan, answers, w, wishes, pod.containers));
      Landed(plan, e.After(wish, Tried(answers(|p.world.log|), Changes(plan, wish, pod.containers))), w, name, pod, q)
    ensures Pends(plan, answers, wishes + [wish], w, name, pod, q)
  {
    assert AttemptAfter(plan, answers, w, wishes, wish, pod.containers) ==
      Tried(answers(|p.world.log|), Changes(plan, wish, pod.containers));
    DueNext(plan, wishes, wish, pod.containers);
    EffectNext(plan, answers, w, wishes, wish, pod.containers);
  }

  /** Committing the verdict of an entry for the container of its name. */
  lemma CommitPends(plan: Plan, answers: Answers, wishes: seq<Wish>, wish: Wish, w: World, name: string, pod: PodValue,
      p: Progress)
    requires ResizesOnly(plan) && name in w.pods && DistinctNames(pod.containers) && NoneNamed(wishes, wish.Name())
    requires Pends(plan, answers, wishes, w, name, pod, p)
    requires var k := FirstNamed(pod.containers, wish.Name(), 0);
      k < |pod.containers| && Verdict(plan, wish, pod.containers[k]).Some?
    ensures var k := FirstNamed(pod.containers, wish.Name(), 0);
      Pends(plan, answers, wishes + [wish], w, name, pod,
        Commit(plan, answers, name, p, Verdict(plan, wish, pod.containers[k]).value))
  {
    var k := FirstNamed(pod.containers, wish.Name(), 0);
    var rec := Verdict(plan, wish, pod.containers[k]).value;
    var attempts := Attempts(plan, answers, w, wishes, pod.containers);
    var e := Effect(wishes, attempts);
    EffectNames(wishes, attempts, wish.Name());
    if rec.significant {
      VerdictSettles(plan, e.copy, wish, pod);
      CommitLands(plan, answers, e, wish, w, name, pod, p, rec);
      AttemptPends(plan, answers, wishes, wish, w, name, pod, p, Commit(plan, answers, name, p, rec));
    } else {
      SkipPends(plan, answers, wishes, wish, w, name, pod, Commit(plan, answers, name, p, rec));
    }
  }

  lemma DueNext(plan: Plan, wishes: seq<Wish>, wish: Wish, containers: seq<Container>)
    ensures AdjustmentsDue(plan, wishes + [wish], containers) ==
      AdjustmentsDue(plan, wishes, containers) + (if AdjustsNamed(plan, wish, containers) then 1 else 0)
  {
    AdjustmentsDueSnoc(plan, wishes, wish, containers);
  }

  lemma EffectNext(plan: Plan, answers: Answers, w: World, wishes: seq<Wish>, wish: Wish, containers: seq<Container>)
    ensures Effect(wishes + [wish], Attempts(plan, answers, w, wishes + [wish], containers)) ==
      Effect(wishes, Attempts(plan, answers, w, wishes, containers)).After(
        wish, AttemptAfter(plan, answers, w, wishes, wish, containers))
  {
    AttemptsSnoc(plan, answers, w, wishes, wish, containers);
    EffectSnoc(wishes, Attempts(plan, answers, w, wishes, containers), wish,
      AttemptAfter(plan, answers, w, wishes, wish, containers));
  }

  /** An entry that names no container, or yields no verdict. */
  lemma SkipPends(plan: Plan, answers: Answers, wishes: seq<Wish>, wish: Wish, w: World, name: string, pod: PodValue,
      p: Progress)
    requires Pends(plan, answers, wishes, w, name, pod, p) && !AdjustsNamed(plan, wish, pod.containers)
    ensures Pends(plan, answers, wishes + [wish], w, name, pod, p)
  {
    EffectNext(plan, answers, w, wishes, wish, pod.containers);
    DueNext(plan, wishes, wish, pod.containers);
  }

  lemma {:induction false} OwnLoopPends(plan: Plan, answers: Answers, w: World, name: string, pod: PodValue,
      ms: seq<ContainerMetrics>)
    requires ResizesOnly(plan) && Current(w, name, pod) && DistinctNames(pod.containers)
    requires DistinctWishes(MeasuredWishes(ms))
    ensures Pends(plan, answers, MeasuredWishes(ms), w, name, pod,
      OwnLoop(plan, answers, name, Allocations(pod.containers), Progress(w, pod, [], 0, []), ms))
    decreases |ms|
  {
    if ms == [] {
      NothingPends(plan, answers, w, name, pod);
    } else {
      var rest, m := ms[..|ms| - 1], ms[|ms| - 1];
      var before, wish := MeasuredWishes(rest), Measured(m);
      assert MeasuredWishes(ms) == before + [wish];
      LastNameIsNew(before, wish);
      OwnLoopPends(plan, answers, w, name, pod, rest);
      AllocationOfNamed(pod.containers, m.name);
      var p := OwnLoop(plan, answers, name, Allocations(pod.containers), Progress(w, pod, [], 0, []), rest);
      var k := FirstNamed(pod.containers, m.name, 0);
      if k == |pod.containers| || OwnProposal(plan, m, ReadResources(pod.containers[k])).None? {
        SkipPends(plan, answers, before, wish, w, name, pod, p);
      } else {
        var proposal := OwnProposal(plan, m, ReadResources(pod.containers[k])).value;
        var q := p.(reasons := p.reasons + ReasonsBy(plan.policy, proposal));
        CommitPends(plan, answers, before, wish, w, name, pod, q);
      }
    }
  }

  lemma NothingPends(plan: Plan, answers: Answers, w: World, name: string, pod: PodValue)
    requires Current(w, name, pod)
    ensures Pends(plan, answers, [], w, name, pod, Progress(w, pod, [], 0, []))
  {
    assert SettledPod(plan, [], pod).containers == pod.containers;
    assert w.pods[name := pod] == w.pods;
  }

  lemma VpaStepPends(plan: Plan, answers: Answers, before: seq<Wish>, rec: Vpa.ContainerRecommendation, w: World,
      name: string, pod: PodValue, p: Progress)
    requires ResizesOnly(plan) && name in w.pods && DistinctNames(pod.containers)
    requires NoneNamed(before, rec.containerName) && Pends(plan, answers, before, w, name, pod, p)
    ensures Pends(plan, answers, before + [Recommended(rec)], w, name, pod, VpaStep(plan, answers, name, p, rec))
  {
    var wish, k := Recommended(rec), FirstNamed(pod.containers, rec.containerName, 0);
    var attempts := Attempts(plan, answers, w, before, pod.containers);
    var e := Effect(before, attempts);
    EffectNames(before, attempts, rec.containerName);
    assert FirstNamed(p.pod.containers, rec.containerName, 0) == k &&
        (k < |pod.containers| ==> p.pod.containers[k] == pod.containers[k]) by {
      SettledPodSnoc(plan, e.copy, wish, pod);
    }
    SettledNamesDistinct(plan, e.copy, pod);
    AllocationOfNamed(p.pod.containers, rec.containerName);
    var q := p.(reasons := p.reasons + ReasonsBy(plan.policy, VpaProposal(rec, plan.constraints)));
    if k == |pod.containers| {
      UnknownEntrySkipped(plan, answers, name, p, rec);
      SkipPends(plan, answers, before, wish, w, name, pod, VpaStep(plan, answers, name, p, rec));
    } else {
      KnownEntryJudged(plan, rec, pod.containers[k], Allocations(p.pod.containers));
      CommitPends(plan, answers, before, wish, w, name, pod, q);
    }
  }

  lemma {:induction false} VpaLoopPends(plan: Plan, answers: Answers, w: World, name: string, pod: PodValue,
      recs: seq<Vpa.ContainerRecommendation>)
    requires ResizesOnly(plan) && Current(w, name, pod) && DistinctNames(pod.containers)
    requires DistinctWishes(RecommendedWishes(recs))
    ensures Pends(plan, answers, RecommendedWishes(recs), w, name, pod,
      VpaLoop(plan, answers, name, Progress(w, pod, [], 0, []), recs))
    decreases |recs|
  {
    if recs == [] {
      NothingPends(plan, answers, w, name, pod);
    } else {
      var rest, rec := recs[..|recs| - 1], recs[|recs| - 1];
      var before := RecommendedWishes(rest);
      assert RecommendedWishes(recs) == before + [Recommended(rec)];
      LastNameIsNew(before, Recommended(rec));
      VpaLoopPends(plan, answers, w, name, pod, rest);
      VpaStepPends(plan, answers, before, rec, w, name, pod,
        VpaLoop(plan, answers, name, Progress(w, pod, [], 0, []), rest));
    }
  }

  // ---- Which entries land ----

  /** No call is accepted from one entry up to another. */
  predicate NoneAccepted(attempts: seq<Attempt>, i: nat, until: nat)
    requires until <= |attempts|
  {
    forall m | i <= m < until :: !attempts[m].Accepted()
  }

  /** The first call accepted from the entry on is that of entry j, and it changes the copy. */
  predicate CarriedBy(attempts: seq<Attempt>, i: nat, j: nat)
    requires j < |attempts|
  {
    i <= j && attempts[j].Changing? && NoneAccepted(attempts, i, j)
  }

  predicate Lands(attempts: seq<Attempt>, i: nat) {
    exists j | 0 <= j < |attempts| :: CarriedBy(attempts, i, j)
  }

  lemma NoneAcceptedSnoc(attempts: seq<Attempt>, last: Attempt, i: nat, until: nat)
    requires until <= |attempts|
    ensures NoneAccepted(attempts + [last], i, until) <==> NoneAccepted(attempts, i, until)
  {
    assert forall m | 0 <= m < until :: (attempts + [last])[m] == attempts[m];
  }

  lemma NoneAcceptedToEnd(attempts: seq<Attempt>, last: Attempt, i: nat)
    requires i <= |attempts|
    ensures NoneAccepted(attempts + [last], i, |attempts| + 1) <==>
      NoneAccepted(attempts, i, |attempts|) && !last.Accepted()
  {
    var all := attempts + [last];
    assert all[|attempts|] == last;
    assert forall m | 0 <= m < |attempts| :: all[m] == attempts[m];
  }

  lemma LandsSnoc(attempts: seq<Attempt>, last: Attempt, i: nat)
    requires i <= |attempts|
    ensures Lands(attempts + [last], i) <==>
      Lands(attempts, i) || (last.Changing? && NoneAccepted(attempts, i, |attempts|))
  {
    var all, n := attempts + [last], |attempts|;
    forall j | 0 <= j < n
      ensures CarriedBy(all, i, j) <==> CarriedBy(attempts, i, j)
    {
      NoneAcceptedSnoc(attempts, last, i, j);
    }
    NoneAcceptedSnoc(attempts, last, i, n);
    assert CarriedBy(all, i, n) <==> last.Changing? && NoneAccepted(attempts, i, n);
  }

  /** An entry is among the stored ones iff it lands, and in the copy iff it lands or no call from it on was
      accepted. */
  predicate Tracked(wishes: seq<Wish>, attempts: seq<Attempt>, i: nat, e: Landing)
    requires i < |wishes| == |attempts|
  {
    && (wishes[i] in e.stored <==> Lands(attempts, i))
    && (wishes[i] in e.copy <==> Lands(attempts, i) || NoneAccepted(attempts, i, |attempts|))
  }

  lemma TrackedNext(wishes: seq<Wish>, attempts: seq<Attempt>, wish: Wish, attempt: Attempt, i: nat, e: Landing)
    requires i < |wishes| == |attempts| && wishes[i] != wish && Tracked(wishes, attempts, i, e)
    ensures Tracked(wishes + [wish], attempts + [attempt], i, e.After(wish, attempt))
  {
    LandsSnoc(attempts, attempt, i);
    NoneAcceptedToEnd(attempts, attempt, i);
  }

  lemma TrackedNow(wishes: seq<Wish>, attempts: seq<Attempt>, wish: Wish, attempt: Attempt, e: Landing)
    requires |wishes| == |attempts| && wish !in e.stored && wish !in e.copy && !attempt.Skipped?
    ensures Tracked(wishes + [wish], attempts + [attempt], |wishes|, e.After(wish, attempt))
  {
    LandsSnoc(attempts, attempt, |wishes|);
    NoneAcceptedToEnd(attempts, attempt, |wishes|);
    assert !Lands(attempts, |wishes|);
    assert (attempts + [attempt])[|wishes|] == attempt;
  }

  lemma NotAmong(wishes: seq<Wish>, wish: Wish)
    requires NoneNamed(wishes, wish.Name())
    ensures wish !in wishes
  {
  }

  lemma {:induction false} StoredIffLands(wishes: seq<Wish>, attempts: seq<Attempt>, i: nat)
    requires i < |wishes| == |attempts| && DistinctWishes(wishes) && !attempts[i].Skipped?
    ensures Tracked(wishes, attempts, i, Effect(wishes, attempts))
    decreases |wishes|
  {
    var n := |wishes| - 1;
    var rest, wish, tried, attempt := wishes[..n], wishes[n], attempts[..n], attempts[n];
    assert wishes == rest + [wish] && attempts == tried + [attempt];
    LastNameIsNew(rest, wish);
    EffectSnoc(rest, tried, wish, attempt);
    if i < n {
      StoredIffLands(rest, tried, i);
      TrackedNext(rest, tried, wish, attempt, i, Effect(rest, tried));
    } else {
      EffectNames(rest, tried, wish.Name());
      NotAmong(Effect(rest, tried).stored, wish);
      NotAmong(Effect(rest, tried).copy, wish);
      TrackedNow(rest, tried, wish, attempt, Effect(rest, tried));
    }
  }

  lemma {:induction false} OnlyAttempted(wishes: seq<Wish>, attempts: seq<Attempt>, x: Wish)
    requires |wishes| == |attempts|
    requires var e := Effect(wishes, attempts); x in e.stored || x in e.copy
    ensures exists i | 0 <= i < |wishes| :: wishes[i] == x && !attempts[i].Skipped?
  {
    if wishes != [] {
      var n := |wishes| - 1;
      var e := Effect(wishes[..n], attempts[..n]);
      if x in e.stored || x in e.copy {
        OnlyAttempted(wishes[..n], attempts[..n], x);
        var i :| 0 <= i < n && wishes[..n][i] == x && !attempts[..n][i].Skipped?;
        assert wishes[i] == x && !attempts[i].Skipped?;
      } else {
        assert wishes[n] == x && !attempts[n].Skipped?;
      }
    }
  }

  // ---- What is stored ----

  lemma {:induction false} WishForFound(wishes: seq<Wish>, name: string)
    ensures match WishFor(wishes, name)
      case None => NoneNamed(wishes, name)
      case Some(wish) => wish in wishes && wish.Name() == name
  {
    if wishes != [] && wishes[|wishes| - 1].Name() != name {
      WishForFound(wishes[..|wishes| - 1], name);
    }
  }

  /** The stored entry for a name is the entry of that name, if it lands. */
  lemma LandedWish(wishes: seq<Wish>, attempts: seq<Attempt>, i: nat)
    requires i < |wishes| == |attempts| && DistinctWishes(wishes)
    ensures WishFor(Effect(wishes, attempts).stored, wishes[i].Name()) ==
      if !attempts[i].Skipped? && Lands(attempts, i) then Some(wishes[i]) else None
  {
    var stored, name := Effect(wishes, attempts).stored, wishes[i].Name();
    WishForFound(stored, name);
    if WishFor(stored, name).Some? {
      var wish := WishFor(stored, name).value;
      OnlyAttempted(wishes, attempts, wish);
      var j :| 0 <= j < |wishes| && wishes[j] == wish && !attempts[j].Skipped?;
      assert j == i;
      StoredIffLands(wishes, attempts, i);
    } else if !attempts[i].Skipped? {
      StoredIffLands(wishes, attempts, i);
      assert wishes[i] !in stored;
    }
  }

  /** The attempts of the entries for a listed pod. */
  function PodAttempts(plan: Plan, answers: Answers, source: Source, w: World, pod: ListedPod): seq<Attempt> {
    Attempts(plan, answers, w, WishesFor(source, pod.name), pod.value.containers)
  }

  lemma PodPends(plan: Plan, answers: Answers, source: Source, w: World, pod: ListedPod)
    requires ResizesOnly(plan) && Current(w, pod.name, pod.value) && DistinctNames(pod.value.containers)
    requires DistinctWishes(WishesFor(source, pod.name))
    ensures Pends(plan, answers, WishesFor(source, pod.name), w, pod.name, pod.value,
      EvaluatePod(plan, answers, source, w, pod))
  {
    match source
    case FromVpa(recs) => VpaLoopPends(plan, answers, w, pod.name, pod.value, recs);
    case OwnAlgorithm(metrics) =>
      if pod.name in metrics {
        OwnLoopPends(plan, answers, w, pod.name, pod.value, metrics[pod.name]);
      } else {
        NothingPends(plan, answers, w, pod.name, pod.value);
      }
  }

  /** In mode InPlace, under any answers, nothing is stored by evaluating a pod but resized containers of that pod; a
      container without an entry is stored as it was, and one with an entry is stored settled iff the entry lands: the
      first call accepted from the entry on changes the copy. So a rejected resize is stored by the next accepted call,
      unless that call changes nothing, and then it is lost. */
  lemma StoredAfterRejections(plan: Plan, answers: Answers, source: Source, w: World, pod: ListedPod)
    requires ResizesOnly(plan) && Current(w, pod.name, pod.value) && DistinctNames(pod.value.containers)
    requires DistinctWishes(WishesFor(source, pod.name))
    ensures var wishes, before := WishesFor(source, pod.name), pod.value.containers;
      var attempts := PodAttempts(plan, answers, source, w, pod);
      var after := EvaluatePod(plan, answers, source, w, pod).world.pods;
      && pod.name in after && |after[pod.name].containers| == |before|
      && after == w.pods[pod.name := pod.value.(containers := after[pod.name].containers)]
      && (forall k | 0 <= k < |before| && NoneNamed(wishes, before[k].name) ::
            after[pod.name].containers[k] == before[k])
      && (forall i, k | 0 <= i < |wishes| && 0 <= k < |before| && wishes[i].Name() == before[k].name ::
            after[pod.name].containers[k] ==
            if Lands(attempts, i) then Settled(plan, wishes[i], before[k]) else before[k])
  {
    var wishes, before := WishesFor(source, pod.name), pod.value.containers;
    var attempts := PodAttempts(plan, answers, source, w, pod);
    var stored := Effect(wishes, attempts).stored;
    PodPends(plan, answers, source, w, pod);
    var after := EvaluatePod(plan, answers, source, w, pod).world.pods;
    assert after[pod.name] == SettledPod(plan, stored, pod.value);
    forall k | 0 <= k < |before| && NoneNamed(wishes, before[k].name)
      ensures after[pod.name].containers[k] == before[k]
    {
      EffectNames(wishes, attempts, before[k].name);
      AbsentWish(stored, before[k].name);
    }
    forall i, k | 0 <= i < |wishes| && 0 <= k < |before| && wishes[i].Name() == before[k].name
      ensures after[pod.name].containers[k] ==
        if Lands(attempts, i) then Settled(plan, wishes[i], before[k]) else before[k]
    {
      LandedWish(wishes, attempts, i);
      SkippedIsSettled(plan, answers, w, wishes, before, i, k);
    }
  }

  /** An entry that makes no call leaves its container as it is. */
  lemma SkippedIsSettled(plan: Plan, answers: Answers, w: World, wishes: seq<Wish>, containers: seq<Container>, i: nat,
      k: nat)
    requires i < |wishes| && k < |containers| && DistinctNames(containers) && wishes[i].Name() == containers[k].name
    ensures Attempts(plan, answers, w, wishes, containers)[i].Skipped? ==>
      Settled(plan, wishes[i], containers[k]) == containers[k]
  {
    assert FirstNamed(containers, wishes[i].Name(), 0) == k;
  }
}
