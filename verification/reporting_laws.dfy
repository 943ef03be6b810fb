/** What a cycle reports, under any API answers: the recommendations and the reasons of every entry that yields one. */
module ReportingLaws {
  import opened Quantities
  import opened Calculator
  import opened NamespaceLimits
  import opened Pods
  import opened ApiTypes
  import opened Metrics
  import opened Updater
  import opened UpdaterLaws
  import opened Evaluation
  import opened Settling
  import opened ClosedLoop
  import opened Cycles
  import Vpa

  // ---- One entry ----

  /** A measured entry yields a recommendation iff it is named and the listed pod has a container of that name; a VPA
      entry always does. */
  predicate Yields(wish: Wish, pod: PodValue) {
    wish.Measured? ==> wish.Name() != "" && HasContainer(pod, wish.Name())
  }

  predicate Nameable(wish: Wish) {
    wish.Measured? ==> wish.Name() != ""
  }

  /** An entry that can yield a recommendation. */
  type Entry = wish: Wish | Nameable(wish) witness Recommended(Vpa.ContainerRecommendation("", map[], map[]))

  /** The recommendation before the namespace clamp. */
  function Asked(plan: Plan, wish: Entry): ResourceRecommendation {
    match wish
    case Measured(m) => OwnProposal(plan, m, ReadResources(BLANK)).value
    case Recommended(rec) => VpaProposal(rec, plan.constraints)
  }

  function Reported(plan: Plan, wish: Entry): ContainerRecommendation {
    StatusOf(Verdict(plan, wish, BLANK).value)
  }

  /** What an entry reports is the verdict on whatever container: its name, and its values in whole steps. */
  lemma ReportedIsVerdict(plan: Plan, wish: Entry, c: Container)
    ensures Verdict(plan, wish, c).Some?
    ensures var v, reported := Verdict(plan, wish, c).value, Reported(plan, wish);
      && reported.containerName == wish.Name()
      && SetTo(map[], reported.target, v.cpu.request, v.memory.request)
      && SetTo(map[], reported.upperBound, v.cpu.limit, v.memory.limit)
      && reported.target.Keys == {CPU, Memory} && reported.upperBound.Keys == {CPU, Memory}
  {
    var v := Verdict(plan, wish, c).value;
    VerdictAmountsFixed(plan, wish, c, BLANK);
    WrittenIsWhole(v.cpu.request, 1000.0);
    WrittenIsWhole(v.memory.request, 1.0);
    WrittenIsWhole(v.cpu.limit, 1000.0);
    WrittenIsWhole(v.memory.limit, 1.0);
  }

  // ---- All entries, in order ----

  /** The entries that yield a recommendation, in their order. */
  function Yielding(wishes: seq<Wish>, pod: PodValue): seq<Entry> {
    if wishes == [] then [] else
    var rest, last := Yielding(wishes[..|wishes| - 1], pod), wishes[|wishes| - 1];
    if Yields(last, pod) then rest + [last] else rest
  }

  function ReportList(plan: Plan, wishes: seq<Entry>): seq<ContainerRecommendation> {
    seq(|wishes|, i requires 0 <= i < |wishes| => Reported(plan, wishes[i]))
  }

  /** One list after the other. */
  function Joined<T>(lists: seq<seq<T>>): seq<T> {
    if lists == [] then [] else Joined(lists[..|lists| - 1]) + lists[|lists| - 1]
  }

  function ReasonLists(plan: Plan, wishes: seq<Entry>): seq<seq<Reason>> {
    seq(|wishes|, i requires 0 <= i < |wishes| => ReasonsBy(plan.policy, Asked(plan, wishes[i])))
  }

  function ReasonsOf(plan: Plan, wishes: seq<Entry>): seq<Reason> {
    Joined(ReasonLists(plan, wishes))
  }

  /** What a loop has reported after the first entries of its list. */
  predicate ReportedBy(plan: Plan, wishes: seq<Wish>, pod: PodValue, p: Progress) {
    && p.recs == ReportList(plan, Yielding(wishes, pod))
    && p.reasons == ReasonsOf(plan, Yielding(wishes, pod))
  }

  lemma YieldingSnoc(wishes: seq<Wish>, wish: Wish, pod: PodValue)
    ensures Yielding(wishes + [wish], pod) == Yielding(wishes, pod) + (if Yields(wish, pod) then [wish] else [])
  {
    var all := wishes + [wish];
    assert all[..|all| - 1] == wishes && all[|all| - 1] == wish;
  }

  lemma {:induction false} JoinedBoth<T>(x: seq<seq<T>>, y: seq<seq<T>>)
    ensures Joined(x + y) == Joined(x) + Joined(y)
    decreases |y|
  {
    if y == [] {
      assert x + y == x;
    } else {
      var rest, last := y[..|y| - 1], y[|y| - 1];
      assert (x + y)[..|x + y| - 1] == x + rest;
      JoinedBoth(x, rest);
    }
  }

  lemma ReasonsOfBoth(plan: Plan, x: seq<Entry>, y: seq<Entry>)
    ensures ReasonsOf(plan, x + y) == ReasonsOf(plan, x) + ReasonsOf(plan, y)
  {
    assert ReasonLists(plan, x + y) == ReasonLists(plan, x) + ReasonLists(plan, y);
    JoinedBoth(ReasonLists(plan, x), ReasonLists(plan, y));
  }

  lemma ReasonsOfSnoc(plan: Plan, wishes: seq<Entry>, wish: Entry)
    ensures ReasonsOf(plan, wishes + [wish]) == ReasonsOf(plan, wishes) + ReasonsBy(plan.policy, Asked(plan, wish))
  {
    var reasons := ReasonsBy(plan.policy, Asked(plan, wish));
    assert ReasonLists(plan, wishes + [wish]) == ReasonLists(plan, wishes) + [reasons];
    JoinedBoth(ReasonLists(plan, wishes), [reasons]);
    JoinedOne(reasons);
  }

  lemma JoinedOne<T>(list: seq<T>)
    ensures Joined([list]) == list
  {
    assert [list][..0] == [];
  }

  /** A commit reports its recommendation, whatever becomes of the calls. */
  lemma CommitReports(plan: Plan, answers: Answers, name: string, p: Progress, rec: ResourceRecommendation)
    ensures var q := Commit(plan, answers, name, p, rec); q.recs == p.recs + [StatusOf(rec)] && q.reasons == p.reasons
  {
  }

  lemma ReportedNext(plan: Plan, wishes: seq<Wish>, wish: Entry, pod: PodValue, p: Progress, q: Progress)
    requires ReportedBy(plan, wishes, pod, p) && Yields(wish, pod)
    requires q.recs == p.recs + [Reported(plan, wish)]
    requires q.reasons == p.reasons + ReasonsBy(plan.policy, Asked(plan, wish))
    ensures ReportedBy(plan, wishes + [wish], pod, q)
  {
    YieldingSnoc(wishes, wish, pod);
    ReasonsOfSnoc(plan, Yielding(wishes, pod), wish);
    assert q.recs == ReportList(plan, Yielding(wishes, pod) + [wish]);
  }

  lemma NamedInAllocations(containers: seq<Container>, name: string)
    ensures name in Allocations(containers) <==> exists c | c in containers :: c.name == name
  {
    AllocationsAreReadBack(containers);
  }

  lemma OwnStepReports(plan: Plan, answers: Answers, name: string, pod: PodValue, wishes: seq<Wish>, p: Progress,
      m: ContainerMetrics)
    requires ReportedBy(plan, wishes, pod, p)
    ensures ReportedBy(plan, wishes + [Measured(m)], pod,
      OwnStep(plan, answers, name, Allocations(pod.containers), p, m))
  {
    var q := OwnStep(plan, answers, name, Allocations(pod.containers), p, m);
    NamedInAllocations(pod.containers, m.name);
    if Yields(Measured(m), pod) {
      var proposal := OwnProposal(plan, m, Allocations(pod.containers)[m.name]).value;
      CommitReports(plan, answers, name, p.(reasons := p.reasons + ReasonsBy(plan.policy, proposal)),
        ClampedBy(plan.policy, proposal));
      ReportedNext(plan, wishes, Measured(m), pod, p, q);
    } else {
      YieldingSnoc(wishes, Measured(m), pod);
    }
  }

  lemma {:induction false} OwnLoopReports(plan: Plan, answers: Answers, w: World, name: string, pod: PodValue,
      ms: seq<ContainerMetrics>)
    ensures ReportedBy(plan, MeasuredWishes(ms), pod,
      OwnLoop(plan, answers, name, Allocations(pod.containers), Progress(w, pod, [], 0, []), ms))
    decreases |ms|
  {
    if ms != [] {
      var rest, m := ms[..|ms| - 1], ms[|ms| - 1];
      OwnLoopReports(plan, answers, w, name, pod, rest);
      assert MeasuredWishes(ms) == MeasuredWishes(rest) + [Measured(m)];
      var p := OwnLoop(plan, answers, name, Allocations(pod.containers), Progress(w, pod, [], 0, []), rest);
      OwnStepReports(plan, answers, name, pod, MeasuredWishes(rest), p, m);
    }
  }

  lemma VpaStepReports(plan: Plan, answers: Answers, name: string, pod: PodValue, wishes: seq<Wish>, p: Progress,
      rec: Vpa.ContainerRecommendation)
    requires ReportedBy(plan, wishes, pod, p)
    ensures ReportedBy(plan, wishes + [Recommended(rec)], pod, VpaStep(plan, answers, name, p, rec))
  {
    var proposal := VpaProposal(rec, plan.constraints);
    CommitReports(plan, answers, name, p.(reasons := p.reasons + ReasonsBy(plan.policy, proposal)),
      VpaJudged(plan, ClampedBy(plan.policy, proposal), Allocations(p.pod.containers)));
    ReportedNext(plan, wishes, Recommended(rec), pod, p, VpaStep(plan, answers, name, p, rec));
  }

  lemma {:induction false} VpaLoopReports(plan: Plan, answers: Answers, w: World, name: string, pod: PodValue,
      recs: seq<Vpa.ContainerRecommendation>)
    ensures ReportedBy(plan, RecommendedWishes(recs), pod,
      VpaLoop(plan, answers, name, Progress(w, pod, [], 0, []), recs))
    decreases |recs|
  {
    if recs != [] {
      var rest, rec := recs[..|recs| - 1], recs[|recs| - 1];
      VpaLoopReports(plan, answers, w, name, pod, rest);
      assert RecommendedWishes(recs) == RecommendedWishes(rest) + [Recommended(rec)];
      VpaStepReports(plan, answers, name, pod, RecommendedWishes(rest),
        VpaLoop(plan, answers, name, Progress(w, pod, [], 0, []), rest), rec);
    }
  }

  // ---- All pods, in order ----

  function PodYields(source: Source, pod: ListedPod): seq<Entry> {
    Yielding(WishesFor(source, pod.name), pod.value)
  }

  /** The entries of all listed pods that yield a recommendation, pod by pod. */
  function CycleYields(source: Source, pods: seq<ListedPod>): seq<Entry> {
    if pods == [] then [] else
    var last := pods[|pods| - 1];
    CycleYields(source, pods[..|pods| - 1]) + PodYields(source, last)
  }

  lemma ReportsOfBoth(plan: Plan, x: seq<Entry>, y: seq<Entry>)
    ensures ReportList(plan, x + y) == ReportList(plan, x) + ReportList(plan, y)
  {
  }

  lemma PodReports(plan: Plan, answers: Answers, source: Source, w: World, pod: ListedPod)
    ensures ReportedBy(plan, WishesFor(source, pod.name), pod.value, EvaluatePod(plan, answers, source, w, pod))
  {
    match source
    case FromVpa(recs) => VpaLoopReports(plan, answers, w, pod.name, pod.value, recs);
    case OwnAlgorithm(metrics) =>
      if pod.name in metrics {
        OwnLoopReports(plan, answers, w, pod.name, pod.value, metrics[pod.name]);
      }
  }

  /** Whatever the API server answers, a cycle reports one recommendation for every entry that yields one, pod by pod
      and in the order of the entries, and all their reasons in that order. */
  lemma {:induction false} CycleReports(plan: Plan, answers: Answers, source: Source, w: World, pods: seq<ListedPod>)
    ensures var c := CycleLoop(plan, answers, source, w, pods);
      && c.recs == ReportList(plan, CycleYields(source, pods))
      && c.reasons == ReasonsOf(plan, CycleYields(source, pods))
    decreases |pods|
  {
    if pods != [] {
      var rest, last := pods[..|pods| - 1], pods[|pods| - 1];
      CycleReports(plan, answers, source, w, rest);
      PodReports(plan, answers, source, CycleLoop(plan, answers, source, w, rest).world, last);
      ReasonsOfBoth(plan, CycleYields(source, rest), PodYields(source, last));
      ReportsOfBoth(plan, CycleYields(source, rest), PodYields(source, last));
    }
  }
}
