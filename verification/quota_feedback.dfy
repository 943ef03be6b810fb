/** Consecutive cycles under a quota whose used amount contains the container's own request. */
module QuotaFeedback {
  import opened Quantities
  import opened Calculator
  import opened NamespaceLimits
  import opened ClampLaws
  import opened SizingLaws
  import opened PipelineLaws
  import opened Pods
  import opened ApiTypes
  import opened Metrics
  import opened Updater
  import opened Evaluation
  import opened Settling
  import opened ClosedLoop
  import opened RestlessLaws
  import Vpa

  function CpuOf(c: Container): real {
    QuantityOrZero(c.requests, CPU)
  }

  /** A CPU quota, of which others use part and the container the rest of what is used. */
  function QuotaFor(hard: real, others: real, c: Container): ResourceQuota {
    ResourceQuota(map[RequestsCPU := hard], map[RequestsCPU := others + CpuOf(c)])
  }

  /** The policy read from that quota once its status has caught up; free is what others leave. */
  function PolicyAt(free: real, c: Container): Policy {
    Policy(false, true, EMPTY_BOUNDS.(headroom := AtMost(free - CpuOf(c))), EMPTY_BOUNDS)
  }

  lemma PolicyAtQuota(hard: real, others: real, c: Container)
    ensures MergedPolicy([], [QuotaFor(hard, others, c)]) == PolicyAt(hard - others, c)
  {
    var quotas := [QuotaFor(hard, others, c)];
    assert quotas[..0] == [];
    assert Headroom(quotas, CPU) == TighterCeiling(Headroom([], CPU), Remaining(quotas[0], CPU));
    assert Headroom(quotas, Memory) == TighterCeiling(Headroom([], Memory), Remaining(quotas[0], Memory));
  }

  function PlanAt(threshold: real, free: real, c: Container): Plan {
    PlanUnder(PolicyAt(free, c)).(cfg := DEFAULT_CONFIG.(threshold := threshold))
  }

  /** One cycle on the container, with an accepted patch. */
  function Next(threshold: real, free: real, wish: Wish, c: Container): Container {
    Settled(PlanAt(threshold, free, c), wish, c)
  }

  /** The CPU request that the entry asks for, before the quota. */
  function Asked(wish: Wish): real {
    match wish
    case Measured(m) => Clamp(CpuDemand(m.cpu), DEFAULT_CONSTRAINTS.cpu)
    case Recommended(rec) => Clamp(TargetOr(rec.target, CPU, 0.0), DEFAULT_CONSTRAINTS.cpu)
  }

  function AskedMemory(wish: Wish): real {
    match wish
    case Measured(m) => Clamp(MemoryDemand(m.memory), DEFAULT_CONSTRAINTS.memory)
    case Recommended(rec) => Clamp(TargetOr(rec.target, Memory, 0.0), DEFAULT_CONSTRAINTS.memory)
  }

  /** What the quota leaves of it while the container holds x. */
  function Left(free: real, wish: Wish, x: real): real {
    if 0.0 < free - x < Asked(wish) then free - x else Asked(wish)
  }

  /** The CPU variance that counts while the container holds x: before the quota stage on the own path, after it for
      VPA. */
  predicate Moves(threshold: real, free: real, wish: Wish, x: real) {
    VariancePercent(if wish.Measured? then Asked(wish) else Left(free, wish, x), x) >= threshold
  }

  /** Memory calls for no adjustment. */
  predicate MemoryRests(threshold: real, wish: Wish, c: Container) {
    VariancePercent(AskedMemory(wish), QuantityOrZero(c.requests, Memory)) < threshold
  }

  predicate Named(wish: Wish) {
    NonNegativeUsage(wish) && wish.Name() != ""
  }

  lemma JudgedAndFinal(threshold: real, free: real, wish: Wish, c: Container)
    requires Named(wish)
    ensures var plan := PlanAt(threshold, free, c);
      && Verdict(plan, wish, c).Some?
      && FinalRequests(plan, wish) == (Left(free, wish, CpuOf(c)), AskedMemory(wish))
      && JudgedRequests(plan, wish) ==
          (if wish.Measured? then Asked(wish) else Left(free, wish, CpuOf(c)), AskedMemory(wish))
  {
    var plan := PlanAt(threshold, free, c);
    assert Standard(plan);
    match wish
    case Measured(m) =>
      OwnProposalIsMarginOnUsage(plan, m, ReadResources(BLANK));
      OwnRecommendationIsFinal(plan, m, ReadResources(BLANK));
      ClampedRequest(Proposed(CpuDemand(m.cpu), plan.policy.cpu, DEFAULT_CONSTRAINTS.cpu), plan.policy.cpu);
      ClampedRequest(Proposed(MemoryDemand(m.memory), plan.policy.memory, DEFAULT_CONSTRAINTS.memory),
        plan.policy.memory);
    case Recommended(rec) =>
      VpaEntriesJudgeWhatTheyWrite(plan, rec, BLANK);
      var proposal := VpaProposal(rec, plan.constraints);
      ClampedRequest(proposal.cpu, plan.policy.cpu);
      ClampedRequest(proposal.memory, plan.policy.memory);
  }

  /** A written memory request rests: it has enough bytes. */
  lemma WrittenMemoryRests(threshold: real, wish: Wish)
    requires threshold >= 1.0
    ensures VariancePercent(AskedMemory(wish), Written(AskedMemory(wish), 1.0)) < threshold
  {
    var r := AskedMemory(wish);
    assert r >= 16777216.0;
    TruncationVariance(r, 1.0);
    BelowOne(VariancePercent(r, Written(r, 1.0)), Truncate(r * 1.0) as real);
  }

  lemma BelowOne(variance: real, steps: real)
    requires steps >= 100.0 && Times(variance, steps) < 100.0
    ensures variance < 1.0
  {
    if variance >= 1.0 {
      ScaledBy(1.0, variance, steps);
    }
  }

  /** One cycle in terms of the CPU request. */
  lemma NextCpu(threshold: real, free: real, wish: Wish, c: Container)
    requires Named(wish) && threshold >= 1.0 && MemoryRests(threshold, wish, c)
    ensures var x := CpuOf(c); var next := Next(threshold, free, wish, c);
      && CpuOf(next) == (if Moves(threshold, free, wish, x) then Written(Left(free, wish, x), 1000.0) else x)
      && MemoryRests(threshold, wish, next)
  {
    var plan := PlanAt(threshold, free, c);
    JudgedAndFinal(threshold, free, wish, c);
    VerdictJudges(plan, wish, c);
    WrittenMemoryRests(threshold, wish);
  }

  /** A whole number of millicores. */
  predicate Whole(x: real) {
    Written(x, 1000.0) == x
  }

  /** Two CPU requests that share what is free, each within what is asked, and each far enough from what the cycle
      judges there. */
  predicate Alternating(threshold: real, free: real, wish: Wish, x: real) {
    var most := Written(Asked(wish), 1000.0);
    && 0.0 < x <= most && 0.0 < free - x <= most && x != free - x
    && Moves(threshold, free, wish, x) && Moves(threshold, free, wish, free - x)
  }

  lemma WholeSteps(x: real) returns (steps: int)
    requires Whole(x)
    ensures x * 1000.0 == steps as real
  {
    steps := Truncate(x * 1000.0);
  }

  lemma StepsAreWhole(x: real, steps: int)
    requires x * 1000.0 == steps as real
    ensures Whole(x)
  {
  }

  lemma WholeDifference(x: real, y: real)
    requires Whole(x) && Whole(y)
    ensures Whole(x - y)
  {
    var k := WholeSteps(x);
    var l := WholeSteps(y);
    StepsAreWhole(x - y, k - l);
  }

  /** Whole values up to what is asked are those up to what is written of it. */
  lemma AskedInSteps(wish: Wish, v: real)
    requires Whole(v)
    ensures var most := Written(Asked(wish), 1000.0); 0.0 < most <= Asked(wish) && (v <= Asked(wish) <==> v <= most)
  {
    WrittenBounds(Asked(wish), 1000.0);
    if 0.0 <= v <= Asked(wish) {
      WrittenMonotone(v, Asked(wish), 1000.0);
    }
  }

  /** What a cycle writes while the container holds x: the rest of what is free, as far as it is asked for. */
  lemma WrittenLeft(free: real, wish: Wish, x: real)
    requires Whole(free) && Whole(x)
    ensures var most := Written(Asked(wish), 1000.0);
      Written(Left(free, wish, x), 1000.0) == if 0.0 < free - x <= most then free - x else most
  {
    WholeDifference(free, x);
    AskedInSteps(wish, free - x);
  }

  /** The CPU request after a cycle in which the container held x. */
  function NextHeld(threshold: real, free: real, wish: Wish, x: real): real {
    var most := Written(Asked(wish), 1000.0);
    if !Moves(threshold, free, wish, x) then x else if 0.0 < free - x <= most then free - x else most
  }

  lemma NextIsHeld(threshold: real, free: real, wish: Wish, c: Container)
    requires Named(wish) && threshold >= 1.0 && MemoryRests(threshold, wish, c) && Whole(CpuOf(c)) && Whole(free)
    ensures var next := Next(threshold, free, wish, c);
      && CpuOf(next) == NextHeld(threshold, free, wish, CpuOf(c))
      && Whole(CpuOf(next)) && MemoryRests(threshold, wish, next)
  {
    NextCpu(threshold, free, wish, c);
    WrittenLeft(free, wish, CpuOf(c));
    WholeDifference(free, CpuOf(c));
    WrittenAgain(Asked(wish));
  }

  lemma HeldAgainIff(threshold: real, free: real, wish: Wish, x: real)
    requires x >= 0.0 && Written(Asked(wish), 1000.0) > 0.0
    ensures var once := NextHeld(threshold, free, wish, x);
      && (once != x == NextHeld(threshold, free, wish, once) <==> Alternating(threshold, free, wish, x))
      && (Alternating(threshold, free, wish, x) ==> once == free - x)
  {
    assert free - (free - x) == x;
  }

  /** The loop through the quota: the request comes back to x after two cycles, having left it after one, iff x and the
      rest of what is free are alternating. */
  lemma AlternatesIff(threshold: real, free: real, wish: Wish, c: Container)
    requires Named(wish) && threshold >= 1.0 && MemoryRests(threshold, wish, c)
    requires CpuOf(c) >= 0.0 && Whole(CpuOf(c)) && Whole(free)
    ensures var once := Next(threshold, free, wish, c); var twice := Next(threshold, free, wish, once);
      && (CpuOf(once) != CpuOf(c) == CpuOf(twice) <==> Alternating(threshold, free, wish, CpuOf(c)))
      && (Alternating(threshold, free, wish, CpuOf(c)) ==> CpuOf(once) == free - CpuOf(c))
  {
    NextIsHeld(threshold, free, wish, c);
    NextIsHeld(threshold, free, wish, Next(threshold, free, wish, c));
    AskedInSteps(wish, CpuOf(c));
    HeldAgainIff(threshold, free, wish, CpuOf(c));
  }

  lemma WrittenAgain(x: real)
    requires x >= 0.0
    ensures Whole(Written(x, 1000.0))
  {
    WrittenBounds(x, 1000.0);
  }

  function Cycles(threshold: real, free: real, wish: Wish, c: Container, n: nat): Container
    decreases n
  {
    if n == 0 then c else Cycles(threshold, free, wish, Next(threshold, free, wish, c), n - 1)
  }

  /** x and the rest of what is free, in turn. */
  function InTurn(free: real, x: real, n: nat): real
    decreases n
  {
    if n == 0 then x else InTurn(free, free - x, n - 1)
  }

  lemma {:induction false} InTurnIsPeriodic(free: real, x: real, n: nat)
    ensures InTurn(free, x, 2 * n) == x && InTurn(free, x, 2 * n + 1) == free - x
  {
    if n > 0 {
      InTurnIsPeriodic(free, x, n - 1);
      assert free - (free - x) == x;
      assert InTurn(free, x, 2 * n) == InTurn(free, x, 2 * (n - 1));
      assert InTurn(free, x, 2 * n + 1) == InTurn(free, x, 2 * (n - 1) + 1);
    } else {
      assert InTurn(free, x, 1) == InTurn(free, free - x, 0);
    }
  }

  /** The container holds a whole request that alternates, and memory rests. */
  predicate Swings(threshold: real, free: real, wish: Wish, c: Container) {
    MemoryRests(threshold, wish, c) && Whole(CpuOf(c)) && Alternating(threshold, free, wish, CpuOf(c))
  }

  lemma SwingsOn(threshold: real, free: real, wish: Wish, c: Container)
    requires Named(wish) && threshold >= 1.0 && Whole(free) && Swings(threshold, free, wish, c)
    ensures var next := Next(threshold, free, wish, c);
      CpuOf(next) == free - CpuOf(c) && Swings(threshold, free, wish, next)
  {
    var x := CpuOf(c);
    assert CpuOf(Next(threshold, free, wish, c)) == free - x by { AlternatesIff(threshold, free, wish, c); }
    assert MemoryRests(threshold, wish, Next(threshold, free, wish, c)) by { NextCpu(threshold, free, wish, c); }
    WholeDifference(free, x);
    assert free - (free - x) == x;
  }

  /** Then it alternates for ever. */
  lemma {:induction false} AlternatesForever(threshold: real, free: real, wish: Wish, c: Container, n: nat)
    requires Named(wish) && threshold >= 1.0 && Whole(free) && Swings(threshold, free, wish, c)
    ensures CpuOf(Cycles(threshold, free, wish, c, n)) == InTurn(free, CpuOf(c), n)
    decreases n
  {
    if n > 0 {
      var next := Next(threshold, free, wish, c);
      SwingsOn(threshold, free, wish, c);
      AlternatesForever(threshold, free, wish, next, n - 1);
      assert Cycles(threshold, free, wish, c, n) == Cycles(threshold, free, wish, next, n - 1);
    }
  }

  /** VPA path: of 5 free cores a container that is to have 3.6 holds 3.6 and 1.4 in turn, although 3.6 are free. */
  lemma VpaPathAlternates() returns (wish: Wish, c: Container)
    ensures wish.Recommended? && Named(wish) && CpuOf(c) == Asked(wish) < 5.0
    ensures Whole(5.0) && Swings(15.0, 5.0, wish, c)
  {
    wish := Recommended(Vpa.ContainerRecommendation("app", map[CPU := 3.6, Memory := 104857600.0], map[]));
    c := Container("app", map[CPU := 3.6, Memory := 104857600.0], map[]);
    assert Written(3.6, 1000.0) == 3.6;
    assert VariancePercent(104857600.0, 104857600.0) == 0.0;
    assert Left(5.0, wish, 3.6) == 1.4 && Left(5.0, wish, 1.4) == 3.6;
    assert VariancePercent(1.4, 3.6) >= 15.0 && VariancePercent(3.6, 1.4) >= 15.0;
  }

  /** Own path: of 5 free cores a container that needs 12 holds 4 and 1 in turn. */
  lemma OwnPathAlternates() returns (wish: Wish, c: Container)
    ensures wish.Measured? && Named(wish) && Whole(5.0) && Swings(15.0, 5.0, wish, c)
  {
    wish := Measured(ContainerMetrics("app", 10.0, 80.0 * 1048576.0));
    c := Container("app", map[CPU := 4.0, Memory := 100.0 * 1048576.0], map[]);
    assert Asked(wish) == 12.0 && AskedMemory(wish) == 100.0 * 1048576.0;
    assert VariancePercent(12.0, 4.0) == 200.0 && VariancePercent(12.0, 1.0) == 1100.0;
  }

  /** But on the own path a request that is reached rests, whatever is free. */
  lemma AskedRestsOnOwnPath(threshold: real, free: real, wish: Wish, c: Container)
    requires wish.Measured? && Named(wish) && threshold >= 1.0 && MemoryRests(threshold, wish, c)
    requires CpuOf(c) == Asked(wish)
    ensures Next(threshold, free, wish, c) == c
  {
    JudgedAndFinal(threshold, free, wish, c);
    VerdictJudges(PlanAt(threshold, free, c), wish, c);
  }
}
