/** What one evaluation of the pods does, as functions of the observations and of the API answers. */
module Evaluation {
  import opened Quantities
  import opened Calculator
  import opened NamespaceLimits
  import opened Pods
  import opened ApiTypes
  import opened Metrics
  import opened Updater
  import Vpa

  datatype ContainerMetrics = ContainerMetrics(name: string, cpu: real, memory: real)

  /** What stays fixed during a cycle. */
  datatype Plan = Plan(cfg: Config, constraints: Constraints, policy: Policy, dryRun: bool, mode: UpdateMode)

  // ---- Recommendations ----

  function ClampedBy(policy: Policy, rec: ResourceRecommendation): ResourceRecommendation {
    if policy.Found() then
      rec.(cpu := ClampAmounts(rec.cpu, policy.cpu), memory := ClampAmounts(rec.memory, policy.memory))
    else rec
  }

  function ReasonsBy(policy: Policy, rec: ResourceRecommendation): seq<Reason> {
    if policy.Found() then ClampReasons(rec.cpu, rec.memory, policy) else []
  }

  /** The metrics API reports one value, used as average and as peak. */
  function UsageOf(m: ContainerMetrics): ResourceUsage {
    ResourceUsage(m.name, m.cpu, m.cpu, m.memory, m.memory)
  }

  function AllocationOf(name: string, r: ContainerResources): ResourceAllocation {
    ResourceAllocation(name, Amounts(r.cpuRequest, r.cpuLimit), Amounts(r.memoryRequest, r.memoryLimit))
  }

  /** The own algorithm's recommendation before the namespace clamp; its variance is final. */
  function OwnProposal(plan: Plan, m: ContainerMetrics, current: ContainerResources): Option<ResourceRecommendation> {
    Calculate(UsageOf(m), AllocationOf(m.name, current), plan.cfg, plan.constraints)
  }

  function TargetOr(list: ResourceList, res: ResourceName, otherwise: real): real {
    if res in list then list[res] else otherwise
  }

  function VpaAmounts(rec: Vpa.ContainerRecommendation, res: ResourceName, range: Range): Amounts {
    var request := TargetOr(rec.target, res, 0.0);
    var limit := TargetOr(rec.upperBound, res, request * 1.5);
    Amounts(Clamp(request, range), Clamp(limit, range))
  }

  function VpaProposal(rec: Vpa.ContainerRecommendation, constraints: Constraints): ResourceRecommendation {
    ResourceRecommendation(
      rec.containerName,
      VpaAmounts(rec, CPU, constraints.cpu), VpaAmounts(rec, Memory, constraints.memory),
      0.0, 0.0, false)
  }

  /** On the VPA path the variance is that of the clamped recommendation. */
  function VpaJudged(plan: Plan, rec: ResourceRecommendation,
      allocations: map<string, ContainerResources>): ResourceRecommendation {
    if rec.name in allocations then
      var current := allocations[rec.name];
      var cpuVariance := VariancePercent(rec.cpu.request, current.cpuRequest);
      var memoryVariance := VariancePercent(rec.memory.request, current.memoryRequest);
      rec.(cpuVariance := cpuVariance, memoryVariance := memoryVariance,
           significant := cpuVariance >= plan.cfg.threshold || memoryVariance >= plan.cfg.threshold)
    else rec
  }

  function StatusOf(rec: ResourceRecommendation): ContainerRecommendation {
    ContainerRecommendation(
      rec.name,
      map[CPU := Written(rec.cpu.request, 1000.0), Memory := Written(rec.memory.request, 1.0)],
      map[CPU := Written(rec.cpu.limit, 1000.0), Memory := Written(rec.memory.limit, 1.0)])
  }

  // ---- One pod ----

  datatype Progress = Progress(
    world: World, pod: PodValue, recs: seq<ContainerRecommendation>, adjustments: nat, reasons: seq<Reason>)

  /** Records a recommendation and applies it if it is significant and the run is not dry. */
  function Commit(plan: Plan, answers: Answers, name: string, p: Progress, rec: ResourceRecommendation): Progress {
    var q := p.(recs := p.recs + [StatusOf(rec)]);
    if rec.significant && !plan.dryRun then
      var a := Apply(answers, q.world, name, q.pod, rec, plan.mode);
      q.(world := a.world, pod := a.pod, adjustments := if a.strategy.Some? then q.adjustments + 1 else q.adjustments)
    else q
  }

  function OwnStep(plan: Plan, answers: Answers, name: string, allocations: map<string, ContainerResources>,
      p: Progress, m: ContainerMetrics): Progress {
    if m.name !in allocations then p else
    var proposal := OwnProposal(plan, m, allocations[m.name]);
    if proposal.None? then p else
    Commit(plan, answers, name, p.(reasons := p.reasons + ReasonsBy(plan.policy, proposal.value)),
           ClampedBy(plan.policy, proposal.value))
  }

  /** Allocations are read once, before the loop. */
  function OwnLoop(plan: Plan, answers: Answers, name: string, allocations: map<string, ContainerResources>,
      p: Progress, ms: seq<ContainerMetrics>): Progress {
    if ms == [] then p else
    var q := OwnLoop(plan, answers, name, allocations, p, ms[..|ms| - 1]);
    OwnStep(plan, answers, name, allocations, q, ms[|ms| - 1])
  }

  /** Allocations are read again for every recommendation. */
  function VpaStep(plan: Plan, answers: Answers, name: string, p: Progress,
      rec: Vpa.ContainerRecommendation): Progress {
    var proposal := VpaProposal(rec, plan.constraints);
    Commit(plan, answers, name, p.(reasons := p.reasons + ReasonsBy(plan.policy, proposal)),
           VpaJudged(plan, ClampedBy(plan.policy, proposal), Allocations(p.pod.containers)))
  }

  function VpaLoop(plan: Plan, answers: Answers, name: string, p: Progress,
      recs: seq<Vpa.ContainerRecommendation>): Progress {
    if recs == [] then p
    else VpaStep(plan, answers, name, VpaLoop(plan, answers, name, p, recs[..|recs| - 1]), recs[|recs| - 1])
  }

  // ---- All pods ----

  /** Where recommendations come from; a pod without an entry in metrics is one whose metrics call failed. */
  datatype Source =
    | OwnAlgorithm(metrics: map<string, seq<ContainerMetrics>>)
    | FromVpa(recs: seq<Vpa.ContainerRecommendation>)

  datatype CycleProgress = CycleProgress(
    world: World, recs: seq<ContainerRecommendation>, adjustments: nat, reasons: seq<Reason>, metricsAvailable: bool)

  /** What evaluating one pod of the list yields, from a world. */
  function EvaluatePod(plan: Plan, answers: Answers, source: Source, w: World, pod: ListedPod): Progress {
    var start := Progress(w, pod.value, [], 0, []);
    match source
    case FromVpa(recs) => VpaLoop(plan, answers, pod.name, start, recs)
    case OwnAlgorithm(metrics) =>
      if pod.name !in metrics then start
      else OwnLoop(plan, answers, pod.name, Allocations(pod.value.containers), start, metrics[pod.name])
  }

  function CycleStep(plan: Plan, answers: Answers, source: Source, c: CycleProgress, pod: ListedPod): CycleProgress {
    var p := EvaluatePod(plan, answers, source, c.world, pod);
    CycleProgress(
      p.world, c.recs + p.recs, c.adjustments + p.adjustments, c.reasons + p.reasons,
      c.metricsAvailable && (source.FromVpa? || pod.name in source.metrics))
  }

  function CycleLoop(plan: Plan, answers: Answers, source: Source, w: World, pods: seq<ListedPod>): CycleProgress {
    if pods == [] then CycleProgress(w, [], 0, [], true)
    else CycleStep(plan, answers, source, CycleLoop(plan, answers, source, w, pods[..|pods| - 1]), pods[|pods| - 1])
  }
}
