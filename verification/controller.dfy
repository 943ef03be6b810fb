/** The reconciler (internal/controller), proved against the cycle functions. */
module Controller {
  import opened Quantities
  import opened Calculator
  import opened NamespaceLimits
  import opened Pods
  import opened ApiTypes
  import opened Server
  import opened Metrics
  import opened Updater
  import opened Evaluation
  import opened Conditions
  import opened Reconciling
  import Vpa

  /** The local copy of the custom resource that a cycle works on. */
  class PodAutoscaler {
    const deleting: bool
    const generation: int
    const spec: Spec
    var finalizers: set<string>
    var phase: Phase
    var conditions: seq<Condition>
    var monitoredPods: nat
    var recommendation: seq<ContainerRecommendation>
    var lastEvaluationTime: Option<int>
    var lastUpdateTime: Option<int>
    var totalAdjustments: int
    var observedGeneration: int
    var vpaStatus: Option<VpaStatus>
    var clampReasons: Option<seq<Reason>>

    function CurrentStatus(): Status
      reads this
    {
      Status(phase, conditions, monitoredPods, recommendation, lastEvaluationTime, lastUpdateTime,
             totalAdjustments, observedGeneration, vpaStatus, clampReasons)
    }

    function Value(): Autoscaler
      reads this
    {
      Autoscaler(deleting, finalizers, generation, spec, CurrentStatus())
    }

    constructor (stored: Autoscaler)
      ensures Value() == stored
    {
      deleting, generation, spec, finalizers := stored.deleting, stored.generation, stored.spec, stored.finalizers;
      phase, conditions, monitoredPods := stored.status.phase, stored.status.conditions, stored.status.monitoredPods;
      recommendation := stored.status.recommendation;
      lastEvaluationTime, lastUpdateTime := stored.status.lastEvaluationTime, stored.status.lastUpdateTime;
      totalAdjustments, observedGeneration := stored.status.totalAdjustments, stored.status.observedGeneration;
      vpaStatus, clampReasons := stored.status.vpaStatus, stored.status.clampReasons;
    }
  }

  method FilterRunningPods(pods: seq<ListedPod>) returns (running: seq<ListedPod>)
    ensures running == Running(pods)
  {
    running := [];
    var i := 0;
    while i < |pods|
      invariant 0 <= i <= |pods|
      invariant running == Running(pods[..i])
    {
      if pods[i].value.running && !pods[i].value.terminating {
        running := running + [pods[i]];
      }
      assert pods[..i + 1][..i] == pods[..i];
      i := i + 1;
    }
    assert pods[..i] == pods;
  }

  method VpaRecommendationToCalculatorRec(rec: Vpa.ContainerRecommendation, constraints: Constraints)
    returns (result: ResourceRecommendation)
    ensures result == VpaProposal(rec, constraints)
  {
    var cpuRequest, cpuLimit, memoryRequest, memoryLimit := 0.0, 0.0, 0.0, 0.0;
    if CPU in rec.target { cpuRequest := rec.target[CPU]; }
    if Memory in rec.target { memoryRequest := rec.target[Memory]; }
    if CPU in rec.upperBound { cpuLimit := rec.upperBound[CPU]; } else { cpuLimit := cpuRequest * 1.5; }
    if Memory in rec.upperBound { memoryLimit := rec.upperBound[Memory]; } else { memoryLimit := memoryRequest * 1.5; }
    cpuRequest := Clamp(cpuRequest, constraints.cpu);
    cpuLimit := Clamp(cpuLimit, constraints.cpu);
    memoryRequest := Clamp(memoryRequest, constraints.memory);
    memoryLimit := Clamp(memoryLimit, constraints.memory);
    result := ResourceRecommendation(
      rec.containerName, Amounts(cpuRequest, cpuLimit), Amounts(memoryRequest, memoryLimit), 0.0, 0.0, false);
  }

  class Reconciler {
    const client: ApiServer
    const podUpdater: PodUpdater

    constructor (client: ApiServer)
      ensures this.client == client && podUpdater.client == client
    {
      this.client := client;
      this.podUpdater := new PodUpdater(client);
    }

    method SetCondition(pa: PodAutoscaler, kind: string, status: bool, reason: string, now: int)
      modifies pa`conditions
      ensures pa.conditions == Conditions.SetCondition(old(pa.conditions), kind, status, reason, now)
    {
      var i := 0;
      while i < |pa.conditions|
        invariant 0 <= i <= |pa.conditions|
        invariant pa.conditions == old(pa.conditions)
        invariant forall j | 0 <= j < i :: pa.conditions[j].kind != kind
      {
        var c := pa.conditions[i];
        if c.kind == kind {
          SetConditionAt(pa.conditions, i, kind, status, reason, now);
          if c.status != status || c.reason != reason {
            pa.conditions := pa.conditions[i := c.(status := status, reason := reason, lastTransition := now)];
          }
          return;
        }
        i := i + 1;
      }
      SetConditionAt(pa.conditions, i, kind, status, reason, now);
      pa.conditions := pa.conditions + [Condition(kind, status, reason, now)];
    }

    method ApplyRecommendation(pa: PodAutoscaler, pod: Pod, rec: ResourceRecommendation) returns (adjustments: nat)
      requires podUpdater.client == client
      modifies client`pods, client`log, pod
      ensures var a := old(Apply(client.answers, client.Stored(), pod.name, pod.Value(), rec, ModeFor(pa.spec)));
        client.Stored() == a.world && pod.Value() == a.pod && adjustments == (if a.strategy.Some? then 1 else 0)
    {
      var mode := UpdateMode.Auto;
      if pa.spec.updatePolicy.Some? {
        mode := pa.spec.updatePolicy.value;
      }
      var strategy := podUpdater.ApplyRecommendation(pod, rec, mode);
      return if strategy.Some? then 1 else 0;
    }

    /** The shared tail of both evaluation loops. */
    method CommitRecommendation(pa: PodAutoscaler, pod: Pod, rec: ResourceRecommendation, ghost plan: Plan,
        ghost p: Progress)
      returns (adjustments: nat)
      requires podUpdater.client == client
      requires plan.dryRun == pa.spec.dryRun && plan.mode == ModeFor(pa.spec)
      requires p.world == client.Stored() && p.pod == pod.Value()
      modifies client`pods, client`log, pod
      ensures var q := Commit(plan, client.answers, pod.name, p, rec);
        && client.Stored() == q.world && pod.Value() == q.pod && p.adjustments + adjustments == q.adjustments
        && q.recs == p.recs + [StatusOf(rec)] && q.reasons == p.reasons
    {
      adjustments := 0;
      if rec.significant && !pa.spec.dryRun {
        adjustments := ApplyRecommendation(pa, pod, rec);
      }
    }

    method ClampToNamespace(rec: ResourceRecommendation, policy: Policy)
      returns (clamped: ResourceRecommendation, reasons: seq<Reason>)
      ensures clamped == ClampedBy(policy, rec) && reasons == ReasonsBy(policy, rec)
    {
      clamped, reasons := rec, [];
      if policy.limitRangeFound || policy.resourceQuotaFound {
        var cpuReq, cpuLim, memReq, memLim, rs :=
          ClampRecommendation(rec.cpu.request, rec.cpu.limit, rec.memory.request, rec.memory.limit, policy);
        clamped := rec.(cpu := Amounts(cpuReq, cpuLim), memory := Amounts(memReq, memLim));
        reasons := rs;
      }
    }

    /** Variance of a VPA recommendation against the pod's current allocations. */
    method JudgeAgainstCurrent(rec: ResourceRecommendation, pod: Pod, plan: Plan)
      returns (judged: ResourceRecommendation)
      ensures judged == VpaJudged(plan, rec, Allocations(pod.containers))
    {
      judged := rec;
      var allocations := GetCurrentAllocations(pod.containers);
      if rec.name in allocations {
        var current := allocations[rec.name];
        judged := judged.(
          cpuVariance := VariancePercent(rec.cpu.request, current.cpuRequest),
          memoryVariance := VariancePercent(rec.memory.request, current.memoryRequest));
        judged := judged.(significant :=
          judged.cpuVariance >= plan.cfg.threshold || judged.memoryVariance >= plan.cfg.threshold);
      }
    }

    /** One entry of the VPA list. */
    method EvaluateVpaEntry(pa: PodAutoscaler, pod: Pod, vpaRec: Vpa.ContainerRecommendation, plan: Plan,
        ghost p: Progress)
      returns (rec: ContainerRecommendation, adjustments: nat, reasons: seq<Reason>)
      requires podUpdater.client == client
      requires plan.dryRun == pa.spec.dryRun && plan.mode == ModeFor(pa.spec)
      requires p.world == client.Stored() && p.pod == pod.Value()
      modifies client`pods, client`log, pod
      ensures VpaStep(plan, client.answers, pod.name, p, vpaRec) ==
        Progress(client.Stored(), pod.Value(), p.recs + [rec], p.adjustments + adjustments, p.reasons + reasons)
    {
      var proposal := VpaRecommendationToCalculatorRec(vpaRec, plan.constraints);
      var clamped;
      clamped, reasons := ClampToNamespace(proposal, plan.policy);
      var judged := JudgeAgainstCurrent(clamped, pod, plan);
      rec := StatusOf(judged);
      adjustments := CommitRecommendation(pa, pod, judged, plan, p.(reasons := p.reasons + reasons));
    }

    method EvaluateVpaPod(pa: PodAutoscaler, pod: Pod, vpaRecs: seq<Vpa.ContainerRecommendation>, plan: Plan)
      returns (recs: seq<ContainerRecommendation>, adjustments: nat, reasons: seq<Reason>)
      requires podUpdater.client == client
      requires plan.dryRun == pa.spec.dryRun && plan.mode == ModeFor(pa.spec)
      modifies client`pods, client`log, pod
      ensures Progress(client.Stored(), pod.Value(), recs, adjustments, reasons) ==
        old(VpaLoop(plan, client.answers, pod.name, Progress(client.Stored(), pod.Value(), [], 0, []), vpaRecs))
    {
      recs, adjustments, reasons := [], 0, [];
      ghost var start := Progress(client.Stored(), pod.Value(), [], 0, []);
      var i := 0;
      while i < |vpaRecs|
        invariant 0 <= i <= |vpaRecs|
        invariant Progress(client.Stored(), pod.Value(), recs, adjustments, reasons) ==
          VpaLoop(plan, client.answers, pod.name, start, vpaRecs[..i])
      {
        var rec, adj, why := EvaluateVpaEntry(pa, pod, vpaRecs[i], plan,
          Progress(client.Stored(), pod.Value(), recs, adjustments, reasons));
        recs, adjustments, reasons := recs + [rec], adjustments + adj, reasons + why;
        assert vpaRecs[..i + 1][..i] == vpaRecs[..i];
        i := i + 1;
      }
      assert vpaRecs[..i] == vpaRecs;
    }

    /** None for the metrics stands for a failed metrics call. */
    method EvaluatePodMetrics(pa: PodAutoscaler, pod: Pod, metrics: Option<seq<ContainerMetrics>>, plan: Plan)
      returns (recs: seq<ContainerRecommendation>, adjustments: nat, ok: bool, reasons: seq<Reason>)
      requires podUpdater.client == client
      requires plan.dryRun == pa.spec.dryRun && plan.mode == ModeFor(pa.spec)
      modifies client`pods, client`log, pod
      ensures ok == metrics.Some?
      ensures Progress(client.Stored(), pod.Value(), recs, adjustments, reasons) ==
        old(var start := Progress(client.Stored(), pod.Value(), [], 0, []);
            if metrics.None? then start
            else OwnLoop(plan, client.answers, pod.name, Allocations(pod.containers), start, metrics.value))
    {
      recs, adjustments, reasons := [], 0, [];
      if metrics.None? { return [], 0, false, []; }
      ok := true;
      var allocations := GetCurrentAllocations(pod.containers);
      ghost var start := Progress(client.Stored(), pod.Value(), [], 0, []);
      var i := 0;
      while i < |metrics.value|
        invariant 0 <= i <= |metrics.value|
        invariant Progress(client.Stored(), pod.Value(), recs, adjustments, reasons) ==
          OwnLoop(plan, client.answers, pod.name, allocations, start, metrics.value[..i])
      {
        ghost var before := Progress(client.Stored(), pod.Value(), recs, adjustments, reasons);
        var m := metrics.value[i];
        assert metrics.value[..i + 1][..i] == metrics.value[..i];
        i := i + 1;
        if m.name !in allocations { continue; }
        var proposal := Calculate(UsageOf(m), AllocationOf(m.name, allocations[m.name]), plan.cfg, plan.constraints);
        if proposal.None? { continue; }
        var rec, rs := ClampToNamespace(proposal.value, plan.policy);
        reasons := reasons + rs;
        recs := recs + [StatusOf(rec)];
        var adj := CommitRecommendation(pa, pod, rec, plan, before.(reasons := reasons));
        adjustments := adjustments + adj;
      }
      assert metrics.value[..i] == metrics.value;
    }

    method CleanupManagedPods(obs: Observation)
      modifies client`pods, client`log
      ensures client.Stored() == old(CleanupManaged(client.answers, client.Stored(), obs))
    {
      if !obs.selectorValid || obs.listed.None? { return; }
      var pods := obs.listed.value;
      ghost var start := client.Stored();
      var i := 0;
      while i < |pods|
        invariant 0 <= i <= |pods|
        invariant client.Stored() == Cleanup(client.answers, start, pods[..i])
      {
        var pod := new Pod(pods[i].name, pods[i].value);
        if RECOMMENDATION_KEY in pod.annotations {
          var base := pod.Value();
          pod.annotations := pod.annotations - {RECOMMENDATION_KEY};
          var _ := client.PatchPod(Unannotate, pod, base);
        }
        assert pods[..i + 1][..i] == pods[..i];
        i := i + 1;
      }
      assert pods[..i] == pods;
    }

    /** Returns whether the cycle ends here. */
    method HandleFinalizer(pa: PodAutoscaler, obs: Observation) returns (done: bool)
      requires client.autoscaler == Some(pa.Value())
      modifies client, pa`finalizers
      ensures client.Contents() == old(
        if pa.deleting then Delete(client.answers, client.Contents(), obs)
        else EnsureFinalizer(client.answers, client.Contents()))
      ensures done <==> !Managed(client.Contents())
      ensures !done ==> client.autoscaler == Some(pa.Value())
    {
      if pa.deleting {
        if FINALIZER in pa.finalizers {
          CleanupManagedPods(obs);
          pa.finalizers := pa.finalizers - {FINALIZER};
          var _ := client.UpdateFinalizers(pa.finalizers);
        }
        return true;
      }
      if FINALIZER !in pa.finalizers {
        pa.finalizers := pa.finalizers + {FINALIZER};
        var ok := client.UpdateFinalizers(pa.finalizers);
        if !ok { return true; }
      }
      return false;
    }

    method CheckVpaIntegration(pa: PodAutoscaler, view: VpaView, now: int) returns (check: VpaCheck)
      modifies pa`conditions
      ensures check == CheckVpa(pa.spec, view)
      ensures pa.conditions == if check.clearsConflict
        then Conditions.SetCondition(old(pa.conditions), VPA_CONFLICT, false, "NoConflict", now)
        else old(pa.conditions)
    {
      if !view.configured { return VpaCheck(None, [], false); }
      if pa.spec.vpaPolicy.Some? && pa.spec.vpaPolicy.value.enabled.Some? && !pa.spec.vpaPolicy.value.enabled.value {
        return VpaCheck(Some(NOT_INSTALLED), [], false);
      }
      if !view.installed { return VpaCheck(Some(NOT_INSTALLED), [], false); }
      var matched: Option<Vpa.VpaInfo> := None;
      if pa.spec.vpaPolicy.Some? && pa.spec.vpaPolicy.value.vpaName != "" {
        if view.named.Some? {
          matched := Vpa.ParseVpa(view.parse, view.named.value);
        }
      } else if pa.spec.targetRef.Some? {
        var target := pa.spec.targetRef.value;
        matched := Vpa.FindMatchingVpa(view.parse, view.listed, target.kind, target.name);
      }
      if matched.None? { return VpaCheck(Some(NO_MATCH), [], false); }
      var info := matched.value;
      var status := VpaStatus(true, info.name, info.updateMode, false, false);
      if !Vpa.OnlyRecommends(info) {
        return VpaCheck(Some(status.(conflict := true)), [], false);
      }
      SetCondition(pa, VPA_CONFLICT, false, "NoConflict", now);
      if !info.hasRecommendation || |info.containerRecommendations| == 0 {
        return VpaCheck(Some(status), [], true);
      }
      return VpaCheck(Some(status.(usingRecommendations := true)), info.containerRecommendations, true);
    }

    method MakePlan(pa: PodAutoscaler, obs: Observation) returns (plan: Plan)
      ensures plan == PlanFor(pa.spec, obs)
    {
      var cfg := DEFAULT_CONFIG;
      if pa.spec.varianceThresholdPercent.Some? {
        cfg := cfg.(threshold := pa.spec.varianceThresholdPercent.value as real);
      }
      var policy := EMPTY_POLICY;
      if obs.limitsConfigured {
        var failed;
        policy, failed := GetNamespaceConstraints(obs.ranges, obs.quotas);
        if failed { policy := EMPTY_POLICY; }
      }
      var cpu, memory := DEFAULT_CONSTRAINTS.cpu, DEFAULT_CONSTRAINTS.memory;
      var minCPU, maxCPU, minMem, maxMem := ToCalculatorConstraints(policy, cpu.min, cpu.max, memory.min, memory.max);
      var constraints := Constraints(Range(minCPU, maxCPU), Range(minMem, maxMem));
      return Plan(cfg, constraints, policy, pa.spec.dryRun, ModeFor(pa.spec));
    }

    /** One pod, on a fresh local copy. */
    method EvaluateOnePod(pa: PodAutoscaler, plan: Plan, source: Source, listed: ListedPod)
      returns (recs: seq<ContainerRecommendation>, adjustments: nat, reasons: seq<Reason>, ok: bool)
      requires podUpdater.client == client
      requires plan.dryRun == pa.spec.dryRun && plan.mode == ModeFor(pa.spec)
      modifies client`pods, client`log
      ensures ok == (source.FromVpa? || listed.name in source.metrics)
      ensures var p := old(EvaluatePod(plan, client.answers, source, client.Stored(), listed));
        client.Stored() == p.world && recs == p.recs && adjustments == p.adjustments && reasons == p.reasons
    {
      var pod := new Pod(listed.name, listed.value);
      match source {
        case FromVpa(vpaRecs) =>
          recs, adjustments, reasons := EvaluateVpaPod(pa, pod, vpaRecs, plan);
          ok := true;
        case OwnAlgorithm(metrics) =>
          var podMetrics := if pod.name in metrics then Some(metrics[pod.name]) else None;
          recs, adjustments, ok, reasons := EvaluatePodMetrics(pa, pod, podMetrics, plan);
      }
    }

    /** The loop over the running pods. */
    method EvaluatePods(pa: PodAutoscaler, plan: Plan, source: Source, pods: seq<ListedPod>)
      returns (recs: seq<ContainerRecommendation>, adjustments: nat, reasons: seq<Reason>, metricsAvailable: bool)
      requires podUpdater.client == client
      requires plan.dryRun == pa.spec.dryRun && plan.mode == ModeFor(pa.spec)
      modifies client`pods, client`log
      ensures CycleProgress(client.Stored(), recs, adjustments, reasons, metricsAvailable) ==
        old(CycleLoop(plan, client.answers, source, client.Stored(), pods))
    {
      recs, adjustments, reasons, metricsAvailable := [], 0, [], true;
      ghost var start := client.Stored();
      var i := 0;
      while i < |pods|
        invariant 0 <= i <= |pods|
        invariant CycleProgress(client.Stored(), recs, adjustments, reasons, metricsAvailable) ==
          CycleLoop(plan, client.answers, source, start, pods[..i])
      {
        ghost var c := CycleLoop(plan, client.answers, source, start, pods[..i]);
        assert pods[..i + 1][..i] == pods[..i];
        assert CycleLoop(plan, client.answers, source, start, pods[..i + 1]) ==
          CycleStep(plan, client.answers, source, c, pods[i]);
        var rs, adj, why, ok := EvaluateOnePod(pa, plan, source, pods[i]);
        recs, adjustments, reasons := recs + rs, adjustments + adj, reasons + why;
        if !ok { metricsAvailable := false; }
        i := i + 1;
      }
      assert pods[..i] == pods;
    }

    /** One cycle. Requeueing and the error result are not modelled. */
    method Reconcile(obs: Observation)
      requires podUpdater.client == client
      modifies client
      ensures client.Contents() == Reconciling.Reconcile(client.answers, old(client.Contents()), obs)
    {
      if !obs.fetched || client.autoscaler.None? { return; }
      var pa := new PodAutoscaler(client.autoscaler.value);
      var done := HandleFinalizer(pa, obs);
      if done { return; }
      EvaluateManaged(pa, obs);
    }

    /** The steps after the finalizer. */
    method EvaluateManaged(pa: PodAutoscaler, obs: Observation)
      requires podUpdater.client == client
      requires client.autoscaler == Some(pa.Value()) && Managed(client.Contents())
      modifies client, pa
      ensures client.Contents() == old(Evaluate(client.answers, client.Contents(), obs))
    {
      if !obs.selectorValid {
        SetCondition(pa, READY, false, "InvalidSelector", obs.now);
        pa.phase := Error;
        var _ := client.UpdateStatus(pa.CurrentStatus());
        return;
      }
      if obs.listed.None? { return; }
      var running := FilterRunningPods(obs.listed.value);
      pa.monitoredPods := |running|;
      if |running| == 0 {
        pa.phase := Pending;
        SetCondition(pa, READY, false, "NoPodsFound", obs.now);
        var _ := client.UpdateStatus(pa.CurrentStatus());
        return;
      }
      var check := CheckVpaIntegration(pa, obs.vpa, obs.now);
      pa.vpaStatus := check.status;
      if Halts(pa.spec, check) {
        pa.phase := Degraded;
        SetCondition(pa, VPA_CONFLICT, true, "VPAConflict", obs.now);
        var _ := client.UpdateStatus(pa.CurrentStatus());
        return;
      }
      EvaluateAndReport(pa, obs, check, running);
    }

    method EvaluateAndReport(pa: PodAutoscaler, obs: Observation, check: VpaCheck, running: seq<ListedPod>)
      requires podUpdater.client == client
      requires client.autoscaler.Some?
      modifies client, pa
      ensures client.Contents() == old(
        var plan := PlanFor(pa.spec, obs);
        var e := CycleLoop(plan, client.answers, SourceFor(obs, check), client.Stored(), running);
        WriteStatus(client.answers, client.Contents().(world := e.world),
                    EvaluatedStatus(pa.CurrentStatus(), pa.generation, plan, e, obs.now)))
    {
      var plan := MakePlan(pa, obs);
      var recs, adjustments, reasons, metricsAvailable := EvaluatePods(pa, plan, SourceFor(obs, check), running);
      ghost var e := CycleProgress(client.Stored(), recs, adjustments, reasons, metricsAvailable);
      Report(pa, plan, recs, adjustments, reasons, metricsAvailable, e, obs.now);
      var _ := client.UpdateStatus(pa.CurrentStatus());
    }

    /** Fills in the status of an evaluated cycle. */
    method Report(pa: PodAutoscaler, plan: Plan, recs: seq<ContainerRecommendation>, adjustments: nat,
        reasons: seq<Reason>, metricsAvailable: bool, ghost e: CycleProgress, now: int)
      requires e == CycleProgress(e.world, recs, adjustments, reasons, metricsAvailable)
      modifies pa
      ensures pa.CurrentStatus() == EvaluatedStatus(old(pa.CurrentStatus()), pa.generation, plan, e, now)
    {
      pa.clampReasons := if plan.policy.limitRangeFound || plan.policy.resourceQuotaFound then Some(reasons) else None;
      pa.lastEvaluationTime := Some(now);
      pa.observedGeneration := pa.generation;
      pa.totalAdjustments := pa.totalAdjustments + adjustments;
      if adjustments > 0 {
        pa.lastUpdateTime := Some(now);
      }
      if |recs| > 0 {
        pa.recommendation := recs;
      }
      assert pa.CurrentStatus() == CountedStatus(old(pa.CurrentStatus()), pa.generation, plan, e, now);
      ReportPhase(pa, metricsAvailable, now);
    }

    method ReportPhase(pa: PodAutoscaler, metricsAvailable: bool, now: int)
      modifies pa`phase, pa`conditions
      ensures pa.phase == (if metricsAvailable then Active else Degraded)
      ensures pa.conditions == if metricsAvailable
        then Conditions.SetCondition(Conditions.SetCondition(old(pa.conditions), READY, true, "Reconciled", now),
                                     METRICS_AVAILABLE, true, "MetricsCollected", now)
        else Conditions.SetCondition(old(pa.conditions), METRICS_AVAILABLE, false, "MetricsUnavailable", now)
    {
      if metricsAvailable {
        pa.phase := Active;
        SetCondition(pa, READY, true, "Reconciled", now);
        SetCondition(pa, METRICS_AVAILABLE, true, "MetricsCollected", now);
      } else {
        pa.phase := Degraded;
        SetCondition(pa, METRICS_AVAILABLE, false, "MetricsUnavailable", now);
      }
    }
  }
}
