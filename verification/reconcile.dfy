/** One reconcile cycle, as a function of the cluster, the observations and the API answers. */
module Reconciling {
  import opened Quantities
  import opened Calculator
  import opened NamespaceLimits
  import opened Pods
  import opened ApiTypes
  import opened Server
  import opened Evaluation
  import opened Conditions
  import Vpa

  /** What the VPA client would see during a cycle. */
  datatype VpaView = VpaView(
    configured: bool, installed: bool, parse: Vpa.QuantityParser,
    named: Option<Vpa.VpaObject>, listed: Option<seq<Vpa.VpaObject>>)

  /** Everything a cycle reads; None is a failed call. The listed pods need not be current. */
  datatype Observation = Observation(
    now: int, fetched: bool, selectorValid: bool, listed: Option<seq<ListedPod>>,
    vpa: VpaView,
    limitsConfigured: bool, ranges: Option<seq<LimitRange>>, quotas: Option<seq<ResourceQuota>>,
    metrics: map<string, seq<ContainerMetrics>>)

  // ---- VPA ----

  /** The status to report, the recommendations to use, and whether the conflict condition is cleared. */
  datatype VpaCheck = VpaCheck(status: Option<VpaStatus>, recs: seq<Vpa.ContainerRecommendation>, clearsConflict: bool)

  const NOT_INSTALLED := VpaStatus(false, "", "", false, false)
  const NO_MATCH := VpaStatus(true, "", "", false, false)

  function MatchedVpa(spec: Spec, view: VpaView): Option<Vpa.VpaInfo> {
    if spec.vpaPolicy.Some? && spec.vpaPolicy.value.vpaName != "" then
      if view.named.Some? then Vpa.Parsed(view.parse, view.named.value) else None
    else if spec.targetRef.Some? && view.listed.Some? then
      Vpa.FirstMatch(view.parse, view.listed.value, spec.targetRef.value.kind, spec.targetRef.value.name)
    else None
  }

  predicate VpaDisabled(spec: Spec) {
    spec.vpaPolicy.Some? && spec.vpaPolicy.value.enabled == Some(false)
  }

  function CheckVpa(spec: Spec, view: VpaView): VpaCheck {
    if !view.configured then VpaCheck(None, [], false)
    else if VpaDisabled(spec) || !view.installed then VpaCheck(Some(NOT_INSTALLED), [], false)
    else
      var matched := MatchedVpa(spec, view);
      if matched.None? then VpaCheck(Some(NO_MATCH), [], false) else
      var info := matched.value;
      var status := VpaStatus(true, info.name, info.updateMode, false, false);
      if !Vpa.OnlyRecommends(info) then VpaCheck(Some(status.(conflict := true)), [], false)
      else if !info.hasRecommendation || info.containerRecommendations == [] then VpaCheck(Some(status), [], true)
      else VpaCheck(Some(status.(usingRecommendations := true)), info.containerRecommendations, true)
  }

  predicate UsingVpa(check: VpaCheck) {
    check.status.Some? && check.status.value.usingRecommendations
  }

  predicate Halts(spec: Spec, check: VpaCheck) {
    && check.status.Some? && check.status.value.conflict
    && spec.vpaPolicy.Some? && spec.vpaPolicy.value.strictMode
  }

  // ---- The plan of a cycle ----

  function ConfigFor(spec: Spec): Config {
    if spec.varianceThresholdPercent.Some?
    then DEFAULT_CONFIG.(threshold := spec.varianceThresholdPercent.value as real)
    else DEFAULT_CONFIG
  }

  /** A failed fetch of either list falls back to no policy at all. */
  function PolicyFor(obs: Observation): Policy {
    if obs.limitsConfigured && obs.ranges.Some? && obs.quotas.Some?
    then MergedPolicy(obs.ranges.value, obs.quotas.value)
    else EMPTY_POLICY
  }

  function ModeFor(spec: Spec): UpdateMode {
    if spec.updatePolicy.Some? then spec.updatePolicy.value else Auto
  }

  function PlanFor(spec: Spec, obs: Observation): Plan {
    var policy := PolicyFor(obs);
    Plan(ConfigFor(spec), EffectiveConstraints(policy, DEFAULT_CONSTRAINTS), policy, spec.dryRun, ModeFor(spec))
  }

  function SourceFor(obs: Observation, check: VpaCheck): Source {
    if UsingVpa(check) then FromVpa(check.recs) else OwnAlgorithm(obs.metrics)
  }

  function Running(pods: seq<ListedPod>): seq<ListedPod> {
    if pods == [] then [] else
    var rest, last := Running(pods[..|pods| - 1]), pods[|pods| - 1];
    if last.value.running && !last.value.terminating then rest + [last] else rest
  }

  // ---- Deletion ----

  function WithoutAnnotation(pod: PodValue): PodValue {
    pod.(annotations := pod.annotations - {RECOMMENDATION_KEY})
  }

  /** Failed patches are logged and skipped. */
  function Cleanup(answers: Answers, w: World, pods: seq<ListedPod>): World {
    if pods == [] then w else
    var before, last := Cleanup(answers, w, pods[..|pods| - 1]), pods[|pods| - 1];
    if Annotated(last.value)
    then Patch(answers, before, Unannotate, last.name, last.value, WithoutAnnotation(last.value)).world
    else before
  }

  /** An invalid selector or a failed list skips the cleanup. */
  function CleanupManaged(answers: Answers, w: World, obs: Observation): World {
    if obs.selectorValid && obs.listed.Some? then Cleanup(answers, w, obs.listed.value) else w
  }

  function Delete(answers: Answers, c: Cluster, obs: Observation): Cluster
    requires c.autoscaler.Some?
  {
    if FINALIZER !in c.autoscaler.value.finalizers then c else
    UpdateObject(answers, c.(world := CleanupManaged(answers, c.world, obs)),
                 c.autoscaler.value.finalizers - {FINALIZER})
  }

  // ---- The cycle ----

  predicate Managed(c: Cluster) {
    c.autoscaler.Some? && !c.autoscaler.value.deleting && FINALIZER in c.autoscaler.value.finalizers
  }

  function EnsureFinalizer(answers: Answers, c: Cluster): Cluster
    requires c.autoscaler.Some?
  {
    if FINALIZER in c.autoscaler.value.finalizers then c
    else UpdateObject(answers, c, c.autoscaler.value.finalizers + {FINALIZER})
  }

  function PendingStatus(s: Status, now: int): Status {
    s.(phase := Pending, conditions := SetCondition(s.conditions, READY, false, "NoPodsFound", now))
  }

  function ErrorStatus(s: Status, now: int): Status {
    s.(phase := Error, conditions := SetCondition(s.conditions, READY, false, "InvalidSelector", now))
  }

  function ConflictStatus(s: Status, now: int): Status {
    s.(phase := Degraded, conditions := SetCondition(s.conditions, VPA_CONFLICT, true, "VPAConflict", now))
  }

  function CheckedStatus(s: Status, check: VpaCheck, now: int): Status {
    s.(vpaStatus := check.status,
       conditions :=
         if check.clearsConflict then SetCondition(s.conditions, VPA_CONFLICT, false, "NoConflict", now)
         else s.conditions)
  }

  /** Counters, times and recommendations of an evaluated cycle. */
  function CountedStatus(s: Status, generation: int, plan: Plan, e: CycleProgress, now: int): Status {
    s.(clampReasons := if !plan.policy.Found() then None else Some(e.reasons),
       lastEvaluationTime := Some(now),
       observedGeneration := generation,
       totalAdjustments := s.totalAdjustments + e.adjustments,
       lastUpdateTime := if e.adjustments > 0 then Some(now) else s.lastUpdateTime,
       recommendation := if e.recs != [] then e.recs else s.recommendation)
  }

  function EvaluatedStatus(s: Status, generation: int, plan: Plan, e: CycleProgress, now: int): Status {
    var t := CountedStatus(s, generation, plan, e, now);
    if e.metricsAvailable then
      t.(phase := Active,
         conditions := SetCondition(SetCondition(t.conditions, READY, true, "Reconciled", now),
                                    METRICS_AVAILABLE, true, "MetricsCollected", now))
    else
      t.(phase := Degraded,
         conditions := SetCondition(t.conditions, METRICS_AVAILABLE, false, "MetricsUnavailable", now))
  }

  /** The part of a cycle that evaluates pods, with what it did. */
  function EvaluateAll(answers: Answers, w: World, spec: Spec, obs: Observation): CycleProgress
    requires obs.listed.Some?
  {
    CycleLoop(PlanFor(spec, obs), answers, SourceFor(obs, CheckVpa(spec, obs.vpa)), w, Running(obs.listed.value))
  }

  /** Everything after the finalizer step. */
  function Evaluate(answers: Answers, c: Cluster, obs: Observation): Cluster
    requires Managed(c)
  {
    var pa := c.autoscaler.value;
    if !obs.selectorValid then WriteStatus(answers, c, ErrorStatus(pa.status, obs.now))
    else if obs.listed.None? then c
    else
      var running := Running(obs.listed.value);
      var counted := pa.status.(monitoredPods := |running|);
      if running == [] then WriteStatus(answers, c, PendingStatus(counted, obs.now)) else
      var check := CheckVpa(pa.spec, obs.vpa);
      var checked := CheckedStatus(counted, check, obs.now);
      if Halts(pa.spec, check) then WriteStatus(answers, c, ConflictStatus(checked, obs.now)) else
      var e := EvaluateAll(answers, c.world, pa.spec, obs);
      WriteStatus(answers, c.(world := e.world),
                  EvaluatedStatus(checked, pa.generation, PlanFor(pa.spec, obs), e, obs.now))
  }

  function Reconcile(answers: Answers, c: Cluster, obs: Observation): Cluster {
    if !obs.fetched || c.autoscaler.None? then c
    else if c.autoscaler.value.deleting then Delete(answers, c, obs)
    else
      var ready := EnsureFinalizer(answers, c);
      if Managed(ready) then Evaluate(answers, ready, obs) else ready
  }
}
