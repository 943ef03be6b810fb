/** The PodAutoscaler resource (api/v1alpha1). */
module ApiTypes {
  import opened Quantities
  import NamespaceLimits

  datatype Phase = Unset | Pending | Active | Degraded | Error

  /** Mode names other than the four known ones reach the updater as they are. */
  datatype UpdateMode = Auto | InPlace | Recreate | Off | UnknownMode(text: string)

  datatype VpaPolicy = VpaPolicy(enabled: Option<bool>, vpaName: string, strictMode: bool)

  datatype TargetRef = TargetRef(kind: string, name: string)

  datatype Spec = Spec(
    targetRef: Option<TargetRef>, updatePolicy: Option<UpdateMode>,
    varianceThresholdPercent: Option<int>, dryRun: bool, vpaPolicy: Option<VpaPolicy>)

  datatype Condition = Condition(kind: string, status: bool, reason: string, lastTransition: int)

  /** Recommended requests (target) and limits (upperBound), as written to the status. */
  datatype ContainerRecommendation = ContainerRecommendation(
    containerName: string, target: ResourceList, upperBound: ResourceList)

  datatype VpaStatus = VpaStatus(
    installed: bool, matchingName: string, updateMode: string, usingRecommendations: bool, conflict: bool)

  datatype Status = Status(
    phase: Phase, conditions: seq<Condition>, monitoredPods: nat,
    recommendation: seq<ContainerRecommendation>,
    lastEvaluationTime: Option<int>, lastUpdateTime: Option<int>,
    totalAdjustments: int, observedGeneration: int,
    vpaStatus: Option<VpaStatus>,
    clampReasons: Option<seq<NamespaceLimits.Reason>>)

  const FRESH_STATUS := Status(Unset, [], 0, [], None, None, 0, 0, None, None)

  const FINALIZER := "podfather.io/finalizer"

  datatype Autoscaler = Autoscaler(
    deleting: bool, finalizers: set<string>, generation: int, spec: Spec, status: Status)
}
