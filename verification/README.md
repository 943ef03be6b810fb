# Verification of the Podfather resize loop

This project models the loop that resizes pods: namespace policy and observed usage go in, a clamped
recommendation comes out, it is truncated to whole millicores and bytes, written to pods, and read back by the
next cycle. Around it stands the reconcile state machine with its finalizer, its conditions and its counters.

Objects that the program mutates are classes here (`NamespaceConstraints`, `Pod`, `PodAutoscaler`, `ApiServer`,
`PodUpdater`, `Reconciler`), and its loops are loops. Each such method is proved equal to a function on values; the
promises are lemmas about those functions. One function, `Reconciling.Reconcile`, therefore describes a whole cycle,
and `Runs.Run` folds it over any list of events.

| file | content |
|---|---|
| `kube.dfy`, `pods.dfy`, `server.dfy`, `api_types.dfy` | quantities, pods, what the API server stores, the custom resource |
| `calculator.dfy`, `namespacelimits.dfy`, `metrics.dfy`, `updater.dfy`, `vpa.dfy` | one per package of the program |
| `evaluation.dfy`, `reconcile.dfy`, `controller.dfy` | a cycle as a function, and the reconciler proved against it |
| `calculator_laws.dfy`, `merge_laws.dfy`, `clamp_laws.dfy`, `sizing_laws.dfy`, `pipeline_laws.dfy` | recommendation arithmetic from end to end |
| `settling.dfy`, `repeated_entries.dfy`, `closed_loop.dfy`, `cycles.dfy`, `restless_laws.dfy`, `quota_feedback.dfy` | consecutive cycles |
| `updater_laws.dfy`, `mode_laws.dfy`, `attempt_laws.dfy`, `rejections.dfy`, `provenance.dfy`, `acceptance_laws.dfy`, `counting.dfy`, `cycle_safety.dfy`, `conditions.dfy`, `vpa_reading.dfy`, `vpa_laws.dfy` | what one cycle does and counts |
| `stored_values.dfy`, `reporting_laws.dfy`, `reconcile_laws.dfy`, `status_laws.dfy` | a whole cycle in terms of object, spec and observation: pods, calls, status |
| `runs.dfy`, `condition_history.dfy`, `run_counters.dfy` | every run |

## Assumptions

- Every API call that can fail is answered from one stream `Answers`, so a statement for all `answers` covers every
  pattern of failures; the world keeps a log of the calls, what each was for and whether it was accepted. Reads are the
  fields of `Observation`; a listed pod may differ from the stored one.
- A patch is a JSON merge patch of a copy against its changed version (RFC 7396): lists are replaced whole, annotations
  key by key. A successful patch refreshes the copy; a failed one leaves the copy changed.
- Kubernetes facts used as preconditions, where named: quantities are not negative, a `maxLimitRequestRatio` is
  absent (0) or at least 1, container names in a pod are distinct, metrics name each container once.

## What turned out to be conditional or false

- `ClampRecommendation` is not idempotent in general (`ClampNotIdempotent`). It is iff the quota stage does not
  fire, or no ratio is set, or the limit before that stage or twice the headroom is within the ratio of the
  re-bounded headroom (`ClampIdempotentIff`); a second pass is silent iff min and ratio survive the first
  (`SecondPassSilentIff`).
- It is not monotone in the limit either, for two reasons: the quota stage can cut the limit of the larger pair only
  (`ClampNotMonotone`), and the ratio stage skips a zero request (`ClampNotMonotoneAtZero`). In every other case it
  is (`ClampMonotoneIff`); the own-algorithm pipeline around it always is (`OwnPathMonotone`).
- The quota stage may break a `maxLimitRequestRatio` below two (`RatioKeptIff`, `RatioBrokenByQuota`).
- An empty reasons list does not mean unchanged values: the limit repair reports nothing (`SilentMeansRepairOnly`,
  `SilentRepair`).
- On the VPA path a limit below the request is repaired only if the namespace has a LimitRange or a ResourceQuota.
  Without either, the recommendation is in order iff each upper bound is absent, not below its target, or made
  irrelevant by the default range: target at most its min, or upper bound at least its max (`VpaPathAcceptedIff`,
  `VpaLimitBelowRequest`).
- With room for the margin, the variance threshold never leaves a container below its usage up to 20 percent, and
  does above (`NeverStarved`, `StarvedAboveMargin`). One more exception is truncation: a LimitRange max below the
  default min is what gets written, so its whole millicores or bytes must cover the usage (`FinalCoversUsage`,
  `CoarseMaxStarves`).
- A repeated cycle need not go quiet: a container can be rewritten with the same values, and counted, in every cycle
  (`TotalOverCycles`, `TotalOverRun`). `AdjustsAgainByBounds` and `SecondCycleQuietIff` say exactly when, at every
  threshold, in terms of demand or target, bounds and threshold. On the own path the variance is taken before the
  namespace clamp, so the cause is a positive headroom below the request (`OwnPathCanBeRestless`), a LimitRange min
  above the default max (`MinAboveDefaultIsRestless`), or truncation, from ten percent on only that of a LimitRange
  max below the default min. On the VPA path only truncation is left, from ten percent on only that of such a max or
  of a headroom of fewer than ten steps (`VpaPathCanBeRestless`).
- Quota headroom is read from a status whose used amount contains the container's own request. When that status
  catches up between cycles, the request can alternate for ever between two values that share what others leave free
  (`AlternatesIff`, `AlternatesForever`). On the VPA path this happens even to a request that is wholly free
  (`VpaPathAlternates`); on the own path a request that is reached rests (`AskedRestsOnOwnPath`), but one that is
  out of reach can alternate (`OwnPathAlternates`).
- `totalAdjustments` is documented as the number of adjustments applied. In every mode but Off a cycle counts
  exactly the accepted resizes and evictions (`CycleTallied`); mode Off counts every significant entry and applies
  none, so there the counter is right iff no entry is significant (`OffCountsWhatIsDue`, `CounterHonestIff`). Over a
  run, a failed status write loses the count of its cycle (`CounterAgainstLog`); with none lost the counter is right
  iff mode Off never found a significant entry (`CounterHonestInRunIff`). The model follows the code.
- A rejected resize is not undone in the copy of the pod. In mode InPlace the next accepted patch of that pod in the
  cycle stores it, uncounted, unless that patch changes nothing, and then it is lost (`RejectedResizeRidesAlong`,
  `StoredAfterRejections`).
- Each condition keeps the status last said of it, so VPAConflict=True can stand beside phase Active: it is cleared
  only by a stored status of a cycle whose check finds the VPA in mode Off (`ConditionsAreLastSaid`,
  `ConflictSurvivesIff`).
- Deletion gives the finalizer back iff that update is accepted, whether or not the annotations could be removed,
  and even when the pods could not be listed. Annotated pods stay behind iff it is accepted with one of them not
  cleared (`DeletionCleansIff`, `UnlistedDeletionLeavesAll`, `AnnotationLeftBehind`,
  `NoAnnotationWithoutFinalizer`).
- The program's own documentation lists `resourcePolicy` among the bounds of the clamp; no code reads it, and
  neither does the model.

## Model

| member | source | states |
|---|---|---|
| NamespaceLimits.NamespaceConstraints.Empty | internal/namespacelimits/namespacelimits.go:96-105 | a new struct bounds nothing: minima zero, every maximum and headroom unbounded |
| NamespaceLimits.NamespaceConstraints.ApplyContainerLimitRangeItem | internal/namespacelimits/namespacelimits.go:160-212 | both resources absorb the item: min and max tighten, defaults and ratio are replaced, pod max and quota stay |
| NamespaceLimits.NamespaceConstraints.ApplyPodLimitRangeItem | internal/namespacelimits/namespacelimits.go:214-227 | only the pod maxima tighten |
| NamespaceLimits.NamespaceConstraints.ApplyResourceQuota | internal/namespacelimits/namespacelimits.go:231-243 | only the headrooms tighten, to the quota's remaining amounts |
| NamespaceLimits.ComputeRemaining | internal/namespacelimits/namespacelimits.go:247-264 | the result admits a value iff every key with both hard and used leaves that much |
| NamespaceLimits.MergeLimits | internal/namespacelimits/namespacelimits.go:131-138 | the inner loop adds the items of one LimitRange to the merge, by type |
| NamespaceLimits.MergeRanges | internal/namespacelimits/namespacelimits.go:128-140 | the outer loop merges the items of all LimitRanges and records that one was found |
| NamespaceLimits.GetNamespaceConstraints | internal/namespacelimits/namespacelimits.go:119-156 | the struct is the merge of all objects; a failed list is an error, with what was merged before it |
| NamespaceLimits.ClampRecommendation | internal/namespacelimits/namespacelimits.go:271-372 | both pairs go through min, max, repair, ratio and quota, with one reason per stage that fired, in order |
| NamespaceLimits.ClampToRange | internal/namespacelimits/namespacelimits.go:280-326 | both pairs after min, max and repair, with the reasons of those stages in order |
| NamespaceLimits.CapByHeadroom | internal/namespacelimits/namespacelimits.go:352-360 | a request above a positive finite headroom drops to it, its limit to at most twice that |
| ClampLaws.ClampIsExact | internal/namespacelimits/namespacelimits.go:271-372 | for every pair and all bounds: the request reaches exactly what the asked one or a positive min reaches under the max, and under a positive headroom; the limit exactly what the asked one under the max or that request reaches, within ratio and twice a headroom that cuts |
| ClampLaws.ClampedToOne | internal/namespacelimits/namespacelimits.go:271-372 | no other pair does |
| ClampLaws.ReportsIff | internal/namespacelimits/namespacelimits.go:280-371 | when each stage reports, in terms of pair and bounds |
| NamespaceLimits.ToCalculatorConstraints | internal/namespacelimits/namespacelimits.go:377-410 | the four results are the effective ranges of both resources |
| MergeLaws.MergedMinIsExact | internal/namespacelimits/namespacelimits.go:160-173 | a value meets the merged min iff it is not negative and meets every Container item's min |
| MergeLaws.MergedMaxIsExact | internal/namespacelimits/namespacelimits.go:175-187 | a value meets the merged max iff it meets every Container item's max |
| MergeLaws.MergedPodMaxIsExact | internal/namespacelimits/namespacelimits.go:214-227 | the same for the pod maxima and the Pod items |
| MergeLaws.HeadroomIsExact | internal/namespacelimits/namespacelimits.go:231-264 | a value meets the merged headroom iff every quota leaves it under both of its keys |
| MergeLaws.MergeIsIntersection | internal/namespacelimits/namespacelimits.go:119-156 | min, max and headroom together admit exactly what every object of the namespace admits |
| MergeLaws.ItemOrderIsIrrelevant | internal/namespacelimits/namespacelimits.go:130-139 | min, max and pod max depend only on which items occur |
| MergeLaws.QuotaOrderIsIrrelevant | internal/namespacelimits/namespacelimits.go:150-152 | headroom depends only on which quotas occur |
| MergeLaws.LastNamingItemWins | internal/namespacelimits/namespacelimits.go:189-211 | ratio and defaults are those of the last Container item that names them |
| MergeLaws.LastNamingRangeWins | internal/namespacelimits/namespacelimits.go:128-140 | across LimitRange objects the last one that names the field wins |
| MergeLaws.UnnamedFieldIsZero | internal/namespacelimits/namespacelimits.go:189-211 | ratio and defaults are zero when no item names them |
| MergeLaws.RatioDependsOnOrder | internal/namespacelimits/namespacelimits.go:205-211 | two items exist whose exchange changes the merged ratio |
| MergeLaws.EffectiveRangeIsIntersection | internal/namespacelimits/namespacelimits.go:377-410 | the effective range is the intersection with the defaults; an empty one collapses to the smaller max |
| CalculatorLaws.CalculateIsSized | internal/calculator/calculator.go:155-172 | each request is the least value of its range covering average and dampened peak with margin, or the max; the limit is the request times the ratio as far as the range allows |
| CalculatorLaws.SignificantIff | internal/calculator/calculator.go:174-178 | an update is due iff a request lies outside the threshold band around its allocation; a zero allocation deviates by 100 percent |
| CalculatorLaws.VarianceMeans | internal/calculator/calculator.go:204-209 | the variance times the current value is a hundred times the deviation; 100 percent from zero |
| ClampLaws.ClampAdmissibleIff | internal/namespacelimits/namespacelimits.go:271-372 | a positive request ends within min, max and headroom and below its limit iff min fits under max and headroom and a headroom that is not positive binds no further than max |
| ClampLaws.RequestBelowLimitIff | internal/namespacelimits/namespacelimits.go:320-369 | for every ratio: request <= limit fails exactly for a ratio in (0,1) that the quota stage does not undo |
| ClampLaws.RatioAtMostTwice | internal/namespacelimits/namespacelimits.go:328-369 | the final limit is at most max(ratio, 2) times the request |
| ClampLaws.RatioKeptIff | internal/namespacelimits/namespacelimits.go:328-369 | the ratio holds at the end iff the quota cap did not fire, the ratio is at least two, or the limit already fitted the headroom |
| ClampLaws.RatioBrokenByQuota | internal/namespacelimits/namespacelimits.go:352-360 | every ratio in [1,2) is broken by the quota stage for some feasible bounds |
| ClampLaws.ClampIdempotentIff | internal/namespacelimits/namespacelimits.go:271-372 | a second clamp changes nothing iff the quota stage did not fire, there is no ratio, or the limit before that stage or twice the headroom is at most the ratio times the headroom bounded again by min and max |
| ClampLaws.ClampIdempotentForLargeRatio | internal/namespacelimits/namespacelimits.go:271-372 | with no ratio, or one of at least two, a second clamp never changes anything |
| ClampLaws.ClampNotIdempotent | internal/namespacelimits/namespacelimits.go:328-360 | ratio 1.5 with an active quota: the second clamp lowers the limit again |
| ClampLaws.SecondPassSilentIff | internal/namespacelimits/namespacelimits.go:280-372 | a second clamp reports nothing iff the min fits under the headroom where the quota fires and under the max elsewhere, and the ratio is absent, at least two, or not exceeded at the headroom |
| ClampLaws.ReasonsAreExact | internal/namespacelimits/namespacelimits.go:280-371 | the list contains a reason iff that stage fired for that resource |
| ClampLaws.ReasonsInOrder | internal/namespacelimits/namespacelimits.go:280-371 | the list has each reason at most once, in the order of the checks |
| ClampLaws.SilentMeansRepairOnly | internal/namespacelimits/namespacelimits.go:320-326 | with no reason only the limit repair ran, and the values are unchanged iff the limit was not below the request |
| ClampLaws.SilentRepair | internal/namespacelimits/namespacelimits.go:320-326 | a pair whose limit is raised without any reason |
| SizingLaws.RangeStagesIdleIff | internal/namespacelimits/namespacelimits.go:280-326 | after Calculate the LimitRange stages do nothing iff the LimitRange min fits under both maxima |
| SizingLaws.OnlyRatioAndQuotaReport | internal/namespacelimits/namespacelimits.go:280-371 | then only ratio and quota report, and silence means the pair passed through |
| SizingLaws.FinalMonotone | internal/calculator/calculator.go:161-172 | more demand never gives a smaller final request or limit |
| SizingLaws.ClampMonotoneIff | internal/namespacelimits/namespacelimits.go:271-372 | for all bounds, the clamp keeps the order of two pairs iff the quota stage does not cut the larger alone below the limit of the smaller, and the ratio stage does not skip the smaller for a zero request while cutting the larger below it |
| SizingLaws.ClampNotMonotone | internal/namespacelimits/namespacelimits.go:352-360 | a larger positive request, cut by the quota stage, ends with a smaller limit |
| SizingLaws.ClampNotMonotoneAtZero | internal/namespacelimits/namespacelimits.go:328-334 | a first positive request, cut by the ratio stage, ends with a smaller limit |
| SizingLaws.AcceptedIffAdmissible | internal/namespacelimits/namespacelimits.go:119-156 | every item and quota accepts a pair iff the merged bounds do |
| SizingLaws.TruncationKeepsBounds | internal/updater/updater.go:110-117 | written values keep request <= limit, limit <= max and request <= headroom |
| SizingLaws.TruncationKeepsMinIff | internal/updater/updater.go:110-113 | every request above the min stays above it when written iff the min is a whole number of steps |
| SizingLaws.WrittenStillAccepted | internal/updater/updater.go:98-121 | with a whole min, what the namespace accepts it accepts as written |
| SizingLaws.TruncationAlmostKeepsRatio | internal/updater/updater.go:110-117 | in steps, the written limit is below ratio times one step more than the written request |
| PipelineLaws.OwnProposalIsMarginOnUsage | internal/controller/podautoscaler_controller.go:413-429 | average and peak come from one reading, so dampening is idle and the demand is 1.2 times CPU and 1.25 times memory usage |
| PipelineLaws.OwnPathMonotone | internal/controller/podautoscaler_controller.go:413-445 | more usage never lowers any of the four recommended values, whatever was allocated |
| PipelineLaws.OwnPathReasons | internal/controller/podautoscaler_controller.go:436-445 | reasons of the own path name ratio or quota only, and none means unchanged |
| PipelineLaws.OwnPathAcceptedIff | internal/controller/podautoscaler_controller.go:429-445 | the namespace accepts the own recommendation iff the merged bounds of both resources are feasible, a max of zero included |
| PipelineLaws.VpaPathAcceptedIff | internal/controller/podautoscaler_controller.go:338-350 | with a LimitRange or quota, accepted iff both merged bounds are feasible; without any, iff for both resources the upper bound is absent, at least the target or the default max, or the target is at most the default min |
| PipelineLaws.VpaLimitBelowRequest | internal/controller/podautoscaler_controller.go:749-781 | a VPA recommendation whose limit ends below its request |
| PipelineLaws.FinalCoversUsage | internal/calculator/calculator.go:161-172 | when neither max nor quota cuts into the margin, the request covers the usage after truncation iff the LimitRange max is at least the default min or covers it in whole steps |
| PipelineLaws.CoarseMaxStarves | internal/updater/updater.go:110-113 | a CPU max of 1.5m with room for the margin on 1.25m, written as 1m |
| PipelineLaws.SkippedCoversUsage | internal/calculator/calculator.go:204-209 | an allocation skipped at a threshold of at most 20 percent covers the usage |
| PipelineLaws.ThresholdAboveMarginStarves | internal/calculator/calculator.go:204-209 | above 20 percent some skipped allocation does not |
| Metrics.GetCurrentAllocations | internal/metrics/metrics.go:119-138 | the map holds each container's four quantities, zero when missing, the last of equal names |
| Metrics.LastOfNameIsRead | internal/metrics/metrics.go:119-138 | of containers of equal name the last one is read, quantity by quantity |
| Metrics.AllocationsAreReadBack | internal/metrics/metrics.go:119-138 | keys are exactly the container names, and with distinct names each entry is its own container's |
| Updater.PodUpdater.ApplyRecommendation | internal/updater/updater.go:64-95 | store, copy and strategy after the dispatch on the mode, with the eviction fallback of Auto |
| Updater.PodUpdater.ApplyResize | internal/updater/updater.go:98-128 | the first container of that name gets truncated values, then one patch; without such a container no call |
| Updater.PodUpdater.ApplyEviction | internal/updater/updater.go:133-163 | the annotation is patched first and the pod is evicted only if that succeeded |
| UpdaterLaws.WrittenContainer | internal/updater/updater.go:104-121 | the written container has requests and limits cut to whole millicores and bytes, and keeps its name and every other resource |
| UpdaterLaws.AutoOutcome | internal/updater/updater.go:83-91 | mode Auto, any answers: which calls are made, with which answers, what is stored and kept in the copy, and the strategy: in place iff the resize is accepted, by fallback iff the annotation and the eviction after it are, else an error |
| UpdaterLaws.RecreateOutcome | internal/updater/updater.go:78-82 | mode Recreate: an annotation, then iff it is accepted an eviction; success iff both are accepted |
| UpdaterLaws.InPlaceOutcome | internal/updater/updater.go:73-77 | mode InPlace: a resize iff the pod has the container; success iff it is accepted |
| UpdaterLaws.IdleOutcome | internal/updater/updater.go:71-93 | mode Off succeeds and an unknown mode fails, without a call |
| UpdaterLaws.EvictedPod | internal/updater/updater.go:133-163 | after an eviction the stored pod is terminating and carries the recommendation, unless the copy carried it before and the store did not |
| AttemptLaws.PodAttempts | internal/controller/podautoscaler_controller.go:407-464 | any answers, modes InPlace, Recreate and Auto: evaluating a pod makes one attempt for every due entry, with a fallback for every rejected resize in mode Auto; the pod ends terminating iff it was or an eviction was accepted |
| AttemptLaws.CycleTries | internal/controller/podautoscaler_controller.go:179-201 | and so does a whole cycle |
| ModeLaws.CycleRespectsMode | internal/updater/updater.go:64-163 | under any answers a cycle changes listed pods only: InPlace containers only, Recreate never containers, Off nothing; no mode changes another annotation, or its own to anything but a recommendation |
| ModeLaws.RejectedResizeRidesAlong | internal/updater/updater.go:98-128 | a rejected resize stays in the copy and is stored by the next successful patch of another container |
| Rejections.StoredAfterRejections | internal/updater/updater.go:98-128 | mode InPlace, any answers, a whole pod: a container is stored settled iff the first call accepted from its entry on changes the copy, and otherwise as it was; nothing else is stored |
| Rejections.StoredIffLands | internal/updater/updater.go:98-128 | over any sequence of rejected, idle and changing calls: what is in the store and what is in the copy |
| Provenance.CycleIsTraceable | internal/controller/podautoscaler_controller.go:179-201 | in every mode, under any answers and any list, a stored container list after a cycle is one that was stored or listed, each container unchanged or overwritten with a recommendation for its name that was significant for a container seen under that name |
| Counting.CycleTallied | internal/updater/updater.go:64-163 | in every mode but Off the adjustments of a cycle are the accepted resizes and evictions; InPlace only resizes, Recreate only annotates and evicts, and an eviction is tried exactly after an accepted annotation |
| Counting.InPlaceAdjustmentsAreSuccesses | internal/controller/podautoscaler_controller.go:174-201 | in mode InPlace, with all listed pods stored, the adjustments are exactly the calls answered with success |
| Counting.OffCountsWhatIsDue | internal/updater/updater.go:71-72 | in mode Off a cycle changes and calls nothing and counts every entry that is significant for the container it names |
| Counting.CounterHonestIff | internal/controller/podautoscaler_controller.go:174-224 | the adjustments of a cycle equal the accepted resizes and evictions iff the mode is not Off, the run is dry, or no entry is significant |
| Counting.OffCountsWithoutTouching | internal/updater/updater.go:71-72 | a cycle in mode Off with a positive count |
| Vpa.ParseVpa | internal/vpa/vpa.go:201-242 | parsing fails iff the target reference is missing, an absent mode reads as Auto, entries that are not objects are skipped |
| Vpa.ParseResourceList | internal/vpa/vpa.go:261-281 | the list of the field, which ParsedResourcesRead describes |
| VpaReading.ParsedResourcesRead | internal/vpa/vpa.go:261-281 | CPU is listed iff the cpu field is a readable quantity, memory iff the memory field is, each with the value of its own field; nothing else is listed |
| VpaReading.EntriesRead | internal/vpa/vpa.go:228-239 | entries that are objects are read in their order: name, target and upper bound each from its own field |
| VpaReading.ObjectRead | internal/vpa/vpa.go:201-242 | name, kind and name of the target, mode or Auto, and entries of an object with a target reference |
| VpaReading.TargetsIff | internal/vpa/vpa.go:146-158 | an object targets a workload iff its reference names that kind and name |
| Vpa.FindMatchingVpa | internal/vpa/vpa.go:131-159 | the parsed first object that targets the workload; none after a failed list |
| Vpa.FirstMatchIsFirst | internal/vpa/vpa.go:146-158 | no result iff nothing targets the workload, otherwise the object before which nothing does |
| Vpa.ParsedRecommendationsCome | internal/vpa/vpa.go:228-239 | a recommendation is listed iff some object entry parses to it |
| VpaLaws.NamedVpaDrivesIff | internal/controller/podautoscaler_controller.go:689-745 | a named VPA drives the cycle iff it has a target reference, the literal mode Off and a recommendation |
| VpaLaws.DiscoveredVpaDrivesIff | internal/controller/podautoscaler_controller.go:694-745 | on discovery the first object targeting the workload alone decides |
| VpaLaws.NoVpaNoDrive | internal/controller/podautoscaler_controller.go:656-704 | without a consulted, targeting object the own algorithm runs and nothing halts |
| VpaLaws.ConflictExcludesVpa | internal/controller/podautoscaler_controller.go:709-745 | a conflict and VPA recommendations exclude each other |
| VpaLaws.CheckWithObject | internal/controller/podautoscaler_controller.go:653-745 | with a found object: the whole VPA status, the recommendations used, whether the conflict is cleared and whether the cycle halts, by its mode and entries alone |
| VpaLaws.CheckWithoutObject | internal/controller/podautoscaler_controller.go:656-704 | without one: the status, and nothing is used, cleared or halted |
| Controller.FilterRunningPods | internal/controller/podautoscaler_controller.go:576-584 | running pods that are not terminating, in order |
| ReconcileLaws.RunningInPlace | internal/controller/podautoscaler_controller.go:576-584 | a pod is kept iff it is running and not terminating, in its place among those |
| Controller.VpaRecommendationToCalculatorRec | internal/controller/podautoscaler_controller.go:749-781 | target as request, upper bound or 1.5 times the target as limit, each clamped |
| StoredValues.VpaProposalIsSized | internal/controller/podautoscaler_controller.go:749-781 | per resource: request is the target, or zero, brought into the range; limit is the upper bound, or else one and a half times the target, brought into the range |
| StoredValues.VpaStored | internal/controller/podautoscaler_controller.go:337-359 | an adjusted container holds these values, restricted by the namespace, in whole steps |
| StoredValues.OwnStored | internal/controller/podautoscaler_controller.go:413-445 | on the own path the least covering values and their multiples, restricted likewise |
| StoredValues.ReasonsByAre | internal/controller/podautoscaler_controller.go:341-350 | the reasons of a recommendation are those of the stages that adjusted it, each once and in order; none in a namespace without objects |
| Controller.Reconciler.SetCondition | internal/controller/podautoscaler_controller.go:545-565 | the list after setting a condition |
| Conditions.SetConditionIsMapUpdate | internal/controller/podautoscaler_controller.go:545-565 | reading back gives the value set for that type and the old value for every other |
| Conditions.SetConditionEntry | internal/controller/podautoscaler_controller.go:545-565 | the entry of that type changes, with its time, only if status or reason do; every other entry stays |
| Conditions.SetConditionShape | internal/controller/podautoscaler_controller.go:547-564 | at most one entry is added, positions keep their types, a transition time moves only with status or reason |
| Conditions.SetConditionKeepsUnique | internal/controller/podautoscaler_controller.go:547-564 | types stay unique |
| Conditions.SetConditionIdempotent | internal/controller/podautoscaler_controller.go:548-556 | repeating a call at any later time changes nothing |
| Conditions.AtMostThree | internal/controller/podautoscaler_controller.go:545-565 | a list with unique types out of the three in use has at most three entries |
| Controller.Reconciler.ApplyRecommendation | internal/controller/podautoscaler_controller.go:471-510 | the updater's effect in the mode of the spec, and one adjustment iff it reports no error |
| Controller.Reconciler.EvaluateVpaPod | internal/controller/podautoscaler_controller.go:322-377 | the loop over VPA entries, with allocations read afresh for each |
| Controller.Reconciler.EvaluatePodMetrics | internal/controller/podautoscaler_controller.go:383-467 | the loop over measured containers, with allocations read once; false iff the metrics call failed |
| Controller.Reconciler.EvaluatePods | internal/controller/podautoscaler_controller.go:179-201 | the loop over pods with its four accumulators |
| ReportingLaws.CycleReports | internal/controller/podautoscaler_controller.go:179-201 | any answers: one recommendation for every entry that yields one, pod by pod in the order of the entries, and all their reasons in that order |
| ReportingLaws.ReportedIsVerdict | internal/controller/podautoscaler_controller.go:596-608 | what is reported is the name, target and upper bound of the verdict, in whole millicores and bytes |
| Controller.Reconciler.CleanupManagedPods | internal/controller/podautoscaler_controller.go:515-542 | the annotation is patched away pod by pod, failures skipped, nothing without a selector or list |
| Controller.Reconciler.HandleFinalizer | internal/controller/podautoscaler_controller.go:267-287 | cleanup and removal on deletion, otherwise addition; the cycle goes on iff the object is managed |
| Controller.Reconciler.CheckVpaIntegration | internal/controller/podautoscaler_controller.go:653-745 | the VPA status and recommendations; the conflict condition is cleared iff the object is in mode Off |
| Controller.Reconciler.Reconcile | internal/controller/podautoscaler_controller.go:80-253 | pods, object and call log after a cycle, for every observation and every pattern of answers |
| ReconcileLaws.PlanForIs | internal/controller/podautoscaler_controller.go:131-165 | threshold of the spec or 15, mode of the spec or Auto, merged policy if both lists were read and none otherwise, documented margins and ranges |
| ReconcileLaws.StoppedIff | internal/controller/podautoscaler_controller.go:301-309 | the cycle halts iff the policy is strict and the found object is in another mode than Off |
| ReconcileLaws.DrivenByVpa | internal/controller/podautoscaler_controller.go:179-201 | with a driving object, an accurate list and granted calls the stored pods are settled from its entries, and the counter grows by the adjustments iff the status write succeeds |
| ReconcileLaws.DrivenByMetrics | internal/controller/podautoscaler_controller.go:191-201 | and otherwise from the metrics |
| ReconcileLaws.ReconcileTries | internal/controller/podautoscaler_controller.go:174-249 | any answers, every acting mode: one attempt per due entry, and the counter grows by the accepted resizes and evictions iff the status write succeeds |
| StatusLaws.EvaluatedStatusStored | internal/controller/podautoscaler_controller.go:107-249 | any answers: recommendations, reasons, counter, times, generation, pod count and VPA findings of the stored status; the old status if the write fails |
| StatusLaws.UnevaluatedStatusStored | internal/controller/podautoscaler_controller.go:93-129 | a cycle that does not evaluate changes phase and conditions, with pods listed their number and with pods running the VPA findings, and nothing else |
| StatusLaws.DeletionOfObject | internal/controller/podautoscaler_controller.go:267-278 | a deletion cycle takes its own finalizer away and leaves the others; the object goes iff there are none |
| StatusLaws.FinalizerOfObject | internal/controller/podautoscaler_controller.go:280-286 | the own finalizer is added to the others first, and the cycle ends unless that is accepted |
| StatusLaws.CallsOfManagedCycle | internal/controller/podautoscaler_controller.go:93-129 | a cycle changes nothing of a managed object but its status, and makes no call but the status write when it does not evaluate |
| StatusLaws.DrivenContainer | internal/controller/podautoscaler_controller.go:337-359 | through a whole cycle: an adjusted container is stored with the target and upper bound of its VPA entry, restricted by the namespace, in whole steps |
| StatusLaws.MeasuredContainer | internal/controller/podautoscaler_controller.go:413-445 | and on the own path with the least values covering usage with 20 and 25 percent margin, and one and a half times that as limit |
| Settling.OwnLoopSettles | internal/controller/podautoscaler_controller.go:407-466 | if the calls it makes succeed, the loop settles each container by its own entry, stores the result and counts the adjustments, one call each |
| Settling.VpaLoopSettles | internal/controller/podautoscaler_controller.go:337-376 | the same for the VPA loop |
| RepeatedEntries.VpaLoopInSequence | internal/controller/podautoscaler_controller.go:337-376 | on any list of VPA entries, repeated names included, each entry is judged on what those before it have left |
| RepeatedEntries.OwnLoopAllAtOnce | internal/controller/podautoscaler_controller.go:407-466 | on any list of measurements each entry is judged on the pod as listed |
| Cycles.CycleSettles | internal/controller/podautoscaler_controller.go:179-201 | if the calls it makes succeed, the nested loops settle every container of every listed pod, touch no other, and sum the adjustments |
| Cycles.SecondCycle | internal/controller/podautoscaler_controller.go:179-201 | a second identical cycle changes no stored pod and adjusts exactly the restless entries |
| Cycles.TotalOverCycles | internal/controller/podautoscaler_controller.go:179-220 | over n cycles the total is the first cycle's adjustments plus n-1 times the restless entries |
| Cycles.SecondCycleQuiet | internal/controller/podautoscaler_controller.go:337-374 | at a threshold of at least ten percent, entries of ten steps that the clamp left alone are not adjusted again |
| Cycles.CycleCoversUsage | internal/controller/podautoscaler_controller.go:407-464 | at a threshold of at most 20 percent a measured container with room for its margin ends the cycle with requests that cover its usage iff it was skipped or the LimitRange maxima cover it in whole steps |
| AcceptanceLaws.CycleIsAccepted | internal/controller/podautoscaler_controller.go:179-201 | after a cycle every adjusted container is stored with values that every LimitRange item and quota accepts, if the merged bounds are feasible with mins of whole steps, and the upper bounds of a VPA entry are in order where the namespace has no object |
| ClosedLoop.StatusIsWhatIsReadBack | internal/controller/podautoscaler_controller.go:596-608 | the status target and upper bound are the values written and read back |
| ClosedLoop.VerdictJudges | internal/controller/podautoscaler_controller.go:337-454 | an entry writes the same requests to whatever container, and is significant iff its judged request, before the clamp on the own path and after it for VPA, deviates from what is read back |
| ClosedLoop.AdjustsAgainIff | internal/controller/podautoscaler_controller.go:429-454 | a container is adjusted again iff it was adjusted and what is written deviates from what is judged by the threshold; the condition in terms of the inputs is that of AdjustsAgainByBounds |
| ClosedLoop.TruncationVariance | internal/updater/updater.go:110-113 | truncating a request of n steps moves it by less than 100/n percent |
| ClosedLoop.UncutEntriesAreCalm | internal/controller/podautoscaler_controller.go:429-445 | own requests that the namespace does not cut have at least ten steps and are judged as written |
| ClosedLoop.VpaEntriesJudgeWhatTheyWrite | internal/controller/podautoscaler_controller.go:342-359 | on the VPA path both variances are those of the very requests that are written, against what is read back |
| ClosedLoop.OwnPathCanBeRestless | internal/controller/podautoscaler_controller.go:429-454 | a container that every cycle rewrites with the same values |
| RestlessLaws.AdjustsAgainByBounds | internal/controller/podautoscaler_controller.go:337-454 | both paths, every threshold: an adjusted container is adjusted again iff demand or target, headroom, LimitRange min and max, and the default range put what is written far enough from what is judged |
| RestlessLaws.SecondCycleQuietIff | internal/controller/podautoscaler_controller.go:179-201 | the second of two identical cycles adjusts nothing iff no entry that the first adjusts meets that condition |
| RestlessLaws.MinAboveDefaultIsRestless | internal/controller/podautoscaler_controller.go:429-454 | a LimitRange min of 20 cores is judged at 16 and written as 20 in every cycle |
| RestlessLaws.VpaPathCanBeRestless | internal/controller/podautoscaler_controller.go:342-359 | a headroom of 1.5m is judged at 1.5m and written as 1m in every cycle |
| QuotaFeedback.PolicyAtQuota | internal/namespacelimits/namespacelimits.go:231-264 | the headroom read from a quota that counts the container itself |
| QuotaFeedback.AlternatesIff | internal/namespacelimits/namespacelimits.go:352-360 | through such a quota the request leaves x and is back at x two cycles later iff x and the rest of what is free are both within what is asked, differ, and each moves the other by the threshold |
| QuotaFeedback.AlternatesForever | internal/namespacelimits/namespacelimits.go:352-360 | then x and the rest alternate over any number of cycles |
| QuotaFeedback.VpaPathAlternates | internal/controller/podautoscaler_controller.go:337-359 | of 5 free cores a VPA target of 3.6 is held as 3.6 and 1.4 in turn |
| QuotaFeedback.OwnPathAlternates | internal/controller/podautoscaler_controller.go:429-454 | of 5 free cores a need of 12 is held as 4 and 1 in turn |
| QuotaFeedback.AskedRestsOnOwnPath | internal/controller/podautoscaler_controller.go:429-454 | on the own path a request that is reached is not adjusted again, whatever is free |
| ClosedLoop.NeverStarved | internal/controller/podautoscaler_controller.go:407-464 | updated or skipped, a measured container with room ends with requests that cover its usage iff it was skipped or the LimitRange maxima cover it in whole steps |
| ClosedLoop.StarvedAboveMargin | internal/controller/podautoscaler_controller.go:587-593 | for every threshold above 20 percent some container does not |
| CycleSafety.CycleHandsOff | internal/controller/podautoscaler_controller.go:451-463 | dry run, mode Off and unknown modes make no API call for pods, and a dry run counts nothing |
| CycleSafety.QuietCycle | internal/controller/podautoscaler_controller.go:120-129 | such a cycle, or one halted by a strict VPA conflict, leaves every stored pod as it was |
| CycleSafety.DeletionNeverResizes | internal/controller/podautoscaler_controller.go:94-96 | a cycle on a deleted object at most removes the recommendation annotation |
| CycleSafety.CleanupResult | internal/controller/podautoscaler_controller.go:532-541 | from any list, a stored pod loses the annotation iff some entry of its name is listed with it and that patch succeeds; nothing else changes, and one call is made per annotated entry |
| CycleSafety.DeletionCleansIff | internal/controller/podautoscaler_controller.go:267-278 | for every deletion cycle: no annotation is left iff every annotated pod is cleared, the finalizer goes iff its update is accepted, and annotated pods stay guarded iff it is not accepted or all are cleared |
| CycleSafety.UnlistedDeletionLeavesAll | internal/controller/podautoscaler_controller.go:515-530 | with an invalid selector or a failed list the finalizer goes and every pod stays as it was |
| CycleSafety.AnnotationLeftBehind | internal/controller/podautoscaler_controller.go:267-278 | one rejected patch on an accurate list: the object is gone and the pod still annotated |
| CycleSafety.PodsChangeUnderFinalizer | internal/controller/podautoscaler_controller.go:280-286 | pods change only in a cycle during which the finalizer is persisted |
| Runs.PhaseAgreesInEveryRun | internal/controller/podautoscaler_controller.go:107-129 | in every run each persisted phase implies the conditions written with it: Active Ready and MetricsAvailable, Pending and Error not Ready, Degraded a conflict or missing metrics; conditions have unique known types |
| ConditionHistory.ConditionsAreLastSaid | internal/controller/podautoscaler_controller.go:107-249 | in every run Ready, MetricsAvailable and VPAConflict have exactly the status and reason last said of them in a stored status, with the time since when, and the phase is the last one said |
| ConditionHistory.ConflictSurvivesIff | internal/controller/podautoscaler_controller.go:709-731 | a recorded conflict survives a stored evaluation, beside phase Active, iff the check does not clear it |
| Runs.CountersBalanceInEveryRun | internal/controller/podautoscaler_controller.go:217-249 | in every run the persisted counter is the credited applications, the last update is set iff that is positive and not after the last evaluation, and the observed generation is not ahead |
| RunCounters.CounterAgainstLog | internal/controller/podautoscaler_controller.go:217-249 | in every clocked run, in whatever modes, the persisted counter is the accepted resizes and evictions in the log, plus what mode Off merely counted, less those of cycles whose status write failed |
| RunCounters.CounterHonestInRunIff | internal/controller/podautoscaler_controller.go:217-249 | with every status write accepted the persisted counter equals the accepted resizes and evictions iff no cycle in mode Off found a significant entry |
| RunCounters.TotalOverRun | internal/controller/podautoscaler_controller.go:174-249 | over cycles that see the same and whose pod calls succeed, the persisted counter grows by what is due in the first and by the restless entries in each further one, whenever the status write succeeds |
| RunCounters.PodsStandStill | internal/controller/podautoscaler_controller.go:179-201 | in such a run the stored pods do not change after the first cycle |
| RunCounters.ReportedIsLinear | internal/controller/podautoscaler_controller.go:217-220 | with all status writes accepted that growth is the first count plus n-1 times the restless count |
| RunCounters.RepeatsAttained | internal/controller/podautoscaler_controller.go:80-253 | when every call succeeds, listing the running pods again as they are stored makes such a run, of any length |
| Runs.HandsOffRunsTouchNothing | internal/controller/podautoscaler_controller.go:365-373 | in every run, a cycle whose spec in force is dry-run or Off, or that a strict VPA conflict halts, changes no stored pod; after a deletion request it may remove the annotation |
| Runs.NoResizeAfterDeletion | internal/controller/podautoscaler_controller.go:268-278 | in every run, no cycle after a deletion request does more to pods than remove the annotation |
| Runs.NoAnnotationWithoutFinalizer | internal/controller/podautoscaler_controller.go:267-287 | in every run whose workloads do not annotate pods themselves, annotated pods exist only under the finalizer throughout iff every deletion cycle that gives it back has cleared all of them |

## Left out

- Floating point: exact reals stand for float64, so rounding, NaN, infinities and int64 overflow of the conversion are not modelled; the math.MaxFloat64 sentinel is a case of its own.
- Controller.Reconciler.Reconcile: the requeue interval and the returned error are not modelled.
- Controller.Reconciler.Reconcile: changes by others in the middle of a cycle are not modelled; a conflicting write is a failed answer.
- Controller.Reconciler.EvaluatePods: each pod is worked on through a fresh local object, where the program takes a pointer into the list.
- Controller.Reconciler.CheckVpaIntegration: events and the text of the conflict are reduced to a flag; the result of looking an object up by name is an observation.
- Controller.Reconciler.SetCondition: the message text is not kept; a cycle reads the clock once.
- NamespaceLimits.ClampRecommendation: reasons carry resource and stage, not their text; its stages are methods of their own here.
- Vpa.ParseVpa: namespace, lower bound and uncapped target are not kept, since no decision reads them.
- Updater.PodUpdater.ApplyEviction: serializing a recommendation cannot fail here, and the recreation of an evicted pod is not modelled; an evicted pod is terminating.
- The textual bounds in status.namespaceConstraints: reporting only; the list of reasons is kept.
- QuotaFeedback.AlternatesIff: one container, a quota on CPU alone and a constant share of others; memory is at rest.
- Sums over containers or pods: the program clamps every container against the same headroom, so no aggregate quota bound is claimed.
- Pod maxima of LimitRanges, resourcePolicy, maxUnavailable and evaluationWindowMinutes: merged or declared, never read when recommending.
- Telemetry, Prometheus metrics, events, logging, command line, manifests and generated code: no effect on the decisions.
- Quantity parsing, selector evaluation and isNoMatchError: library calls and text matching, represented by observations.
- Wrap-around of the int64 counters.
