/** Namespace policy: merging LimitRanges and ResourceQuotas, and clamping to them (internal/namespacelimits). */
module NamespaceLimits {
  import opened Quantities
  import opened Calculator

  datatype LimitKind = ContainerLimit | PodLimit | OtherLimit

  datatype LimitRangeItem = LimitRangeItem(
    kind: LimitKind, min: ResourceList, max: ResourceList,
    defaultLimit: ResourceList, defaultRequest: ResourceList, maxLimitRequestRatio: ResourceList)

  datatype LimitRange = LimitRange(limits: seq<LimitRangeItem>)

  datatype ResourceQuota = ResourceQuota(hard: ResourceList, used: ResourceList)

  /** What the namespace says about one resource; ratio zero means no ratio. */
  datatype Bounds = Bounds(
    min: real, max: Ceiling, defaultRequest: real, defaultLimit: real,
    ratio: real, podMax: Ceiling, headroom: Ceiling)

  /** The value of a NamespaceConstraints struct. */
  datatype Policy = Policy(limitRangeFound: bool, resourceQuotaFound: bool, cpu: Bounds, memory: Bounds) {
    predicate Found() {
      limitRangeFound || resourceQuotaFound
    }
  }

  const EMPTY_BOUNDS := Bounds(0.0, Unbounded, 0.0, 0.0, 0.0, Unbounded, Unbounded)

  const EMPTY_POLICY := Policy(false, false, EMPTY_BOUNDS, EMPTY_BOUNDS)

  // ---- What one item or quota contributes, resource by resource ----

  function Tighter(ceiling: Ceiling, list: ResourceList, res: ResourceName): Ceiling {
    if res in list && ceiling.IsAbove(list[res]) then AtMost(list[res]) else ceiling
  }

  function Replaced(value: real, list: ResourceList, res: ResourceName): real {
    if res in list then list[res] else value
  }

  function AbsorbItem(b: Bounds, item: LimitRangeItem, res: ResourceName): Bounds {
    match item.kind
    case ContainerLimit => b.(
      min := if res in item.min && item.min[res] > b.min then item.min[res] else b.min,
      max := Tighter(b.max, item.max, res),
      defaultLimit := Replaced(b.defaultLimit, item.defaultLimit, res),
      defaultRequest := Replaced(b.defaultRequest, item.defaultRequest, res),
      ratio := Replaced(b.ratio, item.maxLimitRequestRatio, res))
    case PodLimit => b.(podMax := Tighter(b.podMax, item.max, res))
    case OtherLimit => b
  }

  /** Bounds after a list of items, oldest first. */
  function MergeItems(items: seq<LimitRangeItem>, res: ResourceName): Bounds {
    if items == [] then EMPTY_BOUNDS
    else AbsorbItem(MergeItems(items[..|items| - 1], res), items[|items| - 1], res)
  }

  function RequestsKey(res: ResourceName): ResourceName {
    match res
    case CPU => RequestsCPU
    case Memory => RequestsMemory
    case _ => res
  }

  function TighterByKey(ceiling: Ceiling, rq: ResourceQuota, key: ResourceName): Ceiling {
    if key in rq.hard && key in rq.used && ceiling.IsAbove(rq.hard[key] - rq.used[key])
    then AtMost(rq.hard[key] - rq.used[key]) else ceiling
  }

  function Remaining(rq: ResourceQuota, res: ResourceName): Ceiling {
    TighterByKey(TighterByKey(Unbounded, rq, RequestsKey(res)), rq, res)
  }

  function TighterCeiling(a: Ceiling, b: Ceiling): Ceiling {
    if b.AtMost? && a.IsAbove(b.value) then b else a
  }

  function Headroom(quotas: seq<ResourceQuota>, res: ResourceName): Ceiling {
    if quotas == [] then Unbounded
    else TighterCeiling(Headroom(quotas[..|quotas| - 1], res), Remaining(quotas[|quotas| - 1], res))
  }

  function AllItems(ranges: seq<LimitRange>): seq<LimitRangeItem> {
    if ranges == [] then [] else AllItems(ranges[..|ranges| - 1]) + ranges[|ranges| - 1].limits
  }

  function MergedBounds(items: seq<LimitRangeItem>, quotas: seq<ResourceQuota>, res: ResourceName): Bounds {
    MergeItems(items, res).(headroom := Headroom(quotas, res))
  }

  function MergedPolicy(ranges: seq<LimitRange>, quotas: seq<ResourceQuota>): Policy {
    Policy(ranges != [], quotas != [],
           MergedBounds(AllItems(ranges), quotas, CPU),
           MergedBounds(AllItems(ranges), quotas, Memory))
  }

  // ---- The mutable struct and the loops that fill it ----

  class NamespaceConstraints {
    var limitRangeFound: bool
    var resourceQuotaFound: bool
    var minCPUCores: real
    var maxCPUCores: Ceiling
    var minMemoryBytes: real
    var maxMemoryBytes: Ceiling
    var defaultCPURequest: real
    var defaultCPULimit: real
    var defaultMemoryRequest: real
    var defaultMemoryLimit: real
    var maxLimitRequestRatioCPU: real
    var maxLimitRequestRatioMemory: real
    var podMaxCPUCores: Ceiling
    var podMaxMemoryBytes: Ceiling
    var quotaCPURemaining: Ceiling
    var quotaMemoryRemaining: Ceiling

    function Value(): Policy
      reads this
    {
      Policy(
        limitRangeFound, resourceQuotaFound,
        Bounds(minCPUCores, maxCPUCores, defaultCPURequest, defaultCPULimit,
               maxLimitRequestRatioCPU, podMaxCPUCores, quotaCPURemaining),
        Bounds(minMemoryBytes, maxMemoryBytes, defaultMemoryRequest, defaultMemoryLimit,
               maxLimitRequestRatioMemory, podMaxMemoryBytes, quotaMemoryRemaining))
    }

    constructor Empty()
      ensures Value() == EMPTY_POLICY
    {
      limitRangeFound, resourceQuotaFound := false, false;
      minCPUCores, maxCPUCores := 0.0, Unbounded;
      minMemoryBytes, maxMemoryBytes := 0.0, Unbounded;
      defaultCPURequest, defaultCPULimit := 0.0, 0.0;
      defaultMemoryRequest, defaultMemoryLimit := 0.0, 0.0;
      maxLimitRequestRatioCPU, maxLimitRequestRatioMemory := 0.0, 0.0;
      podMaxCPUCores, podMaxMemoryBytes := Unbounded, Unbounded;
      quotaCPURemaining, quotaMemoryRemaining := Unbounded, Unbounded;
    }

    method ApplyContainerLimitRangeItem(item: LimitRangeItem)
      requires item.kind == ContainerLimit
      modifies this
      ensures Value() == old(Value()).(
        cpu := AbsorbItem(old(Value()).cpu, item, CPU),
        memory := AbsorbItem(old(Value()).memory, item, Memory))
    {
      ApplyMinAndMax(item);
      ApplyDefaults(item);
      if CPU in item.maxLimitRequestRatio {
        maxLimitRequestRatioCPU := item.maxLimitRequestRatio[CPU];
      }
      if Memory in item.maxLimitRequestRatio {
        maxLimitRequestRatioMemory := item.maxLimitRequestRatio[Memory];
      }
    }

    method ApplyMinAndMax(item: LimitRangeItem)
      requires item.kind == ContainerLimit
      modifies `minCPUCores, `minMemoryBytes, `maxCPUCores, `maxMemoryBytes
      ensures minCPUCores == AbsorbItem(old(Value()).cpu, item, CPU).min
      ensures minMemoryBytes == AbsorbItem(old(Value()).memory, item, Memory).min
      ensures maxCPUCores == AbsorbItem(old(Value()).cpu, item, CPU).max
      ensures maxMemoryBytes == AbsorbItem(old(Value()).memory, item, Memory).max
    {
      if CPU in item.min {
        var v := item.min[CPU];
        if v > minCPUCores { minCPUCores := v; }
      }
      if Memory in item.min {
        var v := item.min[Memory];
        if v > minMemoryBytes { minMemoryBytes := v; }
      }
      if CPU in item.max {
        var v := item.max[CPU];
        if maxCPUCores.IsAbove(v) { maxCPUCores := AtMost(v); }
      }
      if Memory in item.max {
        var v := item.max[Memory];
        if maxMemoryBytes.IsAbove(v) { maxMemoryBytes := AtMost(v); }
      }
    }

    method ApplyDefaults(item: LimitRangeItem)
      requires item.kind == ContainerLimit
      modifies `defaultCPULimit, `defaultMemoryLimit, `defaultCPURequest, `defaultMemoryRequest
      ensures defaultCPULimit == AbsorbItem(old(Value()).cpu, item, CPU).defaultLimit
      ensures defaultMemoryLimit == AbsorbItem(old(Value()).memory, item, Memory).defaultLimit
      ensures defaultCPURequest == AbsorbItem(old(Value()).cpu, item, CPU).defaultRequest
      ensures defaultMemoryRequest == AbsorbItem(old(Value()).memory, item, Memory).defaultRequest
    {
      if CPU in item.defaultLimit { defaultCPULimit := item.defaultLimit[CPU]; }
      if Memory in item.defaultLimit { defaultMemoryLimit := item.defaultLimit[Memory]; }
      if CPU in item.defaultRequest { defaultCPURequest := item.defaultRequest[CPU]; }
      if Memory in item.defaultRequest { defaultMemoryRequest := item.defaultRequest[Memory]; }
    }

    method ApplyPodLimitRangeItem(item: LimitRangeItem)
      requires item.kind == PodLimit
      modifies this
      ensures Value() == old(Value()).(
        cpu := AbsorbItem(old(Value()).cpu, item, CPU),
        memory := AbsorbItem(old(Value()).memory, item, Memory))
    {
      if CPU in item.max {
        var v := item.max[CPU];
        if podMaxCPUCores.IsAbove(v) { podMaxCPUCores := AtMost(v); }
      }
      if Memory in item.max {
        var v := item.max[Memory];
        if podMaxMemoryBytes.IsAbove(v) { podMaxMemoryBytes := AtMost(v); }
      }
    }

    method ApplyResourceQuota(rq: ResourceQuota)
      modifies this
      ensures Value() == old(Value()).(
        cpu := old(Value()).cpu.(headroom := TighterCeiling(old(Value()).cpu.headroom, Remaining(rq, CPU))),
        memory := old(Value()).memory.(headroom := TighterCeiling(old(Value()).memory.headroom, Remaining(rq, Memory))))
    {
      var cpuRemaining := ComputeRemaining(rq, RequestsCPU, CPU);
      if cpuRemaining.AtMost? && quotaCPURemaining.IsAbove(cpuRemaining.value) {
        quotaCPURemaining := cpuRemaining;
      }
      var memRemaining := ComputeRemaining(rq, RequestsMemory, Memory);
      if memRemaining.AtMost? && quotaMemoryRemaining.IsAbove(memRemaining.value) {
        quotaMemoryRemaining := memRemaining;
      }
    }
  }

  /** The least difference hard - used over the two keys that carry both. */
  method ComputeRemaining(rq: ResourceQuota, requestsKey: ResourceName, plainKey: ResourceName)
    returns (remaining: Ceiling)
    ensures forall v: real :: remaining.Admits(v) <==>
      forall key | key in {requestsKey, plainKey} && key in rq.hard && key in rq.used ::
        v <= rq.hard[key] - rq.used[key]
    ensures requestsKey == RequestsKey(plainKey) ==> remaining == Remaining(rq, plainKey)
  {
    remaining := Unbounded;
    var keys := [requestsKey, plainKey];
    var i := 0;
    while i < |keys|
      invariant 0 <= i <= 2
      invariant i == 0 ==> remaining == Unbounded
      invariant i == 1 ==> remaining == TighterByKey(Unbounded, rq, requestsKey)
      invariant i == 2 ==> remaining == TighterByKey(TighterByKey(Unbounded, rq, requestsKey), rq, plainKey)
    {
      var key := keys[i];
      if key in rq.hard && key in rq.used {
        var r := rq.hard[key] - rq.used[key];
        if remaining.IsAbove(r) { remaining := AtMost(r); }
      }
      i := i + 1;
    }
  }

  lemma MergeItemsSnoc(items: seq<LimitRangeItem>, item: LimitRangeItem, res: ResourceName)
    ensures MergeItems(items + [item], res) == AbsorbItem(MergeItems(items, res), item, res)
  {
  }

  lemma MergedBoundsEmptyQuotas(items: seq<LimitRangeItem>, res: ResourceName)
    ensures MergeItems(items, res).headroom == Unbounded
    ensures MergedBounds(items, [], res) == MergeItems(items, res)
  {
  }

  /** None for a list stands for a failed List call; the error is then reported to the caller. */
  method GetNamespaceConstraints(ranges: Option<seq<LimitRange>>, quotas: Option<seq<ResourceQuota>>)
    returns (policy: Policy, failed: bool)
    ensures failed <==> ranges.None? || quotas.None?
    ensures !failed ==> policy == MergedPolicy(ranges.value, quotas.value)
    ensures failed ==> policy == if ranges.None? then EMPTY_POLICY else MergedPolicy(ranges.value, [])
  {
    var nc := new NamespaceConstraints.Empty();
    if ranges.None? { return nc.Value(), true; }
    if |ranges.value| > 0 {
      MergeRanges(nc, ranges.value);
    }
    ghost var merged := nc.Value();
    MergedBoundsEmptyQuotas(AllItems(ranges.value), CPU);
    MergedBoundsEmptyQuotas(AllItems(ranges.value), Memory);
    if quotas.None? { return nc.Value(), true; }
    if |quotas.value| > 0 {
      nc.resourceQuotaFound := true;
      var i := 0;
      while i < |quotas.value|
        invariant 0 <= i <= |quotas.value|
        invariant nc.Value() == merged.(
          resourceQuotaFound := true,
          cpu := merged.cpu.(headroom := Headroom(quotas.value[..i], CPU)),
          memory := merged.memory.(headroom := Headroom(quotas.value[..i], Memory)))
      {
        nc.ApplyResourceQuota(quotas.value[i]);
        assert quotas.value[..i + 1][..i] == quotas.value[..i];
        i := i + 1;
      }
      assert quotas.value[..i] == quotas.value;
    }
    return nc.Value(), false;
  }

  /** The outer loop over LimitRange objects. */
  method MergeRanges(nc: NamespaceConstraints, ranges: seq<LimitRange>)
    requires nc.Value() == EMPTY_POLICY && ranges != []
    modifies nc
    ensures nc.Value() == Policy(true, false, MergeItems(AllItems(ranges), CPU), MergeItems(AllItems(ranges), Memory))
  {
    nc.limitRangeFound := true;
    var i := 0;
    while i < |ranges|
      invariant 0 <= i <= |ranges|
      invariant nc.Value() ==
        Policy(true, false, MergeItems(AllItems(ranges[..i]), CPU), MergeItems(AllItems(ranges[..i]), Memory))
    {
      MergeLimits(nc, AllItems(ranges[..i]), ranges[i].limits);
      assert ranges[..i + 1][..i] == ranges[..i];
      i := i + 1;
    }
    assert ranges[..i] == ranges;
  }

  /** The inner loop over the items of one LimitRange, dispatching on the item's type. */
  method MergeLimits(nc: NamespaceConstraints, ghost before: seq<LimitRangeItem>, limits: seq<LimitRangeItem>)
    requires nc.Value() == Policy(true, false, MergeItems(before, CPU), MergeItems(before, Memory))
    modifies nc
    ensures nc.Value() == Policy(true, false, MergeItems(before + limits, CPU), MergeItems(before + limits, Memory))
  {
    var i := 0;
    assert before + limits[..0] == before;
    while i < |limits|
      invariant 0 <= i <= |limits|
      invariant nc.Value() ==
        Policy(true, false, MergeItems(before + limits[..i], CPU), MergeItems(before + limits[..i], Memory))
    {
      match limits[i].kind {
        case ContainerLimit => nc.ApplyContainerLimitRangeItem(limits[i]);
        case PodLimit => nc.ApplyPodLimitRangeItem(limits[i]);
        case OtherLimit =>
      }
      MergeItemsSnoc(before + limits[..i], limits[i], CPU);
      MergeItemsSnoc(before + limits[..i], limits[i], Memory);
      assert before + limits[..i] + [limits[i]] == before + limits[..i + 1];
      i := i + 1;
    }
    assert before + limits[..i] == before + limits;
  }

  // ---- The clamp, one resource at a time ----

  datatype Stage = MinRaised | LimitCapped | RequestCapped | RatioCapped | QuotaCapped

  datatype Reason = Reason(resource: ResourceName, stage: Stage)

  predicate MinFires(a: Amounts, b: Bounds) {
    b.min > 0.0 && a.request < b.min
  }

  function RaiseToMin(a: Amounts, b: Bounds): Amounts {
    if MinFires(a, b) then a.(request := b.min) else a
  }

  function CapToMax(a: Amounts, b: Bounds): Amounts {
    Amounts(b.max.Cap(a.request), b.max.Cap(a.limit))
  }

  function RepairLimit(a: Amounts): Amounts {
    if a.limit < a.request then a.(limit := a.request) else a
  }

  /** The pair once min, max and limit repair have run. */
  function WithinRange(a: Amounts, b: Bounds): Amounts {
    RepairLimit(CapToMax(RaiseToMin(a, b), b))
  }

  predicate RatioFires(a: Amounts, b: Bounds) {
    b.ratio > 0.0 && a.request > 0.0 && a.limit > Times(a.request, b.ratio)
  }

  function CapByRatio(a: Amounts, b: Bounds): Amounts {
    if RatioFires(a, b) then a.(limit := Times(a.request, b.ratio)) else a
  }

  /** The pair just before the quota stage. */
  function BeforeQuota(a: Amounts, b: Bounds): Amounts {
    CapByRatio(WithinRange(a, b), b)
  }

  predicate QuotaFires(a: Amounts, b: Bounds) {
    b.headroom.AtMost? && a.request > b.headroom.value && b.headroom.value > 0.0
  }

  function CapByQuota(a: Amounts, b: Bounds): Amounts {
    if QuotaFires(a, b) then
      var h := b.headroom.value;
      Amounts(h, if a.limit > h * 2.0 then h * 2.0 else a.limit)
    else a
  }

  function ClampAmounts(a: Amounts, b: Bounds): Amounts {
    CapByQuota(BeforeQuota(a, b), b)
  }

  /** Whether a stage of the clamp reports an adjustment of this resource. */
  predicate Reports(a: Amounts, b: Bounds, stage: Stage) {
    match stage
    case MinRaised => MinFires(a, b)
    case LimitCapped => !b.max.Admits(RaiseToMin(a, b).limit)
    case RequestCapped => !b.max.Admits(RaiseToMin(a, b).request)
    case RatioCapped => RatioFires(WithinRange(a, b), b)
    case QuotaCapped => QuotaFires(BeforeQuota(a, b), b)
  }

  function NoteIf(reasons: seq<Reason>, fires: bool, res: ResourceName, stage: Stage): seq<Reason> {
    if fires then reasons + [Reason(res, stage)] else reasons
  }

  function Note(reasons: seq<Reason>, a: Amounts, b: Bounds, res: ResourceName, stage: Stage): seq<Reason> {
    NoteIf(reasons, Reports(a, b, stage), res, stage)
  }

  /** Reasons of the min and max stages, in the order the checks run. */
  function RangeReasons(cpu: Amounts, memory: Amounts, policy: Policy): seq<Reason> {
    var r := Note([], cpu, policy.cpu, CPU, MinRaised);
    var r := Note(r, memory, policy.memory, Memory, MinRaised);
    var r := Note(r, cpu, policy.cpu, CPU, LimitCapped);
    var r := Note(r, cpu, policy.cpu, CPU, RequestCapped);
    var r := Note(r, memory, policy.memory, Memory, LimitCapped);
    Note(r, memory, policy.memory, Memory, RequestCapped)
  }

  /** All reasons, in the order the stages run. */
  function ClampReasons(cpu: Amounts, memory: Amounts, policy: Policy): seq<Reason> {
    var r := RangeReasons(cpu, memory, policy);
    var r := Note(r, cpu, policy.cpu, CPU, RatioCapped);
    var r := Note(r, memory, policy.memory, Memory, RatioCapped);
    var r := Note(r, cpu, policy.cpu, CPU, QuotaCapped);
    Note(r, memory, policy.memory, Memory, QuotaCapped)
  }

  /** LimitRange min for one resource. */
  method RaiseRequest(req: real, ghost lim: real, b: Bounds, res: ResourceName, before: seq<Reason>)
    returns (newReq: real, reasons: seq<Reason>)
    ensures Amounts(newReq, lim) == RaiseToMin(Amounts(req, lim), b)
    ensures reasons == NoteIf(before, MinFires(Amounts(req, lim), b), res, MinRaised)
  {
    newReq, reasons := req, before;
    if b.min > 0.0 && newReq < b.min {
      reasons := reasons + [Reason(res, MinRaised)];
      newReq := b.min;
    }
  }

  /** LimitRange max for one resource, limit first. */
  method CapValues(req: real, lim: real, b: Bounds, res: ResourceName, before: seq<Reason>)
    returns (newReq: real, newLim: real, reasons: seq<Reason>)
    ensures Amounts(newReq, newLim) == CapToMax(Amounts(req, lim), b)
    ensures reasons ==
      NoteIf(NoteIf(before, !b.max.Admits(lim), res, LimitCapped), !b.max.Admits(req), res, RequestCapped)
  {
    newReq, newLim, reasons := req, lim, before;
    if b.max.AtMost? && newLim > b.max.value {
      reasons := reasons + [Reason(res, LimitCapped)];
      newLim := b.max.value;
    }
    if b.max.AtMost? && newReq > b.max.value {
      reasons := reasons + [Reason(res, RequestCapped)];
      newReq := b.max.value;
    }
  }

  method RepairedLimit(req: real, lim: real) returns (newLim: real)
    ensures Amounts(req, newLim) == RepairLimit(Amounts(req, lim))
  {
    newLim := lim;
    if newLim < req {
      newLim := req;
    }
  }

  /** maxLimitRequestRatio for one resource. */
  method CapLimitByRatio(req: real, lim: real, b: Bounds, res: ResourceName, before: seq<Reason>)
    returns (newLim: real, reasons: seq<Reason>)
    ensures Amounts(req, newLim) == CapByRatio(Amounts(req, lim), b)
    ensures reasons == NoteIf(before, RatioFires(Amounts(req, lim), b), res, RatioCapped)
  {
    newLim, reasons := lim, before;
    if b.ratio > 0.0 && req > 0.0 {
      var maxAllowedLimit := req * b.ratio;
      if newLim > maxAllowedLimit {
        reasons := reasons + [Reason(res, RatioCapped)];
        newLim := maxAllowedLimit;
      }
    }
  }

  /** ResourceQuota headroom for one resource. */
  method CapByHeadroom(req: real, lim: real, b: Bounds, res: ResourceName, before: seq<Reason>)
    returns (newReq: real, newLim: real, reasons: seq<Reason>)
    ensures Amounts(newReq, newLim) == CapByQuota(Amounts(req, lim), b)
    ensures reasons == NoteIf(before, QuotaFires(Amounts(req, lim), b), res, QuotaCapped)
  {
    newReq, newLim, reasons := req, lim, before;
    if b.headroom.AtMost? && newReq > b.headroom.value && b.headroom.value > 0.0 {
      reasons := reasons + [Reason(res, QuotaCapped)];
      newReq := b.headroom.value;
      if newLim > newReq * 2.0 {
        newLim := newReq * 2.0;
      }
    }
  }

  /** LimitRange min and max over both resources, then the limit >= request repair, which reports nothing. */
  method ClampToRange(cpuReq: real, cpuLim: real, memReq: real, memLim: real, nc: Policy)
    returns (newCPUReq: real, newCPULim: real, newMemReq: real, newMemLim: real, reasons: seq<Reason>)
    ensures Amounts(newCPUReq, newCPULim) == WithinRange(Amounts(cpuReq, cpuLim), nc.cpu)
    ensures Amounts(newMemReq, newMemLim) == WithinRange(Amounts(memReq, memLim), nc.memory)
    ensures reasons == RangeReasons(Amounts(cpuReq, cpuLim), Amounts(memReq, memLim), nc)
  {
    newCPUReq, reasons := RaiseRequest(cpuReq, cpuLim, nc.cpu, CPU, []);
    newMemReq, reasons := RaiseRequest(memReq, memLim, nc.memory, Memory, reasons);
    newCPUReq, newCPULim, reasons := CapValues(newCPUReq, cpuLim, nc.cpu, CPU, reasons);
    newMemReq, newMemLim, reasons := CapValues(newMemReq, memLim, nc.memory, Memory, reasons);
    newCPULim := RepairedLimit(newCPUReq, newCPULim);
    newMemLim := RepairedLimit(newMemReq, newMemLim);
  }

  /** The stages over both resources, appending a reason whenever one adjusts a value. */
  method ClampRecommendation(cpuReq: real, cpuLim: real, memReq: real, memLim: real, nc: Policy)
    returns (newCPUReq: real, newCPULim: real, newMemReq: real, newMemLim: real, reasons: seq<Reason>)
    ensures Amounts(newCPUReq, newCPULim) == ClampAmounts(Amounts(cpuReq, cpuLim), nc.cpu)
    ensures Amounts(newMemReq, newMemLim) == ClampAmounts(Amounts(memReq, memLim), nc.memory)
    ensures reasons == ClampReasons(Amounts(cpuReq, cpuLim), Amounts(memReq, memLim), nc)
  {
    newCPUReq, newCPULim, newMemReq, newMemLim, reasons := ClampToRange(cpuReq, cpuLim, memReq, memLim, nc);
    newCPULim, reasons := CapLimitByRatio(newCPUReq, newCPULim, nc.cpu, CPU, reasons);
    newMemLim, reasons := CapLimitByRatio(newMemReq, newMemLim, nc.memory, Memory, reasons);
    newCPUReq, newCPULim, reasons := CapByHeadroom(newCPUReq, newCPULim, nc.cpu, CPU, reasons);
    newMemReq, newMemLim, reasons := CapByHeadroom(newMemReq, newMemLim, nc.memory, Memory, reasons);
  }

  // ---- Merging with the calculator's defaults ----

  function EffectiveRange(b: Bounds, default: Range): Range {
    var min := if b.min > default.min then b.min else default.min;
    var max := b.max.Cap(default.max);
    Range(if min > max then max else min, max)
  }

  function EffectiveConstraints(policy: Policy, defaults: Constraints): Constraints {
    Constraints(EffectiveRange(policy.cpu, defaults.cpu), EffectiveRange(policy.memory, defaults.memory))
  }

  /** The tightest bounds win; an empty range collapses to its max. */
  method ToCalculatorConstraints(
      nc: Policy, defaultMinCPU: real, defaultMaxCPU: real, defaultMinMem: real, defaultMaxMem: real)
    returns (minCPU: real, maxCPU: real, minMem: real, maxMem: real)
    ensures Constraints(Range(minCPU, maxCPU), Range(minMem, maxMem)) ==
      EffectiveConstraints(nc, Constraints(Range(defaultMinCPU, defaultMaxCPU), Range(defaultMinMem, defaultMaxMem)))
  {
    minCPU, maxCPU, minMem, maxMem := defaultMinCPU, defaultMaxCPU, defaultMinMem, defaultMaxMem;
    if nc.cpu.min > minCPU { minCPU := nc.cpu.min; }
    if nc.memory.min > minMem { minMem := nc.memory.min; }
    if nc.cpu.max.AtMost? && nc.cpu.max.value < maxCPU { maxCPU := nc.cpu.max.value; }
    if nc.memory.max.AtMost? && nc.memory.max.value < maxMem { maxMem := nc.memory.max.value; }
    if minCPU > maxCPU { minCPU := maxCPU; }
    if minMem > maxMem { minMem := maxMem; }
  }
}
