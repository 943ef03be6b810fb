/** Pure recommendation arithmetic (internal/calculator). */
module Calculator {
  import opened Quantities

  /** Request and limit of one resource. */
  datatype Amounts = Amounts(request: real, limit: real)

  datatype ResourceUsage = ResourceUsage(
    name: string, cpuAvg: real, cpuPeak: real, memoryAvg: real, memoryPeak: real)

  datatype ResourceAllocation = ResourceAllocation(name: string, cpu: Amounts, memory: Amounts)

  datatype ResourceRecommendation = ResourceRecommendation(
    name: string, cpu: Amounts, memory: Amounts,
    cpuVariance: real, memoryVariance: real, significant: bool)

  datatype Config = Config(
    cpuMargin: real, memoryMargin: real, limitRatio: real,
    cpuDampening: real, memoryDampening: real, threshold: real)

  datatype Range = Range(min: real, max: real)

  datatype Constraints = Constraints(cpu: Range, memory: Range)

  const DEFAULT_CONFIG := Config(20.0, 25.0, 1.5, 0.8, 0.9, 15.0)

  const DEFAULT_CONSTRAINTS := Constraints(
    Range(0.01, 16.0), Range(16.0 * 1048576.0, 64.0 * 1073741824.0))

  function Max(a: real, b: real): real {
    if a < b then b else a
  }

  function Clamp(v: real, range: Range): real {
    if v < range.min then range.min else if v > range.max then range.max else v
  }

  /** A zero allocation counts as a deviation of 100 percent. */
  function VariancePercent(recommended: real, current: real): real {
    if current == 0.0 then 100.0
    else (if recommended < current then current - recommended else recommended - current) / current * 100.0
  }

  /** Usage with the safety margin on top. */
  function Demand(avg: real, peak: real, dampening: real, margin: real): real {
    Max(avg, peak * dampening) * (1.0 + margin / 100.0)
  }

  /** Request for a demand, and the limit derived from the request. */
  function SizeFor(demand: real, ratio: real, range: Range): Amounts {
    var request := Clamp(demand, range);
    Amounts(request, Clamp(request * ratio, range))
  }

  function CpuAmounts(usage: ResourceUsage, cfg: Config, range: Range): Amounts {
    SizeFor(Demand(usage.cpuAvg, usage.cpuPeak, cfg.cpuDampening, cfg.cpuMargin), cfg.limitRatio, range)
  }

  function MemoryAmounts(usage: ResourceUsage, cfg: Config, range: Range): Amounts {
    SizeFor(Demand(usage.memoryAvg, usage.memoryPeak, cfg.memoryDampening, cfg.memoryMargin), cfg.limitRatio, range)
  }

  /** None stands for the error on an empty container name. */
  function Calculate(usage: ResourceUsage, alloc: ResourceAllocation, cfg: Config, constraints: Constraints)
    : (result: Option<ResourceRecommendation>)
    ensures result.None? <==> usage.name == ""
  {
    if usage.name == "" then None else
    var cpu := CpuAmounts(usage, cfg, constraints.cpu);
    var memory := MemoryAmounts(usage, cfg, constraints.memory);
    var cpuVariance := VariancePercent(cpu.request, alloc.cpu.request);
    var memoryVariance := VariancePercent(memory.request, alloc.memory.request);
    Some(ResourceRecommendation(
      usage.name, cpu, memory, cpuVariance, memoryVariance,
      cpuVariance >= cfg.threshold || memoryVariance >= cfg.threshold))
  }
}
