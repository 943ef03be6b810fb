/** What Calculate promises for any usage, configuration and constraints. */
module CalculatorLaws {
  import opened Quantities
  import opened Calculator

  function MarginFactor(margin: real): real {
    1.0 + margin / 100.0
  }

  /** A value covers average usage and dampened peak, both with the margin on top. */
  predicate CoversDemand(v: real, avg: real, dampenedPeak: real, factor: real) {
    Times(avg, factor) <= v && Times(dampenedPeak, factor) <= v
  }

  predicate InRange(v: real, range: Range) {
    range.min <= v <= range.max
  }

  /** The request is the least value of the range that covers the demand, or max when none does; the limit is the
      request stretched by the ratio, as far as the range lets it. */
  ghost predicate Sized(a: Amounts, avg: real, dampenedPeak: real, factor: real, ratio: real, range: Range) {
    && InRange(a.request, range) && InRange(a.limit, range)
    && (CoversDemand(a.request, avg, dampenedPeak, factor) || a.request == range.max)
    && (forall v | InRange(v, range) && CoversDemand(v, avg, dampenedPeak, factor) :: a.request <= v)
    && (a.limit == Times(a.request, ratio)
        || (a.limit == range.max <= Times(a.request, ratio))
        || (a.limit == range.min >= Times(a.request, ratio)))
  }

  lemma FactorOrder(x: real, y: real, factor: real)
    requires x <= y && factor >= 0.0
    ensures Times(x, factor) <= Times(y, factor)
  {
  }

  lemma SizeForIsSized(avg: real, peak: real, dampening: real, margin: real, ratio: real, range: Range)
    requires range.min <= range.max && margin >= -100.0
    ensures var a := SizeFor(Demand(avg, peak, dampening, margin), ratio, range);
      Sized(a, avg, Times(peak, dampening), MarginFactor(margin), ratio, range)
  {
    var factor := MarginFactor(margin);
    var base := Max(avg, Times(peak, dampening));
    assert Demand(avg, peak, dampening, margin) == Times(base, factor);
    FactorOrder(avg, base, factor);
    FactorOrder(Times(peak, dampening), base, factor);
    var a := SizeFor(Demand(avg, peak, dampening, margin), ratio, range);
    assert a.request == Clamp(Times(base, factor), range);
    assert a.limit == Clamp(Times(a.request, ratio), range);
  }

  /** Both resources are sized, each with its own dampening and margin. */
  lemma CalculateIsSized(usage: ResourceUsage, alloc: ResourceAllocation, cfg: Config, constraints: Constraints)
    requires usage.name != ""
    requires constraints.cpu.min <= constraints.cpu.max && constraints.memory.min <= constraints.memory.max
    requires cfg.cpuMargin >= -100.0 && cfg.memoryMargin >= -100.0
    ensures var rec := Calculate(usage, alloc, cfg, constraints).value;
      && rec.name == usage.name
      && Sized(rec.cpu, usage.cpuAvg, Times(usage.cpuPeak, cfg.cpuDampening), MarginFactor(cfg.cpuMargin),
          cfg.limitRatio, constraints.cpu)
      && Sized(rec.memory, usage.memoryAvg, Times(usage.memoryPeak, cfg.memoryDampening),
          MarginFactor(cfg.memoryMargin), cfg.limitRatio, constraints.memory)
  {
    SizeForIsSized(usage.cpuAvg, usage.cpuPeak, cfg.cpuDampening, cfg.cpuMargin, cfg.limitRatio, constraints.cpu);
    SizeForIsSized(usage.memoryAvg, usage.memoryPeak, cfg.memoryDampening, cfg.memoryMargin, cfg.limitRatio,
        constraints.memory);
  }

  /** The recommended request lies outside the open band of threshold percent around the current one. */
  predicate Deviates(recommended: real, current: real, threshold: real) {
    if current == 0.0 then threshold <= 100.0
    else
      var band := Times(threshold / 100.0, current);
      recommended >= current + band || recommended <= current - band
  }

  lemma VarianceIsDeviation(recommended: real, current: real, threshold: real)
    requires current >= 0.0 && threshold >= 0.0
    ensures VariancePercent(recommended, current) >= threshold <==> Deviates(recommended, current, threshold)
  {
  }

  /** The variance is the deviation in percent of the current value; all of it when that is zero. */
  lemma VarianceMeans(recommended: real, current: real)
    requires current >= 0.0
    ensures var v := VariancePercent(recommended, current);
      if current == 0.0 then v == 100.0
      else
        var deviation := if recommended >= current then recommended - current else current - recommended;
        Times(v, current) == deviation * 100.0
  {
  }

  /** An update is due iff either request deviates from its allocation by at least the threshold. */
  lemma SignificantIff(usage: ResourceUsage, alloc: ResourceAllocation, cfg: Config, constraints: Constraints)
    requires usage.name != "" && alloc.cpu.request >= 0.0 && alloc.memory.request >= 0.0 && cfg.threshold >= 0.0
    ensures var rec := Calculate(usage, alloc, cfg, constraints).value;
      && rec.cpuVariance == VariancePercent(rec.cpu.request, alloc.cpu.request)
      && rec.memoryVariance == VariancePercent(rec.memory.request, alloc.memory.request)
    ensures var rec := Calculate(usage, alloc, cfg, constraints).value;
      rec.significant <==>
        || Deviates(rec.cpu.request, alloc.cpu.request, cfg.threshold)
        || Deviates(rec.memory.request, alloc.memory.request, cfg.threshold)
  {
    var rec := Calculate(usage, alloc, cfg, constraints).value;
    VarianceIsDeviation(rec.cpu.request, alloc.cpu.request, cfg.threshold);
    VarianceIsDeviation(rec.memory.request, alloc.memory.request, cfg.threshold);
  }
}
