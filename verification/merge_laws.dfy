/** The nested merge loops compute an exact intersection of everything the namespace demands. */
module MergeLaws {
  import opened Quantities
  import opened Calculator
  import opened NamespaceLimits

  // ---- What one object demands of a value, read straight off the object ----

  predicate MinAllows(item: LimitRangeItem, res: ResourceName, v: real) {
    item.kind == ContainerLimit && res in item.min ==> item.min[res] <= v
  }

  predicate MaxAllows(item: LimitRangeItem, res: ResourceName, v: real) {
    item.kind == ContainerLimit && res in item.max ==> v <= item.max[res]
  }

  predicate PodMaxAllows(item: LimitRangeItem, res: ResourceName, v: real) {
    item.kind == PodLimit && res in item.max ==> v <= item.max[res]
  }

  predicate QuotaAllows(rq: ResourceQuota, res: ResourceName, v: real) {
    forall key | key in {RequestsKey(res), res} && key in rq.hard && key in rq.used :: v <= rq.hard[key] - rq.used[key]
  }

  lemma {:induction false} MergedMinIsExact(items: seq<LimitRangeItem>, res: ResourceName, v: real)
    ensures MergeItems(items, res).min <= v <==> 0.0 <= v && forall item | item in items :: MinAllows(item, res, v)
  {
    if items != [] {
      var rest, last := items[..|items| - 1], items[|items| - 1];
      MergedMinIsExact(rest, res, v);
      assert items == rest + [last];
      assert (forall item | item in items :: MinAllows(item, res, v)) <==>
        (forall item | item in rest :: MinAllows(item, res, v)) && MinAllows(last, res, v);
    }
  }

  lemma AbsorbedMax(b: Bounds, item: LimitRangeItem, res: ResourceName, v: real)
    ensures AbsorbItem(b, item, res).max.Admits(v) <==> b.max.Admits(v) && MaxAllows(item, res, v)
  {
  }

  lemma {:induction false} MergedMaxIsExact(items: seq<LimitRangeItem>, res: ResourceName, v: real)
    ensures MergeItems(items, res).max.Admits(v) <==> forall item | item in items :: MaxAllows(item, res, v)
  {
    if items != [] {
      var rest, last := items[..|items| - 1], items[|items| - 1];
      MergedMaxIsExact(rest, res, v);
      AbsorbedMax(MergeItems(rest, res), last, res, v);
      assert items == rest + [last];
      assert (forall item | item in items :: MaxAllows(item, res, v)) <==>
        (forall item | item in rest :: MaxAllows(item, res, v)) && MaxAllows(last, res, v);
    }
  }

  lemma AbsorbedPodMax(b: Bounds, item: LimitRangeItem, res: ResourceName, v: real)
    ensures AbsorbItem(b, item, res).podMax.Admits(v) <==> b.podMax.Admits(v) && PodMaxAllows(item, res, v)
  {
  }

  lemma {:induction false} MergedPodMaxIsExact(items: seq<LimitRangeItem>, res: ResourceName, v: real)
    ensures MergeItems(items, res).podMax.Admits(v) <==> forall item | item in items :: PodMaxAllows(item, res, v)
  {
    if items != [] {
      var rest, last := items[..|items| - 1], items[|items| - 1];
      MergedPodMaxIsExact(rest, res, v);
      AbsorbedPodMax(MergeItems(rest, res), last, res, v);
      assert items == rest + [last];
      assert (forall item | item in items :: PodMaxAllows(item, res, v)) <==>
        (forall item | item in rest :: PodMaxAllows(item, res, v)) && PodMaxAllows(last, res, v);
    }
  }

  lemma {:induction false} HeadroomIsExact(quotas: seq<ResourceQuota>, res: ResourceName, v: real)
    ensures Headroom(quotas, res).Admits(v) <==> forall rq | rq in quotas :: QuotaAllows(rq, res, v)
  {
    if quotas != [] {
      var rest, last := quotas[..|quotas| - 1], quotas[|quotas| - 1];
      HeadroomIsExact(rest, res, v);
      assert quotas == rest + [last];
      assert forall rq :: rq in quotas <==> rq in rest || rq == last;
      assert Remaining(last, res).Admits(v) <==> QuotaAllows(last, res, v);
    }
  }

  lemma {:induction false} AllItemsMembership(ranges: seq<LimitRange>, item: LimitRangeItem)
    ensures item in AllItems(ranges) <==> exists range :: range in ranges && item in range.limits
  {
    if ranges != [] {
      var rest, last := ranges[..|ranges| - 1], ranges[|ranges| - 1];
      AllItemsMembership(rest, item);
      assert ranges == rest + [last];
      assert last in ranges;
    }
  }

  /** A value is within the merged bounds iff every object of the namespace allows it. */
  lemma MergeIsIntersection(ranges: seq<LimitRange>, quotas: seq<ResourceQuota>, res: ResourceName, v: real)
    ensures var b := MergedBounds(AllItems(ranges), quotas, res);
      b.min <= v && b.max.Admits(v) && b.headroom.Admits(v) <==>
        && 0.0 <= v
        && (forall range, item | range in ranges && item in range.limits ::
              MinAllows(item, res, v) && MaxAllows(item, res, v))
        && (forall rq | rq in quotas :: QuotaAllows(rq, res, v))
  {
    var items := AllItems(ranges);
    MergedMinIsExact(items, res, v);
    MergedMaxIsExact(items, res, v);
    HeadroomIsExact(quotas, res, v);
    forall range, item | range in ranges && item in range.limits
      ensures item in items
    {
      AllItemsMembership(ranges, item);
    }
    forall item | item in items
      ensures exists range :: range in ranges && item in range.limits
    {
      AllItemsMembership(ranges, item);
    }
  }

  // ---- Order of the inputs ----

  lemma SameCeiling(a: Ceiling, b: Ceiling)
    requires forall v: real :: a.Admits(v) <==> b.Admits(v)
    ensures a == b
  {
    if a.AtMost? {
      assert a.Admits(a.value) && !a.Admits(a.value + 1.0);
      assert b.Admits(a.value) && !b.Admits(a.value + 1.0);
    }
    if b.AtMost? {
      assert b.Admits(b.value) && !b.Admits(b.value + 1.0);
      assert a.Admits(b.value) && !a.Admits(b.value + 1.0);
    }
  }

  /** Min, max and pod max do not depend on the order of the items, nor on repetitions. */
  lemma ItemOrderIsIrrelevant(xs: seq<LimitRangeItem>, ys: seq<LimitRangeItem>, res: ResourceName)
    requires forall item :: item in xs <==> item in ys
    ensures MergeItems(xs, res).min == MergeItems(ys, res).min
    ensures MergeItems(xs, res).max == MergeItems(ys, res).max
    ensures MergeItems(xs, res).podMax == MergeItems(ys, res).podMax
  {
    var x, y := MergeItems(xs, res), MergeItems(ys, res);
    MergedMinIsExact(xs, res, x.min);
    MergedMinIsExact(ys, res, x.min);
    MergedMinIsExact(xs, res, y.min);
    MergedMinIsExact(ys, res, y.min);
    forall v: real
      ensures x.max.Admits(v) <==> y.max.Admits(v)
      ensures x.podMax.Admits(v) <==> y.podMax.Admits(v)
    {
      MergedMaxIsExact(xs, res, v);
      MergedMaxIsExact(ys, res, v);
      MergedPodMaxIsExact(xs, res, v);
      MergedPodMaxIsExact(ys, res, v);
    }
    SameCeiling(x.max, y.max);
    SameCeiling(x.podMax, y.podMax);
  }

  lemma QuotaOrderIsIrrelevant(xs: seq<ResourceQuota>, ys: seq<ResourceQuota>, res: ResourceName)
    requires forall rq :: rq in xs <==> rq in ys
    ensures Headroom(xs, res) == Headroom(ys, res)
  {
    forall v: real
      ensures Headroom(xs, res).Admits(v) <==> Headroom(ys, res).Admits(v)
    {
      HeadroomIsExact(xs, res, v);
      HeadroomIsExact(ys, res, v);
    }
    SameCeiling(Headroom(xs, res), Headroom(ys, res));
  }

  /** The fields a later item overwrites instead of tightening. */
  datatype Override = RatioField | DefaultRequestField | DefaultLimitField

  function ListOf(item: LimitRangeItem, field: Override): ResourceList {
    match field
    case RatioField => item.maxLimitRequestRatio
    case DefaultRequestField => item.defaultRequest
    case DefaultLimitField => item.defaultLimit
  }

  function FieldOf(b: Bounds, field: Override): real {
    match field
    case RatioField => b.ratio
    case DefaultRequestField => b.defaultRequest
    case DefaultLimitField => b.defaultLimit
  }

  predicate Names(item: LimitRangeItem, field: Override, res: ResourceName) {
    item.kind == ContainerLimit && res in ListOf(item, field)
  }

  lemma OverrideStep(b: Bounds, item: LimitRangeItem, field: Override, res: ResourceName)
    ensures FieldOf(AbsorbItem(b, item, res), field) ==
      if Names(item, field, res) then ListOf(item, field)[res] else FieldOf(b, field)
  {
  }

  /** Ratio and defaults are those of the last Container item that names them. */
  lemma {:induction false} LastNamingItemWins(items: seq<LimitRangeItem>, field: Override, res: ResourceName, k: nat)
    requires k < |items| && Names(items[k], field, res)
    requires forall j | k < j < |items| :: !Names(items[j], field, res)
    ensures FieldOf(MergeItems(items, res), field) == ListOf(items[k], field)[res]
  {
    var rest, last := items[..|items| - 1], items[|items| - 1];
    OverrideStep(MergeItems(rest, res), last, field, res);
    if k < |rest| {
      LastNamingItemWins(rest, field, res, k);
    }
  }

  /** ... and zero when no item names them. */
  lemma {:induction false} UnnamedFieldIsZero(items: seq<LimitRangeItem>, field: Override, res: ResourceName)
    requires forall j | 0 <= j < |items| :: !Names(items[j], field, res)
    ensures FieldOf(MergeItems(items, res), field) == 0.0
  {
    if items != [] {
      var rest, last := items[..|items| - 1], items[|items| - 1];
      OverrideStep(MergeItems(rest, res), last, field, res);
      UnnamedFieldIsZero(rest, field, res);
    }
  }

  /** The items of later LimitRanges come after those of earlier ones: the last LimitRange that names a field wins. */
  lemma {:induction false} LastNamingRangeWins(ranges: seq<LimitRange>, field: Override, res: ResourceName, i: nat,
      k: nat)
    requires i < |ranges| && k < |ranges[i].limits| && Names(ranges[i].limits[k], field, res)
    requires forall j | k < j < |ranges[i].limits| :: !Names(ranges[i].limits[j], field, res)
    requires forall j, l | i < j < |ranges| && 0 <= l < |ranges[j].limits| :: !Names(ranges[j].limits[l], field, res)
    ensures FieldOf(MergeItems(AllItems(ranges), res), field) == ListOf(ranges[i].limits[k], field)[res]
    decreases |ranges|
  {
    var rest, last := ranges[..|ranges| - 1], ranges[|ranges| - 1];
    if i < |rest| {
      assert forall l | 0 <= l < |last.limits| :: !Names(last.limits[l], field, res);
      LastNamingRangeWins(rest, field, res, i, k);
      UnnamedItemsChangeNothing(AllItems(rest), last.limits, field, res);
    } else {
      var items := AllItems(ranges);
      var at := |AllItems(rest)| + k;
      assert items == AllItems(rest) + last.limits && items[at] == last.limits[k];
      LastNamingItemWins(items, field, res, at);
    }
  }

  lemma {:induction false} UnnamedItemsChangeNothing(before: seq<LimitRangeItem>, items: seq<LimitRangeItem>,
      field: Override, res: ResourceName)
    requires forall l | 0 <= l < |items| :: !Names(items[l], field, res)
    ensures FieldOf(MergeItems(before + items, res), field) == FieldOf(MergeItems(before, res), field)
    decreases |items|
  {
    if items == [] {
      assert before + items == before;
    } else {
      var rest, last := items[..|items| - 1], items[|items| - 1];
      UnnamedItemsChangeNothing(before, rest, field, res);
      assert before + items == before + rest + [last];
      MergeItemsSnoc(before + rest, last, res);
      OverrideStep(MergeItems(before + rest, res), last, field, res);
    }
  }

  /** So, unlike the bounds, the ratio changes when two items trade places. */
  lemma RatioDependsOnOrder() returns (x: LimitRangeItem, y: LimitRangeItem)
    ensures MergeItems([x, y], CPU).ratio != MergeItems([y, x], CPU).ratio
  {
    x := LimitRangeItem(ContainerLimit, map[], map[], map[], map[], map[CPU := 2.0]);
    y := x.(maxLimitRequestRatio := map[CPU := 3.0]);
    LastNamingItemWins([x, y], RatioField, CPU, 1);
    LastNamingItemWins([y, x], RatioField, CPU, 1);
  }

  /** The effective range is the intersection with the defaults, or the single point max when that is empty. */
  lemma EffectiveRangeIsIntersection(b: Bounds, default: Range, v: real)
    requires default.min <= default.max
    ensures var r := EffectiveRange(b, default);
      var inAll := default.min <= v <= default.max && b.min <= v && b.max.Admits(v);
      var nonEmpty := b.max.Admits(b.min) && b.max.Admits(default.min) && b.min <= default.max;
      if nonEmpty then r.min <= v <= r.max <==> inAll
      else r.min == r.max == b.max.Cap(default.max) && !inAll
  {
  }
}
