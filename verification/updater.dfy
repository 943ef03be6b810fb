/** Applying a recommendation to a pod (internal/updater). */
module Updater {
  import opened Quantities
  import opened Calculator
  import opened Pods
  import opened ApiTypes
  import opened Server

  datatype Strategy = StrategyOff | StrategyInPlace | StrategyEviction | StrategyEvictionFallback

  /** World, local copy, and the strategy used; None is an error. */
  datatype Applied = Applied(world: World, pod: PodValue, strategy: Option<Strategy>)

  /** A container with the recommendation written over its requests and limits, in whole millicores and bytes. */
  function WriteResources(c: Container, rec: ResourceRecommendation): Container {
    c.(requests := c.requests[CPU := Written(rec.cpu.request, 1000.0)][Memory := Written(rec.memory.request, 1.0)],
       limits := c.limits[CPU := Written(rec.cpu.limit, 1000.0)][Memory := Written(rec.memory.limit, 1.0)])
  }

  /** Index of the first container of that name at or after a position; the length when there is none. */
  function FirstNamed(containers: seq<Container>, name: string, from: nat): (k: nat)
    requires from <= |containers|
    ensures from <= k <= |containers|
    ensures k < |containers| ==> containers[k].name == name
    ensures forall j | from <= j < k :: containers[j].name != name
    decreases |containers| - from
  {
    if from == |containers| || containers[from].name == name then from
    else FirstNamed(containers, name, from + 1)
  }

  function Resized(pod: PodValue, rec: ResourceRecommendation): Option<PodValue> {
    var k := FirstNamed(pod.containers, rec.name, 0);
    if k == |pod.containers| then None
    else Some(pod.(containers := pod.containers[k := WriteResources(pod.containers[k], rec)]))
  }

  /** No API call is made when the container is missing. */
  function ApplyInPlace(answers: Answers, w: World, name: string, pod: PodValue, rec: ResourceRecommendation): Outcome {
    var resized := Resized(pod, rec);
    if resized.None? then Outcome(w, pod, false) else Patch(answers, w, Resize, name, pod, resized.value)
  }

  function WithAnnotation(pod: PodValue, rec: ResourceRecommendation): PodValue {
    pod.(annotations := pod.annotations[RECOMMENDATION_KEY := SerializedRecommendation(rec)])
  }

  function ApplyViaEviction(answers: Answers, w: World, name: string, pod: PodValue,
      rec: ResourceRecommendation): Outcome {
    var patched := Patch(answers, w, Annotate, name, pod, WithAnnotation(pod, rec));
    if !patched.ok then patched else Evict(answers, patched.world, name, patched.pod)
  }

  function Apply(answers: Answers, w: World, name: string, pod: PodValue, rec: ResourceRecommendation,
      mode: UpdateMode): Applied {
    match mode
    case Off => Applied(w, pod, Some(StrategyOff))
    case InPlace =>
      var o := ApplyInPlace(answers, w, name, pod, rec);
      Applied(o.world, o.pod, if o.ok then Some(StrategyInPlace) else None)
    case Recreate =>
      var o := ApplyViaEviction(answers, w, name, pod, rec);
      Applied(o.world, o.pod, if o.ok then Some(StrategyEviction) else None)
    case Auto =>
      var o := ApplyInPlace(answers, w, name, pod, rec);
      if o.ok then Applied(o.world, o.pod, Some(StrategyInPlace)) else
      var e := ApplyViaEviction(answers, o.world, name, o.pod, rec);
      Applied(e.world, e.pod, if e.ok then Some(StrategyEvictionFallback) else None)
    case UnknownMode(_) => Applied(w, pod, None)
  }

  class PodUpdater {
    const client: ApiServer

    constructor (client: ApiServer)
      ensures this.client == client
    {
      this.client := client;
    }

    method ApplyRecommendation(pod: Pod, rec: ResourceRecommendation, mode: UpdateMode)
      returns (strategy: Option<Strategy>)
      modifies client`pods, client`log, pod
      ensures Applied(client.Stored(), pod.Value(), strategy) ==
        old(Apply(client.answers, client.Stored(), pod.name, pod.Value(), rec, mode))
    {
      match mode {
        case Off => return Some(StrategyOff);
        case InPlace =>
          var ok := ApplyResize(pod, rec);
          return if ok then Some(StrategyInPlace) else None;
        case Recreate =>
          var ok := ApplyEviction(pod, rec);
          return if ok then Some(StrategyEviction) else None;
        case Auto =>
          var ok := ApplyResize(pod, rec);
          if ok { return Some(StrategyInPlace); }
          ok := ApplyEviction(pod, rec);
          return if ok then Some(StrategyEvictionFallback) else None;
        case UnknownMode(_) => return None;
      }
    }

    /** Overwrites the first container of that name in the local copy, then patches. */
    method ApplyResize(pod: Pod, rec: ResourceRecommendation) returns (ok: bool)
      modifies client`pods, client`log, pod
      ensures Outcome(client.Stored(), pod.Value(), ok) ==
        old(ApplyInPlace(client.answers, client.Stored(), pod.name, pod.Value(), rec))
    {
      var base := pod.Value();
      var updated := false;
      var i := 0;
      while i < |pod.containers|
        invariant 0 <= i <= |pod.containers|
        invariant !updated && pod.Value() == base && client.Stored() == old(client.Stored())
        invariant FirstNamed(base.containers, rec.name, 0) == FirstNamed(base.containers, rec.name, i)
      {
        if pod.containers[i].name == rec.name {
          var c := pod.containers[i];
          c := c.(requests := c.requests[CPU := Truncate(rec.cpu.request * 1000.0) as real / 1000.0]);
          c := c.(requests := c.requests[Memory := Truncate(rec.memory.request) as real]);
          c := c.(limits := c.limits[CPU := Truncate(rec.cpu.limit * 1000.0) as real / 1000.0]);
          c := c.(limits := c.limits[Memory := Truncate(rec.memory.limit) as real]);
          pod.containers := pod.containers[i := c];
          assert c == WriteResources(base.containers[i], rec);
          updated := true;
          break;
        }
        i := i + 1;
      }
      if !updated { return false; }
      ok := client.PatchPod(Resize, pod, base);
    }

    method ApplyEviction(pod: Pod, rec: ResourceRecommendation) returns (ok: bool)
      modifies client`pods, client`log, pod
      ensures Outcome(client.Stored(), pod.Value(), ok) ==
        old(ApplyViaEviction(client.answers, client.Stored(), pod.name, pod.Value(), rec))
    {
      var base := pod.Value();
      pod.annotations := pod.annotations[RECOMMENDATION_KEY := SerializedRecommendation(rec)];
      ok := client.PatchPod(Annotate, pod, base);
      if !ok { return; }
      ok := client.EvictPod(pod);
    }
  }
}
