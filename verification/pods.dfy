/** Pods, and what the API server does to them. */
module Pods {
  import opened Quantities
  import opened Calculator

  datatype Container = Container(name: string, requests: ResourceList, limits: ResourceList)

  /** The value of a pod annotation: other text, or a serialized recommendation. */
  datatype Annotation = Text(text: string) | SerializedRecommendation(rec: ResourceRecommendation)

  const RECOMMENDATION_KEY := "podfather.io/last-recommendation"

  datatype PodValue = PodValue(
    containers: seq<Container>, annotations: map<string, Annotation>, running: bool, terminating: bool)

  /** A pod as it appears in a list response; the list may be out of date. */
  datatype ListedPod = ListedPod(name: string, value: PodValue)

  /** What an API call is for. */
  datatype CallKind = Resize | Annotate | Unannotate | Eviction | ObjectUpdate | StatusUpdate

  datatype Call = Call(kind: CallKind, accepted: bool)

  /** The stored pods, and the API calls answered so far. */
  datatype World = World(pods: map<string, PodValue>, log: seq<Call>)

  /** Whether the n-th API call succeeds. Every sequence of successes and failures is some Answers. */
  type Answers = nat -> bool

  /** Annotations are patched key by key. */
  function MergeAnnotations(stored: map<string, Annotation>, base: map<string, Annotation>,
      changed: map<string, Annotation>)
    : map<string, Annotation>
  {
    (stored - (base.Keys - changed.Keys)) +
    (map k | k in changed && (k !in base || base[k] != changed[k]) :: changed[k])
  }

  /** A JSON merge patch made of the difference between a copy and its changed version: lists are replaced whole. */
  function MergePatch(stored: PodValue, base: PodValue, changed: PodValue): PodValue {
    stored.(
      containers := if changed.containers == base.containers then stored.containers else changed.containers,
      annotations := MergeAnnotations(stored.annotations, base.annotations, changed.annotations))
  }

  /** A world, the caller's copy of the pod, and whether the call succeeded. */
  datatype Outcome = Outcome(world: World, pod: PodValue, ok: bool)

  /** A successful patch answers with the stored pod; a failed one leaves the caller's copy changed. */
  function Patch(answers: Answers, w: World, kind: CallKind, name: string, base: PodValue, changed: PodValue): Outcome {
    if answers(|w.log|) && name in w.pods then
      var stored := MergePatch(w.pods[name], base, changed);
      Outcome(World(w.pods[name := stored], w.log + [Call(kind, true)]), stored, true)
    else
      Outcome(w.(log := w.log + [Call(kind, false)]), changed, false)
  }

  /** A successful eviction leaves the pod terminating. */
  function Evict(answers: Answers, w: World, name: string, pod: PodValue): Outcome {
    if answers(|w.log|) && name in w.pods then
      var stored := w.pods[name].(terminating := true);
      Outcome(World(w.pods[name := stored], w.log + [Call(Eviction, true)]), pod, true)
    else
      Outcome(w.(log := w.log + [Call(Eviction, false)]), pod, false)
  }

  predicate Annotated(pod: PodValue) {
    RECOMMENDATION_KEY in pod.annotations
  }
}
