/** What applying one recommendation does to the call log, the stored pod and the copy, in each mode. */
module UpdaterLaws {
  import opened Quantities
  import opened Calculator
  import opened Pods
  import opened ApiTypes
  import opened Updater

  // ---- What is written ----

  /** So many whole steps fit between zero and x. */
  predicate StepsWithin(steps: int, x: real, scale: Scale) {
    if x >= 0.0 then steps as real <= x * scale < steps as real + 1.0
    else steps as real - 1.0 < x * scale <= steps as real
  }

  /** A value cut to whole steps, towards zero. */
  ghost predicate InWholeSteps(value: real, x: real, scale: Scale) {
    exists steps: int :: StepsWithin(steps, x, scale) && value * scale == steps as real
  }

  /** CPU and memory of a list are set to whole millicores and bytes; every other key is kept. */
  ghost predicate SetTo(before: ResourceList, after: ResourceList, cpu: real, memory: real) {
    && CPU in after && InWholeSteps(after[CPU], cpu, 1000.0)
    && Memory in after && InWholeSteps(after[Memory], memory, 1.0)
    && (forall key | key !in {CPU, Memory} :: key in after <==> key in before)
    && (forall key | key in before && key !in {CPU, Memory} :: after[key] == before[key])
  }

  lemma WrittenIsWhole(x: real, scale: Scale)
    ensures InWholeSteps(Written(x, scale), x, scale)
  {
    var steps := Truncate(x * scale);
    assert StepsWithin(steps, x, scale) && Written(x, scale) * scale == steps as real;
  }

  /** The written container has the recommended requests and limits, and nothing else of it changes. */
  lemma WrittenContainer(c: Container, rec: ResourceRecommendation)
    ensures var d := WriteResources(c, rec);
      && d.name == c.name
      && SetTo(c.requests, d.requests, rec.cpu.request, rec.memory.request)
      && SetTo(c.limits, d.limits, rec.cpu.limit, rec.memory.limit)
  {
    WrittenIsWhole(rec.cpu.request, 1000.0);
    WrittenIsWhole(rec.memory.request, 1.0);
    WrittenIsWhole(rec.cpu.limit, 1000.0);
    WrittenIsWhole(rec.memory.limit, 1.0);
  }

  // ---- One attempt at a resize, and one at an eviction ----

  predicate HasContainer(pod: PodValue, name: string) {
    exists c | c in pod.containers :: c.name == name
  }

  /** The first container of that name is written, the others are not. */
  predicate FirstWritten(before: seq<Container>, after: seq<Container>, rec: ResourceRecommendation) {
    exists k | 0 <= k < |before| ::
      && before[k].name == rec.name && (forall j | 0 <= j < k :: before[j].name != rec.name)
      && after == before[k := WriteResources(before[k], rec)]
  }

  /** An accepted resize stores the copy's containers with the first one of the name written, unless that changes
      nothing in the copy; nothing else of the pod changes. */
  predicate ResizeStored(before: PodValue, copy: PodValue, after: PodValue, rec: ResourceRecommendation) {
    && after == before.(containers := after.containers)
    && (if FirstWritten(copy.containers, copy.containers, rec) then after.containers == before.containers
        else FirstWritten(copy.containers, after.containers, rec))
  }

  predicate Carries(pod: PodValue, rec: ResourceRecommendation) {
    RECOMMENDATION_KEY in pod.annotations && pod.annotations[RECOMMENDATION_KEY] == SerializedRecommendation(rec)
  }

  /** An accepted annotation adds the recommendation, unless the copy carried it before; nothing else of the pod
      changes. */
  predicate AnnotationStored(before: PodValue, copy: PodValue, after: PodValue, rec: ResourceRecommendation) {
    && after == before.(annotations := after.annotations)
    && (if Carries(copy, rec) then after == before
        else
          && Carries(after, rec)
          && after.annotations - {RECOMMENDATION_KEY} == before.annotations - {RECOMMENDATION_KEY})
  }

  /** The pod of that name becomes another value, and no other pod changes. */
  predicate Becomes(before: map<string, PodValue>, after: map<string, PodValue>, name: string) {
    && name in before && name in after
    && after == before[name := after[name]]
  }

  /** After a resize that was not accepted, the copy has it all the same. */
  predicate CopyKept(copy: PodValue, after: PodValue, rec: ResourceRecommendation) {
    && after == copy.(containers := after.containers)
    && (if HasContainer(copy, rec.name) then FirstWritten(copy.containers, after.containers, rec) else after == copy)
  }

  /** After an accepted annotation the copy is what that stored; otherwise it has the annotation all the same. */
  predicate CopyAnnotated(copy: PodValue, after: PodValue, rec: ResourceRecommendation, stored: PodValue,
      terminating: bool, accepted: bool) {
    if accepted then after == stored.(terminating := terminating)
    else
      && after == copy.(annotations := after.annotations) && Carries(after, rec)
      && after.annotations - {RECOMMENDATION_KEY} == copy.annotations - {RECOMMENDATION_KEY}
  }

  lemma ResizeOutcome(answers: Answers, w: World, name: string, pod: PodValue, rec: ResourceRecommendation)
    requires name in w.pods
    ensures var o, n := ApplyInPlace(answers, w, name, pod, rec), |w.log|;
      && (o.ok <==> HasContainer(pod, rec.name) && answers(n))
      && o.world.log == w.log + (if HasContainer(pod, rec.name) then [Call(Resize, answers(n))] else [])
      && (if o.ok then
            && Becomes(w.pods, o.world.pods, name) && o.pod == o.world.pods[name]
            && ResizeStored(w.pods[name], pod, o.pod, rec)
          else o.world.pods == w.pods)
      && (!o.ok ==> CopyKept(pod, o.pod, rec))
  {
    var k := FirstNamed(pod.containers, rec.name, 0);
    if k < |pod.containers| {
      assert pod.containers[k] in pod.containers;
      var written := pod.containers[k := WriteResources(pod.containers[k], rec)];
      assert FirstWritten(pod.containers, written, rec);
      OnlyOneFirst(pod.containers, rec, k);
      SameAnnotations(w.pods[name].annotations, pod.annotations);
    }
  }

  lemma OnlyOneFirst(containers: seq<Container>, rec: ResourceRecommendation, k: nat)
    requires k < |containers| && containers[k].name == rec.name
    requires forall j | 0 <= j < k :: containers[j].name != rec.name
    ensures FirstWritten(containers, containers, rec) <==>
      containers[k := WriteResources(containers[k], rec)] == containers
  {
  }

  lemma SameAnnotations(stored: map<string, Annotation>, copy: map<string, Annotation>)
    ensures MergeAnnotations(stored, copy, copy) == stored
  {
  }

  lemma AnnotationOutcome(stored: PodValue, copy: PodValue, rec: ResourceRecommendation)
    ensures AnnotationStored(stored, copy, MergePatch(stored, copy, WithAnnotation(copy, rec)), rec)
  {
    if Carries(copy, rec) {
      assert WithAnnotation(copy, rec) == copy;
      SameAnnotations(stored.annotations, copy.annotations);
    }
  }

  /** An eviction is one Annotate call and, iff that is accepted, one Eviction call. Evicted iff both are accepted. */
  lemma EvictionOutcome(answers: Answers, w: World, name: string, pod: PodValue, rec: ResourceRecommendation)
    requires name in w.pods
    ensures var o, n := ApplyViaEviction(answers, w, name, pod, rec), |w.log|;
      && (o.ok <==> answers(n) && answers(n + 1))
      && o.world.log == w.log + [Call(Annotate, answers(n))] +
          (if answers(n) then [Call(Eviction, answers(n + 1))] else [])
      && (if answers(n) then
            && Becomes(w.pods, o.world.pods, name)
            && var after := o.world.pods[name];
            && AnnotationStored(w.pods[name], pod, after.(terminating := w.pods[name].terminating), rec)
            && after.terminating == (o.ok || w.pods[name].terminating)
          else o.world.pods == w.pods)
      && name in o.world.pods
      && CopyAnnotated(pod, o.pod, rec, o.world.pods[name], w.pods[name].terminating, answers(n))
  {
    AnnotationOutcome(w.pods[name], pod, rec);
  }

  // ---- The modes ----

  /** Mode InPlace: one Resize call iff the pod has the container, and success iff it is accepted. */
  lemma InPlaceOutcome(answers: Answers, w: World, name: string, pod: PodValue, rec: ResourceRecommendation)
    requires name in w.pods
    ensures var a, n := Apply(answers, w, name, pod, rec, InPlace), |w.log|;
      var has := HasContainer(pod, rec.name);
      && a.world.log == w.log + (if has then [Call(Resize, answers(n))] else [])
      && a.strategy == (if has && answers(n) then Some(StrategyInPlace) else None)
      && (if has && answers(n) then
            && Becomes(w.pods, a.world.pods, name) && a.pod == a.world.pods[name]
            && ResizeStored(w.pods[name], pod, a.pod, rec)
          else a.world.pods == w.pods && CopyKept(pod, a.pod, rec))
  {
    ResizeOutcome(answers, w, name, pod, rec);
  }

  /** The pod is annotated and, iff it was evicted, terminating. */
  predicate EvictionStored(before: PodValue, copy: PodValue, after: PodValue, rec: ResourceRecommendation,
      evicted: bool) {
    && AnnotationStored(before, copy, after.(terminating := before.terminating), rec)
    && after.terminating == (evicted || before.terminating)
  }

  /** Mode Recreate: an Annotate call, then an Eviction call iff it was accepted, and success iff both were. */
  lemma RecreateOutcome(answers: Answers, w: World, name: string, pod: PodValue, rec: ResourceRecommendation)
    requires name in w.pods
    ensures var a, n := Apply(answers, w, name, pod, rec, Recreate), |w.log|;
      && a.world.log == w.log + [Call(Annotate, answers(n))] +
          (if answers(n) then [Call(Eviction, answers(n + 1))] else [])
      && a.strategy == (if answers(n) && answers(n + 1) then Some(StrategyEviction) else None)
      && (if answers(n) then
            && Becomes(w.pods, a.world.pods, name)
            && EvictionStored(w.pods[name], pod, a.world.pods[name], rec, answers(n + 1))
          else a.world.pods == w.pods)
      && name in a.world.pods
      && CopyAnnotated(pod, a.pod, rec, a.world.pods[name], w.pods[name].terminating, answers(n))
  {
    EvictionOutcome(answers, w, name, pod, rec);
  }

  /** Mode Auto: a Resize call iff the pod has the container; unless it is accepted, an Annotate call, and iff that is
      accepted an Eviction call. In place iff the first is accepted, by fallback iff the last two are, else an error. */
  lemma AutoOutcome(answers: Answers, w: World, name: string, pod: PodValue, rec: ResourceRecommendation)
    requires name in w.pods
    ensures var a, n := Apply(answers, w, name, pod, rec, Auto), |w.log|;
      var has := HasContainer(pod, rec.name);
      var m := if has then n + 1 else n;
      var tried := w.log + (if has then [Call(Resize, answers(n))] else []);
      if has && answers(n) then
        && a.world.log == tried && a.strategy == Some(StrategyInPlace)
        && Becomes(w.pods, a.world.pods, name) && a.pod == a.world.pods[name]
        && ResizeStored(w.pods[name], pod, a.pod, rec)
      else
        && a.world.log == tried + [Call(Annotate, answers(m))] +
            (if answers(m) then [Call(Eviction, answers(m + 1))] else [])
        && a.strategy == (if answers(m) && answers(m + 1) then Some(StrategyEvictionFallback) else None)
        && (if answers(m) then
              && Becomes(w.pods, a.world.pods, name)
              && EvictionStored(w.pods[name], pod, a.world.pods[name], rec, answers(m + 1))
            else a.world.pods == w.pods)
        && name in a.world.pods
        && exists kept: PodValue | CopyKept(pod, kept, rec) ::
            CopyAnnotated(kept, a.pod, rec, a.world.pods[name], w.pods[name].terminating, answers(m))
  {
    ResizeOutcome(answers, w, name, pod, rec);
    var o := ApplyInPlace(answers, w, name, pod, rec);
    if !o.ok {
      EvictionOutcome(answers, o.world, name, o.pod, rec);
    }
  }

  /** After a fallback or an eviction the stored pod is terminating, and carries the recommendation unless the copy
      already carried it and the stored pod did not. */
  lemma EvictedPod(answers: Answers, w: World, name: string, pod: PodValue, rec: ResourceRecommendation,
      mode: UpdateMode)
    requires name in w.pods
    ensures var a := Apply(answers, w, name, pod, rec, mode);
      a.strategy in {Some(StrategyEviction), Some(StrategyEvictionFallback)} ==>
        && name in a.world.pods && a.world.pods[name].terminating
        && (Carries(a.world.pods[name], rec) <==> !Carries(pod, rec) || Carries(w.pods[name], rec))
  {
    match mode {
      case InPlace => InPlaceOutcome(answers, w, name, pod, rec);
      case Recreate => RecreateOutcome(answers, w, name, pod, rec);
      case Auto => AutoOutcome(answers, w, name, pod, rec);
      case Off =>
      case UnknownMode(_) =>
    }
  }

  /** Mode Off reports success and an unknown mode an error, and neither calls anybody. */
  lemma IdleOutcome(answers: Answers, w: World, name: string, pod: PodValue, rec: ResourceRecommendation,
      mode: UpdateMode)
    requires mode.Off? || mode.UnknownMode?
    ensures var a := Apply(answers, w, name, pod, rec, mode);
      a.world == w && a.pod == pod && a.strategy == if mode.Off? then Some(StrategyOff) else None
  {
  }

  /** For a pod that is gone every call fails. */
  lemma GoneOutcome(answers: Answers, w: World, name: string, pod: PodValue, rec: ResourceRecommendation,
      mode: UpdateMode)
    requires name !in w.pods && !mode.Off?
    ensures var a := Apply(answers, w, name, pod, rec, mode);
      var resize := if mode in {InPlace, Auto} && HasContainer(pod, rec.name) then [Call(Resize, false)] else [];
      var annotate := if mode in {Recreate, Auto} then [Call(Annotate, false)] else [];
      a.strategy.None? && a.world == w.(log := w.log + resize + annotate)
  {
    var k := FirstNamed(pod.containers, rec.name, 0);
    assert k < |pod.containers| ==> pod.containers[k] in pod.containers;
  }
}
