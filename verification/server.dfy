/** The API server as the controller sees it, and the controller's own copies of pods. */
module Server {
  import opened Quantities
  import opened Pods
  import opened ApiTypes

  /** Everything the API server stores for one PodAutoscaler. */
  datatype Cluster = Cluster(world: World, autoscaler: Option<Autoscaler>)

  /** Update of the object itself: status is a subresource and is not touched; a deleted object
      without finalizers goes away. */
  function UpdateObject(answers: Answers, c: Cluster, finalizers: set<string>): Cluster {
    var ok := answers(|c.world.log|) && c.autoscaler.Some?;
    var logged := c.world.(log := c.world.log + [Call(ObjectUpdate, ok)]);
    if ok then
      var updated := c.autoscaler.value.(finalizers := finalizers);
      Cluster(logged, if updated.deleting && finalizers == {} then None else Some(updated))
    else c.(world := logged)
  }

  function WriteStatus(answers: Answers, c: Cluster, status: Status): Cluster {
    var ok := answers(|c.world.log|) && c.autoscaler.Some?;
    var logged := c.world.(log := c.world.log + [Call(StatusUpdate, ok)]);
    if ok then
      Cluster(logged, Some(c.autoscaler.value.(status := status)))
    else c.(world := logged)
  }

  /** The local copy of a pod that the controller mutates. */
  class Pod {
    const name: string
    var containers: seq<Container>
    var annotations: map<string, Annotation>
    var running: bool
    var terminating: bool

    constructor (name: string, value: PodValue)
      ensures this.name == name && Value() == value
    {
      this.name := name;
      containers, annotations := value.containers, value.annotations;
      running, terminating := value.running, value.terminating;
    }

    function Value(): PodValue
      reads this
    {
      PodValue(containers, annotations, running, terminating)
    }

    method Set(value: PodValue)
      modifies this
      ensures Value() == value
    {
      containers, annotations := value.containers, value.annotations;
      running, terminating := value.running, value.terminating;
    }
  }

  class ApiServer {
    const answers: Answers
    var pods: map<string, PodValue>
    var log: seq<Call>
    var autoscaler: Option<Autoscaler>

    constructor (answers: Answers, c: Cluster)
      ensures this.answers == answers && Contents() == c
    {
      this.answers := answers;
      pods, log, autoscaler := c.world.pods, c.world.log, c.autoscaler;
    }

    function Stored(): World
      reads this
    {
      World(pods, log)
    }

    function Contents(): Cluster
      reads this
    {
      Cluster(Stored(), autoscaler)
    }

    /** Answers one call and logs it; found says whether its object exists. */
    method Answer(kind: CallKind, found: bool) returns (ok: bool)
      modifies `log
      ensures ok == (answers(|old(log)|) && found) && log == old(log) + [Call(kind, ok)]
    {
      ok := answers(|log|) && found;
      log := log + [Call(kind, ok)];
    }

    /** Patches the stored pod with the difference between base and the caller's copy. */
    method PatchPod(kind: CallKind, pod: Pod, base: PodValue) returns (ok: bool)
      modifies `pods, `log, pod
      ensures Outcome(Stored(), pod.Value(), ok) ==
        old(Patch(answers, Stored(), kind, pod.name, base, pod.Value()))
    {
      ok := Answer(kind, pod.name in pods);
      if ok {
        var stored := MergePatch(pods[pod.name], base, pod.Value());
        pods := pods[pod.name := stored];
        pod.Set(stored);
      }
    }

    method EvictPod(pod: Pod) returns (ok: bool)
      modifies `pods, `log
      ensures Outcome(Stored(), pod.Value(), ok) ==
        old(Evict(answers, Stored(), pod.name, pod.Value()))
    {
      ok := Answer(Eviction, pod.name in pods);
      if ok {
        pods := pods[pod.name := pods[pod.name].(terminating := true)];
      }
    }

    method UpdateFinalizers(finalizers: set<string>) returns (ok: bool)
      requires autoscaler.Some?
      modifies `log, `autoscaler
      ensures Contents() == old(UpdateObject(answers, Contents(), finalizers))
      ensures ok == answers(|old(log)|)
    {
      ok := Answer(ObjectUpdate, true);
      if ok {
        var updated := autoscaler.value.(finalizers := finalizers);
        autoscaler := if updated.deleting && finalizers == {} then None else Some(updated);
      }
    }

    method UpdateStatus(status: Status) returns (ok: bool)
      requires autoscaler.Some?
      modifies `log, `autoscaler
      ensures Contents() == old(WriteStatus(answers, Contents(), status))
      ensures ok == answers(|old(log)|)
    {
      ok := Answer(StatusUpdate, true);
      if ok {
        autoscaler := Some(autoscaler.value.(status := status));
      }
    }
  }
}
