/** Reading a pod's allocations back (internal/metrics). */
module Metrics {
  import opened Quantities
  import opened Calculator
  import opened Pods

  datatype ContainerResources = ContainerResources(
    cpuRequest: real, cpuLimit: real, memoryRequest: real, memoryLimit: real)

  /** A missing quantity reads as zero. */
  function QuantityOrZero(list: ResourceList, res: ResourceName): real {
    if res in list then list[res] else 0.0
  }

  function ReadResources(c: Container): ContainerResources {
    ContainerResources(
      QuantityOrZero(c.requests, CPU), QuantityOrZero(c.limits, CPU),
      QuantityOrZero(c.requests, Memory), QuantityOrZero(c.limits, Memory))
  }

  /** Later containers of the same name replace earlier ones. */
  function Allocations(containers: seq<Container>): map<string, ContainerResources> {
    if containers == [] then map[] else
    var last := containers[|containers| - 1];
    Allocations(containers[..|containers| - 1])[last.name := ReadResources(last)]
  }

  method GetCurrentAllocations(containers: seq<Container>) returns (result: map<string, ContainerResources>)
    ensures result == Allocations(containers)
  {
    result := map[];
    var i := 0;
    while i < |containers|
      invariant 0 <= i <= |containers|
      invariant result == Allocations(containers[..i])
    {
      var c := containers[i];
      var cpuRequest, cpuLimit, memoryRequest, memoryLimit := 0.0, 0.0, 0.0, 0.0;
      if CPU in c.requests { cpuRequest := c.requests[CPU]; }
      if CPU in c.limits { cpuLimit := c.limits[CPU]; }
      if Memory in c.requests { memoryRequest := c.requests[Memory]; }
      if Memory in c.limits { memoryLimit := c.limits[Memory]; }
      result := result[c.name := ContainerResources(cpuRequest, cpuLimit, memoryRequest, memoryLimit)];
      assert containers[..i + 1][..i] == containers[..i];
      i := i + 1;
    }
    assert containers[..i] == containers;
  }

  predicate DistinctNames(containers: seq<Container>) {
    forall i, j | 0 <= i < j < |containers| :: containers[i].name != containers[j].name
  }

  /** The last container of a name is the one that is read. */
  lemma {:induction false} LastOfNameIsRead(containers: seq<Container>, i: nat)
    requires i < |containers| && forall j | i < j < |containers| :: containers[j].name != containers[i].name
    ensures containers[i].name in Allocations(containers)
    ensures var read := Allocations(containers)[containers[i].name];
      && read.cpuRequest == QuantityOrZero(containers[i].requests, CPU)
      && read.cpuLimit == QuantityOrZero(containers[i].limits, CPU)
      && read.memoryRequest == QuantityOrZero(containers[i].requests, Memory)
      && read.memoryLimit == QuantityOrZero(containers[i].limits, Memory)
  {
    if i < |containers| - 1 {
      LastOfNameIsRead(containers[..|containers| - 1], i);
    }
  }

  /** The map's keys are the container names, and with distinct names each entry is that container's own. */
  lemma {:induction false} AllocationsAreReadBack(containers: seq<Container>)
    ensures forall name :: name in Allocations(containers) <==>
      exists i | 0 <= i < |containers| :: containers[i].name == name
    ensures DistinctNames(containers) ==>
      forall i | 0 <= i < |containers| :: Allocations(containers)[containers[i].name] == ReadResources(containers[i])
  {
    if containers != [] {
      var rest, last := containers[..|containers| - 1], containers[|containers| - 1];
      AllocationsAreReadBack(rest);
      forall name
        ensures name in Allocations(containers) <==> exists i | 0 <= i < |containers| :: containers[i].name == name
      {
        if i :| 0 <= i < |containers| && containers[i].name == name {
          assert i < |rest| ==> rest[i].name == name;
        }
      }
      if DistinctNames(containers) {
        forall i | 0 <= i < |containers|
          ensures Allocations(containers)[containers[i].name] == ReadResources(containers[i])
        {
          if i < |rest| {
            assert rest[i] == containers[i] && containers[i].name != last.name;
          }
        }
      }
    }
  }
}
