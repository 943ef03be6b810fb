/** Quantities and resource lists, as the Kubernetes API types present them to the controller. */
module Quantities {

  datatype Option<+T> = None | Some(value: T)

  /** The keys the controller looks up in a resource list; every other key is carried along. */
  datatype ResourceName = CPU | Memory | RequestsCPU | RequestsMemory | OtherResource(name: string)

  /** A quantity is its value: cores for CPU, bytes for memory. */
  type ResourceList = map<ResourceName, real>

  /** An upper bound; Unbounded is the case the source encodes as math.MaxFloat64. */
  datatype Ceiling = Unbounded | AtMost(value: real) {

    predicate Admits(v: real) {
      Unbounded? || v <= value
    }

    /** The comparison `v < ceiling`. */
    predicate IsAbove(v: real) {
      Unbounded? || v < value
    }

    /** The smaller of a value and the ceiling. */
    function Cap(v: real): real {
      if Admits(v) then v else value
    }
  }

  /** A product, as a function so that equal factors give equal products. */
  function Times(x: real, y: real): real {
    x * y
  }

  /** Conversion of a float to int64: truncation toward zero. */
  function Truncate(x: real): int {
    if x >= 0.0 then x.Floor else -((-x).Floor)
  }

  /** Steps per unit of a written quantity: CPU is written in millicores, memory in bytes. */
  type Scale = s: real | s == 1.0 || s == 1000.0 witness 1.0

  function StepsPerUnit(res: ResourceName): Scale {
    if res == CPU then 1000.0 else 1.0
  }

  /** The value a quantity has after being written as a whole number of steps. */
  function Written(x: real, scale: Scale): real {
    Truncate(x * scale) as real / scale
  }

  lemma WrittenBounds(x: real, scale: Scale)
    requires x >= 0.0
    ensures 0.0 <= Written(x, scale) <= x
    ensures x * scale - 1.0 < Written(x, scale) * scale <= x * scale
    ensures Written(x, scale) * scale == Truncate(x * scale) as real
  {
  }

  lemma WrittenMonotone(x: real, y: real, scale: Scale)
    requires 0.0 <= x <= y
    ensures Written(x, scale) <= Written(y, scale)
  {
    if scale == 1.0 {
      assert Truncate(x) <= Truncate(y);
      assert Written(x, scale) == Truncate(x) as real;
      assert Written(y, scale) == Truncate(y) as real;
    } else {
      assert Truncate(x * 1000.0) <= Truncate(y * 1000.0);
    }
  }
}
