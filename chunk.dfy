/**
 * A chunk: a fixed-capacity, append-only vector of one component type's
 * values (`ComponentsChunk<T>` over a `Vec<T>` created with a reserved capacity).
 */
module Chunk {
  import opened Values

  /** The capacity every chunk is created with. */
  const CAPACITY: nat := 32

  class ComponentsChunk {
    /** The stored values, in insertion order (`components` / `components_mut`). */
    var components: seq<Value>
    /** The capacity reserved by `Vec::with_capacity`. */
    const capacity: nat

    /** `new_with_capacity`: an empty chunk with `capacity` slots reserved. */
    constructor NewWithCapacity(capacity: nat)
      ensures this.capacity == capacity
      ensures components == []
    {
      this.capacity := capacity;
      components := [];
    }

    /** `is_full_filled`: no reserved slot is left. */
    function IsFullFilled(): (full: bool)
      reads this
      ensures full <==> |components| >= capacity
      ensures !full ==> |components| + 1 <= capacity
    {
      capacity <= |components|
    }

    /**
     * `push`: appends `component` and returns its index. The source does not
     * check fullness here; its only caller pushes into a chunk that is not full.
     */
    method Push(component: Value) returns (index: nat)
      requires |components| < capacity
      modifies this`components
      ensures components == old(components) + [component]
      ensures index == old(|components|) && components[index] == component
      ensures |components| <= capacity
    {
      components := components + [component];
      index := |components| - 1;
    }

    /** A write through `components_mut`: slot `index` takes `component`. */
    method Set(index: nat, component: Value)
      requires index < |components|
      modifies this`components
      ensures components == old(components)[index := component]
    {
      components := components[index := component];
    }
  }
}
