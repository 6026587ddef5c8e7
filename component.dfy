/**
 * The component store of one type: a growable list of chunks
 * (`Components<T>`), with its type-erased `push` that is told which chunk ids
 * an archetype owns.
 */
module Component {
  import opened Wrappers
  import opened Values
  import opened Chunk

  datatype PushError =
    | InvalidComponentType(expected: TypeId)
    | InvalidChunkIndex(index: nat)

  /** Where a pushed value landed: chunk id and slot within the chunk. */
  datatype ComponentAddress = ComponentAddress(chunkIdx: nat, componentIdx: nat)

  datatype PushComponentAction =
    | NewChunk(address: ComponentAddress)
    | PushToChunk(address: ComponentAddress)
  {
    /** `chunk_idx` of the carried address. */
    function ChunkIdx(): nat
    {
      address.chunkIdx
    }
  }

  /** A store's contents as values: its chunks, each a sequence of values of `t`, none over capacity. */
  ghost predicate StoreOk(t: TypeId, chunks: seq<seq<Value>>)
  {
    forall i :: 0 <= i < |chunks| ==> |chunks[i]| <= CAPACITY && AllOfType(chunks[i], t)
  }

  /** Outcome of scanning the candidate chunk ids in order. */
  datatype Scan =
    | Open(pos: nat)      // candidates[pos] is the first candidate that is not full
    | Missing(pos: nat)   // candidates[pos] is out of range, and every earlier one is full
    | AllFull             // every candidate exists and is full (or there are none)

  /** The scan of `candidates` from position `from` on, as the `for` loop of `push` does it. */
  function ScanFrom(chunks: seq<seq<Value>>, candidates: seq<nat>, from: nat): (s: Scan)
    requires from <= |candidates|
    ensures s.Open? ==> from <= s.pos < |candidates| && candidates[s.pos] < |chunks|
                        && |chunks[candidates[s.pos]]| < CAPACITY
    ensures s.Missing? ==> from <= s.pos < |candidates| && candidates[s.pos] >= |chunks|
    ensures forall q :: from <= q < |candidates| && (s.AllFull? || q < s.pos) ==>
              candidates[q] < |chunks| && |chunks[candidates[q]]| >= CAPACITY
    decreases |candidates| - from
  {
    if from == |candidates| then AllFull
    else if candidates[from] >= |chunks| then Missing(from)
    else if |chunks[candidates[from]]| < CAPACITY then Open(from)
    else ScanFrom(chunks, candidates, from + 1)
  }

  /** Chunk id `c` names an existing chunk with no room left. */
  ghost predicate FullAt(chunks: seq<seq<Value>>, c: nat)
  {
    c < |chunks| && |chunks[c]| >= CAPACITY
  }

  /** Every candidate before position `p` names an existing full chunk. */
  ghost predicate FullBefore(chunks: seq<seq<Value>>, candidates: seq<nat>, p: nat)
    requires p <= |candidates|
  {
    forall q :: 0 <= q < p ==> FullAt(chunks, candidates[q])
  }

  /** Result and new contents of a push. */
  datatype PushStep = PushStep(result: Result<PushComponentAction, PushError>, chunks: seq<seq<Value>>)

  /**
   * `IComponents::push` on a store of type `typeId` holding `chunks`: the
   * value goes into the first candidate chunk that is not full; a missing
   * candidate met before that is an error; if none has room a new chunk is
   * appended.
   */
  function StorePush(typeId: TypeId, chunks: seq<seq<Value>>, v: Value, candidates: seq<nat>): (step: PushStep)
    ensures step.result.Err? ==> step.chunks == chunks
    ensures TypeOf(v) != typeId ==> step.result == Err(InvalidComponentType(typeId))
    ensures step.result.Ok? ==>
      var c := step.result.value.address.chunkIdx;
      && TypeOf(v) == typeId
      && step.result.value.address.componentIdx == (if c < |chunks| then |chunks[c]| else 0)
      && (step.result.value.NewChunk? <==> c == |chunks|)
      && (step.result.value.PushToChunk? ==> c in candidates && c < |chunks| && |chunks[c]| < CAPACITY)
      && |step.chunks| == (if c == |chunks| then |chunks| + 1 else |chunks|)
      && step.chunks[c] == (if c < |chunks| then chunks[c] else []) + [v]
      && (forall i :: 0 <= i < |chunks| && i != c ==> step.chunks[i] == chunks[i])
    ensures step.result.Err? && step.result.error.InvalidComponentType? ==> TypeOf(v) != typeId
    ensures step.result.Ok? && step.result.value.PushToChunk? ==>
      exists p :: 0 <= p < |candidates| && candidates[p] == step.result.value.address.chunkIdx
                  && FullBefore(chunks, candidates, p)
    ensures step.result.Ok? && step.result.value.NewChunk? ==> FullBefore(chunks, candidates, |candidates|)
    ensures step.result.Err? && step.result.error.InvalidChunkIndex? ==>
      && step.result.error.index >= |chunks|
      && exists p :: 0 <= p < |candidates| && candidates[p] == step.result.error.index
                     && FullBefore(chunks, candidates, p)
  {
    if TypeOf(v) != typeId then PushStep(Err(InvalidComponentType(typeId)), chunks)
    else match ScanFrom(chunks, candidates, 0)
      case Open(p) =>
        var c := candidates[p];
        assert FullBefore(chunks, candidates, p);
        PushStep(Ok(PushToChunk(ComponentAddress(c, |chunks[c]|))), chunks[c := chunks[c] + [v]])
      case Missing(p) =>
        assert FullBefore(chunks, candidates, p);
        PushStep(Err(InvalidChunkIndex(candidates[p])), chunks)
      case AllFull =>
        assert FullBefore(chunks, candidates, |candidates|);
        PushStep(Ok(NewChunk(ComponentAddress(|chunks|, 0))), chunks + [[v]])
  }

  class Components {
    /** The component type this store holds (its `TComponent`). */
    const typeId: TypeId
    /** The chunks, indexed by their global chunk id. */
    var chunks: seq<ComponentsChunk>
    /** The chunks' contents. */
    ghost var Contents: seq<seq<Value>>
    /** The chunks this store owns. */
    ghost var Repr: set<ComponentsChunk>

    ghost predicate Valid()
      reads this, Repr
    {
      && |chunks| == |Contents|
      && (forall i :: 0 <= i < |chunks| ==>
            chunks[i] in Repr && chunks[i].capacity == CAPACITY && chunks[i].components == Contents[i])
      && (forall i, j :: 0 <= i < j < |chunks| ==> chunks[i] != chunks[j])
    }

    /** `component::new`: a store with no chunks. */
    constructor New(typeId: TypeId)
      ensures Valid() && Repr == {}
      ensures this.typeId == typeId && Contents == []
    {
      this.typeId := typeId;
      chunks := [];
      Contents := [];
      Repr := {};
    }

    /** `chunk` and `chunk_mut`: the chunk with id `chunkId`, if there is one. */
    function ChunkAt(chunkId: nat): (r: Option<ComponentsChunk>)
      reads this, Repr
      requires Valid()
      ensures r.None? <==> chunkId >= |Contents|
      ensures r.Some? ==> r.value in Repr && r.value.components == Contents[chunkId]
    {
      if chunkId < |chunks| then Some(chunks[chunkId]) else None
    }

    /**
     * A write through `chunk_mut(chunkId)` and that chunk's
     * `components_mut`: slot `slot` of chunk `chunkId` takes `v`.
     */
    method Write(chunkId: nat, slot: nat, v: Value)
      requires Valid() && chunkId < |Contents| && slot < |Contents[chunkId]|
      modifies this`Contents, Repr
      ensures Valid()
      ensures Contents == old(Contents)[chunkId := old(Contents)[chunkId][slot := v]]
    {
      var chunk := chunks[chunkId];
      chunk.Set(slot, v);
      Contents := Contents[chunkId := chunk.components];
    }

    /** `IComponents::push`. */
    method Push(component: Value, chunkIdxes: seq<nat>) returns (r: Result<PushComponentAction, PushError>)
      requires Valid()
      modifies this, Repr
      ensures Valid() && fresh(Repr - old(Repr))
      ensures StorePush(typeId, old(Contents), component, chunkIdxes) == PushStep(r, Contents)
    {
      if TypeOf(component) != typeId {
        return Err(InvalidComponentType(typeId));
      }
      for k := 0 to |chunkIdxes|
        invariant ScanFrom(Contents, chunkIdxes, 0) == ScanFrom(Contents, chunkIdxes, k)
      {
        var chunkIdx := chunkIdxes[k];
        if chunkIdx >= |chunks| {
          return Err(InvalidChunkIndex(chunkIdx));
        }
        var chunk := chunks[chunkIdx];
        if !chunk.IsFullFilled() {
          var componentIdx := chunk.Push(component);
          Contents := Contents[chunkIdx := chunk.components];
          return Ok(PushToChunk(ComponentAddress(chunkIdx, componentIdx)));
        }
      }
      var chunk := new ComponentsChunk.NewWithCapacity(CAPACITY);
      var componentIdx := chunk.Push(component);
      chunks := chunks + [chunk];
      Contents := Contents + [chunk.components];
      Repr := Repr + {chunk};
      r := Ok(NewChunk(ComponentAddress(|chunks| - 1, componentIdx)));
    }
  }

  /** Under an addressable candidate list and the store's own type, `push` cannot fail. */
  lemma PushNeverFails(typeId: TypeId, chunks: seq<seq<Value>>, v: Value, candidates: seq<nat>)
    requires TypeOf(v) == typeId
    requires forall q :: 0 <= q < |candidates| ==> candidates[q] < |chunks|
    ensures StorePush(typeId, chunks, v, candidates).result.Ok?
  {
  }

  /** A successful push keeps the store's contents well-typed and within capacity. */
  lemma PushKeepsStoreOk(typeId: TypeId, chunks: seq<seq<Value>>, v: Value, candidates: seq<nat>)
    requires StoreOk(typeId, chunks)
    ensures StoreOk(typeId, StorePush(typeId, chunks, v, candidates).chunks)
  {
  }
}
