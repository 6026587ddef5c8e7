/**
 * The test system `MoveSystem` of the archetype storage: its `query`, which
 * picks the archetypes holding both Speed and Position and takes the guards
 * of the EntityId, Position and Speed stores, and its `system`, which walks
 * those archetypes and moves every Position by its Speed plus an offset.
 */
module MoveSystem {
  import opened Wrappers
  import opened Values
  import opened Chunk
  import opened Component
  import opened Archetype
  import opened WorldSpec
  import opened World
  import opened Access
  import opened MoveSpec

  /** `MoveSystemProps`: the matched archetypes, and the three stores the guards give access to. */
  datatype Props = Props(archetypes: seq<ChunkIdMap>, entityId: Components, speed: Components, position: Components)

  /**
   * `MoveSystem::query`. `order` is the order in which the world's map
   * yields the matching keys, each once, which the source leaves unspecified. No
   * matching archetype, or a missing store for one of the three types, gives
   * `None`.
   */
  method Query(world: World, order: seq<Key>) returns (props: Option<Props>)
    requires forall k :: k in order <==> k in world.Query(Moves)
    requires forall i, j :: 0 <= i < j < |order| ==> order[i] != order[j]
    ensures props.None? <==>
      world.Query(Moves) == {} || ENTITY_ID !in world.components || SPEED !in world.components || POSITION !in world.components
    ensures props.Some? ==>
      props.value == Props(world.Archetypes(order), world.components[ENTITY_ID], world.components[SPEED], world.components[POSITION])
  {
    var archetypes := world.Archetypes(order);
    if |archetypes| == 0 {
      return None;
    }
    assert order[0] in world.Query(Moves);
    RequestedDistinct();
    var guards, _ := Extract(world.components, Requested);
    if guards.None? {
      assert Requested[0].uuid == ENTITY_ID && Requested[1].uuid == POSITION && Requested[2].uuid == SPEED;
      return None;
    }
    var g := guards.value;
    props := Some(Props(archetypes, g[0].store, g[2].store, g[1].store));
  }

  /** The three stores are valid, and the Position store shares no object with the other two. */
  ghost predicate Ready(props: Props)
    reads props.entityId, props.entityId.Repr, props.speed, props.speed.Repr, props.position, props.position.Repr
  {
    && props.entityId.Valid() && props.speed.Valid() && props.position.Valid()
    && props.position != props.entityId && props.position != props.speed
    && props.position.Repr !! props.entityId.Repr && props.position.Repr !! props.speed.Repr
  }

  /**
   * `MoveSystem::system`: every archetype in turn, skipping one that lacks a
   * chunk-id list for EntityId, Speed or Position. The source panics if a
   * field overflows u32; the caller guarantees that the final Positions fit.
   */
  method System(props: Props, offset: nat)
    requires Ready(props)
    requires offset < U32_LIMIT
    requires FitsStore(Moved(props.archetypes, props.entityId.Contents, props.speed.Contents, props.position.Contents, offset))
    modifies props.position`Contents, props.position.Repr
    ensures Ready(props)
    ensures props.position.Contents ==
      Moved(props.archetypes, props.entityId.Contents, props.speed.Contents, old(props.position.Contents), offset)
  {
    ghost var ids := props.entityId.Contents;
    ghost var speeds := props.speed.Contents;
    ghost var target := Moved(props.archetypes, ids, speeds, props.position.Contents, offset);
    for a := 0 to |props.archetypes|
      invariant Ready(props)
      invariant Apply(ids, speeds, props.position.Contents, Visits(props.archetypes[a..]), offset) == target
    {
      var archetype := props.archetypes[a];
      ghost var rest := Visits(props.archetypes[a + 1..]);
      VisitsNext(props.archetypes, a);
      ApplyAppend(ids, speeds, props.position.Contents, VisitsOf(archetype), rest, offset);
      if !(ENTITY_ID in archetype && SPEED in archetype && POSITION in archetype) {
        continue;
      }
      FitsPrefix(ids, speeds, props.position.Contents, VisitsOf(archetype), rest, offset);
      SystemArchetype(props, archetype[ENTITY_ID], archetype[SPEED], archetype[POSITION], offset);
    }
    assert props.archetypes[|props.archetypes|..] == [];
  }

  /** The lockstep walk over one archetype's three chunk-id lists, skipping a position whose chunks do not all exist. */
  method SystemArchetype(props: Props, entityIds: seq<nat>, speedIds: seq<nat>, positionIds: seq<nat>, offset: nat)
    requires Ready(props)
    requires FitsStore(Apply(props.entityId.Contents, props.speed.Contents, props.position.Contents,
                             Zip3(entityIds, speedIds, positionIds), offset))
    modifies props.position`Contents, props.position.Repr
    ensures Ready(props)
    ensures props.position.Contents == Apply(props.entityId.Contents, props.speed.Contents, old(props.position.Contents),
                                             Zip3(entityIds, speedIds, positionIds), offset)
  {
    ghost var ids := props.entityId.Contents;
    ghost var speeds := props.speed.Contents;
    ghost var target := Apply(ids, speeds, props.position.Contents, Zip3(entityIds, speedIds, positionIds), offset);
    for q := 0 to Min3(|entityIds|, |speedIds|, |positionIds|)
      invariant Ready(props)
      invariant Apply(ids, speeds, props.position.Contents, Zip3(entityIds[q..], speedIds[q..], positionIds[q..]), offset) == target
    {
      WalkNext(ids, speeds, props.position.Contents, entityIds, speedIds, positionIds, q, offset);
      var entityChunk := props.entityId.ChunkAt(entityIds[q]);
      var speedChunk := props.speed.ChunkAt(speedIds[q]);
      var positionChunk := props.position.ChunkAt(positionIds[q]);
      if entityChunk.None? || speedChunk.None? || positionChunk.None? {
        continue;
      }
      SystemChunk(entityChunk.value, speedChunk.value, props.position, positionIds[q], offset);
    }
  }

  /**
   * The rows loop over one visit: each row the three chunks have in common,
   * `position += speed + offset` field by field, written through
   * `components_mut`.
   */
  method SystemChunk(idChunk: ComponentsChunk, speedChunk: ComponentsChunk, position: Components, chunkId: nat, offset: nat)
    requires position.Valid() && chunkId < |position.Contents|
    requires idChunk !in position.Repr && speedChunk !in position.Repr
    requires forall j :: 0 <= j < |position.Contents[chunkId]| ==>
      FitsU32(MoveChunk(idChunk.components, speedChunk.components, position.Contents[chunkId], offset)[j])
    modifies position`Contents, position.Repr
    ensures position.Valid()
    ensures position.Contents ==
      old(position.Contents)[chunkId := MoveChunk(idChunk.components, speedChunk.components, old(position.Contents)[chunkId], offset)]
  {
    var chunk := position.ChunkAt(chunkId).value;
    ghost var before := position.Contents;
    ghost var moved := MoveChunk(idChunk.components, speedChunk.components, before[chunkId], offset);
    for j := 0 to Min3(|idChunk.components|, |speedChunk.components|, |chunk.components|)
      invariant position.Valid() && position.ChunkAt(chunkId) == Some(chunk)
      invariant |position.Contents| == |before| && position.Contents == before[chunkId := position.Contents[chunkId]]
      invariant |position.Contents[chunkId]| == |before[chunkId]|
      invariant forall i :: 0 <= i < |before[chunkId]| ==>
        position.Contents[chunkId][i] == if i < j then moved[i] else before[chunkId][i]
    {
      var next := MoveRow(chunk.components[j], speedChunk.components[j], offset);
      assert next == moved[j];
      // Neither `speed + offset` nor the sum with the position overflows u32.
      assert FitsU32(next);
      position.Write(chunkId, j, next);
    }
    assert position.Contents[chunkId] == moved;
  }
}
