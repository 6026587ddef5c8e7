/**
 * An archetype: for each component type of one composition, the ordered
 * list of chunk ids (into that type's store) holding this composition's rows.
 */
module Archetype {
  import opened Wrappers
  import opened Values

  /** An archetype's contents: type identity to chunk-id list. */
  type ChunkIdMap = map<TypeId, seq<nat>>

  class Archetype {
    var chunkIds: ChunkIdMap

    /** `archetype::new`: every identity of the composition, each with an empty list. */
    constructor New(componentsInfo: set<TypeId>)
      ensures chunkIds.Keys == componentsInfo
      ensures forall t :: t in chunkIds ==> chunkIds[t] == []
    {
      chunkIds := map t | t in componentsInfo :: [];
    }

    /** `archetype::new_empty`: only the EntityId identity, with an empty list. */
    constructor NewEmpty()
      ensures chunkIds.Keys == {ENTITY_ID} && chunkIds[ENTITY_ID] == []
    {
      chunkIds := map[ENTITY_ID := []];
    }

    /** `chunk_ids` (and `chunk_ids_by_type`, which passes the type's identity). */
    function ChunkIds(componentUuid: TypeId): (r: Option<seq<nat>>)
      reads this
      ensures r.Some? <==> componentUuid in chunkIds
      ensures r.Some? ==> r.value == chunkIds[componentUuid]
    {
      if componentUuid in chunkIds then Some(chunkIds[componentUuid]) else None
    }

    /** `has::<T>`: the composition includes T. */
    predicate Has(componentUuid: TypeId)
      reads this
      ensures Has(componentUuid) <==> ChunkIds(componentUuid).Some?
    {
      componentUuid in chunkIds
    }

    /**
     * `is_empty` as written: it asks for zero entries and an EntityId entry at
     * once, so it never holds.
     */
    predicate IsEmpty()
      reads this
      ensures !IsEmpty()
    {
      |chunkIds| == 0 && ENTITY_ID in chunkIds
    }

    /**
     * The evident intent of `is_empty`: one entry, and that entry EntityId's,
     * so the composition is EntityId alone, as `new_empty` builds it.
     */
    predicate IsEmptyIntended()
      reads this
      ensures IsEmptyIntended() <==> chunkIds.Keys == {ENTITY_ID}
    {
      var rest := chunkIds.Keys - {ENTITY_ID};
      assert ENTITY_ID in chunkIds ==> |chunkIds.Keys| == |rest| + 1;
      assert |rest| == 0 ==> rest == {};
      |chunkIds| == 1 && ENTITY_ID in chunkIds
    }

    /** `add_chunk_id`: append `chunkId` to the type's list, creating the list if absent. */
    method AddChunkId(typeUuid: TypeId, chunkId: nat)
      modifies this
      ensures chunkIds == WithChunkId(old(chunkIds), typeUuid, chunkId)
    {
      var ids := if typeUuid in chunkIds then chunkIds[typeUuid] else [];
      chunkIds := chunkIds[typeUuid := ids + [chunkId]];
    }
  }

  /** The lists after `add_chunk_id(t, chunkId)`: `t`'s list (empty if absent) gains `chunkId` at the end, no other list changes. */
  function WithChunkId(m: ChunkIdMap, t: TypeId, chunkId: nat): (r: ChunkIdMap)
    ensures r.Keys == m.Keys + {t}
    ensures |r[t]| >= 1 && r[t][|r[t]| - 1] == chunkId
    ensures t in m ==> r[t][..|r[t]| - 1] == m[t]
    ensures t !in m ==> r[t] == [chunkId]
    ensures forall u :: u in m && u != t ==> r[u] == m[u]
  {
    m[t := (if t in m then m[t] else []) + [chunkId]]
  }

  /** `new_empty` satisfies the intended `is_empty` but not the written one. */
  method EmptyArchetypeIsEmpty() returns (written: bool, intended: bool)
    ensures !written && intended
  {
    var a := new Archetype.NewEmpty();
    written := a.IsEmpty();
    intended := a.IsEmptyIntended();
  }
}
