/**
 * Entities as rows. Slot `j` of the chunks at position `q` of an archetype's
 * chunk-id lists holds one entity: one value per type of the archetype's
 * composition. `add_entity` writes a new row and leaves every existing one
 * as it was, so each row of the world is one of the bags added so far, and
 * the system, walking the lists in lockstep, moves each Position by the
 * Speed of its own entity.
 */
module EntityRows {
  import opened Wrappers
  import opened Values
  import opened Archetype
  import opened WorldSpec
  import opened MoveSpec

  /** The value of type `t` in slot `j` of the chunk at position `q` of archetype `k`'s list for `t`, if there is one. */
  function Cell(v: WorldView, k: Key, t: TypeId, q: nat, j: nat): (c: Option<Value>)
    ensures c.Some? <==> q < |IdsOf(v, k, t)| && IdsOf(v, k, t)[q] < |StoreOf(v, t)| && j < RowCount(v, k, t, q)
  {
    var ids := IdsOf(v, k, t);
    if q < |ids| && ids[q] < |StoreOf(v, t)| && j < |StoreOf(v, t)[ids[q]]| then Some(StoreOf(v, t)[ids[q]][j])
    else None
  }

  /** Slot `j` at position `q` of archetype `k` holds an entity: its EntityId chunk has that slot. */
  ghost predicate IsRow(v: WorldView, k: Key, q: nat, j: nat)
  {
    k in v.archetypes && j < RowCount(v, k, ENTITY_ID, q)
  }

  /** The row at `q`, `j` of archetype `k` is the bag `comps`: every column holds the bag's value of its type. */
  ghost predicate RowIs(v: WorldView, k: Key, q: nat, j: nat, comps: seq<Value>)
  {
    TypesOf(comps) == k && forall t :: t in k ==> Cell(v, k, t, q, j) == Some(ValueFor(comps, t))
  }

  // ---------------------------------------------------------------------
  // One placement

  /** A placement changes no existing cell. */
  lemma PlacedCellKept(v: WorldView, r: WorldView, key: Key, comps: seq<Value>, p: nat, k: Key, t: TypeId, q: nat, j: nat)
    requires key in v.archetypes && KeysMatch(v) && IdsInRange(v) && OwnedOnce(v) && FramedBy(v, r, key, key)
    requires forall u :: ColumnStep(v, r, key, u, p, ColumnValue(comps, u))
    requires Cell(v, k, t, q, j).Some?
    ensures Cell(r, k, t, q, j) == Cell(v, k, t, q, j)
  {
    assert ColumnStep(v, r, key, t, p, ColumnValue(comps, t));
    var ids := IdsOf(v, k, t);
    var chunks := StoreOf(v, t);
    assert k in v.archetypes && t in v.archetypes[k];
    if t in key {
      var keyIds := IdsOf(v, key, t);
      PlaceRowKeeps(chunks, keyIds, p, ColumnValue(comps, t));
      if k != key {
        assert IdsOf(r, k, t) == ids;
        if p < |keyIds| {
          assert t in v.archetypes[key];
          assert ids[q] != keyIds[p];
        }
      } else {
        assert IdsOf(r, k, t)[q] == ids[q];
        if q != p && p < |ids| {
          assert ids[q] != ids[p];
        }
      }
    }
  }

  /** The placed row: slot "old row count" at position `p` of `key` holds the bag, in every column. */
  lemma PlacedNewRow(v: WorldView, r: WorldView, key: Key, comps: seq<Value>, p: nat, t: TypeId)
    requires key in v.archetypes && KeysMatch(v) && IdsInRange(v) && Correlated(v)
    requires TypesOf(comps) == key && ENTITY_ID in key && t in key
    requires forall u :: ColumnStep(v, r, key, u, p, ColumnValue(comps, u))
    ensures Cell(r, key, t, p, RowCount(v, key, ENTITY_ID, p)) == Some(ValueFor(comps, t))
  {
    assert ColumnStep(v, r, key, t, p, ColumnValue(comps, t));
    var ids := IdsOf(v, key, t);
    var chunks := StoreOf(v, t);
    assert t in v.archetypes[key] && ENTITY_ID in v.archetypes[key];
    assert |IdsOf(v, key, ENTITY_ID)| == |ids|;
    if p < |ids| {
      assert RowCount(v, key, t, p) == RowCount(v, key, ENTITY_ID, p);
      assert IdsOf(r, key, t)[p] == ids[p];
    } else {
      assert IdsOf(r, key, t) == ids + [|chunks|];
      assert StoreOf(r, t) == chunks + [[ValueFor(comps, t)]];
    }
  }

  /** After a placement a row is the placed one or was a row before. */
  lemma PlacedRowBefore(v: WorldView, r: WorldView, key: Key, comps: seq<Value>, p: nat, k: Key, q: nat, j: nat)
    requires key in v.archetypes && KeysMatch(v) && IdsInRange(v) && OwnedOnce(v) && Correlated(v)
    requires TypesOf(comps) == key && ENTITY_ID in key && FramedBy(v, r, key, key)
    requires forall u :: ColumnStep(v, r, key, u, p, ColumnValue(comps, u))
    requires IsRow(r, k, q, j) && !(k == key && q == p && j == RowCount(v, key, ENTITY_ID, p))
    ensures IsRow(v, k, q, j)
  {
    assert ColumnStep(v, r, key, ENTITY_ID, p, ColumnValue(comps, ENTITY_ID));
    assert k in v.archetypes && ENTITY_ID in v.archetypes[k];
    RowCountAfter(v, r, key, p, ColumnValue(comps, ENTITY_ID), k, ENTITY_ID, q);
    var ids := IdsOf(v, k, ENTITY_ID);
    if k == key && q == p && p >= |ids| {
      assert RowCount(v, key, ENTITY_ID, p) == 0;
    }
  }

  // ---------------------------------------------------------------------
  // One insertion

  /** The placement `add_entity` makes, with the bag normalised as intended: the view it starts from and the position it fills. */
  lemma AddEntityPlacement(v: WorldView, bag: seq<Value>, entityId: nat)
    requires WellFormed(v)
    ensures var comps := Normalise(bag, entityId);
      var key := TypesOf(comps);
      var v1 := EnsureArchetype(v, key);
      var p := OpeningOf(v1, key);
      && key in v1.archetypes && KeysMatch(v1) && IdsInRange(v1) && OwnedOnce(v1) && Correlated(v1) && ENTITY_ID in key
      && FramedBy(v1, AddEntitySpec(v, bag, entityId), key, key)
      && forall u :: ColumnStep(v1, AddEntitySpec(v, bag, entityId), key, u, p, ColumnValue(comps, u))
  {
    var comps := Normalise(bag, entityId);
    var key := TypesOf(comps);
    var v1 := EnsureArchetype(v, key);
    EnsureArchetypeKeeps(v, key);
    var p := OpeningOf(v1, key);
    forall t | t in key ensures OpensAt(StoreOf(v1, t), IdsOf(v1, key, t), p) {
      OpensTogether(v1, key, t);
    }
    InsertAllSteps(v1, key, comps, p);
  }

  /**
   * `add_entity` (with the bag normalised as intended) adds one row, the
   * normalised bag, at the position its archetype opens.
   */
  lemma AddEntityNewRow(v: WorldView, bag: seq<Value>, entityId: nat)
    requires WellFormed(v)
    ensures var comps := Normalise(bag, entityId);
      var key := TypesOf(comps);
      var v1 := EnsureArchetype(v, key);
      var p := OpeningOf(v1, key);
      var r := AddEntitySpec(v, bag, entityId);
      IsRow(r, key, p, RowCount(v1, key, ENTITY_ID, p)) && RowIs(r, key, p, RowCount(v1, key, ENTITY_ID, p), comps)
  {
    var comps := Normalise(bag, entityId);
    var key := TypesOf(comps);
    var v1 := EnsureArchetype(v, key);
    var p := OpeningOf(v1, key);
    var r := AddEntitySpec(v, bag, entityId);
    AddEntityPlacement(v, bag, entityId);
    forall t | t in key ensures Cell(r, key, t, p, RowCount(v1, key, ENTITY_ID, p)) == Some(ValueFor(comps, t)) {
      PlacedNewRow(v1, r, key, comps, p, t);
    }
  }

  /** Every other row after `add_entity` was a row before. */
  lemma AddEntityOldRows(v: WorldView, bag: seq<Value>, entityId: nat)
    requires WellFormed(v)
    ensures var comps := Normalise(bag, entityId);
      var key := TypesOf(comps);
      var v1 := EnsureArchetype(v, key);
      var p := OpeningOf(v1, key);
      var r := AddEntitySpec(v, bag, entityId);
      forall k, q, j :: IsRow(r, k, q, j) && !(k == key && q == p && j == RowCount(v1, key, ENTITY_ID, p)) ==> IsRow(v, k, q, j)
  {
    var comps := Normalise(bag, entityId);
    var key := TypesOf(comps);
    var v1 := EnsureArchetype(v, key);
    var p := OpeningOf(v1, key);
    var r := AddEntitySpec(v, bag, entityId);
    AddEntityPlacement(v, bag, entityId);
    forall k, q, j | IsRow(r, k, q, j) && !(k == key && q == p && j == RowCount(v1, key, ENTITY_ID, p))
      ensures IsRow(v, k, q, j)
    {
      PlacedRowBefore(v1, r, key, comps, p, k, q, j);
      EnsureArchetypeRow(v, key, k, q, j);
    }
  }

  /** `add_entity` changes no existing cell. */
  lemma AddEntityKeepsCells(v: WorldView, bag: seq<Value>, entityId: nat)
    requires WellFormed(v)
    ensures var r := AddEntitySpec(v, bag, entityId);
      forall k, t, q, j :: Cell(v, k, t, q, j).Some? ==> Cell(r, k, t, q, j) == Cell(v, k, t, q, j)
  {
    var comps := Normalise(bag, entityId);
    var key := TypesOf(comps);
    var v1 := EnsureArchetype(v, key);
    var p := OpeningOf(v1, key);
    var r := AddEntitySpec(v, bag, entityId);
    AddEntityPlacement(v, bag, entityId);
    forall k, t, q, j | Cell(v, k, t, q, j).Some? ensures Cell(r, k, t, q, j) == Cell(v, k, t, q, j) {
      EnsureArchetypeCell(v, key, k, t, q, j);
      PlacedCellKept(v1, r, key, comps, p, k, t, q, j);
    }
  }

  /** Creating an archetype adds no row... */
  lemma EnsureArchetypeRow(v: WorldView, key: Key, k: Key, q: nat, j: nat)
    requires IsRow(EnsureArchetype(v, key), k, q, j)
    ensures IsRow(v, k, q, j)
  {
  }

  /** ... and changes no cell. */
  lemma EnsureArchetypeCell(v: WorldView, key: Key, k: Key, t: TypeId, q: nat, j: nat)
    requires Cell(v, k, t, q, j).Some?
    ensures Cell(EnsureArchetype(v, key), k, t, q, j) == Cell(v, k, t, q, j)
  {
  }

  /** Every column of a row has its slot. */
  lemma RowCells(v: WorldView, k: Key, q: nat, j: nat, t: TypeId)
    requires WellFormed(v) && IsRow(v, k, q, j) && t in k
    ensures Cell(v, k, t, q, j).Some?
  {
    assert ENTITY_ID in v.archetypes[k] && t in v.archetypes[k];
    assert RowCount(v, k, t, q) == RowCount(v, k, ENTITY_ID, q);
  }

  // ---------------------------------------------------------------------
  // Every row is an added entity

  /** Every row of `v` is one of the bags `entities`. */
  ghost predicate RowsAmong(v: WorldView, entities: seq<seq<Value>>)
  {
    forall k, q, j :: IsRow(v, k, q, j) ==> exists i :: 0 <= i < |entities| && RowIs(v, k, q, j, entities[i])
  }

  /** The bag `comps` is a row of `v`. */
  ghost predicate Present(v: WorldView, comps: seq<Value>)
  {
    exists k, q, j :: IsRow(v, k, q, j) && RowIs(v, k, q, j, comps)
  }

  /** Each of the bags `entities` is a row of `v`. */
  ghost predicate EntitiesPresent(v: WorldView, entities: seq<seq<Value>>)
  {
    forall i {:trigger Present(v, entities[i])} :: 0 <= i < |entities| ==> Present(v, entities[i])
  }

  /** The rows of `v` are the bags `entities`: every row is one of them, and each of them is a row. */
  ghost predicate HoldsEntities(v: WorldView, entities: seq<seq<Value>>)
  {
    RowsAmong(v, entities) && EntitiesPresent(v, entities)
  }

  /** The empty world has no rows, and no entities. */
  lemma EmptyHoldsNothing()
    ensures HoldsEntities(EmptyWorld, [])
  {
  }

  /** A row that keeps all its cells keeps its place and its bag. */
  lemma RowKept(v: WorldView, r: WorldView, k: Key, q: nat, j: nat, comps: seq<Value>)
    requires k in r.archetypes && IsRow(v, k, q, j) && RowIs(v, k, q, j, comps) && ENTITY_ID in k
    requires forall t :: Cell(v, k, t, q, j).Some? ==> Cell(r, k, t, q, j) == Cell(v, k, t, q, j)
    ensures IsRow(r, k, q, j) && RowIs(r, k, q, j, comps)
  {
    assert Cell(v, k, ENTITY_ID, q, j).Some?;
  }

  /** `add_entity` (with the bag normalised as intended) adds the normalised bag to the world's entities. */
  lemma AddEntityHolds(v: WorldView, entities: seq<seq<Value>>, bag: seq<Value>, entityId: nat)
    requires WellFormed(v) && HoldsEntities(v, entities)
    requires forall i :: 0 <= i < |entities| ==> ENTITY_ID in TypesOf(entities[i])
    ensures HoldsEntities(AddEntitySpec(v, bag, entityId), entities + [Normalise(bag, entityId)])
  {
    var comps := Normalise(bag, entityId);
    var key := TypesOf(comps);
    var v1 := EnsureArchetype(v, key);
    var p := OpeningOf(v1, key);
    AddEntityNewRow(v, bag, entityId);
    AddEntityOldRows(v, bag, entityId);
    AddEntityKeepsCells(v, bag, entityId);
    AddEntityPlacesRow(v, bag, entityId);
    GrownRows(v, AddEntitySpec(v, bag, entityId), entities, comps, key, p, RowCount(v1, key, ENTITY_ID, p));
    GrownEntities(v, AddEntitySpec(v, bag, entityId), entities, comps, key, p, RowCount(v1, key, ENTITY_ID, p));
  }

  /** What one insertion does to the rows, as `AddEntityNewRow`, `AddEntityOldRows` and `AddEntityKeepsCells` state it. */
  ghost predicate GrowsBy(v: WorldView, r: WorldView, comps: seq<Value>, key: Key, p: nat, n: nat)
  {
    && v.archetypes.Keys <= r.archetypes.Keys
    && IsRow(r, key, p, n) && RowIs(r, key, p, n, comps)
    && (forall k, q, j :: IsRow(r, k, q, j) && !(k == key && q == p && j == n) ==> IsRow(v, k, q, j))
    && (forall k, t, q, j :: Cell(v, k, t, q, j).Some? ==> Cell(r, k, t, q, j) == Cell(v, k, t, q, j))
  }

  /** Every row after an insertion is the inserted bag or an earlier one. */
  lemma GrownRows(v: WorldView, r: WorldView, entities: seq<seq<Value>>, comps: seq<Value>, key: Key, p: nat, n: nat)
    requires RowsAmong(v, entities) && GrowsBy(v, r, comps, key, p, n)
    requires forall i :: 0 <= i < |entities| ==> ENTITY_ID in TypesOf(entities[i])
    ensures RowsAmong(r, entities + [comps])
  {
    var es := entities + [comps];
    forall k, q, j | IsRow(r, k, q, j) ensures exists i :: 0 <= i < |es| && RowIs(r, k, q, j, es[i]) {
      if k == key && q == p && j == n {
        assert es[|entities|] == comps;
      } else {
        var i :| 0 <= i < |entities| && RowIs(v, k, q, j, entities[i]);
        RowKept(v, r, k, q, j, entities[i]);
        assert es[i] == entities[i];
      }
    }
  }

  /** Every bag inserted so far, the last one included, is a row after an insertion. */
  lemma GrownEntities(v: WorldView, r: WorldView, entities: seq<seq<Value>>, comps: seq<Value>, key: Key, p: nat, n: nat)
    requires EntitiesPresent(v, entities) && GrowsBy(v, r, comps, key, p, n)
    requires forall i :: 0 <= i < |entities| ==> ENTITY_ID in TypesOf(entities[i])
    ensures EntitiesPresent(r, entities + [comps])
  {
    var es := entities + [comps];
    forall i | 0 <= i < |es| ensures Present(r, es[i]) {
      if i == |entities| {
        assert RowIs(r, key, p, n, es[i]);
      } else {
        assert es[i] == entities[i] && Present(v, entities[i]);
        var k, q, j :| IsRow(v, k, q, j) && RowIs(v, k, q, j, entities[i]);
        RowKept(v, r, k, q, j, entities[i]);
      }
    }
  }

  // ---------------------------------------------------------------------
  // The system on a well-formed world

  /** The matched archetypes, looked up in the order `order` names them. */
  function ArchetypesOf(v: WorldView, order: seq<Key>): (r: seq<ChunkIdMap>)
    requires forall i :: 0 <= i < |order| ==> order[i] in v.archetypes
    ensures |r| == |order| && forall i :: 0 <= i < |order| ==> r[i] == v.archetypes[order[i]]
  {
    seq(|order|, i requires 0 <= i < |order| => v.archetypes[order[i]])
  }

  /** `order` lists archetypes of `v`, each once. */
  ghost predicate Listed(v: WorldView, order: seq<Key>)
  {
    && (forall i :: 0 <= i < |order| ==> order[i] in v.archetypes)
    && (forall i, i' :: 0 <= i < i' < |order| ==> order[i] != order[i'])
  }

  /** The view with Position store `positions`: the world after the system has written it. */
  function WithPositions(v: WorldView, positions: seq<seq<Value>>): WorldView
  {
    v.(stores := v.stores[POSITION := positions])
  }

  /** The system with `offset` over the archetypes `order` names: the Position store it leaves. */
  function SystemRun(v: WorldView, order: seq<Key>, positions: seq<seq<Value>>, offset: nat): seq<seq<Value>>
    requires forall i :: 0 <= i < |order| ==> order[i] in v.archetypes
  {
    Moved(ArchetypesOf(v, order), StoreOf(v, ENTITY_ID), StoreOf(v, SPEED), positions, offset)
  }

  /**
   * The lockstep walk pairs the slots of one entity: on a well-formed world
   * the system moves the Position in each row of a matched archetype by the
   * Speed in the same row, once, whatever Position store (of the same shape)
   * it starts from.
   */
  lemma MovedRow(v: WorldView, order: seq<Key>, positions: seq<seq<Value>>, offset: nat, a: nat, q: nat, j: nat)
    requires WellFormed(v) && Listed(v, order) && SameShape(positions, StoreOf(v, POSITION))
    requires a < |order| && HasAllThree(v.archetypes[order[a]]) && IsRow(v, order[a], q, j)
    ensures var k := order[a];
      && Cell(v, k, SPEED, q, j).Some?
      && Cell(WithPositions(v, positions), k, POSITION, q, j).Some?
      && Cell(WithPositions(v, SystemRun(v, order, positions, offset)), k, POSITION, q, j)
         == Some(MoveRow(Cell(WithPositions(v, positions), k, POSITION, q, j).value, Cell(v, k, SPEED, q, j).value, offset))
  {
    var k := order[a];
    var m := v.archetypes[k];
    var archetypes := ArchetypesOf(v, order);
    var ids, speeds := StoreOf(v, ENTITY_ID), StoreOf(v, SPEED);
    RowCells(v, k, q, j, SPEED);
    RowCells(v, k, q, j, POSITION);
    RowCells(v, k, q, j, ENTITY_ID);
    var ec, sc, pc := m[ENTITY_ID][q], m[SPEED][q], m[POSITION][q];
    assert RowCount(v, k, SPEED, q) == RowCount(v, k, ENTITY_ID, q) == RowCount(v, k, POSITION, q);
    forall i, q' | 0 <= i < |archetypes| && HasAllThree(archetypes[i]) && 0 <= q' < |archetypes[i][POSITION]|
        && archetypes[i][POSITION][q'] == archetypes[a][POSITION][q]
      ensures i == a && q' == q
    {
      assert IdsOf(v, order[i], POSITION)[q'] == IdsOf(v, k, POSITION)[q];
    }
    MovedOnce(archetypes, ids, speeds, positions, offset, a, q);
    var after := SystemRun(v, order, positions, offset);
    assert StoreOf(WithPositions(v, after), POSITION) == after;
    assert StoreOf(WithPositions(v, positions), POSITION) == positions;
    assert after[pc][j] == MoveRow(positions[pc][j], speeds[sc][j], offset);
  }

  /** A row of an archetype the system does not walk keeps its Position. */
  lemma UnmatchedRowKept(v: WorldView, order: seq<Key>, positions: seq<seq<Value>>, offset: nat, k: Key, q: nat, j: nat)
    requires WellFormed(v) && Listed(v, order) && SameShape(positions, StoreOf(v, POSITION))
    requires IsRow(v, k, q, j) && POSITION in k
    requires forall i :: 0 <= i < |order| && order[i] == k ==> !HasAllThree(v.archetypes[k])
    ensures Cell(WithPositions(v, positions), k, POSITION, q, j).Some?
    ensures Cell(WithPositions(v, SystemRun(v, order, positions, offset)), k, POSITION, q, j)
         == Cell(WithPositions(v, positions), k, POSITION, q, j)
  {
    var archetypes := ArchetypesOf(v, order);
    RowCells(v, k, q, j, POSITION);
    var pc := IdsOf(v, k, POSITION)[q];
    forall i, q' | 0 <= i < |archetypes| && HasAllThree(archetypes[i]) && 0 <= q' < |archetypes[i][POSITION]|
      ensures archetypes[i][POSITION][q'] != pc
    {
      assert order[i] != k;
      assert archetypes[i][POSITION][q'] == IdsOf(v, order[i], POSITION)[q'];
    }
    SystemKeepsUnmatched(archetypes, StoreOf(v, ENTITY_ID), StoreOf(v, SPEED), positions, offset, pc);
    assert StoreOf(WithPositions(v, positions), POSITION) == positions;
  }
}
