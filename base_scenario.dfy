/**
 * The test `base` (tests/base.rs): six entities added to an empty world, then
 * `MoveSystem` run with offset 5 and with offset 2.
 *
 * The world is built by folding `add_entity` (as written) over the six bags;
 * its archetypes and rows follow from the insertion lemmas, and the two runs
 * of the system from `MovedRow` and `UnmatchedRowKept`.
 */
module BaseScenario {
  import opened Wrappers
  import opened Values
  import opened Archetype
  import opened WorldSpec
  import opened MoveSpec
  import opened EntityRows

  // ---------------------------------------------------------------------
  // Adding a list of bags

  /** The archetype a bag lands in: its types and EntityId. */
  function BagKey(bag: seq<Value>): Key
  {
    TypesOf(bag) + {ENTITY_ID}
  }

  /** Step `i` of a run: `ws[i + 1]` is `ws[i]` after `add_entity` (as written) of bag `i` with EntityId `ids[i]`. */
  ghost predicate Added(ws: seq<WorldView>, bags: seq<seq<Value>>, ids: seq<nat>, i: nat)
  {
    && i < |bags| && i < |ids| && i + 1 < |ws| && KeysMatch(ws[i])
    && ws[i + 1] == AddEntityAsWritten(ws[i], bags[i], ids[i])
  }

  /** A step depends only on the two worlds, the bag and the EntityId at its position. */
  lemma AddedAgain(ws: seq<WorldView>, bags: seq<seq<Value>>, ids: seq<nat>, ws': seq<WorldView>, bags': seq<seq<Value>>, ids': seq<nat>, i: nat)
    requires Added(ws', bags', ids', i) && i < |bags| && i < |ids| && i + 1 < |ws|
    requires ws[i] == ws'[i] && ws[i + 1] == ws'[i + 1] && bags[i] == bags'[i] && ids[i] == ids'[i]
    ensures Added(ws, bags, ids, i)
  {
  }

  /**
   * `ws` is a run of `add_entity` on the bags in turn, from the empty world:
   * `ws[i]` is the world after the first `i` additions.
   */
  ghost predicate Run(ws: seq<WorldView>, bags: seq<seq<Value>>, ids: seq<nat>)
  {
    && |ws| == |bags| + 1 && |ids| == |bags| && ws[0] == EmptyWorld
    && forall i {:trigger Added(ws, bags, ids, i)} :: 0 <= i < |bags| ==> Added(ws, bags, ids, i)
  }

  /** The run of `add_entity` on the bags in turn: every list of bags has one. */
  function Replay(bags: seq<seq<Value>>, ids: seq<nat>): (ws: seq<WorldView>)
    requires |ids| == |bags|
    ensures Run(ws, bags, ids) && KeysMatch(ws[|bags|])
    decreases |bags|
  {
    if bags == [] then [EmptyWorld]
    else
      var n := |bags| - 1;
      var p := Replay(bags[..n], ids[..n]);
      var w := AddEntityAsWritten(p[n], bags[n], ids[n]);
      AddEntityAsWrittenKeysMatch(p[n], bags[n], ids[n]);
      RunSnoc(p, bags, ids, w);
      p + [w]
  }

  /** A run extended by one more addition is a run. */
  lemma RunSnoc(p: seq<WorldView>, bags: seq<seq<Value>>, ids: seq<nat>, w: WorldView)
    requires |ids| == |bags| && bags != []
    requires var n := |bags| - 1;
      Run(p, bags[..n], ids[..n]) && KeysMatch(p[n]) && w == AddEntityAsWritten(p[n], bags[n], ids[n])
    ensures Run(p + [w], bags, ids)
  {
    var n := |bags| - 1;
    var ws := p + [w];
    forall i | 0 <= i < |bags| ensures Added(ws, bags, ids, i) {
      if i < n {
        assert Added(p, bags[..n], ids[..n], i);
        AddedAgain(ws, bags, ids, p, bags[..n], ids[..n], i);
      } else {
        assert ws[n] == p[n] && ws[n + 1] == w;
      }
    }
  }

  /** The archetypes of the first `k` bags: those of the first `k - 1`, and bag `k - 1`'s. */
  lemma BagKeysSnoc(bags: seq<seq<Value>>, k: nat)
    requires 0 < k <= |bags|
    ensures (set i | 0 <= i < k :: BagKey(bags[i])) == (set i | 0 <= i < k - 1 :: BagKey(bags[i])) + {BagKey(bags[k - 1])}
  {
  }

  /** A step adds the archetype of its bag, if new, and no other. */
  lemma AddedKeys(ws: seq<WorldView>, bags: seq<seq<Value>>, ids: seq<nat>, i: nat)
    requires Added(ws, bags, ids, i)
    ensures ws[i + 1].archetypes.Keys == ws[i].archetypes.Keys + {BagKey(bags[i])}
  {
  }

  /** After `k` additions the world's archetypes are those of the first `k` bags. */
  lemma {:induction false} RunKeys(ws: seq<WorldView>, bags: seq<seq<Value>>, ids: seq<nat>, k: nat)
    requires Run(ws, bags, ids) && k <= |bags|
    ensures ws[k].archetypes.Keys == set i | 0 <= i < k :: BagKey(bags[i])
  {
    if k > 0 {
      RunKeys(ws, bags, ids, k - 1);
      AddedKeys(ws, bags, ids, k - 1);
      BagKeysSnoc(bags, k);
    }
  }

  /** After the whole run the world's archetypes are those of the bags. */
  lemma RunKeysAll(ws: seq<WorldView>, bags: seq<seq<Value>>, ids: seq<nat>)
    requires Run(ws, bags, ids)
    ensures ws[|bags|].archetypes.Keys == set i | 0 <= i < |bags| :: BagKey(bags[i])
  {
    RunKeys(ws, bags, ids, |bags|);
  }

  /** The bags as the world stores them: each normalised, with its EntityId. */
  function NormalisedAll(bags: seq<seq<Value>>, ids: seq<nat>): (r: seq<seq<Value>>)
    requires |ids| == |bags|
    ensures |r| == |bags| && forall i :: 0 <= i < |bags| ==> r[i] == Normalise(bags[i], ids[i])
  {
    seq(|bags|, i requires 0 <= i < |bags| => Normalise(bags[i], ids[i]))
  }

  lemma NormalisedAllSnoc(bags: seq<seq<Value>>, ids: seq<nat>, k: nat)
    requires |ids| == |bags| && 0 < k <= |bags|
    ensures NormalisedAll(bags[..k], ids[..k]) == NormalisedAll(bags[..k - 1], ids[..k - 1]) + [Normalise(bags[k - 1], ids[k - 1])]
  {
    var r := NormalisedAll(bags[..k - 1], ids[..k - 1]) + [Normalise(bags[k - 1], ids[k - 1])];
    forall i | 0 <= i < k ensures NormalisedAll(bags[..k], ids[..k])[i] == r[i] {
      if i < k - 1 { assert bags[..k - 1][i] == bags[i] && ids[..k - 1][i] == ids[i]; }
    }
  }

  /**
   * In a run on bags without repeated types, the world after `k` additions
   * is well formed and its rows are exactly the first `k` bags, normalised.
   */
  lemma {:induction false} RunHolds(ws: seq<WorldView>, bags: seq<seq<Value>>, ids: seq<nat>, k: nat)
    requires Run(ws, bags, ids) && k <= |bags| && forall i :: 0 <= i < |bags| ==> DistinctTypes(bags[i])
    ensures WellFormed(ws[k]) && HoldsEntities(ws[k], NormalisedAll(bags[..k], ids[..k]))
  {
    if k == 0 {
      EmptyHoldsNothing();
      assert NormalisedAll(bags[..0], ids[..0]) == [];
    } else {
      RunHolds(ws, bags, ids, k - 1);
      assert Added(ws, bags, ids, k - 1);
      NormalisedAllSnoc(bags, ids, k);
      AddedHolds(ws[k - 1], NormalisedAll(bags[..k - 1], ids[..k - 1]), bags[k - 1], ids[k - 1], ws[k]);
    }
  }

  /** After the whole run on bags without repeated types the world is well formed and its rows are the bags, normalised. */
  lemma RunHoldsAll(ws: seq<WorldView>, bags: seq<seq<Value>>, ids: seq<nat>)
    requires Run(ws, bags, ids) && forall i :: 0 <= i < |bags| ==> DistinctTypes(bags[i])
    ensures WellFormed(ws[|bags|]) && HoldsEntities(ws[|bags|], NormalisedAll(bags, ids))
  {
    RunHolds(ws, bags, ids, |bags|);
    assert bags[..|bags|] == bags && ids[..|bags|] == ids;
  }

  /** One more bag without repeated types keeps the world well formed and adds its normalised form to the rows. */
  lemma AddedHolds(w: WorldView, entities: seq<seq<Value>>, bag: seq<Value>, entityId: nat, r: WorldView)
    requires WellFormed(w) && HoldsEntities(w, entities) && DistinctTypes(bag)
    requires forall i :: 0 <= i < |entities| ==> ENTITY_ID in TypesOf(entities[i])
    requires KeysMatch(w) && r == AddEntityAsWritten(w, bag, entityId)
    ensures WellFormed(r) && HoldsEntities(r, entities + [Normalise(bag, entityId)])
  {
    AddEntityAsWrittenPreservesWellFormed(w, bag, entityId);
    AddEntityHolds(w, entities, bag, entityId);
  }

  // ---------------------------------------------------------------------
  // The test's world

  const Origin: Value := Position(0, 0, 0)

  /** `Speed { x: i, y: 2, z: 0 }`. */
  function SpeedI(i: nat): Value
  {
    Speed(i, 2, 0)
  }

  /** The six bags the test adds, in order. */
  const BaseBags: seq<seq<Value>> := [[Origin, SpeedI(0)], [Origin, SpeedI(1)], [Origin], [Origin], [SpeedI(0)], [SpeedI(1)]]

  /** The archetypes the test creates: {EntityId, Speed, Position}, {EntityId, Position}, {EntityId, Speed}. */
  const Full: Key := {ENTITY_ID, SPEED, POSITION}
  const Still: Key := {ENTITY_ID, POSITION}
  const Drifting: Key := {ENTITY_ID, SPEED}

  lemma BaseBagsDistinct()
    ensures forall i :: 0 <= i < |BaseBags| ==> DistinctTypes(BaseBags[i])
  {
    UuidOrder();
  }

  lemma BaseBagTypes(i: nat)
    requires i < 6
    ensures BagKey(BaseBags[i]) == if i < 2 then Full else if i < 4 then Still else Drifting
  {
    var b := BaseBags[i];
    if i < 2 {
      assert TypeOf(b[0]) == POSITION && TypeOf(b[1]) == SPEED;
    } else {
      assert TypeOf(b[0]) == (if i < 4 then POSITION else SPEED);
    }
  }

  /** The six bags land in three archetypes. */
  lemma BaseBagKeys()
    ensures (set i | 0 <= i < |BaseBags| :: BagKey(BaseBags[i])) == {Full, Still, Drifting}
  {
    var keys := set i | 0 <= i < |BaseBags| :: BagKey(BaseBags[i]);
    forall k | k in keys ensures k in {Full, Still, Drifting} {
      var i :| 0 <= i < |BaseBags| && k == BagKey(BaseBags[i]);
      BaseBagTypes(i);
    }
    BaseBagTypes(0);
    BaseBagTypes(2);
    BaseBagTypes(4);
    assert Full in keys && Still in keys && Drifting in keys;
  }

  /** After the six additions of the test the world is well formed and has three archetypes. */
  lemma BaseRunShape(ws: seq<WorldView>, ids: seq<nat>)
    requires Run(ws, BaseBags, ids)
    ensures WellFormed(ws[6]) && ws[6].archetypes.Keys == {Full, Still, Drifting}
  {
    BaseBagsDistinct();
    RunHoldsAll(ws, BaseBags, ids);
    RunKeysAll(ws, BaseBags, ids);
    BaseBagKeys();
  }

  /** After the six additions of the test the world's rows are the six bags, normalised. */
  lemma BaseRunRows(ws: seq<WorldView>, ids: seq<nat>)
    requires Run(ws, BaseBags, ids)
    ensures HoldsEntities(ws[6], NormalisedAll(BaseBags, ids))
  {
    BaseBagsDistinct();
    RunHoldsAll(ws, BaseBags, ids);
  }

  /**
   * A row of the test's world as the test builds it: rows of
   * {EntityId, Speed, Position} and of {EntityId, Position} are at the
   * origin, and rows of {EntityId, Speed, Position} hold a Speed.
   */
  ghost predicate StartRow(w: WorldView, k: Key, q: nat, j: nat)
  {
    && (k == Full || k == Still ==> Cell(w, k, POSITION, q, j) == Some(Origin))
    && (k == Full ==> Cell(w, k, SPEED, q, j).Some? && Cell(w, k, SPEED, q, j).value.Speed?)
  }

  /** What the test relies on after the six additions: a well-formed world with three archetypes whose rows are as built. */
  ghost predicate BaseFacts(w: WorldView)
  {
    && WellFormed(w) && w.archetypes.Keys == {Full, Still, Drifting}
    && forall k, q, j {:trigger IsRow(w, k, q, j)} :: IsRow(w, k, q, j) ==> StartRow(w, k, q, j)
  }

  /** The six additions of the test leave a world with those facts. */
  lemma BaseRunFacts(ws: seq<WorldView>, ids: seq<nat>)
    requires Run(ws, BaseBags, ids)
    ensures BaseFacts(ws[6])
  {
    BaseRunShape(ws, ids);
    BaseRunRows(ws, ids);
    StartRows(ws[6], ids);
  }

  /** Every row of a world holding the six normalised bags is as built. */
  lemma StartRows(w: WorldView, ids: seq<nat>)
    requires |ids| == 6 && RowsAmong(w, NormalisedAll(BaseBags, ids))
    ensures forall k, q, j {:trigger IsRow(w, k, q, j)} :: IsRow(w, k, q, j) ==> StartRow(w, k, q, j)
  {
    forall k, q, j | IsRow(w, k, q, j) ensures StartRow(w, k, q, j) {
      RowStart(w, ids, k, q, j);
    }
  }

  lemma RowStart(w: WorldView, ids: seq<nat>, k: Key, q: nat, j: nat)
    requires |ids| == 6 && RowsAmong(w, NormalisedAll(BaseBags, ids)) && IsRow(w, k, q, j)
    ensures StartRow(w, k, q, j)
  {
    var i := BaseRow(w, ids, k, q, j);
    KeysDiffer();
    BaseBagValues(ids, i);
    var comps := Normalise(BaseBags[i], ids[i]);
    if k == Full {
      assert Cell(w, k, SPEED, q, j) == Some(ValueFor(comps, SPEED));
      assert ValueFor(comps, SPEED) == SpeedI(i);
    }
  }

  /** The query `has::<Speed> && has::<Position>` matches the archetype {EntityId, Speed, Position} and no other. */
  lemma BaseQuery(w: WorldView)
    requires BaseFacts(w)
    ensures forall k :: k in w.archetypes && Moves(w.archetypes[k]) <==> k == Full
  {
    UuidOrder();
    assert w.archetypes[Full].Keys == Full;
    assert w.archetypes[Still].Keys == Still && SPEED !in Still;
    assert w.archetypes[Drifting].Keys == Drifting && POSITION !in Drifting;
  }

  // ---------------------------------------------------------------------
  // The rows and the two runs

  /** A row of the test's world is one of the six bags, normalised. */
  lemma BaseRow(w: WorldView, ids: seq<nat>, k: Key, q: nat, j: nat) returns (i: nat)
    requires |ids| == 6 && RowsAmong(w, NormalisedAll(BaseBags, ids)) && IsRow(w, k, q, j)
    ensures i < 6 && RowIs(w, k, q, j, Normalise(BaseBags[i], ids[i]))
    ensures k == if i < 2 then Full else if i < 4 then Still else Drifting
  {
    var entities := NormalisedAll(BaseBags, ids);
    i :| 0 <= i < |entities| && RowIs(w, k, q, j, entities[i]);
    BaseBagTypes(i);
  }

  /** A bag of a Position and a Speed keeps both. */
  lemma PairValues(a: Value, b: Value, entityId: nat)
    requires a.Position? && b.Speed?
    ensures var comps := Normalise([a, b], entityId);
      && POSITION in TypesOf(comps) && ValueFor(comps, POSITION) == a
      && SPEED in TypesOf(comps) && ValueFor(comps, SPEED) == b
  {
    UuidOrder();
    var bag := [a, b];
    assert TypesOf(bag[..0]) == {};
    assert bag[..1] == [a];
    assert TypeOf([a][0]) == POSITION;
    assert TypesOf(bag) == {POSITION, SPEED} by {
      assert TypeOf(bag[0]) == POSITION && TypeOf(bag[1]) == SPEED;
    }
    assert FirstOfType(bag, 0) && FirstOfType(bag, 1);
  }

  /** A bag of one user value keeps it. */
  lemma SingleValue(a: Value, entityId: nat)
    requires TypeOf(a) != ENTITY_ID
    ensures var comps := Normalise([a], entityId);
      TypeOf(a) in TypesOf(comps) && ValueFor(comps, TypeOf(a)) == a
  {
    var bag := [a];
    assert TypesOf(bag[..0]) == {};
    assert TypeOf(bag[0]) == TypeOf(a);
    assert FirstOfType(bag, 0);
  }

  /** The Speed and Position of the bag `i`, normalised. */
  lemma BaseBagValues(ids: seq<nat>, i: nat)
    requires |ids| == 6 && i < 6
    ensures var comps := Normalise(BaseBags[i], ids[i]);
      && (i < 4 ==> POSITION in TypesOf(comps) && ValueFor(comps, POSITION) == Origin)
      && (i < 2 || 4 <= i ==> SPEED in TypesOf(comps) && ValueFor(comps, SPEED) == SpeedI(if i < 2 then i else i - 4))
  {
    UuidOrder();
    if i == 0 {
      PairValues(Origin, SpeedI(0), ids[i]);
    } else if i == 1 {
      PairValues(Origin, SpeedI(1), ids[i]);
    } else if i == 2 || i == 3 {
      SingleValue(Origin, ids[i]);
    } else if i == 4 {
      SingleValue(SpeedI(0), ids[i]);
    } else {
      SingleValue(SpeedI(1), ids[i]);
    }
  }

  /** The Position store after both runs of the system, offset 5 first: the query matches `[Full]` each time. */
  function TwoRuns(w: WorldView): seq<seq<Value>>
    requires Full in w.archetypes
  {
    var first := SystemRun(w, [Full], StoreOf(w, POSITION), 5);
    SystemRun(w, [Full], first, 2)
  }

  /**
   * Each entity with a Speed and a Position ends at (2 sx + 7, 2 sy + 7,
   * 2 sz + 7) for its own Speed (sx, sy, sz): moved from the origin by
   * Speed + 5, then by Speed + 2.
   */
  lemma BaseMovesFull(w: WorldView, q: nat, j: nat) returns (s: Value)
    requires BaseFacts(w) && IsRow(w, Full, q, j)
    ensures Cell(w, Full, SPEED, q, j) == Some(s) && s.Speed?
    ensures Cell(WithPositions(w, TwoRuns(w)), Full, POSITION, q, j) == Some(Position(2 * s.x + 7, 2 * s.y + 7, 2 * s.z + 7))
  {
    assert StartRow(w, Full, q, j);
    s := Cell(w, Full, SPEED, q, j).value;
    MovesFromOrigin(w, q, j, s);
  }

  /** A row of {EntityId, Speed, Position} at the origin ends at twice its Speed plus 7. */
  lemma MovesFromOrigin(w: WorldView, q: nat, j: nat, s: Value)
    requires WellFormed(w) && Full in w.archetypes && IsRow(w, Full, q, j) && s.Speed?
    requires Cell(w, Full, POSITION, q, j) == Some(Origin) && Cell(w, Full, SPEED, q, j) == Some(s)
    ensures Cell(WithPositions(w, TwoRuns(w)), Full, POSITION, q, j) == Some(Position(2 * s.x + 7, 2 * s.y + 7, 2 * s.z + 7))
  {
    TwoRunsRow(w, q, j, Origin, s);
    TwiceFromOrigin(s);
  }

  /** The three archetypes of the test are different sets of types. */
  lemma KeysDiffer()
    ensures Full != Still && Full != Drifting && Still != Drifting
  {
    UuidOrder();
    assert SPEED in Full && SPEED !in Still && POSITION !in Drifting;
  }

  /** Through both runs a row of {EntityId, Speed, Position} moves by its Speed + 5, then by its Speed + 2. */
  lemma TwoRunsRow(w: WorldView, q: nat, j: nat, p: Value, s: Value)
    requires WellFormed(w) && Full in w.archetypes && IsRow(w, Full, q, j)
    requires Cell(w, Full, POSITION, q, j) == Some(p) && Cell(w, Full, SPEED, q, j) == Some(s)
    ensures Cell(WithPositions(w, TwoRuns(w)), Full, POSITION, q, j) == Some(MoveRow(MoveRow(p, s, 5), s, 2))
  {
    assert HasAllThree(w.archetypes[Full]) by {
      UuidOrder();
      assert w.archetypes[Full].Keys == Full;
    }
    var p0 := StoreOf(w, POSITION);
    KeptPositions(w);
    var first := SystemRun(w, [Full], p0, 5);
    MovedRow(w, [Full], p0, 5, 0, q, j);
    assert SameShape(first, p0);
    MovedRow(w, [Full], first, 2, 0, q, j);
  }

  /** From the origin, moving by Speed + 5 and then by Speed + 2 lands at twice the Speed plus 7. */
  lemma TwiceFromOrigin(s: Value)
    requires s.Speed?
    ensures MoveRow(MoveRow(Origin, s, 5), s, 2) == Position(2 * s.x + 7, 2 * s.y + 7, 2 * s.z + 7)
  {
  }

  /** Writing back the Position store a well-formed world already has changes nothing. */
  lemma KeptPositions(w: WorldView)
    requires WellFormed(w) && Full in w.archetypes
    ensures WithPositions(w, StoreOf(w, POSITION)) == w
  {
    assert POSITION in Full;
  }

  /** The two rows with a Speed and a Position, one per bag: every such entity is moved. */
  lemma BaseFullRows(ws: seq<WorldView>, ids: seq<nat>, i: nat) returns (q: nat, j: nat)
    requires Run(ws, BaseBags, ids) && i < 2
    ensures IsRow(ws[6], Full, q, j)
    ensures Cell(ws[6], Full, SPEED, q, j) == Some(SpeedI(i))
  {
    BaseRunRows(ws, ids);
    var w := ws[6];
    BaseBagValues(ids, i);
    BaseBagTypes(i);
    var entities := NormalisedAll(BaseBags, ids);
    assert Present(w, entities[i]);
    var k: Key;
    k, q, j :| IsRow(w, k, q, j) && RowIs(w, k, q, j, entities[i]);
    var comps := Normalise(BaseBags[i], ids[i]);
    assert entities[i] == comps && k == Full && SPEED in k;
    assert Cell(w, Full, SPEED, q, j) == Some(ValueFor(comps, SPEED));
    assert ValueFor(comps, SPEED) == SpeedI(i);
  }

  /** Entities with a Position and no Speed stay at the origin through both runs. */
  lemma BaseKeepsStill(w: WorldView, q: nat, j: nat)
    requires BaseFacts(w) && IsRow(w, Still, q, j)
    ensures Cell(w, Still, POSITION, q, j) == Some(Origin)
    ensures Cell(WithPositions(w, TwoRuns(w)), Still, POSITION, q, j) == Some(Origin)
  {
    assert StartRow(w, Still, q, j);
    KeysDiffer();
    TwoRunsKeep(w, Still, q, j);
  }

  /** Through both runs a row of an archetype other than {EntityId, Speed, Position} keeps its Position. */
  lemma TwoRunsKeep(w: WorldView, k: Key, q: nat, j: nat)
    requires WellFormed(w) && Full in w.archetypes && IsRow(w, k, q, j) && POSITION in k && k != Full
    ensures Cell(WithPositions(w, TwoRuns(w)), k, POSITION, q, j) == Cell(w, k, POSITION, q, j)
  {
    var p0 := StoreOf(w, POSITION);
    KeptPositions(w);
    var first := SystemRun(w, [Full], p0, 5);
    UnmatchedRowKept(w, [Full], p0, 5, k, q, j);
    UnmatchedRowKept(w, [Full], first, 2, k, q, j);
  }
}
