/**
 * The test system of the single-chunk prototype: `move_system_prepare`
 * borrows the Speed and Position vectors of the chunk, `move_system` walks
 * them pairwise, and the `base` scenario runs both on a chunk with one
 * entity.
 *
 * In `move_system` the zipped pair is bound in swapped order: the name
 * `position` holds the Speed and `speed` the Position, so each Speed gains
 * its Position and the Positions stay where they are. `MoveSystem` models
 * that code; `MoveSystemIntended` is the evident intent, Position += Speed,
 * which is what the archetype storage's own test system does.
 */
module PrototypeMove {
  import opened Wrappers
  import opened Values
  import opened Prototype
  import MoveSpec

  /**
   * `MoveSystemProps`: the two borrowed slices are the Speed and Position
   * vectors of `chunk`, which the system writes through.
   */
  datatype MoveSystemProps = MoveSystemProps(chunk: Chunk, counter: nat)

  /** The chunk has both vectors the system borrows. */
  predicate Borrowable(chunk: Chunk)
    reads chunk`components
  {
    SPEED in chunk.components && POSITION in chunk.components
  }

  /**
   * `move_system_prepare`: `Some` with `counter` 10 exactly when
   * `get::<(&mut Speed, &mut Position)>` finds both vectors.
   */
  method MoveSystemPrepare(chunk: Chunk) returns (props: Option<MoveSystemProps>)
    requires chunk.Valid()
    ensures props.Some? <==> Borrowable(chunk)
    ensures props.Some? ==> props.value == MoveSystemProps(chunk, 10)
  {
    UuidOrder();
    var borrowed := chunk.Get(SPEED, POSITION);
    if borrowed.None? {
      return None;
    }
    return Some(MoveSystemProps(chunk, 10));
  }

  /** The loop body as written: the Speed gains the Position's fields. */
  function Gain(speed: Value, position: Value): Value
  {
    match (speed, position)
    case (Speed(sx, sy, sz), Position(px, py, pz)) => Speed(sx + px, sy + py, sz + pz)
    case _ => speed
  }

  /** The loop body as intended: the Position moves by the Speed. */
  function Advance(position: Value, speed: Value): Value
  {
    match (position, speed)
    case (Position(px, py, pz), Speed(sx, sy, sz)) => Position(px + sx, py + sy, pz + sz)
    case _ => position
  }

  /** The Speed vector after the loop as written: the pairs of `zip` change, the rest stays. */
  function Gained(speeds: seq<Value>, positions: seq<Value>): seq<Value>
  {
    seq(|speeds|, i requires 0 <= i < |speeds| => if i < |positions| then Gain(speeds[i], positions[i]) else speeds[i])
  }

  /** The Position vector after the intended loop. */
  function Advanced(positions: seq<Value>, speeds: seq<Value>): seq<Value>
  {
    seq(|positions|, i requires 0 <= i < |positions| => if i < |speeds| then Advance(positions[i], speeds[i]) else positions[i])
  }

  /** No `+=` of the loop as written overflows u32 (the source panics if one does). */
  ghost predicate GainsFit(speeds: seq<Value>, positions: seq<Value>)
  {
    forall i :: 0 <= i < |speeds| && i < |positions| ==> FitsU32(Gain(speeds[i], positions[i]))
  }

  ghost predicate AdvancesFit(positions: seq<Value>, speeds: seq<Value>)
  {
    forall i :: 0 <= i < |positions| && i < |speeds| ==> FitsU32(Advance(positions[i], speeds[i]))
  }

  /** The chunk's map with the vector under `t` replaced by `values`. */
  function WithVector(m: map<TypeId, ComponentsInfo>, t: TypeId, values: seq<Value>): map<TypeId, ComponentsInfo>
    requires t in m
  {
    m[t := ComponentsInfo(m[t].required, values)]
  }

  /**
   * `move_system` as written: over the pairs of `zip`, each Speed gains its
   * Position; the Position vector and every other vector stay as they were.
   */
  method MoveSystem(props: MoveSystemProps)
    requires Borrowable(props.chunk)
    requires GainsFit(props.chunk.components[SPEED].components, props.chunk.components[POSITION].components)
    modifies props.chunk`components
    ensures Borrowable(props.chunk)
    ensures props.chunk.components == WithVector(old(props.chunk.components), SPEED,
      Gained(old(props.chunk.components[SPEED].components), old(props.chunk.components[POSITION].components)))
  {
    var chunk := props.chunk;
    UuidOrder();
    ghost var start := chunk.components;
    ghost var speeds := start[SPEED].components;
    ghost var positions := start[POSITION].components;
    var speedCount, positionCount := |chunk.components[SPEED].components|, |chunk.components[POSITION].components|;
    var n := if speedCount <= positionCount then speedCount else positionCount;
    for i := 0 to n
      invariant SPEED in chunk.components && chunk.components == WithVector(start, SPEED, chunk.components[SPEED].components)
      invariant |chunk.components[SPEED].components| == |speeds|
      invariant forall j :: 0 <= j < |speeds| ==>
        chunk.components[SPEED].components[j] == if j < i then Gain(speeds[j], positions[j]) else speeds[j]
    {
      var info := chunk.components[SPEED];
      var next := Gain(info.components[i], chunk.components[POSITION].components[i]);
      assert FitsU32(next);
      chunk.components := chunk.components[SPEED := ComponentsInfo(info.required, info.components[i := next])];
    }
    assert chunk.components[SPEED].components == Gained(speeds, positions);
  }

  /** The corrected `move_system`: over the pairs of `zip`, each Position moves by its Speed; the Speeds stay. */
  method MoveSystemIntended(props: MoveSystemProps)
    requires Borrowable(props.chunk)
    requires AdvancesFit(props.chunk.components[POSITION].components, props.chunk.components[SPEED].components)
    modifies props.chunk`components
    ensures Borrowable(props.chunk)
    ensures props.chunk.components == WithVector(old(props.chunk.components), POSITION,
      Advanced(old(props.chunk.components[POSITION].components), old(props.chunk.components[SPEED].components)))
  {
    var chunk := props.chunk;
    UuidOrder();
    ghost var start := chunk.components;
    ghost var positions := start[POSITION].components;
    ghost var speeds := start[SPEED].components;
    var positionCount, speedCount := |chunk.components[POSITION].components|, |chunk.components[SPEED].components|;
    var n := if positionCount <= speedCount then positionCount else speedCount;
    for i := 0 to n
      invariant POSITION in chunk.components && chunk.components == WithVector(start, POSITION, chunk.components[POSITION].components)
      invariant |chunk.components[POSITION].components| == |positions|
      invariant forall j :: 0 <= j < |positions| ==>
        chunk.components[POSITION].components[j] == if j < i then Advance(positions[j], speeds[j]) else positions[j]
    {
      var info := chunk.components[POSITION];
      var next := Advance(info.components[i], chunk.components[SPEED].components[i]);
      assert FitsU32(next);
      chunk.components := chunk.components[POSITION := ComponentsInfo(info.required, info.components[i := next])];
    }
    assert chunk.components[POSITION].components == Advanced(positions, speeds);
  }

  /**
   * The written loop and the intended one part ways on every pair whose
   * Speed is not zero: the Position the intended loop moves is left where
   * it is, and the Speed changes whenever the Position is not at the origin.
   */
  lemma SwappedBinding(speeds: seq<Value>, positions: seq<Value>, i: nat)
    requires i < |speeds| && i < |positions|
    requires speeds[i].Speed? && positions[i].Position?
    ensures Advanced(positions, speeds)[i] == positions[i] <==> speeds[i] == Speed(0, 0, 0)
    ensures Gained(speeds, positions)[i] == speeds[i] <==> positions[i] == Position(0, 0, 0)
  {
  }

  /**
   * The corrected loop is the archetype storage's rows loop with no offset:
   * every Position that has a Speed beside it moves by it.
   */
  lemma {:induction false} AdvancedIsRowsLoop(ids: seq<Value>, speeds: seq<Value>, positions: seq<Value>)
    requires |ids| >= |positions|
    ensures Advanced(positions, speeds) == MoveSpec.MoveChunk(ids, speeds, positions, 0)
  {
    var r := MoveSpec.MoveChunk(ids, speeds, positions, 0);
    forall j | 0 <= j < |positions|
      ensures Advanced(positions, speeds)[j] == r[j]
    {
      if j < |speeds| {
        assert r[j] == MoveSpec.MoveRow(positions[j], speeds[j], 0);
      }
    }
  }

  /** Three empty vectors, keyed by their own types. */
  function Registry3(s: TypeId, p: TypeId, e: TypeId): map<TypeId, ComponentsInfo>
  {
    map[s := ComponentsInfo(s, []), p := ComponentsInfo(p, []), e := ComponentsInfo(e, [])]
  }

  /** `build` registering `s` and `p`, then EntityId `e`, gives three empty vectors. */
  lemma Built3(s: TypeId, p: TypeId, e: TypeId)
    requires s != p && s != e && p != e
    ensures Register(RegisterAll(map[], [s, p]), e) == Registry3(s, p, e)
  {
    var m1 := Register(map[], s);
    var m2 := Register(m1, p);
    assert [s, p][1..] == [p] && [p][1..] == [];
    assert RegisterAll(map[], [s, p]) == RegisterAll(m1, [p]) == RegisterAll(m2, []) == m2;
    assert m1 == map[s := ComponentsInfo(s, [])];
    assert m2 == map[s := ComponentsInfo(s, []), p := ComponentsInfo(p, [])];
  }

  /** Positions at the origin give the Speeds nothing. */
  lemma GainedAtOrigin(speeds: seq<Value>, positions: seq<Value>)
    requires forall i :: 0 <= i < |positions| ==> positions[i] == Position(0, 0, 0)
    ensures Gained(speeds, positions) == speeds
    ensures (forall i :: 0 <= i < |speeds| ==> FitsU32(speeds[i])) ==> GainsFit(speeds, positions)
  {
    var r := Gained(speeds, positions);
    forall i | 0 <= i < |speeds|
      ensures r[i] == speeds[i]
    {
    }
  }

  /** The components two entries list under `t`. */
  lemma TwoEntries(es: seq<Entry>, t: TypeId)
    requires |es| == 2
    ensures ValuesFor(es, t) ==
      (if es[0].typeId == t then [es[0].component] else []) + (if es[1].typeId == t then [es[1].component] else [])
  {
    var first := es[..1];
    assert first[..|first| - 1] == [] && first[|first| - 1] == es[0];
    assert ValuesFor(first, t) == (if es[0].typeId == t then [es[0].component] else []);
    assert es[..|es| - 1] == first;
  }

  /** The three vectors after one entity with `sv` and `pv`, whose EntityId is `freshId`. */
  function Filled3(s: TypeId, p: TypeId, e: TypeId, sv: Value, pv: Value, freshId: nat): map<TypeId, ComponentsInfo>
  {
    map[s := ComponentsInfo(s, [sv]), p := ComponentsInfo(p, [pv]), e := ComponentsInfo(e, [EntityId(freshId)])]
  }

  lemma Registry3Typed(s: TypeId, p: TypeId, e: TypeId)
    ensures Typed(Registry3(s, p, e))
  {
  }

  /** One vector after a successful `add`: its values from the bag, and the EntityId for EntityId's. */
  lemma AddedColumn(m: map<TypeId, ComponentsInfo>, es: seq<Entry>, freshId: nat, t: TypeId, added: seq<Value>)
    requires Typed(m) && AddSpec(m, es, freshId).result.Ok? && t in m
    requires added == m[t].components + ValuesFor(es, t) + (if t == ENTITY_ID then [EntityId(freshId)] else [])
    ensures t in AddSpec(m, es, freshId).components
    ensures AddSpec(m, es, freshId).components[t] == ComponentsInfo(t, added)
  {
    AddKeepsTyped(m, es, freshId);
    AddContents(m, es, freshId);
  }

  /** `add` of one entity with a component of `s` and one of `p` fills one row of each of the three vectors. */
  lemma Added3(s: TypeId, p: TypeId, e: TypeId, sv: Value, pv: Value, freshId: nat)
    requires s != p && s != e && p != e && e == ENTITY_ID
    requires TypeOf(sv) == s && TypeOf(pv) == p
    ensures AddSpec(Registry3(s, p, e), [Entry(s, sv), Entry(p, pv)], freshId) == Added(Ok(freshId), Filled3(s, p, e, sv, pv, freshId))
  {
    var m := Registry3(s, p, e);
    var es := [Entry(s, sv), Entry(p, pv)];
    Registry3Typed(s, p, e);
    AddSucceeds(m, es, freshId);
    Added3Components(s, p, e, sv, pv, freshId);
  }

  lemma Added3Components(s: TypeId, p: TypeId, e: TypeId, sv: Value, pv: Value, freshId: nat)
    requires s != p && s != e && p != e && e == ENTITY_ID
    requires TypeOf(sv) == s && TypeOf(pv) == p
    requires AddSpec(Registry3(s, p, e), [Entry(s, sv), Entry(p, pv)], freshId).result.Ok?
    ensures AddSpec(Registry3(s, p, e), [Entry(s, sv), Entry(p, pv)], freshId).components == Filled3(s, p, e, sv, pv, freshId)
  {
    var es := [Entry(s, sv), Entry(p, pv)];
    TwoEntries(es, s);
    TwoEntries(es, p);
    TwoEntries(es, e);
    FilledColumns(es, s, p, e, sv, pv, freshId);
  }

  /** A successful `add` on the three empty vectors of a bag holding one `s` value and one `p` value. */
  lemma FilledColumns(es: seq<Entry>, s: TypeId, p: TypeId, e: TypeId, sv: Value, pv: Value, freshId: nat)
    requires s != p && s != e && p != e && e == ENTITY_ID
    requires AddSpec(Registry3(s, p, e), es, freshId).result.Ok?
    requires ValuesFor(es, s) == [sv] && ValuesFor(es, p) == [pv] && ValuesFor(es, e) == []
    ensures AddSpec(Registry3(s, p, e), es, freshId).components == Filled3(s, p, e, sv, pv, freshId)
  {
    var m := Registry3(s, p, e);
    Registry3Typed(s, p, e);
    AddedColumn(m, es, freshId, s, [sv]);
    AddedColumn(m, es, freshId, p, [pv]);
    AddedColumn(m, es, freshId, e, [EntityId(freshId)]);
    AddContents(m, es, freshId);
    ThreeEntries(AddSpec(m, es, freshId).components, s, p, e,
                 ComponentsInfo(s, [sv]), ComponentsInfo(p, [pv]), ComponentsInfo(e, [EntityId(freshId)]));
  }

  /** A map over three keys is determined by its three entries. */
  lemma ThreeEntries(a: map<TypeId, ComponentsInfo>, s: TypeId, p: TypeId, e: TypeId, x: ComponentsInfo, y: ComponentsInfo, z: ComponentsInfo)
    requires a.Keys == {s, p, e} && a[s] == x && a[p] == y && a[e] == z
    ensures a == map[s := x, p := y, e := z]
  {
  }

  /**
   * The `base` test up to `call_system`: a chunk built with Speed and
   * Position (and EntityId), and one entity added with Speed (1, 2, 0) and
   * Position (0, 0, 0); both `unwrap`s succeed.
   */
  method BaseChunk(freshId: nat) returns (chunk: Chunk)
    ensures fresh(chunk) && chunk.Valid()
    ensures chunk.components == Filled3(SPEED, POSITION, ENTITY_ID, Speed(1, 2, 0), Position(0, 0, 0), freshId)
  {
    var built := Build([SPEED, POSITION], None);
    chunk := built.value;
    UuidOrder();
    Built3(SPEED, POSITION, ENTITY_ID);
    Added3(SPEED, POSITION, ENTITY_ID, Speed(1, 2, 0), Position(0, 0, 0), freshId);
    var added := chunk.Add([Entry(SPEED, Speed(1, 2, 0)), Entry(POSITION, Position(0, 0, 0))], freshId);
  }

  /**
   * The `base` test: the chunk above, then the system run through
   * `call_system`. The Position is not moved: the system leaves the chunk
   * exactly as `add` left it.
   */
  method BaseScenario(freshId: nat) returns (chunk: Chunk)
    ensures chunk.components == Filled3(SPEED, POSITION, ENTITY_ID, Speed(1, 2, 0), Position(0, 0, 0), freshId)
  {
    chunk := BaseChunk(freshId);
    ghost var filled := chunk.components;
    UuidOrder();
    var props := MoveSystemPrepare(chunk);
    assert filled[SPEED].components == [Speed(1, 2, 0)] && filled[POSITION].components == [Position(0, 0, 0)];
    GainedAtOrigin(filled[SPEED].components, filled[POSITION].components);
    MoveSystem(props.value);
    assert filled[SPEED := ComponentsInfo(filled[SPEED].required, filled[SPEED].components)] == filled;
  }
}
