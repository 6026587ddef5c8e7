/**
 * What the test `MoveSystem` does to the Position store, as values.
 *
 * The system walks its archetypes in order; for each archetype that lists
 * chunks for EntityId, Speed and Position it walks the three chunk-id lists
 * in lockstep (a *visit* per position, stopping at the shortest list), and
 * for each visit whose three chunks exist it moves the rows the three chunks
 * have in common: Position += Speed + offset, field by field.
 */
module MoveSpec {
  import opened Values
  import opened Archetype
  import opened Access

  /** The query's filter: `has::<Speed>` and `has::<Position>`. */
  predicate Moves(m: ChunkIdMap)
  {
    SPEED in m && POSITION in m
  }

  /** The tuple `(&EntityId, &mut Position, &Speed)` the query asks `get` for. */
  const Requested: seq<Request> := [Request(ENTITY_ID, Shared), Request(POSITION, Exclusive), Request(SPEED, Shared)]

  /** The three identities of the tuple are distinct. */
  lemma RequestedDistinct()
    ensures Distinct(Uuids(Requested))
  {
    UuidOrder();
  }

  /**
   * The guards of the tuple are taken EntityId, Speed, Position: ascending
   * identities, not the tuple's order.
   */
  lemma RequestedOrder()
    ensures SortAsc(Uuids(Requested)) == [ENTITY_ID, SPEED, POSITION]
  {
    assert Uuids(Requested) == [ENTITY_ID, POSITION, SPEED];
    UuidOrder();
    SortThree(ENTITY_ID, POSITION, SPEED);
  }

  /** Sorting `[e, p, s]` with `e < s < p`, one insertion at a time. */
  lemma SortThree(e: TypeId, p: TypeId, s: TypeId)
    requires e < s < p
    ensures SortAsc([e, p, s]) == [e, s, p]
  {
    SortTwo(p, s);
    assert [e, p, s][1..] == [p, s];
    InsertLeast(e, [s, p]);
  }

  lemma SortTwo(p: TypeId, s: TypeId)
    requires s < p
    ensures SortAsc([p, s]) == [s, p]
  {
    assert [p, s][1..] == [s] && [s][1..] == [];
    assert SortAsc([s]) == [s];
    InsertLeast(p, []);
    assert [s][1..] == [];
  }

  /** An identity not above the head of an ascending list goes in front. */
  lemma InsertLeast(x: TypeId, s: seq<TypeId>)
    requires Ascending(s) && (s == [] || x <= s[0])
    ensures Insert(x, s) == [x] + s
  {
  }

  /** The chunk ids at one position of an archetype's three lists. */
  datatype Visit = Visit(entityChunk: nat, speedChunk: nat, positionChunk: nat)

  function Min3(a: nat, b: nat, c: nat): nat
  {
    if a <= b && a <= c then a else if b <= c then b else c
  }

  /** `izip!` of three chunk-id lists: one visit per position of the shortest. */
  function Zip3(es: seq<nat>, ss: seq<nat>, ps: seq<nat>): (r: seq<Visit>)
    ensures |r| == Min3(|es|, |ss|, |ps|)
    ensures forall q :: 0 <= q < |r| ==> r[q] == Visit(es[q], ss[q], ps[q])
  {
    if es == [] || ss == [] || ps == [] then []
    else [Visit(es[0], ss[0], ps[0])] + Zip3(es[1..], ss[1..], ps[1..])
  }

  /** The archetype lists chunks for all three types the system reads. */
  predicate HasAllThree(m: ChunkIdMap)
  {
    ENTITY_ID in m && SPEED in m && POSITION in m
  }

  /** The visits of one archetype: none when one of its three lists is missing. */
  function VisitsOf(m: ChunkIdMap): seq<Visit>
  {
    if HasAllThree(m) then Zip3(m[ENTITY_ID], m[SPEED], m[POSITION]) else []
  }

  /** The visits of a list of archetypes, in order. */
  function Visits(archetypes: seq<ChunkIdMap>): (vs: seq<Visit>)
    ensures forall v :: v in vs ==>
      exists i :: 0 <= i < |archetypes| && HasAllThree(archetypes[i]) && v.positionChunk in archetypes[i][POSITION]
  {
    if archetypes == [] then []
    else
      var rest := Visits(archetypes[1..]);
      forall v | v in rest
        ensures exists i :: 0 <= i < |archetypes| && HasAllThree(archetypes[i]) && v.positionChunk in archetypes[i][POSITION]
      {
        var i :| 0 <= i < |archetypes| - 1 && HasAllThree(archetypes[1..][i]) && v.positionChunk in archetypes[1..][i][POSITION];
        assert archetypes[1..][i] == archetypes[i + 1];
      }
      forall v | v in VisitsOf(archetypes[0])
        ensures HasAllThree(archetypes[0]) && v.positionChunk in archetypes[0][POSITION]
      {
        var q :| 0 <= q < |VisitsOf(archetypes[0])| && VisitsOf(archetypes[0])[q] == v;
      }
      VisitsOf(archetypes[0]) + rest
  }

  /** One row: Position gains Speed plus the offset on each field. */
  function MoveRow(position: Value, speed: Value, offset: nat): (r: Value)
    ensures r.Position? <==> position.Position?
    ensures !speed.Speed? ==> r == position
  {
    match (position, speed)
    case (Position(px, py, pz), Speed(sx, sy, sz)) => Position(px + (sx + offset), py + (sy + offset), pz + (sz + offset))
    case _ => position
  }

  /** The rows loop of one visit: each row the three chunks have in common moves; the rest of the Position chunk stays. */
  function MoveChunk(ids: seq<Value>, speeds: seq<Value>, positions: seq<Value>, offset: nat): (r: seq<Value>)
    ensures |r| == |positions|
  {
    seq(|positions|, j requires 0 <= j < |positions| =>
      if j < |ids| && j < |speeds| then MoveRow(positions[j], speeds[j], offset) else positions[j])
  }

  /** The Position store contents `p` keep the shape (chunk count and lengths) of `q`. */
  ghost predicate SameShape(p: seq<seq<Value>>, q: seq<seq<Value>>)
  {
    |p| == |q| && forall i :: 0 <= i < |p| ==> |p[i]| == |q[i]|
  }

  /**
   * One visit over the EntityId, Speed and Position stores `ids`, `speeds`,
   * `positions`: skipped when one of its chunks is out of range.
   */
  function Step(ids: seq<seq<Value>>, speeds: seq<seq<Value>>, positions: seq<seq<Value>>, v: Visit, offset: nat): (r: seq<seq<Value>>)
    ensures SameShape(r, positions)
  {
    if v.entityChunk < |ids| && v.speedChunk < |speeds| && v.positionChunk < |positions|
    then positions[v.positionChunk := MoveChunk(ids[v.entityChunk], speeds[v.speedChunk], positions[v.positionChunk], offset)]
    else positions
  }

  /** The visits `vs`, in order. */
  function Apply(ids: seq<seq<Value>>, speeds: seq<seq<Value>>, positions: seq<seq<Value>>, vs: seq<Visit>, offset: nat): (r: seq<seq<Value>>)
    ensures SameShape(r, positions)
    decreases |vs|
  {
    if vs == [] then positions
    else Apply(ids, speeds, Step(ids, speeds, positions, vs[0], offset), vs[1..], offset)
  }

  /** `system` with offset `offset` over `archetypes`: the Position store afterwards. */
  function Moved(archetypes: seq<ChunkIdMap>, ids: seq<seq<Value>>, speeds: seq<seq<Value>>,
                  positions: seq<seq<Value>>, offset: nat): (r: seq<seq<Value>>)
    ensures SameShape(r, positions)
  {
    Apply(ids, speeds, positions, Visits(archetypes), offset)
  }

  // Lemmas the loops of the system use.

  /** Running two runs of visits one after the other is running their concatenation. */
  lemma {:induction false} ApplyAppend(ids: seq<seq<Value>>, speeds: seq<seq<Value>>, positions: seq<seq<Value>>,
                                       a: seq<Visit>, b: seq<Visit>, offset: nat)
    ensures Apply(ids, speeds, positions, a + b, offset) == Apply(ids, speeds, Apply(ids, speeds, positions, a, offset), b, offset)
    decreases |a|
  {
    if a == [] {
      assert a + b == b;
    } else {
      assert (a + b)[0] == a[0] && (a + b)[1..] == a[1..] + b;
      ApplyAppend(ids, speeds, Step(ids, speeds, positions, a[0], offset), a[1..], b, offset);
    }
  }

  /** The visits of archetypes `a..` are those of archetype `a` followed by those of `a+1..`. */
  lemma VisitsNext(archetypes: seq<ChunkIdMap>, a: nat)
    requires a < |archetypes|
    ensures Visits(archetypes[a..]) == VisitsOf(archetypes[a]) + Visits(archetypes[a + 1..])
  {
    assert archetypes[a..][1..] == archetypes[a + 1..];
  }

  /** The lockstep walk from position `q` on: the visit at `q`, then the rest. */
  lemma Zip3Next(es: seq<nat>, ss: seq<nat>, ps: seq<nat>, q: nat)
    requires q < |es| && q < |ss| && q < |ps|
    ensures Zip3(es[q..], ss[q..], ps[q..]) == [Visit(es[q], ss[q], ps[q])] + Zip3(es[q + 1..], ss[q + 1..], ps[q + 1..])
  {
    assert es[q..][1..] == es[q + 1..] && ss[q..][1..] == ss[q + 1..] && ps[q..][1..] == ps[q + 1..];
  }

  // Properties of the system.

  /** A chunk no visit points at keeps its rows. */
  lemma {:induction false} ApplyKeeps(ids: seq<seq<Value>>, speeds: seq<seq<Value>>, positions: seq<seq<Value>>,
                                      vs: seq<Visit>, offset: nat, p: nat)
    requires p < |positions|
    requires forall v :: v in vs ==> v.positionChunk != p
    ensures Apply(ids, speeds, positions, vs, offset)[p] == positions[p]
    decreases |vs|
  {
    if vs != [] {
      assert vs[0] in vs;
      ApplyKeeps(ids, speeds, Step(ids, speeds, positions, vs[0], offset), vs[1..], offset, p);
    }
  }

  /**
   * The system changes no Position chunk outside the Position lists of the
   * archetypes that list all three types: the Positions of other
   * compositions keep their values.
   */
  lemma SystemKeepsUnmatched(archetypes: seq<ChunkIdMap>, ids: seq<seq<Value>>, speeds: seq<seq<Value>>,
                             positions: seq<seq<Value>>, offset: nat, p: nat)
    requires p < |positions|
    requires forall i :: 0 <= i < |archetypes| && HasAllThree(archetypes[i]) ==> p !in archetypes[i][POSITION]
    ensures Moved(archetypes, ids, speeds, positions, offset)[p] == positions[p]
  {
    ApplyKeeps(ids, speeds, positions, Visits(archetypes), offset, p);
  }

  /**
   * A run of visits in which only the visit at `i0` points at its Position
   * chunk leaves that chunk as that one visit's rows loop makes it.
   */
  lemma {:induction false} ApplyOnce(ids: seq<seq<Value>>, speeds: seq<seq<Value>>, positions: seq<seq<Value>>,
                                     vs: seq<Visit>, offset: nat, i0: nat)
    requires i0 < |vs|
    requires vs[i0].entityChunk < |ids| && vs[i0].speedChunk < |speeds| && vs[i0].positionChunk < |positions|
    requires forall i :: 0 <= i < |vs| && i != i0 ==> vs[i].positionChunk != vs[i0].positionChunk
    ensures var w := vs[i0];
      Apply(ids, speeds, positions, vs, offset)[w.positionChunk]
        == MoveChunk(ids[w.entityChunk], speeds[w.speedChunk], positions[w.positionChunk], offset)
    decreases |vs|
  {
    var w := vs[i0];
    var next := Step(ids, speeds, positions, vs[0], offset);
    if i0 == 0 {
      forall x | x in vs[1..] ensures x.positionChunk != w.positionChunk {
        var i :| 0 <= i < |vs[1..]| && vs[1..][i] == x;
        assert vs[i + 1] == x;
      }
      ApplyKeeps(ids, speeds, next, vs[1..], offset, w.positionChunk);
    } else {
      assert vs[0].positionChunk != w.positionChunk;
      assert vs[1..][i0 - 1] == w;
      forall i | 0 <= i < |vs[1..]| && i != i0 - 1 ensures vs[1..][i].positionChunk != w.positionChunk {
        assert vs[1..][i] == vs[i + 1];
      }
      ApplyOnce(ids, speeds, next, vs[1..], offset, i0 - 1);
    }
  }

  /**
   * The system moves the Position chunk at position `q` of archetype `a`
   * by that archetype's Speed chunk at `q`, exactly once, when no other
   * position of any matched archetype lists that Position chunk.
   */
  lemma {:induction false} MovedOnce(archetypes: seq<ChunkIdMap>, ids: seq<seq<Value>>, speeds: seq<seq<Value>>,
                                     positions: seq<seq<Value>>, offset: nat, a: nat, q: nat)
    requires a < |archetypes| && HasAllThree(archetypes[a])
    requires var m := archetypes[a];
      q < |m[ENTITY_ID]| && q < |m[SPEED]| && q < |m[POSITION]|
      && m[ENTITY_ID][q] < |ids| && m[SPEED][q] < |speeds| && m[POSITION][q] < |positions|
    requires forall i, q' ::
      0 <= i < |archetypes| && HasAllThree(archetypes[i]) && 0 <= q' < |archetypes[i][POSITION]| &&
      archetypes[i][POSITION][q'] == archetypes[a][POSITION][q]
      ==> i == a && q' == q
    ensures var m := archetypes[a];
      Moved(archetypes, ids, speeds, positions, offset)[m[POSITION][q]]
        == MoveChunk(ids[m[ENTITY_ID][q]], speeds[m[SPEED][q]], positions[m[POSITION][q]], offset)
    decreases |archetypes|
  {
    var m := archetypes[a];
    var pc := m[POSITION][q];
    var first := VisitsOf(archetypes[0]);
    var rest := Visits(archetypes[1..]);
    assert Visits(archetypes) == first + rest;
    ApplyAppend(ids, speeds, positions, first, rest, offset);
    var mid := Apply(ids, speeds, positions, first, offset);
    if a == 0 {
      OthersHereAvoid(m, q);
      ApplyOnce(ids, speeds, positions, first, offset, q);
      LaterAvoid(archetypes, pc);
      ApplyKeeps(ids, speeds, mid, rest, offset, pc);
    } else {
      FirstAvoids(archetypes[0], pc);
      ApplyKeeps(ids, speeds, positions, first, offset, pc);
      assert archetypes[1..][a - 1] == m;
      UniqueInTail(archetypes, a, q);
      MovedOnce(archetypes[1..], ids, speeds, mid, offset, a - 1, q);
    }
  }

  /** Within one archetype, a Position chunk listed only at `q` is pointed at by no other visit. */
  lemma OthersHereAvoid(m: ChunkIdMap, q: nat)
    requires HasAllThree(m) && q < |m[ENTITY_ID]| && q < |m[SPEED]| && q < |m[POSITION]|
    requires forall q' :: 0 <= q' < |m[POSITION]| && m[POSITION][q'] == m[POSITION][q] ==> q' == q
    ensures q < |VisitsOf(m)| && VisitsOf(m)[q] == Visit(m[ENTITY_ID][q], m[SPEED][q], m[POSITION][q])
    ensures forall i :: 0 <= i < |VisitsOf(m)| && i != q ==> VisitsOf(m)[i].positionChunk != m[POSITION][q]
  {
  }

  /** An archetype that lists `pc` nowhere has no visit pointing at it. */
  lemma FirstAvoids(m: ChunkIdMap, pc: nat)
    requires HasAllThree(m) ==> forall q' :: 0 <= q' < |m[POSITION]| ==> m[POSITION][q'] != pc
    ensures forall x :: x in VisitsOf(m) ==> x.positionChunk != pc
  {
    forall x | x in VisitsOf(m) ensures x.positionChunk != pc {
      var i :| 0 <= i < |VisitsOf(m)| && VisitsOf(m)[i] == x;
    }
  }

  /** No visit of the archetypes after the first points at `pc` when no position of theirs lists it. */
  lemma LaterAvoid(archetypes: seq<ChunkIdMap>, pc: nat)
    requires |archetypes| > 0
    requires forall i, q' ::
      1 <= i < |archetypes| && HasAllThree(archetypes[i]) && 0 <= q' < |archetypes[i][POSITION]|
      ==> archetypes[i][POSITION][q'] != pc
    ensures forall x :: x in Visits(archetypes[1..]) ==> x.positionChunk != pc
  {
    forall x | x in Visits(archetypes[1..]) ensures x.positionChunk != pc {
      var i :| 0 <= i < |archetypes[1..]| && HasAllThree(archetypes[1..][i]) && x.positionChunk in archetypes[1..][i][POSITION];
      assert archetypes[1..][i] == archetypes[i + 1];
      var q' :| 0 <= q' < |archetypes[i + 1][POSITION]| && archetypes[i + 1][POSITION][q'] == x.positionChunk;
    }
  }

  /** A Position chunk listed once among all the archetypes is listed once among all but the first. */
  lemma UniqueInTail(archetypes: seq<ChunkIdMap>, a: nat, q: nat)
    requires 0 < a < |archetypes| && HasAllThree(archetypes[a]) && q < |archetypes[a][POSITION]|
    requires forall i, q' ::
      0 <= i < |archetypes| && HasAllThree(archetypes[i]) && 0 <= q' < |archetypes[i][POSITION]| &&
      archetypes[i][POSITION][q'] == archetypes[a][POSITION][q]
      ==> i == a && q' == q
    ensures forall i, q' ::
      0 <= i < |archetypes[1..]| && HasAllThree(archetypes[1..][i]) && 0 <= q' < |archetypes[1..][i][POSITION]| &&
      archetypes[1..][i][POSITION][q'] == archetypes[a][POSITION][q]
      ==> i == a - 1 && q' == q
  {
    forall i, q' | 0 <= i < |archetypes[1..]| && HasAllThree(archetypes[1..][i]) && 0 <= q' < |archetypes[1..][i][POSITION]|
        && archetypes[1..][i][POSITION][q'] == archetypes[a][POSITION][q]
      ensures i == a - 1 && q' == q
    {
      assert archetypes[1..][i] == archetypes[i + 1];
    }
  }

  /** Moving a row twice gives the same row in either order. */
  lemma MoveRowCommutes(position: Value, s1: Value, o1: nat, s2: Value, o2: nat)
    ensures MoveRow(MoveRow(position, s1, o1), s2, o2) == MoveRow(MoveRow(position, s2, o2), s1, o1)
  {
  }

  lemma MoveChunkCommutes(ids1: seq<Value>, sp1: seq<Value>, o1: nat, ids2: seq<Value>, sp2: seq<Value>, o2: nat, chunk: seq<Value>)
    ensures MoveChunk(ids2, sp2, MoveChunk(ids1, sp1, chunk, o1), o2) == MoveChunk(ids1, sp1, MoveChunk(ids2, sp2, chunk, o2), o1)
  {
    var a := MoveChunk(ids2, sp2, MoveChunk(ids1, sp1, chunk, o1), o2);
    var b := MoveChunk(ids1, sp1, MoveChunk(ids2, sp2, chunk, o2), o1);
    forall j | 0 <= j < |chunk|
      ensures a[j] == b[j]
    {
      if j < |ids1| && j < |sp1| && j < |ids2| && j < |sp2| {
        MoveRowCommutes(chunk[j], sp1[j], o1, sp2[j], o2);
      }
    }
  }

  /** Two visits, with any offsets, give the same store in either order. */
  lemma StepCommutes(ids: seq<seq<Value>>, speeds: seq<seq<Value>>, positions: seq<seq<Value>>,
                     v: Visit, ov: nat, w: Visit, ow: nat)
    ensures Step(ids, speeds, Step(ids, speeds, positions, v, ov), w, ow)
         == Step(ids, speeds, Step(ids, speeds, positions, w, ow), v, ov)
  {
    if v.entityChunk < |ids| && v.speedChunk < |speeds| && v.positionChunk < |positions|
       && w.entityChunk < |ids| && w.speedChunk < |speeds| && w.positionChunk < |positions|
       && v.positionChunk == w.positionChunk {
      MoveChunkCommutes(ids[v.entityChunk], speeds[v.speedChunk], ov, ids[w.entityChunk], speeds[w.speedChunk], ow,
                        positions[v.positionChunk]);
    }
  }

  /** A visit commutes with a run of visits. */
  lemma {:induction false} StepApplyCommute(ids: seq<seq<Value>>, speeds: seq<seq<Value>>, positions: seq<seq<Value>>,
                                            w: Visit, ow: nat, vs: seq<Visit>, ov: nat)
    ensures Step(ids, speeds, Apply(ids, speeds, positions, vs, ov), w, ow)
         == Apply(ids, speeds, Step(ids, speeds, positions, w, ow), vs, ov)
    decreases |vs|
  {
    if vs != [] {
      StepCommutes(ids, speeds, positions, vs[0], ov, w, ow);
      StepApplyCommute(ids, speeds, Step(ids, speeds, positions, vs[0], ov), w, ow, vs[1..], ov);
    }
  }

  /** Two runs of visits give the same store in either order. */
  lemma {:induction false} ApplyCommute(ids: seq<seq<Value>>, speeds: seq<seq<Value>>, positions: seq<seq<Value>>,
                                        vs: seq<Visit>, ov: nat, ws: seq<Visit>, ow: nat)
    ensures Apply(ids, speeds, Apply(ids, speeds, positions, vs, ov), ws, ow)
         == Apply(ids, speeds, Apply(ids, speeds, positions, ws, ow), vs, ov)
    decreases |ws|
  {
    if ws != [] {
      StepApplyCommute(ids, speeds, positions, ws[0], ow, vs, ov);
      ApplyCommute(ids, speeds, Step(ids, speeds, positions, ws[0], ow), vs, ov, ws[1..], ow);
    }
  }

  /**
   * Two systems over the same archetypes, EntityId and Speed stores (the
   * system changes none of these), whatever their offsets, leave the same
   * Positions whichever runs first.
   */
  lemma SystemsCommute(archetypes: seq<ChunkIdMap>, ids: seq<seq<Value>>, speeds: seq<seq<Value>>,
                       positions: seq<seq<Value>>, o1: nat, o2: nat)
    ensures Moved(archetypes, ids, speeds, Moved(archetypes, ids, speeds, positions, o1), o2)
         == Moved(archetypes, ids, speeds, Moved(archetypes, ids, speeds, positions, o2), o1)
  {
    ApplyCommute(ids, speeds, positions, Visits(archetypes), o1, Visits(archetypes), o2);
  }

  // The u32 fields: a system run never overflows when its final Positions fit.

  /** No field of a Speed or Position in the store leaves u32. */
  ghost predicate FitsStore(store: seq<seq<Value>>)
  {
    forall c, j :: 0 <= c < |store| && 0 <= j < |store[c]| ==> FitsU32(store[c][j])
  }

  /** `b` is `a`, or a Position with no field smaller than `a`'s. */
  predicate Below(a: Value, b: Value)
  {
    match (a, b)
    case (Position(x1, y1, z1), Position(x2, y2, z2)) => x1 <= x2 && y1 <= y2 && z1 <= z2
    case _ => a == b
  }

  /** Store `q` has the shape of `p`, and each of its values is at or above `p`'s. */
  ghost predicate StoreBelow(p: seq<seq<Value>>, q: seq<seq<Value>>)
  {
    SameShape(q, p) && forall c, j :: 0 <= c < |p| && 0 <= j < |p[c]| ==> Below(p[c][j], q[c][j])
  }

  lemma StepBelow(ids: seq<seq<Value>>, speeds: seq<seq<Value>>, positions: seq<seq<Value>>, v: Visit, offset: nat)
    ensures StoreBelow(positions, Step(ids, speeds, positions, v, offset))
  {
    var r := Step(ids, speeds, positions, v, offset);
    forall c, j | 0 <= c < |positions| && 0 <= j < |positions[c]|
      ensures Below(positions[c][j], r[c][j])
    {
    }
  }

  lemma StoreBelowTrans(p: seq<seq<Value>>, q: seq<seq<Value>>, r: seq<seq<Value>>)
    requires StoreBelow(p, q) && StoreBelow(q, r)
    ensures StoreBelow(p, r)
  {
    forall c, j | 0 <= c < |p| && 0 <= j < |p[c]|
      ensures Below(p[c][j], r[c][j])
    {
      assert Below(p[c][j], q[c][j]) && Below(q[c][j], r[c][j]);
    }
  }

  /** Visits only ever add to Positions. */
  lemma {:induction false} ApplyBelow(ids: seq<seq<Value>>, speeds: seq<seq<Value>>, positions: seq<seq<Value>>,
                                      vs: seq<Visit>, offset: nat)
    ensures StoreBelow(positions, Apply(ids, speeds, positions, vs, offset))
    decreases |vs|
  {
    if vs == [] {
      assert StoreBelow(positions, positions);
    } else {
      var next := Step(ids, speeds, positions, vs[0], offset);
      StepBelow(ids, speeds, positions, vs[0], offset);
      ApplyBelow(ids, speeds, next, vs[1..], offset);
      StoreBelowTrans(positions, next, Apply(ids, speeds, next, vs[1..], offset));
    }
  }

  lemma FitsBelow(p: seq<seq<Value>>, q: seq<seq<Value>>)
    requires StoreBelow(p, q) && FitsStore(q)
    ensures FitsStore(p)
  {
    forall c, j | 0 <= c < |p| && 0 <= j < |p[c]|
      ensures FitsU32(p[c][j])
    {
      assert Below(p[c][j], q[c][j]) && FitsU32(q[c][j]);
    }
  }

  /** If the Positions fit after a run of visits, they fit after any first part of it. */
  lemma FitsPrefix(ids: seq<seq<Value>>, speeds: seq<seq<Value>>, positions: seq<seq<Value>>,
                   a: seq<Visit>, b: seq<Visit>, offset: nat)
    requires FitsStore(Apply(ids, speeds, positions, a + b, offset))
    ensures FitsStore(Apply(ids, speeds, positions, a, offset))
  {
    ApplyAppend(ids, speeds, positions, a, b, offset);
    var mid := Apply(ids, speeds, positions, a, offset);
    ApplyBelow(ids, speeds, mid, b, offset);
    FitsBelow(mid, Apply(ids, speeds, mid, b, offset));
  }

  /** If the Positions fit after one visit whose chunks exist, every row of its rows loop fits. */
  lemma FitsVisit(ids: seq<seq<Value>>, speeds: seq<seq<Value>>, positions: seq<seq<Value>>, v: Visit, offset: nat)
    requires FitsStore(Apply(ids, speeds, positions, [v], offset))
    requires v.entityChunk < |ids| && v.speedChunk < |speeds| && v.positionChunk < |positions|
    ensures forall j :: 0 <= j < |positions[v.positionChunk]| ==>
      FitsU32(MoveChunk(ids[v.entityChunk], speeds[v.speedChunk], positions[v.positionChunk], offset)[j])
  {
    var r := Step(ids, speeds, positions, v, offset);
    assert Apply(ids, speeds, positions, [v], offset) == Apply(ids, speeds, r, [], offset) == r;
    forall j | 0 <= j < |positions[v.positionChunk]|
      ensures FitsU32(MoveChunk(ids[v.entityChunk], speeds[v.speedChunk], positions[v.positionChunk], offset)[j])
    {
      assert r[v.positionChunk][j] == MoveChunk(ids[v.entityChunk], speeds[v.speedChunk], positions[v.positionChunk], offset)[j];
    }
  }

  /**
   * One turn of the lockstep walk: the visit at `q` and then the rest; when
   * the Positions fit after the whole walk, they fit in that visit's rows.
   */
  lemma WalkNext(ids: seq<seq<Value>>, speeds: seq<seq<Value>>, positions: seq<seq<Value>>,
                 es: seq<nat>, ss: seq<nat>, ps: seq<nat>, q: nat, offset: nat)
    requires q < |es| && q < |ss| && q < |ps|
    ensures var v := Visit(es[q], ss[q], ps[q]);
      Apply(ids, speeds, positions, Zip3(es[q..], ss[q..], ps[q..]), offset)
      == Apply(ids, speeds, Step(ids, speeds, positions, v, offset), Zip3(es[q + 1..], ss[q + 1..], ps[q + 1..]), offset)
    ensures FitsStore(Apply(ids, speeds, positions, Zip3(es[q..], ss[q..], ps[q..]), offset))
            && es[q] < |ids| && ss[q] < |speeds| && ps[q] < |positions| ==>
      forall j :: 0 <= j < |positions[ps[q]]| ==> FitsU32(MoveChunk(ids[es[q]], speeds[ss[q]], positions[ps[q]], offset)[j])
  {
    var v := Visit(es[q], ss[q], ps[q]);
    var rest := Zip3(es[q + 1..], ss[q + 1..], ps[q + 1..]);
    Zip3Next(es, ss, ps, q);
    assert ([v] + rest)[0] == v && ([v] + rest)[1..] == rest;
    if FitsStore(Apply(ids, speeds, positions, Zip3(es[q..], ss[q..], ps[q..]), offset))
       && es[q] < |ids| && ss[q] < |speeds| && ps[q] < |positions| {
      FitsPrefix(ids, speeds, positions, [v], rest, offset);
      FitsVisit(ids, speeds, positions, v, offset);
    }
  }
}
