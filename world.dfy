/**
 * The world (`World`): archetypes keyed by their composition, and one
 * component store per type. Its contents, seen as values, are a `WorldView`;
 * every method states its effect on that view, and the invariant the view
 * keeps is `WellFormed`.
 *
 * The world owns its archetypes by value (a `HashMap` of `Archetype`
 * structs), so each is held here as its chunk-id map and updated with
 * `WithChunkId`, the function `Archetype.AddChunkId` is proved against. The
 * stores are shared objects (`Arc<RwLock<..>>`), held as `Components`.
 */
module World {
  import opened Wrappers
  import opened Values
  import opened Component
  import opened Archetype
  import opened WorldSpec
  import opened Selection


  /** Store `s` is valid, holds type `t` and has contents `contents`. */
  ghost predicate Holds(s: Components, t: TypeId, contents: seq<seq<Value>>)
    reads s, s.Repr
  {
    s.typeId == t && s.Valid() && s.Contents == contents
  }

  class World {
    var archetypes: map<Key, ChunkIdMap>
    var components: map<TypeId, Components>
    /** Every store's contents. */
    ghost var stores: map<TypeId, seq<seq<Value>>>
    /** The stores and every store's chunks. */
    ghost var Repr: set<object>

    /** Each store holds its own type, owns its chunks alone, and its contents are recorded in `stores`. */
    ghost predicate Sound()
      reads this`components, this`stores, this`Repr, Repr
    {
      && this !in Repr
      && components.Keys == stores.Keys
      && (forall t :: t in components ==>
            components[t] in Repr && components[t].Repr <= Repr && Holds(components[t], t, stores[t]))
      && (forall t1, t2 :: t1 in components && t2 in components && t1 != t2 ==> components[t1].Repr !! components[t2].Repr)
    }

    /** The world's contents as values. */
    ghost function View(): WorldView
      reads this`archetypes, this`stores
    {
      WorldView(archetypes, stores)
    }

    ghost predicate Valid()
      reads this, Repr
    {
      Sound() && WellFormed(View())
    }

    /** `World::default()`: no archetypes and no stores. */
    constructor Default()
      ensures Valid() && fresh(Repr)
      ensures View() == EmptyWorld
    {
      archetypes := map[];
      components := map[];
      stores := map[];
      Repr := {};
    }

    /**
     * `add_entity`: normalise the bag as written (adjacent same-typed values
     * collapsed, EntityIds dropped, the fresh EntityId appended), get or
     * create the archetype of its composition, then push every value into its
     * type's store (created on first use), recording every new chunk in the
     * archetype. The fresh EntityId is `entityId`. The bookkeeping stays
     * consistent for every bag; the world invariant is kept for a bag without
     * repeated types (`AsWrittenBreaksCorrelation` shows one that breaks it).
     */
    method AddEntity(bag: seq<Value>, entityId: nat) returns (id: nat)
      requires Sound() && KeysMatch(View())
      modifies this, Repr
      ensures Sound() && KeysMatch(View()) && fresh(Repr - old(Repr))
      ensures id == entityId
      ensures View() == AddEntityAsWritten(old(View()), bag, entityId)
      ensures old(WellFormed(View())) && DistinctTypes(bag) ==> Valid()
    {
      ghost var v0 := View();
      var comps := NormaliseAsWritten(bag, entityId);
      var key := TypesOf(comps);
      Place(comps, key);
      AddEntityAsWrittenOutcome(v0, bag, entityId);
      id := entityId;
    }

    /** The archetype of `key`, created if missing, then every value of `comps` pushed into it. */
    method Place(comps: seq<Value>, key: Key)
      requires Sound() && KeysMatch(View()) && TypesOf(comps) == key
      modifies this, Repr
      ensures Sound() && fresh(Repr - old(Repr))
      ensures View() == InsertAll(EnsureArchetype(old(View()), key), key, comps)
    {
      ArchetypeFor(key);
      InsertAllInto(comps, key);
    }

    /** `entry(key).or_insert_with(|| archetype::new(key))`: the archetype of `key`, created if missing. */
    method ArchetypeFor(key: Key)
      requires Sound() && KeysMatch(View())
      modifies this`archetypes
      ensures Sound()
      ensures View() == EnsureArchetype(old(View()), key)
    {
      if key !in archetypes {
        var empty: ChunkIdMap := map t | t in key :: [];
        archetypes := archetypes[key := empty];
      }
    }

    /** The loop of `add_entity`: every value of `comps`, in order, into archetype `key`. */
    method InsertAllInto(comps: seq<Value>, key: Key)
      requires Sound() && key in archetypes && archetypes[key].Keys == key && TypesOf(comps) == key
      modifies this, Repr
      ensures Sound() && fresh(Repr - old(Repr))
      ensures View() == InsertAll(old(View()), key, comps)
    {
      ghost var v1 := View();
      for i := 0 to |comps|
        invariant Sound() && fresh(Repr - old(Repr))
        invariant key in archetypes && archetypes[key].Keys == key
        invariant TypesOf(comps[..i]) <= key
        invariant View() == InsertAll(v1, key, comps[..i])
      {
        InsertAllNext(v1, key, comps, i);
        InsertStep(comps[i], key);
      }
      assert comps[..|comps|] == comps;
    }

    /** One turn of the loop of `add_entity`. */
    method InsertStep(c: Value, key: Key)
      requires Sound() && key in archetypes && TypeOf(c) in archetypes[key]
      modifies this, Repr
      ensures Sound() && fresh(Repr - old(Repr))
      ensures View() == InsertOne(old(View()), key, c)
    {
      ghost var v0 := View();
      var t := TypeOf(c);
      var result := PushStore(c, archetypes[key][t]);
      ghost var v2 := View();
      if result.Ok? && result.value.NewChunk? {
        RecordChunk(key, t, result.value.ChunkIdx());
      }
      InsertOneChain(v0, v2, View(), key, c, result);
    }

    /** Get or create the store of `c`'s type, and push `c` into it offering chunk ids `ids`. */
    method PushStore(c: Value, ids: seq<nat>) returns (result: Result<PushComponentAction, PushError>)
      requires Sound()
      modifies this`components, this`stores, this`Repr, Repr
      ensures Sound() && fresh(Repr - old(Repr))
      ensures var step := StorePush(TypeOf(c), StoreOf(old(View()), TypeOf(c)), c, ids);
        && result == step.result
        && stores == old(stores)[TypeOf(c) := step.chunks]
    {
      var t := TypeOf(c);
      var store := StoreFor(t);
      ghost var mid := stores;
      ghost var midRepr := Repr;
      result := PushInto(store, c, ids);
      assert fresh(Repr - midRepr) && fresh(midRepr - old(Repr));
      UpdateTwice(old(stores), t, StoreOf(old(View()), t), stores[t]);
    }

    /** `add_chunk_id` on the archetype of `key`: `t`'s list gains `chunkId`. */
    method RecordChunk(key: Key, t: TypeId, chunkId: nat)
      requires Sound() && key in archetypes
      modifies this`archetypes
      ensures Sound()
      ensures archetypes == old(archetypes)[key := WithChunkId(old(archetypes)[key], t, chunkId)]
    {
      archetypes := archetypes[key := WithChunkId(archetypes[key], t, chunkId)];
    }

    /** `entry(t).or_insert_with(...)` on the stores: the store of `t`, created empty if missing. */
    method StoreFor(t: TypeId) returns (store: Components)
      requires Sound()
      modifies this`components, this`stores, this`Repr
      ensures Sound() && fresh(Repr - old(Repr))
      ensures t in components && components[t] == store && store.typeId == t
      ensures stores == old(stores)[t := StoreOf(old(View()), t)]
    {
      if t !in components {
        NewStore(t);
      }
      store := components[t];
    }

    /** `new_components_array` for `t`, registered as `t`'s store. */
    method NewStore(t: TypeId)
      requires Sound() && t !in components
      modifies this`components, this`stores, this`Repr
      ensures Sound() && fresh(Repr - old(Repr))
      ensures t in components && stores == old(stores)[t := []]
    {
      var created := new Components.New(t);
      components := components[t := created];
      stores := stores[t := []];
      Repr := Repr + {created};
      forall u | u in components
        ensures components[u] in Repr && components[u].Repr <= Repr && Holds(components[u], u, stores[u])
      {
        if u != t {
          assert components[u] == old(components)[u] && stores[u] == old(stores)[u];
        }
      }
    }

    /** `push` into the store of `t`: only that store's contents change. */
    method PushInto(store: Components, c: Value, ids: seq<nat>) returns (result: Result<PushComponentAction, PushError>)
      requires Sound() && store.typeId in components && components[store.typeId] == store
      modifies store, store.Repr, this`stores, this`Repr
      ensures Sound() && fresh(Repr - old(Repr))
      ensures var step := StorePush(store.typeId, old(stores)[store.typeId], c, ids);
        && result == step.result
        && stores == old(stores)[store.typeId := step.chunks]
    {
      result := store.Push(c, ids);
      stores := stores[store.typeId := store.Contents];
      Repr := Repr + store.Repr;
      OthersKept(store);
      SoundAfterPush(store);
    }

    /** A push that changes only one store and its own chunks keeps the layout. */
    twostate lemma SoundAfterPush(store: Components)
      requires old(Sound()) && store.typeId in old(components) && old(components)[store.typeId] == store
      requires components == old(components) && stores == old(stores)[store.typeId := store.Contents]
      requires store.Valid() && this !in Repr && Repr == old(Repr) + store.Repr
      requires forall t :: t in components && t != store.typeId ==>
        && components[t].Repr == old(components[t].Repr)
        && Holds(components[t], t, stores[t]) && components[t].Repr !! store.Repr
      ensures Sound()
    {
      var t0 := store.typeId;
      assert Holds(store, t0, stores[t0]);
      forall t1, t2 | t1 in components && t2 in components && t1 != t2
        ensures components[t1].Repr !! components[t2].Repr
      {
        if t1 != t0 && t2 != t0 {
          assert old(components[t1].Repr !! components[t2].Repr);
        }
      }
    }

    /** ... because every other store is left as it was. */
    twostate lemma OthersKept(store: Components)
      requires old(Sound()) && store.typeId in old(components) && old(components)[store.typeId] == store
      requires components == old(components) && stores == old(stores)[store.typeId := store.Contents]
      requires fresh(store.Repr - old(store.Repr)) && old(Repr) <= Repr
      requires forall o :: o in old(Repr) && o !in old(store.Repr) && o != store && o != this ==> unchanged(o)
      ensures forall t :: t in components && t != store.typeId ==>
        && components[t].Repr == old(components[t].Repr)
        && Holds(components[t], t, stores[t]) && components[t].Repr !! store.Repr
    {
      forall t | t in components && t != store.typeId
        ensures components[t].Repr == old(components[t].Repr)
        ensures Holds(components[t], t, stores[t]) && components[t].Repr !! store.Repr
      {
        var other := components[t];
        assert other.Repr !! old(store.Repr);
        forall o | o in other.Repr ensures unchanged(o) {
          assert o in old(Repr);
        }
        StoreKept(other);
      }
    }

    /** A store none of whose objects changed is still valid. */
    twostate lemma StoreKept(s: Components)
      requires old(s.Valid()) && unchanged(s) && forall o :: o in s.Repr ==> unchanged(o)
      ensures s.Valid()
    {
      assert s.chunks == old(s.chunks) && s.Contents == old(s.Contents) && s.Repr == old(s.Repr);
      forall i | 0 <= i < |s.chunks|
        ensures s.chunks[i] in s.Repr && s.chunks[i].components == s.Contents[i]
      {
        var c := s.chunks[i];
        assert c in old(s.Repr) && unchanged(c);
        assert old(c.components) == old(s.Contents[i]);
      }
    }
  
    /**
     * `query`: the keys of the archetypes `filter` accepts. The source
     * collects them in the map's iteration order, which is unspecified; the
     * model keeps the set.
     */
    function Query(filter: ChunkIdMap -> bool): (keys: set<Key>)
      reads this`archetypes
      ensures forall k :: k in keys <==> k in archetypes && filter(archetypes[k])
    {
      set k | k in archetypes && filter(archetypes[k])
    }

    /**
     * `archetypes`: the archetypes of `keys`, in the order of `keys`; a key
     * with no archetype is skipped.
     */
    function Archetypes(keys: seq<Key>): (r: seq<ChunkIdMap>)
      reads this`archetypes
      ensures |r| <= |keys|
      ensures |r| == |keys| <==> forall i :: 0 <= i < |keys| ==> keys[i] in archetypes
      ensures |r| == |keys| ==> forall i :: 0 <= i < |keys| ==> r[i] == archetypes[keys[i]]
      ensures forall m :: m in r ==> exists k :: k in keys && k in archetypes && archetypes[k] == m
    {
      if keys == [] then []
      else (if keys[0] in archetypes then [archetypes[keys[0]]] else []) + Archetypes(keys[1..])
    }

    /** Which of `keys` have an archetype. */
    function PresentMask(keys: seq<Key>): (mask: seq<bool>)
      reads this`archetypes
      ensures |mask| == |keys|
      ensures forall i :: 0 <= i < |keys| ==> (mask[i] <==> keys[i] in archetypes)
    {
      if keys == [] then []
      else PresentMask(keys[..|keys| - 1]) + [keys[|keys| - 1] in archetypes]
    }

    /** The archetype of each key, position by position (an empty map where there is none). */
    function Lookups(keys: seq<Key>): (r: seq<ChunkIdMap>)
      reads this`archetypes
      ensures |r| == |keys|
      ensures forall i :: 0 <= i < |keys| && keys[i] in archetypes ==> r[i] == archetypes[keys[i]]
    {
      if keys == [] then []
      else
        var last := keys[|keys| - 1];
        Lookups(keys[..|keys| - 1]) + [if last in archetypes then archetypes[last] else map[]]
    }

    /**
     * `archetypes` keeps exactly the keys that have an archetype, in the
     * order of `keys`, and skips exactly the others.
     */
    lemma {:induction false} ArchetypesSelects(keys: seq<Key>)
      ensures Selects(Archetypes(keys), Lookups(keys), PresentMask(keys))
    {
      if keys == [] {
        SelectsEmpty<ChunkIdMap>();
      } else {
        var init := keys[..|keys| - 1];
        var last := keys[|keys| - 1];
        var one: seq<Key> := [last];
        assert keys == init + one;
        ArchetypesAppend(init, one);
        assert one[1..] == [];
        ArchetypesSelects(init);
        var m: ChunkIdMap := if last in archetypes then archetypes[last] else map[];
        SelectsSnoc(Archetypes(init), Lookups(init), PresentMask(init), m, last in archetypes);
      }
    }

    /** Looking up a concatenation looks up each part in turn. */
    lemma {:induction false} ArchetypesAppend(a: seq<Key>, b: seq<Key>)
      ensures Archetypes(a + b) == Archetypes(a) + Archetypes(b)
    {
      if a != [] {
        assert (a + b)[0] == a[0] && (a + b)[1..] == a[1..] + b;
        ArchetypesAppend(a[1..], b);
      } else {
        assert a + b == b;
      }
    }
  }
}
