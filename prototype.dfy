/**
 * The single-chunk prototype of the storage: one chunk holding a vector per
 * registered component type, filled entity by entity with `add`.
 *
 * A `ComponentsInfo` pairs a type-erased vector with the push closure built
 * for its component type; here it is the type the closure downcasts to and
 * the vector's values. The chunk's `HashMap<TypeId, ComponentsInfo>` is a
 * map field that `add_component` and `add` reassign.
 */
module Prototype {
  import opened Wrappers
  import opened Values

  /**
   * The type an `InvalidComponentType` error names as found. The closure asks
   * the `Box<dyn Any>` that the failed downcast hands back for its
   * `type_id()`, which resolves to the box's own `Any` impl: every failure
   * names `Box<dyn Any>`, never the component's type.
   */
  datatype FoundType = BoxOfDynAny

  datatype AddActionError =
    | InvalidComponentsCollectionType(required: TypeId)
    | InvalidComponentType(required: TypeId, found: FoundType)

  /** One type's vector: `required` is the `TComponent` its push closure was built for. */
  datatype ComponentsInfo = ComponentsInfo(required: TypeId, components: seq<Value>)

  datatype AddEntityError =
    | AddActionNotFound
    | ComponentTypeNotFound
    | EntityComponentTypeNotFound
    | InvalidComponentsCollectionType
    | AddActionError(cause: AddActionError)

  datatype AddComponentError = ComponentAlreadyExists(typeId: TypeId)

  datatype BuildError = AddComponentError(cause: AddComponentError)

  /** One element of `add`'s list: the key to push under and the boxed component. */
  datatype Entry = Entry(typeId: TypeId, component: Value)

  /** Every vector is keyed by its own component type and holds only values of it. */
  ghost predicate Typed(m: map<TypeId, ComponentsInfo>)
  {
    forall t :: t in m ==> m[t].required == t && AllOfType(m[t].components, t)
  }

  /**
   * The push closure of `new_components_info::<T>`: the component is
   * downcast to `T` and appended; a component of another type is refused
   * with `InvalidComponentType` and the vector is left as it was.
   */
  function PushComponent(info: ComponentsInfo, component: Value): (r: Result<ComponentsInfo, AddActionError>)
    ensures r.Ok? <==> TypeOf(component) == info.required
    ensures r.Ok? ==> r.value.required == info.required && r.value.components == info.components + [component]
    ensures r.Ok? && AllOfType(info.components, info.required) ==> AllOfType(r.value.components, r.value.required)
    ensures r.Err? ==> r.error == InvalidComponentType(info.required, BoxOfDynAny)
  {
    if TypeOf(component) == info.required then Ok(ComponentsInfo(info.required, info.components + [component]))
    else Err(InvalidComponentType(info.required, BoxOfDynAny))
  }

  /** `add_component::<T>` on the map: a new type gets an empty vector; a registered one keeps its own. */
  function Register(m: map<TypeId, ComponentsInfo>, t: TypeId): (r: map<TypeId, ComponentsInfo>)
    ensures r.Keys == m.Keys + {t}
    ensures forall u :: u in m ==> r[u] == m[u]
    ensures t !in m ==> r[t] == ComponentsInfo(t, [])
    ensures Typed(m) ==> Typed(r)
  {
    if t in m then m else m[t := ComponentsInfo(t, [])]
  }

  /** `add_component` for each of `ts` in turn. */
  function RegisterAll(m: map<TypeId, ComponentsInfo>, ts: seq<TypeId>): (r: map<TypeId, ComponentsInfo>)
    ensures r.Keys == m.Keys + set t | t in ts
    ensures forall u :: u in m ==> r[u] == m[u]
    ensures forall u :: u in r && u !in m ==> r[u] == ComponentsInfo(u, [])
    ensures Typed(m) ==> Typed(r)
    decreases |ts|
  {
    if ts == [] then m else RegisterAll(Register(m, ts[0]), ts[1..])
  }

  /** One iteration of `add`'s loop: look the type up, then push into its vector. */
  function PushEntry(m: map<TypeId, ComponentsInfo>, e: Entry): Result<map<TypeId, ComponentsInfo>, AddEntityError>
  {
    if e.typeId !in m then Err(ComponentTypeNotFound)
    else match PushComponent(m[e.typeId], e.component)
      case Err(cause) => Err(AddActionError(cause))
      case Ok(info) => Ok(m[e.typeId := info])
  }

  /** The map after `add`'s loop, and the error that ended it early, if any. */
  datatype Pushed = Pushed(failure: Option<AddEntityError>, components: map<TypeId, ComponentsInfo>)

  /**
   * `add`'s loop over `es`: pushes in list order and stops at the first
   * failure, keeping what was pushed before it. The registered types and
   * the type each vector requires never change.
   */
  function PushAll(m: map<TypeId, ComponentsInfo>, es: seq<Entry>): (p: Pushed)
    ensures p.components.Keys == m.Keys
    ensures forall t :: t in m ==> p.components[t].required == m[t].required
    ensures Typed(m) ==> Typed(p.components)
    decreases |es|
  {
    if es == [] then Pushed(None, m)
    else
      var before := PushAll(m, es[..|es| - 1]);
      if before.failure.Some? then before
      else match PushEntry(before.components, es[|es| - 1])
        case Err(e) => Pushed(Some(e), before.components)
        case Ok(after) => Pushed(None, after)
  }

  /** What `add` returns, and the chunk's map after it. */
  datatype Added = Added(result: Result<nat, AddEntityError>, components: map<TypeId, ComponentsInfo>)

  /**
   * `add` on the map, with `freshId` the Uuid drawn for the new entity: the
   * loop, then the EntityId push, whose own result is discarded.
   */
  function AddSpec(m: map<TypeId, ComponentsInfo>, es: seq<Entry>, freshId: nat): (r: Added)
    ensures r.components.Keys == m.Keys
    ensures r.result.Ok? <==> PushAll(m, es).failure.None? && ENTITY_ID in m
  {
    var p := PushAll(m, es);
    if p.failure.Some? then Added(Err(p.failure.value), p.components)
    else if ENTITY_ID !in p.components then Added(Err(EntityComponentTypeNotFound), p.components)
    else match PushComponent(p.components[ENTITY_ID], EntityId(freshId))
      case Ok(info) => Added(Ok(freshId), p.components[ENTITY_ID := info])
      case Err(_) => Added(Ok(freshId), p.components)
  }

  /** `e`'s type is registered and its component is of that type. */
  predicate Pushable(m: map<TypeId, ComponentsInfo>, e: Entry)
  {
    e.typeId in m && TypeOf(e.component) == m[e.typeId].required
  }

  /** The components among `es` listed under `t`, in list order. */
  function ValuesFor(es: seq<Entry>, t: TypeId): seq<Value>
    decreases |es|
  {
    if es == [] then []
    else ValuesFor(es[..|es| - 1], t) + (if es[|es| - 1].typeId == t then [es[|es| - 1].component] else [])
  }

  /** The loop runs to the end exactly when every entry is pushable. */
  lemma {:induction false} PushAllSucceeds(m: map<TypeId, ComponentsInfo>, es: seq<Entry>)
    ensures PushAll(m, es).failure.None? <==> forall i :: 0 <= i < |es| ==> Pushable(m, es[i])
    decreases |es|
  {
    if es != [] {
      var init := es[..|es| - 1];
      PushAllSucceeds(m, init);
      var before := PushAll(m, init);
      if before.failure.None? {
        assert forall i :: 0 <= i < |init| ==> init[i] == es[i];
        assert PushEntry(before.components, es[|es| - 1]).Ok? <==> Pushable(m, es[|es| - 1]);
      } else {
        var i :| 0 <= i < |init| && !Pushable(m, init[i]);
        assert init[i] == es[i];
      }
    }
  }

  /** When the loop runs to the end, each vector has gained the components listed under its type, in order. */
  lemma {:induction false} PushAllContents(m: map<TypeId, ComponentsInfo>, es: seq<Entry>)
    requires PushAll(m, es).failure.None?
    ensures forall t :: t in m ==> PushAll(m, es).components[t] == ComponentsInfo(m[t].required, m[t].components + ValuesFor(es, t))
    decreases |es|
  {
    if es != [] {
      var init := es[..|es| - 1];
      var before := PushAll(m, init);
      assert before.failure.None?;
      PushAllContents(m, init);
      forall t | t in m
        ensures PushAll(m, es).components[t] == ComponentsInfo(m[t].required, m[t].components + ValuesFor(es, t))
      {
        assert ValuesFor(es, t) == ValuesFor(init, t) + (if es[|es| - 1].typeId == t then [es[|es| - 1].component] else []);
      }
    }
  }

  /** Once the loop has failed on a prefix, the rest of the list is never looked at. */
  lemma {:induction false} PushAllStops(m: map<TypeId, ComponentsInfo>, es: seq<Entry>, j: nat)
    requires j <= |es| && PushAll(m, es[..j]).failure.Some?
    ensures PushAll(m, es) == PushAll(m, es[..j])
    decreases |es| - j
  {
    if j < |es| {
      var init := es[..|es| - 1];
      assert init[..j] == es[..j];
      PushAllStops(m, init, j);
    } else {
      assert es[..j] == es;
    }
  }

  /**
   * `add` succeeds exactly when every listed component can be pushed and
   * EntityId is registered, and then it returns the drawn id.
   */
  lemma AddSucceeds(m: map<TypeId, ComponentsInfo>, es: seq<Entry>, freshId: nat)
    ensures AddSpec(m, es, freshId).result.Ok? <==>
      (forall i :: 0 <= i < |es| ==> Pushable(m, es[i])) && ENTITY_ID in m
    ensures AddSpec(m, es, freshId).result.Ok? ==> AddSpec(m, es, freshId).result.value == freshId
  {
    PushAllSucceeds(m, es);
  }

  /**
   * A successful `add` keeps the registered types and appends to each
   * vector the components listed under its type, and to the EntityId
   * vector the new id.
   */
  lemma AddContents(m: map<TypeId, ComponentsInfo>, es: seq<Entry>, freshId: nat)
    requires Typed(m)
    requires AddSpec(m, es, freshId).result.Ok?
    ensures AddSpec(m, es, freshId).components.Keys == m.Keys
    ensures forall t :: t in m ==>
      AddSpec(m, es, freshId).components[t].components ==
        m[t].components + ValuesFor(es, t) + (if t == ENTITY_ID then [EntityId(freshId)] else [])
  {
    PushAllContents(m, es);
  }

  /**
   * An unregistered type at position `k` ends `add` with
   * `ComponentTypeNotFound`, and the components pushed before it stay:
   * there is no rollback.
   */
  lemma AddNoRollback(m: map<TypeId, ComponentsInfo>, es: seq<Entry>, freshId: nat, k: nat)
    requires k < |es| && es[k].typeId !in m
    requires forall i :: 0 <= i < k ==> Pushable(m, es[i])
    ensures AddSpec(m, es, freshId).result == Err(ComponentTypeNotFound)
    ensures AddSpec(m, es, freshId).components.Keys == m.Keys
    ensures forall t :: t in m ==>
      AddSpec(m, es, freshId).components[t].components == m[t].components + ValuesFor(es[..k], t)
  {
    var upTo := es[..k + 1];
    assert upTo[..|upTo| - 1] == es[..k] && upTo[|upTo| - 1] == es[k];
    assert forall i :: 0 <= i < k ==> es[..k][i] == es[i];
    PushAllSucceeds(m, es[..k]);
    PushAllContents(m, es[..k]);
    PushAllStops(m, es, k + 1);
  }

  /** `add` never registers or drops a type, and keeps every vector of its own type. */
  lemma AddKeepsTyped(m: map<TypeId, ComponentsInfo>, es: seq<Entry>, freshId: nat)
    requires Typed(m)
    ensures AddSpec(m, es, freshId).components.Keys == m.Keys
    ensures Typed(AddSpec(m, es, freshId).components)
  {
    var p := PushAll(m, es);
    if p.failure.None? && ENTITY_ID in p.components {
      var r := PushComponent(p.components[ENTITY_ID], EntityId(freshId));
      assert r.Ok?;
    }
  }

  /** The `Chunk`: its map of component vectors. */
  class Chunk {
    var components: map<TypeId, ComponentsInfo>

    /** Every vector holds values of the type it is registered under, which the downcasts of `extract_components` rely on. */
    ghost predicate Valid()
      reads this`components
    {
      Typed(components)
    }

    /** `Chunk::default()`: no type registered. */
    constructor Default()
      ensures Valid() && components == map[]
    {
      components := map[];
    }

    /**
     * `add_component::<T>`: registers an empty vector for `t`; when `t` is
     * already registered, the `ComponentAlreadyExists` error is built and
     * dropped, the vector is kept, and the call still answers `Ok`.
     */
    method AddComponent(t: TypeId) returns (r: Result<(), AddComponentError>)
      requires Valid()
      modifies this`components
      ensures Valid() && r.Ok?
      ensures components == Register(old(components), t)
    {
      if t !in components {
        components := components[t := ComponentsInfo(t, [])];
      }
      return Ok(());
    }

    /**
     * `add`: pushes each listed component into the vector registered under
     * its key, then a new EntityId (`freshId`, the drawn `Uuid::new_v4`).
     */
    method Add(entries: seq<Entry>, freshId: nat) returns (r: Result<nat, AddEntityError>)
      requires Valid()
      modifies this`components
      ensures Valid()
      ensures Added(r, components) == AddSpec(old(components), entries, freshId)
    {
      ghost var start := components;
      AddKeepsTyped(start, entries, freshId);
      for k := 0 to |entries|
        invariant PushAll(start, entries[..k]) == Pushed(None, components)
      {
        var e := entries[k];
        ghost var upTo := entries[..k + 1];
        assert upTo[..|upTo| - 1] == entries[..k] && upTo[|upTo| - 1] == e;
        if e.typeId !in components {
          PushAllStops(start, entries, k + 1);
          return Err(ComponentTypeNotFound);
        }
        var pushed := PushComponent(components[e.typeId], e.component);
        if pushed.Err? {
          PushAllStops(start, entries, k + 1);
          return Err(AddActionError(pushed.error));
        }
        components := components[e.typeId := pushed.value];
      }
      assert entries[..|entries|] == entries;
      if ENTITY_ID !in components {
        return Err(EntityComponentTypeNotFound);
      }
      var pushed := PushComponent(components[ENTITY_ID], EntityId(freshId));
      if pushed.Ok? {
        components := components[ENTITY_ID := pushed.value];
      }
      return Ok(freshId);
    }

    /**
     * `get::<(&mut T1, &mut T2)>`: both vectors, or `None` when either type
     * is unregistered or the two are the same type (`get_many_mut` refuses
     * to borrow one entry twice).
     */
    function Get(t1: TypeId, t2: TypeId): (r: Option<(seq<Value>, seq<Value>)>)
      reads this`components
      requires Valid()
      ensures r.Some? <==> t1 in components && t2 in components && t1 != t2
      ensures r.Some? ==> r.value.0 == components[t1].components && r.value.1 == components[t2].components
      ensures r.Some? ==> AllOfType(r.value.0, t1) && AllOfType(r.value.1, t2)
    {
      if t1 in components && t2 in components && t1 != t2
      then Some((components[t1].components, components[t2].components))
      else None
    }
  }

  /**
   * `build`: a default chunk, then the builder, then EntityId's
   * registration. The builder registers `register` in order and then
   * answers `Err(ComponentAlreadyExists(t))` when `builderError` is
   * `Some(t)`; its error becomes `BuildError`.
   */
  method Build(register: seq<TypeId>, builderError: Option<TypeId>) returns (r: Result<Chunk, BuildError>)
    ensures r.Err? <==> builderError.Some?
    ensures r.Err? ==> r.error == AddComponentError(ComponentAlreadyExists(builderError.value))
    ensures r.Ok? ==> fresh(r.value) && r.value.Valid()
    ensures r.Ok? ==> r.value.components == Register(RegisterAll(map[], register), ENTITY_ID)
  {
    var chunk := new Chunk.Default();
    for k := 0 to |register|
      invariant chunk.Valid()
      invariant RegisterAll(chunk.components, register[k..]) == RegisterAll(map[], register)
    {
      assert register[k..][1..] == register[k + 1..];
      var _ := chunk.AddComponent(register[k]);
    }
    assert register[|register|..] == [];
    if builderError.Some? {
      return Err(AddComponentError(ComponentAlreadyExists(builderError.value)));
    }
    var _ := chunk.AddComponent(ENTITY_ID);
    return Ok(chunk);
  }
}
