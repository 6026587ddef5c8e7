# Archetype ECS storage, modelled in Dafny

This project models the core of a small entity-component-system (ECS)
storage written in Rust, in two generations.

**Crate 1** is the archetype storage.
- A `World` keeps one component store (`Components<T>`) per component type.
- Each store is a growable list of fixed-capacity chunks (`ComponentsChunk<T>`, capacity 32).
- It also keeps one `Archetype` per composition, that is, per set of component types. An archetype maps each type of the composition to the ordered list of chunk ids that hold its rows.
- `add_entity` normalises the bag of components, gets or creates the archetype, and pushes every value into its store. It records every new chunk in the archetype.
- `query` and `archetypes` select archetypes. The access managers `extract` store guards in ascending order of type identity.
- The test system `MoveSystem` walks the matching archetypes' chunks in lockstep and moves every Position by its Speed plus an offset.

**Crate 2** is an earlier prototype: one `Chunk` holding one vector per registered type. It has `build`, `add_component`, `add` and `get`, and its own move system with `move_system_prepare`.

Modules (one file each):
- `Values` holds type identities and component values.
- `Wrappers` holds `Option` and `Result`.
- `Chunk`, `Component`, `Archetype` and `World` are the classes of crate 1.
- `WorldSpec` describes the world as a value (`WorldView`). It also holds `add_entity`'s specification, the invariant `WellFormed` and the lemmas about it.
- `Selection` says when one sequence is the order-preserving selection of another under a mask. It states what `dedup_by` and `filter` keep.
- `EntityRows` reads the world as rows (one slot per type, at one chunk position of one archetype). It proves what `add_entity` and the move system do to rows.
- `BaseScenario` replays crate 1's `base` test: six additions, then the two systems.
- `Access` models `extract`.
- `MoveSpec` and `MoveSystem` model the test system.
- `Prototype` and `PrototypeMove` model crate 2.

Things the source leaves open become parameters:
- the Uuid drawn for a new entity (`entityId`, `freshId`);
- the iteration order of a `HashMap` (`order`).

A component type is identified by its 128-bit `TypeUuid`, modelled as a natural number. Crate 2 keys its map by `std::any::TypeId`; the model reuses the same identities there.

## Model

| member | source | states |
|---|---|---|
| Chunk.ComponentsChunk.NewWithCapacity | 1/src/chunk.rs:7-11 | a new chunk is empty and reserves exactly the requested capacity |
| Chunk.ComponentsChunk.IsFullFilled | 1/src/chunk.rs:21-23 | full exactly when the length reaches the capacity; a chunk that is not full has room for one more value |
| Chunk.ComponentsChunk.Push | 1/src/chunk.rs:25-28 | the value is appended, and the returned index is the slot it now occupies |
| Chunk.ComponentsChunk.Set | 1/src/chunk.rs:17-19 | a write through `components_mut` changes exactly one slot |
| Component.Components.New | 1/src/component.rs:12-16 | a new store of type `t` has no chunks |
| Component.Components.ChunkAt | 1/src/component.rs:18-24 | `chunk`/`chunk_mut` find a chunk exactly when the id is in range, and that chunk holds the store's contents at that id |
| Component.Components.Write | 1/src/component.rs:22-24 | a write through `chunk_mut` and `components_mut` changes one slot of one chunk and keeps the store valid |
| Component.ScanFrom | 1/src/component.rs:68-82 | the loop of `push` stops at the first candidate that has room (Open) or at the first one out of range (Missing); every candidate before it exists and is full |
| Component.StorePush | 1/src/component.rs:62-98 | a wrong type gives `InvalidComponentType` and changes nothing, and only a wrong type gives it. `PushToChunk` puts the value into the first candidate chunk with room: every candidate before it exists and is full. `NewChunk` happens only when every candidate exists and is full, and appends a chunk holding just the value. `InvalidChunkIndex(i)` names the first out-of-range candidate, with every candidate before it existing and full, and changes nothing. The address names the value's slot, and no other chunk changes |
| Component.Components.Push | 1/src/component.rs:62-98 | the imperative `push` with its loop returns exactly the result of `StorePush`, and leaves the store with exactly its contents, so every promise of `StorePush` (first non-full candidate, when a new chunk is made, which index is invalid) holds of the loop; in particular a push of a value of the store's own type never gives `InvalidComponentType` |
| Component.PushNeverFails | 1/src/component.rs:62-82 | with the store's own type and only in-range candidates, `push` never fails (why `add_entity`'s `unwrap` does not panic) |
| Component.PushKeepsStoreOk | 1/src/component.rs:84-97 | a push keeps every chunk well-typed and within capacity 32 |
| Archetype.Archetype.New | 1/src/archetype.rs:45-51 | the archetype has exactly the given types, each with an empty chunk-id list |
| Archetype.Archetype.NewEmpty | 1/src/archetype.rs:37-43 | the archetype has only the EntityId type, with an empty list |
| Archetype.Archetype.ChunkIds | 1/src/archetype.rs:13-20 | `Some` exactly when the type belongs to the composition, and then its list |
| Archetype.Archetype.Has | 1/src/archetype.rs:28-30 | `has::<T>` holds exactly when `chunk_ids` finds T |
| Archetype.Archetype.AddChunkId | 1/src/archetype.rs:22-26 | the type's list, created empty if absent, gains the id at its end; no other list changes |
| Archetype.WithChunkId | 1/src/archetype.rs:22-26 | the keys gain `t`; `t`'s list is the old one (or empty) plus the id at the end; the other lists are unchanged |
| Archetype.Archetype.IsEmpty | 1/src/archetype.rs:32-35 | as written, `is_empty` never holds: it demands zero entries and an EntityId entry at once |
| Archetype.Archetype.IsEmptyIntended | 1/src/archetype.rs:32-43 | the intended test holds exactly when the composition is EntityId alone, as `new_empty` builds it |
| Archetype.EmptyArchetypeIsEmpty | 1/src/archetype.rs:32-43 | on the archetype `new_empty` builds, the written `is_empty` is false and the intended one is true |
| WorldSpec.DedupAdjacent | 1/src/world.rs:41-42 | `dedup_by` on the type identity keeps every type of the bag and the type of its last value. No two adjacent results share a type, and a bag without repeated types passes unchanged |
| WorldSpec.DedupAdjacentSelects | 1/src/world.rs:41-42 | the result is exactly the bag's values at the first position and at every position whose type differs from its predecessor's, in their order: only adjacent repeats are removed |
| WorldSpec.DropEntityIds | 1/src/world.rs:43 | the filter removes exactly the EntityId type from the bag's types, and keeps types distinct if they were |
| WorldSpec.DropEntityIdsSelects | 1/src/world.rs:43 | the result is exactly the bag's values that are not EntityIds, in their order |
| WorldSpec.NormaliseAsWritten | 1/src/world.rs:41-46 | the bag as `add_entity` builds it has the bag's types plus EntityId, ends with the fresh EntityId and holds no other EntityId. On a bag without repeated types it equals the intended `Normalise` |
| WorldSpec.NormaliseAsWrittenSelects | 1/src/world.rs:41-46 | the bag as written is selected in two stages, in order: `dedup_by` keeps the first value and every value whose type differs from its predecessor's; `filter` then keeps exactly the non-EntityIds among those; the fresh EntityId comes last |
| WorldSpec.DedupFirst | 1/src/world.rs:41-44 | the intended dedup: one value per type, every type of the input kept, and a bag without repeated types unchanged |
| WorldSpec.DedupFirstSelects | 1/src/world.rs:41-44 | the intended dedup is exactly the first value of each type, in the bag's order |
| WorldSpec.Normalise | 1/src/world.rs:41-46 | the intended normalised bag: one value per type, the bag's types plus EntityId, the fresh EntityId last and no other EntityId. For every non-EntityId type of the bag, its value is the bag's first value of that type |
| WorldSpec.EnsureArchetype | 1/src/world.rs:52-53 | `entry(key).or_insert_with(new)`: an existing archetype is kept, a missing one is created with empty lists for each type, and no other archetype changes |
| WorldSpec.InsertOne | 1/src/world.rs:55-80 | one turn of `add_entity`'s loop: no archetype is added and the archetype keeps its types. Definition, specified by `InsertOneColumn` (the value is placed in its own column at the position where its store has room, and every other column is kept) and `InsertOneFrame` (nothing outside that archetype and that store changes) |
| WorldSpec.InsertAll | 1/src/world.rs:55-81 | `add_entity`'s loop over the bag: no archetype is added and the archetype keeps its types. Definition, specified by `InsertAllColumn`, `InsertAllFrame` and `InsertAllKeepsOthers` |
| WorldSpec.AddEntitySpec | 1/src/world.rs:36-84 | `add_entity` with the bag normalised as intended: the archetypes gain exactly the key of the bag's types plus EntityId. Definition, specified by `AddEntityPreservesWellFormed` and `AddEntityPlacesRow` |
| WorldSpec.AddEntityAsWritten | 1/src/world.rs:36-84 | `add_entity` as written: the archetypes gain exactly the key of the bag's types plus EntityId. Definition, specified by `AddEntityAsWrittenKeysMatch` and `AddEntityAsWrittenOutcome` |
| WorldSpec.NormaliseEntityLast | 1/src/world.rs:43-46 | the EntityId value of the normalised bag is the fresh one |
| WorldSpec.AddEntityPreservesWellFormed | 1/src/world.rs:36-84 | `add_entity` keeps the world well-formed: archetype keys match their compositions, chunk ids are in range, each chunk has one owner, the columns of an archetype stay in lockstep (same chunk lengths position by position), and every store exists and is well-typed |
| WorldSpec.AddEntityAsWrittenKeysMatch | 1/src/world.rs:48-81 | `add_entity` as written, on any bag, keeps every archetype listing exactly the types of its key |
| WorldSpec.AddEntityAsWrittenPreservesWellFormed | 1/src/world.rs:36-84 | on a bag without repeated types, `add_entity` as written gives the intended insertion, so it keeps the world well-formed |
| WorldSpec.AddEntityAsWrittenOutcome | 1/src/world.rs:36-84 | `add_entity` as written keeps the bookkeeping consistent on every bag, and the whole world invariant on a bag without repeated types |
| WorldSpec.InsertAllKeepsOthers | 1/src/world.rs:55-81 | the loop over the bag touches no archetype other than the bag's own |
| WorldSpec.AddEntityPlacesRow | 1/src/world.rs:36-84 | with the bag normalised as intended, which is the code as written on a bag without repeated types (`AddEntityAsWrittenPreservesWellFormed`): the new entity lands at one chunk position `p` of its archetype. There every column's chunk ends with the bag's value of that type (EntityId with the fresh id), all with the same length. Each column is placed: its chunk-id list gains the new chunk's id only when `p` is past its end (`NewChunk`) and is otherwise unchanged (`PushToChunk`); its store changes only in the chunk at `p`, which gains that one value at its end, or is a new chunk holding just it. Other archetypes and other types' stores are unchanged |
| WorldSpec.SplitBagAsWritten | 1/src/world.rs:41-46 | as written, the bag [Position, Speed, Position] passes `dedup_by` and `filter` whole, so both Positions are kept and the fresh EntityId is appended; its composition is {EntityId, Speed, Position} |
| WorldSpec.AsWrittenBreaksCorrelation | 1/src/world.rs:41-44 | as written, that bag, added to an empty world, leaves two rows in the Position chunk and one in the Speed chunk, so the columns are no longer in lockstep |
| WorldSpec.SplitBagIntended | 1/src/world.rs:41-46 | normalised as intended, the same bag keeps one value per type, and the world stays well-formed |
| World.World.Default | 1/src/world.rs:13-17 | `World::default()` is valid and has no archetypes and no stores |
| World.World.AddEntity | 1/src/world.rs:36-84 | the imperative `add_entity` normalises as written and returns the fresh id. It leaves exactly the view `AddEntityAsWritten` gives and keeps the bookkeeping consistent. On a well-formed world and a bag without repeated types it keeps the world valid |
| World.World.Place | 1/src/world.rs:48-81 | getting or creating the archetype and then looping over the bag leaves exactly `InsertAll` after `EnsureArchetype` |
| World.World.ArchetypeFor | 1/src/world.rs:52-53 | the archetype map becomes `EnsureArchetype` of the old one |
| World.World.InsertAllInto | 1/src/world.rs:55-81 | the loop over the bag leaves exactly `InsertAll` of the old view |
| World.World.PushStore | 1/src/world.rs:58-69 | the store is created if missing, and the push gives `StorePush`'s result. Only that type's contents change |
| World.World.Query | 1/src/world.rs:86-91 | a key is returned exactly when its archetype passes the filter |
| World.World.Archetypes | 1/src/world.rs:19-24 | at most one archetype per key, each the archetype of some listed key. None is skipped exactly when every key has one, and then the result is the keys' archetypes in order |
| World.World.ArchetypesSelects | 1/src/world.rs:19-24 | the result is exactly the archetypes of the keys that have one, in the order of the keys: a key is skipped exactly when it has no archetype |
| World.World.ArchetypesAppend | 1/src/world.rs:19-24 | looking up a concatenation of key lists is the concatenation of the lookups |
| Access.Insert | 1/src/world.rs:187-193 | insertion into an ascending list keeps it ascending and adds exactly one occurrence |
| Access.SortAsc | 1/src/world.rs:187-193 | `uuids.sort()`: ascending, and a permutation of the input |
| Access.AscendingUnique | 1/src/world.rs:187-193 | two ascending lists with the same elements are equal |
| Access.SortCanonical | 1/src/world.rs:186-193 | the order of acquisition depends only on which types are requested, not on their order in the tuple |
| Access.SortAscending | 1/src/world.rs:187-193 | sorting an ascending list changes nothing |
| Access.FirstIndex | 1/src/world.rs:199-216 | the first `if T_i::type_uuid() == uuid` branch that matches: the first position holding the identity |
| Access.DistinctFirst | 1/src/world.rs:199-216 | a list has no repeats exactly when every position is the first position of its element |
| Access.AllSome | 1/src/world.rs:219 | `Some((t1?, t2?, t3?))`: `Some` exactly when every slot is filled, and then with their values |
| Access.Extract | 1/src/world.rs:183-220 | the identities acquired are a prefix of the ascending order, stopping exactly at a missing store. The result is `None` exactly when a requested store is missing or an identity is repeated. Otherwise request `i` gets a guard in its own mode over its own store |
| MoveSpec.RequestedDistinct | 1/src/tests/base.rs:54-58 | the three types of `(&EntityId, &mut Position, &Speed)` are distinct |
| MoveSpec.RequestedOrder | 1/src/tests/base.rs:54-58 | their guards are taken EntityId, Speed, Position (ascending Uuid), not in the tuple's order |
| MoveSpec.Zip3 | 1/src/tests/base.rs:87 | `izip!` visits one position per index of the shortest list, and takes the three ids at that index |
| MoveSpec.Visits | 1/src/tests/base.rs:74-87 | every visit's Position chunk belongs to the Position list of an archetype that has all three lists |
| MoveSpec.MoveRow | 1/src/tests/base.rs:107-109 | the row update: a Position stays a Position, and without a Speed it is unchanged. Definition, specified by `MoveRowCommutes` |
| MoveSpec.MoveChunk | 1/src/tests/base.rs:100-110 | the rows loop keeps the chunk's length. Definition, specified by `MoveChunkCommutes` and `MoveSystem.SystemChunk` |
| MoveSpec.Step | 1/src/tests/base.rs:87-111 | one visit keeps the Position store's shape. Definition, specified by `ApplyOnce` |
| MoveSpec.Apply | 1/src/tests/base.rs:74-111 | a run of visits keeps the Position store's shape. Definition, specified by `ApplyAppend`, `ApplyOnce` and `SystemKeepsUnmatched` |
| MoveSpec.Moved | 1/src/tests/base.rs:68-113 | the system keeps the Position store's shape. Definition, specified by `MovedOnce`, `SystemKeepsUnmatched` and `SystemsCommute` |
| MoveSpec.ApplyAppend | 1/src/tests/base.rs:74-111 | running two runs of visits one after another is running their concatenation |
| MoveSpec.SystemKeepsUnmatched | 1/src/tests/base.rs:74-85 | a Position chunk that no complete archetype lists is left unchanged by the system |
| MoveSpec.ApplyOnce | 1/src/tests/base.rs:87-111 | a run of visits in which only one visit points at a Position chunk leaves that chunk as that visit's rows loop makes it |
| MoveSpec.MovedOnce | 1/src/tests/base.rs:74-111 | the system moves the Position chunk at one position of a matched archetype by that archetype's Speed chunk at the same position, exactly once, when no other position lists that Position chunk |
| MoveSpec.MoveRowCommutes | 1/src/tests/base.rs:107-109 | two row updates with any speeds and offsets give the same Position in either order |
| MoveSpec.MoveChunkCommutes | 1/src/tests/base.rs:104-110 | two rows loops over one chunk commute |
| MoveSpec.SystemsCommute | 1/src/tests/base.rs:257-270 | the two spawned systems (any offsets, here 5 and 2) leave the same Position store whichever runs first; `BaseScenario.BaseMovesFull` gives the resulting values |
| MoveSystem.Query | 1/src/tests/base.rs:42-66 | given the matching keys each once in the map's order, the result is `None` exactly when no archetype matches or one of the three stores is missing. Otherwise the props hold the matched archetypes in that order and the three stores |
| MoveSystem.System | 1/src/tests/base.rs:68-113 | the Position store becomes `Moved`: every visit of every matched archetype applied in order, with the other stores untouched |
| MoveSystem.SystemArchetype | 1/src/tests/base.rs:87-111 | the lockstep walk over one archetype's lists applies exactly its visits, skipping a position whose chunks do not all exist |
| MoveSystem.SystemChunk | 1/src/tests/base.rs:100-110 | the rows loop leaves the visited Position chunk as `MoveChunk`, with the other chunks unchanged |
| EntityRows.EmptyHoldsNothing | 1/src/world.rs:13-17 | the empty world has no rows and holds no entities |
| EntityRows.AddEntityNewRow | 1/src/world.rs:36-84 | with the bag normalised as intended, which is the code as written on a bag without repeated types (`AddEntityAsWrittenPreservesWellFormed`): `add_entity` adds one row at the position its archetype opens, and that row holds exactly the normalised bag |
| EntityRows.AddEntityOldRows | 1/src/world.rs:36-84 | with the bag normalised as intended, which is the code as written on a bag without repeated types (`AddEntityAsWrittenPreservesWellFormed`): every other row after `add_entity` was a row before |
| EntityRows.AddEntityKeepsCells | 1/src/world.rs:36-84 | with the bag normalised as intended, which is the code as written on a bag without repeated types (`AddEntityAsWrittenPreservesWellFormed`): `add_entity` changes no existing cell of any archetype, column, chunk position or slot |
| EntityRows.AddEntityHolds | 1/src/world.rs:36-84 | with the bag normalised as intended, which is the code as written on a bag without repeated types (`AddEntityAsWrittenPreservesWellFormed`): if the world's rows are exactly some entities' bags, after `add_entity` they are those bags plus the new normalised one |
| EntityRows.MovedRow | 1/src/tests/base.rs:74-111 | on a well-formed world the lockstep walk pairs the slots of one entity: the system moves the Position of each row of a matched archetype by the Speed of the same row, once |
| EntityRows.UnmatchedRowKept | 1/src/tests/base.rs:74-85 | the Position of a row of an archetype the system does not walk is kept |
| BaseScenario.Replay | 1/src/tests/base.rs:221-255 | any list of bags can be added one after another from the empty world, and the bookkeeping stays consistent |
| BaseScenario.RunKeysAll | 1/src/world.rs:48-53 | after a run of additions the archetypes are exactly the compositions of the bags, each with EntityId |
| BaseScenario.RunHoldsAll | 1/src/world.rs:36-84 | after a run of additions of bags without repeated types, the world is well-formed and its rows are exactly the bags, normalised |
| BaseScenario.BaseRunShape | 1/src/tests/base.rs:221-255 | the six additions of the test leave a well-formed world with exactly three archetypes: {EntityId, Speed, Position}, {EntityId, Position} and {EntityId, Speed} |
| BaseScenario.BaseRunRows | 1/src/tests/base.rs:221-255 | after the six additions, the world's rows are the six bags, normalised |
| BaseScenario.BaseRunFacts | 1/src/tests/base.rs:221-255 | after the six additions, every entity with a Position is at the origin, and every entity with both has a Speed |
| BaseScenario.BaseFullRows | 1/src/tests/base.rs:223-236 | each of the first loop's two entities is a row of {EntityId, Speed, Position} with Speed (i, 2, 0) |
| BaseScenario.BaseQuery | 1/src/tests/base.rs:42-66 | in that world the system's filter matches the archetype {EntityId, Speed, Position} and no other |
| BaseScenario.BaseMovesFull | 1/src/tests/base.rs:257-270 | after the systems with offsets 5 and 2, each entity with a Speed and a Position is at (2 sx + 7, 2 sy + 7, 2 sz + 7) for its own Speed (sx, sy, sz) |
| BaseScenario.BaseKeepsStill | 1/src/tests/base.rs:237-270 | the entities with a Position and no Speed stay at the origin through both systems |
| BaseScenario.TwoRunsRow | 1/src/tests/base.rs:257-270 | through both systems, a row of {EntityId, Speed, Position} moves by its Speed + 5, then by its Speed + 2 |
| BaseScenario.TwoRunsKeep | 1/src/tests/base.rs:257-270 | through both systems, a row of any other archetype keeps its Position |
| Prototype.PushComponent | 2/src/chunk.rs:38-53 | the push succeeds exactly when the value has the vector's type, and then appends it. Otherwise it gives `InvalidComponentType` with the required type, and as found type always the identity of `Box<dyn Any>` itself, since `type_id` is called on the box |
| Prototype.Register | 2/src/chunk.rs:122-134 | `try_insert` adds an empty vector for a new type and keeps an existing one |
| Prototype.RegisterAll | 2/src/chunk.rs:105-109 | registering a list of types adds exactly those keys with empty vectors and keeps the existing ones |
| Prototype.PushAll | 2/src/chunk.rs:82-88 | the loop never adds or removes a type and never changes a vector's required type |
| Prototype.PushAllSucceeds | 2/src/chunk.rs:82-88 | the loop runs to the end exactly when every entry's type is registered and matches its value |
| Prototype.PushAllContents | 2/src/chunk.rs:82-88 | after a complete loop, each vector is its old contents plus that type's entries in list order |
| Prototype.PushAllStops | 2/src/chunk.rs:82-88 | after the first failure nothing more is pushed |
| Prototype.AddSpec | 2/src/chunk.rs:81-98 | `add` never adds or removes a type, and returns `Ok` exactly when the loop completes and EntityId is registered. Definition, specified by `AddSucceeds`, `AddContents`, `AddNoRollback` and `AddKeepsTyped` |
| Prototype.AddSucceeds | 2/src/chunk.rs:81-98 | `add` returns the fresh id exactly when every entry is pushable and EntityId is registered |
| Prototype.AddContents | 2/src/chunk.rs:81-98 | after a successful `add`, each vector gains its entries, and the EntityId vector gains the fresh id |
| Prototype.AddNoRollback | 2/src/chunk.rs:82-88 | an unregistered type at entry `k` gives `ComponentTypeNotFound`, and the pushes of entries before `k` stay in the chunk |
| Prototype.AddKeepsTyped | 2/src/chunk.rs:81-98 | every vector holds only values of its own type, whatever `add` returns |
| Prototype.Chunk.Default | 2/src/chunk.rs:67-70 | a default chunk has no registered types, and every vector (there are none) holds its own type |
| Prototype.Chunk.AddComponent | 2/src/chunk.rs:122-134 | always `Ok` (the error of `try_insert` is discarded), and the map becomes `Register` of the old one; every vector still holds only its own type |
| Prototype.Chunk.Add | 2/src/chunk.rs:81-98 | the imperative `add` returns and leaves exactly what `AddSpec` gives, and every vector still holds only its own type |
| Prototype.Chunk.Get | 2/src/chunk.rs:154-168 | on a chunk whose vectors hold their own types (the class invariant, on which the downcasts of `extract_components` rely), `Some` exactly when both types are registered and distinct (`get_many_mut`), and then their two vectors, each of its own type |
| Prototype.Build | 2/src/chunk.rs:105-115 | `Err` exactly when the builder fails, wrapping its error. Otherwise a fresh chunk with the builder's types plus EntityId, all empty |
| PrototypeMove.MoveSystemPrepare | 2/src/tests/base.rs:36-44 | `Some` exactly when Speed and Position are both registered, with counter 10 |
| PrototypeMove.MoveSystem | 2/src/tests/base.rs:25-34 | as written, the loop variable named `position` is bound to the Speed row, so each Speed gains its Position and the Positions are unchanged |
| PrototypeMove.MoveSystemIntended | 2/src/tests/base.rs:25-30 | intended: each Position gains its Speed, over the rows both vectors have |
| PrototypeMove.SwappedBinding | 2/src/tests/base.rs:25-30 | the two differ: the intended update leaves a Position unchanged exactly when its Speed is zero, and the written one leaves a Speed unchanged exactly when its Position is at the origin |
| PrototypeMove.AdvancedIsRowsLoop | 2/src/tests/base.rs:25-30 | the intended update is the row update of crate 1's system with offset 0 |
| PrototypeMove.GainedAtOrigin | 2/src/tests/base.rs:57-62 | with every Position at the origin, the written system changes nothing |
| PrototypeMove.Built3 | 2/src/tests/base.rs:50-55 | building with Speed and Position registers three empty vectors: Speed, Position, EntityId |
| PrototypeMove.Added3 | 2/src/tests/base.rs:57-60 | adding one Speed and one Position to that chunk succeeds and fills each vector with one value |
| PrototypeMove.BaseChunk | 2/src/tests/base.rs:50-60 | the chunk of the `base` test after `build` and `add` |
| PrototypeMove.BaseScenario | 2/src/tests/base.rs:46-65 | the whole `base` test: after the system, the chunk is unchanged, with Speed (1,2,0), Position (0,0,0) and the fresh EntityId |

## Left out

- World.World.AddEntity and the lemmas on `AddEntityAsWritten` model the code as written. The world invariant is proved for bags without repeated types, which every call in the tests passes. `AsWrittenBreaksCorrelation` shows a bag that breaks it.
- WorldSpec.AddEntityPlacesRow, EntityRows.AddEntityNewRow, EntityRows.AddEntityOldRows, EntityRows.AddEntityKeepsCells and EntityRows.AddEntityHolds are stated for the intended normalisation. They carry over to the code as written only for bags without repeated types. On a bag with non-adjacent repeats the code as written places more values in one column than in another (`AsWrittenBreaksCorrelation`).
- BaseScenario: the two spawned systems are modelled as running one after the other, offset 5 first. `MoveSpec.SystemsCommute` shows the other order leaves the same Positions. The test's final `println!` is not modelled.
- Locking and async: the `RwLock` guards, `await` points, task spawning and any interleaving of the two systems are not modelled. `SystemsCommute` covers only the two sequential orders.
- `HashMap` iteration order is a parameter (`order` in `MoveSystem.Query`). `World.World.Query` returns a set rather than a `Vec`.
- The Uuid (crate 1) or `Uuid::new_v4` (crate 2) drawn for a new entity is a parameter.
- World.World.AddEntity: the source `unwrap`s a failed push (a panic). The model keeps the error and changes nothing. `Component.PushNeverFails` shows it cannot happen in a well-formed world.
- MoveSystem.System: a u32 overflow in `position += speed + offset` panics in the source. The model instead requires that the final Positions fit in u32.
- PrototypeMove.MoveSystem and PrototypeMove.MoveSystemIntended: the same u32 overflow becomes a precondition.
- An archetype inside the world is held as its chunk-id map, as the `HashMap` owns it by value. `WithChunkId` is the function both it and `Archetype.Archetype.AddChunkId` follow.
- `Component.Components.Valid` does not include the well-typedness of the chunks. The world's invariant `WellFormed` carries it (`StoresOk`).
- Access.Extract: for a repeated identity whose first request is `&mut`, the source waits for a second write lock on the store it already holds and never returns. The model returns `None` there, as it does for every repeated identity.
- `extract` is modelled once, for any number of requests. This covers both the 2- and 3-tuple managers. `world::get` is a direct call to it.
- The `ISystem` trait plumbing (`call::system`, `call_system`) and `println!`/`Debug` output are not modelled.
- The prototype's `has` and `updated` are `todo!()` stubs and are not modelled.
- The prototype's `extract_components` is folded into `Get`, whose downcasts always match.
- The prototype's `AddActionNotFound` and `InvalidComponentsCollectionType` errors are never produced. In the model each vector always has its registered type.
- Prototype.Build: the builder closure is modelled by the list of types it registers and an optional error.
- PrototypeMove.MoveSystemPrepare: the two borrowed slices are modelled as access to the chunk's two vectors.

## Findings

| source | as written | input that shows it | evidently intended | confidence | as-written member | corrected member |
|---|---|---|---|---|---|---|
| 1/src/world.rs:41-44 | `dedup_by` removes only adjacent values of the same type | the bag [Position(0,0,0), Speed(1,2,0), Position(5,5,5)] added to an empty world: the Position chunk gets two rows and the Speed chunk one | one value per type in the bag | not executed | WorldSpec.AsWrittenBreaksCorrelation | WorldSpec.AddEntityPreservesWellFormed |
| 2/src/tests/base.rs:25-30 | `speed.iter_mut().zip(position)` binds the Speed row to the name `position`, so Speed gains Position | Speed (1,2,0) with Position (0,0,0): the Position stays at the origin | each Position gains its Speed | not executed | PrototypeMove.SwappedBinding | PrototypeMove.MoveSystemIntended |
| 1/src/archetype.rs:32-35 | `is_empty` asks for zero entries and an EntityId entry at once | the archetype `new_empty` returns: `is_empty` is false | the composition is EntityId alone | not executed | Archetype.Archetype.IsEmpty | Archetype.EmptyArchetypeIsEmpty |
