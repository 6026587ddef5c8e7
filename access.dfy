/**
 * Lock acquisition order of the access managers (`IAccessManager::extract`):
 * a tuple of requested component types is visited in ascending order of the
 * types' identities, whatever order the tuple declares them in.
 */
module Access {
  import opened Wrappers
  import opened Values

  /** `&T` asks for a read guard, `&mut T` for a write guard. */
  datatype Mode = Shared | Exclusive

  /** One element of the requested tuple: a component type and how it is borrowed. */
  datatype Request = Request(uuid: TypeId, mode: Mode)

  /** The identities of the requested types, in declaration order. */
  function Uuids(requests: seq<Request>): (us: seq<TypeId>)
    ensures |us| == |requests|
    ensures forall i :: 0 <= i < |requests| ==> us[i] == requests[i].uuid
  {
    if requests == [] then [] else [requests[0].uuid] + Uuids(requests[1..])
  }

  ghost predicate Ascending(s: seq<TypeId>)
  {
    forall i, j :: 0 <= i < j < |s| ==> s[i] <= s[j]
  }

  /** No identity occurs twice. */
  ghost predicate Distinct(s: seq<TypeId>)
  {
    forall i, j :: 0 <= i < j < |s| ==> s[i] != s[j]
  }

  /** No element of `s` is below `lo`. */
  ghost predicate AtLeast(lo: TypeId, s: seq<TypeId>)
  {
    forall i :: 0 <= i < |s| ==> lo <= s[i]
  }

  lemma AtLeastSameElements(lo: TypeId, a: seq<TypeId>, b: seq<TypeId>)
    requires AtLeast(lo, b) && multiset(a) <= multiset(b)
    ensures AtLeast(lo, a)
  {
    forall i | 0 <= i < |a|
      ensures lo <= a[i]
    {
      assert a[i] in multiset(a);
      assert a[i] in multiset(b);
    }
  }

  /** `x` put into ascending `s` before the first element not below it. */
  function Insert(x: TypeId, s: seq<TypeId>): (r: seq<TypeId>)
    requires Ascending(s)
    ensures Ascending(r)
    ensures |r| == |s| + 1
    ensures multiset(r) == multiset(s) + multiset{x}
  {
    if s == [] || x <= s[0] then [x] + s
    else
      var rest := Insert(x, s[1..]);
      assert s == [s[0]] + s[1..];
      assert AtLeast(s[0], s[1..] + [x]);
      assert multiset(rest) == multiset(s[1..] + [x]);
      AtLeastSameElements(s[0], rest, s[1..] + [x]);
      [s[0]] + rest
  }

  /** `Vec::sort` on identities: the same identities, ascending. */
  function SortAsc(s: seq<TypeId>): (r: seq<TypeId>)
    ensures Ascending(r)
    ensures |r| == |s|
    ensures multiset(r) == multiset(s)
  {
    if s == [] then []
    else
      assert s == [s[0]] + s[1..];
      Insert(s[0], SortAsc(s[1..]))
  }

  /** Two non-empty ascending sequences with the same elements start alike. */
  lemma SameHead(a: seq<TypeId>, b: seq<TypeId>)
    requires Ascending(a) && Ascending(b) && a != [] && b != []
    requires multiset(a) == multiset(b)
    ensures a[0] == b[0]
  {
    assert a[0] in multiset(b) && b[0] in multiset(a);
    var i :| 0 <= i < |b| && b[i] == a[0];
    var j :| 0 <= j < |a| && a[j] == b[0];
  }

  /** Two ascending sequences with the same elements are equal. */
  lemma {:induction false} AscendingUnique(a: seq<TypeId>, b: seq<TypeId>)
    requires Ascending(a) && Ascending(b)
    requires multiset(a) == multiset(b)
    ensures a == b
  {
    if a != [] {
      assert |b| == |multiset(b)| == |multiset(a)| == |a|;
      SameHead(a, b);
      assert a == [a[0]] + a[1..] && b == [b[0]] + b[1..];
      assert multiset(a[1..]) == multiset(b[1..]) by {
        assert multiset(a) == multiset{a[0]} + multiset(a[1..]);
        assert multiset(b) == multiset{b[0]} + multiset(b[1..]);
        assert multiset(a[1..]) == multiset(a) - multiset{a[0]};
        assert multiset(b[1..]) == multiset(b) - multiset{b[0]};
      }
      AscendingUnique(a[1..], b[1..]);
    }
  }

  /**
   * The acquisition order depends only on which types are requested, not on
   * the order the tuple declares them in.
   */
  lemma SortCanonical(a: seq<TypeId>, b: seq<TypeId>)
    requires multiset(a) == multiset(b)
    ensures SortAsc(a) == SortAsc(b)
  {
    AscendingUnique(SortAsc(a), SortAsc(b));
  }

  /** Sorting an already ascending list leaves it as it is. */
  lemma SortAscending(s: seq<TypeId>)
    requires Ascending(s)
    ensures SortAsc(s) == s
  {
    AscendingUnique(SortAsc(s), s);
  }

  /** The first position of `u` in `us`: the first `if T_i::type_uuid() == uuid` branch that matches. */
  function FirstIndex(us: seq<TypeId>, u: TypeId): (i: nat)
    requires u in us
    ensures i < |us| && us[i] == u
    ensures forall j :: 0 <= j < i ==> us[j] != u
  {
    if us[0] == u then 0 else 1 + FirstIndex(us[1..], u)
  }

  /** Every position of a list without repeats is the first position of its element. */
  lemma DistinctFirst(us: seq<TypeId>)
    ensures Distinct(us) <==> forall i :: 0 <= i < |us| ==> FirstIndex(us, us[i]) == i
  {
    if !Distinct(us) {
      var i, j :| 0 <= i < j < |us| && us[i] == us[j];
      assert FirstIndex(us, us[j]) <= i;
    }
  }

  /** The final `Some((t1?, t2?, ..))`: every slot filled, or nothing. */
  function AllSome<T>(slots: seq<Option<T>>): (r: Option<seq<T>>)
    ensures r.Some? <==> forall i :: 0 <= i < |slots| ==> slots[i].Some?
    ensures r.Some? ==> |r.value| == |slots| && forall i :: 0 <= i < |slots| ==> r.value[i] == slots[i].value
  {
    if slots == [] then Some([])
    else if slots[0].None? then None
    else match AllSome(slots[1..])
      case None => None
      case Some(rest) => Some([slots[0].value] + rest)
  }

  /** What `T::extract` hands out for one requested type: a read (`&T`) or write (`&mut T`) guard over its store. */
  datatype Guard<S> = Guard(mode: Mode, store: S)

  /**
   * `extract` of the 2- and 3-tuple access managers, for any number of
   * requests, over the world's stores `components`: the requested identities are visited in ascending order, each
   * taking the store of the first request naming it (`acquired` lists the
   * identities visited so far); a missing store ends it with `None` at once,
   * and a request left without a guard (a repeated identity) makes the
   * final `Some((t1?, t2?, ..))` `None`.
   */
  method Extract<S>(components: map<TypeId, S>, requests: seq<Request>) returns (guards: Option<seq<Guard<S>>>, acquired: seq<TypeId>)
    ensures var order := SortAsc(Uuids(requests));
      && |acquired| <= |order| && acquired == order[..|acquired|]
      && (|acquired| < |order| ==> order[|acquired|] !in components)
    ensures forall u :: u in acquired ==> u in components
    ensures guards.None? <==>
      (exists i :: 0 <= i < |requests| && requests[i].uuid !in components) || !Distinct(Uuids(requests))
    ensures guards.Some? ==> |acquired| == |requests|
    ensures guards.Some? ==> |guards.value| == |requests|
    ensures guards.Some? ==>
      forall i :: 0 <= i < |requests| ==> guards.value[i] == Guard(requests[i].mode, components[requests[i].uuid])
  {
    var us := Uuids(requests);
    var order := SortAsc(us);
    var slots: seq<Option<Guard<S>>> := seq(|requests|, _ => None);
    SortKeepsAll(us);
    FillStart(requests, components);
    for k := 0 to |order|
      invariant forall u :: u in order[..k] ==> u in components
      invariant slots == Slots(requests, order[..k], components)
    {
      var u := order[k];
      var i := FirstIndex(us, u);
      if u !in components {
        assert requests[i].uuid !in components;
        return None, order[..k];
      }
      FillNext<S>(requests, order[..k], components, u);
      slots := slots[i := Some(Guard(requests[i].mode, components[u]))];
      PrefixNext(order, k);
    }
    assert order[..|order|] == order;
    acquired := order;
    guards := AllSome(slots);
    FillDone<S>(requests, acquired, components);
  }

  /** Slot `i` of `extract` once the identities in `acquired` are visited: filled by the first request naming a visited identity. */
  ghost function Slot<S>(requests: seq<Request>, i: nat, acquired: seq<TypeId>, components: map<TypeId, S>): Option<Guard<S>>
    requires i < |requests|
  {
    var u := requests[i].uuid;
    if u in acquired && u in components && FirstIndex(Uuids(requests), u) == i
    then Some(Guard(requests[i].mode, components[u])) else None
  }

  /** All slots once the identities in `acquired` are visited. */
  ghost function Slots<S>(requests: seq<Request>, acquired: seq<TypeId>, components: map<TypeId, S>): (slots: seq<Option<Guard<S>>>)
    ensures |slots| == |requests|
  {
    seq(|requests|, i requires 0 <= i < |requests| => Slot<S>(requests, i, acquired, components))
  }

  /** Before any identity is visited, every slot is empty. */
  lemma FillStart<S>(requests: seq<Request>, components: map<TypeId, S>)
    ensures Slots<S>(requests, [], components) == seq(|requests|, _ => None)
  {
  }

  /** Visiting `u` fills the slot of the first request naming it. */
  lemma FillNext<S>(requests: seq<Request>, acquired: seq<TypeId>, components: map<TypeId, S>, u: TypeId)
    requires u in Uuids(requests) && u in components
    ensures var i := FirstIndex(Uuids(requests), u);
      Slots<S>(requests, acquired + [u], components)
      == Slots<S>(requests, acquired, components)[i := Some(Guard(requests[i].mode, components[u]))]
  {
    var i := FirstIndex(Uuids(requests), u);
    var after := Slots<S>(requests, acquired, components)[i := Some(Guard(requests[i].mode, components[u]))];
    forall j | 0 <= j < |requests|
      ensures after[j] == Slot<S>(requests, j, acquired + [u], components)
    {
      assert requests[j].uuid in acquired + [u] <==> requests[j].uuid in acquired || requests[j].uuid == u;
    }
  }

  /** With every identity visited, all slots are filled exactly when no identity is repeated. */
  lemma FillDone<S>(requests: seq<Request>, acquired: seq<TypeId>, components: map<TypeId, S>)
    requires forall i :: 0 <= i < |requests| ==> requests[i].uuid in acquired
    requires forall u :: u in acquired ==> u in components
    ensures forall i :: 0 <= i < |requests| ==> requests[i].uuid in components
    ensures var slots := Slots<S>(requests, acquired, components);
      && (AllSome(slots).None? <==> !Distinct(Uuids(requests)))
      && (AllSome(slots).Some? ==>
            forall i :: 0 <= i < |requests| ==> AllSome(slots).value[i] == Guard(requests[i].mode, components[requests[i].uuid]))
  {
    DistinctFirst(Uuids(requests));
  }

  /** Sorting loses no identity. */
  lemma SortKeepsAll(us: seq<TypeId>)
    ensures forall i :: 0 <= i < |us| ==> us[i] in SortAsc(us)
    ensures forall u :: u in SortAsc(us) ==> u in us
  {
    forall u | u in SortAsc(us)
      ensures u in us
    {
      assert u in multiset(SortAsc(us));
    }
    forall i | 0 <= i < |us|
      ensures us[i] in SortAsc(us)
    {
      assert us[i] in multiset(SortAsc(us));
    }
  }

  lemma PrefixNext(s: seq<TypeId>, k: nat)
    requires k < |s|
    ensures s[..k] + [s[k]] == s[..k + 1]
  {
  }
}
