/**
 * Order-preserving selection. A filtering pass over a sequence (`filter`,
 * `dedup_by`) keeps some positions and drops the others. A mask over the
 * positions says which are kept, and `Selects` says that a result is exactly
 * the kept elements, in their order.
 */
module Selection {
  /** How many positions the mask keeps. */
  function CountKept(mask: seq<bool>): (n: nat)
    ensures n <= |mask|
  {
    if mask == [] then 0
    else CountKept(mask[..|mask| - 1]) + (if mask[|mask| - 1] then 1 else 0)
  }

  /**
   * `r` holds the elements of `s` at the positions `mask` keeps, in order:
   * the element at a kept position `i` is element number "kept positions
   * before `i`" of `r`, and `r` has no other elements.
   */
  ghost predicate Selects<T>(r: seq<T>, s: seq<T>, mask: seq<bool>)
  {
    && |mask| == |s| && |r| == CountKept(mask)
    && forall i :: 0 <= i < |s| && mask[i] ==> CountKept(mask[..i]) < |r| && r[CountKept(mask[..i])] == s[i]
  }

  /** Nothing selects nothing. */
  lemma SelectsEmpty<T>()
    ensures Selects<T>([], [], [])
  {
  }

  /** One more element, kept or dropped, extends a selection. */
  lemma SelectsSnoc<T>(r: seq<T>, s: seq<T>, mask: seq<bool>, x: T, keep: bool)
    requires Selects(r, s, mask)
    ensures Selects(if keep then r + [x] else r, s + [x], mask + [keep])
  {
    var m := mask + [keep];
    assert m[..|mask|] == mask;
    forall i | 0 <= i < |mask|
      ensures m[..i] == mask[..i]
    {
    }
  }

  /** Every element of a selection comes from some kept position. */
  lemma {:induction false} CountKeptHits(mask: seq<bool>, k: nat)
    requires k < CountKept(mask)
    ensures exists i :: 0 <= i < |mask| && mask[i] && CountKept(mask[..i]) == k
  {
    var init := mask[..|mask| - 1];
    assert mask == init + [mask[|mask| - 1]];
    if k < CountKept(init) {
      CountKeptHits(init, k);
      var i :| 0 <= i < |init| && init[i] && CountKept(init[..i]) == k;
      assert mask[..i] == init[..i];
    } else {
      assert mask[..|init|] == init;
    }
  }

  /** A mask determines its selection: two results that both select it are equal. */
  lemma SelectsUnique<T>(r1: seq<T>, r2: seq<T>, s: seq<T>, mask: seq<bool>)
    requires Selects(r1, s, mask) && Selects(r2, s, mask)
    ensures r1 == r2
  {
    forall k | 0 <= k < |r1|
      ensures r1[k] == r2[k]
    {
      CountKeptHits(mask, k);
    }
  }
}
