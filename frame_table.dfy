/**
 * `S.chunks` of client/js/network.js: the frames being reassembled, keyed
 * by frame id. A JS `Map` iterates in insertion order and `set` on a
 * present key keeps its place, so the table is a sequence of entries.
 */
module FrameTable {
  import opened Bytes
  import opened ClientState
  import opened NetworkFec

  /** No frame id appears twice (the keys of a `Map`). */
  predicate Distinct(es: seq<Entry>)
  {
    forall a, b :: 0 <= a < b < |es| ==> es[a].id != es[b].id
  }

  /** Every pending frame has one slot per chunk. */
  predicate AllShaped(es: seq<Entry>)
  {
    forall k :: 0 <= k < |es| ==> Shaped(es[k].frame)
  }

  /** The table's invariant: distinct ids, and every frame's bookkeeping is right. */
  predicate TableOk(es: seq<Entry>)
  {
    Distinct(es) && forall k :: 0 <= k < |es| ==> Consistent(es[k].frame)
  }

  /** `S.chunks.has(id)`. */
  predicate Has(es: seq<Entry>, id: nat)
  {
    exists k :: 0 <= k < |es| && es[k].id == id
  }

  /** Where `S.chunks.get(id)` finds its entry. */
  function Find(es: seq<Entry>, id: nat): (r: Option<nat>)
    ensures r.None? <==> !Has(es, id)
    ensures r.Some? ==> r.value < |es| && es[r.value].id == id
  {
    if |es| == 0 then None
    else if es[|es| - 1].id == id then Some(|es| - 1)
    else
      assert forall k :: 0 <= k < |es| - 1 ==> es[..|es| - 1][k] == es[k];
      Find(es[..|es| - 1], id)
  }

  /** `S.chunks.delete(id)`: the other entries, in their order. */
  function Remove(es: seq<Entry>, id: nat): (r: seq<Entry>)
    ensures |r| <= |es|
    ensures forall e :: e in r <==> e in es && e.id != id
  {
    if |es| == 0 then []
    else Remove(es[..|es| - 1], id) + (if es[|es| - 1].id == id then [] else [es[|es| - 1]])
  }

  /** Where the smallest id sits (`[...S.chunks.keys()].sort((a, b) => a - b)[0]`). */
  function MinAt(es: seq<Entry>): (k: nat)
    requires |es| > 0
    ensures k < |es| && forall j :: 0 <= j < |es| ==> es[k].id <= es[j].id
  {
    if |es| == 1 then 0
    else
      var k := MinAt(es[..|es| - 1]);
      if es[|es| - 1].id < es[k].id then |es| - 1 else k
  }

  /** Deleting an absent id changes nothing. */
  lemma {:induction false} RemoveAbsent(es: seq<Entry>, id: nat)
    requires !Has(es, id)
    ensures Remove(es, id) == es
  {
    if |es| > 0 {
      var init := es[..|es| - 1];
      var last := es[|es| - 1];
      forall k | 0 <= k < |init|
        ensures init[k].id != id
      {
        assert init[k] == es[k];
      }
      RemoveAbsent(init, id);
      assert es == init + [last];
    }
  }

  /** Deleting a present id removes exactly one entry. */
  lemma {:induction false} RemovePresent(es: seq<Entry>, id: nat)
    requires Distinct(es) && Has(es, id)
    ensures |Remove(es, id)| == |es| - 1
  {
    var init := es[..|es| - 1];
    assert forall k :: 0 <= k < |init| ==> init[k] == es[k];
    if es[|es| - 1].id == id {
      forall k | 0 <= k < |init|
        ensures init[k].id != id
      {
        assert es[k].id != es[|es| - 1].id;
      }
      RemoveAbsent(init, id);
    } else {
      var k :| 0 <= k < |es| && es[k].id == id;
      assert k < |init| && init[k].id == id;
      RemovePresent(init, id);
    }
  }

  /** Deleting keeps the ids distinct. */
  lemma {:induction false} RemoveDistinct(es: seq<Entry>, id: nat)
    requires Distinct(es)
    ensures Distinct(Remove(es, id))
  {
    if |es| > 0 {
      var init := es[..|es| - 1];
      var last := es[|es| - 1];
      assert forall k :: 0 <= k < |init| ==> init[k] == es[k];
      RemoveDistinct(init, id);
      var r0 := Remove(init, id);
      if last.id != id {
        forall k | 0 <= k < |r0|
          ensures r0[k].id != last.id
        {
          assert r0[k] in init;
        }
      }
    }
  }

  /** Deleting keeps the table's invariant. */
  lemma RemoveOk(es: seq<Entry>, id: nat)
    requires TableOk(es)
    ensures TableOk(Remove(es, id))
  {
    RemoveDistinct(es, id);
    var r := Remove(es, id);
    forall k | 0 <= k < |r|
      ensures Consistent(r[k].frame)
    {
      assert r[k] in es;
    }
  }

  /** Deleting keeps every frame shaped. */
  lemma RemoveShaped(es: seq<Entry>, id: nat)
    requires AllShaped(es)
    ensures AllShaped(Remove(es, id))
  {
    var r := Remove(es, id);
    forall k | 0 <= k < |r|
      ensures Shaped(r[k].frame)
    {
      assert r[k] in es;
    }
  }

  /** The invariant gives the weaker one. */
  lemma OkShaped(es: seq<Entry>)
    requires TableOk(es)
    ensures AllShaped(es)
  {
    forall k | 0 <= k < |es|
      ensures Shaped(es[k].frame)
    {
      assert Consistent(es[k].frame);
    }
  }

  /** Putting a well-kept frame back under its own id keeps the table's invariant. */
  lemma ReplaceOk(es: seq<Entry>, k: nat, e: Entry)
    requires TableOk(es) && k < |es| && es[k].id == e.id && Consistent(e.frame)
    ensures TableOk(es[k := e])
  {
  }

  /** After deleting an id, exactly the other ids present before are still present. */
  lemma RemoveHas(es: seq<Entry>, id: nat, x: nat)
    ensures Has(Remove(es, id), x) <==> Has(es, x) && x != id
  {
    var r := Remove(es, id);
    if Has(r, x) {
      var j :| 0 <= j < |r| && r[j].id == x;
      assert r[j] in es;
    }
    if Has(es, x) && x != id {
      var j :| 0 <= j < |es| && es[j].id == x;
      assert es[j] in r;
    }
  }
}
