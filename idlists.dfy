/**
 * The id-list editing shared by the playlist and user updates: look up the requested ids, reject the
 * request if any is unknown, append the ones not yet listed, then filter out the ones to remove.
 */
module IdLists {
  import opened Wrappers
  import opened Seqs

  /**
   * `findBy({ id: In(ids) })` against a table whose ids are `store`: each requested id that exists, once,
   * in the order of its first request.
   */
  function FindExisting(store: set<nat>, ids: seq<nat>): (r: seq<nat>)
    ensures NoDup(r)
    ensures Elems(r) == Elems(ids) * store
    decreases |ids|
  {
    if ids == [] then []
    else
      var prefix := ids[..|ids| - 1];
      var last := ids[|ids| - 1];
      assert Elems(ids) == Elems(prefix) + {last} by {
        assert ids == prefix + [last];
      }
      var prior := FindExisting(store, prefix);
      if last in store then Insert(prior, last) else prior
  }

  /** `ids.filter(id => !found.some(record => record.id === id))`: the requested ids that were not found. */
  function MissingIds(found: seq<nat>, ids: seq<nat>): seq<nat> {
    Filter(ids, id => id !in found)
  }

  /** The requested ids not in the table, in request order and with repeats, are exactly what the lookup misses. */
  lemma MissingIdsAreAbsent(store: set<nat>, ids: seq<nat>)
    ensures MissingIds(FindExisting(store, ids), ids) == Filter(ids, id => id !in store)
    ensures MissingIds(FindExisting(store, ids), ids) == [] <==> Elems(ids) <= store
  {
    var found := FindExisting(store, ids);
    forall x | x in ids ensures (x !in found) == (x !in store) {
      assert x in found <==> x in Elems(found);
    }
    FilterCongruent(ids, id => id !in found, id => id !in store);
    var missing := Filter(ids, id => id !in store);
    if !(Elems(ids) <= store) {
      var x :| x in Elems(ids) && x !in store;
      assert x in missing;
    } else {
      assert forall x | x in ids :: x in Elems(ids);
    }
  }

  /** `current.push(...found.filter(id => !existing.has(id)))`: appends the found ids not already listed. */
  function AppendNew(current: seq<nat>, found: seq<nat>): (r: seq<nat>)
    ensures |current| <= |r| && r[..|current|] == current
    ensures Elems(r) == Elems(current) + Elems(found)
    ensures NoDup(current) && NoDup(found) ==> NoDup(r)
  {
    var newIds := Filter(found, id => id !in current);
    var r := current + newIds;
    assert Elems(r) == Elems(current) + Elems(newIds);
    assert NoDup(current) && NoDup(found) ==> NoDup(r) by {
      if NoDup(current) && NoDup(found) {
        forall i, j | 0 <= i < j < |r| ensures r[i] != r[j] {
          if i < |current| <= j {
            assert r[j] == newIds[j - |current|] && r[j] in newIds;
          }
        }
      }
    }
    r
  }

  /** `current.filter(id => !ids.includes(id))`: keeps, in order, the ids not asked to be removed. */
  function RemoveIds(current: seq<nat>, ids: seq<nat>): (r: seq<nat>)
    ensures IsSubsequence(r, current)
    ensures Elems(r) == Elems(current) - Elems(ids)
    ensures NoDup(current) ==> NoDup(r)
    ensures (forall id | id in current :: id !in ids) ==> r == current
  {
    var keep := id => id !in ids;
    assert (forall id | id in current :: id !in ids) ==> Filter(current, keep) == current by {
      if forall id | id in current :: id !in ids {
        FilterKeepsAll(current, keep);
      }
    }
    Filter(current, keep)
  }

  /**
   * The whole edit of one relation list: fails with the unknown requested ids (in request order, repeats
   * kept) when there are any; otherwise the listed ids are the old ones plus the added ones minus the removed
   * ones, without repeats, and the surviving old ids come first in their old order.
   */
  function EditIds(current: seq<nat>, store: set<nat>, toAdd: seq<nat>, toRemove: seq<nat>): (r: Result<seq<nat>, seq<nat>>)
    ensures toAdd == [] ==> r == Success(RemoveIds(current, toRemove))
    ensures r.Failure? <==> !(Elems(toAdd) <= store)
    ensures r.Failure? ==> r.error == Filter(toAdd, id => id !in store)
    ensures r.Success? ==> Elems(r.value) == (Elems(current) + Elems(toAdd)) - Elems(toRemove)
    ensures r.Success? && NoDup(current) ==> NoDup(r.value)
    ensures r.Success? ==>
      var kept := RemoveIds(current, toRemove);
      |kept| <= |r.value| && r.value[..|kept|] == kept
  {
    var found := FindExisting(store, toAdd);
    var missing := MissingIds(found, toAdd);
    MissingIdsAreAbsent(store, toAdd);
    if |missing| > 0 then Failure(missing)
    else
      var added := AppendNew(current, found);
      assert toAdd == [] ==> added == current by {
        if toAdd == [] {
          assert found == [] && Filter(found, id => id !in current) == [];
        }
      }
      assert added == current + Filter(found, id => id !in current);
      FilterConcat(current, Filter(found, id => id !in current), id => id !in toRemove);
      Success(RemoveIds(added, toRemove))
  }

  /**
   * The edit block of an update: when there are ids to add, look them up and stop at the first unknown ones,
   * then append the new ones; when there are ids to remove, filter them out.
   */
  method EditList(current: seq<nat>, store: set<nat>, toAdd: seq<nat>, toRemove: seq<nat>)
    returns (r: Result<seq<nat>, seq<nat>>)
    ensures r == EditIds(current, store, toAdd, toRemove)
  {
    var ids := current;
    if |toAdd| > 0 {
      var found := FindExisting(store, toAdd);
      var missing := MissingIds(found, toAdd);
      if |missing| > 0 {
        return Failure(missing);
      }
      ids := AppendNew(ids, found);
    }
    if |toRemove| > 0 {
      ids := RemoveIds(ids, toRemove);
    }
    return Success(ids);
  }

  /** An id both added and removed in one request ends up absent; an id only added ends up present. */
  lemma {:induction false} RemoveWinsOverAdd(current: seq<nat>, store: set<nat>, toAdd: seq<nat>, toRemove: seq<nat>, id: nat)
    requires EditIds(current, store, toAdd, toRemove).Success?
    ensures id in toRemove ==> id !in EditIds(current, store, toAdd, toRemove).value
    ensures id in toAdd && id !in toRemove ==> id in EditIds(current, store, toAdd, toRemove).value
  {
    var r := EditIds(current, store, toAdd, toRemove).value;
    assert id in Elems(r) <==> id in (Elems(current) + Elems(toAdd)) - Elems(toRemove);
  }

  /** Empty add and remove lists leave a list unchanged (an absent list is treated as empty). */
  lemma EmptyEditKeeps(current: seq<nat>, store: set<nat>)
    ensures EditIds(current, store, [], []) == Success(current)
  {
    assert AppendNew(current, []) == current;
  }
}
