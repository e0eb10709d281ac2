/** The list transformers behind the application's ledger state
    (`addTransaction`, `updateTransaction`, `deleteTransaction` and the
    test-data append in App.tsx). Each takes the previous list and returns
    the next one; ids and the user's confirmation are supplied by the
    caller. */
module Ledger {
  import opened Types
  import Sequences

  /** Prepends the new record, stamped with `id`. The application draws the
      id from the clock and a random number; here it is a parameter. */
  function AddTransaction(prev: seq<Transaction>, data: TxData, id: string): (r: seq<Transaction>)
    ensures |r| == |prev| + 1
    ensures r[0].id == id && WithoutId(r[0]) == data
    ensures r[1..] == prev
  {
    [WithId(data, id)] + prev
  }

  /** Replaces every element whose id is `updated.id` by `updated`. */
  function UpdateTransaction(prev: seq<Transaction>, updated: Transaction): (r: seq<Transaction>)
    ensures |r| == |prev|
    ensures forall i :: 0 <= i < |prev| && prev[i].id == updated.id ==> r[i] == updated
    ensures forall i :: 0 <= i < |prev| && prev[i].id != updated.id ==> r[i] == prev[i]
  {
    if prev == [] then []
    else [if prev[0].id == updated.id then updated else prev[0]] + UpdateTransaction(prev[1..], updated)
  }

  /** The filter predicate of a delete: keep what does not carry `id`. */
  function NotId(id: string): Transaction -> bool {
    (t: Transaction) => t.id != id
  }

  /** Removes every element with the given id, if the user confirmed. */
  function DeleteTransaction(prev: seq<Transaction>, id: string, confirmed: bool): (r: seq<Transaction>)
    ensures !confirmed ==> r == prev
    ensures forall i :: 0 <= i < |r| ==> r[i].id != id || !confirmed
    ensures |r| <= |prev|
  {
    if confirmed then Sequences.Filter(prev, NotId(id)) else prev
  }

  /** Appends a batch of generated entries after the existing ones. */
  function AppendTransactions(prev: seq<Transaction>, batch: seq<Transaction>): (r: seq<Transaction>)
    ensures |r| == |prev| + |batch|
    ensures r[..|prev|] == prev
    ensures r[|prev|..] == batch
  {
    prev + batch
  }

  // ---------------------------------------------------------------------
  // Adding

  /** Adding with an id nobody uses keeps ids unique. */
  lemma AddKeepsIdsUnique(prev: seq<Transaction>, data: TxData, id: string)
    requires UniqueIds(prev)
    requires !HasId(prev, id)
    ensures UniqueIds(AddTransaction(prev, data, id))
  {
    var r := AddTransaction(prev, data, id);
    forall i, j | 0 <= i < |r| && 0 <= j < |r| && i != j
      ensures r[i].id != r[j].id
    {
      if i > 0 && j > 0 {
        assert r[i] == prev[i - 1] && r[j] == prev[j - 1];
      } else if i == 0 {
        assert r[j] == prev[j - 1];
      } else {
        assert r[i] == prev[i - 1];
      }
    }
  }

  /** A confirmed delete of a freshly added id takes the ledger back to
      what it was before the add. */
  lemma DeleteUndoesAdd(prev: seq<Transaction>, data: TxData, id: string)
    requires !HasId(prev, id)
    ensures DeleteTransaction(AddTransaction(prev, data, id), id, true) == prev
  {
    var added := AddTransaction(prev, data, id);
    assert added == [added[0]] + prev;
    Sequences.FilterAppend([added[0]], prev, NotId(id));
    assert forall i :: 0 <= i < |prev| ==> NotId(id)(prev[i]);
    Sequences.FilterKeepsAll(prev, NotId(id));
  }

  // ---------------------------------------------------------------------
  // Updating

  /** An update never changes the sequence of ids. */
  lemma UpdateKeepsIds(prev: seq<Transaction>, updated: Transaction)
    ensures Ids(UpdateTransaction(prev, updated)) == Ids(prev)
  {
  }

  /** Updating an id that is not present leaves the ledger identical. */
  lemma UpdateAbsentIsIdentity(prev: seq<Transaction>, updated: Transaction)
    requires !HasId(prev, updated.id)
    ensures UpdateTransaction(prev, updated) == prev
  {
  }

  /** Applying the same update twice is applying it once. */
  lemma UpdateIdempotent(prev: seq<Transaction>, updated: Transaction)
    ensures UpdateTransaction(UpdateTransaction(prev, updated), updated)
         == UpdateTransaction(prev, updated)
  {
  }

  /** With unique ids an update touches exactly one position, and
      updating back with the original entry restores the ledger. */
  lemma UpdateThenRestore(prev: seq<Transaction>, k: nat, updated: Transaction)
    requires UniqueIds(prev)
    requires k < |prev| && prev[k].id == updated.id
    ensures UpdateTransaction(prev, updated)[k] == updated
    ensures forall i :: 0 <= i < |prev| && i != k ==> UpdateTransaction(prev, updated)[i] == prev[i]
    ensures UpdateTransaction(UpdateTransaction(prev, updated), prev[k]) == prev
  {
    var r := UpdateTransaction(prev, updated);
    var back := UpdateTransaction(r, prev[k]);
    assert forall i :: 0 <= i < |prev| && i != k ==> prev[i].id != updated.id;
    assert r[k].id == prev[k].id;
    assert forall i :: 0 <= i < |prev| ==> back[i] == prev[i];
  }

  // ---------------------------------------------------------------------
  // Deleting

  /** A confirmed delete keeps exactly the entries with a different id, each
      with its multiplicity. */
  lemma DeleteKeepsOthers(prev: seq<Transaction>, id: string, t: Transaction)
    ensures t in DeleteTransaction(prev, id, true) <==> t in prev && t.id != id
    ensures multiset(DeleteTransaction(prev, id, true))[t]
         == if t.id != id then multiset(prev)[t] else 0
  {
    Sequences.FilterMembership(prev, NotId(id), t);
    Sequences.FilterCount(prev, NotId(id), t);
  }

  /** The survivors of a delete keep their relative order. */
  lemma DeleteIsSubsequence(prev: seq<Transaction>, id: string, confirmed: bool)
    ensures Sequences.IsSubsequence(DeleteTransaction(prev, id, confirmed), prev)
  {
    if confirmed {
      Sequences.FilterIsSubsequence(prev, NotId(id));
    } else {
      ReflexiveSubsequence(prev);
    }
  }

  lemma {:induction false} ReflexiveSubsequence(s: seq<Transaction>)
    ensures Sequences.IsSubsequence(s, s)
  {
    if s != [] {
      ReflexiveSubsequence(s[1..]);
    }
  }

  /** Deleting the same id a second time changes nothing. */
  lemma DeleteIdempotent(prev: seq<Transaction>, id: string)
    ensures DeleteTransaction(DeleteTransaction(prev, id, true), id, true)
         == DeleteTransaction(prev, id, true)
  {
    Sequences.FilterIdempotent(prev, NotId(id));
  }

  /** With unique ids, deleting a present id removes exactly one entry. */
  lemma {:induction false} DeletePresentShrinksByOne(prev: seq<Transaction>, id: string)
    requires UniqueIds(prev)
    requires HasId(prev, id)
    ensures |DeleteTransaction(prev, id, true)| == |prev| - 1
  {
    var k :| 0 <= k < |prev| && prev[k].id == id;
    if k == 0 {
      assert forall i :: 0 <= i < |prev[1..]| ==> NotId(id)(prev[1..][i]);
      Sequences.FilterKeepsAll(prev[1..], NotId(id));
    } else {
      assert prev[1..][k - 1].id == id;
      assert UniqueIds(prev[1..]);
      DeletePresentShrinksByOne(prev[1..], id);
    }
  }

  // ---------------------------------------------------------------------
  // Appending generated data

  /** Generated entries go after the existing ones, which keep their
      positions; ids stay unique when the batch brings only new ids. */
  lemma AppendKeepsIdsUnique(prev: seq<Transaction>, batch: seq<Transaction>)
    requires UniqueIds(prev) && UniqueIds(batch)
    requires forall i :: 0 <= i < |batch| ==> !HasId(prev, batch[i].id)
    ensures UniqueIds(AppendTransactions(prev, batch))
  {
    var r := AppendTransactions(prev, batch);
    forall i, j | 0 <= i < |r| && 0 <= j < |r| && i != j
      ensures r[i].id != r[j].id
    {
      if i < |prev| && j >= |prev| {
        assert r[j] == batch[j - |prev|];
        assert r[i] == prev[i];
      } else if j < |prev| && i >= |prev| {
        assert r[i] == batch[i - |prev|];
        assert r[j] == prev[j];
      }
    }
  }
}
