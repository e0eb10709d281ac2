/** The ordering used by pages/Transactions.tsx: a copy of the ledger sorted
    newest first. JavaScript's `Array.prototype.sort` is stable, so entries
    with the same date keep their ledger order; the model is a stable
    insertion sort on an immutable sequence, which also makes the "sort a
    copy, not the ledger" discipline hold by construction. */
module TransactionsPage {
  import opened Types
  import Sequences

  /** Non-increasing by date. */
  predicate NewestFirst(s: seq<Transaction>) {
    forall i, j :: 0 <= i < j < |s| ==> DateLe(s[j].date, s[i].date)
  }

  /** Puts `x` before the first entry that is not newer than it, that is,
      ahead of every entry with the same date. */
  function Insert(x: Transaction, s: seq<Transaction>): (r: seq<Transaction>)
    ensures |r| == |s| + 1
    ensures multiset(r) == multiset(s) + multiset{x}
    ensures NewestFirst(s) ==> NewestFirst(r)
  {
    if s == [] || DateLe(s[0].date, x.date) then
      InsertFrontSorted(x, s);
      [x] + s
    else
      var rest := Insert(x, s[1..]);
      assert s == [s[0]] + s[1..];
      InsertBehindSorted(s[0], x, s[1..], rest);
      [s[0]] + rest
  }

  lemma InsertFrontSorted(x: Transaction, s: seq<Transaction>)
    requires s == [] || DateLe(s[0].date, x.date)
    ensures NewestFirst(s) ==> NewestFirst([x] + s)
  {
    if NewestFirst(s) && s != [] {
      var r := [x] + s;
      forall i, j | 0 <= i < j < |r|
        ensures DateLe(r[j].date, r[i].date)
      {
        if i == 0 {
          if j > 1 {
            DateLeTransitive(s[j - 1].date, s[0].date, x.date);
          }
        }
      }
    }
  }

  lemma InsertBehindSorted(head: Transaction, x: Transaction, tail: seq<Transaction>, rest: seq<Transaction>)
    requires !DateLe(head.date, x.date)
    requires multiset(rest) == multiset(tail) + multiset{x}
    requires NewestFirst([head] + tail) ==> NewestFirst(rest)
    ensures NewestFirst([head] + tail) ==> NewestFirst([head] + rest)
  {
    if NewestFirst([head] + tail) {
      var r := [head] + rest;
      forall i, j | 0 <= i < j < |r|
        ensures DateLe(r[j].date, r[i].date)
      {
        if i > 0 {
          assert NewestFirst(rest);
          assert r[i] == rest[i - 1] && r[j] == rest[j - 1];
        } else {
          var y := rest[j - 1];
          assert y in multiset(rest);
          if y == x {
            DateLeTotal(head.date, x.date);
          } else {
            assert y in multiset(tail);
            var k :| 0 <= k < |tail| && tail[k] == y;
            assert ([head] + tail)[k + 1] == y && ([head] + tail)[0] == head;
            assert DateLe(y.date, head.date);
          }
        }
      }
    }
  }

  /** `sortedTransactions`: the ledger sorted by date, newest first. */
  function SortNewestFirst(s: seq<Transaction>): (r: seq<Transaction>)
    ensures |r| == |s|
    ensures multiset(r) == multiset(s)
    ensures NewestFirst(r)
  {
    if s == [] then []
    else
      assert s == [s[0]] + s[1..];
      Insert(s[0], SortNewestFirst(s[1..]))
  }

  /** The entries dated `d`, in order. */
  function OnDate(d: Date): Transaction -> bool {
    (t: Transaction) => t.date == d
  }

  lemma {:induction false} InsertOnDate(x: Transaction, s: seq<Transaction>, d: Date)
    ensures Sequences.Filter(Insert(x, s), OnDate(d))
         == (if x.date == d then [x] else []) + Sequences.Filter(s, OnDate(d))
  {
    if s == [] || DateLe(s[0].date, x.date) {
      assert Insert(x, s) == [x] + s;
      Sequences.FilterAppend([x], s, OnDate(d));
    } else {
      var head, tail := s[0], s[1..];
      var p := OnDate(d);
      var rest := Insert(x, tail);
      assert Insert(x, s) == [head] + rest;
      assert s == [head] + tail;
      var keepHead := if head.date == d then [head] else [];
      var keepX := if x.date == d then [x] else [];
      Sequences.FilterSingleton(head, p);
      InsertOnDate(x, tail, d);
      Sequences.FilterAppend([head], rest, p);
      Sequences.FilterAppend([head], tail, p);
      // `head` is strictly newer than `x`, so at most one of the two carries
      // the date `d` and their relative order does not matter.
      assert keepHead == [] || keepX == [];
      calc {
        Sequences.Filter(Insert(x, s), p);
        keepHead + Sequences.Filter(rest, p);
        keepHead + (keepX + Sequences.Filter(tail, p));
        keepX + (keepHead + Sequences.Filter(tail, p));
        keepX + Sequences.Filter(s, p);
      }
    }
  }

  /** Stability: for every date, the entries carrying it appear in the
      sorted list in exactly their ledger order. */
  lemma {:induction false} SortIsStable(s: seq<Transaction>, d: Date)
    ensures Sequences.Filter(SortNewestFirst(s), OnDate(d)) == Sequences.Filter(s, OnDate(d))
  {
    if s != [] {
      SortIsStable(s[1..], d);
      InsertOnDate(s[0], SortNewestFirst(s[1..]), d);
      assert s == [s[0]] + s[1..];
      Sequences.FilterAppend([s[0]], s[1..], OnDate(d));
    }
  }

  /** A list that is already newest first comes back unchanged. */
  lemma {:induction false} SortKeepsSorted(s: seq<Transaction>)
    requires NewestFirst(s)
    ensures SortNewestFirst(s) == s
  {
    if s != [] {
      assert NewestFirst(s[1..]);
      SortKeepsSorted(s[1..]);
      if |s| > 1 {
        assert DateLe(s[1].date, s[0].date);
      }
    }
  }
}
