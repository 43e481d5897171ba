/**
 Queries over the transaction table: the `OR: [sender, receiver]` filter, the
 `orderBy: { dateTime: "desc" }` ordering, and the `_sum` aggregate on amounts.
 */
module Ledger {
  import opened Common

  /** The entry names `e` as sender or as receiver. */
  predicate Involves(t: Txn, e: string)
  {
    t.senderEmail == e || t.receiverEmail == e
  }

  /** The entries of `ledger` that involve `e`, each as often as it occurs there. */
  function Involving(ledger: seq<Txn>, e: string): (r: seq<Txn>)
    ensures forall t :: multiset(r)[t] == if Involves(t, e) then multiset(ledger)[t] else 0
  {
    if ledger == [] then []
    else
      assert ledger == [ledger[0]] + ledger[1..];
      if Involves(ledger[0], e) then [ledger[0]] + Involving(ledger[1..], e)
      else Involving(ledger[1..], e)
  }

  /** Newest first: `dateTime` never increases along the sequence. */
  predicate SortedByDateDesc(s: seq<Txn>)
  {
    forall i, j :: 0 <= i < j < |s| ==> s[i].dateTime >= s[j].dateTime
  }

  /** An entry no older than the head of a newest-first sequence can go in front of it. */
  lemma ConsSorted(x: Txn, s: seq<Txn>)
    requires SortedByDateDesc(s)
    requires s != [] ==> x.dateTime >= s[0].dateTime
    ensures SortedByDateDesc([x] + s)
  {
  }

  /** Puts `t` into a newest-first sequence, ahead of the entries no newer than it. */
  function Insert(t: Txn, s: seq<Txn>): (r: seq<Txn>)
    requires SortedByDateDesc(s)
    ensures |r| == |s| + 1 && (r[0] == t || (s != [] && r[0] == s[0]))
    ensures SortedByDateDesc(r)
    ensures multiset(r) == multiset(s) + multiset{t}
  {
    if s == [] || t.dateTime >= s[0].dateTime then
      ConsSorted(t, s);
      [t] + s
    else
      assert s == [s[0]] + s[1..];
      var rest := Insert(t, s[1..]);
      ConsSorted(s[0], rest);
      [s[0]] + rest
  }

  /** The entries of `s` rearranged newest first. Entries with equal `dateTime` may come in any order. */
  function SortByDateDesc(s: seq<Txn>): (r: seq<Txn>)
    ensures SortedByDateDesc(r)
    ensures multiset(r) == multiset(s)
  {
    if s == [] then []
    else
      assert s == [s[0]] + s[1..];
      Insert(s[0], SortByDateDesc(s[1..]))
  }

  /** Which email column an aggregate filters on. */
  datatype Side = Sender | Receiver

  function Party(t: Txn, side: Side): string
  {
    match side
    case Sender => t.senderEmail
    case Receiver => t.receiverEmail
  }

  /** What `t` contributes to the sum of amounts where `side` is `e`. */
  function Share(t: Txn, side: Side, e: string): int
  {
    if Party(t, side) == e then t.amount else 0
  }

  /**
   `transaction.aggregate({ _sum: { amount }, where: { side: e } })` followed by
   `|| 0`: the sum is null over no rows, and both null and 0 become 0.
   */
  function SumAmount(ledger: seq<Txn>, side: Side, e: string): int
  {
    if ledger == [] then 0 else Share(ledger[0], side, e) + SumAmount(ledger[1..], side, e)
  }

  /** The sum over two ledgers laid end to end is the sum of their sums. */
  lemma {:induction false} SumAmountConcat(a: seq<Txn>, b: seq<Txn>, side: Side, e: string)
    ensures SumAmount(a + b, side, e) == SumAmount(a, side, e) + SumAmount(b, side, e)
  {
    if a == [] {
      assert a + b == b;
    } else {
      assert (a + b)[1..] == a[1..] + b;
      SumAmountConcat(a[1..], b, side, e);
    }
  }

  /** Appending one entry adds exactly its share. */
  lemma SumAmountAppend(ledger: seq<Txn>, t: Txn, side: Side, e: string)
    ensures SumAmount(ledger + [t], side, e) == SumAmount(ledger, side, e) + Share(t, side, e)
  {
    SumAmountConcat(ledger, [t], side, e);
  }

  /** With no entry on that side for `e`, the sum is 0. */
  lemma {:induction false} SumAmountNone(ledger: seq<Txn>, side: Side, e: string)
    requires forall i :: 0 <= i < |ledger| ==> Party(ledger[i], side) != e
    ensures SumAmount(ledger, side, e) == 0
  {
    if ledger != [] {
      SumAmountNone(ledger[1..], side, e);
    }
  }

  /** A position at which `x` occurs in `b`. */
  lemma {:induction false} IndexOf(b: seq<Txn>, x: Txn) returns (i: nat)
    requires x in multiset(b)
    ensures i < |b| && b[i] == x
  {
    if b[0] == x {
      i := 0;
    } else {
      assert b == [b[0]] + b[1..];
      var j := IndexOf(b[1..], x);
      i := j + 1;
    }
  }

  /** Taking the entry at index `i` out of a ledger removes one copy of it. */
  lemma MultisetRemoveAt(b: seq<Txn>, i: nat)
    requires i < |b|
    ensures multiset(b[..i] + b[i + 1..]) == multiset(b) - multiset{b[i]}
  {
    assert b == b[..i] + [b[i]] + b[i + 1..];
  }

  /** Taking the entry at index `i` out of a ledger removes exactly its share. */
  lemma SumAmountRemove(b: seq<Txn>, i: nat, side: Side, e: string)
    requires i < |b|
    ensures SumAmount(b, side, e) == Share(b[i], side, e) + SumAmount(b[..i] + b[i + 1..], side, e)
  {
    assert b == b[..i] + [b[i]] + b[i + 1..];
    SumAmountConcat(b[..i] + [b[i]], b[i + 1..], side, e);
    SumAmountConcat(b[..i], [b[i]], side, e);
    SumAmountConcat(b[..i], b[i + 1..], side, e);
  }

  /** Where the first entry of `a` sits in a permutation `b` of it, and what is left of both once it is gone. */
  lemma MatchFirst(a: seq<Txn>, b: seq<Txn>) returns (i: nat)
    requires a != [] && multiset(a) == multiset(b)
    ensures i < |b| && b[i] == a[0]
    ensures multiset(b[..i] + b[i + 1..]) == multiset(a[1..])
  {
    assert a == [a[0]] + a[1..];
    assert multiset(a[1..]) == multiset(a) - multiset{a[0]} by {
      assert multiset(a) == multiset{a[0]} + multiset(a[1..]);
    }
    assert a[0] in multiset(b);
    i := IndexOf(b, a[0]);
    MultisetRemoveAt(b, i);
  }

  /** The sum does not depend on the order of the entries. */
  lemma {:induction false} SumAmountPermutation(a: seq<Txn>, b: seq<Txn>, side: Side, e: string)
    requires multiset(a) == multiset(b)
    ensures SumAmount(a, side, e) == SumAmount(b, side, e)
    decreases |a|
  {
    if a == [] {
      assert |b| == |multiset(b)| == 0;
    } else {
      var i := MatchFirst(a, b);
      SumAmountPermutation(a[1..], b[..i] + b[i + 1..], side, e);
      SumAmountRemove(b, i, side, e);
    }
  }

  /** Only entries naming `e` on that side contribute, so filtering to the entries involving `e` keeps the sum. */
  lemma {:induction false} SumAmountInvolving(ledger: seq<Txn>, side: Side, e: string)
    ensures SumAmount(Involving(ledger, e), side, e) == SumAmount(ledger, side, e)
  {
    if ledger != [] {
      SumAmountInvolving(ledger[1..], side, e);
      if Involves(ledger[0], e) {
        assert Involving(ledger, e) == [ledger[0]] + Involving(ledger[1..], e);
        assert ([ledger[0]] + Involving(ledger[1..], e))[1..] == Involving(ledger[1..], e);
      }
    }
  }

  /** Two ledgers that are the same entry for entry, except for `dateTime`. */
  predicate SameButTime(a: seq<Txn>, b: seq<Txn>)
  {
    && |a| == |b|
    && forall i :: 0 <= i < |a| ==> a[i].(dateTime := 0) == b[i].(dateTime := 0)
  }

  /** The sum ranges over the whole ledger whatever the timestamps: there is no time window. */
  lemma {:induction false} SumAmountIgnoresTime(a: seq<Txn>, b: seq<Txn>, side: Side, e: string)
    requires SameButTime(a, b)
    ensures SumAmount(a, side, e) == SumAmount(b, side, e)
  {
    if a != [] {
      assert a[0].(dateTime := 0) == b[0].(dateTime := 0);
      assert SameButTime(a[1..], b[1..]) by {
        forall i | 0 <= i < |a| - 1 ensures a[1..][i].(dateTime := 0) == b[1..][i].(dateTime := 0) {
          assert a[1..][i] == a[i + 1];
          assert b[1..][i] == b[i + 1];
        }
      }
      SumAmountIgnoresTime(a[1..], b[1..], side, e);
    }
  }
}
