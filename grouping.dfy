/**
  Grouped sums as the aggregation code builds them: a list of `(key, total)`
  entries with one entry per key, accumulated left to right like
  `obj[k] = (obj[k] || 0) + t` in insertion order, and a stable descending
  sort by total.
 */
module Grouping {

  import opened Wrappers

  datatype Entry<K> = Entry(key: K, total: int)

  function Keys<K(!new)>(s: seq<Entry<K>>): set<K>
  {
    set e | e in s :: e.key
  }

  predicate DistinctKeys<K(==,!new)>(s: seq<Entry<K>>)
  {
    forall i, j :: 0 <= i < j < |s| ==> s[i].key != s[j].key
  }

  /** The sum of the totals of the entries with key `k`. */
  function SumFor<K(==,!new)>(s: seq<Entry<K>>, k: K): int
  {
    if |s| == 0 then 0
    else SumFor(s[..|s| - 1], k) + (if s[|s| - 1].key == k then s[|s| - 1].total else 0)
  }

  /** The sum of all totals. */
  function Total<K(!new)>(s: seq<Entry<K>>): int
  {
    if |s| == 0 then 0 else Total(s[..|s| - 1]) + s[|s| - 1].total
  }

  /** Where key `k` sits in `s`, if anywhere. */
  function IndexOfKey<K(==,!new)>(s: seq<Entry<K>>, k: K): (r: Option<nat>)
    ensures r.Some? ==> r.value < |s| && s[r.value].key == k
    ensures r.None? <==> k !in Keys(s)
  {
    if |s| == 0 then None
    else if s[0].key == k then Some(0)
    else match IndexOfKey(s[1..], k)
      case None => (assert forall e :: e in s ==> e == s[0] || e in s[1..]; None)
      case Some(i) => Some(i + 1)
  }

  lemma {:induction false} SumForUpdate<K(!new)>(s: seq<Entry<K>>, i: nat, x: Entry<K>, k: K)
    requires i < |s|
    ensures SumFor(s[i := x], k) ==
      SumFor(s, k) - (if s[i].key == k then s[i].total else 0) + (if x.key == k then x.total else 0)
  {
    var n := |s| - 1;
    if i < n {
      assert s[i := x][..n] == s[..n][i := x];
      SumForUpdate(s[..n], i, x, k);
    } else {
      assert s[i := x][..n] == s[..n];
    }
  }

  lemma {:induction false} TotalUpdate<K(!new)>(s: seq<Entry<K>>, i: nat, x: Entry<K>)
    requires i < |s|
    ensures Total(s[i := x]) == Total(s) - s[i].total + x.total
  {
    var n := |s| - 1;
    if i < n {
      assert s[i := x][..n] == s[..n][i := x];
      TotalUpdate(s[..n], i, x);
    } else {
      assert s[i := x][..n] == s[..n];
    }
  }

  /** In a list with distinct keys, an entry's total is the sum for its key. */
  lemma {:induction false} EntryIsSumFor<K(!new)>(s: seq<Entry<K>>, i: nat)
    requires DistinctKeys(s) && i < |s|
    ensures SumFor(s, s[i].key) == s[i].total
  {
    var n := |s| - 1;
    if i < n {
      EntryIsSumFor(s[..n], i);
    } else {
      AbsentSumIsZero(s[..n], s[i].key);
    }
  }

  lemma {:induction false} AbsentSumIsZero<K(!new)>(s: seq<Entry<K>>, k: K)
    requires k !in Keys(s)
    ensures SumFor(s, k) == 0
  {
    if |s| > 0 {
      var n := |s| - 1;
      assert forall e :: e in s[..n] ==> e in s;
      AbsentSumIsZero(s[..n], k);
    }
  }

  /**
    Adds `e.total` under `e.key`: the existing entry's total grows, or a new
    entry is appended at the end (insertion order).
   */
  function Add<K(==,!new)>(acc: seq<Entry<K>>, e: Entry<K>): (r: seq<Entry<K>>)
    requires DistinctKeys(acc)
    ensures DistinctKeys(r)
    ensures Keys(r) == Keys(acc) + {e.key}
    ensures forall k :: SumFor(r, k) == SumFor(acc, k) + (if k == e.key then e.total else 0)
    ensures Total(r) == Total(acc) + e.total
  {
    match IndexOfKey(acc, e.key)
    case None =>
      var r := acc + [e];
      assert r[..|r| - 1] == acc;
      assert forall x :: x in r <==> x in acc || x == e;
      r
    case Some(i) =>
      var x := Entry(e.key, acc[i].total + e.total);
      var r := acc[i := x];
      SumForUpdateAll(acc, i, x);
      TotalUpdate(acc, i, x);
      KeysUpdate(acc, i, x);
      r
  }

  lemma KeysUpdate<K(!new)>(s: seq<Entry<K>>, i: nat, x: Entry<K>)
    requires i < |s| && x.key == s[i].key
    ensures Keys(s[i := x]) == Keys(s)
  {
    var r := s[i := x];
    forall k | k in Keys(s) ensures k in Keys(r) {
      var j :| 0 <= j < |s| && s[j].key == k;
      assert r[j].key == k;
    }
    forall k | k in Keys(r) ensures k in Keys(s) {
      var j :| 0 <= j < |r| && r[j].key == k;
      assert s[j].key == k;
    }
  }

  lemma SumForUpdateAll<K(!new)>(s: seq<Entry<K>>, i: nat, x: Entry<K>)
    requires i < |s|
    ensures forall k :: (SumFor(s[i := x], k) ==
      SumFor(s, k) - (if s[i].key == k then s[i].total else 0) + (if x.key == k then x.total else 0))
  {
    forall k {
      SumForUpdate(s, i, x, k);
    }
  }

  /** The grouped sums of `ps`, keys in order of first appearance. */
  function GroupSum<K(==,!new)>(ps: seq<Entry<K>>): (r: seq<Entry<K>>)
    ensures DistinctKeys(r)
    ensures Keys(r) == Keys(ps)
    ensures forall k :: SumFor(r, k) == SumFor(ps, k)
    ensures Total(r) == Total(ps)
  {
    if |ps| == 0 then []
    else
      LastEntry(ps);
      Add(GroupSum(ps[..|ps| - 1]), ps[|ps| - 1])
  }

  /** Keys, sums and total of a non-empty list, split at its last entry. */
  lemma LastEntry<K(!new)>(ps: seq<Entry<K>>)
    requires |ps| > 0
    ensures var n := |ps| - 1;
      && Keys(ps) == Keys(ps[..n]) + {ps[n].key}
      && (forall k :: SumFor(ps, k) == SumFor(ps[..n], k) + (if k == ps[n].key then ps[n].total else 0))
      && Total(ps) == Total(ps[..n]) + ps[n].total
  {
    var n := |ps| - 1;
    assert forall x :: x in ps <==> x in ps[..n] || x == ps[n];
  }

  /** Each grouped entry holds the sum of the input totals for its key. */
  lemma GroupSumEntries<K(!new)>(ps: seq<Entry<K>>)
    ensures forall i :: 0 <= i < |GroupSum(ps)| ==> GroupSum(ps)[i].total == SumFor(ps, GroupSum(ps)[i].key)
  {
    var r := GroupSum(ps);
    forall i | 0 <= i < |r|
      ensures r[i].total == SumFor(ps, r[i].key)
    {
      EntryIsSumFor(r, i);
    }
  }

  predicate Descending<K(!new)>(s: seq<Entry<K>>)
  {
    forall i, j :: 0 <= i < j < |s| ==> s[i].total >= s[j].total
  }

  lemma KeysCons<K(!new)>(x: Entry<K>, t: seq<Entry<K>>)
    ensures Keys([x] + t) == {x.key} + Keys(t)
  {
    assert forall y :: y in [x] + t <==> y == x || y in t;
  }

  lemma DistinctCons<K(!new)>(x: Entry<K>, t: seq<Entry<K>>)
    ensures x.key !in Keys(t) && DistinctKeys(t) ==> DistinctKeys([x] + t)
  {
    var r := [x] + t;
    forall i, j | 0 <= i < j < |r| && x.key !in Keys(t) && DistinctKeys(t) ensures r[i].key != r[j].key {
      if i == 0 {
        assert r[j] == t[j - 1];
        assert t[j - 1] in t;
      } else {
        assert r[i] == t[i - 1] && r[j] == t[j - 1];
      }
    }
  }

  /** Inserts `e` before the first entry whose total is not larger. */
  function Insert<K(==,!new)>(e: Entry<K>, s: seq<Entry<K>>): (r: seq<Entry<K>>)
    ensures |r| == |s| + 1
    ensures r[0] == (if |s| == 0 || e.total >= s[0].total then e else s[0])
    ensures multiset(r) == multiset(s) + multiset{e}
  {
    if |s| == 0 || e.total >= s[0].total then [e] + s
    else
      assert s == [s[0]] + s[1..];
      [s[0]] + Insert(e, s[1..])
  }

  lemma {:induction false} InsertDescending<K(!new)>(e: Entry<K>, s: seq<Entry<K>>)
    requires Descending(s)
    ensures Descending(Insert(e, s))
  {
    if |s| > 0 && e.total < s[0].total {
      InsertDescending(e, s[1..]);
      var t := Insert(e, s[1..]);
      var r := [s[0]] + t;
      assert Insert(e, s) == r;
      forall i, j | 0 <= i < j < |r| ensures r[i].total >= r[j].total {
        if i == 0 {
          assert t[0].total <= s[0].total;
          assert r[j] == t[j - 1];
        } else {
          assert r[i] == t[i - 1] && r[j] == t[j - 1];
        }
      }
    }
  }

  lemma {:induction false} InsertKeys<K(!new)>(e: Entry<K>, s: seq<Entry<K>>)
    ensures Keys(Insert(e, s)) == Keys(s) + {e.key}
    ensures DistinctKeys(s) && e.key !in Keys(s) ==> DistinctKeys(Insert(e, s))
  {
    if |s| == 0 || e.total >= s[0].total {
      KeysCons(e, s);
      DistinctCons(e, s);
    } else {
      InsertKeys(e, s[1..]);
      var t := Insert(e, s[1..]);
      assert s == [s[0]] + s[1..];
      KeysCons(s[0], s[1..]);
      KeysCons(s[0], t);
      DistinctTail(s);
      DistinctCons(s[0], t);
    }
  }

  lemma DistinctTail<K(!new)>(s: seq<Entry<K>>)
    requires |s| > 0
    ensures DistinctKeys(s) ==> s[0].key !in Keys(s[1..]) && DistinctKeys(s[1..])
  {
  }

  /** Insertion sort by descending total; equal totals keep their order. */
  function SortDesc<K(==,!new)>(s: seq<Entry<K>>): (r: seq<Entry<K>>)
    ensures |r| == |s|
    ensures Descending(r)
    ensures multiset(r) == multiset(s)
  {
    if |s| == 0 then []
    else
      assert s == [s[0]] + s[1..];
      InsertDescending(s[0], SortDesc(s[1..]));
      Insert(s[0], SortDesc(s[1..]))
  }

  /** Sorting keeps the key set. */
  lemma {:induction false} SortDescKeys<K(!new)>(s: seq<Entry<K>>)
    ensures Keys(SortDesc(s)) == Keys(s)
  {
    if |s| > 0 {
      var t := SortDesc(s[1..]);
      assert SortDesc(s) == Insert(s[0], t);
      SortDescKeys(s[1..]);
      assert Keys(t) == Keys(s[1..]);
      InsertKeys(s[0], t);
      assert Keys(Insert(s[0], t)) == Keys(s[1..]) + {s[0].key};
      KeysCons(s[0], s[1..]);
      assert s == [s[0]] + s[1..];
      assert Keys(s) == Keys(s[1..]) + {s[0].key};
    }
  }

  /** Sorting keeps the keys distinct. */
  lemma {:induction false} SortDescDistinct<K(!new)>(s: seq<Entry<K>>)
    requires DistinctKeys(s)
    ensures DistinctKeys(SortDesc(s))
  {
    if |s| > 0 {
      var t := SortDesc(s[1..]);
      assert SortDesc(s) == Insert(s[0], t);
      DistinctTail(s);
      SortDescDistinct(s[1..]);
      SortDescKeys(s[1..]);
      InsertKeys(s[0], t);
    }
  }

  /** Every entry of the sorted list comes from the input. */
  lemma SortDescMembers<K(!new)>(s: seq<Entry<K>>)
    ensures forall i :: 0 <= i < |SortDesc(s)| ==> SortDesc(s)[i] in s
  {
    var r := SortDesc(s);
    forall i | 0 <= i < |r| ensures r[i] in s {
      assert r[i] in multiset(r);
    }
  }

  /** Sorting moves whole entries: a total determined by its key stays so. */
  lemma SortDescTotals<K(!new)>(s: seq<Entry<K>>, f: K -> int)
    requires forall i :: 0 <= i < |s| ==> s[i].total == f(s[i].key)
    ensures forall i :: 0 <= i < |SortDesc(s)| ==> SortDesc(s)[i].total == f(SortDesc(s)[i].key)
  {
    SortDescMembers(s);
  }

  /** The head of a descending list holds the largest total. */
  lemma HeadIsMaximal<K(!new)>(s: seq<Entry<K>>)
    requires |s| > 0
    ensures forall e :: e in SortDesc(s) ==> e.total <= SortDesc(s)[0].total
  {
  }
}
