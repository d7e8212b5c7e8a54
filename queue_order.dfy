/** The order in which `_modbusSend` takes entries out of `messageBuffer`:
    `sort((a, b) => a.modbusPriority - b.modbusPriority)`, which JavaScript
    guarantees to be stable, followed by `shift()`. */
module QueueOrder {
  import opened Requests

  /** Inserts `x` after every entry whose priority is not larger than its own. */
  function Insert(s: seq<Entry>, x: Entry): (r: seq<Entry>)
    ensures |r| == |s| + 1
  {
    if s == [] || s[|s| - 1].priority <= x.priority then s + [x]
    else Insert(s[..|s| - 1], x) + [s[|s| - 1]]
  }

  /** The stable sort of the queue by ascending priority. */
  function StableSort(q: seq<Entry>): (r: seq<Entry>)
    ensures |r| == |q|
  {
    if q == [] then [] else Insert(StableSort(q[..|q| - 1]), q[|q| - 1])
  }

  predicate Sorted(s: seq<Entry>)
  {
    forall i, j :: 0 <= i < j < |s| ==> s[i].priority <= s[j].priority
  }

  /** The entries of priority `p`, in queue order. */
  function Filter(q: seq<Entry>, p: int): seq<Entry>
  {
    if q == [] then []
    else Filter(q[..|q| - 1], p) + (if q[|q| - 1].priority == p then [q[|q| - 1]] else [])
  }

  /** The number of entries belonging to logical request `b`. */
  function Count(q: seq<Entry>, b: nat): nat
  {
    if q == [] then 0
    else Count(q[..|q| - 1], b) + (if q[|q| - 1].request == b then 1 else 0)
  }

  /** No two entries of the queue are similar (de-duplication invariant). */
  predicate Distinct(q: seq<Entry>)
  {
    forall i, j :: 0 <= i < j < |q| ==> !Similar(q[i], q[j])
  }

  /** The index `_modbusSend` should take: the first entry of lowest priority. */
  predicate IsFirstMinimum(q: seq<Entry>, k: int)
  {
    && 0 <= k < |q|
    && (forall j :: 0 <= j < |q| ==> q[k].priority <= q[j].priority)
    && (forall j :: 0 <= j < k ==> q[k].priority < q[j].priority)
  }

  /** Reference definition of that index, by a linear scan. */
  function FirstMinimum(q: seq<Entry>): (k: nat)
    requires q != []
    ensures IsFirstMinimum(q, k)
  {
    if |q| == 1 then 0
    else
      var k := FirstMinimum(q[..|q| - 1]);
      if q[|q| - 1].priority < q[k].priority then |q| - 1 else k
  }

  /** The queue without its entry at `k`. */
  function RemoveAt(q: seq<Entry>, k: nat): seq<Entry>
    requires k < |q|
  {
    q[..k] + q[k + 1..]
  }

  lemma {:induction false} FilterAppend(a: seq<Entry>, b: seq<Entry>, p: int)
    ensures Filter(a + b, p) == Filter(a, p) + Filter(b, p)
    decreases |b|
  {
    if b == [] {
      assert a + b == a;
    } else {
      assert (a + b)[..|a + b| - 1] == a + b[..|b| - 1];
      FilterAppend(a, b[..|b| - 1], p);
    }
  }

  lemma {:induction false} CountAppend(a: seq<Entry>, b: seq<Entry>, r: nat)
    ensures Count(a + b, r) == Count(a, r) + Count(b, r)
    decreases |b|
  {
    if b == [] {
      assert a + b == a;
    } else {
      assert (a + b)[..|a + b| - 1] == a + b[..|b| - 1];
      CountAppend(a, b[..|b| - 1], r);
    }
  }

  /** No entry of priority p, nothing filtered. */
  lemma {:induction false} FilterNone(q: seq<Entry>, p: int)
    requires forall j :: 0 <= j < |q| ==> q[j].priority != p
    ensures Filter(q, p) == []
  {
    if q != [] { FilterNone(q[..|q| - 1], p); }
  }

  /** Counting by request only sees which entries are present. */
  lemma {:induction false} CountNone(q: seq<Entry>, r: nat)
    requires forall e | e in q :: e.request != r
    ensures Count(q, r) == 0
  {
    if q != [] { CountNone(q[..|q| - 1], r); }
  }

  lemma {:induction false} InsertMultiset(s: seq<Entry>, x: Entry)
    ensures multiset(Insert(s, x)) == multiset(s) + multiset{x}
    decreases |s|
  {
    if s != [] && s[|s| - 1].priority > x.priority {
      InsertMultiset(s[..|s| - 1], x);
      assert s == s[..|s| - 1] + [s[|s| - 1]];
    }
  }

  lemma {:induction false} InsertSorted(s: seq<Entry>, x: Entry)
    requires Sorted(s)
    ensures Sorted(Insert(s, x))
    decreases |s|
  {
    if s != [] && s[|s| - 1].priority > x.priority {
      var init, last := s[..|s| - 1], s[|s| - 1];
      InsertSorted(init, x);
      InsertMultiset(init, x);
      var t := Insert(init, x);
      forall e | e in t ensures e.priority <= last.priority {
        assert e in multiset(t);
        if e != x { assert e in multiset(init); }
      }
      forall i, j | 0 <= i < j < |t| + 1 ensures (t + [last])[i].priority <= (t + [last])[j].priority {
        if j == |t| { assert (t + [last])[i] == t[i]; }
      }
    }
  }

  lemma {:induction false} InsertFilter(s: seq<Entry>, x: Entry, p: int)
    ensures Filter(Insert(s, x), p) == Filter(s, p) + (if x.priority == p then [x] else [])
    decreases |s|
  {
    if s == [] || s[|s| - 1].priority <= x.priority {
      assert (s + [x])[..|s|] == s;
    } else {
      var init, last := s[..|s| - 1], s[|s| - 1];
      InsertFilter(init, x, p);
      var t := Insert(init, x);
      assert (t + [last])[..|t|] == t;
    }
  }

  lemma {:induction false} InsertCount(s: seq<Entry>, x: Entry, r: nat)
    ensures Count(Insert(s, x), r) == Count(s, r) + (if x.request == r then 1 else 0)
    decreases |s|
  {
    if s == [] || s[|s| - 1].priority <= x.priority {
      assert (s + [x])[..|s|] == s;
    } else {
      var init, last := s[..|s| - 1], s[|s| - 1];
      InsertCount(init, x, r);
      var t := Insert(init, x);
      assert (t + [last])[..|t|] == t;
    }
  }

  /** The stable sort is a permutation of the queue. */
  lemma {:induction false} SortPermutes(q: seq<Entry>)
    ensures multiset(StableSort(q)) == multiset(q)
  {
    if q != [] {
      var init, x := q[..|q| - 1], q[|q| - 1];
      SortPermutes(init);
      InsertMultiset(StableSort(init), x);
      assert q == init + [x];
    }
  }

  /** The stable sort orders the queue by priority. */
  lemma {:induction false} SortOrders(q: seq<Entry>)
    ensures Sorted(StableSort(q))
  {
    if q != [] {
      var init, x := q[..|q| - 1], q[|q| - 1];
      SortOrders(init);
      InsertSorted(StableSort(init), x);
    }
  }

  /** The stable sort keeps the relative order of the entries of each priority. */
  lemma {:induction false} SortKeepsOrder(q: seq<Entry>, p: int)
    ensures Filter(StableSort(q), p) == Filter(q, p)
  {
    if q != [] {
      var init, x := q[..|q| - 1], q[|q| - 1];
      SortKeepsOrder(init, p);
      InsertFilter(StableSort(init), x, p);
    }
  }

  /** The stable sort keeps the number of entries of each request. */
  lemma {:induction false} SortKeepsCount(q: seq<Entry>, r: nat)
    ensures Count(StableSort(q), r) == Count(q, r)
  {
    if q != [] {
      var init, x := q[..|q| - 1], q[|q| - 1];
      SortKeepsCount(init, r);
      InsertCount(StableSort(init), x, r);
    }
  }

  /** Sorting keeps the queue free of similar pairs. */
  lemma StableSortDistinct(q: seq<Entry>)
    requires Distinct(q)
    ensures Distinct(StableSort(q))
  {
    var s := StableSort(q);
    SortPermutes(q);
    forall i, j | 0 <= i < j < |s| ensures !Similar(s[i], s[j]) {
      SimilarInPermutation(q, s, i, j);
    }
  }

  lemma SimilarInPermutation(q: seq<Entry>, s: seq<Entry>, i: int, j: int)
    requires Distinct(q) && multiset(s) == multiset(q)
    requires 0 <= i < j < |s|
    ensures !Similar(s[i], s[j])
  {
    assert s[i] in multiset(q) && s[j] in multiset(q);
    var a :| 0 <= a < |q| && q[a] == s[i];
    var b :| 0 <= b < |q| && q[b] == s[j];
    DistinctMultiplicity(q, a);
    RepeatCounts(s, i, j);
    assert a != b;
  }

  /** An entry at two positions occurs at least twice. */
  lemma RepeatCounts(s: seq<Entry>, i: int, j: int)
    requires 0 <= i < j < |s|
    ensures s[i] == s[j] ==> multiset(s)[s[i]] >= 2
  {
    assert s == s[..i] + [s[i]] + s[i + 1..j] + [s[j]] + s[j + 1..];
  }

  /** In a queue without similar pairs every entry occurs once. */
  lemma DistinctMultiplicity(q: seq<Entry>, a: int)
    requires Distinct(q) && 0 <= a < |q|
    ensures multiset(q)[q[a]] == 1
  {
    var e := q[a];
    assert q == q[..a] + [e] + q[a + 1..];
    forall i | 0 <= i < a ensures q[..a][i] != e {
      assert !Similar(q[i], q[a]);
    }
    forall i | a < i < |q| ensures q[i] != e {
      assert !Similar(q[a], q[i]);
    }
    assert multiset(q[..a])[e] == 0 && multiset(q[a + 1..])[e] == 0;
  }

  /** Filtering the first entries of priority p out of q. */
  lemma FilterAt(q: seq<Entry>, k: int, p: int)
    requires 0 <= k < |q| && q[k].priority == p
    requires forall j :: 0 <= j < k ==> q[j].priority != p
    ensures Filter(q, p) == [q[k]] + Filter(q[k + 1..], p)
    ensures Filter(RemoveAt(q, k), p) == Filter(q[k + 1..], p)
  {
    assert q == q[..k] + [q[k]] + q[k + 1..];
    FilterAppend(q[..k] + [q[k]], q[k + 1..], p);
    FilterAppend(q[..k], [q[k]], p);
    FilterAppend(q[..k], q[k + 1..], p);
    FilterNone(q[..k], p);
    assert Filter([q[k]], p) == Filter([], p) + [q[k]] by { assert [q[k]][..0] == []; }
  }

  /** Dispatch order: the entry `_modbusSend` takes is the first entry of
      lowest priority. */
  lemma DispatchHead(q: seq<Entry>)
    requires q != []
    ensures StableSort(q)[0] == q[FirstMinimum(q)]
  {
    var s := StableSort(q);
    var k := FirstMinimum(q);
    var m := q[k].priority;
    HeadPriority(q);
    SortKeepsOrder(q, m);
    FilterTail(s, m);
    FilterAt(q, k, m);
    var x, y := Filter(s[1..], m), Filter(q[k + 1..], m);
    assert [s[0]] + x == [q[k]] + y;
    assert ([s[0]] + x)[0] == s[0] && ([q[k]] + y)[0] == q[k];
  }

  /** The head of the sorted queue has the queue's lowest priority. */
  lemma HeadPriority(q: seq<Entry>)
    requires q != []
    ensures |StableSort(q)| == |q|
    ensures StableSort(q)[0].priority == q[FirstMinimum(q)].priority
  {
    var s := StableSort(q);
    var k := FirstMinimum(q);
    SortPermutes(q);
    SortOrders(q);
    assert |s| == |q| by { assert |multiset(s)| == |multiset(q)|; }
    assert q[k] in multiset(s);
    var i :| 0 <= i < |s| && s[i] == q[k];
    assert s[0].priority <= s[i].priority;
    assert s[0] in multiset(q);
    var j :| 0 <= j < |q| && q[j] == s[0];
    assert q[k].priority <= q[j].priority;
  }

  /** What stays queued after a dispatch is sorted and keeps, priority by
      priority, the order in which the remaining entries were enqueued. */
  lemma DispatchRest(q: seq<Entry>)
    requires q != []
    ensures Sorted(StableSort(q)[1..])
    ensures forall p :: Filter(StableSort(q)[1..], p) == Filter(RemoveAt(q, FirstMinimum(q)), p)
    ensures multiset(StableSort(q)[1..]) == multiset(RemoveAt(q, FirstMinimum(q)))
  {
    var s := StableSort(q);
    var k := FirstMinimum(q);
    DispatchHead(q);
    HeadPriority(q);
    forall p ensures Filter(s[1..], p) == Filter(RemoveAt(q, k), p) {
      SortKeepsOrder(q, p);
      RestFilter(q, s, k, p);
    }
    SortOrders(q);
    assert Sorted(s[1..]) by {
      forall i, j | 0 <= i < j < |s| - 1 ensures s[1..][i].priority <= s[1..][j].priority {
        assert s[1..][i] == s[i + 1] && s[1..][j] == s[j + 1];
      }
    }
    SortPermutes(q);
    RestMultiset(q, s, k);
  }

  lemma RestMultiset(q: seq<Entry>, s: seq<Entry>, k: nat)
    requires 0 <= k < |q| && s != [] && s[0] == q[k] && multiset(s) == multiset(q)
    ensures multiset(s[1..]) == multiset(RemoveAt(q, k))
  {
    assert s == [s[0]] + s[1..];
    SplitAt(q, k);
    assert multiset(s) == multiset{s[0]} + multiset(s[1..]);
    assert multiset(q) == multiset(q[..k]) + multiset{q[k]} + multiset(q[k + 1..]);
    assert multiset(RemoveAt(q, k)) == multiset(q[..k]) + multiset(q[k + 1..]);
    assert multiset(s[1..]) == multiset(s) - multiset{s[0]};
    assert multiset(RemoveAt(q, k)) == multiset(q) - multiset{q[k]};
  }

  lemma RestFilter(q: seq<Entry>, s: seq<Entry>, k: nat, p: int)
    requires 0 <= k < |q| && s != [] && s[0] == q[k]
    requires p == q[k].priority ==> forall j :: 0 <= j < k ==> q[j].priority != p
    requires Filter(s, p) == Filter(q, p)
    ensures Filter(s[1..], p) == Filter(RemoveAt(q, k), p)
  {
    FilterTail(s, p);
    var rest := Filter(s[1..], p);
    if p == q[k].priority {
      FilterAt(q, k, p);
      var other := Filter(q[k + 1..], p);
      assert [q[k]] + rest == [q[k]] + other;
      assert rest == ([q[k]] + rest)[1..] && other == ([q[k]] + other)[1..];
    } else {
      FilterSkip(q, k, p);
      assert [] + rest == rest;
    }
  }

  lemma FilterTail(s: seq<Entry>, p: int)
    requires s != []
    ensures Filter(s, p) == (if s[0].priority == p then [s[0]] else []) + Filter(s[1..], p)
  {
    assert s == [s[0]] + s[1..];
    FilterAppend([s[0]], s[1..], p);
    FilterSingle(s[0], p);
  }

  lemma FilterSkip(q: seq<Entry>, k: nat, p: int)
    requires 0 <= k < |q| && p != q[k].priority
    ensures Filter(q, p) == Filter(RemoveAt(q, k), p)
  {
    SplitAt(q, k);
    FilterAppend(q[..k] + [q[k]], q[k + 1..], p);
    FilterAppend(q[..k], [q[k]], p);
    FilterAppend(q[..k], q[k + 1..], p);
    FilterSingle(q[k], p);
  }

  lemma FilterSingle(e: Entry, p: int)
    ensures Filter([e], p) == if e.priority == p then [e] else []
  {
    assert [e][..0] == [];
  }

  lemma SplitAt(q: seq<Entry>, k: nat)
    requires k < |q|
    ensures q == q[..k] + [q[k]] + q[k + 1..]
  {
  }
}
