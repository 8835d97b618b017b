/**
 * The array operations the services rely on, as functions on sequences:
 * `filter`, `find`/`findIndex`/`indexOf`, `splice(k, 1)`, `slice(0, n)` and a
 * stable `sort` by a numeric key in descending order. Each is stated against
 * an independent description of its result and proved about it.
 */
module Seqs {
  import opened Types

  // ---------------------------------------------------------------- filter

  /** `s.filter(p)`: the elements satisfying `p`, in their order in `s`. */
  function Filter<T>(s: seq<T>, p: T -> bool): (r: seq<T>)
    ensures |r| <= |s|
    ensures forall i :: 0 <= i < |r| ==> p(r[i])
  {
    if s == [] then [] else (if p(s[0]) then [s[0]] else []) + Filter(s[1..], p)
  }

  /** `r` keeps some of the elements of `s`, in the same relative order. */
  predicate IsSubsequence<T(==)>(r: seq<T>, s: seq<T>)
  {
    r == [] || (s != [] && ((r[0] == s[0] && IsSubsequence(r[1..], s[1..])) || IsSubsequence(r, s[1..])))
  }

  lemma {:induction false} FilterMembership<T>(s: seq<T>, p: T -> bool, x: T)
    ensures x in Filter(s, p) <==> x in s && p(x)
  {
    if s != [] {
      FilterMembership(s[1..], p, x);
      assert s == [s[0]] + s[1..];
    }
  }

  lemma {:induction false} FilterKeepsOrder<T>(s: seq<T>, p: T -> bool)
    ensures IsSubsequence(Filter(s, p), s)
  {
    if s != [] {
      FilterKeepsOrder(s[1..], p);
      if p(s[0]) {
        assert Filter(s, p) == [s[0]] + Filter(s[1..], p);
        assert Filter(s, p)[1..] == Filter(s[1..], p);
      } else {
        assert Filter(s, p) == Filter(s[1..], p);
      }
    }
  }

  /** Filtering by `p` and by its negation splits `s` into two parts, element for element. */
  lemma {:induction false} FilterPartition<T>(s: seq<T>, p: T -> bool, q: T -> bool)
    requires forall x :: q(x) == !p(x)
    ensures multiset(Filter(s, p)) + multiset(Filter(s, q)) == multiset(s)
    ensures |Filter(s, p)| + |Filter(s, q)| == |s|
  {
    if s != [] {
      FilterPartition(s[1..], p, q);
      assert s == [s[0]] + s[1..];
      assert multiset(s) == multiset{s[0]} + multiset(s[1..]);
    }
  }

  /**
   * Filtering by `p` and by its negation: every element of `s` lands in
   * exactly one of the two results, and nothing else does.
   */
  lemma FilterPartitionMembership<T>(s: seq<T>, p: T -> bool, q: T -> bool)
    requires forall x :: q(x) == !p(x)
    ensures forall x :: x in s ==> (x in Filter(s, p) <==> x !in Filter(s, q))
    ensures forall x :: x in Filter(s, p) || x in Filter(s, q) ==> x in s
  {
    forall x ensures x in Filter(s, p) <==> x in s && p(x)
             ensures x in Filter(s, q) <==> x in s && q(x)
    {
      FilterMembership(s, p, x);
      FilterMembership(s, q, x);
    }
  }

  /** Concatenation regroups freely. */
  lemma AppendAssoc<T>(a: seq<T>, b: seq<T>, c: seq<T>)
    ensures (a + b) + c == a + (b + c)
  {
    assert forall k :: 0 <= k < |a| + |b| + |c| ==> ((a + b) + c)[k] == (a + (b + c))[k];
  }

  /** Filters by two tests no element passes together share no element. */
  lemma FilterDisjoint<T>(s: seq<T>, p: T -> bool, q: T -> bool)
    requires forall x :: x in s ==> !(p(x) && q(x))
    ensures forall x :: x in Filter(s, p) ==> x !in Filter(s, q)
  {
    forall x | x in Filter(s, p) ensures x !in Filter(s, q) {
      FilterMembership(s, p, x);
      FilterMembership(s, q, x);
    }
  }

  /** When every element passes one of three tests, each is kept by one of the three filters. */
  lemma FilterCovers<T>(s: seq<T>, p: T -> bool, q: T -> bool, r: T -> bool)
    requires forall x :: x in s ==> p(x) || q(x) || r(x)
    ensures forall x :: x in s ==> x in Filter(s, p) || x in Filter(s, q) || x in Filter(s, r)
  {
    forall x | x in s ensures x in Filter(s, p) || x in Filter(s, q) || x in Filter(s, r) {
      FilterMembership(s, p, x);
      FilterMembership(s, q, x);
      FilterMembership(s, r, x);
    }
  }

  /** `filter` keeps every copy of an element that passes the test and no copy of one that fails it. */
  lemma {:induction false} FilterCount<T>(s: seq<T>, p: T -> bool, x: T)
    ensures multiset(Filter(s, p))[x] == if p(x) then multiset(s)[x] else 0
  {
    if s != [] {
      FilterCount(s[1..], p, x);
      assert s == [s[0]] + s[1..];
      assert multiset(s) == multiset{s[0]} + multiset(s[1..]);
    }
  }

  /** Filtering a concatenation filters each part. */
  lemma {:induction false} FilterAppend<T>(a: seq<T>, b: seq<T>, p: T -> bool)
    ensures Filter(a + b, p) == Filter(a, p) + Filter(b, p)
  {
    if a == [] {
      assert a + b == b;
    } else {
      var h: seq<T> := if p(a[0]) then [a[0]] else [];
      calc {
        Filter(a + b, p);
      == { assert (a + b)[0] == a[0] && (a + b)[1..] == a[1..] + b; }
        h + Filter(a[1..] + b, p);
      == { FilterAppend(a[1..], b, p); }
        h + (Filter(a[1..], p) + Filter(b, p));
      ==
        (h + Filter(a[1..], p)) + Filter(b, p);
      }
    }
  }

  /** Filtering by a test every element passes changes nothing. */
  lemma {:induction false} FilterAll<T>(s: seq<T>, p: T -> bool)
    requires forall i :: 0 <= i < |s| ==> p(s[i])
    ensures Filter(s, p) == s
  {
    if s != [] {
      FilterAll(s[1..], p);
    }
  }

  /** Filtering keeps the elements of a list pairwise distinct. */
  lemma {:induction false} FilterDistinct<T>(s: seq<T>, p: T -> bool)
    ensures Distinct(s) ==> Distinct(Filter(s, p))
  {
    if s != [] && Distinct(s) {
      FilterDistinct(s[1..], p);
      FilterMembership(s[1..], p, s[0]);
      assert s[0] !in s[1..];
      var r := Filter(s, p);
      if p(s[0]) {
        assert r == [s[0]] + Filter(s[1..], p);
        forall i, j | 0 <= i < j < |r| ensures r[i] != r[j] {
          if i == 0 {
            assert r[j] in Filter(s[1..], p);
          } else {
            assert r[i] == Filter(s[1..], p)[i - 1] && r[j] == Filter(s[1..], p)[j - 1];
          }
        }
      }
    }
  }

  // ------------------------------------------------------------- distinct

  /** No element occurs twice. */
  predicate Distinct<T(==)>(s: seq<T>)
  {
    forall i, j :: 0 <= i < j < |s| ==> s[i] != s[j]
  }

  /** The elements of `s`, as a set. */
  function Elements<T>(s: seq<T>): set<T>
  {
    set x | x in s
  }

  /** A list without repetitions has as many elements as its set. */
  lemma {:induction false} DistinctCard<T>(s: seq<T>)
    requires Distinct(s)
    ensures |Elements(s)| == |s|
  {
    if s != [] {
      DistinctCard(s[1..]);
      assert s[0] !in s[1..];
      assert Elements(s) == {s[0]} + Elements(s[1..]);
    }
  }

  /**
   * `set.add(x)` on a JavaScript `Set`, whose iteration order is insertion
   * order: a new element goes to the back, a present one stays where it is.
   */
  function SetAdd<T(==)>(s: seq<T>, x: T): (r: seq<T>)
    ensures Elements(r) == Elements(s) + {x}
    ensures Distinct(s) ==> Distinct(r)
    ensures s <= r
    ensures |r| == if x in s then |s| else |s| + 1
  {
    if x in s then s else s + [x]
  }

  /** `set.delete(x)`: every other element, in its old order. */
  function SetDelete<T(==)>(s: seq<T>, x: T): (r: seq<T>)
    ensures Elements(r) == Elements(s) - {x}
    ensures Distinct(s) ==> Distinct(r)
    ensures IsSubsequence(r, s)
    ensures x !in s ==> r == s
  {
    if s == [] then []
    else
      var rest := SetDelete(s[1..], x);
      assert Elements(s) == {s[0]} + Elements(s[1..]);
      if s[0] == x then rest
      else
        var r := [s[0]] + rest;
        assert r[1..] == rest;
        assert Elements(r) == {s[0]} + Elements(rest);
        r
  }

  /**
   * The distinct elements of `s` in order of first occurrence: what a `Set`
   * holds after adding the elements of `s` one by one.
   */
  function Dedup<T(==)>(s: seq<T>): (r: seq<T>)
    ensures Distinct(r)
    ensures Elements(r) == Elements(s)
  {
    if s == [] then [] else SetAdd(Dedup(s[..|s| - 1]), s[|s| - 1])
  }

  lemma DedupSnoc<T>(s: seq<T>, x: T)
    ensures Dedup(s + [x]) == SetAdd(Dedup(s), x)
  {
    assert (s + [x])[..|s + [x]| - 1] == s;
  }

  // ------------------------------------------------------------------ find

  /** `s.findIndex(p)`: the first index whose element satisfies `p`, if any. */
  function FindIndex<T>(s: seq<T>, p: T -> bool): (r: Option<nat>)
    ensures r.Some? ==> r.value < |s| && p(s[r.value])
    ensures r.Some? ==> forall j :: 0 <= j < r.value ==> !p(s[j])
    ensures r.None? <==> forall j :: 0 <= j < |s| ==> !p(s[j])
  {
    if s == [] then None
    else if p(s[0]) then Some(0)
    else match FindIndex(s[1..], p)
      case None => None
      case Some(k) => Some(k + 1)
  }

  /** `s.find(p)`: the first element satisfying `p`, if any. */
  function Find<T>(s: seq<T>, p: T -> bool): (r: Option<T>)
    ensures r.Some? <==> exists j :: 0 <= j < |s| && p(s[j])
    ensures r.Some? ==> r.value in s && p(r.value)
  {
    match FindIndex(s, p)
    case None => None
    case Some(k) => Some(s[k])
  }

  /** `s.indexOf(x)`: the first index holding `x`, if any. */
  function IndexOf<T(==)>(s: seq<T>, x: T): (r: Option<nat>)
    ensures r.Some? ==> r.value < |s| && s[r.value] == x && x !in s[..r.value]
    ensures r.None? <==> x !in s
  {
    var k := FindIndex(s, y => y == x);
    assert k.Some? ==> forall j :: 0 <= j < k.value ==> s[..k.value][j] != x;
    assert k.None? ==> forall j :: 0 <= j < |s| ==> s[j] != x;
    k
  }

  /** The first index holding `x` is the one before which `x` does not occur. */
  lemma IndexOfAt<T>(s: seq<T>, x: T, k: nat)
    requires k < |s| && s[k] == x && x !in s[..k]
    ensures IndexOf(s, x) == Some(k)
  {
  }

  // ---------------------------------------------------------------- splice

  /** `s.splice(k, 1)` on a copy: `s` without its element at index `k`. */
  function RemoveAt<T>(s: seq<T>, k: nat): (r: seq<T>)
    requires k < |s|
    ensures |r| == |s| - 1
    ensures forall i :: 0 <= i < k ==> r[i] == s[i]
    ensures forall i :: k <= i < |r| ==> r[i] == s[i + 1]
  {
    s[..k] + s[k + 1..]
  }

  lemma RemoveAtMultiset<T>(s: seq<T>, k: nat)
    requires k < |s|
    ensures multiset(RemoveAt(s, k)) == multiset(s) - multiset{s[k]}
  {
    assert s == s[..k] + [s[k]] + s[k + 1..];
  }

  /**
   * The listener-removal idiom `i = a.indexOf(x); if (i > -1) a.splice(i, 1)`:
   * drops the first occurrence of `x` and leaves a list without `x` alone.
   */
  function RemoveFirst<T(==)>(s: seq<T>, x: T): seq<T>
  {
    match IndexOf(s, x)
    case None => s
    case Some(k) => RemoveAt(s, k)
  }

  lemma RemoveFirstSpec<T>(s: seq<T>, x: T)
    ensures x !in s ==> RemoveFirst(s, x) == s
    ensures x in s ==> |RemoveFirst(s, x)| == |s| - 1
    ensures multiset(RemoveFirst(s, x)) == multiset(s) - multiset{x}
    ensures x in s ==> exists k :: 0 <= k < |s| && s[k] == x && x !in s[..k] && RemoveFirst(s, x) == s[..k] + s[k + 1..]
  {
    match IndexOf(s, x)
    case None =>
    case Some(k) =>
      RemoveAtMultiset(s, k);
  }

  // ----------------------------------------------------------------- slice

  /**
   * `s.slice(0, end)`: a negative `end` counts from the back, an `end` past
   * the length stops at the length.
   */
  function SliceTo<T>(s: seq<T>, end: int): (r: seq<T>)
    ensures end >= 0 ==> |r| == if end < |s| then end else |s|
    ensures end < 0 ==> |r| == if |s| + end > 0 then |s| + end else 0
    ensures r == s[..|r|]
  {
    var stop := if end < 0 then (if |s| + end > 0 then |s| + end else 0)
                else if end < |s| then end else |s|;
    s[..stop]
  }

  // ------------------------------------------------------------------ sort

  /** The elements of `s` are ordered by non-increasing `key`. */
  predicate SortedDesc<T>(s: seq<T>, key: T -> int)
  {
    forall i, j :: 0 <= i < j < |s| ==> key(s[i]) >= key(s[j])
  }

  /** Inserts `x` in front of the first element whose key is at most its own. */
  function InsertDesc<T>(x: T, s: seq<T>, key: T -> int): seq<T>
  {
    if s == [] || key(s[0]) <= key(x) then [x] + s
    else [s[0]] + InsertDesc(x, s[1..], key)
  }

  /**
   * `s.sort((a, b) => key(b) - key(a))`: the comparator sort of the source,
   * which is stable, written as an insertion sort.
   */
  function SortDesc<T>(s: seq<T>, key: T -> int): seq<T>
  {
    if s == [] then [] else InsertDesc(s[0], SortDesc(s[1..], key), key)
  }

  lemma {:induction false} InsertDescElements<T>(x: T, s: seq<T>, key: T -> int)
    ensures multiset(InsertDesc(x, s, key)) == multiset{x} + multiset(s)
    ensures |InsertDesc(x, s, key)| == |s| + 1
  {
    if !(s == [] || key(s[0]) <= key(x)) {
      InsertDescElements(x, s[1..], key);
      assert s == [s[0]] + s[1..];
    }
  }

  lemma {:induction false} InsertDescSpec<T>(x: T, s: seq<T>, key: T -> int)
    requires SortedDesc(s, key)
    ensures SortedDesc(InsertDesc(x, s, key), key)
    ensures multiset(InsertDesc(x, s, key)) == multiset{x} + multiset(s)
  {
    InsertDescElements(x, s, key);
    if s == [] || key(s[0]) <= key(x) {
      var r := [x] + s;
      assert forall j :: 0 < j < |r| ==> r[j] == s[j - 1];
    } else {
      InsertDescSpec(x, s[1..], key);
      var t := InsertDesc(x, s[1..], key);
      HeadBoundsInsert(x, s, key);
      var r := [s[0]] + t;
      assert forall j :: 0 < j < |r| ==> r[j] == t[j - 1];
    }
  }

  /** Inserting below the head of a sorted sequence leaves every key of the rest at most the head's. */
  lemma HeadBoundsInsert<T>(x: T, s: seq<T>, key: T -> int)
    requires SortedDesc(s, key) && s != [] && key(x) < key(s[0])
    ensures forall i :: 0 <= i < |InsertDesc(x, s[1..], key)| ==> key(s[0]) >= key(InsertDesc(x, s[1..], key)[i])
  {
    var t := InsertDesc(x, s[1..], key);
    InsertDescElements(x, s[1..], key);
    forall i | 0 <= i < |t| ensures key(s[0]) >= key(t[i]) {
      assert t[i] in multiset(t);
      if t[i] != x {
        assert t[i] in multiset(s[1..]);
        var j :| 0 <= j < |s[1..]| && s[1..][j] == t[i];
        assert s[1..][j] == s[j + 1];
      }
    }
  }

  /** The sort orders its input by non-increasing key and is a permutation of it. */
  lemma {:induction false} SortDescSpec<T>(s: seq<T>, key: T -> int)
    ensures SortedDesc(SortDesc(s, key), key)
    ensures multiset(SortDesc(s, key)) == multiset(s)
    ensures |SortDesc(s, key)| == |s|
  {
    if s != [] {
      SortDescSpec(s[1..], key);
      InsertDescSpec(s[0], SortDesc(s[1..], key), key);
      assert s == [s[0]] + s[1..];
      assert multiset(SortDesc(s, key)) == multiset(s);
      assert |multiset(SortDesc(s, key))| == |multiset(s)|;
    }
  }

  lemma {:induction false} InsertDescStable<T>(x: T, s: seq<T>, key: T -> int, k: int)
    requires SortedDesc(s, key)
    ensures Filter(InsertDesc(x, s, key), y => key(y) == k) ==
            if key(x) == k then [x] + Filter(s, y => key(y) == k) else Filter(s, y => key(y) == k)
  {
    var p := y => key(y) == k;
    if s == [] || key(s[0]) <= key(x) {
      assert ([x] + s)[1..] == s;
    } else {
      InsertDescStable(x, s[1..], key, k);
      assert s == [s[0]] + s[1..];
      if key(x) == k {
        assert !p(s[0]);
      }
    }
  }

  /** Stability: elements of equal key keep their relative order from `s`. */
  lemma {:induction false} SortDescStable<T>(s: seq<T>, key: T -> int, k: int)
    ensures Filter(SortDesc(s, key), y => key(y) == k) == Filter(s, y => key(y) == k)
  {
    if s != [] {
      SortDescStable(s[1..], key, k);
      SortDescSpec(s[1..], key);
      InsertDescStable(s[0], SortDesc(s[1..], key), key, k);
    }
  }

  /** In a list sorted by non-increasing key, no element after position `k` outranks one before it. */
  lemma SortedPrefixDominates<T>(t: seq<T>, key: T -> int, k: nat)
    requires SortedDesc(t, key) && k <= |t|
    ensures forall x, y :: x in t[..k] && y in multiset(t[k..]) ==> key(y) <= key(x)
  {
    forall x, y | x in t[..k] && y in multiset(t[k..]) ensures key(y) <= key(x) {
      var j :| 0 <= j < |t[k..]| && t[k..][j] == y;
      var i :| 0 <= i < k && t[..k][i] == x;
      assert t[i] == x && t[k + j] == y;
    }
  }

  /**
   * `s.sort(by key, descending).slice(0, n)`: a prefix of the sorted list
   * (the first `n` elements, or all, when `n >= 0`), ordered by key, taken
   * from `s`, and no element left out has a larger key than one taken.
   */
  lemma TopByKey<T>(s: seq<T>, key: T -> int, n: int)
    ensures n >= 0 ==> |SliceTo(SortDesc(s, key), n)| == if n < |s| then n else |s|
    ensures SortedDesc(SliceTo(SortDesc(s, key), n), key)
    ensures multiset(SliceTo(SortDesc(s, key), n)) <= multiset(s)
    ensures forall x, y :: x in SliceTo(SortDesc(s, key), n) && y in multiset(s) - multiset(SliceTo(SortDesc(s, key), n)) ==>
              key(y) <= key(x)
  {
    var t := SortDesc(s, key);
    SortDescSpec(s, key);
    var r := SliceTo(t, n);
    var k := |r|;
    assert r == t[..k];
    assert t == r + t[k..];
    assert multiset(t) == multiset(r) + multiset(t[k..]);
    assert multiset(s) - multiset(r) == multiset(t[k..]);
    SortedPrefixDominates(t, key, k);
  }
}
