// Sequences without repetition, and the insertion-ordered map of the runtime.
module Collections {
  import opened Wrappers

  ghost predicate Distinct<T(!new)>(s: seq<T>) {
    forall i, j :: 0 <= i < j < |s| ==> s[i] != s[j]
  }

  function Elements<T>(s: seq<T>): set<T> {
    set x | x in s
  }

  lemma {:induction false} DistinctCount<T(!new)>(s: seq<T>)
    requires Distinct(s)
    ensures |Elements(s)| == |s|
  {
    if s != [] {
      var k := |s| - 1;
      DistinctCount(s[..k]);
      assert Elements(s) == Elements(s[..k]) + {s[k]};
    }
  }

  /** As many values as places: the values are all different. */
  lemma {:induction false} CountDistinct<T(!new)>(s: seq<T>)
    requires |Elements(s)| == |s|
    ensures Distinct(s)
  {
    if s != [] {
      var k := |s| - 1;
      assert Elements(s) == Elements(s[..k]) + {s[k]};
      ElementsBound(s[..k]);
      CountDistinct(s[..k]);
    }
  }

  lemma {:induction false} ElementsBound<T(!new)>(s: seq<T>)
    ensures |Elements(s)| <= |s|
  {
    if s != [] {
      var k := |s| - 1;
      ElementsBound(s[..k]);
      assert Elements(s) == Elements(s[..k]) + {s[k]};
    }
  }

  lemma SubsetOfSameSize<T(!new)>(a: set<T>, b: set<T>)
    requires a <= b && |a| >= |b|
    ensures a == b
  {
    if x :| x in b && x !in a {
      var rest := b - {x};
      SubsetBound(a, rest);
    }
  }

  lemma {:induction false} SubsetBound<T(!new)>(a: set<T>, b: set<T>)
    requires a <= b
    ensures |a| <= |b|
    decreases a
  {
    if x :| x in a {
      SubsetBound(a - {x}, b - {x});
    }
  }

  lemma {:induction false} DistinctMultiplicity<T(!new)>(s: seq<T>, x: T)
    requires Distinct(s)
    ensures multiset(s)[x] == if x in s then 1 else 0
  {
    if s != [] {
      var k := |s| - 1;
      DistinctMultiplicity(s[..k], x);
      assert s == s[..k] + [s[k]];
    }
  }

  /** A repetition-free list that covers another of the same length is a permutation of it. */
  lemma CoveringIsPermutation<T(!new)>(xs: seq<T>, ys: seq<T>)
    requires Distinct(xs) && |xs| == |ys| && forall x :: x in xs ==> x in ys
    ensures multiset(xs) == multiset(ys) && Distinct(ys)
  {
    DistinctCount(xs);
    ElementsBound(ys);
    assert Elements(xs) <= Elements(ys);
    SubsetOfSameSize(Elements(xs), Elements(ys));
    CountDistinct(ys);
    forall x ensures multiset(xs)[x] == multiset(ys)[x] {
      DistinctMultiplicity(xs, x);
      DistinctMultiplicity(ys, x);
      assert x in xs <==> x in Elements(xs);
    }
  }

  lemma BagWithout<T>(s: seq<T>, j: nat)
    requires j < |s|
    ensures multiset(s[..j] + s[j + 1..]) == multiset(s) - multiset{s[j]}
  {
    assert s == s[..j] + [s[j]] + s[j + 1..];
  }

  lemma BagOfNothing<T>(s: seq<T>)
    requires multiset(s) == multiset{}
    ensures s == []
  {
    assert |multiset(s)| == |s|;
  }

  lemma BagsRegroup<T>(a: multiset<T>, b: multiset<T>, x: multiset<T>, y: multiset<T>, c: multiset<T>)
    requires a + x == b + y
    ensures a + c + x == b + c + y
  {
    calc {
      a + c + x;
      (a + x) + c;
      (b + y) + c;
      b + c + y;
    }
  }

  lemma BagsCancel<T>(a: multiset<T>, b: multiset<T>, x: multiset<T>, y: multiset<T>)
    requires a + x == b + (x + y)
    ensures a == b + y
  {
    forall t: T | t in a + b + y ensures a[t] == (b + y)[t] {
      assert (a + x)[t] == (b + (x + y))[t];
    }
  }

  // ---------------------------------------------------------------- stable sorting

  /** Lexicographic order of texts. */
  predicate TextAtMost(a: string, b: string) {
    if a == [] then true
    else if b == [] then false
    else a[0] < b[0] || (a[0] == b[0] && TextAtMost(a[1..], b[1..]))
  }

  lemma {:induction false} TextsAreOrdered(a: string, b: string, c: string)
    ensures TextAtMost(a, b) || TextAtMost(b, a)
    ensures TextAtMost(a, b) && TextAtMost(b, c) ==> TextAtMost(a, c)
    ensures TextAtMost(a, b) && TextAtMost(b, a) ==> a == b
  {
    if a != [] && b != [] {
      TextsAreOrdered(a[1..], b[1..], if c == [] then c else c[1..]);
      assert a == [a[0]] + a[1..] && b == [b[0]] + b[1..];
    }
  }

  ghost predicate Orders<T(!new)>(before: (T, T) -> bool) {
    && (forall a, b :: before(a, b) || before(b, a))
    && (forall a, b, c :: before(a, b) && before(b, c) ==> before(a, c))
  }

  ghost predicate Sorted<T(!new)>(before: (T, T) -> bool, xs: seq<T>) {
    forall i, j :: 0 <= i < j < |xs| ==> before(xs[i], xs[j])
  }

  function Insert<T>(before: (T, T) -> bool, x: T, xs: seq<T>): seq<T> {
    if xs == [] then [x]
    else if before(x, xs[0]) then [x] + xs
    else [xs[0]] + Insert(before, x, xs[1..])
  }

  function Sort<T>(before: (T, T) -> bool, xs: seq<T>): seq<T> {
    if xs == [] then [] else Insert(before, xs[0], Sort(before, xs[1..]))
  }

  lemma ConsSorted<T(!new)>(before: (T, T) -> bool, x: T, xs: seq<T>)
    requires Sorted(before, xs) && forall y :: y in xs ==> before(x, y)
    ensures Sorted(before, [x] + xs)
  {
  }

  lemma HeadBeforeAll<T(!new)>(before: (T, T) -> bool, x: T, xs: seq<T>, y: T)
    requires Orders(before) && Sorted(before, xs) && y in xs && before(x, xs[0])
    ensures before(x, y)
  {
    var i :| 0 <= i < |xs| && xs[i] == y;
    assert i > 0 ==> before(xs[0], xs[i]);
  }

  lemma {:induction false} InsertSorts<T(!new)>(before: (T, T) -> bool, x: T, xs: seq<T>)
    requires Orders(before) && Sorted(before, xs)
    ensures Sorted(before, Insert(before, x, xs))
    ensures multiset(Insert(before, x, xs)) == multiset(xs) + multiset{x}
    ensures |Insert(before, x, xs)| == |xs| + 1
  {
    if xs == [] {
    } else if before(x, xs[0]) {
      hide Orders, Sorted;
      forall y | y in xs ensures before(x, y) {
        HeadBeforeAll(before, x, xs, y);
      }
      ConsSorted(before, x, xs);
    } else {
      SortedTail(before, xs);
      hide Sorted;
      InsertSorts(before, x, xs[1..]);
      var ys := Insert(before, x, xs[1..]);
      assert xs == [xs[0]] + xs[1..];
      forall y | y in ys ensures before(xs[0], y) {
        assert y in multiset(ys);
        if y != x {
          assert y in xs[1..];
        }
      }
      ConsSorted(before, xs[0], ys);
    }
  }

  lemma SortedTail<T(!new)>(before: (T, T) -> bool, xs: seq<T>)
    requires Sorted(before, xs) && xs != []
    ensures Sorted(before, xs[1..]) && forall y :: y in xs[1..] ==> before(xs[0], y)
  {
  }

  /** Sorting permutes the list and puts it in order. */
  lemma {:induction false} SortSorts<T(!new)>(before: (T, T) -> bool, xs: seq<T>)
    requires Orders(before)
    ensures Sorted(before, Sort(before, xs)) && multiset(Sort(before, xs)) == multiset(xs) && |Sort(before, xs)| == |xs|
  {
    hide Orders, Insert;
    if xs != [] {
      SortSorts(before, xs[1..]);
      InsertSorts(before, xs[0], Sort(before, xs[1..]));
      assert xs == [xs[0]] + xs[1..];
    }
  }

  /** A map that remembers the order in which its keys were first set. */
  datatype OrderedMap<K, V> = OrderedMap(keys: seq<K>, at: map<K, V>) {
    ghost predicate Valid() {
      && (forall i, j :: 0 <= i < j < |keys| ==> keys[i] != keys[j])
      && Elements(keys) == at.Keys
    }

    function Get(k: K): Option<V> {
      if k in at then Some(at[k]) else None
    }

    /** Setting a present key keeps its place; a new key goes to the end. */
    function Set(k: K, v: V): OrderedMap<K, V> {
      OrderedMap(if k in at then keys else keys + [k], at[k := v])
    }

    function Values(): (vs: seq<V>)
      requires Valid()
      ensures |vs| == |keys|
    {
      seq(|keys|, i requires 0 <= i < |keys| => at[keys[i]])
    }

    /** What setting does to the list of values, and where. */
    lemma SetValues(k: K, v: V) returns (i: nat)
      requires Valid()
      ensures Set(k, v).Valid()
      ensures k in at ==> i < |keys| && keys[i] == k && Set(k, v).Values() == Values()[i := v]
      ensures k !in at ==> i == |keys| && Set(k, v).Values() == Values() + [v]
    {
      var m := Set(k, v);
      if k in at {
        assert k in Elements(keys);
        i :| 0 <= i < |keys| && keys[i] == k;
        assert m.Values() == Values()[i := v];
      } else {
        i := |keys|;
        assert k !in Elements(keys);
        assert Elements(m.keys) == Elements(keys) + {k};
        assert m.Values() == Values() + [v];
      }
    }
  }

  function EmptyMap<K, V>(): (m: OrderedMap<K, V>)
    ensures m.Valid() && m.Values() == []
  {
    OrderedMap([], map[])
  }
}
