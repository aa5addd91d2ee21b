// The array operations the planner's code is written with: filter, find,
// and the stable sort it uses with a string comparator, plus the
// "distinct values, newest first" ordering of the streak computation.

module Lists {
  import opened Types
  import opened Text

  // ---------------------------------------------------------------- filter

  /** `s.filter(p)`. */
  function Keep<T>(s: seq<T>, p: T -> bool): seq<T>
    decreases |s|
  {
    if s == [] then [] else (if p(s[0]) then [s[0]] else []) + Keep(s[1..], p)
  }

  /** `r` is `s` with some elements left out, the rest in order. */
  predicate Subsequence<T(==)>(r: seq<T>, s: seq<T>)
    decreases |s|
  {
    if r == [] then true
    else if s == [] then false
    else if r[0] == s[0] then Subsequence(r[1..], s[1..])
    else Subsequence(r, s[1..])
  }

  /** A filter keeps exactly the elements that pass, each as often as before, in order. */
  lemma KeepSpec<T>(s: seq<T>, p: T -> bool)
    ensures |Keep(s, p)| <= |s|
    ensures forall x :: x in Keep(s, p) <==> x in s && p(x)
    ensures forall x :: multiset(Keep(s, p))[x] == if p(x) then multiset(s)[x] else 0
    ensures Subsequence(Keep(s, p), s)
  {
    KeepCount(s, p);
    forall x ensures x in Keep(s, p) <==> x in s && p(x) {
      assert x in Keep(s, p) <==> x in multiset(Keep(s, p));
      assert x in s <==> x in multiset(s);
    }
    KeepSubsequence(s, p);
  }

  lemma {:induction false} KeepCount<T>(s: seq<T>, p: T -> bool)
    ensures |Keep(s, p)| <= |s|
    ensures forall x :: multiset(Keep(s, p))[x] == if p(x) then multiset(s)[x] else 0
    decreases |s|
  {
    if s != [] {
      KeepCount(s[1..], p);
      assert s == [s[0]] + s[1..];
      assert multiset(s) == multiset{s[0]} + multiset(s[1..]);
      var head := if p(s[0]) then [s[0]] else [];
      assert multiset(Keep(s, p)) == multiset(head) + multiset(Keep(s[1..], p));
    }
  }

  lemma {:induction false} KeepSubsequence<T>(s: seq<T>, p: T -> bool)
    ensures Subsequence(Keep(s, p), s)
    decreases |s|
  {
    if s != [] {
      KeepSubsequence(s[1..], p);
      var r := Keep(s, p);
      if p(s[0]) {
        assert r[0] == s[0] && r[1..] == Keep(s[1..], p);
      } else {
        assert r == Keep(s[1..], p);
        KeepCount(s[1..], p);
        if r != [] {
          assert r[0] in multiset(r);
        }
      }
    }
  }

  /** Filtering keeps keys unique. */
  lemma {:induction false} KeepUnique<T, K>(s: seq<T>, p: T -> bool, key: T -> K)
    requires forall i, j :: 0 <= i < |s| && 0 <= j < |s| && i != j ==> key(s[i]) != key(s[j])
    ensures forall i, j :: 0 <= i < j < |Keep(s, p)| ==> key(Keep(s, p)[i]) != key(Keep(s, p)[j])
    decreases |s|
  {
    if s != [] {
      var t := s[1..];
      KeepUnique(t, p, key);
      var rt := Keep(t, p);
      forall i | 0 <= i < |t| ensures key(t[i]) != key(s[0]) {
        assert t[i] == s[i + 1];
      }
      KeepAvoids(t, p, key, key(s[0]));
      var r := Keep(s, p);
      if p(s[0]) {
        assert r == [s[0]] + rt;
        forall i, j | 0 <= i < j < |r| ensures key(r[i]) != key(r[j]) {
          assert r[j] == rt[j - 1];
          if i > 0 {
            assert r[i] == rt[i - 1];
          }
        }
      } else {
        assert r == rt;
      }
    }
  }

  /** A key no element has is not the key of any kept element. */
  lemma {:induction false} KeepAvoids<T, K>(s: seq<T>, p: T -> bool, key: T -> K, v: K)
    requires forall i :: 0 <= i < |s| ==> key(s[i]) != v
    ensures forall k :: 0 <= k < |Keep(s, p)| ==> key(Keep(s, p)[k]) != v
    decreases |s|
  {
    if s != [] {
      var t := s[1..];
      forall i | 0 <= i < |t| ensures key(t[i]) != v {
        assert t[i] == s[i + 1];
      }
      KeepAvoids(t, p, key, v);
    }
  }

  lemma {:induction false} KeepPasses<T>(s: seq<T>, p: T -> bool)
    ensures forall i :: 0 <= i < |Keep(s, p)| ==> p(Keep(s, p)[i])
    decreases |s|
  {
    if s != [] {
      KeepPasses(s[1..], p);
    }
  }

  /** An element that fails the test makes the filtered list strictly shorter. */
  lemma {:induction false} KeepDrops<T>(s: seq<T>, p: T -> bool, i: int)
    requires 0 <= i < |s| && !p(s[i])
    ensures |Keep(s, p)| < |s|
    decreases |s|
  {
    KeepCount(s[1..], p);
    if i > 0 {
      KeepDrops(s[1..], p, i - 1);
    }
  }

  /** Every entry of the filtered list is an entry of the list. */
  lemma {:induction false} KeepFrom<T>(s: seq<T>, p: T -> bool)
    ensures forall i :: 0 <= i < |Keep(s, p)| ==> Keep(s, p)[i] in s
    decreases |s|
  {
    if s != [] {
      KeepFrom(s[1..], p);
      var t := Keep(s[1..], p);
      forall i | 0 <= i < |t| ensures t[i] in s {
        assert t[i] in s[1..];
      }
    }
  }

  // ---------------------------------------------------------------- remove by id

  predicate OtherId<T>(x: T, id: string, idOf: T -> string) { idOf(x) != id }

  function OtherIdTest<T>(id: string, idOf: T -> string): T -> bool
  {
    x => OtherId(x, id, idOf)
  }

  /** Some entry of the list carries the id. */
  predicate HasId<T>(s: seq<T>, id: string, idOf: T -> string)
  {
    exists i :: 0 <= i < |s| && idOf(s[i]) == id
  }

  /** `s.filter(x => x.id !== id)`: the entries with that id go, the others stay in order. */
  function WithoutId<T(==,!new)>(s: seq<T>, id: string, idOf: T -> string): (r: seq<T>)
    ensures forall i :: 0 <= i < |r| ==> idOf(r[i]) != id
    ensures forall i :: 0 <= i < |r| ==> r[i] in s
    ensures forall i :: 0 <= i < |s| && idOf(s[i]) != id ==> s[i] in r
    ensures forall x :: multiset(r)[x] == if idOf(x) != id then multiset(s)[x] else 0
    ensures Subsequence(r, s)
    ensures HasId(s, id, idOf) ==> |r| < |s|
    ensures !HasId(s, id, idOf) ==> r == s
  {
    var p := OtherIdTest(id, idOf);
    KeepSpec(s, p);
    KeepPasses(s, p);
    KeepFrom(s, p);
    if HasId(s, id, idOf) then
      var i :| 0 <= i < |s| && idOf(s[i]) == id;
      KeepDrops(s, p, i);
      Keep(s, p)
    else
      KeepAll(s, p);
      Keep(s, p)
  }

  /** Removing the same id twice is removing it once. */
  lemma WithoutIdIdempotent<T(!new)>(s: seq<T>, id: string, idOf: T -> string)
    ensures WithoutId(WithoutId(s, id, idOf), id, idOf) == WithoutId(s, id, idOf)
  {
    KeepIdempotent(s, OtherIdTest(id, idOf));
  }

  /** Filtering when every element passes changes nothing. */
  lemma {:induction false} KeepAll<T>(s: seq<T>, p: T -> bool)
    requires forall i :: 0 <= i < |s| ==> p(s[i])
    ensures Keep(s, p) == s
    decreases |s|
  {
    if s != [] {
      KeepAll(s[1..], p);
    }
  }

  /** Filtering twice by the same test is filtering once. */
  lemma KeepIdempotent<T>(s: seq<T>, p: T -> bool)
    ensures Keep(Keep(s, p), p) == Keep(s, p)
  {
    var r := Keep(s, p);
    KeepSpec(s, p);
    KeepPasses(s, p);
    KeepAll(r, p);
  }

  /** Filtering distributes over concatenation. */
  lemma {:induction false} KeepAppend<T>(a: seq<T>, b: seq<T>, p: T -> bool)
    ensures Keep(a + b, p) == Keep(a, p) + Keep(b, p)
    decreases |a|
  {
    if a != [] {
      KeepAppend(a[1..], b, p);
      assert (a + b)[0] == a[0];
      assert (a + b)[1..] == a[1..] + b;
    } else {
      assert a + b == b;
    }
  }

  /** Filtering out everything leaves nothing. */
  lemma {:induction false} KeepNone<T>(s: seq<T>, p: T -> bool)
    requires forall i :: 0 <= i < |s| ==> !p(s[i])
    ensures Keep(s, p) == []
    decreases |s|
  {
    if s != [] {
      KeepNone(s[1..], p);
    }
  }

  /** A filter and the filter by the opposite test split the list's length between them. */
  lemma {:induction false} KeepSplit<T>(s: seq<T>, p: T -> bool, q: T -> bool)
    requires forall i :: 0 <= i < |s| ==> q(s[i]) == !p(s[i])
    ensures |Keep(s, p)| + |Keep(s, q)| == |s|
    decreases |s|
  {
    if s != [] {
      forall i | 0 <= i < |s[1..]| ensures q(s[1..][i]) == !p(s[1..][i]) {
        assert s[1..][i] == s[i + 1];
      }
      KeepSplit(s[1..], p, q);
    }
  }

  // ---------------------------------------------------------------- for-each that emits

  /** What a `forEach` that emits `f(x)` for every element, in order, emits. */
  function FlatMap<T, U>(s: seq<T>, f: T -> seq<U>): seq<U>
    decreases |s|
  {
    if s == [] then [] else FlatMap(s[..|s| - 1], f) + f(s[|s| - 1])
  }

  /** `y` is among the items some element of `s` emits. */
  predicate EmittedBy<T, U(==)>(y: U, s: seq<T>, f: T -> seq<U>)
  {
    exists i :: 0 <= i < |s| && y in f(s[i])
  }

  /** Each emitted item comes from some element, and when each element emits at most one item
      there are at most as many items as elements. */
  lemma {:induction false} FlatMapSpec<T, U>(s: seq<T>, f: T -> seq<U>)
    ensures forall k :: 0 <= k < |FlatMap(s, f)| ==> EmittedBy(FlatMap(s, f)[k], s, f)
    ensures (forall x :: |f(x)| <= 1) ==> |FlatMap(s, f)| <= |s|
    decreases |s|
  {
    if s != [] {
      var init := s[..|s| - 1];
      FlatMapSpec(init, f);
      var r := FlatMap(s, f);
      var a := FlatMap(init, f);
      forall k | 0 <= k < |r| ensures EmittedBy(r[k], s, f) {
        if k < |a| {
          var i :| 0 <= i < |init| && a[k] in f(init[i]);
          assert r[k] == a[k] && init[i] == s[i];
        } else {
          assert r[k] == f(s[|s| - 1])[k - |a|];
          assert r[k] in f(s[|s| - 1]);
        }
      }
    }
  }

  /** Elements with distinct keys, each emitting at most one item carrying its key: the items' keys are distinct. */
  lemma {:induction false} FlatMapUnique<T, U, K>(s: seq<T>, f: T -> seq<U>, key: U -> K, owner: T -> K)
    requires forall x :: |f(x)| <= 1
    requires forall x, y :: y in f(x) ==> key(y) == owner(x)
    requires forall i, j :: 0 <= i < j < |s| ==> owner(s[i]) != owner(s[j])
    ensures var r := FlatMap(s, f);
      forall i, j :: 0 <= i < j < |r| ==> key(r[i]) != key(r[j])
    decreases |s|
  {
    if s != [] {
      var init := s[..|s| - 1];
      var last := s[|s| - 1];
      FlatMapUnique(init, f, key, owner);
      FlatMapSpec(init, f);
      var a := FlatMap(init, f);
      var r := FlatMap(s, f);
      forall i, j | 0 <= i < j < |r| ensures key(r[i]) != key(r[j]) {
        if j >= |a| {
          assert |f(last)| <= 1;
          assert r[j] == f(last)[j - |a|] && r[j] in f(last);
          assert i < |a|;
          var m :| 0 <= m < |init| && a[i] in f(init[m]);
          assert r[i] == a[i] && init[m] == s[m];
        } else {
          assert r[i] == a[i] && r[j] == a[j];
        }
      }
    }
  }

  /** Whatever an element emits is in the output. */
  lemma {:induction false} FlatMapContains<T, U>(s: seq<T>, f: T -> seq<U>, i: int)
    requires 0 <= i < |s|
    ensures forall y :: y in f(s[i]) ==> y in FlatMap(s, f)
    decreases |s|
  {
    var init := s[..|s| - 1];
    if i < |s| - 1 {
      FlatMapContains(init, f, i);
      assert init[i] == s[i];
    }
  }

  // ---------------------------------------------------------------- find

  /** `s.findIndex(p)`, with -1 as None. */
  function FindFirst<T>(s: seq<T>, p: T -> bool): (r: Option<nat>)
    ensures r.Some? ==> r.value < |s| && p(s[r.value]) && forall j :: 0 <= j < r.value ==> !p(s[j])
    ensures r.None? ==> forall j :: 0 <= j < |s| ==> !p(s[j])
    decreases |s|
  {
    if s == [] then None
    else if p(s[0]) then Some(0)
    else match FindFirst(s[1..], p)
      case None => None
      case Some(k) => Some(k + 1)
  }

  /** `s.find(p)`, with undefined as None. */
  function Find<T>(s: seq<T>, p: T -> bool): (r: Option<T>)
    ensures r.None? <==> forall x :: x in s ==> !p(x)
    ensures r.Some? ==> r.value in s && p(r.value)
    ensures r.Some? ==> exists i :: 0 <= i < |s| && s[i] == r.value && p(s[i]) && forall j :: 0 <= j < i ==> !p(s[j])
  {
    match FindFirst(s, p)
    case None => None
    case Some(i) => Some(s[i])
  }

  /** Filtering by a weaker test first does not change what a search finds. */
  lemma {:induction false} FindKeep<T>(s: seq<T>, q: T -> bool, p: T -> bool)
    requires forall x :: p(x) ==> q(x)
    ensures Find(Keep(s, q), p) == Find(s, p)
    decreases |s|
  {
    if s != [] {
      FindKeep(s[1..], q, p);
      var k := Keep(s, q);
      if q(s[0]) {
        assert k[0] == s[0] && k[1..] == Keep(s[1..], q);
      } else {
        assert k == Keep(s[1..], q);
      }
    }
  }

  /** A search skips a prefix none of whose elements pass. */
  lemma {:induction false} FindAfterMisses<T>(a: seq<T>, b: seq<T>, p: T -> bool)
    requires forall i :: 0 <= i < |a| ==> !p(a[i])
    ensures Find(a + b, p) == Find(b, p)
    decreases |a|
  {
    if a != [] {
      FindAfterMisses(a[1..], b, p);
      assert (a + b)[1..] == a[1..] + b;
      assert FindFirst(a + b, p) == match FindFirst(a[1..] + b, p) case None => None case Some(k) => Some(k + 1);
    } else {
      assert a + b == b;
    }
  }

  // ---------------------------------------------------------------- sort by a string key

  /** Ascending by `key` in JavaScript string order. */
  predicate SortedBy<T>(s: seq<T>, key: T -> string)
  {
    forall i, j :: 0 <= i < j < |s| ==> LexLessEq(key(s[i]), key(s[j]))
  }

  /** One insertion step: `x` goes in front of the first element not smaller than it. */
  function InsertBy<T>(x: T, s: seq<T>, key: T -> string): seq<T>
    decreases |s|
  {
    if s == [] then [x]
    else if LexLess(key(s[0]), key(x)) then [s[0]] + InsertBy(x, s[1..], key)
    else [x] + s
  }

  /** `s.sort((a, b) => key(a).localeCompare(key(b)))`: a stable sort. */
  function SortBy<T>(s: seq<T>, key: T -> string): seq<T>
    decreases |s|
  {
    if s == [] then [] else InsertBy(s[0], SortBy(s[1..], key), key)
  }

  /** A lower bound of `x` and of every element of `s` bounds every element of the insertion. */
  lemma {:induction false} InsertByBound<T>(b: string, x: T, s: seq<T>, key: T -> string)
    requires LexLessEq(b, key(x))
    requires forall k :: 0 <= k < |s| ==> LexLessEq(b, key(s[k]))
    ensures forall j :: 0 <= j < |InsertBy(x, s, key)| ==> LexLessEq(b, key(InsertBy(x, s, key)[j]))
    decreases |s|
  {
    if s != [] && LexLess(key(s[0]), key(x)) {
      InsertByBound(b, x, s[1..], key);
    }
  }

  lemma {:induction false} InsertBySpec<T>(x: T, s: seq<T>, key: T -> string)
    requires SortedBy(s, key)
    ensures SortedBy(InsertBy(x, s, key), key)
    ensures multiset(InsertBy(x, s, key)) == multiset(s) + multiset{x}
    ensures |InsertBy(x, s, key)| == |s| + 1
    decreases |s|
  {
    if s == [] {
    } else if LexLess(key(s[0]), key(x)) {
      InsertBySpec(x, s[1..], key);
      InsertAfterHead(x, s, key);
    } else {
      InsertAtFront(x, s, key);
    }
  }

  /** A sorted list stays sorted with a head no greater than any of its elements. */
  lemma ConsSorted<T>(h: T, t: seq<T>, key: T -> string)
    requires SortedBy(t, key)
    requires forall k :: 0 <= k < |t| ==> LexLessEq(key(h), key(t[k]))
    ensures SortedBy([h] + t, key)
  {
    var r := [h] + t;
    assert forall j :: 0 < j < |r| ==> r[j] == t[j - 1];
  }

  /** The insertion step past a smaller head, given the step on the tail. */
  lemma InsertAfterHead<T>(x: T, s: seq<T>, key: T -> string)
    requires SortedBy(s, key) && s != [] && LexLess(key(s[0]), key(x))
    requires SortedBy(InsertBy(x, s[1..], key), key)
    requires multiset(InsertBy(x, s[1..], key)) == multiset(s[1..]) + multiset{x}
    requires |InsertBy(x, s[1..], key)| == |s|
    ensures SortedBy(InsertBy(x, s, key), key)
    ensures multiset(InsertBy(x, s, key)) == multiset(s) + multiset{x}
    ensures |InsertBy(x, s, key)| == |s| + 1
  {
    var t := InsertBy(x, s[1..], key);
    assert InsertBy(x, s, key) == [s[0]] + t;
    assert s == [s[0]] + s[1..];
    InsertByBound(key(s[0]), x, s[1..], key);
    ConsSorted(s[0], t, key);
  }

  /** The insertion step in front of a head that is not smaller. */
  lemma InsertAtFront<T>(x: T, s: seq<T>, key: T -> string)
    requires SortedBy(s, key) && s != [] && !LexLess(key(s[0]), key(x))
    ensures SortedBy(InsertBy(x, s, key), key)
    ensures multiset(InsertBy(x, s, key)) == multiset(s) + multiset{x}
    ensures |InsertBy(x, s, key)| == |s| + 1
  {
    NotLessIsGreaterEq(key(s[0]), key(x));
    forall k | 0 <= k < |s| ensures LexLessEq(key(x), key(s[k])) {
      if k > 0 {
        LexLessEqTransitive(key(x), key(s[0]), key(s[k]));
      }
    }
    ConsSorted(x, s, key);
  }

  /** The sort's result is ordered by the key and is a permutation of its input. */
  lemma {:induction false} SortBySpec<T>(s: seq<T>, key: T -> string)
    ensures SortedBy(SortBy(s, key), key)
    ensures multiset(SortBy(s, key)) == multiset(s)
    ensures |SortBy(s, key)| == |s|
    decreases |s|
  {
    if s != [] {
      SortBySpec(s[1..], key);
      InsertBySpec(s[0], SortBy(s[1..], key), key);
      assert s == [s[0]] + s[1..];
    }
    assert |multiset(SortBy(s, key))| == |multiset(s)|;
  }

  /** Filtering a sorted list keeps it sorted. */
  lemma {:induction false} KeepSorted<T>(s: seq<T>, p: T -> bool, key: T -> string)
    requires SortedBy(s, key)
    ensures SortedBy(Keep(s, p), key)
    decreases |s|
  {
    if s != [] {
      var tail := s[1..];
      assert forall i :: 0 <= i < |tail| ==> tail[i] == s[i + 1];
      KeepSorted(tail, p, key);
      var t := Keep(tail, p);
      KeepFrom(tail, p);
      forall i | 0 <= i < |t|
        ensures LexLessEq(key(s[0]), key(t[i]))
      {
        var j :| 0 <= j < |tail| && tail[j] == t[i];
        assert s[j + 1] == t[i];
      }
      var r := Keep(s, p);
      if p(s[0]) {
        assert r == [s[0]] + t;
        forall i, j | 0 <= i < j < |r|
          ensures LexLessEq(key(r[i]), key(r[j]))
        {
          assert r[j] == t[j - 1];
          if i > 0 {
            assert r[i] == t[i - 1];
          }
        }
      } else {
        assert r == t;
      }
    }
  }

  // ---------------------------------------------------------------- chains

  /** Every element is related to the one after it. */
  predicate Linked<T>(s: seq<T>, rel: (T, T) -> bool)
    decreases |s|
  {
    |s| < 2 || (rel(s[0], s[1]) && Linked(s[1..], rel))
  }

  ghost predicate Transitive<T(!new)>(rel: (T, T) -> bool)
  {
    forall a, b, c :: rel(a, b) && rel(b, c) ==> rel(a, c)
  }

  /** Two linked lists joined where the first's last is related to the second's first stay linked. */
  lemma {:induction false} LinkedAppend<T>(a: seq<T>, b: seq<T>, rel: (T, T) -> bool)
    requires Linked(a, rel) && Linked(b, rel)
    requires a != [] && b != [] ==> rel(a[|a| - 1], b[0])
    ensures Linked(a + b, rel)
    decreases |a|
  {
    var c := a + b;
    if |a| == 0 {
      assert c == b;
    } else if b == [] {
      assert c == a;
    } else if |a| == 1 {
      assert c[0] == a[0] && c[1..] == b;
    } else {
      LinkedAppend(a[1..], b, rel);
      assert c[0] == a[0] && c[1] == a[1];
      assert c[1..] == a[1..] + b;
    }
  }

  /** For a transitive relation, linking neighbours relates every earlier element to every later one. */
  lemma {:induction false} LinkedPairwise<T(!new)>(s: seq<T>, rel: (T, T) -> bool)
    requires Transitive(rel) && Linked(s, rel)
    ensures forall i, j :: 0 <= i < j < |s| ==> rel(s[i], s[j])
    decreases |s|
  {
    if |s| >= 2 {
      var r := s[1..];
      LinkedPairwise(r, rel);
      forall i, j | 0 <= i < j < |s| ensures rel(s[i], s[j]) {
        if i == 0 && j > 1 {
          assert r[j - 1] == s[j];
          assert rel(s[0], s[1]) && rel(s[1], s[j]);
        } else if i > 0 {
          assert r[i - 1] == s[i] && r[j - 1] == s[j];
        }
      }
    }
  }

  // ---------------------------------------------------------------- distinct, newest first

  predicate StrictlyDescending(s: seq<int>)
  {
    forall i, j :: 0 <= i < j < |s| ==> s[i] > s[j]
  }

  /** Insert into a strictly descending list, dropping an equal value. */
  function InsertDistinct(x: int, s: seq<int>): seq<int>
    decreases |s|
  {
    if s == [] then [x]
    else if x > s[0] then [x] + s
    else if x == s[0] then s
    else [s[0]] + InsertDistinct(x, s[1..])
  }

  /** `[...new Set(xs)].sort().reverse()` on day numbers. */
  function DistinctDescending(xs: seq<int>): seq<int>
    decreases |xs|
  {
    if xs == [] then [] else InsertDistinct(xs[0], DistinctDescending(xs[1..]))
  }

  lemma {:induction false} InsertDistinctSpec(x: int, s: seq<int>)
    requires StrictlyDescending(s)
    ensures StrictlyDescending(InsertDistinct(x, s))
    ensures forall y :: y in InsertDistinct(x, s) <==> y == x || y in s
    decreases |s|
  {
    if s != [] && x < s[0] {
      InsertDistinctSpec(x, s[1..]);
      var t := InsertDistinct(x, s[1..]);
      var r := [s[0]] + t;
      forall i, j | 0 <= i < j < |r| ensures r[i] > r[j] {
        assert r[j] == t[j - 1] && t[j - 1] in t;
        if i > 0 {
          assert r[i] == t[i - 1];
        } else if t[j - 1] != x {
          var k :| 0 <= k < |s[1..]| && s[1..][k] == t[j - 1];
          assert s[k + 1] == t[j - 1];
        }
      }
    }
  }

  /** The distinct values of `xs`, strictly descending. */
  lemma {:induction false} DistinctDescendingSpec(xs: seq<int>)
    ensures StrictlyDescending(DistinctDescending(xs))
    ensures forall y :: y in DistinctDescending(xs) <==> y in xs
    ensures |DistinctDescending(xs)| <= |xs|
    decreases |xs|
  {
    if xs != [] {
      DistinctDescendingSpec(xs[1..]);
      InsertDistinctSpec(xs[0], DistinctDescending(xs[1..]));
      InsertDistinctLength(xs[0], DistinctDescending(xs[1..]));
      assert xs == [xs[0]] + xs[1..];
    }
  }

  lemma {:induction false} InsertDistinctLength(x: int, s: seq<int>)
    ensures |InsertDistinct(x, s)| <= |s| + 1
    decreases |s|
  {
    if s != [] && x < s[0] {
      InsertDistinctLength(x, s[1..]);
    }
  }
}
