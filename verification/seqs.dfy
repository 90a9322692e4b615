/** Sequence combinators shared by every page and slice: the model's counterparts of
    JavaScript's Array.prototype.filter, reduce-to-a-sum, slice(0, n) and a stable sort. */
module Seqs {

  datatype Option<T> = None | Some(value: T)

  /** `s.filter(p)`: the elements of `s` that satisfy `p`, in their original order. */
  function Filter<T>(s: seq<T>, p: T -> bool): (r: seq<T>)
    ensures |r| <= |s|
    ensures forall i :: 0 <= i < |r| ==> r[i] in s && p(r[i])
    ensures forall i :: 0 <= i < |s| && p(s[i]) ==> s[i] in r
  {
    if s == [] then []
    else if p(s[0]) then [s[0]] + Filter(s[1..], p)
    else Filter(s[1..], p)
  }

  /** `s.filter(p).length` */
  function Count<T>(s: seq<T>, p: T -> bool): nat
  {
    |Filter(s, p)|
  }

  /** The predicate "f(x) == k", as a value that can be handed to Filter. */
  function KeyIs<T>(f: T -> string, k: string): T -> bool
  {
    x => f(x) == k
  }

  /** `a` can be obtained from `b` by deleting elements: it keeps b's order. */
  predicate Subseq<T(==)>(a: seq<T>, b: seq<T>)
    decreases |b|
  {
    if a == [] then true
    else if b == [] then false
    else if a[0] == b[0] then Subseq(a[1..], b[1..])
    else Subseq(a, b[1..])
  }

  /** No value occurs twice. */
  predicate Distinct<T(==)>(s: seq<T>)
  {
    forall i, j :: 0 <= i < j < |s| ==> s[i] != s[j]
  }

  /** Filtering distributes over concatenation: the kept elements of a prefix come
      before the kept elements of the rest, which is what "in original order" means. */
  lemma {:induction false} FilterConcat<T>(a: seq<T>, b: seq<T>, p: T -> bool)
    ensures Filter(a + b, p) == Filter(a, p) + Filter(b, p)
  {
    if a == [] {
      assert a + b == b;
    } else {
      assert (a + b)[0] == a[0];
      assert (a + b)[1..] == a[1..] + b;
      FilterConcat(a[1..], b, p);
    }
  }

  /** Appending one element adds one to the count exactly when it satisfies `p`. */
  lemma CountSnoc<T>(s: seq<T>, x: T, p: T -> bool)
    ensures Count(s + [x], p) == Count(s, p) + (if p(x) then 1 else 0)
  {
    FilterConcat(s, [x], p);
    assert [x][1..] == [];
  }

  /** The filtered list is an order-preserving subsequence of the input. */
  lemma {:induction false} FilterIsSubseq<T>(s: seq<T>, p: T -> bool)
    ensures Subseq(Filter(s, p), s)
  {
    if s != [] {
      FilterIsSubseq(s[1..], p);
      if p(s[0]) {
        assert Filter(s, p)[0] == s[0];
        assert Filter(s, p)[1..] == Filter(s[1..], p);
      } else {
        SubseqDropFront(Filter(s, p), s);
      }
    }
  }

  /** Helper: if `a` embeds in `b[1..]` it embeds in `b`. */
  lemma {:induction false} SubseqDropFront<T>(a: seq<T>, b: seq<T>)
    requires b != [] && Subseq(a, b[1..])
    ensures Subseq(a, b)
    decreases |b|, 0
  {
    if a != [] && a[0] == b[0] {
      SubseqTail(a, b[1..]);
    }
  }

  /** Helper: dropping the head of `a` keeps it embedded. */
  lemma {:induction false} SubseqTail<T>(a: seq<T>, c: seq<T>)
    requires a != [] && Subseq(a, c)
    ensures Subseq(a[1..], c)
    decreases |c|, 1
  {
    assert c != [];
    if a[0] != c[0] {
      SubseqTail(a, c[1..]);
    }
    SubseqDropFront(a[1..], c);
  }

  /** Every element of a subsequence occurs in the whole. */
  lemma {:induction false} SubseqMembers<T>(a: seq<T>, b: seq<T>)
    requires Subseq(a, b)
    ensures forall x :: x in a ==> x in b
    decreases |b|
  {
    if a != [] {
      if a[0] == b[0] {
        SubseqMembers(a[1..], b[1..]);
        assert forall x :: x in a ==> x == a[0] || x in a[1..];
      } else {
        SubseqMembers(a, b[1..]);
      }
    }
  }

  /** Summing non-negative weights over part of a sequence gives a non-negative total. */
  lemma SumOfSubseqNonNegative<T>(a: seq<T>, b: seq<T>, w: T -> int)
    requires Subseq(a, b)
    ensures (forall j :: 0 <= j < |b| ==> w(b[j]) >= 0) ==> Sum(a, w) >= 0
  {
    if forall j :: 0 <= j < |b| ==> w(b[j]) >= 0 {
      SubseqMembers(a, b);
      SumSubseq([], a, w);
    }
  }

  /** Subsequences compose. */
  lemma {:induction false} SubseqTrans<T>(a: seq<T>, b: seq<T>, c: seq<T>)
    requires Subseq(a, b) && Subseq(b, c)
    ensures Subseq(a, c)
    decreases |c|
  {
    if a != [] {
      assert b != [] && c != [];
      if b[0] == c[0] {
        if a[0] == b[0] {
          SubseqTrans(a[1..], b[1..], c[1..]);
        } else {
          SubseqTrans(a, b[1..], c[1..]);
        }
      } else {
        SubseqTrans(a, b, c[1..]);
        SubseqDropFront(a, c);
      }
    }
  }

  /** Filtering twice with the same predicate changes nothing the second time. */
  lemma {:induction false} FilterIdempotent<T>(s: seq<T>, p: T -> bool)
    ensures Filter(Filter(s, p), p) == Filter(s, p)
  {
    if s != [] {
      FilterIdempotent(s[1..], p);
    }
  }

  /** Filtering keeps everything when every element qualifies. */
  lemma {:induction false} FilterAll<T>(s: seq<T>, p: T -> bool)
    requires forall x :: x in s ==> p(x)
    ensures Filter(s, p) == s
  {
    if s != [] {
      FilterAll(s[1..], p);
    }
  }

  /** Filtering by q after p yields a subsequence of filtering by q alone. */
  lemma {:induction false} FilterFilterSubseq<T>(s: seq<T>, p: T -> bool, q: T -> bool)
    ensures Subseq(Filter(Filter(s, p), q), Filter(s, q))
  {
    if s != [] {
      FilterFilterSubseq(s[1..], p, q);
      var rest := Filter(Filter(s[1..], p), q);
      if p(s[0]) && q(s[0]) {
        assert Filter(Filter(s, p), q) == [s[0]] + rest;
        assert Filter(s, q) == [s[0]] + Filter(s[1..], q);
      } else if q(s[0]) {
        assert Filter(Filter(s, p), q) == rest;
        assert Filter(s, q) == [s[0]] + Filter(s[1..], q);
        if rest != [] {
          SubseqDropFront(rest, Filter(s, q));
        }
      } else {
        assert Filter(Filter(s, p), q) == rest;
      }
    }
  }

  /** Filtering by p and then by q is filtering once by their conjunction. */
  lemma {:induction false} FilterFilterConj<T>(s: seq<T>, p: T -> bool, q: T -> bool, pq: T -> bool)
    requires forall x :: pq(x) == (p(x) && q(x))
    ensures Filter(Filter(s, p), q) == Filter(s, pq)
  {
    if s != [] {
      FilterFilterConj(s[1..], p, q, pq);
      if p(s[0]) {
        assert Filter(s, p) == [s[0]] + Filter(s[1..], p);
      }
    }
  }

  /** Filtering by a stronger predicate yields a subsequence of filtering by a weaker one. */
  lemma {:induction false} FilterStronger<T>(s: seq<T>, p: T -> bool, q: T -> bool)
    requires forall i :: 0 <= i < |s| && p(s[i]) ==> q(s[i])
    ensures Subseq(Filter(s, p), Filter(s, q))
  {
    if s != [] {
      FilterStronger(s[1..], p, q);
      var rest := Filter(s[1..], p);
      if p(s[0]) {
        assert Filter(s, p) == [s[0]] + rest;
        assert Filter(s, q) == [s[0]] + Filter(s[1..], q);
      } else if q(s[0]) {
        assert Filter(s, q) == [s[0]] + Filter(s[1..], q);
        if rest != [] {
          SubseqDropFront(rest, Filter(s, q));
        }
      }
    }
  }

  /** Filters by two predicates that agree on every element give the same result. */
  lemma {:induction false} FilterSame<T>(s: seq<T>, p: T -> bool, q: T -> bool)
    requires forall i :: 0 <= i < |s| ==> p(s[i]) == q(s[i])
    ensures Filter(s, p) == Filter(s, q)
  {
    if s != [] {
      FilterSame(s[1..], p, q);
    }
  }

  /** Filtering keeps nothing when no element qualifies. */
  lemma FilterNone<T>(s: seq<T>, p: T -> bool)
    requires forall i :: 0 <= i < |s| ==> !p(s[i])
    ensures Filter(s, p) == []
  {
  }

  /** When every element has one of three distinct keys, the three counts add up to |s|. */
  lemma {:induction false} CountThreeKeys<T>(s: seq<T>, f: T -> string, a: string, b: string, c: string)
    requires a != b && b != c && a != c
    requires forall x :: x in s ==> f(x) == a || f(x) == b || f(x) == c
    ensures Count(s, KeyIs(f, a)) + Count(s, KeyIs(f, b)) + Count(s, KeyIs(f, c)) == |s|
  {
    if s != [] {
      CountThreeKeys(s[1..], f, a, b, c);
    }
  }

  /** Three counts for three distinct keys never exceed |s|, whatever the keys in `s`. */
  lemma {:induction false} CountThreeKeysBound<T>(s: seq<T>, f: T -> string, a: string, b: string, c: string)
    requires a != b && b != c && a != c
    ensures Count(s, KeyIs(f, a)) + Count(s, KeyIs(f, b)) + Count(s, KeyIs(f, c)) <= |s|
  {
    if s != [] {
      CountThreeKeysBound(s[1..], f, a, b, c);
    }
  }

  /** `s.reduce((sum, x) => sum + w(x), 0)` */
  function Sum<T>(s: seq<T>, w: T -> int): int
  {
    if s == [] then 0 else w(s[0]) + Sum(s[1..], w)
  }

  /** Summing over a concatenation is summing over each part. */
  lemma {:induction false} SumConcat<T>(a: seq<T>, b: seq<T>, w: T -> int)
    ensures Sum(a + b, w) == Sum(a, w) + Sum(b, w)
  {
    if a == [] {
      assert a + b == b;
    } else {
      assert (a + b)[1..] == a[1..] + b;
      SumConcat(a[1..], b, w);
    }
  }

  /** Applying a KeyIs predicate compares the key. */
  lemma KeyIsApplied<T>(f: T -> string, k: string, x: T)
    ensures KeyIs(f, k)(x) <==> f(x) == k
  {
  }

  /** Appending one element to the input of a filter-sum adds its weight exactly when it
      passes the filter. */
  lemma SumFilterSnoc<T>(s: seq<T>, x: T, p: T -> bool, w: T -> int)
    ensures Sum(Filter(s + [x], p), w) == Sum(Filter(s, p), w) + (if p(x) then w(x) else 0)
  {
    FilterConcat(s, [x], p);
    SumConcat(Filter(s, p), Filter([x], p), w);
  }

  /** Appending one element to the input of a filter-filter-sum adds its weight exactly
      when it passes both filters. */
  lemma SumFilterFilterSnoc<T>(s: seq<T>, x: T, p: T -> bool, q: T -> bool, w: T -> int)
    ensures Sum(Filter(Filter(s + [x], p), q), w) ==
      Sum(Filter(Filter(s, p), q), w) + (if p(x) && q(x) then w(x) else 0)
  {
    FilterConcat(s, [x], p);
    var tail := Filter([x], p);
    FilterConcat(Filter(s, p), tail, q);
    SumConcat(Filter(Filter(s, p), q), Filter(tail, q), w);
    if p(x) {
      assert tail == [x];
    } else {
      assert tail == [];
    }
  }

  /** A sum of non-negative weights over a subsequence is at most the sum over the whole. */
  lemma {:induction false} SumSubseq<T>(a: seq<T>, b: seq<T>, w: T -> int)
    requires Subseq(a, b)
    requires forall x :: x in b ==> w(x) >= 0
    ensures Sum(a, w) <= Sum(b, w)
    decreases |b|
  {
    if b != [] {
      if a != [] && a[0] == b[0] {
        SumSubseq(a[1..], b[1..], w);
      } else {
        SumSubseq(a, b[1..], w);
      }
    }
  }

  /** The distinct values `f` takes on the elements of `s`: no more of them than elements. */
  function Image<T, U>(s: seq<T>, f: T -> U): (r: set<U>)
    ensures |r| <= |s|
    ensures forall i :: 0 <= i < |s| ==> f(s[i]) in r
    ensures forall y :: y in r ==> exists i :: 0 <= i < |s| && f(s[i]) == y
  {
    if s == [] then {}
    else
      var rest := Image(s[1..], f);
      ImageTail(s, f, rest);
      {f(s[0])} + rest
  }

  /** When no two elements share a value, there are as many values as elements. */
  lemma {:induction false} ImageOfDistinctKeys<T, U>(s: seq<T>, f: T -> U)
    requires forall i, j :: 0 <= i < j < |s| ==> f(s[i]) != f(s[j])
    ensures |Image(s, f)| == |s|
  {
    if s != [] {
      var rest := Image(s[1..], f);
      assert forall i, j :: 0 <= i < j < |s| - 1 ==> f(s[1..][i]) != f(s[1..][j]) by {
        forall i, j | 0 <= i < j < |s| - 1
          ensures f(s[1..][i]) != f(s[1..][j])
        {
          assert s[1..][i] == s[i + 1] && s[1..][j] == s[j + 1];
        }
      }
      ImageOfDistinctKeys(s[1..], f);
      assert forall j :: 0 <= j < |s| - 1 ==> f(s[1..][j]) != f(s[0]) by {
        forall j | 0 <= j < |s| - 1
          ensures f(s[1..][j]) != f(s[0])
        {
          assert s[1..][j] == s[j + 1];
        }
      }
    }
  }

  /** Appending an element adds its value to the image. */
  lemma ImageSnoc<T, U>(s: seq<T>, x: T, f: T -> U)
    ensures Image(s + [x], f) == Image(s, f) + {f(x)}
  {
    var all := s + [x];
    forall y | y in Image(all, f)
      ensures y in Image(s, f) + {f(x)}
    {
      var i :| 0 <= i < |all| && f(all[i]) == y;
      if i < |s| {
        assert all[i] == s[i];
      }
    }
    forall y | y in Image(s, f) + {f(x)}
      ensures y in Image(all, f)
    {
      if y != f(x) {
        var i :| 0 <= i < |s| && f(s[i]) == y;
        assert all[i] == s[i];
      } else {
        assert all[|s|] == x;
      }
    }
  }

  /** Appending an element adds one value exactly when its value is new. */
  lemma ImageSnocSize<T, U>(s: seq<T>, x: T, f: T -> U)
    ensures |Image(s + [x], f)| == |Image(s, f)| + (if f(x) in Image(s, f) then 0 else 1)
  {
    ImageSnoc(s, x, f);
    if f(x) in Image(s, f) {
      assert Image(s, f) + {f(x)} == Image(s, f);
    }
  }

  /** The values of the tail are values of the whole sequence. */
  lemma ImageTail<T, U>(s: seq<T>, f: T -> U, rest: set<U>)
    requires s != []
    requires forall y :: y in rest ==> exists i :: 0 <= i < |s| - 1 && f(s[1..][i]) == y
    ensures forall y :: y in rest ==> exists i :: 1 <= i < |s| && f(s[i]) == y
  {
    forall y | y in rest
      ensures exists i :: 1 <= i < |s| && f(s[i]) == y
    {
      var j :| 0 <= j < |s| - 1 && f(s[1..][j]) == y;
      assert f(s[j + 1]) == y;
    }
  }

  /** `s.slice(0, n)` */
  function Take<T>(s: seq<T>, n: nat): (r: seq<T>)
    ensures |r| <= n && |r| <= |s|
    ensures |r| == if |s| <= n then |s| else n
    ensures r == s[..|r|]
  {
    if |s| <= n then s else s[..n]
  }

  /** Keys in non-increasing order, the order `(a, b) => key(b) - key(a)` sorts by. */
  predicate SortedDesc<T>(s: seq<T>, key: T -> real)
  {
    forall i, j :: 0 <= i < j < |s| ==> key(s[i]) >= key(s[j])
  }

  /** Inserts `x` before the first element with a strictly smaller key, so that among
      equal keys the earlier input element stays first (Array.prototype.sort is stable). */
  function InsertDesc<T>(x: T, r: seq<T>, key: T -> real): (r': seq<T>)
    requires SortedDesc(r, key)
    ensures multiset(r') == multiset(r) + multiset{x}
    ensures SortedDesc(r', key)
  {
    if r == [] || key(x) >= key(r[0]) then [x] + r
    else
      var tail := InsertDesc(x, r[1..], key);
      assert r == [r[0]] + r[1..];
      InsertHeadBound(x, r, tail, key);
      [r[0]] + tail
  }

  /** Helper for InsertDesc: the head of `r` dominates what is inserted behind it. */
  lemma InsertHeadBound<T>(x: T, r: seq<T>, tail: seq<T>, key: T -> real)
    requires r != [] && SortedDesc(r, key) && key(x) < key(r[0])
    requires SortedDesc(tail, key)
    requires multiset(tail) == multiset(r[1..]) + multiset{x}
    ensures SortedDesc([r[0]] + tail, key)
  {
    forall j | 0 <= j < |tail|
      ensures key(r[0]) >= key(tail[j])
    {
      assert tail[j] in multiset(tail);
      if tail[j] != x {
        assert tail[j] in multiset(r[1..]);
        var k :| 1 <= k < |r| && r[k] == tail[j];
      }
    }
  }

  /** A stable sort into non-increasing key order: a permutation of the input. */
  function SortDesc<T>(s: seq<T>, key: T -> real): (r: seq<T>)
    ensures multiset(r) == multiset(s)
    ensures |r| == |s|
    ensures SortedDesc(r, key)
  {
    if s == [] then []
    else
      assert s == [s[0]] + s[1..];
      InsertDesc(s[0], SortDesc(s[1..], key), key)
  }

  /** In a sequence without duplicates every value occurs at most once in its multiset. */
  lemma {:induction false} DistinctMultiplicity<T>(s: seq<T>, x: T)
    requires Distinct(s)
    ensures multiset(s)[x] <= 1
  {
    if s != [] {
      assert s == [s[0]] + s[1..];
      DistinctMultiplicity(s[1..], x);
      if x == s[0] {
        assert x !in s[1..];
      }
    }
  }

  /** Two equal elements at distinct positions give a multiplicity of at least two. */
  lemma {:induction false} RepeatMultiplicity<T>(s: seq<T>, i: nat, j: nat)
    requires i < j < |s| && s[i] == s[j]
    ensures multiset(s)[s[i]] >= 2
  {
    if i > 0 {
      assert s == [s[0]] + s[1..];
      RepeatMultiplicity(s[1..], i - 1, j - 1);
    } else {
      assert s == [s[0]] + s[1..];
      assert s[j] in s[1..];
    }
  }

  /** A permutation of a sequence without duplicates has no duplicates. */
  lemma DistinctPermutation<T>(a: seq<T>, b: seq<T>)
    requires Distinct(a) && multiset(a) == multiset(b)
    ensures Distinct(b)
  {
    forall i, j | 0 <= i < j < |b|
      ensures b[i] != b[j]
    {
      if b[i] == b[j] {
        RepeatMultiplicity(b, i, j);
        DistinctMultiplicity(a, b[i]);
        assert false;
      }
    }
  }

  /** Raising the weight of one value `k` by one raises a sum over a duplicate-free sequence
      by one if `k` occurs in it, and leaves it unchanged otherwise. */
  lemma {:induction false} SumBump<T>(s: seq<T>, w: T -> int, v: T -> int, k: T)
    requires Distinct(s)
    requires forall i :: 0 <= i < |s| ==> w(s[i]) == v(s[i]) + (if s[i] == k then 1 else 0)
    ensures Sum(s, w) == Sum(s, v) + (if k in s then 1 else 0)
  {
    if s != [] {
      assert forall i :: 0 <= i < |s[1..]| ==> s[1..][i] == s[i + 1];
      SumBump(s[1..], w, v, k);
      if s[0] == k {
        assert k !in s[1..];
      } else {
        assert k in s <==> k in s[1..];
      }
    }
  }

  /** The first `n` of a sort keep only input elements. */
  lemma SortTakeMembers<T>(s: seq<T>, key: T -> real, n: nat)
    ensures forall i :: 0 <= i < |Take(SortDesc(s, key), n)| ==> Take(SortDesc(s, key), n)[i] in s
  {
    var sorted := SortDesc(s, key);
    forall i | 0 <= i < |Take(sorted, n)|
      ensures Take(sorted, n)[i] in s
    {
      assert sorted[i] in multiset(s);
    }
  }

  /** An input element missing from the first `n` of a sort has a key no greater than any
      of those `n`. */
  lemma SortTakeDominates<T>(s: seq<T>, key: T -> real, n: nat, x: T)
    requires x in s
    ensures x in Take(SortDesc(s, key), n) ||
      (|Take(SortDesc(s, key), n)| == n && forall i :: 0 <= i < n ==> key(Take(SortDesc(s, key), n)[i]) >= key(x))
  {
    var sorted := SortDesc(s, key);
    assert x in multiset(sorted);
    var k :| 0 <= k < |sorted| && sorted[k] == x;
    if k < |Take(sorted, n)| {
      assert Take(sorted, n)[k] == x;
    }
  }

  /** The first `n` of a sort of a duplicate-free list are duplicate-free. */
  lemma SortTakeDistinct<T>(s: seq<T>, key: T -> real, n: nat)
    requires Distinct(s)
    ensures Distinct(Take(SortDesc(s, key), n))
  {
    DistinctPermutation(s, SortDesc(s, key));
  }
}
