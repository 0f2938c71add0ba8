/** Order-preserving filters, counts and sums over sequences: the `filter`, `reduce` and
  * `includes` idioms the TypeScript code uses everywhere. */
module SeqUtil {
  /** The order-preserving sub-sequence of `s` whose elements satisfy `p`. */
  function Filter<T>(s: seq<T>, p: T -> bool): (r: seq<T>)
    ensures |r| <= |s|
    ensures forall i :: 0 <= i < |r| ==> p(r[i]) && r[i] in s
    ensures forall i :: 0 <= i < |s| && p(s[i]) ==> s[i] in r
  {
    if s == [] then []
    else if p(s[0]) then [s[0]] + Filter(s[1..], p)
    else Filter(s[1..], p)
  }

  /** The positions, from `i` on, of the elements of `s` that satisfy `p`, in increasing order. */
  ghost function KeptFrom<T>(s: seq<T>, p: T -> bool, i: nat): (idx: seq<nat>)
    ensures forall k :: 0 <= k < |idx| ==> i <= idx[k] < |s| && p(s[idx[k]])
    ensures forall k, l :: 0 <= k < l < |idx| ==> idx[k] < idx[l]
    ensures forall j :: i <= j < |s| && p(s[j]) ==> j in idx
    decreases |s| - i
  {
    if i >= |s| then []
    else if p(s[i]) then [i] + KeptFrom(s, p, i + 1)
    else KeptFrom(s, p, i + 1)
  }

  /** `Filter` keeps order and multiplicity: its result is `s` read at the kept positions. */
  lemma {:induction false} FilterAtKept<T>(s: seq<T>, p: T -> bool, i: nat)
    requires i <= |s|
    ensures |Filter(s[i..], p)| == |KeptFrom(s, p, i)|
    ensures forall k :: 0 <= k < |KeptFrom(s, p, i)| ==> Filter(s[i..], p)[k] == s[KeptFrom(s, p, i)[k]]
    decreases |s| - i
  {
    if i < |s| {
      FilterAtKept(s, p, i + 1);
      var f, kept := Filter(s[i..], p), KeptFrom(s, p, i);
      var f', kept' := Filter(s[i + 1..], p), KeptFrom(s, p, i + 1);
      assert s[i..][0] == s[i] && s[i..][1..] == s[i + 1..];
      if p(s[i]) {
        assert f == [s[i]] + f' && kept == [i] + kept';
        assert forall k :: 0 < k < |kept| ==> f[k] == f'[k - 1] && kept[k] == kept'[k - 1];
      } else {
        assert f == f' && kept == kept';
      }
    }
  }

  lemma {:induction false} FilterAppend<T>(a: seq<T>, b: seq<T>, p: T -> bool)
    ensures Filter(a + b, p) == Filter(a, p) + Filter(b, p)
  {
    if a == [] {
      assert a + b == b;
    } else {
      assert (a + b)[1..] == a[1..] + b;
      FilterAppend(a[1..], b, p);
    }
  }

  /** A filter that keeps everything is the identity. */
  lemma {:induction false} FilterAll<T>(s: seq<T>, p: T -> bool)
    requires forall i :: 0 <= i < |s| ==> p(s[i])
    ensures Filter(s, p) == s
  {
    if s != [] {
      FilterAll(s[1..], p);
    }
  }

  /** Filtering twice is filtering once by both tests. */
  lemma {:induction false} FilterFilter<T>(s: seq<T>, p: T -> bool, q: T -> bool, both: T -> bool)
    requires forall x :: both(x) == (p(x) && q(x))
    ensures Filter(Filter(s, p), q) == Filter(s, both)
  {
    if s != [] {
      FilterFilter(s[1..], p, q, both);
    }
  }

  /** Number of elements of `s` that satisfy `p`. */
  function Count<T>(s: seq<T>, p: T -> bool): (n: nat)
    ensures n == |Filter(s, p)|
    ensures n <= |s|
  {
    if s == [] then 0
    else (if p(s[0]) then 1 else 0) + Count(s[1..], p)
  }

  lemma {:induction false} CountAppend<T>(a: seq<T>, b: seq<T>, p: T -> bool)
    ensures Count(a + b, p) == Count(a, p) + Count(b, p)
  {
    FilterAppend(a, b, p);
  }

  /** Index of the first element satisfying `p`, as `Array.prototype.findIndex`. */
  lemma CountSnoc<T>(s: seq<T>, p: T -> bool)
    requires s != []
    ensures Count(s, p) == Count(s[..|s| - 1], p) + if p(s[|s| - 1]) then 1 else 0
  {
    var n := |s| - 1;
    assert s == s[..n] + [s[n]];
    CountAppend(s[..n], [s[n]], p);
    assert [s[n]][1..] == [];
  }

  /** Nothing is counted when no element satisfies `p`. */
  lemma {:induction false} CountNone<T>(s: seq<T>, p: T -> bool)
    requires forall k :: 0 <= k < |s| ==> !p(s[k])
    ensures Count(s, p) == 0
  {
    if s != [] {
      CountNone(s[1..], p);
    }
  }

  function FindIndex<T>(s: seq<T>, p: T -> bool): (r: int)
    ensures -1 <= r < |s|
    ensures r >= 0 ==> p(s[r]) && forall j :: 0 <= j < r ==> !p(s[j])
    ensures r == -1 <==> forall j :: 0 <= j < |s| ==> !p(s[j])
  {
    if s == [] then -1
    else if p(s[0]) then 0
    else
      var k := FindIndex(s[1..], p);
      if k == -1 then -1 else k + 1
  }

  /** No value occurs twice. */
  predicate Distinct<T(==)>(s: seq<T>) {
    forall i, j :: 0 <= i < j < |s| ==> s[i] != s[j]
  }

  /** Every occurrence of `x` removed, the rest kept in order. */
  function Remove<T(==)>(s: seq<T>, x: T): (r: seq<T>)
    ensures x !in r
    ensures forall i :: 0 <= i < |r| ==> r[i] in s
    ensures forall i :: 0 <= i < |s| && s[i] != x ==> s[i] in r
    ensures |r| <= |s|
    ensures x !in s ==> r == s
  {
    if s == [] then []
    else if s[0] == x then Remove(s[1..], x)
    else [s[0]] + Remove(s[1..], x)
  }

  lemma {:induction false} RemoveAppendedAbsent<T>(s: seq<T>, x: T)
    requires x !in s
    ensures Remove(s + [x], x) == s
  {
    if s == [] {
    } else {
      assert (s + [x])[1..] == s[1..] + [x];
      RemoveAppendedAbsent(s[1..], x);
    }
  }

  lemma {:induction false} DistinctRemove<T>(s: seq<T>, x: T)
    requires Distinct(s)
    ensures Distinct(Remove(s, x))
  {
    if s != [] {
      DistinctRemove(s[1..], x);
      if s[0] != x {
        var t := Remove(s[1..], x);
        assert s[0] !in s[1..];
        assert s[0] !in t;
        forall i, j | 0 <= i < j < |[s[0]] + t| ensures ([s[0]] + t)[i] != ([s[0]] + t)[j] {
          if i == 0 { assert ([s[0]] + t)[j] == t[j - 1]; }
        }
      }
    }
  }

  lemma DistinctRemoveIf<T>(s: seq<T>, x: T)
    ensures Distinct(s) ==> Distinct(Remove(s, x))
  {
    if Distinct(s) {
      DistinctRemove(s, x);
    }
  }

  lemma DistinctAppend<T>(s: seq<T>, x: T)
    requires Distinct(s) && x !in s
    ensures Distinct(s + [x])
  {
  }

  lemma {:induction false} DistinctMultiplicity<T>(s: seq<T>, x: T)
    requires Distinct(s)
    ensures multiset(s)[x] <= 1
  {
    if s != [] {
      assert s == [s[0]] + s[1..];
      DistinctMultiplicity(s[1..], x);
      assert s[0] == x ==> x !in s[1..];
    }
  }

  lemma RepeatMultiplicity<T>(t: seq<T>, i: int, j: int)
    requires 0 <= i < j < |t|
    ensures t[i] == t[j] ==> multiset(t)[t[i]] >= 2
  {
    assert t == t[..j] + t[j..];
    assert t[i] in t[..j] && t[j] in t[j..];
  }

  /** A rearrangement of a sequence without repeats has none either. */
  lemma DistinctPermutation<T>(s: seq<T>, t: seq<T>)
    requires Distinct(s) && multiset(s) == multiset(t)
    ensures Distinct(t)
  {
    forall i, j | 0 <= i < j < |t| ensures t[i] != t[j] {
      RepeatMultiplicity(t, i, j);
      DistinctMultiplicity(s, t[i]);
    }
  }

  /** Sum of an integer sequence. */
  function Sum(s: seq<int>): int {
    if s == [] then 0 else s[0] + Sum(s[1..])
  }

  lemma {:induction false} SumAppend(a: seq<int>, b: seq<int>)
    ensures Sum(a + b) == Sum(a) + Sum(b)
  {
    if a == [] {
      assert a + b == b;
    } else {
      assert (a + b)[1..] == a[1..] + b;
      SumAppend(a[1..], b);
    }
  }

  /** Sum of a real sequence. */
  function SumReal(s: seq<real>): real {
    if s == [] then 0.0 else s[0] + SumReal(s[1..])
  }

  lemma {:induction false} SumRealAppend(a: seq<real>, b: seq<real>)
    ensures SumReal(a + b) == SumReal(a) + SumReal(b)
  {
    if a == [] {
      assert a + b == b;
    } else {
      assert (a + b)[1..] == a[1..] + b;
      SumRealAppend(a[1..], b);
    }
  }

  /** The distinct values of `s` in first-occurrence order, as a JS `Set` iterates them. */
  function Dedup<T(==,!new)>(s: seq<T>): (r: seq<T>)
    ensures Distinct(r)
    ensures forall x :: x in r <==> x in s
  {
    DedupFrom([], s)
  }

  function DedupFrom<T(==,!new)>(seen: seq<T>, s: seq<T>): (r: seq<T>)
    requires Distinct(seen)
    ensures Distinct(r)
    ensures forall x :: x in r ==> x in seen || x in s
    ensures forall x :: x in s ==> x in r
    ensures |r| >= |seen| && r[..|seen|] == seen
    decreases s
  {
    if s == [] then seen
    else if s[0] in seen then DedupFrom(seen, s[1..])
    else
      var r := DedupFrom(seen + [s[0]], s[1..]);
      assert r[|seen|] == (seen + [s[0]])[|seen|] == s[0];
      r
  }

  /** Seeing one more value adds it at the end exactly when it is new. */
  lemma {:induction false} DedupFromAppend<T(!new)>(seen: seq<T>, s: seq<T>, x: T)
    requires Distinct(seen)
    ensures var d := DedupFrom(seen, s); DedupFrom(seen, s + [x]) == if x in d then d else d + [x]
    decreases s
  {
    if s == [] {
      assert s + [x] == [x];
      assert [x][1..] == [];
    } else {
      assert (s + [x])[0] == s[0] && (s + [x])[1..] == s[1..] + [x];
      if s[0] in seen {
        DedupFromAppend(seen, s[1..], x);
      } else {
        DedupFromAppend(seen + [s[0]], s[1..], x);
      }
    }
  }

  lemma DedupAppend<T(!new)>(s: seq<T>, x: T)
    ensures Dedup(s + [x]) == if x in Dedup(s) then Dedup(s) else Dedup(s) + [x]
  {
    DedupFromAppend([], s, x);
  }
}
