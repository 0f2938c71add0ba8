/** `Array.prototype.sort`, which is stable: a stable insertion sort under a total preorder,
  * with the two orders the apps use (a numeric key from a comparator `a.k - b.k`, and the
  * default string order). */
module Sorting {
  /** `le` is total and transitive, as a consistent comparator is. */
  ghost predicate TotalPreorder<T(!new)>(le: (T, T) -> bool) {
    (forall a, b :: le(a, b) || le(b, a))
    && (forall a, b, c :: le(a, b) && le(b, c) ==> le(a, c))
  }

  predicate SortedBy<T>(s: seq<T>, le: (T, T) -> bool) {
    forall i, j :: 0 <= i < j < |s| ==> le(s[i], s[j])
  }

  /** `x` placed in front of the first element it is not after. */
  function Insert<T>(x: T, s: seq<T>, le: (T, T) -> bool): (r: seq<T>)
    ensures multiset(r) == multiset(s) + multiset{x}
  {
    if s == [] || le(x, s[0]) then [x] + s
    else
      assert s == [s[0]] + s[1..];
      [s[0]] + Insert(x, s[1..], le)
  }

  /** The elements of `s` in `le` order; elements `le` cannot tell apart keep their order. */
  function SortBy<T>(s: seq<T>, le: (T, T) -> bool): (r: seq<T>)
    ensures multiset(r) == multiset(s)
    ensures |r| == |s|
  {
    if s == [] then []
    else
      assert s == [s[0]] + s[1..];
      Insert(s[0], SortBy(s[1..], le), le)
  }

  lemma {:induction false} InsertSorted<T(!new)>(x: T, s: seq<T>, le: (T, T) -> bool)
    requires TotalPreorder(le) && SortedBy(s, le)
    ensures SortedBy(Insert(x, s, le), le)
  {
    if s == [] || le(x, s[0]) {
    } else {
      InsertSorted(x, s[1..], le);
      var t := Insert(x, s[1..], le);
      forall k | 0 <= k < |t| ensures le(s[0], t[k]) {
        assert t[k] in multiset(t);
        assert t[k] == x || t[k] in s[1..];
      }
    }
  }

  /** The result is ordered. */
  lemma {:induction false} SortBySorted<T(!new)>(s: seq<T>, le: (T, T) -> bool)
    requires TotalPreorder(le)
    ensures SortedBy(SortBy(s, le), le)
  {
    if s != [] {
      SortBySorted(s[1..], le);
      InsertSorted(s[0], SortBy(s[1..], le), le);
    }
  }

  /** The elements of `s` that `le` ranks together with `c`, in order. */
  function Ties<T>(s: seq<T>, le: (T, T) -> bool, c: T): seq<T> {
    if s == [] then []
    else (if le(s[0], c) && le(c, s[0]) then [s[0]] else []) + Ties(s[1..], le, c)
  }

  /** An element strictly after another cannot rank together with the same element as it. */
  lemma NotBothTie<T(!new)>(x: T, y: T, c: T, le: (T, T) -> bool)
    requires TotalPreorder(le) && !le(x, y)
    ensures !(le(x, c) && le(c, x) && le(y, c) && le(c, y))
  {
  }

  function TieOf<T>(x: T, le: (T, T) -> bool, c: T): seq<T> {
    if le(x, c) && le(c, x) then [x] else []
  }

  lemma TiesCons<T>(x: T, s: seq<T>, le: (T, T) -> bool, c: T)
    ensures Ties([x] + s, le, c) == TieOf(x, le, c) + Ties(s, le, c)
  {
    assert ([x] + s)[1..] == s;
  }

  /** Inserting past the head: the head's tie, if any, comes before the rest as before. */
  lemma InsertTiesPastHead<T>(x: T, s: seq<T>, le: (T, T) -> bool, c: T)
    requires s != [] && !le(x, s[0])
    requires TieOf(x, le, c) == [] || TieOf(s[0], le, c) == []
    requires Ties(Insert(x, s[1..], le), le, c) == TieOf(x, le, c) + Ties(s[1..], le, c)
    ensures Ties(Insert(x, s, le), le, c) == TieOf(x, le, c) + Ties(s, le, c)
  {
    InsertPastHead(x, s, le);
    TiesBehindHead(x, Insert(x, s[1..], le), s, le, c);
  }

  /** The head of `s` in front of `t` keeps an equation between ties, when the head and `x` do
    * not both tie with `c`. */
  lemma TiesBehindHead<T>(x: T, t: seq<T>, s: seq<T>, le: (T, T) -> bool, c: T)
    requires s != []
    requires TieOf(x, le, c) == [] || TieOf(s[0], le, c) == []
    requires Ties(t, le, c) == TieOf(x, le, c) + Ties(s[1..], le, c)
    ensures Ties([s[0]] + t, le, c) == TieOf(x, le, c) + Ties(s, le, c)
  {
    TiesCons(s[0], t, le, c);
    SwapTies(TieOf(x, le, c), TieOf(s[0], le, c), Ties(s[1..], le, c));
  }

  lemma InsertPastHead<T>(x: T, s: seq<T>, le: (T, T) -> bool)
    requires s != [] && !le(x, s[0])
    ensures Insert(x, s, le) == [s[0]] + Insert(x, s[1..], le)
  {
  }

  /** Two parts of which one is empty can be swapped. */
  lemma SwapTies<T>(a: seq<T>, b: seq<T>, rest: seq<T>)
    requires a == [] || b == []
    ensures b + (a + rest) == a + (b + rest)
  {
  }

  lemma {:induction false} InsertTies<T(!new)>(x: T, s: seq<T>, le: (T, T) -> bool, c: T)
    requires TotalPreorder(le)
    ensures Ties(Insert(x, s, le), le, c) == TieOf(x, le, c) + Ties(s, le, c)
  {
    if s == [] || le(x, s[0]) {
      TiesCons(x, s, le, c);
    } else {
      InsertTies(x, s[1..], le, c);
      NotBothTie(x, s[0], c, le);
      InsertTiesPastHead(x, s, le, c);
    }
  }

  /** Stability: within every class of mutually equivalent elements, the output keeps the
    * input order. */
  lemma {:induction false} SortByStable<T(!new)>(s: seq<T>, le: (T, T) -> bool, c: T)
    requires TotalPreorder(le)
    ensures Ties(SortBy(s, le), le, c) == Ties(s, le, c)
  {
    if s != [] {
      SortByStable(s[1..], le, c);
      InsertTies(s[0], SortBy(s[1..], le), le, c);
    }
  }

  /** The order a numeric comparator `(a, b) => key(a) - key(b)` describes. */
  function ByKey<T(!new)>(key: T -> int): (le: (T, T) -> bool)
    ensures forall a, b :: le(a, b) == (key(a) <= key(b))
  {
    (a, b) => key(a) <= key(b)
  }

  lemma ByKeyTotal<T(!new)>(key: T -> int)
    ensures TotalPreorder(ByKey(key))
  {
  }

  /** Code-unit order on strings, the order of `sort()` without a comparator. */
  function LexLe(a: string, b: string): bool {
    if a == [] then true
    else if b == [] then false
    else if a[0] != b[0] then a[0] < b[0]
    else LexLe(a[1..], b[1..])
  }

  lemma {:induction false} LexLeTotal(a: string, b: string)
    ensures LexLe(a, b) || LexLe(b, a)
  {
    if a != [] && b != [] && a[0] == b[0] {
      LexLeTotal(a[1..], b[1..]);
    }
  }

  lemma {:induction false} LexLeTrans(a: string, b: string, c: string)
    requires LexLe(a, b) && LexLe(b, c)
    ensures LexLe(a, c)
  {
    if a != [] && b != [] && c != [] && a[0] == b[0] && b[0] == c[0] {
      LexLeTrans(a[1..], b[1..], c[1..]);
    }
  }

  /** Only equal strings are ranked together. */
  lemma {:induction false} LexLeAntisymmetric(a: string, b: string)
    requires LexLe(a, b) && LexLe(b, a)
    ensures a == b
  {
    if a != [] && b != [] {
      LexLeAntisymmetric(a[1..], b[1..]);
      assert a == [a[0]] + a[1..] && b == [b[0]] + b[1..];
    }
  }

  lemma LexTotalPreorder()
    ensures TotalPreorder(LexLe)
  {
    forall a, b ensures LexLe(a, b) || LexLe(b, a) {
      LexLeTotal(a, b);
    }
    forall a, b, c | LexLe(a, b) && LexLe(b, c) ensures LexLe(a, c) {
      LexLeTrans(a, b, c);
    }
  }

  /** `strings.sort()`. */
  function SortStrings(s: seq<string>): (r: seq<string>)
    ensures multiset(r) == multiset(s)
    ensures SortedBy(r, LexLe)
  {
    LexTotalPreorder();
    SortBySorted(s, LexLe);
    SortBy(s, LexLe)
  }
}
