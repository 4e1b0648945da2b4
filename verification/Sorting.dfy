/** Python's stable `sorted(xs, key=...)`, for a comparison `leq` on the keys. */
module Sorting {

  ghost predicate TotalPreorder<T(!new)>(leq: (T, T) -> bool) {
    && (forall a, b :: leq(a, b) || leq(b, a))
    && (forall a, b, c :: leq(a, b) && leq(b, c) ==> leq(a, c))
  }

  ghost predicate SortedBy<T>(leq: (T, T) -> bool, s: seq<T>) {
    forall i, j :: 0 <= i < j < |s| ==> leq(s[i], s[j])
  }

  function Insert<T>(leq: (T, T) -> bool, x: T, s: seq<T>): (r: seq<T>)
    ensures |r| == |s| + 1
  {
    if s == [] then [x]
    else if leq(x, s[0]) then [x] + s
    else [s[0]] + Insert(leq, x, s[1..])
  }

  /** Stable: equal elements keep their order, the earlier one staying in front. */
  function Sort<T>(leq: (T, T) -> bool, s: seq<T>): (r: seq<T>)
    ensures |r| == |s|
  {
    if s == [] then [] else Insert(leq, s[0], Sort(leq, s[1..]))
  }

  lemma {:induction false} InsertPermutes<T>(leq: (T, T) -> bool, x: T, s: seq<T>)
    ensures multiset(Insert(leq, x, s)) == multiset(s) + multiset{x}
  {
    if s != [] && !leq(x, s[0]) {
      InsertPermutes(leq, x, s[1..]);
      assert s == [s[0]] + s[1..];
    }
  }

  lemma {:induction false} InsertSorted<T(!new)>(leq: (T, T) -> bool, x: T, s: seq<T>)
    requires TotalPreorder(leq) && SortedBy(leq, s)
    ensures SortedBy(leq, Insert(leq, x, s))
  {
    if s != [] && !leq(x, s[0]) {
      InsertSorted(leq, x, s[1..]);
      InsertPermutes(leq, x, s[1..]);
      var t := Insert(leq, x, s[1..]);
      forall j | 0 <= j < |t| ensures leq(s[0], t[j]) {
        assert t[j] in multiset(t);
        assert t[j] == x || t[j] in s[1..];
      }
    }
  }

  lemma {:induction false} SortPermutes<T>(leq: (T, T) -> bool, s: seq<T>)
    ensures multiset(Sort(leq, s)) == multiset(s)
    ensures forall x :: x in Sort(leq, s) <==> x in s
  {
    if s != [] {
      SortPermutes(leq, s[1..]);
      InsertPermutes(leq, s[0], Sort(leq, s[1..]));
      assert s == [s[0]] + s[1..];
    }
    assert forall x :: x in Sort(leq, s) <==> x in multiset(Sort(leq, s));
  }

  lemma {:induction false} SortSorts<T(!new)>(leq: (T, T) -> bool, s: seq<T>)
    requires TotalPreorder(leq)
    ensures SortedBy(leq, Sort(leq, s))
  {
    if s != [] {
      SortSorts(leq, s[1..]);
      InsertSorted(leq, s[0], Sort(leq, s[1..]));
    }
  }

  /** Those elements of the sequence that have the property, in order. */
  function Among<T>(p: T -> bool, s: seq<T>): seq<T> {
    if s == [] then [] else (if p(s[0]) then [s[0]] else []) + Among(p, s[1..])
  }

  /** Elements that the order does not tell apart stay in the order they had. */
  lemma {:induction false} SortStable<T(!new)>(leq: (T, T) -> bool, p: T -> bool, s: seq<T>)
    requires forall a, b :: p(a) && p(b) ==> leq(a, b)
    ensures Among(p, Sort(leq, s)) == Among(p, s)
  {
    if s != [] {
      SortStable(leq, p, s[1..]);
      InsertStable(leq, p, s[0], Sort(leq, s[1..]));
    }
  }

  lemma {:induction false} InsertStable<T(!new)>(leq: (T, T) -> bool, p: T -> bool, x: T, s: seq<T>)
    requires forall a, b :: p(a) && p(b) ==> leq(a, b)
    ensures Among(p, Insert(leq, x, s)) == (if p(x) then [x] else []) + Among(p, s)
  {
    var r := Insert(leq, x, s);
    if s != [] && !leq(x, s[0]) {
      InsertStable(leq, p, x, s[1..]);
      assert r == [s[0]] + Insert(leq, x, s[1..]);
      AmongCons(p, s[0], Insert(leq, x, s[1..]));
      assert !p(x) || !p(s[0]);
    } else {
      assert r == [x] + s;
      AmongCons(p, x, s);
    }
  }

  lemma {:induction false} AmongCons<T>(p: T -> bool, x: T, s: seq<T>)
    ensures Among(p, [x] + s) == (if p(x) then [x] else []) + Among(p, s)
  {
    assert ([x] + s)[1..] == s;
  }

  predicate NoDuplicates<T(==)>(s: seq<T>) {
    forall i, j :: 0 <= i < j < |s| ==> s[i] != s[j]
  }

  lemma {:induction false} InsertNoDuplicates<T>(leq: (T, T) -> bool, x: T, s: seq<T>)
    requires NoDuplicates(s) && x !in s
    ensures NoDuplicates(Insert(leq, x, s))
  {
    if s != [] && !leq(x, s[0]) {
      InsertNoDuplicates(leq, x, s[1..]);
      InsertPermutes(leq, x, s[1..]);
      var t := Insert(leq, x, s[1..]);
      forall j | 0 <= j < |t| ensures s[0] != t[j] {
        assert t[j] in multiset(t);
        assert t[j] == x || t[j] in s[1..];
      }
    }
  }

  lemma {:induction false} SortNoDuplicates<T>(leq: (T, T) -> bool, s: seq<T>)
    requires NoDuplicates(s)
    ensures NoDuplicates(Sort(leq, s))
  {
    if s != [] {
      SortNoDuplicates(leq, s[1..]);
      SortPermutes(leq, s[1..]);
      assert s[0] !in s[1..];
      InsertNoDuplicates(leq, s[0], Sort(leq, s[1..]));
    }
  }

  /** Sorting leaves a sorted sequence alone. */
  lemma {:induction false} SortIdentity<T(!new)>(leq: (T, T) -> bool, s: seq<T>)
    requires SortedBy(leq, s)
    ensures Sort(leq, s) == s
  {
    if s != [] {
      SortIdentity(leq, s[1..]);
      assert s == [s[0]] + s[1..];
    }
  }

  /** Two sorted arrangements of the same elements agree when distinct elements are
      never tied, so the order in which the elements arrive does not matter. */
  lemma {:induction false} SortedUnique<T(!new)>(leq: (T, T) -> bool, s: seq<T>, t: seq<T>)
    requires SortedBy(leq, s) && SortedBy(leq, t)
    requires multiset(s) == multiset(t)
    requires forall a, b :: a in s && b in s && leq(a, b) && leq(b, a) ==> a == b
    ensures s == t
  {
    assert |s| == |multiset(s)| == |multiset(t)| == |t|;
    if s != [] {
      assert s[0] in multiset(t) && t[0] in multiset(s);
      assert s[0] == t[0] by {
        var i :| 0 <= i < |t| && t[i] == s[0];
        var j :| 0 <= j < |s| && s[j] == t[0];
      }
      assert multiset(s[1..]) == multiset(t[1..]) by { SameTail(s, t); }
      SortedUnique(leq, s[1..], t[1..]);
      assert s == [s[0]] + s[1..] && t == [t[0]] + t[1..];
    }
  }

  lemma SameTail<T>(s: seq<T>, t: seq<T>)
    requires s != [] && t != [] && s[0] == t[0] && multiset(s) == multiset(t)
    ensures multiset(s[1..]) == multiset(t[1..])
  {
    assert s == [s[0]] + s[1..] && t == [t[0]] + t[1..];
    assert multiset(s[1..]) == multiset(s) - multiset{s[0]};
    assert multiset(t[1..]) == multiset(t) - multiset{t[0]};
  }

  lemma {:induction false} SortOrderIndependent<T(!new)>(leq: (T, T) -> bool, s: seq<T>, t: seq<T>)
    requires TotalPreorder(leq)
    requires multiset(s) == multiset(t)
    requires forall a, b :: a in s && b in s && leq(a, b) && leq(b, a) ==> a == b
    ensures Sort(leq, s) == Sort(leq, t)
  {
    SortPermutes(leq, s); SortPermutes(leq, t);
    SortSorts(leq, s); SortSorts(leq, t);
    SortedUnique(leq, Sort(leq, s), Sort(leq, t));
  }
}
