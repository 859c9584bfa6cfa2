/** Stable sorting by a "not after" relation, and what a sort promises. */
module Sorting {

  predicate SortedBy<T>(le: (T, T) -> bool, s: seq<T>) {
    forall i, j | 0 <= i < j < |s| :: le(s[i], s[j])
  }

  ghost predicate TransitiveOn<T>(le: (T, T) -> bool, s: seq<T>) {
    forall a, b, c | a in s && b in s && c in s && le(a, b) && le(b, c) :: le(a, c)
  }

  ghost predicate TotalOn<T>(le: (T, T) -> bool, s: seq<T>) {
    forall a, b | a in s && b in s :: le(a, b) || le(b, a)
  }

  /** Insertion in front of the first element that must come after `x`. */
  function Insert<T>(le: (T, T) -> bool, s: seq<T>, x: T): (t: seq<T>) {
    if s == [] || !le(s[0], x) then [x] + s else [s[0]] + Insert(le, s[1..], x)
  }

  /** Elements enter in list order, so equal elements keep it. */
  function StableSort<T>(le: (T, T) -> bool, s: seq<T>): (t: seq<T>) {
    if s == [] then [] else Insert(le, StableSort(le, s[..|s| - 1]), s[|s| - 1])
  }

  lemma {:induction false} InsertPermutes<T>(le: (T, T) -> bool, s: seq<T>, x: T)
    ensures multiset(Insert(le, s, x)) == multiset(s) + multiset{x}
  {
    if s != [] && le(s[0], x) {
      InsertPermutes(le, s[1..], x);
      assert s == [s[0]] + s[1..];
    }
  }

  lemma HeadPrecedes<T>(le: (T, T) -> bool, head: T, s: seq<T>, x: T, r: seq<T>)
    requires multiset(r) == multiset(s) + multiset{x}
    requires le(head, x) && forall k | 0 <= k < |s| :: le(head, s[k])
    ensures forall k | 0 <= k < |r| :: le(head, r[k])
  {
    forall k | 0 <= k < |r|
      ensures le(head, r[k])
    {
      assert r[k] in multiset(s) + multiset{x};
    }
  }

  lemma {:induction false} InsertSorts<T>(le: (T, T) -> bool, s: seq<T>, x: T)
    requires SortedBy(le, s) && TransitiveOn(le, s + [x]) && TotalOn(le, s + [x])
    ensures SortedBy(le, Insert(le, s, x))
  {
    assert x in s + [x];
    if s != [] {
      assert s[0] in s + [x];
      if le(s[0], x) {
        assert forall d | d in s[1..] + [x] :: d in s + [x];
        InsertSorts(le, s[1..], x);
        var r := Insert(le, s[1..], x);
        InsertPermutes(le, s[1..], x);
        HeadPrecedes(le, s[0], s[1..], x, r);
      } else {
        forall k | 0 <= k < |s|
          ensures le(x, s[k])
        {
          assert s[k] in s + [x];
        }
      }
    }
  }

  /** Sorting permutes any list, and orders it when the relation is a total preorder on it. */
  lemma {:induction false} StableSortSorts<T>(le: (T, T) -> bool, s: seq<T>)
    ensures multiset(StableSort(le, s)) == multiset(s)
    ensures TransitiveOn(le, s) && TotalOn(le, s) ==> SortedBy(le, StableSort(le, s))
  {
    if s != [] {
      var p, x := s[..|s| - 1], s[|s| - 1];
      assert s == p + [x];
      StableSortSorts(le, p);
      var t := StableSort(le, p);
      InsertPermutes(le, t, x);
      if TransitiveOn(le, s) && TotalOn(le, s) {
        forall d | d in t + [x]
          ensures d in s
        {
          assert d in t ==> d in multiset(t);
        }
        InsertSorts(le, t, x);
      }
    }
  }

  /** The head of the sorted list is the earliest element that precedes all others. */
  lemma {:induction false} StableSortHead<T>(le: (T, T) -> bool, s: seq<T>) returns (k: nat)
    requires s != [] && TransitiveOn(le, s) && TotalOn(le, s)
    ensures StableSort(le, s) != []
    ensures k < |s| && StableSort(le, s)[0] == s[k]
    ensures forall j | 0 <= j < |s| :: le(s[k], s[j])
    ensures forall j | 0 <= j < k :: !le(s[j], s[k])
  {
    var p, x := s[..|s| - 1], s[|s| - 1];
    assert s == p + [x];
    if p == [] {
      k := 0;
    } else {
      k := StableSortHead(le, p);
      assert p[k] in s && x in s;
      if !le(p[k], x) {
        forall j | 0 <= j < |p|
          ensures le(x, p[j]) && !le(p[j], x)
        {
          assert p[j] in s;
        }
        k := |p|;
      }
    }
  }
}
