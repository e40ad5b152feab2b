/** Python's sorted() with an explicit order. */
module Sorting {

  ghost predicate TotalOrder<T(!new)>(leq: (T, T) -> bool) {
    && (forall a, b :: leq(a, b) || leq(b, a))
    && (forall a, b, c :: leq(a, b) && leq(b, c) ==> leq(a, c))
  }

  ghost predicate SortedBy<T>(s: seq<T>, leq: (T, T) -> bool) {
    forall i, j | 0 <= i < j < |s| :: leq(s[i], s[j])
  }

  /** Insert after every element that is not larger, which keeps the sort stable. */
  function Insert<T>(s: seq<T>, x: T, leq: (T, T) -> bool): (r: seq<T>)
    ensures |r| == |s| + 1
  {
    if s == [] || leq(s[|s| - 1], x) then s + [x] else Insert(s[..|s| - 1], x, leq) + [s[|s| - 1]]
  }

  function SortBy<T>(s: seq<T>, leq: (T, T) -> bool): (r: seq<T>)
    ensures |r| == |s|
  {
    if s == [] then [] else Insert(SortBy(s[..|s| - 1], leq), s[|s| - 1], leq)
  }

  lemma {:induction false} InsertContents<T>(s: seq<T>, x: T, leq: (T, T) -> bool)
    ensures multiset(Insert(s, x, leq)) == multiset(s) + multiset{x}
  {
    if s != [] && !leq(s[|s| - 1], x) {
      InsertContents(s[..|s| - 1], x, leq);
      assert s == s[..|s| - 1] + [s[|s| - 1]];
    }
  }

  lemma {:induction false} InsertSorts<T(!new)>(s: seq<T>, x: T, leq: (T, T) -> bool)
    requires TotalOrder(leq) && SortedBy(s, leq)
    ensures SortedBy(Insert(s, x, leq), leq)
  {
    if s != [] && !leq(s[|s| - 1], x) {
      var front, last := s[..|s| - 1], s[|s| - 1];
      InsertSorts(front, x, leq);
      var r := Insert(front, x, leq);
      InsertContents(front, x, leq);
      forall i | 0 <= i < |r| ensures leq(r[i], last) {
        assert r[i] in multiset(r);
        assert r[i] in multiset(front) || r[i] == x;
        if r[i] in front { var j :| 0 <= j < |front| && front[j] == r[i]; assert leq(s[j], s[|s| - 1]); }
      }
    }
  }

  /** Sorting permutes. */
  lemma {:induction false} SortContents<T>(s: seq<T>, leq: (T, T) -> bool)
    ensures multiset(SortBy(s, leq)) == multiset(s)
  {
    if s != [] {
      SortContents(s[..|s| - 1], leq);
      InsertContents(SortBy(s[..|s| - 1], leq), s[|s| - 1], leq);
      assert s == s[..|s| - 1] + [s[|s| - 1]];
    }
  }

  /** Sorting sorts. */
  lemma {:induction false} SortSorts<T(!new)>(s: seq<T>, leq: (T, T) -> bool)
    requires TotalOrder(leq)
    ensures SortedBy(SortBy(s, leq), leq)
  {
    if s != [] {
      SortSorts(s[..|s| - 1], leq);
      InsertSorts(SortBy(s[..|s| - 1], leq), s[|s| - 1], leq);
    }
  }

  /** The same elements, as members. */
  lemma SortMembers<T>(s: seq<T>, leq: (T, T) -> bool)
    ensures forall x :: x in SortBy(s, leq) <==> x in s
  {
    SortContents(s, leq);
    forall x ensures x in SortBy(s, leq) <==> x in s {
      assert x in SortBy(s, leq) <==> x in multiset(SortBy(s, leq));
      assert x in s <==> x in multiset(s);
    }
  }

  lemma LastIsLargest<T>(s: seq<T>, x: T, leq: (T, T) -> bool)
    requires s != [] && SortedBy(s, leq) && x in multiset(s)
    ensures x == s[|s| - 1] || leq(x, s[|s| - 1])
  {
    var i :| 0 <= i < |s| && s[i] == x;
  }

  lemma DropLast<T>(s: seq<T>)
    requires s != []
    ensures multiset(s[..|s| - 1]) == multiset(s) - multiset{s[|s| - 1]} && s[|s| - 1] in multiset(s)
  {
    assert s == s[..|s| - 1] + [s[|s| - 1]];
  }

  /** Elements that the order cannot tell apart are equal. */
  ghost predicate Antisymmetric<T(!new)>(s: seq<T>, leq: (T, T) -> bool) {
    forall x, y | x in s && y in s && leq(x, y) && leq(y, x) :: x == y
  }

  lemma SameLast<T(!new)>(a: seq<T>, b: seq<T>, leq: (T, T) -> bool)
    requires a != [] && b != [] && multiset(a) == multiset(b) && SortedBy(a, leq) && SortedBy(b, leq)
    requires Antisymmetric(a, leq)
    ensures a[|a| - 1] == b[|b| - 1]
  {
    var x, y := a[|a| - 1], b[|b| - 1];
    assert x in multiset(a) && y in multiset(b);
    LastIsLargest(a, y, leq);
    LastIsLargest(b, x, leq);
    assert y in a;
  }

  /** Two sorted arrangements of the same elements agree when the order is antisymmetric
      on them. */
  lemma {:induction false} SortedUnique<T(!new)>(a: seq<T>, b: seq<T>, leq: (T, T) -> bool)
    requires multiset(a) == multiset(b) && SortedBy(a, leq) && SortedBy(b, leq) && Antisymmetric(a, leq)
    ensures a == b
  {
    assert |a| == |multiset(a)| == |multiset(b)| == |b|;
    if a != [] {
      var m := |a| - 1;
      var front, front' := a[..m], b[..m];
      DropLast(a);
      DropLast(b);
      SameLast(a, b, leq);
      assert Antisymmetric(front, leq) by {
        forall x, y | x in front && y in front && leq(x, y) && leq(y, x) ensures x == y { assert x in a && y in a; }
      }
      SortedUnique(front, front', leq);
      assert a == front + [a[m]] && b == front' + [b[m]];
    }
  }

  /** Python's order on strings, by code point. */
  predicate StringLeq(a: string, b: string) {
    a == "" || (b != "" && (a[0] < b[0] || (a[0] == b[0] && StringLeq(a[1..], b[1..]))))
  }

  lemma {:induction false} StringTotal(a: string, b: string)
    ensures StringLeq(a, b) || StringLeq(b, a)
    ensures StringLeq(a, b) && StringLeq(b, a) ==> a == b
  {
    if a != "" && b != "" && a[0] == b[0] {
      StringTotal(a[1..], b[1..]);
      assert a == [a[0]] + a[1..] && b == [b[0]] + b[1..];
    }
  }

  lemma {:induction false} StringTransitive(a: string, b: string, c: string)
    requires StringLeq(a, b) && StringLeq(b, c)
    ensures StringLeq(a, c)
  {
    if a != "" && a[0] == b[0] && b[0] == c[0] { StringTransitive(a[1..], b[1..], c[1..]); }
  }

  lemma StringOrder()
    ensures TotalOrder(StringLeq)
  {
    forall a, b ensures StringLeq(a, b) || StringLeq(b, a) { StringTotal(a, b); }
    forall a, b, c | StringLeq(a, b) && StringLeq(b, c) ensures StringLeq(a, c) { StringTransitive(a, b, c); }
  }

  /** Sorted strings depend only on which strings there are, and how often. */
  lemma SortedStringsAgree(a: seq<string>, b: seq<string>)
    ensures SortBy(a, StringLeq) == SortBy(b, StringLeq) <==> multiset(a) == multiset(b)
  {
    StringOrder();
    SortContents(a, StringLeq);
    SortContents(b, StringLeq);
    if multiset(a) == multiset(b) {
      SortSorts(a, StringLeq);
      SortSorts(b, StringLeq);
      forall x: string, y: string | StringLeq(x, y) && StringLeq(y, x) ensures x == y { StringTotal(x, y); }
      SortedUnique(SortBy(a, StringLeq), SortBy(b, StringLeq), StringLeq);
    }
  }
}
