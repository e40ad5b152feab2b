/** Grouping rows by a key in an insertion-ordered dictionary. */
module Grouping {
  import opened Sorting

  /** The rows with one key, in order. */
  function Keyed<T, K(==)>(rows: seq<T>, key: T -> K, k: K): seq<T> {
    if rows == [] then []
    else
      var last := rows[|rows| - 1];
      Keyed(rows[..|rows| - 1], key, k) + (if key(last) == k then [last] else [])
  }

  /** The keys in the order in which they first occur. */
  function FirstKeys<T, K(==)>(rows: seq<T>, key: T -> K): seq<K> {
    if rows == [] then []
    else
      var seen := FirstKeys(rows[..|rows| - 1], key);
      var k := key(rows[|rows| - 1]);
      if k in seen then seen else seen + [k]
  }

  ghost predicate Distinct<T>(s: seq<T>) {
    forall i, j | 0 <= i < j < |s| :: s[i] != s[j]
  }

  lemma {:induction false} KeysOccur<T, K>(rows: seq<T>, key: T -> K, k: K)
    ensures k in FirstKeys(rows, key) <==> Keyed(rows, key, k) != []
    ensures multiset(FirstKeys(rows, key))[k] == if Keyed(rows, key, k) != [] then 1 else 0
  {
    if rows != [] { KeysOccur(rows[..|rows| - 1], key, k); }
  }

  lemma {:induction false} KeysDistinct<T, K>(rows: seq<T>, key: T -> K)
    ensures Distinct(FirstKeys(rows, key))
  {
    if rows != [] { KeysDistinct(rows[..|rows| - 1], key); }
  }

  lemma {:induction false} KeyedMembers<T, K>(rows: seq<T>, key: T -> K, k: K, row: T)
    ensures row in Keyed(rows, key, k) <==> row in rows && key(row) == k
  {
    if rows != [] {
      KeyedMembers(rows[..|rows| - 1], key, k, row);
      assert rows == rows[..|rows| - 1] + [rows[|rows| - 1]];
    }
  }

  lemma {:induction false} KeyedJoins<T, K>(a: seq<T>, b: seq<T>, key: T -> K, k: K)
    ensures Keyed(a + b, key, k) == Keyed(a, key, k) + Keyed(b, key, k)
  {
    if b == [] {
      assert a + b == a;
    } else {
      KeyedJoins(a, b[..|b| - 1], key, k);
      assert (a + b)[..|a + b| - 1] == a + b[..|b| - 1];
    }
  }

  /** Later keys depend only on the keys seen so far. */
  lemma {:induction false} FirstKeysJoin<T, K>(a: seq<T>, a': seq<T>, b: seq<T>, key: T -> K)
    requires FirstKeys(a, key) == FirstKeys(a', key)
    ensures FirstKeys(a + b, key) == FirstKeys(a' + b, key)
  {
    if b == [] {
      assert a + b == a && a' + b == a';
    } else {
      FirstKeysJoin(a, a', b[..|b| - 1], key);
      assert (a + b)[..|a + b| - 1] == a + b[..|b| - 1];
      assert (a' + b)[..|a' + b| - 1] == a' + b[..|b| - 1];
    }
  }

  method GroupBy<T, K(==)>(rows: seq<T>, key: T -> K) returns (order: seq<K>, grouped: map<K, seq<T>>)
    ensures order == FirstKeys(rows, key) && (forall k :: k in grouped <==> k in order)
    ensures forall k | k in grouped :: grouped[k] == Keyed(rows, key, k)
  {
    order, grouped := [], map[];
    for i := 0 to |rows|
      invariant order == FirstKeys(rows[..i], key) && (forall k :: k in grouped <==> k in order)
      invariant forall k | k in grouped :: grouped[k] == Keyed(rows[..i], key, k)
    {
      var row := rows[i];
      assert rows[..i + 1][..i] == rows[..i];
      KeysOccur(rows[..i], key, key(row));
      if key(row) !in grouped {
        grouped := grouped[key(row) := []];
        order := order + [key(row)];
      }
      grouped := grouped[key(row) := grouped[key(row)] + [row]];
    }
    assert rows[..|rows|] == rows;
  }

  // ---- totals

  /** How measures of rows are accumulated. */
  datatype Monoid<!M> = Monoid(plus: (M, M) -> M, zero: M)

  ghost predicate Commutative<M(!new)>(m: Monoid<M>) {
    && (forall a, b :: m.plus(a, b) == m.plus(b, a))
    && (forall a, b, c :: m.plus(m.plus(a, b), c) == m.plus(a, m.plus(b, c)))
    && (forall a :: m.plus(a, m.zero) == a)
  }

  function Sum<T, M>(rows: seq<T>, of: T -> M, m: Monoid<M>): M {
    if rows == [] then m.zero else m.plus(Sum(rows[..|rows| - 1], of, m), of(rows[|rows| - 1]))
  }

  datatype Group<K, M> = Group(name: K, total: M)

  function TotalOf<K, M>(g: Group<K, M>): M {
    g.total
  }

  /** The totals of the rows under each of the given keys. */
  function GroupsFor<T, K(==), M>(rows: seq<T>, key: T -> K, keys: seq<K>, of: T -> M, m: Monoid<M>): seq<Group<K, M>> {
    if keys == [] then []
    else
      var last := keys[|keys| - 1];
      GroupsFor(rows, key, keys[..|keys| - 1], of, m) + [Group(last, Sum(Keyed(rows, key, last), of, m))]
  }

  lemma SumMore<T, M>(rows: seq<T>, row: T, of: T -> M, m: Monoid<M>)
    ensures Sum(rows + [row], of, m) == m.plus(Sum(rows, of, m), of(row))
  {
    assert (rows + [row])[..|rows|] == rows;
  }

  lemma {:induction false} NoRows<T, K, M(!new)>(rows: seq<T>, key: T -> K, keys: seq<K>, of: T -> M, m: Monoid<M>)
    requires rows == [] && Commutative(m)
    ensures Sum(GroupsFor(rows, key, keys, of, m), TotalOf, m) == m.zero
  {
    if keys != [] {
      var front, last := keys[..|keys| - 1], keys[|keys| - 1];
      NoRows(rows, key, front, of, m);
      SumMore(GroupsFor(rows, key, front, of, m), Group(last, Sum(Keyed(rows, key, last), of, m)), TotalOf, m);
    }
  }

  lemma KeyedSumMore<T, K, M>(rows: seq<T>, row: T, key: T -> K, k: K, of: T -> M, m: Monoid<M>)
    ensures Sum(Keyed(rows + [row], key, k), of, m) ==
            if key(row) == k then m.plus(Sum(Keyed(rows, key, k), of, m), of(row)) else Sum(Keyed(rows, key, k), of, m)
  {
    assert (rows + [row])[..|rows|] == rows;
    var same := Keyed(rows, key, k);
    SumMore(same, row, of, m);
    assert same + [] == same;
  }

  /** One more row changes exactly the group it belongs to. */
  lemma {:induction false} OneMoreRow<T, K, M(!new)>(rows: seq<T>, row: T, key: T -> K, keys: seq<K>, of: T -> M,
                                              m: Monoid<M>)
    requires Commutative(m) && Distinct(keys)
    ensures var before := Sum(GroupsFor(rows, key, keys, of, m), TotalOf, m);
      Sum(GroupsFor(rows + [row], key, keys, of, m), TotalOf, m) ==
      if key(row) in keys then m.plus(before, of(row)) else before
  {
    if keys != [] {
      var front, last := keys[..|keys| - 1], keys[|keys| - 1];
      OneMoreRow(rows, row, key, front, of, m);
      KeyedSumMore(rows, row, key, last, of, m);
      assert keys == front + [last];
      SumMore(GroupsFor(rows, key, front, of, m), Group(last, Sum(Keyed(rows, key, last), of, m)), TotalOf, m);
      SumMore(GroupsFor(rows + [row], key, front, of, m), Group(last, Sum(Keyed(rows + [row], key, last), of, m)),
        TotalOf, m);
    }
  }

  /** Groups under distinct keys that cover every row add up to the sum over the rows. */
  lemma {:induction false} GroupsAddUp<T, K, M(!new)>(rows: seq<T>, key: T -> K, keys: seq<K>, of: T -> M, m: Monoid<M>)
    requires Commutative(m) && Distinct(keys) && forall i | 0 <= i < |rows| :: key(rows[i]) in keys
    ensures Sum(GroupsFor(rows, key, keys, of, m), TotalOf, m) == Sum(rows, of, m)
  {
    if rows == [] {
      NoRows(rows, key, keys, of, m);
    } else {
      var front, last := rows[..|rows| - 1], rows[|rows| - 1];
      GroupsAddUp(front, key, keys, of, m);
      OneMoreRow(front, last, key, keys, of, m);
      assert rows == front + [last];
    }
  }

  lemma {:induction false} SumInsert<T, M(!new)>(rows: seq<T>, row: T, leq: (T, T) -> bool, of: T -> M, m: Monoid<M>)
    requires Commutative(m)
    ensures Sum(Insert(rows, row, leq), of, m) == m.plus(Sum(rows, of, m), of(row))
  {
    if rows == [] || leq(rows[|rows| - 1], row) {
      SumMore(rows, row, of, m);
    } else {
      var front, last := rows[..|rows| - 1], rows[|rows| - 1];
      SumInsert(front, row, leq, of, m);
      SumMore(Insert(front, row, leq), last, of, m);
    }
  }

  /** A sum does not depend on the order of the rows. */
  lemma {:induction false} SumSorted<T, M(!new)>(rows: seq<T>, leq: (T, T) -> bool, of: T -> M, m: Monoid<M>)
    requires Commutative(m)
    ensures Sum(SortBy(rows, leq), of, m) == Sum(rows, of, m)
  {
    if rows != [] {
      SumSorted(rows[..|rows| - 1], leq, of, m);
      SumInsert(SortBy(rows[..|rows| - 1], leq), rows[|rows| - 1], leq, of, m);
    }
  }

  lemma FirstKeysCover<T, K>(rows: seq<T>, key: T -> K)
    ensures Distinct(FirstKeys(rows, key)) && forall i | 0 <= i < |rows| :: key(rows[i]) in FirstKeys(rows, key)
  {
    KeysDistinct(rows, key);
    forall i | 0 <= i < |rows| ensures key(rows[i]) in FirstKeys(rows, key) {
      KeyedMembers(rows, key, key(rows[i]), rows[i]);
      KeysOccur(rows, key, key(rows[i]));
    }
  }
}
