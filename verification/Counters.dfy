/** The SKCounter read model: latest rows, summaries and groupings. */
module Counters {
  import opened Wrappers
  import opened Grouping
  import opened Sorting

  datatype Key = Key(lane: string, view: string, node: string, principal: string, bucket: string, client: string,
                     provider: string, model: string, agent: string, workspaceKey: string, sessionKey: string)

  datatype Tokens = Tokens(input: nat, output: nat, cacheRead: nat, cacheWrite: nat, reasoning: nat, total: nat)

  datatype Cost = Cost(estimated: bool, revision: string)

  datatype Row = Row(key: Key, observedAt: int, workspaceLabel: string, taskLabel: string, tokens: Tokens,
                     messages: nat, durationMs: nat, timedTokens: nat, samples: nat, activeSeconds: nat,
                     longest: nat, concurrent: nat, cost: Option<Cost>)

  function KeyOf(row: Row): Key {
    row.key
  }

  // ---- deduplication

  /** The newest row; the earliest in the list on ties. */
  function Newest(rows: seq<Row>): Option<Row> {
    if rows == [] then None
    else
      var last, prior := rows[|rows| - 1], Newest(rows[..|rows| - 1]);
      if prior.None? || last.observedAt > prior.value.observedAt then Some(last) else prior
  }

  function NewestOf(rows: seq<Row>, key: Key): Option<Row> {
    Newest(Keyed(rows, KeyOf, key))
  }

  lemma NewestOfMore(rows: seq<Row>, row: Row, key: Key)
    ensures var prior := NewestOf(rows, key);
      NewestOf(rows + [row], key) ==
      if row.key == key && (prior.None? || row.observedAt > prior.value.observedAt) then Some(row) else prior
  {
    assert (rows + [row])[..|rows|] == rows;
    var same := Keyed(rows, KeyOf, key);
    assert (same + [row])[..|same|] == same && same + [] == same;
  }

  lemma NewestOfExists(rows: seq<Row>, key: Key)
    ensures NewestOf(rows, key).Some? <==> key in FirstKeys(rows, KeyOf)
  {
    KeysOccur(rows, KeyOf, key);
  }

  /** The newest row of each of the given keys. */
  function Choose(rows: seq<Row>, keys: seq<Key>): seq<Row> {
    if keys == [] then []
    else
      var row := NewestOf(rows, keys[|keys| - 1]);
      Choose(rows, keys[..|keys| - 1]) + (if row.Some? then [row.value] else [])
  }

  function Latest(rows: seq<Row>): seq<Row> {
    Choose(rows, FirstKeys(rows, KeyOf))
  }

  lemma {:induction false} ChooseFromTable(rows: seq<Row>, keys: seq<Key>, k: nat)
    requires k < |keys| && NewestOf(rows, keys[k]).Some?
    ensures Choose(rows, keys[..k + 1]) == Choose(rows, keys[..k]) + [NewestOf(rows, keys[k]).value]
  {
    assert keys[..k + 1][..k] == keys[..k];
  }

  method FillTable(rows: seq<Row>) returns (order: seq<Key>, latest: map<Key, Row>)
    ensures order == FirstKeys(rows, KeyOf) && (forall key :: key in latest <==> key in order)
    ensures forall key | key in latest :: NewestOf(rows, key) == Some(latest[key])
  {
    order, latest := [], map[];
    for i := 0 to |rows|
      invariant order == FirstKeys(rows[..i], KeyOf) && (forall key :: key in latest <==> key in order)
      invariant forall key | key in latest :: NewestOf(rows[..i], key) == Some(latest[key])
    {
      var row := rows[i];
      assert rows[..i + 1] == rows[..i] + [row] && rows[..i + 1][..i] == rows[..i];
      NewestOfExists(rows[..i], row.key);
      forall key { NewestOfMore(rows[..i], row, key); }
      if row.key !in latest {
        order := order + [row.key];
        latest := latest[row.key := row];
      } else if row.observedAt > latest[row.key].observedAt {
        latest := latest[row.key := row];
      }
    }
    assert rows[..|rows|] == rows;
  }

  /** _latest_rows */
  method LatestRows(rows: seq<Row>) returns (result: seq<Row>)
    ensures result == Latest(rows)
  {
    var order, latest := FillTable(rows);
    result := [];
    for k := 0 to |order|
      invariant result == Choose(rows, order[..k])
    {
      assert order[k] in order;
      ChooseFromTable(rows, order, k);
      result := result + [latest[order[k]]];
    }
    assert order[..|order|] == order;
  }

  /** Row `at` of the list is the newest with its key, and the earliest of those as new. */
  ghost predicate Wins(rows: seq<Row>, at: nat) {
    && at < |rows|
    && (forall j | 0 <= j < |rows| && rows[j].key == rows[at].key :: rows[j].observedAt <= rows[at].observedAt)
    && (forall j | 0 <= j < at && rows[j].key == rows[at].key :: rows[j].observedAt < rows[at].observedAt)
  }

  lemma WinsStill(rows: seq<Row>, at: nat, row: Row)
    requires Wins(rows, at) && !(row.key == rows[at].key && row.observedAt > rows[at].observedAt)
    ensures Wins(rows + [row], at)
  {
  }

  lemma WinsNow(rows: seq<Row>, row: Row)
    requires forall j | 0 <= j < |rows| && rows[j].key == row.key :: rows[j].observedAt < row.observedAt
    ensures Wins(rows + [row], |rows|)
  {
  }

  lemma {:induction false} NewestWins(rows: seq<Row>, key: Key) returns (at: nat)
    requires NewestOf(rows, key).Some?
    ensures Wins(rows, at) && rows[at] == NewestOf(rows, key).value && rows[at].key == key
  {
    var front, last := rows[..|rows| - 1], rows[|rows| - 1];
    assert rows == front + [last];
    NewestOfMore(front, last, key);
    if NewestOf(front, key).Some? {
      at := NewestWins(front, key);
      if last.key == key && last.observedAt > front[at].observedAt {
        WinsNow(front, last);
        at := |front|;
      } else {
        WinsStill(front, at, last);
      }
    } else {
      forall j | 0 <= j < |front| ensures front[j].key != key { KeyedMembers(front, KeyOf, key, front[j]); }
      WinsNow(front, last);
      at := |front|;
    }
  }

  lemma {:induction false} ChooseAt(rows: seq<Row>, keys: seq<Key>)
    requires forall k | 0 <= k < |keys| :: NewestOf(rows, keys[k]).Some?
    ensures |Choose(rows, keys)| == |keys|
    ensures forall k | 0 <= k < |keys| :: Choose(rows, keys)[k] == NewestOf(rows, keys[k]).value
  {
    if keys != [] { ChooseAt(rows, keys[..|keys| - 1]); }
  }

  lemma LatestAt(rows: seq<Row>)
    ensures var keys := FirstKeys(rows, KeyOf);
      && |Latest(rows)| == |keys|
      && (forall k | 0 <= k < |keys| ::
        NewestOf(rows, keys[k]) == Some(Latest(rows)[k]) && Latest(rows)[k].key == keys[k])
  {
    var keys := FirstKeys(rows, KeyOf);
    forall k | 0 <= k < |keys| ensures NewestOf(rows, keys[k]).Some? && NewestOf(rows, keys[k]).value.key == keys[k] {
      NewestOfExists(rows, keys[k]);
      var at := NewestWins(rows, keys[k]);
    }
    ChooseAt(rows, keys);
  }

  lemma KeptIsWinner(rows: seq<Row>, k: nat) returns (at: nat)
    requires k < |Latest(rows)|
    ensures Wins(rows, at) && rows[at] == Latest(rows)[k]
  {
    LatestAt(rows);
    at := NewestWins(rows, FirstKeys(rows, KeyOf)[k]);
  }

  lemma WinnerIsKept(rows: seq<Row>, at: nat) returns (k: nat)
    requires Wins(rows, at)
    ensures k < |Latest(rows)| && Latest(rows)[k] == rows[at]
  {
    var keys, key := FirstKeys(rows, KeyOf), rows[at].key;
    LatestAt(rows);
    KeyedMembers(rows, KeyOf, key, rows[at]);
    KeysOccur(rows, KeyOf, key);
    NewestOfExists(rows, key);
    k :| 0 <= k < |keys| && keys[k] == key;
    var best := NewestWins(rows, key);
    assert best == at;
  }

  /** A row is kept exactly when it is a winner, and no two kept rows share a key. */
  lemma LatestKeepsWinners(rows: seq<Row>, row: Row)
    ensures row in Latest(rows) <==> exists at: nat :: Wins(rows, at) && rows[at] == row
    ensures forall i, j | 0 <= i < j < |Latest(rows)| :: Latest(rows)[i].key != Latest(rows)[j].key
  {
    LatestAt(rows);
    KeysDistinct(rows, KeyOf);
    if row in Latest(rows) {
      var k :| 0 <= k < |Latest(rows)| && Latest(rows)[k] == row;
      var at := KeptIsWinner(rows, k);
    }
    if at: nat :| Wins(rows, at) && rows[at] == row {
      var k := WinnerIsKept(rows, at);
    }
  }

  lemma {:induction false} NewestAbsorbs(a: seq<Row>, b: seq<Row>)
    ensures Newest((if a == [] then [] else [Newest(a).value]) + b) == Newest(a + b)
  {
    var kept := if a == [] then [] else [Newest(a).value];
    if b == [] {
      assert a + b == a && kept + b == kept;
    } else {
      var front := b[..|b| - 1];
      NewestAbsorbs(a, front);
      assert (a + b)[..|a + b| - 1] == a + front;
      assert (kept + b)[..|kept + b| - 1] == kept + front;
    }
  }

  lemma {:induction false} NoneKeyed(rows: seq<Row>, key: Key)
    requires forall i | 0 <= i < |rows| :: rows[i].key != key
    ensures Keyed(rows, KeyOf, key) == []
  {
    if rows != [] { NoneKeyed(rows[..|rows| - 1], key); }
  }

  lemma {:induction false} UniqueKeyed(rows: seq<Row>, key: Key, k: nat)
    requires k < |rows| && rows[k].key == key
    requires forall i, j | 0 <= i < j < |rows| :: rows[i].key != rows[j].key
    ensures Keyed(rows, KeyOf, key) == [rows[k]]
  {
    var m := |rows| - 1;
    if k < m {
      UniqueKeyed(rows[..m], key, k);
    } else {
      NoneKeyed(rows[..m], key);
    }
  }

  /** The kept rows have the keys they were kept for, in the same order. */
  lemma {:induction false} KeysOfUnique(rows: seq<Row>, keys: seq<Key>)
    requires |rows| == |keys| && Distinct(keys) && forall k | 0 <= k < |keys| :: rows[k].key == keys[k]
    ensures FirstKeys(rows, KeyOf) == keys
  {
    if rows != [] {
      var m := |rows| - 1;
      KeysOfUnique(rows[..m], keys[..m]);
      assert keys == keys[..m] + [keys[m]];
    }
  }

  lemma LatestKeyed(rows: seq<Row>, key: Key)
    ensures Keyed(Latest(rows), KeyOf, key) == if NewestOf(rows, key).Some? then [NewestOf(rows, key).value] else []
  {
    var keys := FirstKeys(rows, KeyOf);
    LatestAt(rows);
    KeysDistinct(rows, KeyOf);
    NewestOfExists(rows, key);
    if key in keys {
      var k :| 0 <= k < |keys| && keys[k] == key;
      UniqueKeyed(Latest(rows), key, k);
    } else {
      NoneKeyed(Latest(rows), key);
    }
  }

  /** Deduplicating what was already kept together with what came later is deduplicating
      everything: the fallback rows may be appended before or after. */
  lemma LatestAbsorbs(a: seq<Row>, b: seq<Row>)
    ensures Latest(Latest(a) + b) == Latest(a + b)
  {
    var keys := FirstKeys(a, KeyOf);
    LatestAt(a);
    KeysDistinct(a, KeyOf);
    KeysOfUnique(Latest(a), keys);
    FirstKeysJoin(Latest(a), a, b, KeyOf);
    forall key ensures NewestOf(Latest(a) + b, key) == NewestOf(a + b, key) {
      LatestKeyed(a, key);
      KeyedJoins(a, b, KeyOf, key);
      KeyedJoins(Latest(a), b, KeyOf, key);
      NewestAbsorbs(Keyed(a, KeyOf, key), Keyed(b, KeyOf, key));
    }
    ChooseAgrees(Latest(a) + b, a + b, FirstKeys(a + b, KeyOf));
  }

  lemma {:induction false} ChooseAgrees(a: seq<Row>, b: seq<Row>, keys: seq<Key>)
    requires forall key :: NewestOf(a, key) == NewestOf(b, key)
    ensures Choose(a, keys) == Choose(b, keys)
  {
    if keys != [] { ChooseAgrees(a, b, keys[..|keys| - 1]); }
  }

  lemma LatestIsIdempotent(rows: seq<Row>)
    ensures Latest(Latest(rows)) == Latest(rows)
  {
    LatestAbsorbs(rows, []);
    assert Latest(rows) + [] == Latest(rows) && rows + [] == rows;
  }

  // ---- summaries

  datatype CostState = NoCost | Estimated | Billed | Mixed

  function Join(a: CostState, b: CostState): CostState {
    if a.NoCost? then b else if b.NoCost? || a == b then a else Mixed
  }

  datatype Totals = Totals(input: nat, output: nat, cacheRead: nat, cacheWrite: nat, reasoning: nat, total: nat,
                           messages: nat, durationMs: nat, timedTokens: nat, samples: nat,
                           activeSeconds: nat, longest: nat, concurrent: nat, cost: CostState, revisions: set<string>)

  const NOTHING := Totals(0, 0, 0, 0, 0, 0, 0, 0, 0, 0, 0, 0, 0, NoCost, {})

  function Max(a: nat, b: nat): nat {
    if a < b then b else a
  }

  /** Sums add, maxima compare, cost states join. */
  function Plus(a: Totals, b: Totals): Totals {
    Totals(a.input + b.input, a.output + b.output, a.cacheRead + b.cacheRead, a.cacheWrite + b.cacheWrite,
           a.reasoning + b.reasoning, a.total + b.total, a.messages + b.messages, a.durationMs + b.durationMs,
           a.timedTokens + b.timedTokens, a.samples + b.samples, a.activeSeconds + b.activeSeconds,
           Max(a.longest, b.longest), Max(a.concurrent, b.concurrent), Join(a.cost, b.cost), a.revisions + b.revisions)
  }

  function Of(row: Row): Totals {
    var t := row.tokens;
    Totals(t.input, t.output, t.cacheRead, t.cacheWrite, t.reasoning, t.total,
           row.messages, row.durationMs, row.timedTokens, row.samples, row.activeSeconds, row.longest, row.concurrent,
           if row.cost.None? then NoCost else if row.cost.value.estimated then Estimated else Billed,
           if row.cost.None? then {} else {row.cost.value.revision})
  }

  const LEDGER := Monoid(Plus, NOTHING)

  function Summary(rows: seq<Row>): Totals {
    Sum(rows, Of, LEDGER)
  }

  lemma LedgerIsCommutative()
    ensures Commutative(LEDGER)
  {
  }

  function Flags(rows: seq<Row>): seq<bool> {
    if rows == [] then []
    else
      var cost := rows[|rows| - 1].cost;
      Flags(rows[..|rows| - 1]) + (if cost.None? then [] else [cost.value.estimated])
  }

  function StateOf(flags: seq<bool>): CostState {
    if flags == [] then NoCost
    else if forall i | 0 <= i < |flags| :: flags[i] then Estimated
    else if forall i | 0 <= i < |flags| :: !flags[i] then Billed
    else Mixed
  }

  lemma StateOfMore(flags: seq<bool>, flag: bool)
    ensures StateOf(flags + [flag]) == Join(StateOf(flags), if flag then Estimated else Billed)
  {
    var more := flags + [flag];
    assert more[|flags|] == flag;
    assert forall i | 0 <= i < |flags| :: more[i] == flags[i];
    if StateOf(flags).Mixed? {
      var i :| 0 <= i < |flags| && flags[i];
      var j :| 0 <= j < |flags| && !flags[j];
      assert more[i] && !more[j];
    }
    if flags != [] { assert more[0] == flags[0]; }
  }

  /** The state read off the list of flags is the join over the rows. */
  lemma {:induction false} FlagsJoin(rows: seq<Row>)
    ensures StateOf(Flags(rows)) == Summary(rows).cost
  {
    if rows != [] {
      FlagsJoin(rows[..|rows| - 1]);
      var cost := rows[|rows| - 1].cost;
      var flags := Flags(rows[..|rows| - 1]);
      assert flags + [] == flags;
      if cost.Some? { StateOfMore(flags, cost.value.estimated); }
    }
  }

  /** _summarize, without the rounded cost and the ratios derived from the totals. */
  method Summarize(rows: seq<Row>) returns (totals: Totals)
    ensures totals == Summary(rows)
  {
    totals := NOTHING;
    var flags: seq<bool> := [];
    for i := 0 to |rows|
      invariant totals == Summary(rows[..i]).(cost := NoCost) && flags == Flags(rows[..i])
    {
      var row := rows[i];
      assert rows[..i + 1][..i] == rows[..i];
      totals := totals.(input := totals.input + row.tokens.input, output := totals.output + row.tokens.output,
                        cacheRead := totals.cacheRead + row.tokens.cacheRead,
                        cacheWrite := totals.cacheWrite + row.tokens.cacheWrite,
                        reasoning := totals.reasoning + row.tokens.reasoning, total := totals.total + row.tokens.total,
                        messages := totals.messages + row.messages,
                        durationMs := totals.durationMs + row.durationMs,
                        timedTokens := totals.timedTokens + row.timedTokens, samples := totals.samples + row.samples,
                        activeSeconds := totals.activeSeconds + row.activeSeconds,
                        longest := Max(totals.longest, row.longest),
                        concurrent := Max(totals.concurrent, row.concurrent));
      if row.cost.Some? {
        flags := flags + [row.cost.value.estimated];
        totals := totals.(revisions := totals.revisions + {row.cost.value.revision});
      }
    }
    assert rows[..|rows|] == rows;
    FlagsJoin(rows);
    totals := totals.(cost := StateOf(flags));
  }

  // ---- groupings

  /** What rows may be grouped by. */
  datatype Dimension = Model | Client | Provider | NodeId | Agent | Workspace | Session | Task | Hour | Day

  function Prefix(s: string, n: nat): string {
    if |s| <= n then s else s[..n]
  }

  function OrUnknown(s: string): string {
    if s == "" then "unknown" else s
  }

  function LabelOf(dim: Dimension, row: Row): string {
    match dim
    case Model => OrUnknown(row.key.model)
    case Client => OrUnknown(row.key.client)
    case Provider => OrUnknown(row.key.provider)
    case NodeId => OrUnknown(row.key.node)
    case Agent => OrUnknown(row.key.agent)
    case Workspace =>
      if row.workspaceLabel != "" then row.workspaceLabel
      else if row.key.workspaceKey != "" then "workspace " + Prefix(row.key.workspaceKey, 8)
      else "unknown"
    case Session => if row.key.sessionKey != "" then "session " + Prefix(row.key.sessionKey, 8) else "unknown"
    case Task => OrUnknown(row.taskLabel)
    case Hour => Prefix(row.key.bucket, 13)
    case Day => Prefix(row.key.bucket, 10)
  }

  function Labeller(dim: Dimension): Row -> string {
    row => LabelOf(dim, row)
  }

  function GroupsOf(rows: seq<Row>, dim: Dimension, names: seq<string>): seq<Group<string, Totals>> {
    GroupsFor(rows, Labeller(dim), names, Of, LEDGER)
  }

  predicate GroupLeq(a: Group<string, Totals>, b: Group<string, Totals>) {
    || a.total.total > b.total.total
    || (a.total.total == b.total.total && StringLeq(a.name, b.name))
  }

  function BreakdownOf(rows: seq<Row>, dim: Dimension): seq<Group<string, Totals>> {
    SortBy(GroupsOf(rows, dim, FirstKeys(rows, Labeller(dim))), GroupLeq)
  }

  function SeriesOf(rows: seq<Row>, dim: Dimension): seq<Group<string, Totals>> {
    GroupsOf(rows, dim, SortBy(FirstKeys(rows, Labeller(dim)), StringLeq))
  }

  method SummarizeGroups(rows: seq<Row>, dim: Dimension, names: seq<string>, grouped: map<string, seq<Row>>)
      returns (groups: seq<Group<string, Totals>>)
    requires forall l | l in names :: l in grouped && grouped[l] == Keyed(rows, Labeller(dim), l)
    ensures groups == GroupsOf(rows, dim, names)
  {
    groups := [];
    for k := 0 to |names|
      invariant groups == GroupsOf(rows, dim, names[..k])
    {
      assert names[..k + 1][..k] == names[..k];
      var totals := Summarize(grouped[names[k]]);
      groups := groups + [Group(names[k], totals)];
    }
    assert names[..|names|] == names;
  }

  /** _breakdown and _private_breakdown */
  method Breakdown(rows: seq<Row>, dim: Dimension) returns (groups: seq<Group<string, Totals>>)
    ensures groups == BreakdownOf(rows, dim)
  {
    var order, grouped := GroupBy(rows, Labeller(dim));
    groups := SummarizeGroups(rows, dim, order, grouped);
    groups := SortBy(groups, GroupLeq);
  }

  /** _series */
  method Series(rows: seq<Row>, dim: Dimension) returns (groups: seq<Group<string, Totals>>)
    ensures groups == SeriesOf(rows, dim)
  {
    var order, grouped := GroupBy(rows, Labeller(dim));
    SortMembers(order, StringLeq);
    groups := SummarizeGroups(rows, dim, SortBy(order, StringLeq), grouped);
  }

  /** Every breakdown conserves: its groups' totals add up to the summary of the same rows,
      their maxima are its maxima and their cost states join to its cost state. */
  lemma BreakdownConserves(rows: seq<Row>, dim: Dimension)
    ensures Sum(BreakdownOf(rows, dim), TotalOf, LEDGER) == Summary(rows)
  {
    var names := FirstKeys(rows, Labeller(dim));
    LedgerIsCommutative();
    FirstKeysCover(rows, Labeller(dim));
    GroupsAddUp(rows, Labeller(dim), names, Of, LEDGER);
    SumSorted(GroupsOf(rows, dim, names), GroupLeq, TotalOf, LEDGER);
  }

  lemma {:induction false} GroupsOfMembers(rows: seq<Row>, dim: Dimension, names: seq<string>, g: Group<string, Totals>)
    ensures |GroupsOf(rows, dim, names)| == |names|
    ensures g in GroupsOf(rows, dim, names) <==>
            g.name in names && g.total == Summary(Keyed(rows, Labeller(dim), g.name))
  {
    if names != [] {
      GroupsOfMembers(rows, dim, names[..|names| - 1], g);
      assert names == names[..|names| - 1] + [names[|names| - 1]];
    }
  }

  lemma GroupOrder()
    ensures TotalOrder(GroupLeq)
  {
    StringOrder();
  }

  /** A breakdown lists each label that some row carries once, with the summary of the rows
      that carry it, largest total first and then by label. */
  lemma BreakdownLists(rows: seq<Row>, dim: Dimension, g: Group<string, Totals>)
    ensures g in BreakdownOf(rows, dim) <==>
            var same := Keyed(rows, Labeller(dim), g.name);
            same != [] && g.total == Summary(same)
    ensures |BreakdownOf(rows, dim)| == |FirstKeys(rows, Labeller(dim))|
    ensures SortedBy(BreakdownOf(rows, dim), GroupLeq)
  {
    var names := FirstKeys(rows, Labeller(dim));
    GroupsOfMembers(rows, dim, names, g);
    KeysOccur(rows, Labeller(dim), g.name);
    SortMembers(GroupsOf(rows, dim, names), GroupLeq);
    SortContents(GroupsOf(rows, dim, names), GroupLeq);
    GroupOrder();
    SortSorts(GroupsOf(rows, dim, names), GroupLeq);
  }

  lemma DistinctSorted(labels: seq<string>)
    requires Distinct(labels)
    ensures Distinct(SortBy(labels, StringLeq))
  {
    var sorted := SortBy(labels, StringLeq);
    SortContents(labels, StringLeq);
    forall i, j | 0 <= i < j < |sorted| ensures sorted[i] != sorted[j] {
      if sorted[i] == sorted[j] {
        TwiceCounts(sorted, i, j);
        OnceCounts(labels, sorted[i]);
      }
    }
  }

  lemma TwiceCounts(s: seq<string>, i: nat, j: nat)
    requires i < j < |s| && s[i] == s[j]
    ensures multiset(s)[s[i]] >= 2
  {
    assert s == s[..i] + [s[i]] + s[i + 1..j] + [s[j]] + s[j + 1..];
  }

  lemma {:induction false} OnceCounts(s: seq<string>, x: string)
    requires Distinct(s)
    ensures multiset(s)[x] <= 1
  {
    if s != [] {
      var front, last := s[..|s| - 1], s[|s| - 1];
      OnceCounts(front, x);
      assert s == front + [last];
      if last == x && x in front { assert false; }
      assert multiset(s) == multiset(front) + multiset{last};
      assert x !in front ==> multiset(front)[x] == 0;
    }
  }

  lemma SeriesConserves(rows: seq<Row>, dim: Dimension)
    ensures Sum(SeriesOf(rows, dim), TotalOf, LEDGER) == Summary(rows)
  {
    var names := FirstKeys(rows, Labeller(dim));
    LedgerIsCommutative();
    FirstKeysCover(rows, Labeller(dim));
    SortMembers(names, StringLeq);
    DistinctSorted(names);
    GroupsAddUp(rows, Labeller(dim), SortBy(names, StringLeq), Of, LEDGER);
  }
}
