/** Bootstrap throughput forecasts over an explicit stream of draws. */
module Forecasting {
  import opened Wrappers
  import opened Grouping
  import opened Sorting

  // ---- history

  datatype PeriodData = PeriodData(id: string, start: int, end: int, completed: nat, canonical: bool)

  type Period = p: PeriodData | p.start < p.end witness PeriodData("", 0, 1, 0, true)

  predicate PeriodLeq(a: Period, b: Period) {
    || a.start < b.start
    || (a.start == b.start && (a.end < b.end || (a.end == b.end && StringLeq(a.id, b.id))))
  }

  function IsCanonical(p: Period): bool {
    p.canonical
  }

  predicate Adjoining(ps: seq<Period>) {
    forall i | 0 < i < |ps| :: ps[i - 1].end <= ps[i].start
  }

  /** The canonical periods in order and the others; None when canonical periods overlap. */
  function Prepared(history: seq<Period>): Option<(seq<Period>, seq<Period>)> {
    var ordered := SortBy(history, PeriodLeq);
    var included := Keyed(ordered, IsCanonical, true);
    if Adjoining(included) then Some((included, Keyed(ordered, IsCanonical, false))) else None
  }

  /** _prepare_history */
  method PrepareHistory(history: seq<Period>) returns (result: Option<(seq<Period>, seq<Period>)>)
    ensures result == Prepared(history)
  {
    var ordered := SortBy(history, PeriodLeq);
    var included := Keyed(ordered, IsCanonical, true);
    var i := 1;
    while i < |included|
      invariant forall j | 0 < j < i && j < |included| :: included[j - 1].end <= included[j].start
    {
      if included[i].start < included[i - 1].end { return None; }
      i := i + 1;
    }
    result := Some((included, Keyed(ordered, IsCanonical, false)));
  }

  lemma PeriodOrder()
    ensures TotalOrder(PeriodLeq)
  {
    StringOrder();
  }

  lemma {:induction false} KeyedContents<T(!new)>(s: seq<T>, keep: T -> bool, wanted: bool, x: T)
    ensures multiset(Keyed(s, keep, wanted))[x] == if keep(x) == wanted then multiset(s)[x] else 0
  {
    if s != [] {
      KeyedContents(s[..|s| - 1], keep, wanted, x);
      assert s == s[..|s| - 1] + [s[|s| - 1]];
    }
  }

  lemma SameContentsKeyed<T(!new)>(a: seq<T>, b: seq<T>, keep: T -> bool, wanted: bool)
    requires multiset(a) == multiset(b)
    ensures multiset(Keyed(a, keep, wanted)) == multiset(Keyed(b, keep, wanted))
  {
    forall x ensures multiset(Keyed(a, keep, wanted))[x] == multiset(Keyed(b, keep, wanted))[x] {
      KeyedContents(a, keep, wanted, x);
      KeyedContents(b, keep, wanted, x);
    }
    assert multiset(Keyed(a, keep, wanted)) == multiset(Keyed(b, keep, wanted));
  }

  lemma {:induction false} KeyedSorted<T(!new)>(s: seq<T>, keep: T -> bool, wanted: bool, leq: (T, T) -> bool)
    requires SortedBy(s, leq)
    ensures SortedBy(Keyed(s, keep, wanted), leq)
  {
    if s != [] {
      var front, last := s[..|s| - 1], s[|s| - 1];
      KeyedSorted(front, keep, wanted, leq);
      var kept := Keyed(front, keep, wanted);
      forall i | 0 <= i < |kept| ensures leq(kept[i], last) {
        KeyedMembers(front, keep, wanted, kept[i]);
        var j :| 0 <= j < |front| && front[j] == kept[i];
        assert leq(s[j], s[|s| - 1]);
      }
    }
  }

  /** Canonical periods that pass the neighbour check are disjoint pair by pair. */
  lemma {:induction false} AdjoiningIsDisjoint(ps: seq<Period>, i: nat, j: nat)
    requires Adjoining(ps) && i < j < |ps|
    ensures ps[i].end <= ps[j].start
    decreases j
  {
    if i < j - 1 {
      AdjoiningIsDisjoint(ps, i, j - 1);
      assert ps[j - 1].end <= ps[j].start;
    }
  }

  lemma DisjointAreDistinguished(ps: seq<Period>, x: Period, y: Period)
    requires Adjoining(ps) && x in ps && y in ps && PeriodLeq(x, y) && PeriodLeq(y, x)
    ensures x == y
  {
    var i :| 0 <= i < |ps| && ps[i] == x;
    var j :| 0 <= j < |ps| && ps[j] == y;
    if i < j { AdjoiningIsDisjoint(ps, i, j); }
    if j < i { AdjoiningIsDisjoint(ps, j, i); }
  }

  lemma DisjointArrangement(a: seq<Period>, b: seq<Period>)
    requires multiset(a) == multiset(b) && SortedBy(a, PeriodLeq) && SortedBy(b, PeriodLeq) && Adjoining(a)
    ensures a == b
  {
    forall x, y | x in a && y in a && PeriodLeq(x, y) && PeriodLeq(y, x) ensures x == y {
      DisjointAreDistinguished(a, x, y);
    }
    SortedUnique(a, b, PeriodLeq);
  }

  lemma IncludedSorted(history: seq<Period>)
    ensures SortedBy(Keyed(SortBy(history, PeriodLeq), IsCanonical, true), PeriodLeq)
  {
    PeriodOrder();
    SortSorts(history, PeriodLeq);
    KeyedSorted(SortBy(history, PeriodLeq), IsCanonical, true, PeriodLeq);
  }

  /** The canonical history used does not depend on the order in which it is given, nor does
      the refusal of overlapping histories. */
  lemma HistoryIgnoresOrder(h: seq<Period>, h': seq<Period>)
    requires multiset(h) == multiset(h')
    ensures Prepared(h).Some? <==> Prepared(h').Some?
    ensures Prepared(h).Some? ==> Prepared(h).value.0 == Prepared(h').value.0
  {
    SortContents(h, PeriodLeq);
    SortContents(h', PeriodLeq);
    IncludedSorted(h);
    IncludedSorted(h');
    SameContentsKeyed(SortBy(h, PeriodLeq), SortBy(h', PeriodLeq), IsCanonical, true);
    var a, b := Keyed(SortBy(h, PeriodLeq), IsCanonical, true), Keyed(SortBy(h', PeriodLeq), IsCanonical, true);
    if Adjoining(a) { DisjointArrangement(a, b); }
    if Adjoining(b) { DisjointArrangement(b, a); }
  }

  // ---- simulation

  /** random(seed, size, n) is the n-th draw below `size` of a generator with that seed. */
  type Random = (int, nat, nat) -> nat

  /** What each draw completes. */
  type Gains = nat -> nat

  function GainsOf(random: Random, seed: int, counts: seq<nat>, capacity: nat -> nat): Gains {
    n => var drawn := random(seed, |counts|, n); if drawn < |counts| then capacity(counts[drawn]) else 0
  }

  function Horizon(work: int): nat {
    if work * 100 < 1000 then 1000 else work * 100
  }

  /** The number of draws from `from` on until `work` is reached, if `limit` draws suffice. */
  function HitFrom(gain: Gains, from: nat, work: int, limit: nat): Option<nat>
    decreases limit
  {
    if work <= 0 then Some(0)
    else if limit == 0 then None
    else
      var later := HitFrom(gain, from + 1, work - gain(from), limit - 1);
      if later.None? then None else Some(1 + later.value)
  }

  /** The outcomes so far and the position of the next draw. */
  datatype Progress = Progress(outcomes: seq<nat>, next: nat)

  function OneMore(gain: Gains, work: int, blocked: nat, before: Progress): Option<Progress> {
    var hit := HitFrom(gain, before.next, work, Horizon(work));
    if hit.None? then None else Some(Progress(before.outcomes + [blocked + hit.value], before.next + hit.value))
  }

  /** The first `n` iterations. */
  function Outcomes(gain: Gains, work: int, blocked: nat, n: nat): (run: Option<Progress>)
    ensures run.Some? ==> |run.value.outcomes| == n
  {
    if n == 0 then Some(Progress([], 0))
    else
      var before := Outcomes(gain, work, blocked, n - 1);
      if before.None? then None else OneMore(gain, work, blocked, before.value)
  }

  lemma {:induction false} OutcomesFail(gain: Gains, work: int, blocked: nat, n: nat, more: nat)
    requires n <= more && Outcomes(gain, work, blocked, n).None?
    ensures Outcomes(gain, work, blocked, more).None?
    decreases more
  {
    if n < more { OutcomesFail(gain, work, blocked, n, more - 1); }
  }

  /** _simulate; None is the exhausted horizon. */
  method Simulate(gain: Gains, work: int, blocked: nat, iterations: int) returns (outcomes: Option<seq<nat>>)
    ensures var run := Outcomes(gain, work, blocked, if iterations < 0 then 0 else iterations);
      outcomes == if run.None? then None else Some(run.value.outcomes)
  {
    var done: seq<nat> := [];
    var next: nat := 0;
    var limit := Horizon(work);
    var i: nat := 0;
    while i < iterations
      invariant iterations >= 0 ==> i <= iterations
      invariant iterations < 0 ==> i == 0
      invariant Outcomes(gain, work, blocked, i) == Some(Progress(done, next))
    {
      var completed, delivered: nat := 0, 0;
      while completed < work && delivered < limit
        invariant delivered <= limit
        invariant var rest := HitFrom(gain, next + delivered, work - completed, limit - delivered);
          HitFrom(gain, next, work, limit) == if rest.None? then None else Some(delivered + rest.value)
        decreases limit - delivered
      {
        completed := completed + gain(next + delivered);
        delivered := delivered + 1;
      }
      if completed < work {
        OutcomesFail(gain, work, blocked, i + 1, iterations);
        return None;
      }
      done := done + [blocked + delivered];
      next := next + delivered;
      i := i + 1;
    }
    outcomes := Some(done);
  }

  /** Work completed by `k` draws from `from` on. */
  function Done(gain: Gains, from: nat, k: nat): nat
    decreases k
  {
    if k == 0 then 0 else gain(from) + Done(gain, from + 1, k - 1)
  }

  lemma {:induction false} DoneGrows(gain: Gains, from: nat, j: nat, k: nat)
    requires j <= k
    ensures Done(gain, from, j) <= Done(gain, from, k)
    decreases k
  {
    if j > 0 { DoneGrows(gain, from + 1, j - 1, k - 1); }
  }

  /** `k` is the least number of draws that reaches the work. */
  ghost predicate IsLeast(gain: Gains, from: nat, work: int, k: nat) {
    Done(gain, from, k) >= work && forall j: nat | j < k :: Done(gain, from, j) < work
  }

  /** A hitting time is the least number of draws that reaches the work, if it is within the
      limit; there is none exactly when the limit does not reach it. */
  lemma {:induction false} HitIsLeast(gain: Gains, from: nat, work: int, limit: nat)
    ensures var hit := HitFrom(gain, from, work, limit);
      if hit.Some? then hit.value <= limit && IsLeast(gain, from, work, hit.value)
      else Done(gain, from, limit) < work
    decreases limit
  {
    if work > 0 && limit > 0 {
      HitIsLeast(gain, from + 1, work - gain(from), limit - 1);
      var hit := HitFrom(gain, from, work, limit);
      if hit.Some? {
        forall j: nat | j < hit.value ensures Done(gain, from, j) < work {
          if j > 0 { assert Done(gain, from + 1, j - 1) < work - gain(from); }
        }
      }
    }
  }

  /** The first draw of iteration `j`: all the draws of the iterations before it. */
  function FirstDraw(outcomes: seq<nat>, blocked: nat, j: nat): int
    requires j <= |outcomes|
  {
    if j == 0 then 0 else FirstDraw(outcomes, blocked, j - 1) + outcomes[j - 1] - blocked
  }

  lemma {:induction false} FirstDrawPrefix(a: seq<nat>, b: seq<nat>, blocked: nat, j: nat)
    requires j <= |a|
    ensures FirstDraw(a + b, blocked, j) == FirstDraw(a, blocked, j)
  {
    if j > 0 { FirstDrawPrefix(a, b, blocked, j - 1); }
  }

  ghost predicate LeastFromThere(gain: Gains, work: int, blocked: nat, outcomes: seq<nat>, j: nat)
    requires j < |outcomes|
  {
    var from := FirstDraw(outcomes, blocked, j);
    from >= 0 && outcomes[j] >= blocked && IsLeast(gain, from, work, outcomes[j] - blocked)
  }

  /** Each outcome, less the blocked periods, is the least number of draws that reaches the
      work, counted from where the iteration before it stopped drawing. */
  lemma {:induction false} OutcomesAreLeast(gain: Gains, work: int, blocked: nat, n: nat)
    requires Outcomes(gain, work, blocked, n).Some?
    ensures var Progress(outcomes, next) := Outcomes(gain, work, blocked, n).value;
      && |outcomes| == n && FirstDraw(outcomes, blocked, n) == next
      && forall j | 0 <= j < n :: LeastFromThere(gain, work, blocked, outcomes, j)
  {
    if n > 0 {
      OutcomesAreLeast(gain, work, blocked, n - 1);
      var Progress(before, from) := Outcomes(gain, work, blocked, n - 1).value;
      var hit := HitFrom(gain, from, work, Horizon(work)).value;
      HitIsLeast(gain, from, work, Horizon(work));
      var outcomes := before + [blocked + hit];
      forall j: nat | j < n ensures LeastFromThere(gain, work, blocked, outcomes, j) {
        FirstDrawPrefix(before, [blocked + hit], blocked, j);
        if j < n - 1 { assert LeastFromThere(gain, work, blocked, before, j); }
      }
      FirstDrawPrefix(before, [blocked + hit], blocked, n - 1);
    }
  }

  // ---- quantiles

  predicate NatLeq(a: nat, b: nat) {
    a <= b
  }

  /** The rank of the p-th percentile among n values, from 1: the ceiling of p*n/100. */
  function Rank(p: nat, n: nat): (r: nat)
    requires p <= 100 && n > 0
    ensures 1 <= r <= n
  {
    assert p * n <= 100 * n;
    var ceiling := (p * n + 99) / 100;
    if ceiling < 1 then 1 else ceiling
  }

  /** The r-th smallest value, from 1. */
  function Smallest(values: seq<nat>, r: nat): nat
    requires 1 <= r <= |values|
  {
    SortBy(values, NatLeq)[r - 1]
  }

  function NearestRank(values: seq<nat>, p: nat): nat
    requires p <= 100 && values != []
  {
    Smallest(values, Rank(p, |values|))
  }

  datatype Quantiles = Quantiles(p50: int, p85: int, p95: int)

  function QuantilesOf(values: seq<nat>): Quantiles
    requires values != []
  {
    Quantiles(NearestRank(values, 50), NearestRank(values, 85), NearestRank(values, 95))
  }

  function Below(bound: int): nat -> int {
    v => if v < bound then 1 else 0
  }

  const COUNTING := Monoid((a: int, b: int) => a + b, 0)

  /** How many values lie below the bound. */
  function CountBelow(values: seq<nat>, bound: int): int {
    Sum(values, Below(bound), COUNTING)
  }

  lemma {:induction false} CountSorted(values: seq<nat>, bound: int, k: nat)
    requires k <= |values|
    ensures (forall i | 0 <= i < k :: values[i] < bound) ==> CountBelow(values, bound) >= k
    ensures (forall i | k <= i < |values| :: values[i] >= bound) ==> CountBelow(values, bound) <= k
    ensures 0 <= CountBelow(values, bound) <= |values|
  {
    if values != [] {
      var m := |values| - 1;
      CountSorted(values[..m], bound, if k <= m then k else m);
    }
  }

  lemma CountIgnoresOrder(values: seq<nat>, bound: int)
    ensures CountBelow(SortBy(values, NatLeq), bound) == CountBelow(values, bound)
  {
    SumSorted(values, NatLeq, Below(bound), COUNTING);
  }

  lemma CountsAtSorted(sorted: seq<nat>, r: nat)
    requires 1 <= r <= |sorted| && SortedBy(sorted, NatLeq)
    ensures CountBelow(sorted, sorted[r - 1]) < r <= CountBelow(sorted, sorted[r - 1] + 1)
  {
    var q := sorted[r - 1];
    forall i | 0 <= i < r ensures sorted[i] < q + 1 { assert i == r - 1 || NatLeq(sorted[i], sorted[r - 1]); }
    forall i | r - 1 <= i < |sorted| ensures sorted[i] >= q { assert i == r - 1 || NatLeq(sorted[r - 1], sorted[i]); }
    CountSorted(sorted, q + 1, r);
    CountSorted(sorted, q, r - 1);
  }

  lemma CountsAtRank(values: seq<nat>, r: nat)
    requires 1 <= r <= |values|
    ensures var q := Smallest(values, r);
      q in values && CountBelow(values, q) < r <= CountBelow(values, q + 1)
  {
    var q := Smallest(values, r);
    var sorted := SortBy(values, NatLeq);
    SortContents(values, NatLeq);
    SortMembers(values, NatLeq);
    SortSorts(values, NatLeq);
    CountsAtSorted(sorted, r);
    CountIgnoresOrder(values, q);
    CountIgnoresOrder(values, q + 1);
    assert sorted[r - 1] in sorted;
  }

  lemma {:induction false} CountGrows(values: seq<nat>, low: int, high: int)
    requires low <= high
    ensures CountBelow(values, low) <= CountBelow(values, high)
  {
    if values != [] { CountGrows(values[..|values| - 1], low, high); }
  }

  lemma SmallestIsUnique(values: seq<nat>, r: nat, q: nat)
    requires 1 <= r <= |values|
    ensures q == Smallest(values, r) <==> CountBelow(values, q) < r <= CountBelow(values, q + 1)
  {
    var found := Smallest(values, r);
    CountsAtRank(values, r);
    if q < found { CountGrows(values, q + 1, found); }
    if found < q { CountGrows(values, found + 1, q); }
  }

  /** The nearest-rank percentile is the one value with fewer than the rank below it and at
      least the rank at or below it. */
  lemma NearestRankIsThePercentile(values: seq<nat>, p: nat, q: nat)
    requires p <= 100 && values != []
    ensures q == NearestRank(values, p) <==>
            CountBelow(values, q) < Rank(p, |values|) <= CountBelow(values, q + 1)
    ensures NearestRank(values, p) in values
  {
    SmallestIsUnique(values, Rank(p, |values|), q);
    CountsAtRank(values, Rank(p, |values|));
  }

  lemma SmallestGrows(values: seq<nat>, r: nat, s: nat)
    requires 1 <= r <= s <= |values|
    ensures Smallest(values, r) <= Smallest(values, s)
  {
    SortContents(values, NatLeq);
    SortSorts(values, NatLeq);
    var sorted := SortBy(values, NatLeq);
    assert r == s || NatLeq(sorted[r - 1], sorted[s - 1]);
  }

  lemma RankGrows(p: nat, q: nat, n: nat)
    requires p <= q <= 100 && n > 0
    ensures Rank(p, n) <= Rank(q, n)
  {
    assert p * n <= q * n;
  }

  /** p50 <= p85 <= p95 */
  lemma PercentilesAreOrdered(values: seq<nat>)
    requires values != []
    ensures var q := QuantilesOf(values);
      q.p50 <= q.p85 <= q.p95
  {
    var n := |values|;
    RankGrows(50, 85, n);
    RankGrows(85, 95, n);
    SmallestGrows(values, Rank(50, n), Rank(85, n));
    SmallestGrows(values, Rank(85, n), Rank(95, n));
  }

  // ---- the shift law

  function Shifted(values: seq<nat>, b: nat): seq<nat> {
    if values == [] then [] else Shifted(values[..|values| - 1], b) + [values[|values| - 1] + b]
  }

  lemma {:induction false} ShiftedAt(values: seq<nat>, b: nat)
    ensures |Shifted(values, b)| == |values| && forall i | 0 <= i < |values| :: Shifted(values, b)[i] == values[i] + b
  {
    if values != [] { ShiftedAt(values[..|values| - 1], b); }
  }

  lemma {:induction false} CountShifted(values: seq<nat>, b: nat, bound: int)
    ensures CountBelow(Shifted(values, b), bound + b) == CountBelow(values, bound)
  {
    if values != [] {
      CountShifted(values[..|values| - 1], b, bound);
      SumMore(Shifted(values[..|values| - 1], b), values[|values| - 1] + b, Below(bound + b), COUNTING);
    }
  }

  lemma SmallestShifts(values: seq<nat>, b: nat, r: nat)
    requires 1 <= r <= |values|
    ensures |Shifted(values, b)| == |values| && Smallest(Shifted(values, b), r) == Smallest(values, r) + b
  {
    var q := Smallest(values, r);
    ShiftedAt(values, b);
    CountsAtRank(values, r);
    CountShifted(values, b, q);
    CountShifted(values, b, q + 1);
    SmallestIsUnique(Shifted(values, b), r, q + b);
  }

  lemma QuantilesShift(values: seq<nat>, b: nat)
    requires values != []
    ensures Shifted(values, b) != []
    ensures var q, s := QuantilesOf(values), QuantilesOf(Shifted(values, b));
      s == Quantiles(q.p50 + b, q.p85 + b, q.p95 + b)
  {
    var n := |values|;
    SmallestShifts(values, b, Rank(50, n));
    SmallestShifts(values, b, Rank(85, n));
    SmallestShifts(values, b, Rank(95, n));
  }

  lemma ShiftedMore(values: seq<nat>, x: nat, b: nat)
    ensures Shifted(values + [x], b) == Shifted(values, b) + [x + b]
  {
    assert (values + [x])[..|values|] == values;
  }

  lemma OneMoreShifts(gain: Gains, work: int, blocked: nat, b: nat, one: Progress, two: Progress)
    requires two == Progress(Shifted(one.outcomes, b), one.next)
    ensures var one', two' := OneMore(gain, work, blocked, one), OneMore(gain, work, blocked + b, two);
      if one'.None? then two'.None? else two' == Some(Progress(Shifted(one'.value.outcomes, b), one'.value.next))
  {
    var hit := HitFrom(gain, one.next, work, Horizon(work));
    if hit.Some? { ShiftedMore(one.outcomes, blocked + hit.value, b); }
  }

  lemma {:induction false} BlockedShiftsOutcomes(gain: Gains, work: int, blocked: nat, b: nat, n: nat)
    ensures var one, two := Outcomes(gain, work, blocked, n), Outcomes(gain, work, blocked + b, n);
      if one.None? then two.None? else two == Some(Progress(Shifted(one.value.outcomes, b), one.value.next))
  {
    if n > 0 {
      BlockedShiftsOutcomes(gain, work, blocked, b, n - 1);
      var one, two := Outcomes(gain, work, blocked, n - 1), Outcomes(gain, work, blocked + b, n - 1);
      if one.Some? { OneMoreShifts(gain, work, blocked, b, one.value, two.value); }
    }
  }
}
