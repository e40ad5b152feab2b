/** The two sliding-window rate limiters and the one specification both meet. */
module RateLimits {

  datatype Admission = Admission(key: string, time: real)

  const WINDOW: real := 60.0

  /** The admission times of one key, from the whole admission log. */
  function Times(log: seq<Admission>, key: string): seq<real> {
    if log == [] then []
    else
      var a := log[|log| - 1];
      Times(log[..|log| - 1], key) + (if a.key == key then [a.time] else [])
  }

  /** The times less than one window old. */
  function Recent(times: seq<real>, now: real): seq<real> {
    if times == [] then []
    else
      var t := times[|times| - 1];
      Recent(times[..|times| - 1], now) + (if t > now - WINDOW then [t] else [])
  }

  /** The specification: fewer than `limit` admissions of the key in the window before now. */
  predicate Admits(log: seq<Admission>, key: string, now: real, limit: nat) {
    |Recent(Times(log, key), now)| < limit
  }

  function Admit(log: seq<Admission>, key: string, now: real, limit: nat): seq<Admission> {
    if Admits(log, key, now, limit) then log + [Admission(key, now)] else log
  }

  ghost predicate Ordered(times: seq<real>, clock: real) {
    && (forall i | 0 <= i < |times| :: times[i] <= clock)
    && (forall i, j | 0 <= i < j < |times| :: times[i] <= times[j])
  }

  lemma TimesAppend(log: seq<Admission>, a: Admission, key: string)
    ensures Times(log + [a], key) == Times(log, key) + (if a.key == key then [a.time] else [])
  {
    assert (log + [a])[..|log|] == log;
  }

  lemma RecentAppend(times: seq<real>, t: real, now: real)
    ensures Recent(times + [t], now) == Recent(times, now) + (if t > now - WINDOW then [t] else [])
  {
    assert (times + [t])[..|times|] == times;
  }

  lemma {:induction false} RecentJoin(a: seq<real>, b: seq<real>, now: real)
    ensures Recent(a + b, now) == Recent(a, now) + Recent(b, now)
  {
    if b == [] {
      assert a + b == a;
    } else {
      var front, t := b[..|b| - 1], b[|b| - 1];
      RecentJoin(a, front, now);
      assert a + b == a + front + [t];
      RecentAppend(a + front, t, now);
    }
  }

  lemma {:induction false} RecentNone(times: seq<real>, now: real)
    requires forall i | 0 <= i < |times| :: times[i] <= now - WINDOW
    ensures Recent(times, now) == []
  {
    if times != [] { RecentNone(times[..|times| - 1], now); }
  }

  lemma {:induction false} RecentAll(times: seq<real>, now: real)
    requires forall i | 0 <= i < |times| :: times[i] > now - WINDOW
    ensures Recent(times, now) == times
  {
    if times != [] { RecentAll(times[..|times| - 1], now); }
  }

  lemma {:induction false} RecentTwice(times: seq<real>, earlier: real, now: real)
    requires earlier <= now
    ensures Recent(Recent(times, earlier), now) == Recent(times, now)
  {
    if times != [] {
      var front, t := times[..|times| - 1], times[|times| - 1];
      RecentTwice(front, earlier, now);
      if t > earlier - WINDOW { RecentAppend(Recent(front, earlier), t, now); }
      else { assert Recent(times, earlier) == Recent(front, earlier); }
    }
  }

  /** What a limiter keeps for a key is as good as the whole log from `clock` on. */
  ghost predicate Equivalent(kept: seq<real>, times: seq<real>, clock: real) {
    forall now {:trigger Same(kept, times, now)} :: now >= clock ==> Same(kept, times, now)
  }

  ghost predicate Same(kept: seq<real>, times: seq<real>, now: real) { Recent(kept, now) == Recent(times, now) }

  function Stored(hits: map<string, seq<real>>, key: string): seq<real> {
    if key in hits then hits[key] else []
  }

  /** The stored lists answer for the whole log from `clock` on. */
  ghost predicate Answers(hits: map<string, seq<real>>, log: seq<Admission>, clock: real) {
    forall key {:trigger AnswersFor(hits, log, clock, key)} :: AnswersFor(hits, log, clock, key)
  }

  ghost predicate AnswersFor(hits: map<string, seq<real>>, log: seq<Admission>, clock: real, key: string) {
    Equivalent(Stored(hits, key), Times(log, key), clock)
  }

  ghost predicate AllOrdered(hits: map<string, seq<real>>, clock: real) {
    forall key :: key in hits ==> Ordered(hits[key], clock)
  }

  /** Storing a key's new list after a decision. */
  lemma StoreAnswers(hits: map<string, seq<real>>, log: seq<Admission>, clock: real, key: string, recent: seq<real>,
                     now: real, admitted: bool)
    requires Answers(hits, log, clock) && clock <= now && Equivalent(recent, Times(log, key), now)
    ensures var kept := if admitted then recent + [now] else recent;
      Answers(hits[key := kept], if admitted then log + [Admission(key, now)] else log, now)
  {
    var kept := if admitted then recent + [now] else recent;
    var after := if admitted then log + [Admission(key, now)] else log;
    if admitted { AppendKeeps(recent, Times(log, key), now); }
    var stored := hits[key := kept];
    forall other ensures AnswersFor(stored, after, now, other) {
      TimesAppend(log, Admission(key, now), other);
      if other == key {
        assert Stored(stored, other) == kept;
        assert Times(after, other) == if admitted then Times(log, key) + [now] else Times(log, key);
      } else {
        assert Times(after, other) == Times(log, other);
        assert AnswersFor(hits, log, clock, other);
        Later(Stored(hits, other), Times(log, other), clock, now);
      }
    }
  }

  lemma StoreOrdered(hits: map<string, seq<real>>, clock: real, key: string, recent: seq<real>, now: real,
                     admitted: bool)
    requires AllOrdered(hits, clock) && clock <= now && Ordered(recent, clock)
    ensures AllOrdered(hits[key := if admitted then recent + [now] else recent], now)
  {
    forall other | other in hits ensures Ordered(hits[other], now) { assert Ordered(hits[other], clock); }
  }

  /** The dashboard's limiter: a deque per key, pruned from the left. */
  class DequeLimiter {
    const limit: nat
    var hits: map<string, seq<real>>
    ghost var log: seq<Admission>
    ghost var clock: real

    ghost predicate Valid()
      reads this
    {
      Answers(hits, log, clock) && AllOrdered(hits, clock)
    }

    constructor (limit: nat, start: real)
      ensures Valid() && log == [] && clock == start && this.limit == limit
    {
      this.limit := limit;
      hits, log, clock := map[], [], start;
      new;
      StartAnswers(start);
    }

    method Handle(key: string, now: real) returns (admitted: bool)
      requires Valid() && now >= clock
      modifies this
      ensures Valid() && clock == now
      ensures admitted <==> Admits(old(log), key, now, limit)
      ensures log == Admit(old(log), key, now, limit)
    {
      var recent := Stored(hits, key);
      ghost var times := Times(log, key);
      assert AnswersFor(hits, log, clock, key);
      Later(recent, times, clock, now);
      while recent != [] && recent[0] <= now - WINDOW
        invariant Ordered(recent, clock)
        invariant Equivalent(recent, times, now)
        decreases |recent|
        modifies {}
      {
        PruneKeeps(recent, times, now);
        recent := recent[1..];
      }
      RecentAll(recent, now);
      assert Same(recent, times, now);
      admitted := |recent| < limit;
      StoreAnswers(hits, log, clock, key, recent, now, admitted);
      StoreOrdered(hits, clock, key, recent, now, admitted);
      if admitted {
        recent := recent + [now];
        log := log + [Admission(key, now)];
      }
      hits := hits[key := recent];
      clock := now;
    }
  }

  lemma StartAnswers(clock: real)
    ensures Answers(map[], [], clock)
  {
    forall key ensures AnswersFor(map[], [], clock, key) {
      forall t | t >= clock ensures Same([], [], t) {}
    }
  }

  lemma Later(kept: seq<real>, times: seq<real>, clock: real, now: real)
    requires Equivalent(kept, times, clock) && clock <= now
    ensures Equivalent(kept, times, now)
  {
    forall t | t >= now ensures Same(kept, times, t) {}
  }

  /** Filtering a list once filters it for all later times. */
  lemma FilterKeeps(stamps: seq<real>, times: seq<real>, clock: real, now: real)
    requires Equivalent(stamps, times, clock) && clock <= now
    ensures Equivalent(Recent(stamps, now), times, now)
  {
    forall t | t >= now ensures Same(Recent(stamps, now), times, t) {
      assert Same(stamps, times, t);
      RecentTwice(stamps, now, t);
    }
  }

  lemma PruneKeeps(recent: seq<real>, times: seq<real>, now: real)
    requires recent != [] && recent[0] <= now - WINDOW
    requires Equivalent(recent, times, now)
    ensures Equivalent(recent[1..], times, now)
  {
    forall later | later >= now ensures Same(recent[1..], times, later) {
      assert Same(recent, times, later);
      assert recent == [recent[0]] + recent[1..];
      RecentJoin([recent[0]], recent[1..], later);
      RecentNone([recent[0]], later);
    }
  }

  lemma AppendKeeps(recent: seq<real>, times: seq<real>, now: real)
    requires Equivalent(recent, times, now)
    ensures Equivalent(recent + [now], times + [now], now)
  {
    forall later | later >= now ensures Same(recent + [now], times + [now], later) {
      assert Same(recent, times, later);
      RecentAppend(recent, now, later);
      RecentAppend(times, now, later);
    }
  }

  /** The gateway's limiter: a list per key, filtered on every request. */
  class FilterLimiter {
    const limit: nat
    var rate: map<string, seq<real>>
    ghost var log: seq<Admission>
    ghost var clock: real

    ghost predicate Valid()
      reads this
    {
      Answers(rate, log, clock)
    }

    constructor (limit: nat, start: real)
      ensures Valid() && log == [] && clock == start && this.limit == limit
    {
      this.limit := limit;
      rate, log, clock := map[], [], start;
      new;
      StartAnswers(start);
    }

    method RateLimited(key: string, now: real) returns (limited: bool)
      requires Valid() && now >= clock
      modifies this
      ensures Valid() && clock == now
      ensures limited <==> !Admits(old(log), key, now, limit)
      ensures log == Admit(old(log), key, now, limit)
    {
      var stamps := Stored(rate, key);
      ghost var times := Times(log, key);
      var recent: seq<real> := [];
      for i := 0 to |stamps|
        invariant recent == Recent(stamps[..i], now)
        modifies {}
      {
        assert stamps[..i + 1] == stamps[..i] + [stamps[i]];
        RecentAppend(stamps[..i], stamps[i], now);
        if now - stamps[i] < WINDOW { recent := recent + [stamps[i]]; }
      }
      assert stamps[..|stamps|] == stamps;
      assert AnswersFor(rate, log, clock, key);
      FilterKeeps(stamps, times, clock, now);
      assert Same(stamps, times, now);
      limited := |recent| >= limit;
      StoreAnswers(rate, log, clock, key, recent, now, !limited);
      if !limited {
        recent := recent + [now];
        log := log + [Admission(key, now)];
      }
      rate := rate[key := recent];
      clock := now;
    }
  }

  // ---- what the specification promises

  datatype Request = Request(key: string, time: real)

  /** The admission log of a whole run. */
  function Run(requests: seq<Request>, limit: nat): seq<Admission> {
    if requests == [] then []
    else
      var r := requests[|requests| - 1];
      Admit(Run(requests[..|requests| - 1], limit), r.key, r.time, limit)
  }

  ghost predicate Clocked(requests: seq<Request>) {
    forall i, j | 0 <= i < j < |requests| :: requests[i].time <= requests[j].time
  }

  /** Admissions of one key in the window that ends at `end`. */
  function InWindow(times: seq<real>, end: real): nat {
    if times == [] then 0
    else
      var t := times[|times| - 1];
      InWindow(times[..|times| - 1], end) + if end - WINDOW < t <= end then 1 else 0
  }

  lemma {:induction false} WindowIsRecent(times: seq<real>, now: real, end: real)
    requires now <= end && forall i | 0 <= i < |times| :: times[i] <= now
    ensures InWindow(times, end) <= |Recent(times, now)|
  {
    if times != [] { WindowIsRecent(times[..|times| - 1], now, end); }
  }

  lemma {:induction false} RunIsPast(requests: seq<Request>, limit: nat, key: string, now: real)
    requires forall i | 0 <= i < |requests| :: requests[i].time <= now
    ensures forall i | 0 <= i < |Times(Run(requests, limit), key)| :: Times(Run(requests, limit), key)[i] <= now
  {
    if requests != [] {
      var front, r := requests[..|requests| - 1], requests[|requests| - 1];
      RunIsPast(front, limit, key, now);
      TimesAppend(Run(front, limit), Admission(r.key, r.time), key);
    }
  }

  /** Under a clock that never runs backwards no window of sixty seconds, wherever it ends,
      holds more than `limit` admissions of a key. */
  lemma {:induction false} NoBurst(requests: seq<Request>, limit: nat, key: string, end: real)
    requires Clocked(requests)
    ensures InWindow(Times(Run(requests, limit), key), end) <= limit
  {
    if requests != [] {
      var front, r := requests[..|requests| - 1], requests[|requests| - 1];
      var log := Run(front, limit);
      NoBurst(front, limit, key, end);
      if r.key == key && Admits(log, key, r.time, limit) {
        var times := Times(log, key);
        TimesAppend(log, Admission(key, r.time), key);
        assert (times + [r.time])[..|times|] == times;
        assert forall i | 0 <= i < |front| :: front[i] == requests[i];
        if end - WINDOW < r.time <= end {
          RunIsPast(front, limit, key, r.time);
          WindowIsRecent(times, r.time, end);
        }
      } else if Admits(log, r.key, r.time, limit) {
        TimesAppend(log, Admission(r.key, r.time), key);
        assert Times(log + [Admission(r.key, r.time)], key) == Times(log, key);
      }
    }
  }

  /** A refused request found a full window: refusing is never arbitrary. */
  lemma RefusalMeansFull(log: seq<Admission>, key: string, now: real, limit: nat)
    requires Ordered(Times(log, key), now) && !Admits(log, key, now, limit)
    ensures InWindow(Times(log, key), now) >= limit
  {
    RecentIsWindow(Times(log, key), now);
  }

  lemma {:induction false} RecentIsWindow(times: seq<real>, now: real)
    requires forall i | 0 <= i < |times| :: times[i] <= now
    ensures InWindow(times, now) == |Recent(times, now)|
  {
    if times != [] { RecentIsWindow(times[..|times| - 1], now); }
  }
}
