/** Two runs that leave the same bus, after which one cursor resumes with a gap and without:
    what the bus holds cannot tell whether a resume through the floor is gapless. */
module BusAmbiguity {
  import opened Wrappers
  import opened EventCursor
  import opened EventBus
  import opened BusHistory
  import opened BusRetention
  import opened BusOverflow

  // ---- runs of publications alone

  /** Nobody ever subscribed. */
  predicate Bare(s: State) { s.queues == map[] && s.legacy == {} && s.nextQueue == 0 }

  lemma {:induction false} TrimIsBare(c: Config, s: State)
    requires WellFormed(s) && Bare(s)
    ensures Bare(Trim(c, s))
    decreases ReplaySize(s)
  {
    var oldest := Oldest(s.order, s.lanes);
    if ReplaySize(s) > c.bound && oldest.Some? {
      DropShrinks(s, oldest.value);
      TrimIsBare(c, DropOldest(s, oldest.value));
    }
  }

  lemma SpreadIsBare(c: Config, s: State, key: string, e: Event)
    requires WellFormed(s) && key in s.lanes && Bare(s)
    ensures Bare(Spread(c, s, key, e))
  {
    StoreIsWellFormed(c, s, key, e);
    TrimIsWellFormed(c, Store(c, s, key, e));
    TrimIsBare(c, Store(c, s, key, e));
  }

  lemma AnnounceIsBare(c: Config, s: State, m: Message, key: string)
    requires WellFormed(s) && m.Message? && Bare(s)
    ensures Bare(Announce(c, s, m, key).0)
  {
    if LaneOf(c, s, key).Entered? {
      EnterIsWellFormed(c, s, key);
      SpreadIsBare(c, LaneOf(c, s, key).state, key, Minted(c, s.sequence, key, m));
    }
  }

  lemma PublishIsBare(c: Config, s: State, m: Message, key: string)
    requires WellFormed(s) && Bare(s)
    ensures Bare(PublishTo(c, s, m, key).0)
  {
    if Acceptable(m) {
      var numbered := s.(sequence := s.sequence + 1);
      PublishAnnounces(c, s, m, key, numbered);
      AnnounceIsBare(c, numbered, m, key);
    } else {
      assert ResetStreams(s, "producer failure", key).queues == map[];
    }
  }

  lemma {:induction false} RunIsBare(c: Config, steps: seq<Step>)
    requires forall i | 0 <= i < |steps| :: steps[i].Publishing?
    ensures Bare(Run(c, steps).bus)
  {
    if steps != [] {
      var n := |steps| - 1;
      RunIsBare(c, steps[..n]);
      var w := Run(c, steps[..n]);
      HistoryFollows(c, w, steps[n]);
      var Publishing(m, boundary, public) := steps[n];
      if Address(boundary, public).Some? { PublishIsBare(c, w.bus, m, Address(boundary, public).value); }
    }
  }

  lemma StepIsBare(v: Scene, w: World, key: string)
    requires Fair(v) && WellFormed(w.bus) && Bare(w.bus)
    ensures Bare(Next(v.c, w, Publishing(v.note, Some(key), false)).bus)
  {
    var step := Publishing(v.note, Some(key), false);
    HistoryFollows(v.c, w, step);
    if Address(Some(key), false).Some? { PublishIsBare(v.c, w.bus, v.note, key); }
  }

  // ---- the run of BusOverflow, but for one number that is lost

  function LosingAt(v: Scene, i: nat): string { if i == v.c.bound + 1 then "" else LaneAt(v, i) }

  /** The first event of lane a after its resume floor was set goes to an invalid boundary
      instead, so its number is taken and no event stored. */
  function Losing(v: Scene, n: nat): seq<Step>
    requires Fair(v)
  {
    seq(n, i requires 0 <= i < n => Publishing(v.note, Some(LosingAt(v, i)), false))
  }

  function LosingA(bound: nat, f: nat -> Event, n: nat): Lane
    requires bound + 2 <= n
  {
    Lane(Range(f, bound + 3, n + 1), map[], Some(1))
  }

  function LosingB(bound: nat, f: nat -> Event, n: nat): Lane
    requires bound + 2 <= n <= 2 * bound + 2
  {
    var i := n - bound - 2;
    Lane(Range(f, 2 + i, bound + 2), map[], if i == 0 then None else Some(1 + i))
  }

  /** The whole bus after `n` steps. */
  function LosingBus(v: Scene, n: nat): State
    requires Fair(v) && v.c.bound + 2 <= n <= 2 * v.c.bound + 2
  {
    State(map[v.a := LosingA(v.c.bound, Maker(v, v.a), n), v.b := LosingB(v.c.bound, Maker(v, v.b), n)],
          if n == v.c.bound + 2 then [v.a, v.b] else [v.b, v.a], n, map[], {}, 0)
  }

  /** The log of lane a after its floor is what the lane holds: nothing is missing. */
  ghost predicate Complete(v: Scene, w: World) {
    v.a in w.bus.lanes && After(w.log, v.a, 1) == w.bus.lanes[v.a].replay
  }

  lemma LosingAppend(v: Scene, n: nat, next: nat, key: string)
    requires Fair(v) && next == n + 1 && key == LosingAt(v, n)
    ensures Run(v.c, Losing(v, next)) == Next(v.c, Run(v.c, Losing(v, n)), Publishing(v.note, Some(key), false))
  {
    assert Losing(v, next) == Losing(v, n) + [Publishing(v.note, Some(key), false)];
    RunNext(v.c, Losing(v, n), Publishing(v.note, Some(key), false));
  }

  /** A publication to an invalid boundary only takes a number. */
  lemma NumberIsLost(c: Config, w: World, m: Message)
    requires WellFormed(w.bus) && Acceptable(m)
    ensures Next(c, w, Publishing(m, Some(""), false)) == w.(bus := w.bus.(sequence := w.bus.sequence + 1))
  {
    assert Address(Some(""), false) == Some("");
    var numbered := w.bus.(sequence := w.bus.sequence + 1);
    assert LaneOf(c, numbered, "") == BadBoundary;
    assert Next(c, w, Publishing(m, Some(""), false)) == AnnouncingTo(c, w, m, "", numbered);
  }

  /** Before the lost number lane a has had a single event. */
  lemma OneEventSoFar(v: Scene, n: nat)
    requires Fair(v) && n <= v.c.bound + 1
    ensures After(Log(v, n), v.a, 1) == []
  {
    var log := Log(v, n);
    forall i | 0 <= i < |log| ensures !(log[i].lane == v.a && log[i].event.sequence > 1) {}
    if After(log, v.a, 1) != [] {
      AfterComes(log, v.a, 1, 0);
      assert false;
    }
  }

  lemma LandLosing(bound: Bound, f: nat -> Event, g: nat -> Event, n: nat, next: nat)
    requires 2 <= bound && bound + 2 <= n <= 2 * bound + 1 && next == n + 1 && Numbered(f) && Numbered(g)
    ensures |LosingA(bound, f, n).replay| + |LosingB(bound, g, n).replay| <= bound
    ensures Lands(bound, LosingA(bound, f, n), LosingB(bound, g, n), f(n + 1), LosingA(bound, f, next),
            LosingB(bound, g, next))
  {
    var i := n - bound - 2;
    RangeAppend(f, bound + 3, n + 1);
    RangeDrop(g, 2 + i, bound + 2);
    assert Range(f, bound + 3, n + 2)[0] == f(bound + 3);
  }

  lemma LosingIsQuiet(v: Scene, n: nat)
    requires Fair(v) && v.c.bound + 2 <= n <= 2 * v.c.bound + 2
    ensures Quiet(LosingBus(v, n), v.a, v.b)
  {}

  /** A two-lane bus that nobody ever subscribed to is its lanes, their order and the number. */
  ghost predicate Is(v: Scene, s: State, k: Lane, o: Lane, order: seq<string>, n: nat) {
    s == State(map[v.a := k, v.b := o], order, n, map[], {}, 0)
  }

  lemma WholeBus(v: Scene, s: State, k: Lane, o: Lane)
    requires Bare(s) && s.lanes.Keys == {v.a, v.b} && v.a != v.b && s.lanes[v.a] == k && s.lanes[v.b] == o
    ensures Is(v, s, k, o, s.order, s.sequence)
  {
    assert s.lanes == map[v.a := k, v.b := o];
  }

  lemma LandsOnA(v: Scene, w: World, n: nat, next: nat, k: Lane, o: Lane)
    requires Fair(v) && Quiet(w.bus, v.a, v.b) && Bare(w.bus) && w.bus.sequence == n && next == n + 1
    requires |w.bus.lanes[v.a].replay| + |w.bus.lanes[v.b].replay| <= v.c.bound
    requires Lands(v.c.bound, w.bus.lanes[v.a], w.bus.lanes[v.b], Maker(v, v.a)(n + 1), k, o)
    ensures Is(v, Next(v.c, w, Publishing(v.note, Some(v.a), false)).bus, k, o, [v.b, v.a], next)
  {
    LandedA(v, w, n, k, o);
    StepIsBare(v, w, v.a);
    WholeBus(v, Next(v.c, w, Publishing(v.note, Some(v.a), false)).bus, k, o);
  }

  lemma LandsOnB(v: Scene, w: World, n: nat, k: Lane, o: Lane)
    requires Fair(v) && Quiet(w.bus, v.a, v.b) && Bare(w.bus) && w.bus.sequence == n
    requires |w.bus.lanes[v.a].replay| + |w.bus.lanes[v.b].replay| <= v.c.bound
    requires Lands(v.c.bound, w.bus.lanes[v.b], w.bus.lanes[v.a], Maker(v, v.b)(n + 1), k, o)
    ensures Is(v, Next(v.c, w, Publishing(v.note, Some(v.b), false)).bus, o, k, [v.a, v.b], n + 1)
  {
    LandedB(v, w, n, k, o);
    StepIsBare(v, w, v.b);
    WholeBus(v, Next(v.c, w, Publishing(v.note, Some(v.b), false)).bus, o, k);
  }

  lemma LosingLog(v: Scene, w: World, n: nat, p: Publication)
    requires Fair(v) && v.c.bound + 2 <= n <= 2 * v.c.bound + 1 && w.bus == LosingBus(v, n)
    requires p == Publication(v.a, Maker(v, v.a)(n + 1))
    ensures Next(v.c, w, Publishing(v.note, Some(v.a), false)).log == w.log + [p]
  {
    LosingIsQuiet(v, n);
    LandLosing(v.c.bound, Maker(v, v.a), Maker(v, v.b), n, n + 1);
    LandedA(v, w, n, LosingA(v.c.bound, Maker(v, v.a), n + 1), LosingB(v.c.bound, Maker(v, v.b), n + 1));
  }

  lemma IsLosingBus(v: Scene, s: State, n: nat)
    requires Fair(v) && v.c.bound + 2 < n <= 2 * v.c.bound + 2
    requires Is(v, s, LosingA(v.c.bound, Maker(v, v.a), n), LosingB(v.c.bound, Maker(v, v.b), n), [v.b, v.a], n)
    ensures s == LosingBus(v, n)
  {}

  lemma LosingBusStep(v: Scene, w: World, n: nat, next: nat)
    requires Fair(v) && v.c.bound + 2 <= n <= 2 * v.c.bound + 1 && next == n + 1 && w.bus == LosingBus(v, n)
    ensures Next(v.c, w, Publishing(v.note, Some(v.a), false)).bus == LosingBus(v, next)
  {
    LosingIsQuiet(v, n);
    LandLosing(v.c.bound, Maker(v, v.a), Maker(v, v.b), n, next);
    LandsOnA(v, w, n, next, LosingA(v.c.bound, Maker(v, v.a), next), LosingB(v.c.bound, Maker(v, v.b), next));
    IsLosingBus(v, Next(v.c, w, Publishing(v.note, Some(v.a), false)).bus, next);
  }

  lemma LongerLog(v: Scene, w: World, n: nat, w2: World, next: nat, p: Publication)
    requires Fair(v) && v.c.bound + 2 <= n <= 2 * v.c.bound + 1 && next == n + 1 && Complete(v, w)
    requires w.bus == LosingBus(v, n) && w2.bus == LosingBus(v, next)
    requires p == Publication(v.a, Maker(v, v.a)(n + 1)) && w2.log == w.log + [p]
    ensures Complete(v, w2)
  {
    AfterAppend(w.log, p, v.a, 1);
    RangeAppend(Maker(v, v.a), v.c.bound + 3, n + 1);
  }

  /** BusOverflow's run up to the step that differs. */
  lemma BeforeTheLoss(v: Scene, n: nat, w: World)
    requires Fair(v) && n == v.c.bound && At(v, w, n) && Bare(w.bus)
    ensures Next(v.c, w, Publishing(v.note, Some(v.b), false)).bus == LosingBus(v, n + 2).(sequence := n + 1)
  {
    var bound, f, g := v.c.bound, Maker(v, v.a), Maker(v, v.b);
    LandB(bound, f, g, n);
    LandsOnB(v, w, n, LaneB(bound, g, n + 1), LaneA(bound, f, n + 1));
    assert LaneA(bound, f, n + 1) == LosingA(bound, f, n + 2);
    assert LaneB(bound, g, n + 1) == LosingB(bound, g, n + 2);
  }

  lemma TheLoss(v: Scene, n: nat, w: World)
    requires Fair(v) && n == v.c.bound + 1 && WellFormed(w.bus)
    requires w.bus == LosingBus(v, n + 1).(sequence := n) && w.log == Log(v, n)
    ensures var w2 := Next(v.c, w, Publishing(v.note, Some(""), false));
      w2.bus == LosingBus(v, n + 1) && Complete(v, w2)
  {
    NumberIsLost(v.c, w, v.note);
    OneEventSoFar(v, n);
    assert Range(Maker(v, v.a), v.c.bound + 3, n + 2) == [];
  }

  lemma UpToTheLoss(v: Scene, n: nat, next: nat)
    requires Fair(v) && n == v.c.bound && next == n + 1
    ensures Run(v.c, Steps(v, next)).bus == LosingBus(v, n + 2).(sequence := next)
    ensures Run(v.c, Steps(v, next)).log == Log(v, next)
  {
    Reaches(v, n);
    Reaches(v, next);
    RunIsBare(v.c, Steps(v, n));
    RunStep(v, n);
    BeforeTheLoss(v, n, Run(v.c, Steps(v, n)));
  }

  lemma AfterTheLoss(v: Scene, n: nat, next: nat)
    requires Fair(v) && n == v.c.bound + 1 && next == n + 1
    ensures Run(v.c, Losing(v, next)).bus == LosingBus(v, next)
    ensures Complete(v, Run(v.c, Losing(v, next)))
  {
    assert Losing(v, n) == Steps(v, n);
    UpToTheLoss(v, n - 1, n);
    LosingAppend(v, n, next, "");
    TheLoss(v, n, Run(v.c, Losing(v, n)));
  }

  lemma LosingNext(v: Scene, n: nat, next: nat)
    requires Fair(v) && v.c.bound + 2 <= n <= 2 * v.c.bound + 1 && next == n + 1
    requires Run(v.c, Losing(v, n)).bus == LosingBus(v, n) && Complete(v, Run(v.c, Losing(v, n)))
    ensures Run(v.c, Losing(v, next)).bus == LosingBus(v, next)
    ensures Complete(v, Run(v.c, Losing(v, next)))
  {
    var p := Publication(v.a, Maker(v, v.a)(n + 1));
    NextBus(v, n, next);
    NextLog(v, n, next, p);
    LongerLog(v, Run(v.c, Losing(v, n)), n, Run(v.c, Losing(v, next)), next, p);
  }

  lemma NextBus(v: Scene, n: nat, next: nat)
    requires Fair(v) && v.c.bound + 2 <= n <= 2 * v.c.bound + 1 && next == n + 1
    requires Run(v.c, Losing(v, n)).bus == LosingBus(v, n)
    ensures Run(v.c, Losing(v, next)).bus == LosingBus(v, next)
  {
    LosingAppend(v, n, next, v.a);
    LosingBusStep(v, Run(v.c, Losing(v, n)), n, next);
  }

  lemma NextLog(v: Scene, n: nat, next: nat, p: Publication)
    requires Fair(v) && v.c.bound + 2 <= n <= 2 * v.c.bound + 1 && next == n + 1
    requires Run(v.c, Losing(v, n)).bus == LosingBus(v, n) && p == Publication(v.a, Maker(v, v.a)(n + 1))
    ensures Run(v.c, Losing(v, next)).log == Run(v.c, Losing(v, n)).log + [p]
  {
    LosingAppend(v, n, next, v.a);
    LosingLog(v, Run(v.c, Losing(v, n)), n, p);
  }

  lemma {:induction false} LosingReaches(v: Scene, n: nat)
    requires Fair(v) && v.c.bound + 2 <= n <= 2 * v.c.bound + 2
    ensures Run(v.c, Losing(v, n)).bus == LosingBus(v, n)
    ensures Complete(v, Run(v.c, Losing(v, n)))
  {
    if n == v.c.bound + 2 {
      AfterTheLoss(v, v.c.bound + 1, n);
    } else {
      var m: nat := n - 1;
      LosingReaches(v, m);
      LosingNext(v, m, n);
    }
  }

  // ---- the two runs

  lemma LandLast(bound: Bound, f: nat -> Event, g: nat -> Event, n: nat, end: nat)
    requires 2 <= bound && n == 2 * bound + 1 && end == n + 1 && Numbered(f) && Numbered(g)
    ensures |LaneA(bound, f, n).replay| + |LaneB(bound, g, n).replay| <= bound
    ensures Lands(bound, LaneA(bound, f, n), LaneB(bound, g, n), f(n + 1), LosingA(bound, f, end),
            LosingB(bound, g, end))
  {
    LandAny(bound, f, g, n);
    assert LaneA(bound, f, n + 1) == LosingA(bound, f, end);
    assert LaneB(bound, g, n + 1) == LosingB(bound, g, end);
  }

  /** The run of BusOverflow ends in the same bus. */
  lemma LastStep(v: Scene, n: nat, end: nat, w: World)
    requires Fair(v) && n == 2 * v.c.bound + 1 && end == n + 1 && At(v, w, n) && Bare(w.bus)
    ensures Next(v.c, w, Publishing(v.note, Some(v.a), false)).bus == LosingBus(v, end)
  {
    var bound, f, g := v.c.bound, Maker(v, v.a), Maker(v, v.b);
    LandLast(bound, f, g, n, end);
    LandsOnA(v, w, n, end, LosingA(bound, f, end), LosingB(bound, g, end));
    IsLosingBus(v, Next(v.c, w, Publishing(v.note, Some(v.a), false)).bus, end);
  }

  lemma OverflowEnds(v: Scene, n: nat, end: nat)
    requires Fair(v) && n == 2 * v.c.bound + 1 && end == n + 1
    ensures Run(v.c, Steps(v, end)).bus == LosingBus(v, end)
  {
    Reaches(v, n);
    RunIsBare(v.c, Steps(v, n));
    RunStep(v, n);
    LastStep(v, n, end, Run(v.c, Steps(v, n)));
  }

  ghost predicate AcceptsInFull(v: Scene, w: World)
    requires Fair(v)
  {
    && WellFormed(w.bus) && v.a in w.bus.lanes
    && w.bus.lanes[v.a].floor == Some(1)
    && Newer(w.bus.lanes[v.a].replay, 1) == After(w.log, v.a, 1)
  }

  lemma FullAt(v: Scene, w: World, n: nat)
    requires Fair(v) && n == 2 * v.c.bound + 2 && w.bus == LosingBus(v, n) && Complete(v, w)
    ensures AcceptsInFull(v, w)
  {
    LosingIsQuiet(v, n);
    RangeNumbers(Maker(v, v.a), v.c.bound + 3, n + 1);
    NewerAll(w.bus.lanes[v.a].replay, 1);
  }

  lemma SameBus(v: Scene, n: nat)
    requires Fair(v) && n == 2 * v.c.bound + 2
    ensures Run(v.c, Steps(v, n)).bus == Run(v.c, Losing(v, n)).bus
  {
    OverflowEnds(v, n - 1, n);
    LosingReaches(v, n);
  }

  lemma LosingIsFull(v: Scene, n: nat)
    requires Fair(v) && n == 2 * v.c.bound + 2
    ensures AcceptsInFull(v, Run(v.c, Losing(v, n)))
  {
    LosingReaches(v, n);
    FullAt(v, Run(v.c, Losing(v, n)), n);
  }

  /** For every bound of at least two there are two runs that leave the very same bus, lanes,
      floors and numbers alike, on which the same cursor of lane a is accepted: after the one
      its replay misses an event, after the other it is the whole log after the cursor. */
  lemma StateCannotTell(v: Scene, n: nat)
    requires Fair(v) && n == 2 * v.c.bound + 2
    ensures Run(v.c, Steps(v, n)).bus == Run(v.c, Losing(v, n)).bus
    ensures AcceptsWithGap(v, Run(v.c, Steps(v, n)))
    ensures AcceptsInFull(v, Run(v.c, Losing(v, n)))
  {
    FloorCanSkip(v);
    SameBus(v, n);
    LosingIsFull(v, n);
  }
}
