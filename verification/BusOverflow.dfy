/** A run on which resuming through the floor silently skips an event. */
module BusOverflow {
  import opened Wrappers
  import opened EventCursor
  import opened EventBus
  import opened BusHistory
  import opened BusRetention

  /** A bus of at least two, two boundaries, and an acceptable message to publish on them. */
  datatype Scene = Scene(c: Config, a: string, b: string, note: Message)

  predicate Fair(v: Scene) {
    && 2 <= v.c.bound && v.a != v.b
    && 0 < |v.a| <= 512 && 0 < |v.b| <= 512 && v.a != PUBLIC_LANE && v.b != PUBLIC_LANE
    && Acceptable(v.note)
  }

  /** Two lanes without subscribers. */
  ghost predicate Quiet(s: State, key: string, other: string) {
    && WellFormed(s) && key != other && s.lanes.Keys == {key, other}
    && (s.order == [key, other] || s.order == [other, key])
    && s.lanes[key].subscribers == map[] && s.lanes[other].subscribers == map[]
    && 0 < |key| <= 512
  }

  lemma QuietSize(s: State, key: string, other: string)
    requires Quiet(s, key, other)
    ensures ReplaySize(s) == |s.lanes[key].replay| + |s.lanes[other].replay|
  {
    var d := Depths(s.lanes);
    var x, y := s.order[0], s.order[1];
    assert s.order[..1] == [x] && [x][..0] == [];
    assert Sum([x], d) == d[x];
  }

  lemma QuietOldest(s: State, key: string, other: string)
    requires Quiet(s, key, other)
    requires s.lanes[key].replay != [] && s.lanes[other].replay != []
    requires s.lanes[key].replay[0].sequence != s.lanes[other].replay[0].sequence
    ensures Oldest(s.order, s.lanes)
            == Some(if s.lanes[key].replay[0].sequence < s.lanes[other].replay[0].sequence then key else other)
  {
    assert key in s.order && other in s.order;
  }

  lemma QuietTouch(c: Config, s: State, key: string, other: string)
    requires Quiet(s, key, other)
    ensures LaneOf(c, s, key) == Entered(s.(order := [other, key]))
    ensures Quiet(s.(order := [other, key]), key, other)
  {
    WithoutPair(s.order, key, other);
  }

  lemma WithoutPair(order: seq<string>, key: string, other: string)
    requires key != other && (order == [key, other] || order == [other, key])
    ensures Without(order, key) == [other] && Without(order, key) + [key] == [other, key]
  {
    var x := order[0];
    assert order[..1] == [x] && [x][..0] == [];
    assert Without([x], key) == if x == key then [] else [x];
  }

  /** The three ways one more event of `key` can land beside `other`. */
  lemma QuietSpread(c: Config, s: State, key: string, other: string, e: Event)
    requires Quiet(s, key, other) && ReplaySize(s) <= c.bound
    requires s.lanes[key].replay != [] ==> s.lanes[key].replay[0].sequence < e.sequence
    requires s.lanes[key].replay == [] || s.lanes[other].replay == []
             || s.lanes[key].replay[0].sequence != s.lanes[other].replay[0].sequence
    requires s.lanes[other].replay != [] ==> s.lanes[other].replay[0].sequence < e.sequence
    ensures var k, o := s.lanes[key], s.lanes[other];
      var t := Spread(c, s, key, e);
      var stored := Append(c.bound, k.replay, e);
      && Quiet(t, key, other) && t.sequence == s.sequence && t.order == s.order
      && (t.lanes[key], t.lanes[other]) ==
           if |stored| + |o.replay| <= c.bound then (k.(replay := stored), o)
           else if o.replay == [] || stored[0].sequence < o.replay[0].sequence
             then (Lane(stored[1..], map[], Some(stored[0].sequence)), o)
           else (k.(replay := stored), Lane(o.replay[1..], map[], Some(o.replay[0].sequence)))
  {
    QuietSize(s, key, other);
    var t := Store(c, s, key, e);
    StoreIsWellFormed(c, s, key, e);
    assert Quiet(t, key, other);
    QuietTrim(c, t, key, other);
    QuietFanOut(c, Trim(c, t), key, other, e);
  }

  lemma QuietTrim(c: Config, t: State, key: string, other: string)
    requires Quiet(t, key, other) && t.lanes[key].replay != []
    requires |t.lanes[key].replay| + |t.lanes[other].replay| <= c.bound + 1
    requires t.lanes[other].replay == [] || t.lanes[key].replay[0].sequence != t.lanes[other].replay[0].sequence
    ensures Quiet(Trim(c, t), key, other)
    ensures var k, o := t.lanes[key], t.lanes[other];
      Trim(c, t) == if |k.replay| + |o.replay| <= c.bound then t
                    else if o.replay == [] || k.replay[0].sequence < o.replay[0].sequence then DropOldest(t, key)
                    else DropOldest(t, other)
  {
    QuietSize(t, key, other);
    TrimOnce(c, t);
    QuietDrop(t, key, other);
  }

  lemma QuietDrop(t: State, key: string, other: string)
    requires Quiet(t, key, other) && t.lanes[key].replay != []
    requires t.lanes[other].replay != [] ==> t.lanes[key].replay[0].sequence != t.lanes[other].replay[0].sequence
    ensures var o := Oldest(t.order, t.lanes);
      o == Some(if t.lanes[other].replay == [] || t.lanes[key].replay[0].sequence < t.lanes[other].replay[0].sequence
                then key else other)
      && Quiet(DropOldest(t, o.value), key, other)
  {
    assert key in t.order && other in t.order;
    var o := Oldest(t.order, t.lanes);
    if t.lanes[other].replay != [] { QuietOldest(t, key, other); }
    QuietWithout(t, key, other, o.value);
  }

  lemma QuietWithout(t: State, key: string, other: string, k: string)
    requires Quiet(t, key, other) && k in t.lanes && t.lanes[k].replay != []
    ensures Quiet(DropOldest(t, k), key, other)
  {
    DropShrinks(t, k);
  }

  lemma QuietFanOut(c: Config, t: State, key: string, other: string, e: Event)
    requires Quiet(t, key, other)
    ensures FanOut(c, t, key, e).lanes == t.lanes && FanOut(c, t, key, e).queues == t.queues
    ensures FanOut(c, t, key, e) == t
  {
    var f := FanOut(c, t, key, e);
    assert f.lanes[key].subscribers == map[];
    assert f.lanes[key] == t.lanes[key];
    assert f.lanes == t.lanes;
    assert f.queues == t.queues;
  }

  // ---- the run: one event on lane a, then bound events on lane b, then bound + 1 on lane a

  function LaneAt(v: Scene, i: nat): string { if i == 0 || i > v.c.bound then v.a else v.b }

  function Steps(v: Scene, n: nat): seq<Step>
    requires Fair(v)
  {
    seq(n, i requires 0 <= i < n => Publishing(v.note, Some(LaneAt(v, i)), false))
  }

  function Made(v: Scene, key: string, sequence: nat): Event
    requires Fair(v)
  { Minted(v.c, sequence, key, v.note) }

  /** The events of one lane, by number. */
  ghost predicate Numbered(f: nat -> Event) { forall n :: f(n).sequence == n }

  function Maker(v: Scene, key: string): nat -> Event
    requires Fair(v)
  { (n: nat) => Made(v, key, n) }

  /** The events numbered from lo up to, not including, hi. */
  function Range(f: nat -> Event, lo: nat, hi: nat): seq<Event>
    requires lo <= hi
  {
    seq(hi - lo, i requires 0 <= i < hi - lo => f(lo + i))
  }

  function Log(v: Scene, n: nat): seq<Publication>
    requires Fair(v)
  {
    seq(n, i requires 0 <= i < n => Publication(LaneAt(v, i), Maker(v, LaneAt(v, i))(i + 1)))
  }

  function LaneA(bound: nat, f: nat -> Event, n: nat): Lane
    requires 1 <= n <= 2 * bound + 2
  {
    if n <= bound then Lane(Range(f, 1, 2), map[], None)
    else if n <= 2 * bound + 1 then Lane(Range(f, bound + 2, n + 1), map[], Some(1))
    else Lane(Range(f, bound + 3, n + 1), map[], Some(1))
  }

  function LaneB(bound: nat, f: nat -> Event, n: nat): Lane
    requires 2 <= n <= 2 * bound + 2
  {
    if n <= bound + 1 then Lane(Range(f, 2, n + 1), map[], None)
    else
      var i := if n <= 2 * bound + 1 then n - bound - 1 else bound;
      Lane(Range(f, 2 + i, bound + 2), map[], Some(1 + i))
  }

  ghost predicate At(v: Scene, w: World, n: nat)
    requires Fair(v)
    requires 2 <= n <= 2 * v.c.bound + 2
  {
    && w.log == Log(v, n) && w.bus.sequence == n
    && Quiet(w.bus, v.a, v.b)
    && w.bus.lanes[v.a] == LaneA(v.c.bound, Maker(v, v.a), n)
    && w.bus.lanes[v.b] == LaneB(v.c.bound, Maker(v, v.b), n)
  }

  lemma RangeAppend(f: nat -> Event, lo: nat, hi: nat)
    requires lo <= hi
    ensures Range(f, lo, hi) + [f(hi)] == Range(f, lo, hi + 1)
  {}

  lemma RangeDrop(f: nat -> Event, lo: nat, hi: nat)
    requires lo < hi && Numbered(f)
    ensures Range(f, lo, hi)[0].sequence == lo
    ensures Range(f, lo, hi)[1..] == Range(f, lo + 1, hi)
  {
    assert Range(f, lo, hi)[0] == f(lo);
  }

  lemma LogAppend(v: Scene, n: nat)
    requires Fair(v)
    ensures Log(v, n + 1) == Log(v, n) + [Publication(LaneAt(v, n), Maker(v, LaneAt(v, n))(n + 1))]
  {
    var a, b := Log(v, n), Log(v, n + 1);
    forall i | 0 <= i < n ensures b[i] == a[i] {}
  }

  lemma StepsAppend(v: Scene, n: nat)
    requires Fair(v)
    ensures Steps(v, n + 1) == Steps(v, n) + [Publishing(v.note, Some(LaneAt(v, n)), false)]
  {}

  lemma Publishes(v: Scene, w: World, key: string, r: State, n: nat)
    requires Fair(v) && n == w.bus.sequence + 1
    requires WellFormed(w.bus) && LaneOf(v.c, w.bus.(sequence := n), key) == Entered(r)
    requires WellFormed(r) && key in r.lanes && key != PUBLIC_LANE
    ensures var e := Maker(v, key)(n); var w2 := Next(v.c, w, Publishing(v.note, Some(key), false));
      w2.bus == Spread(v.c, r, key, e) && w2.log == w.log + [Publication(key, e)]
  {
    AddressedTo(v, w, key, n);
    AnnouncesAs(v, w, key, r, v.note, w.bus.(sequence := n));
    StoresAs(v, w, r, key, Minted(v.c, n, key, v.note));
  }

  lemma AddressedTo(v: Scene, w: World, key: string, n: nat)
    requires Fair(v) && n == w.bus.sequence + 1
    requires WellFormed(w.bus) && key != PUBLIC_LANE
    ensures Next(v.c, w, Publishing(v.note, Some(key), false))
            == AnnouncingTo(v.c, w, v.note, key, w.bus.(sequence := n))
  {
    ToItsLane(v.c, w, v.note, key);
    PublishingAnnounces(v.c, w, v.note, key, w.bus.(sequence := n));
  }

  lemma ToItsLane(c: Config, w: World, m: Message, key: string)
    requires WellFormed(w.bus) && key != PUBLIC_LANE
    ensures Next(c, w, Publishing(m, Some(key), false)) == PublishingTo(c, w, m, key)
  {
    assert Address(Some(key), false) == Some(key);
  }

  lemma AnnouncesAs(v: Scene, w: World, key: string, r: State, m: Message, numbered: State)
    requires Fair(v)
    requires WellFormed(numbered) && LaneOf(v.c, numbered, key) == Entered(r)
    requires WellFormed(r) && key in r.lanes && m.Message?
    ensures AnnouncingTo(v.c, w, m, key, numbered) == Announcing(v.c, w, r, key, Minted(v.c, numbered.sequence, key, m))
  {}

  lemma StoresAs(v: Scene, w: World, r: State, key: string, e: Event)
    requires Fair(v)
    requires WellFormed(r) && key in r.lanes
    ensures Announcing(v.c, w, r, key, e).bus == Spread(v.c, r, key, e)
    ensures Announcing(v.c, w, r, key, e).log == w.log + [Publication(key, e)]
  {}

  /** The three ways an event lands: it fits, its own oldest gives way, or the other's does. */
  ghost predicate Lands(bound: Bound, k: Lane, o: Lane, e: Event, k2: Lane, o2: Lane) {
    var stored := Append(bound, k.replay, e);
    && (k.replay == [] || k.replay[0].sequence < e.sequence)
    && (o.replay == [] || o.replay[0].sequence < e.sequence)
    && (k.replay == [] || o.replay == [] || k.replay[0].sequence != o.replay[0].sequence)
    && (if |stored| + |o.replay| <= bound then k2 == k.(replay := stored) && o2 == o
        else if o.replay == [] || stored[0].sequence < o.replay[0].sequence
          then k2 == Lane(stored[1..], map[], Some(stored[0].sequence)) && o2 == o
        else k2 == k.(replay := stored) && o2 == Lane(o.replay[1..], map[], Some(o.replay[0].sequence)))
  }

  /** One publication in a quiet two-lane world, given how the event lands. */
  lemma QuietStep(v: Scene, w: World, key: string, other: string, k: Lane, o: Lane)
    requires Fair(v)
    requires Quiet(w.bus, key, other) && key != PUBLIC_LANE
    requires ReplaySize(w.bus) <= v.c.bound
    requires Lands(v.c.bound, w.bus.lanes[key], w.bus.lanes[other], Maker(v, key)(w.bus.sequence + 1), k, o)
    ensures var e := Maker(v, key)(w.bus.sequence + 1); var w2 := Next(v.c, w, Publishing(v.note, Some(key), false));
      && w2.log == w.log + [Publication(key, e)] && w2.bus.sequence == w.bus.sequence + 1
      && Quiet(w2.bus, key, other) && w2.bus.lanes[key] == k && w2.bus.lanes[other] == o
      && w2.bus.order == [other, key]
  {
    var s := w.bus.(sequence := w.bus.sequence + 1);
    assert Quiet(s, key, other);
    QuietTouch(v.c, s, key, other);
    var r := s.(order := [other, key]);
    QuietSize(w.bus, key, other);
    QuietSize(r, key, other);
    Publishes(v, w, key, r, w.bus.sequence + 1);
    QuietSpread(v.c, r, key, other, Maker(v, key)(w.bus.sequence + 1));
  }

  lemma QuietSwap(s: State, key: string, other: string)
    requires Quiet(s, key, other) && 0 < |other| <= 512
    ensures Quiet(s, other, key)
  {
    assert {key, other} == {other, key};
  }

  lemma StepB(v: Scene, w: World, n: nat)
    requires Fair(v)
    requires 2 <= n <= v.c.bound && At(v, w, n)
    ensures At(v, Next(v.c, w, Publishing(v.note, Some(v.b), false)), n + 1)
  {
    LandB(v.c.bound, Maker(v, v.a), Maker(v, v.b), n);
    LandedB(v, w, n, LaneB(v.c.bound, Maker(v, v.b), n + 1), LaneA(v.c.bound, Maker(v, v.a), n + 1));
    LogAppend(v, n);
  }

  lemma LandedB(v: Scene, w: World, n: nat, k: Lane, o: Lane)
    requires Fair(v)
    requires Quiet(w.bus, v.a, v.b) && w.bus.sequence == n
    requires |w.bus.lanes[v.a].replay| + |w.bus.lanes[v.b].replay| <= v.c.bound
    requires Lands(v.c.bound, w.bus.lanes[v.b], w.bus.lanes[v.a], Maker(v, v.b)(n + 1), k, o)
    ensures var w2 := Next(v.c, w, Publishing(v.note, Some(v.b), false));
      && w2.log == w.log + [Publication(v.b, Maker(v, v.b)(n + 1))] && w2.bus.sequence == n + 1
      && Quiet(w2.bus, v.a, v.b) && w2.bus.lanes[v.b] == k && w2.bus.lanes[v.a] == o
      && w2.bus.order == [v.a, v.b]
  {
    QuietSwap(w.bus, v.a, v.b);
    QuietSize(w.bus, v.b, v.a);
    QuietStep(v, w, v.b, v.a, k, o);
    QuietSwap(Next(v.c, w, Publishing(v.note, Some(v.b), false)).bus, v.b, v.a);
  }

  lemma LandB(bound: Bound, f: nat -> Event, g: nat -> Event, n: nat)
    requires 2 <= n <= bound && Numbered(f) && Numbered(g)
    ensures |LaneA(bound, f, n).replay| + |LaneB(bound, g, n).replay| <= bound
    ensures Lands(bound, LaneB(bound, g, n), LaneA(bound, f, n), g(n + 1), LaneB(bound, g, n + 1),
            LaneA(bound, f, n + 1))
  {
    RangeAppend(g, 2, n + 1);
    RangeDrop(f, 1, 2);
    assert Range(g, 2, n + 1)[0] == g(2);
  }

  lemma StepA(v: Scene, w: World, n: nat)
    requires Fair(v) && v.c.bound < n <= 2 * v.c.bound + 1 && At(v, w, n)
    ensures At(v, Next(v.c, w, Publishing(v.note, Some(v.a), false)), n + 1)
  {
    LandAny(v.c.bound, Maker(v, v.a), Maker(v, v.b), n);
    LandedA(v, w, n, LaneA(v.c.bound, Maker(v, v.a), n + 1), LaneB(v.c.bound, Maker(v, v.b), n + 1));
    LogAppend(v, n);
  }

  lemma LandAny(bound: Bound, f: nat -> Event, g: nat -> Event, n: nat)
    requires 2 <= bound < n <= 2 * bound + 1 && Numbered(f) && Numbered(g)
    ensures |LaneA(bound, f, n).replay| + |LaneB(bound, g, n).replay| <= bound
    ensures Lands(bound, LaneA(bound, f, n), LaneB(bound, g, n), f(n + 1), LaneA(bound, f, n + 1),
            LaneB(bound, g, n + 1))
  {
    if n <= 2 * bound { LandA(bound, f, g, n); } else { LandOverflow(bound, f, g); }
  }

  lemma LandedA(v: Scene, w: World, n: nat, k: Lane, o: Lane)
    requires Fair(v)
    requires Quiet(w.bus, v.a, v.b) && w.bus.sequence == n
    requires |w.bus.lanes[v.a].replay| + |w.bus.lanes[v.b].replay| <= v.c.bound
    requires Lands(v.c.bound, w.bus.lanes[v.a], w.bus.lanes[v.b], Maker(v, v.a)(n + 1), k, o)
    ensures var w2 := Next(v.c, w, Publishing(v.note, Some(v.a), false));
      && w2.log == w.log + [Publication(v.a, Maker(v, v.a)(n + 1))] && w2.bus.sequence == n + 1
      && Quiet(w2.bus, v.a, v.b) && w2.bus.lanes[v.a] == k && w2.bus.lanes[v.b] == o
      && w2.bus.order == [v.b, v.a]
  {
    QuietSize(w.bus, v.a, v.b);
    QuietStep(v, w, v.a, v.b, k, o);
  }

  lemma LandA(bound: Bound, f: nat -> Event, g: nat -> Event, n: nat)
    requires 2 <= bound < n <= 2 * bound && Numbered(f) && Numbered(g)
    ensures Lands(bound, LaneA(bound, f, n), LaneB(bound, g, n), f(n + 1), LaneA(bound, f, n + 1),
            LaneB(bound, g, n + 1))
  {
    var i := n - bound - 1;
    RangeAppend(f, bound + 2, n + 1);
    RangeDrop(g, 2 + i, bound + 2);
    assert Range(f, bound + 2, n + 2)[0] == f(bound + 2);
    assert LaneB(bound, g, n).replay == Range(g, 2 + i, bound + 2);
    assert LaneB(bound, g, n + 1) == Lane(Range(g, 3 + i, bound + 2), map[], Some(2 + i));
  }

  lemma LandOverflow(bound: Bound, f: nat -> Event, g: nat -> Event)
    requires 2 <= bound && Numbered(f) && Numbered(g)
    ensures var n := 2 * bound + 1;
      Lands(bound, LaneA(bound, f, n), LaneB(bound, g, n), f(n + 1), LaneA(bound, f, n + 1), LaneB(bound, g, n + 1))
  {
    var n := 2 * bound + 1;
    RangeDrop(f, bound + 2, n + 1);
    RangeAppend(f, bound + 3, n + 1);
  }

  lemma FirstPublished(v: Scene, w: World)
    requires Fair(v) && w.bus == EMPTY && w.log == []
    ensures var w2 := Next(v.c, w, Publishing(v.note, Some(v.a), false));
      && w2.log == [Publication(v.a, Maker(v, v.a)(1))]
      && WellFormed(w2.bus) && w2.bus.sequence == 1 && w2.bus.order == [v.a]
      && w2.bus.lanes == map[v.a := Lane([Maker(v, v.a)(1)], map[], None)]
  {
    var r := State(map[v.a := NEW_LANE], [v.a], 1, map[], {}, 0);
    EnterAlone(v, w.bus.(sequence := 1), r);
    Publishes(v, w, v.a, r, 1);
    SpreadAlone(v, r, Maker(v, v.a)(1));
  }

  lemma EnterFresh(c: Config, s: State, key: string)
    requires WellFormed(s) && 0 < |key| <= 512 && key !in s.lanes && |s.order| < c.bound
    ensures LaneOf(c, s, key) == Entered(s.(lanes := s.lanes[key := NEW_LANE], order := s.order + [key]))
    ensures WellFormed(s.(lanes := s.lanes[key := NEW_LANE], order := s.order + [key]))
  {
    EnterIsWellFormed(c, s, key);
  }

  lemma EnterAlone(v: Scene, s: State, r: State)
    requires Fair(v) && s == EMPTY.(sequence := 1) && r == State(map[v.a := NEW_LANE], [v.a], 1, map[], {}, 0)
    ensures WellFormed(r) && WellFormed(s) && LaneOf(v.c, s, v.a) == Entered(r)
  {
    EnterFresh(v.c, s, v.a);
    assert [] + [v.a] == [v.a];
  }

  lemma FirstStep(v: Scene) returns (w: World)
    requires Fair(v)
    ensures w == Run(v.c, Steps(v, 1)) && w.log == [Publication(v.a, Maker(v, v.a)(1))]
    ensures WellFormed(w.bus) && w.bus.sequence == 1 && w.bus.order == [v.a]
    ensures w.bus.lanes == map[v.a := Lane([Maker(v, v.a)(1)], map[], None)]
  {
    RunStep(v, 0);
    assert Steps(v, 0) == [];
    FirstPublished(v, START);
    w := Run(v.c, Steps(v, 1));
  }

  lemma SpreadAlone(v: Scene, r: State, e: Event)
    requires Fair(v)
    requires r == State(map[v.a := NEW_LANE], [v.a], 1, map[], {}, 0)
    ensures WellFormed(r) && Spread(v.c, r, v.a, e) == r.(lanes := map[v.a := Lane([e], map[], None)])
  {
    var t := Store(v.c, r, v.a, e);
    assert [] + [e] == [e];
    assert t.lanes == map[v.a := Lane([e], map[], None)];
    SumLast([], v.a, Depths(t.lanes));
    assert [] + [v.a] == [v.a];
    TrimOnce(v.c, t);
    FanOutAlone(v, t, e);
  }

  lemma FanOutAlone(v: Scene, t: State, e: Event)
    requires WellFormed(t) && t.lanes == map[v.a := Lane([e], map[], None)] && t.queues == map[]
    ensures FanOut(v.c, t, v.a, e) == t
  {
    var f := FanOut(v.c, t, v.a, e);
    assert f.lanes[v.a].subscribers == map[];
    assert f.lanes == t.lanes && f.queues == t.queues;
  }

  lemma RunStep(v: Scene, n: nat)
    requires Fair(v)
    ensures Run(v.c, Steps(v, n + 1)) == Next(v.c, Run(v.c, Steps(v, n)), Publishing(v.note, Some(LaneAt(v, n)), false))
  {
    StepsAppend(v, n);
    RunNext(v.c, Steps(v, n), Publishing(v.note, Some(LaneAt(v, n)), false));
  }

  lemma SecondStep(v: Scene)
    requires Fair(v)
    ensures At(v, Run(v.c, Steps(v, 2)), 2)
  {
    var w := FirstStep(v);
    RunStep(v, 1);
    BesideAt(v, w);
  }

  lemma BesideAt(v: Scene, w: World)
    requires Fair(v) && WellFormed(w.bus) && w.bus.sequence == 1 && w.bus.order == [v.a]
    requires w.bus.lanes == map[v.a := Lane([Maker(v, v.a)(1)], map[], None)]
    requires w.log == [Publication(v.a, Maker(v, v.a)(1))]
    ensures At(v, Next(v.c, w, Publishing(v.note, Some(v.b), false)), 2)
  {
    Beside(v, w, Maker(v, v.a)(1), Maker(v, v.b)(2));
    TwoLanes(v, Next(v.c, w, Publishing(v.note, Some(v.b), false)));
  }

  lemma TwoLanes(v: Scene, w: World)
    requires Fair(v) && Quiet(w.bus, v.a, v.b) && w.bus.sequence == 2
    requires w.log == [Publication(v.a, Maker(v, v.a)(1)), Publication(v.b, Maker(v, v.b)(2))]
    requires w.bus.lanes[v.a] == Lane([Maker(v, v.a)(1)], map[], None)
    requires w.bus.lanes[v.b] == Lane([Maker(v, v.b)(2)], map[], None)
    ensures At(v, w, 2)
  {
    assert [Maker(v, v.a)(1)] == Range(Maker(v, v.a), 1, 2);
    assert [Maker(v, v.b)(2)] == Range(Maker(v, v.b), 2, 3);
    assert LaneAt(v, 0) == v.a && LaneAt(v, 1) == v.b;
    assert w.log == Log(v, 2);
  }

  lemma Beside(v: Scene, w: World, d: Event, e: Event)
    requires Fair(v)
    requires WellFormed(w.bus) && w.bus.sequence == 1 && w.bus.order == [v.a] && 2 <= v.c.bound
    requires w.bus.lanes == map[v.a := Lane([d], map[], None)]
    requires e == Maker(v, v.b)(2) && d.sequence < e.sequence
    ensures var w2 := Next(v.c, w, Publishing(v.note, Some(v.b), false));
      && w2.log == w.log + [Publication(v.b, e)] && Quiet(w2.bus, v.a, v.b) && w2.bus.sequence == 2
      && w2.bus.lanes[v.a] == Lane([d], map[], None) && w2.bus.lanes[v.b] == Lane([e], map[], None)
  {
    var s := w.bus.(sequence := 2);
    var r := s.(lanes := s.lanes[v.b := NEW_LANE], order := [v.a, v.b]);
    assert s.order + [v.b] == [v.a, v.b];
    assert LaneOf(v.c, s, v.b) == Entered(r);
    EnterIsWellFormed(v.c, s, v.b);
    Publishes(v, w, v.b, r, 2);
    BesideOne(v, r, d, e);
    QuietSwap(Spread(v.c, r, v.b, e), v.b, v.a);
  }

  lemma BesideOne(v: Scene, r: State, d: Event, e: Event)
    requires Fair(v)
    requires WellFormed(r) && r.order == [v.a, v.b] && 2 <= v.c.bound && d.sequence < e.sequence
    requires r.lanes == map[v.a := Lane([d], map[], None), v.b := NEW_LANE]
    ensures var t := Spread(v.c, r, v.b, e);
      && Quiet(t, v.b, v.a) && t.sequence == r.sequence
      && t.lanes[v.a] == Lane([d], map[], None) && t.lanes[v.b] == Lane([e], map[], None)
  {
    assert Quiet(r, v.b, v.a);
    QuietSize(r, v.b, v.a);
    QuietSpread(v.c, r, v.b, v.a, e);
    assert [] + [e] == [e];
  }

  lemma {:induction false} Reaches(v: Scene, n: nat)
    requires Fair(v) && 2 <= n <= 2 * v.c.bound + 2
    ensures At(v, Run(v.c, Steps(v, n)), n)
  {
    if n == 2 {
      SecondStep(v);
    } else {
      Reaches(v, n - 1);
      RunStep(v, n - 1);
      AnyStep(v, Run(v.c, Steps(v, n - 1)), n - 1);
    }
  }

  lemma AnyStep(v: Scene, w: World, n: nat)
    requires Fair(v) && 2 <= n <= 2 * v.c.bound + 1 && At(v, w, n)
    ensures At(v, Next(v.c, w, Publishing(v.note, Some(LaneAt(v, n)), false)), n + 1)
  {
    if n <= v.c.bound { StepB(v, w, n); } else { StepA(v, w, n); }
  }

  /** Cursor 1 of lane a is accepted, through the resume floor, although the replay misses an
      event of that lane. */
  ghost predicate AcceptsWithGap(v: Scene, w: World)
    requires Fair(v)
  {
    && WellFormed(w.bus) && v.a in w.bus.lanes
    && Resumable(v.c, w.bus, v.a, Token(v.c.stream, BoundaryId(v.c.digest, v.a), 1))
    && w.bus.lanes[v.a].floor == Some(1)
    && Newer(w.bus.lanes[v.a].replay, 1) != After(w.log, v.a, 1)
  }

  /** For every bound of at least two there is a run after which a cursor is accepted with a
      gap. */
  lemma FloorCanSkip(v: Scene)
    requires Fair(v)
    ensures AcceptsWithGap(v, Run(v.c, Steps(v, 2 * v.c.bound + 2)))
  {
    Reaches(v, 2 * v.c.bound + 2);
    GapAt(v, Run(v.c, Steps(v, 2 * v.c.bound + 2)));
  }

  lemma GapAt(v: Scene, w: World)
    requires Fair(v) && At(v, w, 2 * v.c.bound + 2)
    ensures AcceptsWithGap(v, w)
  {
    Skips(v, w);
    Accepts(v, w, Token(v.c.stream, BoundaryId(v.c.digest, v.a), 1));
  }

  lemma Accepts(v: Scene, w: World, token: Token)
    requires Fair(v) && At(v, w, 2 * v.c.bound + 2)
    requires token == Token(v.c.stream, BoundaryId(v.c.digest, v.a), 1)
    ensures WellFormed(w.bus) && v.a in w.bus.lanes && Resumable(v.c, w.bus, v.a, token)
  {
    assert w.bus.lanes[v.a].floor == Some(1);
  }

  lemma Skips(v: Scene, w: World)
    requires Fair(v) && At(v, w, 2 * v.c.bound + 2)
    ensures Newer(w.bus.lanes[v.a].replay, 1) != After(w.log, v.a, 1)
  {
    var i, replay := v.c.bound + 1, w.bus.lanes[v.a].replay;
    LogAt(v, w.log, i);
    AfterHolds(w.log, v.a, 1, i);
    RangeNumbers(Maker(v, v.a), v.c.bound + 3, 2 * v.c.bound + 3);
    NewerAll(replay, 1);
    AllLater(replay, After(w.log, v.a, 1), w.log[i].event);
  }

  lemma AllLater(events: seq<Event>, others: seq<Event>, e: Event)
    requires e in others && forall i | 0 <= i < |events| :: events[i].sequence > e.sequence
    ensures events != others
  {
  }

  lemma LogAt(v: Scene, log: seq<Publication>, i: nat)
    requires Fair(v) && log == Log(v, 2 * v.c.bound + 2) && v.c.bound < i < |log|
    ensures log[i].lane == v.a && log[i].event.sequence == i + 1
  {
  }

  lemma RangeNumbers(f: nat -> Event, lo: nat, hi: nat)
    requires lo <= hi && Numbered(f)
    ensures forall i | 0 <= i < hi - lo :: Range(f, lo, hi)[i].sequence == lo + i
  {}
}
