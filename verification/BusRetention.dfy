/** What the replay deques hold, in every reachable state. */
module BusRetention {
  import opened Wrappers
  import opened EventBus
  import opened BusHistory

  // ---- the log, filtered

  lemma AfterAppend(log: seq<Publication>, p: Publication, lane: string, x: nat)
    ensures After(log + [p], lane, x)
            == After(log, lane, x) + (if p.lane == lane && p.event.sequence > x then [p.event] else [])
  {
    assert (log + [p])[..|log|] == log;
  }

  ghost predicate Ascending(events: seq<Event>, low: nat, high: nat) {
    && (forall i | 0 <= i < |events| :: low < events[i].sequence <= high)
    && (forall i, j | 0 <= i < j < |events| :: events[i].sequence < events[j].sequence)
  }

  lemma {:induction false} AfterAscending(log: seq<Publication>, lane: string, x: nat)
    requires Increasing(log)
    ensures Ascending(After(log, lane, x), x, Last(log))
  {
    if log != [] {
      var front, p := log[..|log| - 1], log[|log| - 1];
      AfterAscending(front, lane, x);
      assert front != [] ==> Last(front) == log[|log| - 2].event.sequence < p.event.sequence;
    }
  }

  lemma {:induction false} AfterHolds(log: seq<Publication>, lane: string, x: nat, i: nat)
    requires i < |log| && log[i].lane == lane && log[i].event.sequence > x
    ensures exists j :: 0 <= j < |After(log, lane, x)| && After(log, lane, x)[j] == log[i].event
  {
    if i < |log| - 1 {
      AfterHolds(log[..|log| - 1], lane, x, i);
      var j :| 0 <= j < |After(log[..|log| - 1], lane, x)| && After(log[..|log| - 1], lane, x)[j] == log[i].event;
      assert After(log, lane, x)[j] == log[i].event;
    } else {
      assert After(log, lane, x)[|After(log, lane, x)| - 1] == log[i].event;
    }
  }

  lemma {:induction false} AfterComes(log: seq<Publication>, lane: string, x: nat, j: nat)
    requires j < |After(log, lane, x)|
    ensures exists i :: 0 <= i < |log| && log[i].lane == lane && log[i].event == After(log, lane, x)[j]
                     && log[i].event.sequence > x
  {
    var front, p := log[..|log| - 1], log[|log| - 1];
    if j < |After(front, lane, x)| {
      AfterComes(front, lane, x, j);
      var i :| 0 <= i < |front| && front[i].lane == lane && front[i].event == After(front, lane, x)[j]
               && front[i].event.sequence > x;
      assert log[i] == front[i];
    } else {
      assert log[|log| - 1] == p;
    }
  }

  lemma {:induction false} AfterRaise(log: seq<Publication>, lane: string, x: nat, y: nat)
    requires x <= y
    ensures After(log, lane, y) == Newer(After(log, lane, x), y)
  {
    if log != [] {
      var front, p := log[..|log| - 1], log[|log| - 1];
      AfterRaise(front, lane, x, y);
      var a := After(front, lane, x);
      if p.lane == lane && p.event.sequence > x {
        assert (a + [p.event])[..|a|] == a;
      } else {
        assert After(log, lane, x) == a;
      }
    }
  }

  lemma {:induction false} NewerAll(events: seq<Event>, y: nat)
    requires forall i | 0 <= i < |events| :: events[i].sequence > y
    ensures Newer(events, y) == events
  {
    if events != [] { NewerAll(events[..|events| - 1], y); }
  }

  lemma {:induction false} NewerRest(events: seq<Event>, low: nat, high: nat, n: nat)
    requires Ascending(events, low, high) && n < |events|
    ensures Newer(events, events[n].sequence) == events[n + 1..]
    decreases |events|
  {
    var front, last := events[..|events| - 1], events[|events| - 1];
    if n < |front| {
      NewerRest(front, low, high, n);
      assert events[n + 1..] == front[n + 1..] + [last];
    } else {
      NewerNone(front, last.sequence);
    }
  }

  lemma {:induction false} NewerNone(events: seq<Event>, y: nat)
    requires forall i | 0 <= i < |events| :: events[i].sequence <= y
    ensures Newer(events, y) == []
  {
    if events != [] { NewerNone(events[..|events| - 1], y); }
  }

  /** Raising the cut past nothing changes nothing. */
  lemma AfterSkip(log: seq<Publication>, lane: string, x: nat, y: nat)
    requires x <= y && forall i | 0 <= i < |After(log, lane, x)| :: After(log, lane, x)[i].sequence > y
    ensures After(log, lane, y) == After(log, lane, x)
  {
    AfterRaise(log, lane, x, y);
    NewerAll(After(log, lane, x), y);
  }

  /** Cutting at the oldest event drops exactly that event. */
  lemma AfterDrop(log: seq<Publication>, lane: string, x: nat)
    requires Increasing(log) && After(log, lane, x) != []
    ensures var a := After(log, lane, x); x < a[0].sequence <= Last(log) && After(log, lane, a[0].sequence) == a[1..]
  {
    AfterAscending(log, lane, x);
    var a := After(log, lane, x);
    AfterRaise(log, lane, x, a[0].sequence);
    NewerRest(a, x, Last(log), 0);
  }

  lemma {:induction false} AfterNothing(log: seq<Publication>, lane: string, x: nat)
    requires Increasing(log) && Last(log) <= x
    ensures After(log, lane, x) == []
  {
    if log != [] {
      var front := log[..|log| - 1];
      assert front != [] ==> Last(front) == log[|log| - 2].event.sequence < log[|log| - 1].event.sequence;
      AfterNothing(front, lane, x);
    }
  }

  // ---- sums

  lemma {:induction false} SumMember(order: seq<string>, sizes: map<string, nat>, k: string)
    requires k in order && forall x :: x in order ==> x in sizes
    ensures sizes[k] <= Sum(order, sizes)
  {
    var front := order[..|order| - 1];
    assert order == front + [order[|order| - 1]];
    if k in front { SumMember(front, sizes, k); }
  }

  lemma {:induction false} SumPair(order: seq<string>, sizes: map<string, nat>, k: string, l: string)
    requires k in order && l in order && k != l && forall x :: x in order ==> x in sizes
    ensures sizes[k] + sizes[l] <= Sum(order, sizes)
  {
    var front, last := order[..|order| - 1], order[|order| - 1];
    assert order == front + [last];
    if k == last { SumMember(front, sizes, l); }
    else if l == last { SumMember(front, sizes, k); }
    else { SumPair(front, sizes, k, l); }
  }

  // ---- entering a lane

  lemma EnterKeeps(c: Config, w: World, s: State, key: string)
    requires Kept(w) && WellFormed(s) && w.bus.sequence <= s.sequence
    requires s.lanes == w.bus.lanes && s.order == w.bus.order
    requires LaneOf(c, s, key).Entered?
    ensures Kept(Entering(w, LaneOf(c, s, key).state, key))
  {
    EnterIsWellFormed(c, s, key);
    var bus := LaneOf(c, s, key).state;
    var w1 := Entering(w, bus, key);
    forall k | k in bus.lanes ensures LaneKept(w1, k) {
      EnterLane(w, bus, key, k);
    }
  }

  lemma EnterLane(w: World, bus: State, key: string, k: string)
    requires Kept(w) && k in bus.lanes
    requires k in w.bus.lanes ==> bus.lanes[k] == w.bus.lanes[k]
    requires k !in w.bus.lanes ==> k == key && bus.lanes[k] == NEW_LANE
    ensures LaneKept(Entering(w, bus, key), k)
  {
    if k in w.bus.lanes {
      assert LaneKept(w, k);
    } else {
      AfterNothing(w.log, key, Max(w.horizon, Last(w.log)));
    }
  }

  lemma EnterBounds(c: Config, s: State, key: string)
    requires WellFormed(s) && |s.order| <= c.bound && LaneOf(c, s, key).Entered?
    ensures var r := LaneOf(c, s, key).state;
      && WellFormed(r) && |r.order| <= c.bound
      && ReplaySize(r) <= ReplaySize(s) && SubscriberCount(r) == SubscriberCount(s)
  {
    EnterIsWellFormed(c, s, key);
    if key in s.lanes {
      TouchBounds(s, key);
    } else if |s.order| < c.bound {
      CreateBounds(s, key);
    } else {
      EvictBounds(c, s, key);
    }
  }

  lemma CreateBounds(s: State, key: string)
    requires WellFormed(s) && key !in s.lanes
    ensures var r := s.(lanes := s.lanes[key := NEW_LANE], order := s.order + [key]);
      && (forall k :: k in r.order ==> k in r.lanes)
      && ReplaySize(r) == ReplaySize(s) && SubscriberCount(r) == SubscriberCount(s)
  {
    EnterNew(s.order, key, s.lanes, s.lanes[key := NEW_LANE]);
  }

  lemma TouchBounds(s: State, key: string)
    requires WellFormed(s) && key in s.lanes
    ensures var r := s.(order := Without(s.order, key) + [key]);
      && (forall k :: k in r.order ==> k in r.lanes) && |r.order| == |s.order|
      && ReplaySize(r) == ReplaySize(s) && SubscriberCount(r) == SubscriberCount(s)
  {
    MoveToEnd(s.order, key, Depths(s.lanes));
    MoveToEnd(s.order, key, Audiences(s.lanes));
  }

  lemma MoveToEnd(order: seq<string>, key: string, sizes: map<string, nat>)
    requires NoDup(order) && key in order && forall k :: k in order ==> k in sizes
    ensures |Without(order, key) + [key]| == |order|
    ensures forall k :: k in Without(order, key) + [key] ==> k in sizes
    ensures Sum(Without(order, key) + [key], sizes) == Sum(order, sizes)
  {
    WithoutLength(order, key);
    WithoutContents(order, key);
    SumWithout(order, sizes, key);
    SumLast(Without(order, key), key, sizes);
  }

  lemma EvictBounds(c: Config, s: State, key: string)
    requires WellFormed(s) && |s.order| <= c.bound && LaneOf(c, s, key).Entered?
    requires key !in s.lanes && |s.order| >= c.bound
    ensures var r := LaneOf(c, s, key).state;
      && WellFormed(r) && |r.order| == |s.order|
      && ReplaySize(r) <= ReplaySize(s) && SubscriberCount(r) == SubscriberCount(s)
  {
    EnterIsWellFormed(c, s, key);
    var idle := FirstIdle(s.order, s.lanes).value;
    var rest := Without(s.order, idle);
    WithoutLength(s.order, idle);
    WithoutContents(s.order, idle);
    SumWithout(s.order, Depths(s.lanes), idle);
    SumWithout(s.order, Audiences(s.lanes), idle);
    EnterNew(rest, key, s.lanes, (s.lanes - {idle})[key := NEW_LANE]);
  }

  lemma SumLast(order: seq<string>, key: string, sizes: map<string, nat>)
    requires key in sizes && forall k :: k in order ==> k in sizes
    ensures Sum(order + [key], sizes) == Sum(order, sizes) + sizes[key]
  {
    assert (order + [key])[..|order|] == order;
  }

  lemma EnterNew(order: seq<string>, key: string, before: map<string, Lane>, after: map<string, Lane>)
    requires forall k :: k in order ==> k in before && k in after && before[k] == after[k]
    requires key in after && after[key] == NEW_LANE
    ensures Sum(order + [key], Depths(after)) == Sum(order, Depths(before))
    ensures Sum(order + [key], Audiences(after)) == Sum(order, Audiences(before))
  {
    SumLast(order, key, Depths(after));
    SumLast(order, key, Audiences(after));
    SumAgrees(order, Depths(after), Depths(before));
    SumAgrees(order, Audiences(after), Audiences(before));
  }

  lemma {:induction false} WithoutLength(order: seq<string>, key: string)
    requires NoDup(order)
    ensures |Without(order, key)| == |order| - (if key in order then 1 else 0)
  {
    if order != [] {
      var front := order[..|order| - 1];
      assert order == front + [order[|order| - 1]];
      WithoutLength(front, key);
    }
  }

  // ---- storing an event

  /** Replacing one lane changes the two sums by that lane's difference. */
  lemma SetDepth(s: State, key: string, lane: Lane)
    requires WellFormed(s) && key in s.lanes
    ensures Sum(s.order, Depths(s.lanes[key := lane])) == ReplaySize(s) + |lane.replay| - |s.lanes[key].replay|
  {
    var n := |lane.replay|;
    assert Depths(s.lanes[key := lane]) == Depths(s.lanes)[key := n];
    SumUpdate(s.order, Depths(s.lanes), key, n);
  }

  lemma SetAudience(s: State, key: string, lane: Lane)
    requires WellFormed(s) && key in s.lanes
    ensures Sum(s.order, Audiences(s.lanes[key := lane]))
            == Sum(s.order, Audiences(s.lanes)) + |lane.subscribers| - |s.lanes[key].subscribers|
  {
    var n := |lane.subscribers|;
    assert Audiences(s.lanes[key := lane]) == Audiences(s.lanes)[key := n];
    SumUpdate(s.order, Audiences(s.lanes), key, n);
  }

  lemma StoreSizes(c: Config, s: State, key: string, e: Event)
    requires WellFormed(s) && key in s.lanes
    ensures WellFormed(Store(c, s, key, e)) && SubscriberCount(Store(c, s, key, e)) == SubscriberCount(s)
    ensures ReplaySize(Store(c, s, key, e))
            == ReplaySize(s) + |Append(c.bound, s.lanes[key].replay, e)| - |s.lanes[key].replay|
  {
    var lane := s.lanes[key].(replay := Append(c.bound, s.lanes[key].replay, e));
    SetDepth(s, key, lane);
    SetAudience(s, key, lane);
  }

  /** When a deque uses up the whole shared budget, every other deque is empty. */
  lemma FullIsAlone(c: Config, s: State, key: string)
    requires WellFormed(s) && key in s.lanes && ReplaySize(s) <= c.bound
    ensures |s.lanes[key].replay| <= c.bound
    ensures |s.lanes[key].replay| == c.bound ==> forall k :: k in s.lanes && k != key ==> s.lanes[k].replay == []
  {
    SumMember(s.order, Depths(s.lanes), key);
    if |s.lanes[key].replay| == c.bound {
      forall k | k in s.lanes && k != key ensures s.lanes[k].replay == [] {
        SumPair(s.order, Depths(s.lanes), key, k);
      }
    }
  }

  /** The kept invariant across the append, the horizon moving only when the deque was full. */
  lemma StoreKeeps(c: Config, w: World, key: string, e: Event)
    requires Kept(w) && ReplaySize(w.bus) <= c.bound && key in w.bus.lanes
    requires Last(w.log) < e.sequence <= w.bus.sequence
    ensures Kept(Storing(c, w, key, e))
  {
    FullIsAlone(c, w.bus, key);
    var w2 := Storing(c, w, key, e);
    HorizonMoves(c, w, key, e);
    forall k | k in w2.bus.lanes ensures LaneKept(w2, k) { StoreLane(c, w, key, e, k); }
  }

  lemma HorizonMoves(c: Config, w: World, key: string, e: Event)
    requires Kept(w) && key in w.bus.lanes && Last(w.log) < e.sequence
    ensures Storing(c, w, key, e).horizon <= e.sequence && Increasing(w.log + [Publication(key, e)])
  {
    assert LaneKept(w, key);
    AfterAscending(w.log, key, Max(w.horizon, w.born[key]));
  }

  lemma StoreLane(c: Config, w: World, key: string, e: Event, k: string)
    requires Kept(w) && ReplaySize(w.bus) <= c.bound && key in w.bus.lanes
    requires Last(w.log) < e.sequence <= w.bus.sequence
    requires k in w.bus.lanes
    ensures LaneKept(Storing(c, w, key, e), k)
  {
    var w2 := Storing(c, w, key, e);
    var p := Publication(key, e);
    var x := Max(w.horizon, w.born[k]);
    assert LaneKept(w, key) && LaneKept(w, k);
    FullIsAlone(c, w.bus, key);
    if |w.bus.lanes[key].replay| == c.bound {
      StoreFullLane(c, w, key, e, k, w2);
    } else {
      AfterAppend(w.log, p, k, x);
      if w.bus.lanes[k].floor.Some? { LostGrows(w.log, p, k, w.bus.lanes[k].floor.value, w.horizon); }
    }
  }

  lemma StoreFullLane(c: Config, w: World, key: string, e: Event, k: string, w2: World)
    requires Kept(w) && ReplaySize(w.bus) <= c.bound && key in w.bus.lanes
    requires Last(w.log) < e.sequence <= w.bus.sequence
    requires k in w.bus.lanes && LaneKept(w, key) && LaneKept(w, k)
    requires |w.bus.lanes[key].replay| == c.bound && w2 == Storing(c, w, key, e)
    ensures LaneKept(w2, k)
  {
    FullIsAlone(c, w.bus, key);
    AfterDrop(w.log, key, Max(w.horizon, w.born[key]));
    var x, y := Max(w.horizon, w.born[k]), Max(w2.horizon, w.born[k]);
    AfterAppend(w.log, Publication(key, e), k, y);
    if k != key { AfterSkip(w.log, k, x, y); }
    if w.bus.lanes[k].floor.Some? { FloorAfterOverflow(c, w, key, e, k); }
  }

  lemma LostGrows(log: seq<Publication>, p: Publication, k: string, low: nat, high: nat)
    requires high < p.event.sequence
    ensures Lost(log + [p], k, low, high) <==> Lost(log, k, low, high)
  {
    if Lost(log, k, low, high) {
      var i :| 0 <= i < |log| && log[i].lane == k && low < log[i].event.sequence <= high;
      assert (log + [p])[i] == log[i];
    }
  }

  lemma FloorAfterOverflow(c: Config, w: World, key: string, e: Event, k: string)
    requires Kept(w) && ReplaySize(w.bus) <= c.bound && key in w.bus.lanes
    requires Last(w.log) < e.sequence <= w.bus.sequence
    requires |w.bus.lanes[key].replay| == c.bound
    requires k in w.bus.lanes && w.bus.lanes[k].floor.Some?
    ensures var w2 := Storing(c, w, key, e); var f := w.bus.lanes[k].floor.value;
      k in w2.stale <==> Lost(w2.log, k, f, w2.horizon)
  {
    FullIsAlone(c, w.bus, key);
    var w2 := Storing(c, w, key, e);
    var f, h := w.bus.lanes[k].floor.value, w2.horizon;
    assert LaneKept(w, k) && LaneKept(w, key);
    AfterDrop(w.log, key, Max(w.horizon, w.born[key]));
    LostGrows(w.log, Publication(key, e), k, f, h);
    if k == key {
      AfterComes(w.log, key, Max(w.horizon, w.born[key]), 0);
    } else if Lost(w.log, k, f, h) {
      var i :| 0 <= i < |w.log| && w.log[i].lane == k && f < w.log[i].event.sequence <= h;
      if w.log[i].event.sequence > w.horizon {
        AfterHolds(w.log, k, Max(w.horizon, w.born[k]), i);
      }
    }
  }

  // ---- trimming

  /** After one publication the trimming loop runs at most once. */
  lemma TrimOnce(c: Config, s: State)
    requires WellFormed(s) && ReplaySize(s) <= c.bound + 1
    ensures var o := Oldest(s.order, s.lanes);
      Trim(c, s) == if ReplaySize(s) <= c.bound || o.None? then s else DropOldest(s, o.value)
  {
    var o := Oldest(s.order, s.lanes);
    if o.Some? { DropShrinks(s, o.value); }
  }

  lemma TrimKeeps(c: Config, w: World)
    requires Kept(w) && ReplaySize(w.bus) <= c.bound + 1
    ensures Kept(Trimming(c, w))
  {
    TrimOnce(c, w.bus);
    TrimIsWellFormed(c, w.bus);
    var o := Oldest(w.bus.order, w.bus.lanes);
    if ReplaySize(w.bus) > c.bound && o.Some? {
      var w2 := Trimming(c, w);
      assert LaneKept(w, o.value);
      AfterDrop(w.log, o.value, Max(w.horizon, w.born[o.value]));
      forall k | k in w2.bus.lanes ensures LaneKept(w2, k) { TrimLane(c, w, o.value, k); }
    }
  }

  lemma TrimLane(c: Config, w: World, o: string, k: string)
    requires Kept(w) && ReplaySize(w.bus) == c.bound + 1 && Oldest(w.bus.order, w.bus.lanes) == Some(o)
    requires k in w.bus.lanes
    ensures k in Trimming(c, w).bus.lanes && LaneKept(Trimming(c, w), k)
  {
    TrimOnce(c, w.bus);
    var h := w.bus.lanes[o].replay[0].sequence;
    DropLane(w, o, k, w.(bus := DropOldest(w.bus, o), horizon := h, stale := w.stale - {o}));
  }

  lemma DropLane(w: World, o: string, k: string, w2: World)
    requires Kept(w) && k in w.bus.lanes && o in w.bus.lanes && w.bus.lanes[o].replay != []
    requires forall l :: l in w.bus.lanes && w.bus.lanes[l].replay != [] ==>
               w.bus.lanes[o].replay[0].sequence <= w.bus.lanes[l].replay[0].sequence
    requires w2 == w.(bus := DropOldest(w.bus, o), horizon := w.bus.lanes[o].replay[0].sequence, stale := w.stale - {o})
    ensures LaneKept(w2, k)
  {
    assert LaneKept(w, o) && LaneKept(w, k);
    if k == o {
      AfterDrop(w.log, o, Max(w.horizon, w.born[o]));
    } else {
      AfterAscending(w.log, o, Max(w.horizon, w.born[o]));
      AfterAscending(w.log, k, Max(w.horizon, w.born[k]));
      assert w2.horizon > w.horizon;
      OtherHeads(w, o, k, w2.horizon);
      AfterSkip(w.log, k, Max(w.horizon, w.born[k]), Max(w2.horizon, w.born[k]));
      if w.bus.lanes[k].floor.Some? { FloorAfterTrim(w, k, w2.horizon); }
    }
  }

  /** Every event retained on another lane is newer than the oldest one. */
  lemma OtherHeads(w: World, o: string, k: string, h: nat)
    requires Kept(w) && k in w.bus.lanes && o in w.bus.lanes && w.bus.lanes[o].replay != [] && k != o
    requires h == w.bus.lanes[o].replay[0].sequence
    requires w.bus.lanes[k].replay != [] ==> h <= w.bus.lanes[k].replay[0].sequence
    ensures forall i | 0 <= i < |w.bus.lanes[k].replay| :: w.bus.lanes[k].replay[i].sequence > h
  {
    DistinctHeads(w, k, o);
    var r := w.bus.lanes[k].replay;
    forall i | 0 <= i < |r| ensures r[i].sequence > h { assert i == 0 || r[0].sequence < r[i].sequence; }
  }

  /** Heads of two lanes differ, so the oldest is strictly oldest. */
  lemma DistinctHeads(w: World, k: string, o: string)
    requires Kept(w) && k in w.bus.lanes && o in w.bus.lanes && k != o
    requires w.bus.lanes[o].replay != []
    ensures w.bus.lanes[k].replay != [] ==> w.bus.lanes[k].replay[0].sequence != w.bus.lanes[o].replay[0].sequence
    ensures forall i, j | 0 <= i < j < |w.bus.lanes[k].replay| ::
              w.bus.lanes[k].replay[i].sequence < w.bus.lanes[k].replay[j].sequence
  {
    assert LaneKept(w, k) && LaneKept(w, o);
    var x, y := Max(w.horizon, w.born[k]), Max(w.horizon, w.born[o]);
    AfterAscending(w.log, k, x);
    if w.bus.lanes[k].replay != [] {
      AfterComes(w.log, k, x, 0);
      AfterComes(w.log, o, y, 0);
    }
  }

  lemma FloorAfterTrim(w: World, k: string, h: nat)
    requires Kept(w) && k in w.bus.lanes && w.bus.lanes[k].floor.Some? && w.horizon <= h
    requires forall i | 0 <= i < |w.bus.lanes[k].replay| :: w.bus.lanes[k].replay[i].sequence > h
    ensures var f := w.bus.lanes[k].floor.value; Lost(w.log, k, f, h) <==> Lost(w.log, k, f, w.horizon)
  {
    var f := w.bus.lanes[k].floor.value;
    assert LaneKept(w, k);
    if Lost(w.log, k, f, h) {
      var i :| 0 <= i < |w.log| && w.log[i].lane == k && f < w.log[i].event.sequence <= h;
      if w.log[i].event.sequence > w.horizon {
        AfterHolds(w.log, k, Max(w.horizon, w.born[k]), i);
      }
    }
  }
}
