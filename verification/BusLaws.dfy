/** The laws of the event bus, over whole runs. */
module BusLaws {
  import opened Wrappers
  import opened EventBus
  import EventCursor
  import opened BusHistory
  import opened BusRetention
  import opened BusDelivery

  // ---- steps that leave the deques alone

  /** A step that touches no deque, adds no subscriber and respects the queue bound. */
  ghost predicate Shrinks(c: Config, s: State, t: State) {
    && t.order == s.order && t.lanes.Keys == s.lanes.Keys && t.legacy <= s.legacy && s.sequence <= t.sequence
    && (forall k :: k in s.lanes ==> LaneShrinks(s.lanes[k], t.lanes[k]))
    && QueuesBounded(c, t)
  }

  ghost predicate QueuesBounded(c: Config, s: State) {
    forall q :: q in s.queues ==> |s.queues[q]| <= c.bound
  }

  ghost predicate LaneShrinks(before: Lane, after: Lane) {
    after.replay == before.replay && after.floor == before.floor && after.subscribers.Keys <= before.subscribers.Keys
  }

  lemma ShrinkKeeps(c: Config, w: World, w2: World)
    requires Kept(w) && StaleIsFull(c, w) && Bounded(c, w.bus)
    requires WellFormed(w2.bus) && Shrinks(c, w.bus, w2.bus)
    requires w2.log == w.log && w2.born == w.born && w2.horizon == w.horizon && w2.stale == w.stale
    ensures Kept(w2) && StaleIsFull(c, w2) && Bounded(c, w2.bus)
  {
    forall k | k in w2.bus.lanes ensures LaneKept(w2, k) { assert LaneKept(w, k); }
    SameDepths(w.bus, w2.bus);
    FewerSubscribers(w.bus.order, w2.bus.lanes, w.bus.lanes);
    SubsetSize(w2.bus.legacy, w.bus.legacy);
  }

  lemma SameDepths(s: State, t: State)
    requires WellFormed(s) && WellFormed(t) && t.order == s.order
    requires forall k :: k in s.lanes ==> k in t.lanes && t.lanes[k].replay == s.lanes[k].replay
    ensures ReplaySize(t) == ReplaySize(s)
  {
    SumAgrees(s.order, Depths(t.lanes), Depths(s.lanes));
  }

  lemma {:induction false} FewerSubscribers(order: seq<string>, a: map<string, Lane>, b: map<string, Lane>)
    requires forall k :: k in order ==> k in a && k in b && a[k].subscribers.Keys <= b[k].subscribers.Keys
    ensures Sum(order, Audiences(a)) <= Sum(order, Audiences(b))
  {
    if order != [] {
      var k := order[|order| - 1];
      FewerSubscribers(order[..|order| - 1], a, b);
      SubsetSize(a[k].subscribers.Keys, b[k].subscribers.Keys);
    }
  }

  lemma FanOutShrinks(c: Config, s: State, key: string, e: Event)
    requires WellFormed(s) && Bounded(c, s) && key in s.lanes
    ensures Shrinks(c, s, FanOut(c, s, key, e))
  {
    var t := FanOut(c, s, key, e);
    forall q | q in t.queues ensures |t.queues[q]| <= c.bound { assert |s.queues[q]| <= c.bound; }
    forall k | k in s.lanes ensures LaneShrinks(s.lanes[k], t.lanes[k]) {
      if k != key { assert t.lanes[k] == s.lanes[k]; }
    }
  }

  lemma ResetShrinks(c: Config, s: State, reason: string, key: string)
    requires QueuesBounded(c, s)
    ensures Shrinks(c, s, ResetStreams(s, reason, key))
  {
    var t := ResetStreams(s, reason, key);
    forall k | k in s.lanes ensures k in t.lanes && LaneShrinks(s.lanes[k], t.lanes[k]) {}
  }

  // ---- publishing

  /** The intermediate worlds of one publication, named so that each fact about them is
      a lemma of its own: entered, stored, trimmed. */
  ghost predicate Stages(c: Config, w: World, r: State, key: string, e: Event, w1: World, w2: World, w3: World) {
    && WellFormed(w.bus) && LaneOf(c, w.bus.(sequence := w.bus.sequence + 1), key) == Entered(r)
    && e.sequence == w.bus.sequence + 1
    && w1 == Entering(w, r, key)
    && key in r.lanes && w2 == Storing(c, w1, key, e)
    && WellFormed(w2.bus) && w3 == Trimming(c, w2)
  }

  lemma EnteredGood(c: Config, w: World, r: State, key: string, e: Event, w1: World, w2: World, w3: World)
    requires Good(c, w) && Stages(c, w, r, key, e, w1, w2, w3)
    ensures Kept(w1) && StaleIsFull(c, w1)
    ensures w1.log == w.log && w1.subs == w.subs && w1.bus.sequence == e.sequence
  {
    var numbered := w.bus.(sequence := w.bus.sequence + 1);
    EnterNumbered(c, w, numbered, key);
    EnterKeepsSequence(c, numbered, key);
  }

  lemma EnterNumbered(c: Config, w: World, numbered: State, key: string)
    requires Kept(w) && StaleIsFull(c, w) && numbered == w.bus.(sequence := w.bus.sequence + 1)
    requires WellFormed(numbered) && LaneOf(c, numbered, key).Entered?
    ensures Kept(Entering(w, LaneOf(c, numbered, key).state, key))
    ensures StaleIsFull(c, Entering(w, LaneOf(c, numbered, key).state, key))
  {
    EnterKeeps(c, w, numbered, key);
    EnterStale(c, w, numbered, key);
  }

  lemma EnterStale(c: Config, w: World, s: State, key: string)
    requires StaleIsFull(c, w) && WellFormed(s) && s.lanes == w.bus.lanes && LaneOf(c, s, key).Entered?
    ensures StaleIsFull(c, Entering(w, LaneOf(c, s, key).state, key))
  {}

  lemma EnteredBounds(c: Config, w: World, r: State, key: string, e: Event, w1: World, w2: World, w3: World)
    requires Good(c, w) && Stages(c, w, r, key, e, w1, w2, w3)
    ensures WellFormed(w1.bus) && |w1.bus.order| <= c.bound && ReplaySize(w1.bus) <= c.bound
    ensures SubscriberCount(w1.bus) == SubscriberCount(w.bus)
  {
    EnterBounds(c, w.bus.(sequence := w.bus.sequence + 1), key);
  }

  lemma TrimmedGood(c: Config, w: World, r: State, key: string, e: Event, w1: World, w2: World, w3: World)
    requires Good(c, w) && Stages(c, w, r, key, e, w1, w2, w3)
    ensures Kept(w3) && StaleIsFull(c, w3) && key in w3.bus.lanes
    ensures |w3.bus.order| <= c.bound && ReplaySize(w3.bus) <= c.bound
    ensures SubscriberCount(w3.bus) == SubscriberCount(w.bus) && SameAudience(w.bus, w3.bus)
    ensures w3.log == w.log + [Publication(key, e)] && w3.subs == w.subs
  {
    EnteredGood(c, w, r, key, e, w1, w2, w3);
    EnteredBounds(c, w, r, key, e, w1, w2, w3);
    EnterAudience(c, w.bus.(sequence := w.bus.sequence + 1), key);
    StoreKeeps(c, w1, key, e);
    StoreSizes(c, w1.bus, key, e);
    FullIsAlone(c, w1.bus, key);
    StoredStale(c, w1, key, e, w2, w3);
    TrimKeeps(c, w2);
    TrimmedBounds(c, w1, key, e, w2, w3);
    TrimmedAudience(c, w1, key, e, w2, w3);
  }

  lemma TrimmedAudience(c: Config, w1: World, key: string, e: Event, w2: World, w3: World)
    requires WellFormed(w1.bus) && key in w1.bus.lanes && w2 == Storing(c, w1, key, e)
    requires WellFormed(w2.bus) && w3 == Trimming(c, w2)
    ensures SameAudience(w1.bus, w3.bus) && key in w3.bus.lanes
  {
    TrimAudience(c, w2.bus);
    StoreAudience(c, w1.bus, key, e);
    SubscribersAlone(w1.bus, w3.bus);
  }

  lemma StoreAudience(c: Config, s: State, key: string, e: Event)
    requires key in s.lanes
    ensures var t := Store(c, s, key, e);
      t.queues == s.queues && t.lanes.Keys == s.lanes.Keys
      && forall k :: k in s.lanes ==> t.lanes[k].subscribers == s.lanes[k].subscribers
  {}

  lemma SubscribersAlone(s: State, t: State)
    requires t.queues == s.queues && t.lanes.Keys == s.lanes.Keys
    requires forall k :: k in s.lanes ==> t.lanes[k].subscribers == s.lanes[k].subscribers
    ensures SameAudience(s, t)
  {}

  lemma TrimmedBounds(c: Config, w1: World, key: string, e: Event, w2: World, w3: World)
    requires WellFormed(w1.bus) && key in w1.bus.lanes && w2 == Storing(c, w1, key, e)
    requires WellFormed(w2.bus) && w3 == Trimming(c, w2)
    ensures WellFormed(w3.bus) && w3.bus.order == w1.bus.order && ReplaySize(w3.bus) <= c.bound
    ensures SubscriberCount(w3.bus) == SubscriberCount(w1.bus)
  {
    TrimIsWellFormed(c, w2.bus);
    StoreSizes(c, w1.bus, key, e);
    TrimSubscribers(c, w2.bus);
  }

  lemma TrimSubscribers(c: Config, s: State)
    requires WellFormed(s)
    ensures WellFormed(Trim(c, s)) && SubscriberCount(Trim(c, s)) == SubscriberCount(s)
  {
    TrimIsWellFormed(c, s);
    TrimAudience(c, s);
    SameLegacy(c, s);
    SumAgrees(s.order, Audiences(Trim(c, s).lanes), Audiences(s.lanes));
  }

  /** Appending to a full deque: the budget stays met, and the lane is full and stale. */
  lemma StoredFull(c: Config, w: World, key: string, e: Event, w2: World, w3: World)
    requires Kept(w) && StaleIsFull(c, w) && ReplaySize(w.bus) <= c.bound && key in w.bus.lanes
    requires w2 == Storing(c, w, key, e) && WellFormed(w2.bus) && w3 == Trimming(c, w2)
    requires |w.bus.lanes[key].replay| == c.bound
    ensures StaleIsFull(c, w3)
  {
    StoreSizes(c, w.bus, key, e);
    TrimOnce(c, w2.bus);
    assert w3.bus == w2.bus && w3.stale == w.stale + {key};
  }

  /** Appending below the bound: a lane that was stale before gives way and is fresh again. */
  lemma StoredBelow(c: Config, w: World, key: string, e: Event, w2: World, w3: World, k: string)
    requires Kept(w) && StaleIsFull(c, w) && ReplaySize(w.bus) <= c.bound && key in w.bus.lanes
    requires Last(w.log) < e.sequence <= w.bus.sequence
    requires w2 == Storing(c, w, key, e) && WellFormed(w2.bus) && w3 == Trimming(c, w2)
    requires |w.bus.lanes[key].replay| < c.bound && k in w.bus.lanes
    ensures k !in w3.stale
  {
    if k in w.stale {
      StaleGivesWay(c, w, key, e, k);
    }
  }

  lemma StoredStale(c: Config, w: World, key: string, e: Event, w2: World, w3: World)
    requires Kept(w) && StaleIsFull(c, w) && ReplaySize(w.bus) <= c.bound && key in w.bus.lanes
    requires Last(w.log) < e.sequence <= w.bus.sequence
    requires w2 == Storing(c, w, key, e) && WellFormed(w2.bus) && w3 == Trimming(c, w2)
    ensures StaleIsFull(c, w3)
  {
    FullIsAlone(c, w.bus, key);
    if |w.bus.lanes[key].replay| < c.bound {
      TrimIsWellFormed(c, w2.bus);
      forall k | k in w3.stale && k in w3.bus.lanes ensures false {
        StoredBelow(c, w, key, e, w2, w3, k);
      }
    } else {
      StoredFull(c, w, key, e, w2, w3);
    }
  }

  /** A stale lane fills the whole budget, so the next event of another lane trims it and
      thereby sets a fresh resume floor. */
  lemma StaleGivesWay(c: Config, w: World, key: string, e: Event, k: string)
    requires Kept(w) && StaleIsFull(c, w) && ReplaySize(w.bus) <= c.bound && key in w.bus.lanes
    requires Last(w.log) < e.sequence <= w.bus.sequence
    requires |w.bus.lanes[key].replay| < c.bound && k in w.stale && k in w.bus.lanes
    ensures WellFormed(Storing(c, w, key, e).bus)
    ensures ReplaySize(Storing(c, w, key, e).bus) > c.bound
    ensures Oldest(Storing(c, w, key, e).bus.order, Storing(c, w, key, e).bus.lanes) == Some(k)
  {
    StoreSizes(c, w.bus, key, e);
    FullIsAlone(c, w.bus, k);
    SumMember(w.bus.order, Depths(w.bus.lanes), k);
    assert LaneKept(w, k);
    AfterAscending(w.log, k, Max(w.horizon, w.born[k]));
    OnlyOlder(c, w.bus, key, e, k, Storing(c, w, key, e).bus);
  }

  lemma OnlyOlder(c: Config, s: State, key: string, e: Event, k: string, t: State)
    requires WellFormed(s) && key in s.lanes && k in s.lanes && k != key && WellFormed(t) && t == Store(c, s, key, e)
    requires s.lanes[k].replay != [] && s.lanes[k].replay[0].sequence < e.sequence
    requires forall l :: l in s.lanes && l != k ==> s.lanes[l].replay == []
    ensures Oldest(t.order, t.lanes) == Some(k)
  {
    var o := Oldest(t.order, t.lanes);
    assert t.lanes[key].replay == [e];
    assert k in t.order;
    assert o.Some?;
  }

  lemma FannedGood(c: Config, w: World, r: State, key: string, e: Event, w1: World, w2: World, w3: World, w4: World)
    requires Good(c, w) && Stages(c, w, r, key, e, w1, w2, w3)
    requires WellFormed(w3.bus) && key in w3.bus.lanes && w4 == w3.(bus := FanOut(c, w3.bus, key, e))
    ensures Good(c, w4)
  {
    TrimmedGood(c, w, r, key, e, w1, w2, w3);
    FannedKeeps(c, w3, key, e, w4);
    FanOutDelivers(c, w, w3.bus, key, e, w4);
  }

  lemma FannedKeeps(c: Config, w3: World, key: string, e: Event, w4: World)
    requires Kept(w3) && StaleIsFull(c, w3) && Bounded(c, w3.bus)
    requires key in w3.bus.lanes && w4 == w3.(bus := FanOut(c, w3.bus, key, e))
    ensures Kept(w4) && StaleIsFull(c, w4) && Bounded(c, w4.bus)
  {
    FanOutIsWellFormed(c, w3.bus, key, e);
    FanOutShrinks(c, w3.bus, key, e);
    ShrinkKeeps(c, w3, w4);
  }

  lemma PublishGood(c: Config, w: World, m: Message, key: string)
    requires Good(c, w)
    ensures Good(c, PublishingTo(c, w, m, key))
  {
    if !Acceptable(m) {
      FailureGood(c, w, "producer failure", key);
    } else {
      var numbered := w.bus.(sequence := w.bus.sequence + 1);
      EnterIsWellFormed(c, numbered, key);
      match LaneOf(c, numbered, key)
      case Entered(r) => AnnouncedGood(c, w, r, key, Minted(c, numbered.sequence, key, m));
      case _ => NumberedGood(c, w);
    }
  }

  lemma NumberedGood(c: Config, w: World)
    requires Good(c, w)
    ensures Good(c, w.(bus := w.bus.(sequence := w.bus.sequence + 1)))
  {
    var w2 := w.(bus := w.bus.(sequence := w.bus.sequence + 1));
    ShrinkKeeps(c, w, w2);
    AudienceKept(w, w2);
  }

  lemma AnnouncedGood(c: Config, w: World, r: State, key: string, e: Event)
    requires Good(c, w) && LaneOf(c, w.bus.(sequence := w.bus.sequence + 1), key) == Entered(r)
    requires e.sequence == w.bus.sequence + 1 && WellFormed(r) && key in r.lanes
    ensures Good(c, Announcing(c, w, r, key, e))
  {
    var w1 := Entering(w, r, key);
    var w2 := Storing(c, w1, key, e);
    assert WellFormed(w2.bus) by { StoreSizes(c, r, key, e); }
    var w3 := Trimming(c, w2);
    assert WellFormed(w3.bus) && key in w3.bus.lanes by { TrimIsWellFormed(c, w2.bus); }
    FannedGood(c, w, r, key, e, w1, w2, w3, Announcing(c, w, r, key, e));
  }

  lemma FailureGood(c: Config, w: World, reason: string, key: string)
    requires Good(c, w)
    ensures Good(c, w.(bus := ResetStreams(w.bus, reason, key)))
  {
    ResetDelivers(w, reason, key);
    FailureKeeps(c, w, reason, key);
  }

  lemma FailureKeeps(c: Config, w: World, reason: string, key: string)
    requires Kept(w) && StaleIsFull(c, w) && Bounded(c, w.bus)
    ensures var w2 := w.(bus := ResetStreams(w.bus, reason, key)); Kept(w2) && StaleIsFull(c, w2) && Bounded(c, w2.bus)
  {
    ResetIsWellFormed(w.bus, reason, key);
    ResetShrinks(c, w.bus, reason, key);
    ShrinkKeeps(c, w, w.(bus := ResetStreams(w.bus, reason, key)));
  }

  lemma {:induction false} SameLegacy(c: Config, s: State)
    requires WellFormed(s)
    ensures Trim(c, s).legacy == s.legacy && Trim(c, s).sequence == s.sequence
    decreases ReplaySize(s)
  {
    var oldest := Oldest(s.order, s.lanes);
    if ReplaySize(s) > c.bound && oldest.Some? {
      DropShrinks(s, oldest.value);
      SameLegacy(c, DropOldest(s, oldest.value));
    }
  }

  // ---- opening

  /** What a resumable cursor's replay is worth: it is the whole log after the cursor exactly
      when the cursor is still in the deque or the lane has not gone stale. */
  lemma ResumeIsGapless(c: Config, w: World, boundary: string, token: EventCursor.Token)
    requires Kept(w) && boundary in w.bus.lanes && Resumable(c, w.bus, boundary, token)
    ensures token.sequence <= Last(w.log)
    ensures Newer(w.bus.lanes[boundary].replay, token.sequence) == After(w.log, boundary, token.sequence)
            <==> InReplay(w.bus.lanes[boundary], token.sequence) || boundary !in w.stale
  {
    assert LaneKept(w, boundary);
    var lane, n := w.bus.lanes[boundary], token.sequence;
    var x := Max(w.horizon, w.born[boundary]);
    AfterAscending(w.log, boundary, x);
    if InReplay(lane, n) {
      AfterRaise(w.log, boundary, x, n);
    } else {
      NewerAll(lane.replay, n);
      if boundary in w.stale {
        StaleHasGap(w, boundary, n);
      } else {
        assert forall i | 0 <= i < |After(w.log, boundary, n)| :: After(w.log, boundary, n)[i].sequence > x by {
          NothingLost(w, boundary, n);
        }
        AfterSkip(w.log, boundary, n, x);
      }
    }
  }

  lemma StaleHasGap(w: World, boundary: string, n: nat)
    requires Kept(w) && boundary in w.bus.lanes && LaneKept(w, boundary) && boundary in w.stale
    requires w.bus.lanes[boundary].floor == Some(n)
    ensures w.bus.lanes[boundary].replay != After(w.log, boundary, n)
  {
    var i :| 0 <= i < |w.log| && w.log[i].lane == boundary && n < w.log[i].event.sequence <= w.horizon;
    AfterHolds(w.log, boundary, n, i);
    AfterAscending(w.log, boundary, Max(w.horizon, w.born[boundary]));
  }

  lemma NothingLost(w: World, boundary: string, n: nat)
    requires Kept(w) && boundary in w.bus.lanes && LaneKept(w, boundary) && boundary !in w.stale
    requires w.bus.lanes[boundary].floor == Some(n)
    ensures forall j | 0 <= j < |After(w.log, boundary, n)| ::
              After(w.log, boundary, n)[j].sequence > Max(w.horizon, w.born[boundary])
  {
    forall j | 0 <= j < |After(w.log, boundary, n)|
      ensures After(w.log, boundary, n)[j].sequence > Max(w.horizon, w.born[boundary])
    {
      AfterComes(w.log, boundary, n, j);
    }
  }

  lemma OpenGood(c: Config, w: World, cursor: Cursor, topics: set<string>, boundary: string)
    requires Good(c, w)
    ensures Good(c, Next(c, w, Opening(cursor, topics, boundary)))
  {
    var entered := LaneOf(c, w.bus, boundary);
    if entered.Entered? {
      EnterIsWellFormed(c, w.bus, boundary);
      EnterGood(c, w, boundary);
      AttachGood(c, Entering(w, entered.state, boundary), cursor, topics, boundary);
    }
  }

  lemma EnterGood(c: Config, w: World, boundary: string)
    requires Good(c, w) && LaneOf(c, w.bus, boundary).Entered?
    ensures Good(c, Entering(w, LaneOf(c, w.bus, boundary).state, boundary))
  {
    var w1 := Entering(w, LaneOf(c, w.bus, boundary).state, boundary);
    EnterIsWellFormed(c, w.bus, boundary);
    EnterKeeps(c, w, w.bus, boundary);
    EnterStale(c, w, w.bus, boundary);
    EnterBounds(c, w.bus, boundary);
    EnterAudience(c, w.bus, boundary);
    AudienceKept(w, w1);
  }

  lemma AttachGood(c: Config, w: World, cursor: Cursor, topics: set<string>, boundary: string)
    requires Good(c, w) && boundary in w.bus.lanes
    ensures Good(c, Attaching(c, w, cursor, topics, boundary))
  {
    var (s, result) := Attach(c, w.bus, cursor, topics, boundary);
    if result.Opened? {
      AttachIsWellFormed(c, w.bus, cursor, topics, boundary);
      var b := Recorded(w, cursor, topics, boundary, result.replay);
      RecordedStart(c, w, cursor, topics, boundary, result.replay);
      JoinBounds(c, w.bus, s, topics, boundary);
      JoinKeeps(c, w, w.(bus := s, subs := w.subs[result.queue := b]), topics, boundary);
      JoinDelivers(c, w, s, topics, boundary, b);
    }
  }

  /** Adding the next queue, empty, to one lane's subscribers. */
  ghost predicate Joins(c: Config, s: State, t: State, topics: set<string>, boundary: string) {
    && boundary in s.lanes && WellFormed(s) && SubscriberCount(s) < c.bound
    && t == Join(s, topics, boundary)
  }

  lemma JoinIsWellFormed(c: Config, s: State, t: State, topics: set<string>, boundary: string)
    requires Joins(c, s, t, topics, boundary)
    ensures WellFormed(t) && t.lanes.Keys == s.lanes.Keys
    ensures s.nextQueue !in s.lanes[boundary].subscribers
  {
    assert forall p :: p in s.lanes[boundary].subscribers ==> p in s.queues;
  }

  lemma JoinBounds(c: Config, s: State, t: State, topics: set<string>, boundary: string)
    requires Joins(c, s, t, topics, boundary) && Bounded(c, s)
    ensures WellFormed(t) && Bounded(c, t)
  {
    JoinIsWellFormed(c, s, t, topics, boundary);
    JoinSizes(c, s, t, topics, boundary);
    forall q | q in t.queues ensures |t.queues[q]| <= c.bound {
      if q in s.queues { assert |s.queues[q]| <= c.bound; }
    }
  }

  lemma JoinSizes(c: Config, s: State, t: State, topics: set<string>, boundary: string)
    requires Joins(c, s, t, topics, boundary) && WellFormed(t)
    ensures ReplaySize(t) == ReplaySize(s) && SubscriberCount(t) <= SubscriberCount(s) + 1
  {
    SetDepth(s, boundary, t.lanes[boundary]);
    SetAudience(s, boundary, t.lanes[boundary]);
    var subs, q := s.lanes[boundary].subscribers, s.nextQueue;
    assert subs[q := topics].Keys == subs.Keys + {q};
  }

  lemma JoinKeeps(c: Config, w: World, w2: World, topics: set<string>, boundary: string)
    requires Kept(w) && StaleIsFull(c, w) && Joins(c, w.bus, w2.bus, topics, boundary)
    requires w2.log == w.log && w2.born == w.born && w2.horizon == w.horizon && w2.stale == w.stale
    ensures Kept(w2) && StaleIsFull(c, w2)
  {
    JoinIsWellFormed(c, w.bus, w2.bus, topics, boundary);
    forall k | k in w2.bus.lanes ensures LaneKept(w2, k) { assert LaneKept(w, k); }
  }

  /** A resumed subscription starts where its cursor points, unless its lane had gone stale. */
  lemma RecordedStart(c: Config, w: World, cursor: Cursor, topics: set<string>, boundary: string, replay: seq<Event>)
    requires Good(c, w) && boundary in w.bus.lanes && Attach(c, w.bus, cursor, topics, boundary).1.Opened?
    requires replay == Attach(c, w.bus, cursor, topics, boundary).1.replay
    ensures var b := Recorded(w, cursor, topics, boundary, replay);
      b.from <= b.since == Last(w.log) && (b.complete ==> Wanted(w.log, boundary, b.from, topics) == replay)
  {
    if cursor.Decoded? {
      ResumeIsGapless(c, w, boundary, cursor.token);
    } else {
      WantedNothing(w.log, boundary, Last(w.log), topics);
    }
  }

  lemma JoinDelivers(c: Config, w: World, t: State, topics: set<string>, boundary: string, b: Subscription)
    requires Good(c, w) && Joins(c, w.bus, t, topics, boundary) && WellFormed(t)
    requires b.lane == boundary && b.topics == topics && b.from <= b.since == Last(w.log) && b.taken == []
    requires b.complete ==> Wanted(w.log, boundary, b.from, topics) == b.replay
    ensures Delivered(w.(bus := t, subs := w.subs[w.bus.nextQueue := b]))
  {
    var q := w.bus.nextQueue;
    var w2 := w.(bus := t, subs := w.subs[q := b]);
    JoinEnrolls(c, w, t, topics, boundary, b);
    forall p | p in w2.subs ensures Served(w2, p) {
      if p == q { JoinServes(c, w, t, topics, boundary, b); } else { JoinSpares(c, w, t, topics, boundary, b, p); }
    }
  }

  lemma JoinEnrolls(c: Config, w: World, t: State, topics: set<string>, boundary: string, b: Subscription)
    requires Enrolled(w) && Joins(c, w.bus, t, topics, boundary) && b.lane == boundary && b.topics == topics
    ensures Enrolled(w.(bus := t, subs := w.subs[w.bus.nextQueue := b]))
  {
    var q := w.bus.nextQueue;
    var w2 := w.(bus := t, subs := w.subs[q := b]);
    assert w2.subs.Keys == t.queues.Keys;
    forall k, p | k in t.lanes && p in t.lanes[k].subscribers
      ensures p in w2.subs && w2.subs[p].lane == k && w2.subs[p].topics == t.lanes[k].subscribers[p]
    {
      JoinedMember(c, w.bus, t, topics, boundary, k, p);
    }
  }

  lemma JoinedMember(c: Config, s: State, t: State, topics: set<string>, boundary: string, k: string, p: nat)
    requires Joins(c, s, t, topics, boundary) && k in t.lanes && p in t.lanes[k].subscribers
    ensures if p == s.nextQueue then k == boundary && t.lanes[k].subscribers[p] == topics
            else k in s.lanes && p in s.lanes[k].subscribers && s.lanes[k].subscribers[p] == t.lanes[k].subscribers[p]
  {
    assert s.nextQueue !in s.queues;
  }

  lemma JoinSpares(c: Config, w: World, t: State, topics: set<string>, boundary: string, b: Subscription, p: nat)
    requires Delivered(w) && Joins(c, w.bus, t, topics, boundary) && p in w.subs && p != w.bus.nextQueue
    ensures p in t.queues && Served(w.(bus := t, subs := w.subs[w.bus.nextQueue := b]), p)
  {
    StillServed(w, w.(bus := t, subs := w.subs[w.bus.nextQueue := b]), p);
  }

  lemma JoinServes(c: Config, w: World, t: State, topics: set<string>, boundary: string, b: Subscription)
    requires Increasing(w.log) && Joins(c, w.bus, t, topics, boundary) && WellFormed(t)
    requires b.lane == boundary && b.topics == topics && b.from <= b.since == Last(w.log) && b.taken == []
    requires b.complete ==> Wanted(w.log, boundary, b.from, topics) == b.replay
    ensures w.bus.nextQueue in t.queues
    ensures Served(w.(bus := t, subs := w.subs[w.bus.nextQueue := b]), w.bus.nextQueue)
  {
    WantedNothing(w.log, boundary, b.since, topics);
    assert b.replay + [] == b.replay;
  }

  // ---- every step, every run

  lemma NextGood(c: Config, w: World, step: Step)
    requires Good(c, w)
    ensures Good(c, Next(c, w, step))
  {
    match step
    case Publishing(m, boundary, public) =>
      if Address(boundary, public).Some? { PublishGood(c, w, m, Address(boundary, public).value); }
    case Opening(cursor, topics, boundary) => OpenGood(c, w, cursor, topics, boundary);
    case Closing(queue, boundary) => CloseGood(c, w, queue, boundary);
    case Taking(queue) => TakeGood(c, w, queue);
    case _ => SharedGood(c, w, step);
  }

  /** The steps of the unpartitioned stream. */
  lemma SharedGood(c: Config, w: World, step: Step)
    requires Good(c, w) && (step.Subscribing? || step.Unsubscribing?)
    ensures Good(c, Next(c, w, step))
  {
    if step.Subscribing? {
      LegacyGood(c, w, Subscribe(c, w.bus));
    } else {
      LegacyGood(c, w, Unsubscribe(w.bus, step.queue));
    }
  }

  lemma CloseGood(c: Config, w: World, queue: nat, boundary: string)
    requires Good(c, w)
    ensures Good(c, w.(bus := Close(w.bus, queue, boundary)))
  {
    CloseDelivers(w, queue, boundary);
    CloseKeeps(c, w, queue, boundary, w.(bus := Close(w.bus, queue, boundary)));
  }

  lemma CloseKeeps(c: Config, w: World, queue: nat, boundary: string, w2: World)
    requires Kept(w) && StaleIsFull(c, w) && Bounded(c, w.bus) && w2 == w.(bus := Close(w.bus, queue, boundary))
    ensures Kept(w2) && StaleIsFull(c, w2) && Bounded(c, w2.bus)
  {
    CloseIsWellFormed(w.bus, queue, boundary);
    CloseShrinks(c, w.bus, queue, boundary);
    ShrinkKeeps(c, w, w2);
  }

  lemma CloseShrinks(c: Config, s: State, queue: nat, boundary: string)
    requires QueuesBounded(c, s)
    ensures Shrinks(c, s, Close(s, queue, boundary))
  {
    var t := Close(s, queue, boundary);
    forall k | k in s.lanes ensures k in t.lanes && LaneShrinks(s.lanes[k], t.lanes[k]) {}
  }

  lemma TakeGood(c: Config, w: World, queue: nat)
    requires Good(c, w)
    ensures Good(c, Took(w, queue))
  {
    var w2 := Took(w, queue);
    TookKeeps(w, queue, w2);
    TakeDelivers(w, queue);
    TakeKeeps(c, w, queue, w2);
  }

  lemma TookKeeps(w: World, queue: nat, w2: World)
    requires w2 == Took(w, queue)
    ensures w2.bus == Take(w.bus, queue)
    ensures w2.log == w.log && w2.born == w.born && w2.horizon == w.horizon && w2.stale == w.stale
  {}

  lemma TakeKeeps(c: Config, w: World, queue: nat, w2: World)
    requires Kept(w) && StaleIsFull(c, w) && Bounded(c, w.bus) && w2.bus == Take(w.bus, queue)
    requires w2.log == w.log && w2.born == w.born && w2.horizon == w.horizon && w2.stale == w.stale
    ensures Kept(w2) && StaleIsFull(c, w2) && Bounded(c, w2.bus)
  {
    TakeShrinks(c, w.bus, queue);
    ShrinkKeeps(c, w, w2);
  }

  lemma TakeShrinks(c: Config, s: State, queue: nat)
    requires WellFormed(s) && Bounded(c, s)
    ensures WellFormed(Take(s, queue)) && Shrinks(c, s, Take(s, queue))
  {}

  /** The unpartitioned queues only share the subscriber bound. */
  lemma LegacyGood(c: Config, w: World, t: State)
    requires Good(c, w) && WellFormed(t)
    requires t.lanes == w.bus.lanes && t.order == w.bus.order && t.sequence == w.bus.sequence
             && t.queues == w.bus.queues
    requires |t.legacy| <= |w.bus.legacy| || SubscriberCount(t) <= c.bound
    ensures Good(c, w.(bus := t))
  {
    var w2 := w.(bus := t);
    forall k | k in w2.bus.lanes ensures LaneKept(w2, k) { assert LaneKept(w, k); }
    AudienceKept(w, w2);
  }

  /** Every run keeps the invariant. */
  lemma {:induction false} RunGood(c: Config, steps: seq<Step>)
    ensures Good(c, Run(c, steps))
  {
    if steps != [] {
      RunGood(c, steps[..|steps| - 1]);
      NextGood(c, Run(c, steps[..|steps| - 1]), steps[|steps| - 1]);
    }
  }
}
