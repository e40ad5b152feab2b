/** What each subscriber is sent, in every reachable state. */
module BusDelivery {
  import opened Wrappers
  import opened EventBus
  import opened BusHistory
  import opened BusRetention

  lemma PutsAppend(events: seq<Event>, e: Event)
    ensures Puts(events + [e]) == Puts(events) + [Put(e)]
  {}

  lemma SelectAppend(events: seq<Event>, e: Event, topics: set<string>)
    ensures Select(events + [e], topics) == Select(events, topics) + (if Interested(topics, e.kind) then [e] else [])
  {
    assert (events + [e])[..|events|] == events;
  }

  lemma WantedAppend(log: seq<Publication>, p: Publication, lane: string, x: nat, topics: set<string>)
    requires p.event.sequence > x
    ensures Wanted(log + [p], lane, x, topics) == Wanted(log, lane, x, topics)
            + (if p.lane == lane && Interested(topics, p.event.kind) then [p.event] else [])
  {
    AfterAppend(log, p, lane, x);
    if p.lane == lane {
      SelectAppend(After(log, lane, x), p.event, topics);
    } else {
      assert After(log + [p], lane, x) == After(log, lane, x);
    }
  }

  lemma WantedNothing(log: seq<Publication>, lane: string, x: nat, topics: set<string>)
    requires Increasing(log) && Last(log) <= x
    ensures Wanted(log, lane, x, topics) == []
  {
    AfterNothing(log, lane, x);
  }

  /** The same queues hang on the same lanes, with the same contents. */
  ghost predicate SameAudience(s: State, t: State) {
    && t.queues == s.queues
    && (forall k, q :: k in t.lanes && q in t.lanes[k].subscribers ==>
          k in s.lanes && q in s.lanes[k].subscribers && s.lanes[k].subscribers[q] == t.lanes[k].subscribers[q])
    && (forall k, q :: k in s.lanes && q in s.lanes[k].subscribers ==> k in t.lanes && q in t.lanes[k].subscribers)
  }

  lemma StillServed(w: World, w2: World, q: nat)
    requires q in w.subs && q in w.bus.queues && Served(w, q)
    requires q in w2.subs && q in w2.bus.queues
    requires w2.log == w.log && w2.subs[q] == w.subs[q] && w2.bus.queues[q] == w.bus.queues[q]
    requires Attached(w2, q) == Attached(w, q)
    ensures Served(w2, q)
  {}

  lemma AudienceKept(w: World, w2: World)
    requires Delivered(w) && SameAudience(w.bus, w2.bus) && w2.log == w.log && w2.subs == w.subs
    ensures Delivered(w2)
  {
    forall q | q in w2.subs ensures Served(w2, q) { StillServed(w, w2, q); }
  }

  lemma EnterAudience(c: Config, s: State, key: string)
    requires WellFormed(s) && LaneOf(c, s, key).Entered?
    ensures SameAudience(s, LaneOf(c, s, key).state)
  {}

  lemma {:induction false} TrimAudience(c: Config, s: State)
    requires WellFormed(s)
    ensures Trim(c, s).queues == s.queues && Trim(c, s).lanes.Keys == s.lanes.Keys
    ensures forall k :: k in s.lanes ==> Trim(c, s).lanes[k].subscribers == s.lanes[k].subscribers
    decreases ReplaySize(s)
  {
    var oldest := Oldest(s.order, s.lanes);
    if ReplaySize(s) > c.bound && oldest.Some? {
      DropShrinks(s, oldest.value);
      assert DropOldest(s, oldest.value).lanes.Keys == s.lanes.Keys;
      TrimAudience(c, DropOldest(s, oldest.value));
    }
  }

  // ---- fan-out

  lemma SettledGrows(items: seq<Item>, wanted: seq<Event>, more: seq<Event>)
    requires Settled(items, wanted)
    ensures Settled(items, wanted + more)
  {
    var n: nat :| n <= |wanted| && SettledAt(items, wanted, n);
    assert (wanted + more)[..n] == wanted[..n];
    assert SettledAt(items, wanted + more, n);
  }

  lemma AllSettled(wanted: seq<Event>)
    ensures Settled(Puts(wanted), wanted)
  {
    assert wanted[..|wanted|] == wanted;
    assert SettledAt(Puts(wanted), wanted, |wanted|);
  }

  /** Emptying a queue and putting one reset settles the subscription. */
  lemma ResetSettles(taken: seq<Item>, queued: seq<Item>, wanted: seq<Event>, reason: string)
    requires taken + queued == Puts(wanted)
    ensures Settled(taken + [Reset(reason)], wanted)
  {
    var n := |taken|;
    assert taken == (taken + queued)[..n] == Puts(wanted[..n]);
    assert SettledAt(taken + [Reset(reason)], wanted, n);
  }

  lemma FanOutDelivers(c: Config, w: World, t: State, key: string, e: Event, w2: World)
    requires Delivered(w) && WellFormed(t) && SameAudience(w.bus, t) && key in t.lanes
    requires Last(w.log) < e.sequence
    requires w2.bus == FanOut(c, t, key, e) && w2.log == w.log + [Publication(key, e)] && w2.subs == w.subs
    ensures Delivered(w2)
  {
    forall q | q in w2.subs ensures Served(w2, q) { FanOutServes(c, w, t, key, e, w2, q); }
  }

  lemma FanOutServes(c: Config, w: World, t: State, key: string, e: Event, w2: World, q: nat)
    requires Delivered(w) && WellFormed(t) && SameAudience(w.bus, t) && key in t.lanes
    requires Last(w.log) < e.sequence && q in w.subs
    requires w2.bus == FanOut(c, t, key, e) && w2.log == w.log + [Publication(key, e)] && w2.subs == w.subs
    ensures q in w2.bus.queues && Served(w2, q)
  {
    if Attached(w, q) {
      FanOutOne(c, w, t, key, e, w2, q);
    } else {
      FanOutDetached(c, w, t, key, e, w2, q);
    }
    assert Served(w, q);
    StartGrows(w, w2, key, e, q);
  }

  /** Publishing one more event extends both ends of the replay equation alike. */
  lemma StartGrows(w: World, w2: World, key: string, e: Event, q: nat)
    requires q in w.subs && q in w.bus.queues && Served(w, q) && Last(w.log) < e.sequence
    requires w2.log == w.log + [Publication(key, e)] && w2.subs == w.subs
    ensures w.subs[q].from <= w.subs[q].since <= Last(w2.log)
    ensures var b := w.subs[q];
      b.complete ==> Wanted(w2.log, b.lane, b.from, b.topics) == b.replay + Wanted(w2.log, b.lane, b.since, b.topics)
  {
    var b, p := w.subs[q], Publication(key, e);
    WantedAppend(w.log, p, b.lane, b.since, b.topics);
    WantedAppend(w.log, p, b.lane, b.from, b.topics);
  }

  lemma FanOutDetached(c: Config, w: World, t: State, key: string, e: Event, w2: World, q: nat)
    requires Delivered(w) && WellFormed(t) && SameAudience(w.bus, t) && key in t.lanes
    requires Last(w.log) < e.sequence && q in w.subs && !Attached(w, q)
    requires w2.bus == FanOut(c, t, key, e) && w2.log == w.log + [Publication(key, e)] && w2.subs == w.subs
    ensures q in w2.bus.queues && !Attached(w2, q)
    ensures var b := w.subs[q];
      Settled(b.taken + w2.bus.queues[q], Wanted(w2.log, b.lane, b.since, b.topics))
  {
    assert Served(w, q);
    var b := w.subs[q];
    assert q in t.queues && forall k :: k in t.lanes ==> q !in t.lanes[k].subscribers;
    WantedAppend(w.log, Publication(key, e), b.lane, b.since, b.topics);
    SettledGrows(b.taken + w.bus.queues[q], Wanted(w.log, b.lane, b.since, b.topics),
                 if key == b.lane && Interested(b.topics, e.kind) then [e] else []);
  }

  lemma AppendServes(taken: seq<Item>, queue: seq<Item>, wanted: seq<Event>, e: Event)
    requires taken + queue == Puts(wanted)
    ensures taken + (queue + [Put(e)]) == Puts(wanted + [e])
  {
    PutsAppend(wanted, e);
    assert taken + (queue + [Put(e)]) == taken + queue + [Put(e)];
  }

  lemma FanOutQueue(c: Config, t: State, key: string, e: Event, k: string, q: nat)
    requires WellFormed(t) && key in t.lanes && k in t.lanes && q in t.lanes[k].subscribers
    requires forall l :: l in t.lanes && q in t.lanes[l].subscribers ==> l == k
    ensures var u := FanOut(c, t, key, e); var hit := k == key && Interested(t.lanes[k].subscribers[q], e.kind);
      && k in u.lanes
      && (q in u.lanes[k].subscribers <==> !(hit && |t.queues[q]| >= c.bound))
      && q in u.queues
      && u.queues[q] == if hit then Deliver(c, t.queues[q], e) else t.queues[q]
  {}

  lemma FanOutOne(c: Config, w: World, t: State, key: string, e: Event, w2: World, q: nat)
    requires Delivered(w) && WellFormed(t) && SameAudience(w.bus, t) && key in t.lanes
    requires Last(w.log) < e.sequence
    requires w2.bus == FanOut(c, t, key, e) && w2.log == w.log + [Publication(key, e)] && w2.subs == w.subs
    requires q in w.subs && Attached(w, q)
    ensures var b := w.subs[q]; var wanted := Wanted(w2.log, b.lane, b.since, b.topics);
      if Attached(w2, q) then b.taken + w2.bus.queues[q] == Puts(wanted)
      else Settled(b.taken + w2.bus.queues[q], wanted)
  {
    assert Served(w, q);
    var b := w.subs[q];
    var wanted, queue := Wanted(w.log, b.lane, b.since, b.topics), w.bus.queues[q];
    WantedAppend(w.log, Publication(key, e), b.lane, b.since, b.topics);
    FanOutQueue(c, t, key, e, b.lane, q);
    if key == b.lane && Interested(b.topics, e.kind) {
      if |queue| >= c.bound {
        ResetSettles(b.taken, queue, wanted, "slow consumer");
        SettledGrows(b.taken + [Reset("slow consumer")], wanted, [e]);
      } else {
        AppendServes(b.taken, queue, wanted, e);
      }
    }
  }

  // ---- the other steps

  lemma ResetOne(w: World, reason: string, boundary: string, q: nat)
    requires Delivered(w) && WellFormed(w.bus) && q in w.subs
    ensures q in ResetStreams(w.bus, reason, boundary).queues
    ensures Served(w.(bus := ResetStreams(w.bus, reason, boundary)), q)
  {
    var w2 := w.(bus := ResetStreams(w.bus, reason, boundary));
    assert Served(w, q);
    if Attached(w, q) && w.subs[q].lane == boundary { ResetMember(w, reason, boundary, q, w2); }
    else { StillServed(w, w2, q); }
  }

  lemma ResetMember(w: World, reason: string, boundary: string, q: nat, w2: World)
    requires WellFormed(w.bus) && q in w.subs && q in w.bus.queues && Served(w, q)
    requires Attached(w, q) && w.subs[q].lane == boundary
    requires w2 == w.(bus := ResetStreams(w.bus, reason, boundary))
    ensures q in w2.bus.queues && Served(w2, q)
  {
    var b := w.subs[q];
    assert w2.bus.queues[q] == [Reset(reason)] && !Attached(w2, q);
    ResetSettles(b.taken, w.bus.queues[q], Wanted(w.log, b.lane, b.since, b.topics), reason);
  }

  lemma ResetDelivers(w: World, reason: string, boundary: string)
    requires Delivered(w) && WellFormed(w.bus)
    ensures Delivered(w.(bus := ResetStreams(w.bus, reason, boundary)))
  {
    forall q | q in w.subs ensures q in ResetStreams(w.bus, reason, boundary).queues
                                && Served(w.(bus := ResetStreams(w.bus, reason, boundary)), q)
    {
      ResetOne(w, reason, boundary, q);
    }
  }

  lemma CloseDelivers(w: World, queue: nat, boundary: string)
    requires Delivered(w) && WellFormed(w.bus)
    ensures Delivered(w.(bus := Close(w.bus, queue, boundary)))
  {
    var w2 := w.(bus := Close(w.bus, queue, boundary));
    forall q | q in w2.subs ensures Served(w2, q) {
      assert Served(w, q);
      var b := w.subs[q];
      AllSettled(Wanted(w.log, b.lane, b.since, b.topics));
    }
  }

  lemma TakeDelivers(w: World, queue: nat)
    requires Delivered(w) && WellFormed(w.bus)
    ensures Delivered(Took(w, queue))
  {
    var w2 := Took(w, queue);
    forall q | q in w2.subs ensures Served(w2, q) {
      if q == queue && w.bus.queues[q] != [] { TakeOne(w, q); } else { StillServed(w, w2, q); }
    }
  }

  lemma TakeOne(w: World, q: nat)
    requires Delivered(w) && WellFormed(w.bus) && q in w.subs && w.bus.queues[q] != []
    ensures Served(Took(w, q), q)
  {
    assert Served(w, q);
    TookServes(w, q, Took(w, q), w.subs[q].taken, w.bus.queues[q]);
  }

  lemma TookServes(w: World, q: nat, w2: World, taken: seq<Item>, queue: seq<Item>)
    requires q in w.subs && q in w.bus.queues && Served(w, q) && q in w2.subs && q in w2.bus.queues
    requires taken == w.subs[q].taken && queue == w.bus.queues[q] != []
    requires w2.subs[q] == w.subs[q].(taken := taken + [queue[0]]) && w2.bus.queues[q] == queue[1..]
    requires w2.log == w.log && w2.bus.lanes == w.bus.lanes
    ensures Served(w2, q)
  {
    assert taken + [queue[0]] + queue[1..] == taken + queue;
    assert Attached(w2, q) == Attached(w, q);
  }
}
