/** The event bus as the object the service runs: its methods update the lanes, the sequence
    counter and the queues in place, and each is proved equal to its function in EventBus. */
module BusService {
  import opened Wrappers
  import opened EventCursor
  import opened EventBus
  import opened BusHistory
  import opened BusTheorems

  datatype LaneStatus = Ready | BadKey | Full

  class Bus {
    const config: Config
    var lanes: map<string, Lane>
    var order: seq<string>
    var sequence: nat
    var queues: map<nat, seq<Item>>
    var legacy: set<nat>
    var nextQueue: nat

    function Value(): State
      reads this
    {
      State(lanes, order, sequence, queues, legacy, nextQueue)
    }

    ghost predicate Valid()
      reads this
    {
      WellFormed(Value())
    }

    constructor (config: Config)
      ensures Valid() && Value() == EMPTY && this.config == config
    {
      this.config := config;
      lanes, order, sequence, queues, legacy, nextQueue := map[], [], 0, map[], {}, 0;
    }

    method ReplaySize() returns (n: nat)
      requires Valid()
      ensures n == EventBus.ReplaySize(Value())
    {
      n := 0;
      for i := 0 to |order|
        invariant n == Sum(order[..i], Depths(lanes))
      {
        assert order[..i + 1][..i] == order[..i];
        n := n + |lanes[order[i]].replay|;
      }
      assert order[..|order|] == order;
    }

    method SubscriberCount() returns (n: nat)
      requires Valid()
      ensures n == EventBus.SubscriberCount(Value())
    {
      n := |legacy|;
      for i := 0 to |order|
        invariant n == |legacy| + Sum(order[..i], Audiences(lanes))
      {
        assert order[..i + 1][..i] == order[..i];
        n := n + |lanes[order[i]].subscribers|;
      }
      assert order[..|order|] == order;
    }

    /** The least recently used lane nobody listens to. */
    method FindIdle() returns (r: Option<string>)
      requires Valid()
      ensures r == FirstIdle(order, lanes)
    {
      for i := 0 to |order|
        invariant FirstIdle(order, lanes) == FirstIdle(order[i..], lanes)
      {
        if |lanes[order[i]].subscribers| == 0 { return Some(order[i]); }
        assert order[i..][1..] == order[i + 1..];
      }
      return None;
    }

    method EnterLane(boundary: string) returns (status: LaneStatus)
      requires Valid()
      modifies this
      ensures Valid() && (status.Ready? ==> boundary in lanes)
      ensures match LaneOf(config, old(Value()), boundary)
              case Entered(s) => status == Ready && Value() == s
              case BadBoundary => status == BadKey && Value() == old(Value())
              case NoRoom => status == Full && Value() == old(Value())
    {
      EnterIsWellFormed(config, Value(), boundary);
      if boundary == "" || |boundary| > 512 { return BadKey; }
      if boundary !in lanes {
        if |order| >= config.bound {
          var idle := FindIdle();
          if idle.None? { return Full; }
          lanes := lanes - {idle.value};
          order := Without(order, idle.value);
        }
        lanes := lanes[boundary := NEW_LANE];
        order := order + [boundary];
      } else {
        order := Without(order, boundary) + [boundary];
      }
      return Ready;
    }

    method OpenStream(cursor: Option<string>, topics: set<string>, boundary: string) returns (r: OpenResult)
      requires Valid()
      modifies this
      ensures Valid()
      ensures (Value(), r) == Open(config, old(Value()), ReadCursor(cursor), topics, boundary)
    {
      ghost var before := Value();
      EnterIsWellFormed(config, before, boundary);
      var status := EnterLane(boundary);
      if status == BadKey { return BoundaryError; }
      if status == Full { return CapacityError; }
      r := AttachStream(cursor, topics, boundary);
    }

    /** The part of open_stream after the lane is found. */
    method AttachStream(cursor: Option<string>, topics: set<string>, boundary: string) returns (r: OpenResult)
      requires Valid() && boundary in lanes
      modifies this
      ensures Valid()
      ensures (Value(), r) == Attach(config, old(Value()), ReadCursor(cursor), topics, boundary)
    {
      AttachIsWellFormed(config, Value(), ReadCursor(cursor), topics, boundary);
      var replay: seq<Event> := [];
      if cursor.Some? && cursor.value != "" {
        var token := DecodeEventId(cursor.value);
        if token.None? { return CursorError; }
        if !Resumable(config, Value(), boundary, token.value) { return Unavailable; }
        replay := Select(Newer(lanes[boundary].replay, token.value.sequence), topics);
      }
      var count := SubscriberCount();
      if count >= config.bound { return CapacityError; }
      var queue := nextQueue;
      AddSubscriber(topics, boundary);
      return Opened(queue, replay);
    }

    method AddSubscriber(topics: set<string>, boundary: string)
      requires Valid() && boundary in lanes
      modifies this
      ensures Valid() && Value() == Join(old(Value()), topics, boundary)
    {
      var queue := nextQueue;
      lanes := lanes[boundary := lanes[boundary].(subscribers := lanes[boundary].subscribers[queue := topics])];
      queues := queues[queue := []];
      nextQueue := queue + 1;
    }

    method CloseStream(queue: nat, boundary: string)
      requires Valid()
      modifies this
      ensures Valid() && Value() == Close(old(Value()), queue, boundary)
    {
      CloseIsWellFormed(Value(), queue, boundary);
      if boundary in lanes {
        lanes := lanes[boundary := lanes[boundary].(subscribers := lanes[boundary].subscribers - {queue})];
      }
    }

    /** The consumer's queue.get; None where the consumer would wait. */
    method TakeItem(queue: nat) returns (item: Option<Item>)
      requires Valid() && queue in queues
      modifies this
      ensures Valid() && Value() == Take(old(Value()), queue)
      ensures item == if old(queues[queue]) == [] then None else Some(old(queues[queue])[0])
    {
      if queues[queue] == [] { return None; }
      item := Some(queues[queue][0]);
      queues := queues[queue := queues[queue][1..]];
    }

    method ReplaceWithReset(queue: nat, reason: string)
      requires Valid() && queue in queues
      modifies this
      ensures Valid() && Value() == old(Value()).(queues := old(queues)[queue := [Reset(reason)]])
    {
      while queues[queue] != []
        invariant Valid() && queue in queues
        invariant Value() == old(Value()).(queues := old(queues)[queue := queues[queue]])
        decreases |queues[queue]|
      {
        queues := queues[queue := queues[queue][1..]];
      }
      assert queues[queue] + [Reset(reason)] == [Reset(reason)];
      queues := queues[queue := queues[queue] + [Reset(reason)]];
      assert queues == old(queues)[queue := [Reset(reason)]];
    }

    method ResetAll(reason: string, boundary: string)
      requires Valid()
      modifies this
      ensures Valid() && Value() == ResetStreams(old(Value()), reason, boundary)
    {
      ghost var before := Value();
      if boundary in lanes {
        var pending := lanes[boundary].subscribers.Keys;
        PartlyResetStart(before, boundary, reason);
        while pending != {}
          invariant Valid() && boundary in lanes && pending <= before.lanes[boundary].subscribers.Keys
          invariant Value() == PartlyReset(before, boundary, reason, pending)
          decreases |pending|
        {
          var queue :| queue in pending;
          PartlyResetStep(before, boundary, reason, pending, queue);
          ReplaceWithReset(queue, reason);
          lanes := lanes[boundary := lanes[boundary].(subscribers := lanes[boundary].subscribers - {queue})];
          pending := pending - {queue};
        }
        PartlyResetEnd(before, boundary, reason);
      }
    }

    /** The lane holding the oldest retained event, found left to right. */
    method FindOldest() returns (r: Option<string>)
      requires Valid()
      ensures r == Oldest(order, lanes)
    {
      r := None;
      for i := 0 to |order|
        invariant r == Oldest(order[..i], lanes)
      {
        assert order[..i + 1][..i] == order[..i];
        var k := order[i];
        if lanes[k].replay != [] && (r.None? || lanes[k].replay[0].sequence < lanes[r.value].replay[0].sequence) {
          r := Some(k);
        }
      }
      assert order[..|order|] == order;
    }

    method TrimReplay()
      requires Valid()
      modifies this
      ensures Valid() && Value() == Trim(config, old(Value()))
    {
      var size := ReplaySize();
      while size > config.bound
        invariant Valid() && size == EventBus.ReplaySize(Value())
        invariant Trim(config, Value()) == Trim(config, old(Value()))
        decreases size
      {
        var oldest := FindOldest();
        if oldest.None? {
          AllEmpty(order, lanes);
          assert false;
        }
        DropShrinks(Value(), oldest.value);
        ghost var dropped := DropOldest(Value(), oldest.value);
        var lane := lanes[oldest.value];
        lanes := lanes[oldest.value := lane.(replay := lane.replay[1..], floor := Some(lane.replay[0].sequence))];
        assert Value() == dropped;
        size := ReplaySize();
      }
    }

    /** Hand one stored event to every interested subscriber of its lane. */
    method Deliveries(key: string, e: Event)
      requires Valid() && key in lanes
      modifies this
      ensures Valid() && Value() == FanOut(config, old(Value()), key, e)
    {
      ghost var before := Value();
      var pending := lanes[key].subscribers.Keys;
      PartlyStart(config, before, key, e);
      while pending != {}
        invariant Valid() && key in lanes && pending <= before.lanes[key].subscribers.Keys
        invariant Value() == Partly(config, before, key, e, pending)
        decreases |pending|
      {
        var queue :| queue in pending;
        DeliverTo(key, e, queue, before, pending);
        pending := pending - {queue};
      }
      PartlyEnd(config, before, key, e);
    }

    /** One subscriber's share of an event. */
    method DeliverTo(key: string, e: Event, queue: nat, ghost before: State, ghost pending: set<nat>)
      requires Valid() && WellFormed(before) && key in before.lanes && pending <= before.lanes[key].subscribers.Keys
      requires key in lanes && queue in pending && Value() == Partly(config, before, key, e, pending)
      modifies this
      ensures Valid() && key in lanes && Value() == Partly(config, before, key, e, pending - {queue})
    {
      PartlyStep(config, before, key, e, pending, queue);
      if !Interested(lanes[key].subscribers[queue], e.kind) { return; }
      if |queues[queue]| >= config.bound {
        ReplaceWithReset(queue, "slow consumer");
        lanes := lanes[key := lanes[key].(subscribers := lanes[key].subscribers - {queue})];
      } else {
        queues := queues[queue := queues[queue] + [Put(e)]];
      }
    }

    method PublishMessage(m: Message, boundary: Option<string>, public: bool) returns (r: PublishResult)
      requires Valid()
      modifies this
      ensures Valid()
      ensures (Value(), r) == Publish(config, old(Value()), m, boundary, public)
    {
      if public == boundary.Some? || boundary == Some(PUBLIC_LANE) { return AddressError; }
      var key := if public then PUBLIC_LANE else boundary.value;
      assert Address(boundary, public) == Some(key);
      r := PublishToLane(m, key);
    }

    method PublishToLane(m: Message, key: string) returns (r: PublishResult)
      requires Valid()
      modifies this
      ensures Valid()
      ensures (Value(), r) == PublishTo(config, old(Value()), m, key)
    {
      if !Acceptable(m) {
        ResetAll("producer failure", key);
        return ProducerFailure;
      }
      ghost var before := Value();
      sequence := sequence + 1;
      PublishAnnounces(config, before, m, key, Value());
      r := AnnounceMessage(m, key);
    }

    /** The part of publish after the sequence number is taken. */
    method AnnounceMessage(m: Message, key: string) returns (r: PublishResult)
      requires Valid() && m.Message?
      modifies this
      ensures Valid()
      ensures (Value(), r) == Announce(config, old(Value()), m, key)
    {
      ghost var before := Value();
      EnterIsWellFormed(config, before, key);
      var status := EnterLane(key);
      if status != Ready { return LaneError; }
      ghost var entered := Value();
      EnterKeepsSequence(config, before, key);
      var stored := Minted(config, sequence, key, m);
      SpreadEvent(key, stored);
      assert Announce(config, before, m, key) == (Spread(config, entered, key, stored), Published(stored));
      return Published(stored);
    }

    method StoreEvent(key: string, e: Event)
      requires Valid() && key in lanes
      modifies this
      ensures Valid() && Value() == Store(config, old(Value()), key, e)
    {
      StoreIsWellFormed(config, Value(), key, e);
      lanes := lanes[key := lanes[key].(replay := Append(config.bound, lanes[key].replay, e))];
    }

    /** Append to the deque, trim the shared budget, then hand the event out. */
    method SpreadEvent(key: string, e: Event)
      requires Valid() && key in lanes
      modifies this
      ensures Valid() && Value() == Spread(config, old(Value()), key, e)
    {
      ghost var stored := Store(config, Value(), key, e);
      StoreIsWellFormed(config, Value(), key, e);
      TrimIsWellFormed(config, stored);
      StoreEvent(key, e);
      TrimReplay();
      Deliveries(key, e);
    }

    /** Join the unpartitioned stream, which shares the subscriber bound. */
    method SubscribeLegacy() returns (queue: Option<nat>)
      requires Valid()
      modifies this
      ensures Valid() && Value() == Subscribe(config, old(Value()))
      ensures queue.None? <==> EventBus.SubscriberCount(old(Value())) >= config.bound
    {
      var count := SubscriberCount();
      if count >= config.bound { return None; }
      queue := Some(nextQueue);
      legacy := legacy + {nextQueue};
      nextQueue := nextQueue + 1;
    }

    method UnsubscribeLegacy(queue: nat)
      requires Valid()
      modifies this
      ensures Valid() && Value() == Unsubscribe(old(Value()), queue)
    {
      legacy := legacy - {queue};
    }
  }

  /** The subscribers left when those in `pending` have not been served yet. */
  ghost function StillSubscribed(c: Config, subs: map<nat, set<string>>, queues: map<nat, seq<Item>>, e: Event,
                                 pending: set<nat>)
      : map<nat, set<string>>
    requires subs.Keys <= queues.Keys
  {
    map q | q in subs && (q in pending || !(Interested(subs[q], e.kind) && |queues[q]| >= c.bound)) :: subs[q]
  }

  /** The queues when the subscribers in `pending` have not been served yet. */
  ghost function Handed(c: Config, subs: map<nat, set<string>>, queues: map<nat, seq<Item>>, e: Event,
                        pending: set<nat>)
      : map<nat, seq<Item>>
  {
    map q | q in queues ::
      if q in subs && q !in pending && Interested(subs[q], e.kind) then Deliver(c, queues[q], e) else queues[q]
  }

  /** The bus when the subscribers in `pending` have not been served yet. */
  ghost function Partly(c: Config, s: State, key: string, e: Event, pending: set<nat>): State
    requires WellFormed(s) && key in s.lanes
  {
    var subs := s.lanes[key].subscribers;
    s.(lanes := s.lanes[key := s.lanes[key].(subscribers := StillSubscribed(c, subs, s.queues, e, pending))],
       queues := Handed(c, subs, s.queues, e, pending))
  }

  lemma PartlyStart(c: Config, s: State, key: string, e: Event)
    requires WellFormed(s) && key in s.lanes
    ensures Partly(c, s, key, e, s.lanes[key].subscribers.Keys) == s
  {
    var t := Partly(c, s, key, e, s.lanes[key].subscribers.Keys);
    assert t.lanes[key].subscribers == s.lanes[key].subscribers;
    assert t.lanes == s.lanes;
    assert t.queues == s.queues;
  }

  lemma PartlyEnd(c: Config, s: State, key: string, e: Event)
    requires WellFormed(s) && key in s.lanes
    ensures Partly(c, s, key, e, {}) == FanOut(c, s, key, e)
  {
    var t, f := Partly(c, s, key, e, {}), FanOut(c, s, key, e);
    assert t.lanes[key].subscribers == f.lanes[key].subscribers;
    assert t.queues == f.queues;
  }

  lemma HandedStep(c: Config, subs: map<nat, set<string>>, queues: map<nat, seq<Item>>, e: Event, pending: set<nat>,
                   q: nat)
    requires q in pending && q in subs && q in queues
    ensures var t := Handed(c, subs, queues, e, pending);
      && q in t && t[q] == queues[q]
      && Handed(c, subs, queues, e, pending - {q})
         == if Interested(subs[q], e.kind) then t[q := Deliver(c, queues[q], e)] else t
  {}

  lemma SubscribedStep(c: Config, subs: map<nat, set<string>>, queues: map<nat, seq<Item>>, e: Event, pending: set<nat>,
                       q: nat)
    requires q in pending && q in subs && subs.Keys <= queues.Keys
    ensures var t := StillSubscribed(c, subs, queues, e, pending);
      && q in t && t[q] == subs[q]
      && StillSubscribed(c, subs, queues, e, pending - {q})
         == if Interested(subs[q], e.kind) && |queues[q]| >= c.bound then t - {q} else t
  {}

  lemma SetTwice(lanes: map<string, Lane>, key: string, x: Lane, y: Lane)
    ensures lanes[key := x][key := y] == lanes[key := y]
  {}

  /** Serving one pending subscriber. */
  lemma PartlyStep(c: Config, s: State, key: string, e: Event, pending: set<nat>, queue: nat)
    requires WellFormed(s) && key in s.lanes && queue in pending && pending <= s.lanes[key].subscribers.Keys
    ensures var t := Partly(c, s, key, e, pending); var u := Partly(c, s, key, e, pending - {queue});
      && queue in t.queues && t.queues[queue] == s.queues[queue]
      && queue in t.lanes[key].subscribers && t.lanes[key].subscribers[queue] == s.lanes[key].subscribers[queue]
      && (if !Interested(s.lanes[key].subscribers[queue], e.kind) then u == t
          else if |s.queues[queue]| >= c.bound then
            u == t.(queues := t.queues[queue := [Reset("slow consumer")]],
                    lanes := t.lanes[key := t.lanes[key].(subscribers := t.lanes[key].subscribers - {queue})])
          else u == t.(queues := t.queues[queue := t.queues[queue] + [Put(e)]]))
    ensures WellFormed(Partly(c, s, key, e, pending - {queue}))
  {
    var lane := s.lanes[key];
    assert queue in lane.subscribers && lane.subscribers.Keys <= s.queues.Keys;
    HandedStep(c, lane.subscribers, s.queues, e, pending, queue);
    SubscribedStep(c, lane.subscribers, s.queues, e, pending, queue);
    var t := StillSubscribed(c, lane.subscribers, s.queues, e, pending);
    SetTwice(s.lanes, key, lane.(subscribers := t), lane.(subscribers := t - {queue}));
    PartlyIsWellFormed(c, s, key, e, pending - {queue});
  }

  lemma PartlyIsWellFormed(c: Config, s: State, key: string, e: Event, pending: set<nat>)
    requires WellFormed(s) && key in s.lanes
    ensures WellFormed(Partly(c, s, key, e, pending))
  {}

  /** The bus when the subscribers in `pending` have not been reset yet. */
  ghost function PartlyReset(s: State, key: string, reason: string, pending: set<nat>): State
    requires key in s.lanes
  {
    var subs := s.lanes[key].subscribers;
    s.(lanes := s.lanes[key := s.lanes[key].(subscribers := map q | q in subs && q in pending :: subs[q])],
       queues := map q | q in s.queues :: if q in subs && q !in pending then [Reset(reason)] else s.queues[q])
  }

  lemma PartlyResetStart(s: State, key: string, reason: string)
    requires key in s.lanes
    ensures PartlyReset(s, key, reason, s.lanes[key].subscribers.Keys) == s
  {
    var t := PartlyReset(s, key, reason, s.lanes[key].subscribers.Keys);
    assert t.lanes[key].subscribers == s.lanes[key].subscribers;
    assert t.lanes == s.lanes;
    assert t.queues == s.queues;
  }

  lemma PartlyResetEnd(s: State, key: string, reason: string)
    requires WellFormed(s) && key in s.lanes
    ensures PartlyReset(s, key, reason, {}) == ResetStreams(s, reason, key)
  {
    var t, u := PartlyReset(s, key, reason, {}), ResetStreams(s, reason, key);
    assert t.lanes[key].subscribers == u.lanes[key].subscribers;
    assert t.queues == u.queues;
  }

  lemma PartlyResetStep(s: State, key: string, reason: string, pending: set<nat>, queue: nat)
    requires WellFormed(s) && key in s.lanes && queue in pending && pending <= s.lanes[key].subscribers.Keys
    ensures var t := PartlyReset(s, key, reason, pending);
      && queue in t.queues
      && PartlyReset(s, key, reason, pending - {queue})
         == t.(queues := t.queues[queue := [Reset(reason)]],
               lanes := t.lanes[key := t.lanes[key].(subscribers := t.lanes[key].subscribers - {queue})])
    ensures WellFormed(PartlyReset(s, key, reason, pending - {queue}))
  {
    var t, u := PartlyReset(s, key, reason, pending), PartlyReset(s, key, reason, pending - {queue});
    assert queue in s.queues by { assert queue in s.lanes[key].subscribers; }
    assert u.queues == t.queues[queue := [Reset(reason)]];
    assert u.lanes[key].subscribers == t.lanes[key].subscribers - {queue};
    PartlyResetIsWellFormed(s, key, reason, pending - {queue});
  }

  lemma PartlyResetIsWellFormed(s: State, key: string, reason: string, pending: set<nat>)
    requires WellFormed(s) && key in s.lanes
    ensures WellFormed(PartlyReset(s, key, reason, pending))
  {}
}
