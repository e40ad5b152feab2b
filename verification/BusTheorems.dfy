/** The promises of the event bus, each over every run of publications, openings, closings
    and consumer reads. */
module BusTheorems {
  import opened Wrappers
  import opened EventCursor
  import opened EventBus
  import opened BusHistory
  import opened BusRetention
  import opened BusDelivery
  import opened BusLaws

  /** Everything a client has been or will be handed: its replay, what it took, what waits. */
  ghost function Seen(w: World, q: nat): seq<Item>
    requires q in w.subs && q in w.bus.queues
  {
    Puts(w.subs[q].replay) + w.subs[q].taken + w.bus.queues[q]
  }

  /** Items that are all the events wanted while the queue hangs on its lane, and afterwards
      some first ones of them with at most a reset behind. */
  ghost predicate Follows(w: World, q: nat, items: seq<Item>, wanted: seq<Event>)
    requires q in w.subs
  {
    if Attached(w, q) then items == Puts(wanted) else Settled(items, wanted)
  }

  /** End-to-end delivery. While a subscription hangs on its lane, what was taken from its
      queue and what waits there is the log of its own lane since it opened, filtered by its
      topics: in order, without gap, duplicate or foreign event. Afterwards it is a prefix of
      that log, perhaps ended by one reset. When its start was not lost, the same holds with
      its replay in front, for the log after its starting point. */
  lemma Delivery(c: Config, steps: seq<Step>, q: nat)
    requires q in Run(c, steps).subs
    ensures var w := Run(c, steps); var b := w.subs[q];
      q in w.bus.queues
      && Follows(w, q, b.taken + w.bus.queues[q], Wanted(w.log, b.lane, b.since, b.topics))
      && (b.complete ==> Follows(w, q, Seen(w, q), Wanted(w.log, b.lane, b.from, b.topics)))
  {
    RunGood(c, steps);
    Views(Run(c, steps), q);
  }

  lemma Views(w: World, q: nat)
    requires Delivered(w) && q in w.subs
    ensures var b := w.subs[q];
      && Follows(w, q, b.taken + w.bus.queues[q], Wanted(w.log, b.lane, b.since, b.topics))
      && (b.complete ==> Follows(w, q, Seen(w, q), Wanted(w.log, b.lane, b.from, b.topics)))
  {
    assert Served(w, q);
    var b := w.subs[q];
    if b.complete {
      var tail := Wanted(w.log, b.lane, b.since, b.topics);
      assert Seen(w, q) == Puts(b.replay) + (b.taken + w.bus.queues[q]);
      if Attached(w, q) { PutsJoin(b.replay, tail); } else { SettledAfter(b.replay, b.taken + w.bus.queues[q], tail); }
    }
  }

  lemma PutsJoin(a: seq<Event>, b: seq<Event>)
    ensures Puts(a + b) == Puts(a) + Puts(b)
  {}

  lemma SettledAfter(replay: seq<Event>, items: seq<Item>, wanted: seq<Event>)
    requires Settled(items, wanted)
    ensures Settled(Puts(replay) + items, replay + wanted)
  {
    var n: nat :| n <= |wanted| && SettledAt(items, wanted, n);
    var m := |replay| + n;
    assert (replay + wanted)[..m] == replay + wanted[..n];
    assert Puts(replay + wanted[..n]) == Puts(replay) + Puts(wanted[..n]);
    if items == Puts(wanted[..n]) {
    } else {
      var reason :| items == Puts(wanted[..n]) + [Reset(reason)];
      assert Puts(replay) + items == Puts((replay + wanted)[..m]) + [Reset(reason)];
    }
    assert SettledAt(Puts(replay) + items, replay + wanted, m);
  }

  /** A queue that hangs on no lane. */
  ghost predicate Loose(s: State, q: nat) {
    q in s.queues && forall k :: k in s.lanes ==> q !in s.lanes[k].subscribers
  }

  lemma SpreadSpares(c: Config, s: State, key: string, e: Event, q: nat)
    requires WellFormed(s) && key in s.lanes && Loose(s, q)
    ensures Loose(Spread(c, s, key, e), q) && Spread(c, s, key, e).queues[q] == s.queues[q]
  {
    StoreIsWellFormed(c, s, key, e);
    TrimIsWellFormed(c, Store(c, s, key, e));
    TrimAudience(c, Store(c, s, key, e));
  }

  lemma EnterSpares(c: Config, s: State, key: string, q: nat)
    requires WellFormed(s) && Loose(s, q) && LaneOf(c, s, key).Entered?
    ensures Loose(LaneOf(c, s, key).state, q) && LaneOf(c, s, key).state.queues == s.queues
  {}

  lemma AnnounceSpares(c: Config, s: State, m: Message, key: string, q: nat)
    requires WellFormed(s) && Loose(s, q) && m.Message?
    ensures Loose(Announce(c, s, m, key).0, q) && Announce(c, s, m, key).0.queues[q] == s.queues[q]
  {
    match LaneOf(c, s, key)
    case Entered(r) =>
      EnterIsWellFormed(c, s, key);
      EnterSpares(c, s, key, q);
      SpreadSpares(c, r, key, Minted(c, s.sequence, key, m), q);
    case _ =>
  }

  lemma PublishSpares(c: Config, s: State, m: Message, key: string, q: nat)
    requires WellFormed(s) && Loose(s, q)
    ensures Loose(PublishTo(c, s, m, key).0, q) && PublishTo(c, s, m, key).0.queues[q] == s.queues[q]
  {
    if Acceptable(m) {
      var numbered := s.(sequence := s.sequence + 1);
      assert WellFormed(numbered) && Loose(numbered, q);
      AnnounceSpares(c, numbered, m, key, q);
      assert PublishTo(c, s, m, key) == Announce(c, numbered, m, key);
    }
  }

  lemma OpenSpares(c: Config, s: State, cursor: Cursor, topics: set<string>, boundary: string, q: nat)
    requires WellFormed(s) && Loose(s, q)
    ensures Loose(Open(c, s, cursor, topics, boundary).0, q)
            && Open(c, s, cursor, topics, boundary).0.queues[q] == s.queues[q]
  {
    match LaneOf(c, s, boundary)
    case Entered(r) =>
      EnterIsWellFormed(c, s, boundary);
      EnterSpares(c, s, boundary, q);
      AttachSpares(c, r, cursor, topics, boundary, q);
    case _ =>
  }

  lemma AttachSpares(c: Config, s: State, cursor: Cursor, topics: set<string>, boundary: string, q: nat)
    requires WellFormed(s) && Loose(s, q) && boundary in s.lanes
    ensures var t := Attach(c, s, cursor, topics, boundary).0; Loose(t, q) && t.queues[q] == s.queues[q]
  {}

  /** Once off its lane, a queue never receives anything again: no step hangs it on a lane,
      and only its own consumer changes its contents. After a reset the reset is therefore
      the last item the client takes. */
  lemma DetachedIsFinal(c: Config, s: State, step: Step, q: nat)
    requires WellFormed(s) && Loose(s, q)
    ensures var t := Effect(c, s, step);
      Loose(t, q) && t.queues[q] == if step == Taking(q) && s.queues[q] != [] then s.queues[q][1..] else s.queues[q]
  {
    match step
    case Publishing(m, boundary, public) =>
      if Address(boundary, public).Some? { PublishSpares(c, s, m, Address(boundary, public).value, q); }
    case Opening(cursor, topics, boundary) => OpenSpares(c, s, cursor, topics, boundary, q);
    case _ =>
  }

  /** In reachable worlds, detached means hanging on no lane at all. */
  lemma DetachedIsLoose(w: World, q: nat)
    requires Delivered(w) && q in w.subs
    ensures Attached(w, q) <==> !Loose(w.bus, q)
  {}

  // ---- the replay window

  /** A lane's deque is a contiguous suffix of its boundary's whole log, across eviction and
      re-creation of the lane. */
  lemma ReplayIsSuffix(c: Config, steps: seq<Step>, k: string)
    requires k in Run(c, steps).bus.lanes
    ensures Suffix(Run(c, steps).bus.lanes[k].replay, After(Run(c, steps).log, k, 0))
  {
    RunGood(c, steps);
    var w := Run(c, steps);
    assert LaneKept(w, k);
    var x := Max(w.horizon, w.born[k]);
    AfterRaise(w.log, k, 0, x);
    AfterAscending(w.log, k, 0);
    NewerIsSuffix(After(w.log, k, 0), 0, Last(w.log), x);
  }

  lemma {:induction false} NewerIsSuffix(events: seq<Event>, low: nat, high: nat, x: nat)
    requires Ascending(events, low, high)
    ensures Suffix(Newer(events, x), events)
  {
    if events != [] {
      var front, e := events[..|events| - 1], events[|events| - 1];
      if e.sequence > x {
        NewerIsSuffix(front, low, high, x);
        var n := |front| - |Newer(front, x)|;
        SuffixAppend(front, e, n);
        assert events == front + [e];
      } else {
        NewerNone(events, x);
      }
    }
  }

  lemma SuffixAppend(events: seq<Event>, e: Event, n: nat)
    requires n <= |events|
    ensures (events + [e])[n..] == events[n..] + [e]
  {}

  /** One window for all lanes: an event newer than some retained event, published to a lane
      after its creation, is itself retained. */
  lemma OneWindow(c: Config, steps: seq<Step>, k: string, i: nat, l: string, j: nat)
    requires k in Run(c, steps).bus.lanes && i < |Run(c, steps).bus.lanes[k].replay|
    requires l in Run(c, steps).bus.lanes && l in Run(c, steps).born && j < |Run(c, steps).log|
    requires var w := Run(c, steps); var p := w.log[j];
      p.lane == l && p.event.sequence > w.born[l] && p.event.sequence > w.bus.lanes[k].replay[i].sequence
    ensures Run(c, steps).log[j].event in Run(c, steps).bus.lanes[l].replay
  {
    RunGood(c, steps);
    var w := Run(c, steps);
    assert LaneKept(w, k) && LaneKept(w, l);
    AfterAscending(w.log, k, Max(w.horizon, w.born[k]));
    AfterHolds(w.log, l, Max(w.horizon, w.born[l]), j);
  }

  /** The bounds, and one strictly increasing numbering across all lanes. */
  lemma WithinBounds(c: Config, steps: seq<Step>)
    ensures var w := Run(c, steps);
      && |w.bus.order| <= c.bound && ReplaySize(w.bus) <= c.bound && SubscriberCount(w.bus) <= c.bound
      && (forall q :: q in w.bus.queues ==> |w.bus.queues[q]| <= c.bound)
      && Increasing(w.log)
  {
    RunGood(c, steps);
  }

  // ---- resuming

  /** What opening with a decoded cursor does, case by case: the replay is the whole log
      after the cursor exactly when the cursor is still in the deque or the lane's full
      deque was not appended to since its floor was set; any other cursor is refused. */
  lemma ResumeOutcome(c: Config, steps: seq<Step>, token: Token, boundary: string)
    requires LaneOf(c, Run(c, steps).bus, boundary).Entered?
    ensures var w := Run(c, steps); var s := LaneOf(c, w.bus, boundary).state;
      var w1 := Entering(w, s, boundary);
      var result := Open(c, w.bus, Decoded(token), {}, boundary).1;
      WellFormed(s) && boundary in s.lanes
      && (result.Unavailable? <==> !Resumable(c, s, boundary, token))
      && (result.Opened? ==>
            (result.replay == After(w.log, boundary, token.sequence)
             <==> InReplay(s.lanes[boundary], token.sequence) || boundary !in w1.stale))
      && (result.Opened? && |s.lanes[boundary].replay| < c.bound ==> boundary !in w1.stale)
  {
    RunGood(c, steps);
    var w := Run(c, steps);
    EnterIsWellFormed(c, w.bus, boundary);
    var s := LaneOf(c, w.bus, boundary).state;
    var w1 := Entering(w, s, boundary);
    assert Kept(w1) by { EnterKeeps(c, w, w.bus, boundary); }
    assert Open(c, w.bus, Decoded(token), {}, boundary) == Attach(c, s, Decoded(token), {}, boundary);
    AttachOutcome(c, w1, token, boundary);
  }

  /** What the lane itself shows before the call: the cursor is retained, the deque is below
      the bound, or its oldest event is the very next number. */
  predicate Safe(c: Config, lane: Lane, n: nat) {
    || InReplay(lane, n)
    || |lane.replay| < c.bound
    || (lane.replay != [] && lane.replay[0].sequence == n + 1)
  }

  /** A cursor that is safe by the look of its lane, and accepted, resumes with the whole log
      after it. */
  lemma SafeResume(c: Config, steps: seq<Step>, token: Token, boundary: string)
    requires LaneOf(c, Run(c, steps).bus, boundary).Entered?
    ensures var w := Run(c, steps); var s := LaneOf(c, w.bus, boundary).state;
      var result := Open(c, w.bus, Decoded(token), {}, boundary).1;
      WellFormed(s) && boundary in s.lanes
      && (result.Opened? && Safe(c, s.lanes[boundary], token.sequence)
          ==> result.replay == After(w.log, boundary, token.sequence))
  {
    ResumeOutcome(c, steps, token, boundary);
    var w := Run(c, steps);
    var s := LaneOf(c, w.bus, boundary).state;
    var w1 := Entering(w, s, boundary);
    if Resumable(c, s, boundary, token) && s.lanes[boundary].replay != []
       && s.lanes[boundary].replay[0].sequence == token.sequence + 1 {
      RunGood(c, steps);
      EnterKeeps(c, w, w.bus, boundary);
      AdjacentIsFresh(c, w1, boundary, token);
    }
  }

  /** Nothing fits between the cursor and the oldest retained event. */
  lemma AdjacentIsFresh(c: Config, w: World, boundary: string, token: Token)
    requires Kept(w) && boundary in w.bus.lanes && Resumable(c, w.bus, boundary, token)
    requires var replay := w.bus.lanes[boundary].replay; replay != [] && replay[0].sequence == token.sequence + 1
    ensures InReplay(w.bus.lanes[boundary], token.sequence) || boundary !in w.stale
  {
    assert LaneKept(w, boundary);
    AfterAscending(w.log, boundary, Max(w.horizon, w.born[boundary]));
  }

  lemma AttachOutcome(c: Config, w: World, token: Token, boundary: string)
    requires Kept(w) && boundary in w.bus.lanes
    ensures var result := Attach(c, w.bus, Decoded(token), {}, boundary).1;
      && (result.Unavailable? <==> !Resumable(c, w.bus, boundary, token))
      && (result.Opened? ==>
            (result.replay == After(w.log, boundary, token.sequence)
             <==> InReplay(w.bus.lanes[boundary], token.sequence) || boundary !in w.stale))
  {
    if Resumable(c, w.bus, boundary, token) {
      ResumeIsGapless(c, w, boundary, token);
      SelectAll(Newer(w.bus.lanes[boundary].replay, token.sequence));
    }
  }

  lemma {:induction false} SelectAll(events: seq<Event>)
    ensures Select(events, {}) == events
  {
    if events != [] { SelectAll(events[..|events| - 1]); }
  }

  // ---- lanes are isolated

  /** The lane a step works on, if any. */
  function Target(step: Step): Option<string> {
    match step
    case Publishing(m, boundary, public) => Address(boundary, public)
    case Opening(cursor, topics, boundary) => Some(boundary)
    case Closing(queue, boundary) => Some(boundary)
    case _ => None
  }

  ghost predicate Suffix(a: seq<Event>, b: seq<Event>) { |a| <= |b| && a == b[|b| - |a|..] }

  lemma SuffixStep(a: seq<Event>, b: seq<Event>)
    requires b != [] && Suffix(a, b[1..])
    ensures Suffix(a, b)
  {
    assert b[1..][|b[1..]| - |a|..] == b[|b| - |a|..];
  }

  /** What a step on one boundary may do to another: drop its oldest events, or evict it
      when nobody listens. Its subscribers and their queues are untouched. */
  ghost predicate Untouched(s: State, t: State, k: string)
    requires k in s.lanes
  {
    if k in t.lanes then
      && t.lanes[k].subscribers == s.lanes[k].subscribers
      && Suffix(t.lanes[k].replay, s.lanes[k].replay)
      && (forall q :: q in s.lanes[k].subscribers && q in s.queues ==> q in t.queues && t.queues[q] == s.queues[q])
    else s.lanes[k].subscribers == map[]
  }

  lemma KeepsAll(s: State, t: State, k: string)
    requires k in s.lanes && k in t.lanes && t.lanes[k] == s.lanes[k]
    requires forall q :: q in s.lanes[k].subscribers && q in s.queues ==> q in t.queues && t.queues[q] == s.queues[q]
    ensures Untouched(s, t, k)
  {
    assert s.lanes[k].replay[0..] == s.lanes[k].replay;
  }

  /** No queue of lane k hangs on another lane. */
  ghost predicate Own(s: State, k: string)
    requires k in s.lanes
  {
    forall l, q :: l in s.lanes && l != k && q in s.lanes[l].subscribers ==> q !in s.lanes[k].subscribers
  }

  lemma LanesAreIsolated(c: Config, s: State, step: Step, k: string)
    requires WellFormed(s) && k in s.lanes && Own(s, k) && Target(step) != Some(k) && !step.Taking?
    ensures Untouched(s, Effect(c, s, step), k)
  {
    match step
    case Publishing(m, boundary, public) =>
      if Address(boundary, public).Some? { PublishIsolated(c, s, m, Address(boundary, public).value, k); }
      else { KeepsAll(s, s, k); }
    case Opening(cursor, topics, boundary) => OpenIsolated(c, s, cursor, topics, boundary, k);
    case Closing(queue, boundary) => KeepsAll(s, Close(s, queue, boundary), k);
    case Taking(queue) =>
    case Subscribing => KeepsAll(s, Subscribe(c, s), k);
    case Unsubscribing(queue) => KeepsAll(s, Unsubscribe(s, queue), k);
  }

  lemma OpenIsolated(c: Config, s: State, cursor: Cursor, topics: set<string>, boundary: string, k: string)
    requires WellFormed(s) && k in s.lanes && k != boundary
    ensures Untouched(s, Open(c, s, cursor, topics, boundary).0, k)
  {
    match LaneOf(c, s, boundary)
    case Entered(r) =>
      EnterIsWellFormed(c, s, boundary);
      EnterIsolates(c, s, boundary, k);
      AttachIsolated(c, s, r, cursor, topics, boundary, k);
    case _ => KeepsAll(s, s, k);
  }

  lemma AttachIsolated(c: Config, s: State, r: State, cursor: Cursor, topics: set<string>, boundary: string, k: string)
    requires k in s.lanes && k != boundary && WellFormed(r) && boundary in r.lanes && r.queues == s.queues
    requires if k in r.lanes then r.lanes[k] == s.lanes[k] else s.lanes[k].subscribers == map[]
    ensures Untouched(s, Attach(c, r, cursor, topics, boundary).0, k)
  {
    if k in r.lanes { KeepsAll(s, Attach(c, r, cursor, topics, boundary).0, k); }
  }

  lemma PublishIsolated(c: Config, s: State, m: Message, key: string, k: string)
    requires WellFormed(s) && k in s.lanes && k != key && Own(s, k)
    ensures Untouched(s, PublishTo(c, s, m, key).0, k)
  {
    if Acceptable(m) {
      var numbered := s.(sequence := s.sequence + 1);
      assert WellFormed(numbered) && Own(numbered, k);
      AnnounceIsolated(c, numbered, m, key, k);
      PublishAnnounces(c, s, m, key, numbered);
      SameLanes(s, numbered, Announce(c, numbered, m, key).0, k);
    } else {
      assert PublishTo(c, s, m, key).0 == ResetStreams(s, "producer failure", key);
      FailureIsolated(s, "producer failure", key, k);
    }
  }

  lemma SameLanes(s: State, numbered: State, t: State, k: string)
    requires k in s.lanes && numbered.lanes == s.lanes && numbered.queues == s.queues && Untouched(numbered, t, k)
    ensures Untouched(s, t, k)
  {}

  lemma FailureIsolated(s: State, reason: string, key: string, k: string)
    requires k in s.lanes && k != key && Own(s, k)
    ensures Untouched(s, ResetStreams(s, reason, key), k)
  {
    KeepsAll(s, ResetStreams(s, reason, key), k);
  }

  lemma AnnounceIsolated(c: Config, s: State, m: Message, key: string, k: string)
    requires WellFormed(s) && k in s.lanes && k != key && Own(s, k) && m.Message?
    ensures Untouched(s, Announce(c, s, m, key).0, k)
  {
    match LaneOf(c, s, key)
    case Entered(r) =>
      EnterIsWellFormed(c, s, key);
      EnterIsolates(c, s, key, k);
      var e := Minted(c, s.sequence, key, m);
      SpreadKeys(c, r, key, e);
      if k in r.lanes { SpreadIsolated(c, s, r, key, e, k); }
    case _ => KeepsAll(s, s, k);
  }

  lemma EnterIsolates(c: Config, s: State, key: string, k: string)
    requires WellFormed(s) && k in s.lanes && k != key && LaneOf(c, s, key).Entered?
    ensures var r := LaneOf(c, s, key).state;
      && r.queues == s.queues && key in r.lanes
      && r.lanes[key] == (if key in s.lanes then s.lanes[key] else NEW_LANE)
      && (if k in r.lanes then r.lanes[k] == s.lanes[k] else s.lanes[k].subscribers == map[])
  {}

  lemma SpreadKeys(c: Config, r: State, key: string, e: Event)
    requires WellFormed(r) && key in r.lanes
    ensures Spread(c, r, key, e).lanes.Keys == r.lanes.Keys
  {
    StoreSizes(c, r, key, e);
    TrimIsWellFormed(c, Store(c, r, key, e));
  }

  lemma SpreadIsolated(c: Config, s: State, r: State, key: string, e: Event, k: string)
    requires k in s.lanes && k != key && Own(s, k)
    requires WellFormed(r) && key in r.lanes && k in r.lanes && r.lanes[k] == s.lanes[k] && r.queues == s.queues
    requires r.lanes[key] == if key in s.lanes then s.lanes[key] else NEW_LANE
    ensures Untouched(s, Spread(c, r, key, e), k)
  {
    var stored := Store(c, r, key, e);
    StoreSizes(c, r, key, e);
    TrimIsWellFormed(c, stored);
    TrimAudience(c, stored);
    TrimDrops(c, stored, k);
    forall q | q in s.lanes[k].subscribers ensures q !in r.lanes[key].subscribers {}
  }

  lemma {:induction false} TrimDrops(c: Config, s: State, k: string)
    requires WellFormed(s) && k in s.lanes
    ensures k in Trim(c, s).lanes && Suffix(Trim(c, s).lanes[k].replay, s.lanes[k].replay)
    decreases ReplaySize(s)
  {
    var oldest := Oldest(s.order, s.lanes);
    if ReplaySize(s) > c.bound && oldest.Some? {
      DropShrinks(s, oldest.value);
      TrimDrops(c, DropOldest(s, oldest.value), k);
      if k == oldest.value { SuffixStep(Trim(c, s).lanes[k].replay, s.lanes[k].replay); }
    }
  }

  /** In every reachable state a queue hangs on one lane only, so isolation holds there. */
  lemma RunsAreIsolated(c: Config, steps: seq<Step>, step: Step, k: string)
    requires k in Run(c, steps).bus.lanes && Target(step) != Some(k) && !step.Taking?
    ensures Untouched(Run(c, steps).bus, Next(c, Run(c, steps), step).bus, k)
  {
    RunGood(c, steps);
    var w := Run(c, steps);
    HistoryFollows(c, w, step);
    EnrolledOwns(w, k);
    LanesAreIsolated(c, w.bus, step, k);
  }

  lemma EnrolledOwns(w: World, k: string)
    requires Enrolled(w) && k in w.bus.lanes
    ensures Own(w.bus, k)
  {
    forall l, q | l in w.bus.lanes && l != k && q in w.bus.lanes[l].subscribers
      ensures q !in w.bus.lanes[k].subscribers
    {
      assert w.subs[q].lane == l;
    }
  }

  // ---- cursors of published events

  /** The text a client sends back, read the way open_stream reads it. */
  function ReadCursor(raw: Option<string>): Cursor {
    if raw.None? || raw.value == "" then Absent
    else
      var token := DecodeEventId(raw.value);
      if token.None? then Malformed else Decoded(token.value)
  }

  /** Every logged event carries the cursor minted for its lane and sequence number. */
  lemma {:induction false} LogIsMinted(c: Config, steps: seq<Step>)
    ensures forall i | 0 <= i < |Run(c, steps).log| :: MintedFor(c, Run(c, steps).log[i])
  {
    if steps != [] {
      var before, step := steps[..|steps| - 1], steps[|steps| - 1];
      LogIsMinted(c, before);
      var w := Run(c, before);
      match step
      case Publishing(m, boundary, public) =>
        if Address(boundary, public).Some? { PublishLogs(c, w, m, Address(boundary, public).value); }
      case _ =>
        assert Run(c, steps).log == w.log;
    }
  }

  ghost predicate MintedFor(c: Config, p: Publication) {
    p.event.id == c.mint(p.lane, p.event.sequence) && p.event.sequence >= 1
  }

  lemma PublishLogs(c: Config, w: World, m: Message, key: string)
    requires WellFormed(w.bus)
    requires forall i | 0 <= i < |w.log| :: MintedFor(c, w.log[i])
    ensures forall i | 0 <= i < |PublishingTo(c, w, m, key).log| :: MintedFor(c, PublishingTo(c, w, m, key).log[i])
  {
    var log := PublishingTo(c, w, m, key).log;
    assert log == w.log || (Acceptable(m) && log == w.log + [Publication(key, Minted(c, w.bus.sequence + 1, key, m))]);
  }

  /** Ids are minted the way the service mints them. */
  ghost predicate Faithful(c: Config) {
    forall boundary, n: nat :: c.mint(boundary, n) == EventId(c.stream, c.digest, boundary, n)
  }

  lemma StandardIsFaithful(bound: Bound, stream: Ascii, digest: string -> Digest)
    ensures Faithful(Standard(bound, stream, digest))
  {}

  lemma ReadsBack(c: Config, p: Publication, token: Token)
    requires |c.stream| == 32 && ':' !in c.stream && MintedFor(c, p) && Faithful(c)
    requires p.event.sequence >= 1 && |p.event.id| <= MAX_CURSOR
    requires token == Token(c.stream, BoundaryId(c.digest, p.lane), p.event.sequence)
    ensures ReadCursor(Some(p.event.id)) == Decoded(token)
  {
    EventIdRoundTrip(c.stream, c.digest, p.lane, p.event.sequence);
  }

  lemma ForeignCursor(c: Config, w: World, boundary: string, lane: string, token: Token)
    requires WellFormed(w.bus) && boundary in w.bus.lanes && |boundary| <= 512 && boundary != ""
    requires token.boundaryId == BoundaryId(c.digest, lane) && c.digest(lane) != c.digest(boundary)
    ensures Open(c, w.bus, Decoded(token), {}, boundary).1 == Unavailable
  {
    EnterIsWellFormed(c, w.bus, boundary);
    if token.boundaryId == BoundaryId(c.digest, boundary) { BoundaryIdInjective(c.digest, lane, boundary); }
  }

  lemma TouchKeeps(c: Config, s: State, boundary: string, t: State)
    requires WellFormed(s) && boundary in s.lanes && |boundary| <= 512 && boundary != ""
    requires t == s.(order := Without(s.order, boundary) + [boundary])
    ensures LaneOf(c, s, boundary) == Entered(t) && WellFormed(t) && SubscriberCount(t) == SubscriberCount(s)
  {
    EnterIsWellFormed(c, s, boundary);
    TouchBounds(s, boundary);
  }

  lemma AttachOwn(c: Config, s: State, e: Event, boundary: string, token: Token)
    requires WellFormed(s) && boundary in s.lanes && e in s.lanes[boundary].replay && e.sequence <= s.sequence
    requires SubscriberCount(s) < c.bound
    requires token == Token(c.stream, BoundaryId(c.digest, boundary), e.sequence)
    ensures Resumable(c, s, boundary, token) && InReplay(s.lanes[boundary], token.sequence)
    ensures Attach(c, s, Decoded(token), {}, boundary).1
            == Opened(s.nextQueue, Newer(s.lanes[boundary].replay, token.sequence))
  {
    assert InReplay(s.lanes[boundary], token.sequence);
    SelectAll(Newer(s.lanes[boundary].replay, token.sequence));
  }

  lemma OpenOwn(c: Config, s: State, e: Event, boundary: string, token: Token)
    requires WellFormed(s) && boundary in s.lanes && e in s.lanes[boundary].replay && e.sequence <= s.sequence
    requires SubscriberCount(s) < c.bound && |boundary| <= 512 && boundary != ""
    requires token == Token(c.stream, BoundaryId(c.digest, boundary), e.sequence)
    ensures Resumable(c, s, boundary, token) && InReplay(s.lanes[boundary], token.sequence)
    ensures Open(c, s, Decoded(token), {}, boundary).1
            == Opened(s.nextQueue, Newer(s.lanes[boundary].replay, token.sequence))
  {
    var t := s.(order := Without(s.order, boundary) + [boundary]);
    TouchKeeps(c, s, boundary, t);
    AttachOwn(c, t, e, boundary, token);
    AttachOwn(c, s, e, boundary, token);
  }

  lemma OwnCursor(c: Config, w: World, j: nat, boundary: string, token: Token)
    requires Kept(w) && j < |w.log| && w.log[j].lane == boundary && SubscriberCount(w.bus) < c.bound
    requires boundary in w.bus.lanes && |boundary| <= 512 && boundary != ""
    requires w.log[j].event in w.bus.lanes[boundary].replay
    requires token == Token(c.stream, BoundaryId(c.digest, boundary), w.log[j].event.sequence)
    ensures Open(c, w.bus, Decoded(token), {}, boundary).1
            == Opened(w.bus.nextQueue, After(w.log, boundary, token.sequence))
  {
    SequenceBelow(w, j);
    OpenOwn(c, w.bus, w.log[j].event, boundary, token);
    ResumeIsGapless(c, w, boundary, token);
  }

  /** The id of a retained event, sent back as the cursor, resumes its own lane with exactly
      the later events of that lane, and resumes no lane whose digest differs. */
  lemma PublishedIdResumes(c: Config, steps: seq<Step>, j: nat, boundary: string, w: World, p: Publication)
    requires Faithful(c) && |c.stream| == 32 && ':' !in c.stream
    requires w == Run(c, steps) && j < |w.log| && p == w.log[j] && |p.event.id| <= MAX_CURSOR
    requires boundary in w.bus.lanes && |boundary| <= 512 && boundary != ""
    ensures p.lane == boundary && p.event in w.bus.lanes[boundary].replay && SubscriberCount(w.bus) < c.bound
            ==> Open(c, w.bus, ReadCursor(Some(p.event.id)), {}, boundary).1
                == Opened(w.bus.nextQueue, After(w.log, boundary, p.event.sequence))
    ensures c.digest(p.lane) != c.digest(boundary)
            ==> Open(c, w.bus, ReadCursor(Some(p.event.id)), {}, boundary).1 == Unavailable
  {
    RunGood(c, steps);
    LogIsMinted(c, steps);
    assert MintedFor(c, p);
    var token := Token(c.stream, BoundaryId(c.digest, p.lane), p.event.sequence);
    ReadsBack(c, p, token);
    if c.digest(p.lane) != c.digest(boundary) {
      ForeignCursor(c, w, boundary, p.lane, token);
    } else if p.lane == boundary && p.event in w.bus.lanes[boundary].replay && SubscriberCount(w.bus) < c.bound {
      OwnCursor(c, w, j, boundary, token);
    }
  }

  lemma SequenceBelow(w: World, j: nat)
    requires Kept(w) && j < |w.log|
    ensures w.log[j].event.sequence <= w.bus.sequence
  {}
}
