/** Runs of the bus with the history a reader needs to say what a client should see. */
module BusHistory {
  import opened Wrappers
  import opened EventBus

  datatype Publication = Publication(lane: string, event: Event)

  /** What is remembered about one subscription: its lane and topics, the last event
      published before it opened, where its replay starts, whether nothing between that
      start and the opening was lost, what it was replayed and what it has taken. */
  datatype Subscription = Subscription(lane: string, topics: set<string>, since: nat, from: nat,
                                       complete: bool, replay: seq<Event>, taken: seq<Item>)

  /** The bus together with its history. `born` is the last event published before a lane was
      created, `horizon` the newest event ever dropped from a deque, and `stale` the lanes
      whose full deque was appended to since their resume floor was set. */
  datatype World = World(bus: State, log: seq<Publication>, born: map<string, nat>, horizon: nat,
                         stale: set<string>, subs: map<nat, Subscription>)

  const START := World(EMPTY, [], map[], 0, {}, map[])

  datatype Step =
    | Publishing(message: Message, protected: Option<string>, public: bool)
    | Opening(cursor: Cursor, topics: set<string>, boundary: string)
    | Closing(queue: nat, boundary: string)
    | Taking(queue: nat)
    | Subscribing
    | Unsubscribing(queue: nat)

  function Last(log: seq<Publication>): nat {
    if log == [] then 0 else log[|log| - 1].event.sequence
  }

  /** The events of one boundary newer than a sequence number, from the whole log. */
  function After(log: seq<Publication>, lane: string, sequence: nat): seq<Event> {
    if log == [] then []
    else
      var p := log[|log| - 1];
      After(log[..|log| - 1], lane, sequence)
        + (if p.lane == lane && p.event.sequence > sequence then [p.event] else [])
  }

  function Wanted(log: seq<Publication>, lane: string, sequence: nat, topics: set<string>): seq<Event> {
    Select(After(log, lane, sequence), topics)
  }

  function Puts(events: seq<Event>): (items: seq<Item>)
    ensures |items| == |events|
  {
    seq(|events|, i requires 0 <= i < |events| => Put(events[i]))
  }

  // ---- the steps

  function Entering(w: World, bus: State, key: string): World {
    w.(bus := bus,
       born := if key in w.bus.lanes then w.born else w.born[key := Last(w.log)],
       stale := set k | k in w.stale && k in w.bus.lanes && k in bus.lanes)
  }

  function Storing(c: Config, w: World, key: string, e: Event): World
    requires key in w.bus.lanes
  {
    var had := w.bus.lanes[key].replay;
    var full := |had| >= c.bound;
    w.(bus := Store(c, w.bus, key, e), log := w.log + [Publication(key, e)],
       horizon := if full && |had| > 0 then had[0].sequence else w.horizon,
       stale := if full then w.stale + {key} else w.stale)
  }

  function Trimming(c: Config, w: World): World
    requires WellFormed(w.bus)
  {
    var oldest := Oldest(w.bus.order, w.bus.lanes);
    if ReplaySize(w.bus) <= c.bound || oldest.None? then w.(bus := Trim(c, w.bus))
    else w.(bus := Trim(c, w.bus), horizon := w.bus.lanes[oldest.value].replay[0].sequence,
            stale := w.stale - {oldest.value})
  }

  /** The history of one publication whose lane was entered as `r`. */
  function Announcing(c: Config, w: World, r: State, key: string, e: Event): World
    requires WellFormed(r) && key in r.lanes
  {
    Trimming(c, Storing(c, Entering(w, r, key), key, e)).(bus := Spread(c, r, key, e))
  }

  function PublishingTo(c: Config, w: World, m: Message, key: string): World
    requires WellFormed(w.bus)
  {
    if !Acceptable(m) then w.(bus := ResetStreams(w.bus, "producer failure", key))
    else AnnouncingTo(c, w, m, key, w.bus.(sequence := w.bus.sequence + 1))
  }

  function AnnouncingTo(c: Config, w: World, m: Message, key: string, numbered: State): World
    requires WellFormed(numbered) && m.Message?
  {
    var entered := LaneOf(c, numbered, key);
    if !entered.Entered? then w.(bus := numbered)
    else
      EnterIsWellFormed(c, numbered, key);
      Announcing(c, w, entered.state, key, Minted(c, numbered.sequence, key, m))
  }

  /** The subscription that opening records. */
  function Recorded(w: World, cursor: Cursor, topics: set<string>, boundary: string, replay: seq<Event>): Subscription
    requires boundary in w.bus.lanes && !cursor.Malformed?
  {
    var from := if cursor.Absent? then Last(w.log) else cursor.token.sequence;
    var complete := cursor.Absent? || InReplay(w.bus.lanes[boundary], from) || boundary !in w.stale;
    Subscription(boundary, topics, Last(w.log), from, complete, replay, [])
  }

  function Attaching(c: Config, w: World, cursor: Cursor, topics: set<string>, boundary: string): World
    requires WellFormed(w.bus) && boundary in w.bus.lanes
  {
    var (s, result) := Attach(c, w.bus, cursor, topics, boundary);
    if !result.Opened? then w
    else w.(bus := s, subs := w.subs[result.queue := Recorded(w, cursor, topics, boundary, result.replay)])
  }

  function Took(w: World, queue: nat): World {
    if queue in w.subs && queue in w.bus.queues && w.bus.queues[queue] != [] then
      w.(bus := Take(w.bus, queue),
         subs := w.subs[queue := w.subs[queue].(taken := w.subs[queue].taken + [w.bus.queues[queue][0]])])
    else w.(bus := Take(w.bus, queue))
  }

  function Next(c: Config, w: World, step: Step): World
    requires WellFormed(w.bus)
  {
    match step
    case Publishing(m, boundary, public) =>
      var key := Address(boundary, public);
      if key.None? then w else PublishingTo(c, w, m, key.value)
    case Opening(cursor, topics, boundary) =>
      var entered := LaneOf(c, w.bus, boundary);
      if !entered.Entered? then w
      else
        EnterIsWellFormed(c, w.bus, boundary);
        Attaching(c, Entering(w, entered.state, boundary), cursor, topics, boundary)
    case Closing(queue, boundary) => w.(bus := Close(w.bus, queue, boundary))
    case Taking(queue) => Took(w, queue)
    case Subscribing => w.(bus := Subscribe(c, w.bus))
    case Unsubscribing(queue) => w.(bus := Unsubscribe(w.bus, queue))
  }

  // ---- what every reachable world satisfies

  predicate Increasing(log: seq<Publication>) {
    forall i, j | 0 <= i < j < |log| :: log[i].event.sequence < log[j].event.sequence
  }

  function Max(a: nat, b: nat): nat { if a < b then b else a }

  /** An event of the lane lies above `low` but not above `high`. */
  ghost predicate Lost(log: seq<Publication>, lane: string, low: nat, high: nat) {
    exists i | 0 <= i < |log| :: log[i].lane == lane && low < log[i].event.sequence <= high
  }

  /** A lane's deque is exactly its boundary's log above the horizon and its creation. */
  ghost predicate LaneKept(w: World, k: string)
    requires k in w.bus.lanes
  {
    var lane := w.bus.lanes[k];
    && k in w.born
    && w.born[k] <= Last(w.log)
    && lane.replay == After(w.log, k, Max(w.horizon, w.born[k]))
    && (lane.floor.Some? ==>
          && w.born[k] < lane.floor.value <= w.horizon
          && (k in w.stale <==> Lost(w.log, k, lane.floor.value, w.horizon)))
  }

  ghost predicate Kept(w: World) {
    && WellFormed(w.bus)
    && Increasing(w.log)
    && Last(w.log) <= w.bus.sequence
    && w.horizon <= Last(w.log)
    && (forall k :: k in w.bus.lanes ==> LaneKept(w, k))
    && (forall k :: k in w.stale ==> k in w.bus.lanes)
  }

  ghost predicate Bounded(c: Config, s: State)
    requires WellFormed(s)
  {
    && |s.order| <= c.bound
    && ReplaySize(s) <= c.bound
    && SubscriberCount(s) <= c.bound
    && (forall q :: q in s.queues ==> |s.queues[q]| <= c.bound)
  }

  /** A lane goes stale only while its deque is full. */
  ghost predicate StaleIsFull(c: Config, w: World) {
    forall k :: k in w.stale && k in w.bus.lanes ==> |w.bus.lanes[k].replay| == c.bound
  }

  ghost predicate Attached(w: World, q: nat)
    requires q in w.subs
  {
    w.subs[q].lane in w.bus.lanes && q in w.bus.lanes[w.subs[q].lane].subscribers
  }

  /** A prefix of what was wanted, perhaps ended by one reset. */
  ghost predicate Settled(items: seq<Item>, wanted: seq<Event>) {
    exists n: nat | n <= |wanted| :: SettledAt(items, wanted, n)
  }

  ghost predicate SettledAt(items: seq<Item>, wanted: seq<Event>, n: nat)
    requires n <= |wanted|
  {
    items == Puts(wanted[..n]) || exists reason :: items == Puts(wanted[..n]) + [Reset(reason)]
  }

  ghost predicate Served(w: World, q: nat)
    requires q in w.subs && q in w.bus.queues
  {
    var b := w.subs[q];
    var wanted := Wanted(w.log, b.lane, b.since, b.topics);
    && b.from <= b.since <= Last(w.log)
    && (b.complete ==> Wanted(w.log, b.lane, b.from, b.topics) == b.replay + wanted)
    && (if Attached(w, q) then b.taken + w.bus.queues[q] == Puts(wanted)
        else Settled(b.taken + w.bus.queues[q], wanted))
  }

  /** Every queue has a subscription, and hangs at most on that subscription's lane. */
  ghost predicate Enrolled(w: World) {
    && w.subs.Keys == w.bus.queues.Keys
    && (forall k, q :: k in w.bus.lanes && q in w.bus.lanes[k].subscribers ==>
          q in w.subs && w.subs[q].lane == k && w.subs[q].topics == w.bus.lanes[k].subscribers[q])
  }

  ghost predicate Delivered(w: World) {
    && Enrolled(w)
    && (forall q :: q in w.subs ==> Served(w, q))
  }

  ghost predicate Good(c: Config, w: World) {
    Kept(w) && Bounded(c, w.bus) && StaleIsFull(c, w) && Delivered(w)
  }

  /** The world after a whole run. */
  ghost function Run(c: Config, steps: seq<Step>): (w: World)
    ensures WellFormed(w.bus)
  {
    if steps == [] then START
    else
      var w := Run(c, steps[..|steps| - 1]);
      NextIsWellFormed(c, w, steps[|steps| - 1]);
      Next(c, w, steps[|steps| - 1])
  }

  lemma RunNext(c: Config, steps: seq<Step>, step: Step)
    ensures Run(c, steps + [step]) == Next(c, Run(c, steps), step)
  {
    assert (steps + [step])[..|steps|] == steps;
  }

  lemma NextIsWellFormed(c: Config, w: World, step: Step)
    requires WellFormed(w.bus)
    ensures WellFormed(Next(c, w, step).bus)
  {
    HistoryFollows(c, w, step);
    match step
    case Publishing(m, boundary, public) =>
      if Address(boundary, public).Some? { PublishIsWellFormed(c, w.bus, m, Address(boundary, public).value); }
    case Opening(cursor, topics, boundary) => OpenIsWellFormed(c, w.bus, cursor, topics, boundary);
    case Closing(queue, boundary) => CloseIsWellFormed(w.bus, queue, boundary);
    case Taking(queue) =>
    case Subscribing =>
    case Unsubscribing(queue) =>
  }

  lemma CloseIsWellFormed(s: State, queue: nat, boundary: string)
    requires WellFormed(s)
    ensures WellFormed(Close(s, queue, boundary))
  {}

  lemma OpenIsWellFormed(c: Config, s: State, cursor: Cursor, topics: set<string>, boundary: string)
    requires WellFormed(s)
    ensures WellFormed(Open(c, s, cursor, topics, boundary).0)
  {
    EnterIsWellFormed(c, s, boundary);
    var entered := LaneOf(c, s, boundary);
    if entered.Entered? { AttachIsWellFormed(c, entered.state, cursor, topics, boundary); }
  }

  lemma AttachIsWellFormed(c: Config, s: State, cursor: Cursor, topics: set<string>, boundary: string)
    requires WellFormed(s) && boundary in s.lanes
    ensures WellFormed(Attach(c, s, cursor, topics, boundary).0)
  {}

  /** What one step does to the bus alone. */
  function Effect(c: Config, s: State, step: Step): State
    requires WellFormed(s)
  {
    match step
    case Publishing(m, boundary, public) => Publish(c, s, m, boundary, public).0
    case Opening(cursor, topics, boundary) => Open(c, s, cursor, topics, boundary).0
    case Closing(queue, boundary) => Close(s, queue, boundary)
    case Taking(queue) => Take(s, queue)
    case Subscribing => Subscribe(c, s)
    case Unsubscribing(queue) => Unsubscribe(s, queue)
  }

  /** The history follows the bus and never steers it. */
  lemma HistoryFollows(c: Config, w: World, step: Step)
    requires WellFormed(w.bus)
    ensures Next(c, w, step).bus == Effect(c, w.bus, step)
  {
    match step
    case Publishing(m, boundary, public) =>
      if Address(boundary, public).Some? { PublishingFollows(c, w, m, Address(boundary, public).value); }
    case Opening(cursor, topics, boundary) => OpeningFollows(c, w, cursor, topics, boundary);
    case _ =>
  }

  lemma PublishingFollows(c: Config, w: World, m: Message, key: string)
    requires WellFormed(w.bus)
    ensures PublishingTo(c, w, m, key).bus == PublishTo(c, w.bus, m, key).0
  {
    if Acceptable(m) {
      var numbered := w.bus.(sequence := w.bus.sequence + 1);
      PublishAnnounces(c, w.bus, m, key, numbered);
      AcceptableFollows(c, w, m, key, numbered);
    }
  }

  lemma AcceptableFollows(c: Config, w: World, m: Message, key: string, numbered: State)
    requires WellFormed(w.bus) && Acceptable(m) && numbered == w.bus.(sequence := w.bus.sequence + 1)
    requires WellFormed(numbered)
    ensures PublishingTo(c, w, m, key).bus == Announce(c, numbered, m, key).0
  {
    PublishingAnnounces(c, w, m, key, numbered);
    AnnouncingFollows(c, w, m, key, numbered);
  }

  lemma PublishingAnnounces(c: Config, w: World, m: Message, key: string, numbered: State)
    requires WellFormed(w.bus) && Acceptable(m) && numbered == w.bus.(sequence := w.bus.sequence + 1)
    requires WellFormed(numbered)
    ensures PublishingTo(c, w, m, key) == AnnouncingTo(c, w, m, key, numbered)
  {}

  lemma AnnouncingFollows(c: Config, w: World, m: Message, key: string, numbered: State)
    requires WellFormed(numbered) && m.Message?
    ensures AnnouncingTo(c, w, m, key, numbered).bus == Announce(c, numbered, m, key).0
  {}

  lemma OpeningFollows(c: Config, w: World, cursor: Cursor, topics: set<string>, boundary: string)
    requires WellFormed(w.bus)
    ensures Next(c, w, Opening(cursor, topics, boundary)).bus == Open(c, w.bus, cursor, topics, boundary).0
  {}

  lemma PublishIsWellFormed(c: Config, s: State, m: Message, key: string)
    requires WellFormed(s)
    ensures WellFormed(PublishTo(c, s, m, key).0)
  {
    if Acceptable(m) {
      var numbered := s.(sequence := s.sequence + 1);
      assert WellFormed(numbered);
      AnnounceIsWellFormed(c, numbered, m, key);
      assert PublishTo(c, s, m, key) == Announce(c, numbered, m, key);
    } else {
      ResetIsWellFormed(s, "producer failure", key);
    }
  }

  lemma AnnounceIsWellFormed(c: Config, s: State, m: Message, key: string)
    requires WellFormed(s) && m.Message?
    ensures WellFormed(Announce(c, s, m, key).0)
  {
    EnterIsWellFormed(c, s, key);
    if LaneOf(c, s, key).Entered? {
      SpreadIsWellFormed(c, LaneOf(c, s, key).state, key, Announce(c, s, m, key).1.event);
    }
  }

  lemma SpreadIsWellFormed(c: Config, s: State, key: string, e: Event)
    requires WellFormed(s) && key in s.lanes
    ensures WellFormed(Spread(c, s, key, e))
  {
    TrimIsWellFormed(c, Store(c, s, key, e));
    FanOutIsWellFormed(c, Trim(c, Store(c, s, key, e)), key, e);
  }

  lemma ResetIsWellFormed(s: State, reason: string, boundary: string)
    requires WellFormed(s)
    ensures WellFormed(ResetStreams(s, reason, boundary))
  {}

  lemma FanOutIsWellFormed(c: Config, s: State, key: string, e: Event)
    requires WellFormed(s) && key in s.lanes
    ensures WellFormed(FanOut(c, s, key, e))
  {}
}
