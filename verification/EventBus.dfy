/** The event bus as values: one function per bus operation. */
module EventBus {
  import opened Wrappers
  import opened EventCursor

  type Bound = n: nat | n > 0 witness 1

  const PUBLIC_LANE := "public"

  /** What the bus is built with: SSE_BOUND, the stream id, the boundary digest and the text
      minted as the id of an event. */
  datatype Config = Config(bound: Bound, stream: Ascii, digest: string -> Digest, mint: (string, nat) -> string)

  /** The bus as the service builds it. */
  function Standard(bound: Bound, stream: Ascii, digest: string -> Digest): Config {
    Config(bound, stream, digest, (boundary: string, n: nat) => EventId(stream, digest, boundary, n))
  }

  datatype Event = Event(sequence: nat, id: string, kind: string, data: string)

  /** What a subscriber queue holds. */
  datatype Item = Put(event: Event) | Reset(reason: string)

  datatype Lane = Lane(replay: seq<Event>, subscribers: map<nat, set<string>>, floor: Option<nat>)

  /** The lanes are an ordered dictionary: `order` runs from least to most recently used.
      Queues are numbered; a queue keeps its contents after it has left its lane. */
  datatype State = State(lanes: map<string, Lane>, order: seq<string>, sequence: nat,
                         queues: map<nat, seq<Item>>, legacy: set<nat>, nextQueue: nat)

  const EMPTY := State(map[], [], 0, map[], {}, 0)
  const NEW_LANE := Lane([], map[], None)

  predicate NoDup(s: seq<string>) { forall i, j | 0 <= i < j < |s| :: s[i] != s[j] }

  ghost predicate WellFormed(s: State) {
    && NoDup(s.order)
    && (forall k :: k in s.order <==> k in s.lanes)
    && (forall q :: q in s.queues ==> q < s.nextQueue)
    && (forall q :: q in s.legacy ==> q < s.nextQueue && q !in s.queues)
    && (forall k, q :: k in s.lanes && q in s.lanes[k].subscribers ==> q in s.queues)
  }

  // ---- sums over the lanes

  function Sum(order: seq<string>, sizes: map<string, nat>): nat
    requires forall k :: k in order ==> k in sizes
  {
    if order == [] then 0 else Sum(order[..|order| - 1], sizes) + sizes[order[|order| - 1]]
  }

  function Depths(lanes: map<string, Lane>): map<string, nat> {
    map k | k in lanes :: |lanes[k].replay|
  }

  function Audiences(lanes: map<string, Lane>): map<string, nat> {
    map k | k in lanes :: |lanes[k].subscribers|
  }

  function ReplaySize(s: State): nat
    requires forall k :: k in s.order ==> k in s.lanes
  {
    Sum(s.order, Depths(s.lanes))
  }

  function SubscriberCount(s: State): nat
    requires forall k :: k in s.order ==> k in s.lanes
  {
    |s.legacy| + Sum(s.order, Audiences(s.lanes))
  }

  // ---- lanes

  datatype LaneResult = Entered(state: State) | BadBoundary | NoRoom

  function Without(order: seq<string>, key: string): (r: seq<string>) {
    if order == [] then []
    else
      var front := Without(order[..|order| - 1], key);
      if order[|order| - 1] == key then front else front + [order[|order| - 1]]
  }

  function FirstIdle(order: seq<string>, lanes: map<string, Lane>): (r: Option<string>)
    requires forall k :: k in order ==> k in lanes
    ensures r.Some? ==> r.value in order && lanes[r.value].subscribers == map[]
    ensures r.None? ==> forall k :: k in order ==> lanes[k].subscribers != map[]
  {
    if order == [] then None
    else if lanes[order[0]].subscribers == map[] then Some(order[0])
    else FirstIdle(order[1..], lanes)
  }

  /** _lane: find the lane and mark it most recently used, creating it when missing and
      evicting the least recently used idle lane when the table is full. */
  function LaneOf(c: Config, s: State, key: string): LaneResult
    requires WellFormed(s)
  {
    if key == "" || |key| > 512 then BadBoundary
    else if key in s.lanes then Entered(s.(order := Without(s.order, key) + [key]))
    else if |s.order| < c.bound then Entered(s.(lanes := s.lanes[key := NEW_LANE], order := s.order + [key]))
    else
      var idle := FirstIdle(s.order, s.lanes);
      if idle.None? then NoRoom
      else Entered(s.(lanes := (s.lanes - {idle.value})[key := NEW_LANE],
                      order := Without(s.order, idle.value) + [key]))
  }

  // ---- streams

  /** A cursor as open_stream receives it: absent, undecodable, or decoded. */
  datatype Cursor = Absent | Malformed | Decoded(token: Token)

  datatype OpenResult =
    | Opened(queue: nat, replay: seq<Event>)
    | Unavailable
    | CursorError
    | BoundaryError
    | CapacityError

  predicate Interested(topics: set<string>, kind: string) { topics == {} || kind in topics }

  /** The events that are newer than a sequence number. */
  function Newer(events: seq<Event>, sequence: nat): seq<Event> {
    if events == [] then []
    else
      var e := events[|events| - 1];
      Newer(events[..|events| - 1], sequence) + (if e.sequence > sequence then [e] else [])
  }

  /** The events a set of topics lets through. */
  function Select(events: seq<Event>, topics: set<string>): seq<Event> {
    if events == [] then []
    else
      var e := events[|events| - 1];
      Select(events[..|events| - 1], topics) + (if Interested(topics, e.kind) then [e] else [])
  }

  predicate InReplay(lane: Lane, sequence: nat) {
    exists i | 0 <= i < |lane.replay| :: lane.replay[i].sequence == sequence
  }

  predicate Resumable(c: Config, s: State, boundary: string, token: Token)
    requires boundary in s.lanes
  {
    && token.stream == c.stream
    && token.boundaryId == BoundaryId(c.digest, boundary)
    && token.sequence <= s.sequence
    && (s.lanes[boundary].floor == Some(token.sequence) || InReplay(s.lanes[boundary], token.sequence))
  }

  function Open(c: Config, s: State, cursor: Cursor, topics: set<string>, boundary: string): (r: (State, OpenResult))
    requires WellFormed(s)
  {
    var entered := LaneOf(c, s, boundary);
    if entered.BadBoundary? then (s, BoundaryError)
    else if entered.NoRoom? then (s, CapacityError)
    else
      EnterIsWellFormed(c, s, boundary);
      Attach(c, entered.state, cursor, topics, boundary)
  }

  function Attach(c: Config, s: State, cursor: Cursor, topics: set<string>, boundary: string): (r: (State, OpenResult))
    requires WellFormed(s) && boundary in s.lanes
  {
    if cursor.Malformed? then (s, CursorError)
    else if cursor.Decoded? && !Resumable(c, s, boundary, cursor.token) then (s, Unavailable)
    else if SubscriberCount(s) >= c.bound then (s, CapacityError)
    else
      var replay :=
        if cursor.Absent? then [] else Select(Newer(s.lanes[boundary].replay, cursor.token.sequence), topics);
      (Join(s, topics, boundary), Opened(s.nextQueue, replay))
  }

  /** A fresh, empty queue joins the subscribers of a lane. */
  function Join(s: State, topics: set<string>, boundary: string): State
    requires boundary in s.lanes
  {
    var lane, q := s.lanes[boundary], s.nextQueue;
    s.(lanes := s.lanes[boundary := lane.(subscribers := lane.subscribers[q := topics])],
       queues := s.queues[q := []], nextQueue := q + 1)
  }

  function Close(s: State, queue: nat, boundary: string): State {
    if boundary in s.lanes then
      var lane := s.lanes[boundary];
      s.(lanes := s.lanes[boundary := lane.(subscribers := lane.subscribers - {queue})])
    else s
  }

  /** The consumer's queue.get. */
  function Take(s: State, queue: nat): State {
    if queue in s.queues && s.queues[queue] != [] then s.(queues := s.queues[queue := s.queues[queue][1..]]) else s
  }

  function ResetStreams(s: State, reason: string, boundary: string): State {
    if boundary in s.lanes then
      var lane := s.lanes[boundary];
      s.(lanes := s.lanes[boundary := lane.(subscribers := map[])],
         queues := map q | q in s.queues :: if q in lane.subscribers then [Reset(reason)] else s.queues[q])
    else s
  }

  // ---- publishing

  /** A message as publish sees it: without JSON form, or with its type and its JSON text. */
  datatype Message = Broken | Message(kind: string, data: string)

  predicate Acceptable(m: Message) {
    m.Message? && m.kind != "" && |m.kind| <= 64 && '\n' !in m.kind && '\r' !in m.kind && |m.data| <= 64 * 1024
  }

  datatype PublishResult =
    | AddressError
    | ProducerFailure
    | LaneError
    | Published(event: Event)

  /** deque(maxlen).append. */
  function Append(bound: Bound, replay: seq<Event>, e: Event): seq<Event> {
    if |replay| >= bound then replay[|replay| - bound + 1..] + [e] else replay + [e]
  }

  /** The lane whose oldest retained event is the oldest of all. */
  function Oldest(order: seq<string>, lanes: map<string, Lane>): (r: Option<string>)
    requires forall k :: k in order ==> k in lanes
    ensures r.Some? ==> r.value in order && lanes[r.value].replay != []
    ensures r.Some? ==> forall k :: k in order && lanes[k].replay != [] ==>
              lanes[r.value].replay[0].sequence <= lanes[k].replay[0].sequence
    ensures r.None? ==> forall k :: k in order ==> lanes[k].replay == []
  {
    if order == [] then None
    else
      var k := order[|order| - 1];
      var best := Oldest(order[..|order| - 1], lanes);
      if lanes[k].replay == [] then best
      else if best.None? || lanes[k].replay[0].sequence < lanes[best.value].replay[0].sequence then Some(k)
      else best
  }

  function DropOldest(s: State, key: string): State
    requires key in s.lanes && s.lanes[key].replay != []
  {
    var lane := s.lanes[key];
    s.(lanes := s.lanes[key := lane.(replay := lane.replay[1..], floor := Some(lane.replay[0].sequence))])
  }

  /** _trim_replay: drop oldest events until the shared replay budget holds. */
  function Trim(c: Config, s: State): State
    requires WellFormed(s)
    decreases ReplaySize(s)
  {
    var oldest := Oldest(s.order, s.lanes);
    if ReplaySize(s) <= c.bound || oldest.None? then s
    else
      DropShrinks(s, oldest.value);
      Trim(c, DropOldest(s, oldest.value))
  }

  /** One subscriber's queue after an event it is interested in. */
  function Deliver(c: Config, queue: seq<Item>, e: Event): seq<Item> {
    if |queue| >= c.bound then [Reset("slow consumer")] else queue + [Put(e)]
  }

  function FanOut(c: Config, s: State, key: string, e: Event): State
    requires WellFormed(s) && key in s.lanes
  {
    var lane := s.lanes[key];
    var subs := lane.subscribers;
    s.(lanes := s.lanes[key := lane.(subscribers :=
                  map q | q in subs && !(Interested(subs[q], e.kind) && |s.queues[q]| >= c.bound) :: subs[q])],
       queues := map q | q in s.queues ::
                  if q in subs && Interested(subs[q], e.kind) then Deliver(c, s.queues[q], e) else s.queues[q])
  }

  /** Storing an event at the end of its lane's deque. */
  function Store(c: Config, s: State, key: string, e: Event): State
    requires key in s.lanes
  {
    s.(lanes := s.lanes[key := s.lanes[key].(replay := Append(c.bound, s.lanes[key].replay, e))])
  }

  /** The lane a publication names: public, or one protected boundary, never both or neither. */
  function Address(boundary: Option<string>, public: bool): Option<string> {
    if public == boundary.Some? || boundary == Some(PUBLIC_LANE) then None
    else if public then Some(PUBLIC_LANE)
    else boundary
  }

  function Publish(c: Config, s: State, m: Message, boundary: Option<string>, public: bool): (r: (State, PublishResult))
    requires WellFormed(s)
  {
    match Address(boundary, public)
    case None => (s, AddressError)
    case Some(key) => PublishTo(c, s, m, key)
  }

  function PublishTo(c: Config, s: State, m: Message, key: string): (r: (State, PublishResult))
    requires WellFormed(s)
  {
    if !Acceptable(m) then (ResetStreams(s, "producer failure", key), ProducerFailure)
    else Announce(c, s.(sequence := s.sequence + 1), m, key)
  }

  function Minted(c: Config, sequence: nat, key: string, m: Message): Event
    requires m.Message?
  {
    Event(sequence, c.mint(key, sequence), m.kind, m.data)
  }

  /** The second half of publish: the sequence number is taken before the lane is found. */
  function Announce(c: Config, s: State, m: Message, key: string): (r: (State, PublishResult))
    requires WellFormed(s) && m.Message?
  {
    var entered := LaneOf(c, s, key);
    if !entered.Entered? then (s, LaneError)
    else
      EnterIsWellFormed(c, s, key);
      var e := Minted(c, s.sequence, key, m);
      (Spread(c, entered.state, key, e), Published(e))
  }

  function Spread(c: Config, s: State, key: string, e: Event): State
    requires WellFormed(s) && key in s.lanes
  {
    StoreIsWellFormed(c, s, key, e);
    TrimIsWellFormed(c, Store(c, s, key, e));
    FanOut(c, Trim(c, Store(c, s, key, e)), key, e)
  }

  /** subscribe and unsubscribe: the unpartitioned queues count towards the same bound. */
  function Subscribe(c: Config, s: State): State
    requires WellFormed(s)
  {
    if SubscriberCount(s) >= c.bound then s else s.(legacy := s.legacy + {s.nextQueue}, nextQueue := s.nextQueue + 1)
  }

  function Unsubscribe(s: State, queue: nat): State { s.(legacy := s.legacy - {queue}) }

  // ---- facts the functions need to be defined

  lemma PublishAnnounces(c: Config, s: State, m: Message, key: string, numbered: State)
    requires WellFormed(s) && Acceptable(m) && numbered == s.(sequence := s.sequence + 1)
    ensures WellFormed(numbered) && PublishTo(c, s, m, key) == Announce(c, numbered, m, key)
  {}

  lemma EnterKeepsSequence(c: Config, s: State, key: string)
    requires WellFormed(s) && LaneOf(c, s, key).Entered?
    ensures LaneOf(c, s, key).state.sequence == s.sequence
  {}

  lemma {:induction false} WithoutContents(order: seq<string>, key: string)
    requires NoDup(order)
    ensures forall k :: k in Without(order, key) <==> k in order && k != key
    ensures NoDup(Without(order, key))
  {
    if order != [] {
      var front, last := order[..|order| - 1], order[|order| - 1];
      assert order == front + [last];
      WithoutContents(front, key);
      assert last !in Without(front, key);
    }
  }

  lemma EnterIsWellFormed(c: Config, s: State, key: string)
    requires WellFormed(s)
    ensures var r := LaneOf(c, s, key); r.Entered? ==> WellFormed(r.state) && key in r.state.lanes
  {
    if key in s.lanes {
      WithoutContents(s.order, key);
    } else if |s.order| >= c.bound && FirstIdle(s.order, s.lanes).Some? {
      WithoutContents(s.order, FirstIdle(s.order, s.lanes).value);
    }
  }

  lemma {:induction false} SumUpdate(order: seq<string>, sizes: map<string, nat>, key: string, v: nat)
    requires NoDup(order) && forall k :: k in order ==> k in sizes
    ensures Sum(order, sizes[key := v]) == Sum(order, sizes) + (if key in order then v - sizes[key] else 0)
  {
    if order != [] {
      var front := order[..|order| - 1];
      assert order == front + [order[|order| - 1]];
      SumUpdate(front, sizes, key, v);
    }
  }

  lemma {:induction false} SumWithout(order: seq<string>, sizes: map<string, nat>, key: string)
    requires NoDup(order) && forall k :: k in order ==> k in sizes
    requires forall k :: k in Without(order, key) ==> k in sizes
    ensures Sum(Without(order, key), sizes) == Sum(order, sizes) - (if key in order then sizes[key] else 0)
  {
    if order != [] {
      var front, last := order[..|order| - 1], order[|order| - 1];
      assert order == front + [last];
      WithoutContents(front, key);
      SumWithout(front, sizes, key);
      var w := Without(front, key);
      assert last != key ==> (w + [last])[..|w|] == w;
    }
  }

  lemma {:induction false} SumAgrees(order: seq<string>, a: map<string, nat>, b: map<string, nat>)
    requires forall k :: k in order ==> k in a && k in b && a[k] == b[k]
    ensures Sum(order, a) == Sum(order, b)
  {
    if order != [] {
      assert order == order[..|order| - 1] + [order[|order| - 1]];
      SumAgrees(order[..|order| - 1], a, b);
    }
  }

  lemma DropShrinks(s: State, key: string)
    requires WellFormed(s) && key in s.lanes && s.lanes[key].replay != []
    ensures WellFormed(DropOldest(s, key)) && ReplaySize(DropOldest(s, key)) == ReplaySize(s) - 1
  {
    var v := |s.lanes[key].replay| - 1;
    SumUpdate(s.order, Depths(s.lanes), key, v);
    assert Depths(DropOldest(s, key).lanes) == Depths(s.lanes)[key := v];
  }

  lemma {:induction false} TrimIsWellFormed(c: Config, s: State)
    requires WellFormed(s)
    ensures WellFormed(Trim(c, s)) && ReplaySize(Trim(c, s)) <= c.bound
    ensures Trim(c, s).order == s.order && Trim(c, s).queues == s.queues && Trim(c, s).lanes.Keys == s.lanes.Keys
    decreases ReplaySize(s)
  {
    var oldest := Oldest(s.order, s.lanes);
    if oldest.None? {
      AllEmpty(s.order, s.lanes);
    } else if ReplaySize(s) > c.bound {
      DropShrinks(s, oldest.value);
      TrimIsWellFormed(c, DropOldest(s, oldest.value));
      assert DropOldest(s, oldest.value).lanes.Keys == s.lanes.Keys;
    }
  }

  lemma StoreIsWellFormed(c: Config, s: State, key: string, e: Event)
    requires WellFormed(s) && key in s.lanes
    ensures WellFormed(Store(c, s, key, e)) && key in Store(c, s, key, e).lanes
  {}

  lemma {:induction false} AllEmpty(order: seq<string>, lanes: map<string, Lane>)
    requires forall k :: k in order ==> k in lanes && lanes[k].replay == []
    ensures Sum(order, Depths(lanes)) == 0
  {
    if order != [] { AllEmpty(order[..|order| - 1], lanes); }
  }
}
