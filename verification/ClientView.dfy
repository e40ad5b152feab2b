/** From publication to client: the frames of a stream over a bus subscription follow the
    publication log. */
module ClientView {
  import opened Wrappers
  import opened EventBus
  import opened BusHistory
  import BusTheorems
  import opened StreamSse

  /** The items that arrived during some waits. */
  function Items(waits: seq<Wait>): seq<Item> {
    if waits == [] then []
    else
      var w := waits[|waits| - 1];
      Items(waits[..|waits| - 1]) + (if w.Arrives? then [w.item] else [])
  }

  function EventsIn(items: seq<Item>): seq<Event> {
    if items == [] then []
    else
      var i := items[|items| - 1];
      EventsIn(items[..|items| - 1]) + (if i.Put? then [i.event] else [])
  }

  lemma {:induction false} EventsJoin(a: seq<Item>, b: seq<Item>)
    ensures EventsIn(a + b) == EventsIn(a) + EventsIn(b)
  {
    if b == [] {
      assert a + b == a;
    } else {
      var front, last := b[..|b| - 1], b[|b| - 1];
      EventsJoin(a, front);
      assert (a + b)[..|a + b| - 1] == a + front;
    }
  }

  lemma {:induction false} ArrivalsAreItems(waits: seq<Wait>)
    ensures Arrivals(waits) == EventsIn(Items(waits))
  {
    if waits != [] {
      var front, w := waits[..|waits| - 1], waits[|waits| - 1];
      ArrivalsAreItems(front);
      if w.Arrives? {
        EventsJoin(Items(front), [w.item]);
        assert [w.item][..0] == [];
      } else {
        assert Items(waits) == Items(front);
      }
    }
  }

  lemma {:induction false} EventsOfPuts(events: seq<Event>)
    ensures EventsIn(Puts(events)) == events
  {
    if events != [] {
      var front := events[..|events| - 1];
      EventsOfPuts(front);
      assert Puts(events)[..|events| - 1] == Puts(front);
    }
  }

  lemma EventsOfSettled(items: seq<Item>, wanted: seq<Event>)
    requires Settled(items, wanted)
    ensures EventsIn(items) <= wanted
  {
    var n: nat :| n <= |wanted| && SettledAt(items, wanted, n);
    EventsOfPuts(wanted[..n]);
    if items != Puts(wanted[..n]) {
      var reason :| items == Puts(wanted[..n]) + [Reset(reason)];
      EventsJoin(Puts(wanted[..n]), [Reset(reason)]);
    }
  }

  /** What a client is sent is a prefix of what was published for it. `trace` is any trace of
      the stream of subscription q that consumed the items the subscription has taken. */
  lemma ClientSeesTheLog(c: Config, steps: seq<Step>, q: nat, trace: seq<Action>)
    requires q in Run(c, steps).subs && Run(c, steps).subs[q].complete
    requires Items(Consumed(trace)) == Run(c, steps).subs[q].taken
    requires Emitted(trace) <= Run(c, steps).subs[q].replay + Arrivals(Consumed(trace))
    ensures var w := Run(c, steps); var b := w.subs[q];
      Emitted(trace) <= Wanted(w.log, b.lane, b.from, b.topics)
  {
    var w := Run(c, steps);
    var b := w.subs[q];
    var wanted := Wanted(w.log, b.lane, b.from, b.topics);
    BusTheorems.Delivery(c, steps, q);
    ArrivalsAreItems(Consumed(trace));
    var rest := w.bus.queues[q];
    EventsOfPuts(b.replay);
    EventsJoin(Puts(b.replay), b.taken);
    EventsJoin(Puts(b.replay) + b.taken, rest);
    if Attached(w, q) { EventsOfPuts(wanted); } else { EventsOfSettled(BusTheorems.Seen(w, q), wanted); }
    assert EventsIn(BusTheorems.Seen(w, q)) == b.replay + EventsIn(b.taken) + EventsIn(rest);
    assert b.replay + EventsIn(b.taken) <= EventsIn(BusTheorems.Seen(w, q)) <= wanted;
  }
}
