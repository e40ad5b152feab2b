/** The server-sent event stream of one subscription, for every schedule of arrivals,
    timeouts, authority answers and disconnections. */
module StreamSse {
  import opened Wrappers
  import opened EventBus

  /** How one wait on the queue ends. */
  datatype Wait = Arrives(item: Item) | TimesOut

  datatype Frame = EventFrame(event: Event) | ResetFrame(reason: string) | AuthorityLost | Heartbeat

  /** Everything the stream does that can be observed, in order. */
  datatype Action =
    | Check(current: bool)
    | Emit(frame: Frame)
    | Waited(wait: Wait)
    | CloseSubscription
    | CloseAuthority

  // ---- what a trace shows

  /** The events a trace emits. */
  function Emitted(trace: seq<Action>): seq<Event> {
    if trace == [] then []
    else
      var a := trace[|trace| - 1];
      Emitted(trace[..|trace| - 1]) + (if a.Emit? && a.frame.EventFrame? then [a.frame.event] else [])
  }

  /** The answers the authority gave, in order. */
  function Asks(trace: seq<Action>): seq<bool> {
    if trace == [] then []
    else
      var a := trace[|trace| - 1];
      Asks(trace[..|trace| - 1]) + (if a.Check? then [a.current] else [])
  }

  /** The authority's first n answers. */
  function Given(answers: nat -> bool, n: nat): seq<bool> {
    seq(n, i requires 0 <= i < n => answers(i))
  }

  /** The waits that ended, in order. */
  function Consumed(trace: seq<Action>): seq<Wait> {
    if trace == [] then []
    else
      var a := trace[|trace| - 1];
      Consumed(trace[..|trace| - 1]) + (if a.Waited? then [a.wait] else [])
  }

  /** The number of frames sent. */
  function Frames(trace: seq<Action>): nat {
    if trace == [] then 0 else Frames(trace[..|trace| - 1]) + if trace[|trace| - 1].Emit? then 1 else 0
  }

  /** The number of heartbeats sent. */
  function Beats(trace: seq<Action>): nat {
    if trace == [] then 0
    else Beats(trace[..|trace| - 1]) + if trace[|trace| - 1] == Emit(Heartbeat) then 1 else 0
  }

  /** The events that arrive on the queue. */
  function Arrivals(waits: seq<Wait>): seq<Event> {
    if waits == [] then []
    else
      var w := waits[|waits| - 1];
      Arrivals(waits[..|waits| - 1]) + (if w.Arrives? && w.item.Put? then [w.item.event] else [])
  }

  // ---- when heartbeats are due

  /** The time waited since the last heartbeat: waits that time out add up, arrivals do not
      reset it. */
  function Waiting(waits: seq<Wait>, heartbeat: real, timeout: real): real {
    if waits == [] then 0.0
    else
      var e := Waiting(waits[..|waits| - 1], heartbeat, timeout);
      if waits[|waits| - 1].Arrives? then e
      else if e + timeout >= heartbeat then 0.0
      else e + timeout
  }

  /** The heartbeats due after some waits. */
  function Due(waits: seq<Wait>, heartbeat: real, timeout: real): nat {
    if waits == [] then 0
    else
      var front := waits[..|waits| - 1];
      Due(front, heartbeat, timeout) + if Late(front, waits[|waits| - 1], heartbeat, timeout) then 1 else 0
  }

  predicate Late(before: seq<Wait>, w: Wait, heartbeat: real, timeout: real) {
    w.TimesOut? && Waiting(before, heartbeat, timeout) + timeout >= heartbeat
  }

  function Timeouts(waits: seq<Wait>): nat {
    if waits == [] then 0 else Timeouts(waits[..|waits| - 1]) + if waits[|waits| - 1].TimesOut? then 1 else 0
  }

  function Shorter(heartbeat: real, currentness: real): real {
    if heartbeat < currentness then heartbeat else currentness
  }

  /** Every k-th timeout brings a heartbeat, for the least k with k timeouts as long as the
      heartbeat period. */
  lemma {:induction false} DueEveryKth(waits: seq<Wait>, heartbeat: real, timeout: real, k: nat)
    requires k >= 1 && timeout > 0.0 && Lasting(k - 1, timeout) < heartbeat <= Lasting(k, timeout)
    ensures Due(waits, heartbeat, timeout) == Timeouts(waits) / k
    ensures Waiting(waits, heartbeat, timeout) == Lasting(Timeouts(waits) % k, timeout)
  {
    if waits != [] {
      var front, n := waits[..|waits| - 1], Timeouts(waits[..|waits| - 1]);
      DueEveryKth(front, heartbeat, timeout, k);
      TimeoutCounts(n, k, heartbeat, timeout, Waiting(front, heartbeat, timeout));
    }
  }

  function Lasting(timeouts: nat, timeout: real): real { timeouts as real * timeout }

  lemma TimeoutCounts(n: nat, k: nat, heartbeat: real, timeout: real, waited: real)
    requires k >= 1 && timeout > 0.0 && Lasting(k - 1, timeout) < heartbeat <= Lasting(k, timeout)
    requires waited == Lasting(n % k, timeout)
    ensures if waited + timeout >= heartbeat then (n + 1) / k == n / k + 1 && Lasting((n + 1) % k, timeout) == 0.0
            else (n + 1) / k == n / k && Lasting((n + 1) % k, timeout) == waited + timeout
  {
    NextTimeout(n, k);
    StepsOfTime(n % k, k, heartbeat, timeout);
  }

  lemma NextTimeout(n: nat, k: nat)
    requires k >= 1
    ensures if n % k == k - 1 then (n + 1) / k == n / k + 1 && (n + 1) % k == 0
            else (n + 1) / k == n / k && (n + 1) % k == n % k + 1
  {
    var q, r := n / k, n % k;
    assert n == k * q + r;
    if r == k - 1 {
      assert n + 1 == k * (q + 1);
      Quotient(n + 1, k, q + 1, 0);
    } else {
      Quotient(n + 1, k, q, r + 1);
    }
  }

  lemma Quotient(n: nat, k: nat, q: nat, r: nat)
    requires k >= 1 && n == k * q + r && r < k
    ensures n / k == q && n % k == r
  {
    var d := n / k - q;
    assert k * d == r - n % k;
    assert d >= 1 ==> k * d >= k;
    assert d <= -1 ==> k * d + k <= 0;
  }

  lemma StepsOfTime(m: nat, k: nat, heartbeat: real, timeout: real)
    requires k >= 1 && m < k && timeout > 0.0 && Lasting(k - 1, timeout) < heartbeat <= Lasting(k, timeout)
    ensures Lasting(m, timeout) + timeout == Lasting(m + 1, timeout)
    ensures Lasting(m, timeout) + timeout >= heartbeat <==> m == k - 1
  {
    assert (m + 1) as real == m as real + 1.0;
    if m < k - 1 { assert (m + 1) as real <= (k - 1) as real; }
  }

  // ---- what a trace must satisfy

  /** Every frame but the authority reset directly follows a check that succeeded, every
      finished wait is directly followed by a check, and after a failed check only the
      authority reset is sent while both resources are closed. */
  ghost predicate Guarded(trace: seq<Action>) {
    && (forall i | 0 <= i < |trace| && trace[i].Emit? && trace[i].frame != AuthorityLost ::
          i > 0 && trace[i - 1] == Check(true))
    && (forall i | 0 <= i < |trace| && trace[i].Waited? :: i + 1 < |trace| && trace[i + 1].Check?)
    && (forall i | 0 <= i < |trace| && trace[i] == Check(false) :: trace[i + 1..] == LOST)
  }

  const LOST: seq<Action> := [CloseSubscription, Emit(AuthorityLost), CloseSubscription, CloseAuthority]

  /** Every trace ends by closing the subscription and then the authority when there is one. */
  ghost predicate Closed(trace: seq<Action>, authorized: bool) {
    var end := if authorized then [CloseSubscription, CloseAuthority] else [CloseSubscription];
    |trace| >= |end| && trace[|trace| - |end|..] == end
  }

  predicate IsReset(a: Action) { a.Emit? && (a.frame.ResetFrame? || a.frame == AuthorityLost) }

  predicate IsEvent(a: Action) { a.Emit? && a.frame.EventFrame? }

  /** No event is sent after a reset. */
  ghost predicate ResetEnds(trace: seq<Action>) {
    forall i, j | 0 <= i < j < |trace| && IsReset(trace[i]) :: !IsEvent(trace[j])
  }

  // ---- the protocol as an automaton

  datatype Phase =
    Ready | Allowed | Unchecked | Denied | Shut | Told | ResetSent | ResetAllowed | ResetDone | Ended | Over

  /** The next phase, or None when the action is out of place. */
  function Move(authorized: bool, p: Phase, a: Action): Option<Phase> {
    match a
    case Check(ok) =>
      if !authorized then None
      else if p == Ready || p == Unchecked then Some(if ok then Allowed else Denied)
      else if p == ResetSent then Some(if ok then ResetAllowed else Denied)
      else None
    case Emit(AuthorityLost) => if p == Shut then Some(Told) else None
    case Emit(frame) =>
      if p == Allowed || (!authorized && (p == Ready || p == Unchecked)) then
        Some(if frame.ResetFrame? then ResetSent else Ready)
      else if frame == Heartbeat && (p == ResetAllowed || (!authorized && p == ResetSent)) then Some(ResetDone)
      else None
    case Waited(_) => if p == Ready || p == Allowed || (!authorized && p == Unchecked) then Some(Unchecked) else None
    case CloseSubscription =>
      if p == Denied then Some(Shut)
      else if p == Ready || p == Allowed || p == Told || p == ResetSent || p == ResetDone
        || (!authorized && p == Unchecked)
      then Some(Ended)
      else None
    case CloseAuthority => if authorized && p == Ended then Some(Over) else None
  }

  function PhaseAfter(authorized: bool, p: Phase, trace: seq<Action>): Option<Phase>
    decreases |trace|
  {
    if trace == [] then Some(p)
    else
      var next := Move(authorized, p, trace[0]);
      if next.None? then None else PhaseAfter(authorized, next.value, trace[1..])
  }

  lemma {:induction false} PhaseAppend(authorized: bool, p: Phase, trace: seq<Action>, a: Action)
    ensures PhaseAfter(authorized, p, trace + [a]) ==
            var before := PhaseAfter(authorized, p, trace);
            if before.None? then None else Move(authorized, before.value, a)
    decreases |trace|
  {
    if trace == [] {
      assert ([] + [a])[1..] == [];
    } else {
      assert (trace + [a])[1..] == trace[1..] + [a];
      var next := Move(authorized, p, trace[0]);
      if next.Some? { PhaseAppend(authorized, next.value, trace[1..], a); }
    }
  }

  /** Splitting a run of the automaton at one action. */
  lemma {:induction false} PhaseSplit(authorized: bool, p: Phase, trace: seq<Action>, n: nat)
    requires PhaseAfter(authorized, p, trace).Some? && n < |trace|
    ensures var q := PhaseAfter(authorized, p, trace[..n]);
      q.Some? && PhaseAfter(authorized, q.value, trace[n..]) == PhaseAfter(authorized, p, trace)
    decreases |trace|
  {
    if n == 0 {
      assert trace[0..] == trace && trace[..0] == [];
    } else {
      var next := Move(authorized, p, trace[0]);
      PhaseSplit(authorized, next.value, trace[1..], n - 1);
      assert trace[..n][1..] == trace[1..][..n - 1] && trace[1..][n - 1..] == trace[n..];
    }
  }

  /** One action of an accepted trace, with the phases around it. */
  lemma PhaseAround(authorized: bool, trace: seq<Action>, n: nat) returns (prior: Phase, before: Phase, after: Phase)
    requires PhaseAfter(authorized, Ready, trace).Some? && n < |trace|
    ensures PhaseAfter(authorized, Ready, trace[..n]) == Some(before)
    ensures Move(authorized, before, trace[n]) == Some(after)
    ensures PhaseAfter(authorized, after, trace[n + 1..]) == PhaseAfter(authorized, Ready, trace)
    ensures n > 0 ==> PhaseAfter(authorized, Ready, trace[..n - 1]) == Some(prior)
                      && Move(authorized, prior, trace[n - 1]) == Some(before)
    ensures n == 0 ==> before == Ready
  {
    PhaseSplit(authorized, Ready, trace, n);
    before := PhaseAfter(authorized, Ready, trace[..n]).value;
    assert trace[n..][1..] == trace[n + 1..];
    after := Move(authorized, before, trace[n]).value;
    prior := Ready;
    if n > 0 {
      assert trace[..n] == trace[..n - 1] + [trace[n - 1]];
      PhaseAppend(authorized, Ready, trace[..n - 1], trace[n - 1]);
      prior := PhaseAfter(authorized, Ready, trace[..n - 1]).value;
    }
  }

  /** From a failed check there is one way on. */
  lemma DeniedEnds(rest: seq<Action>)
    requires PhaseAfter(true, Denied, rest) == Some(Over)
    ensures rest == LOST
  {
    var r1 := rest[1..];
    assert rest[0] == CloseSubscription && PhaseAfter(true, Shut, r1) == Some(Over);
    var r2 := r1[1..];
    assert r1[0] == Emit(AuthorityLost) && PhaseAfter(true, Told, r2) == Some(Over);
    var r3 := r2[1..];
    assert r2[0] == CloseSubscription && PhaseAfter(true, Ended, r3) == Some(Over);
    assert r3[0] == CloseAuthority && PhaseAfter(true, Over, r3[1..]) == Some(Over);
    OverEnds(r3[1..]);
    assert rest == [rest[0]] + [r1[0]] + [r2[0]] + [r3[0]];
  }

  lemma OverEnds(rest: seq<Action>)
    requires PhaseAfter(true, Over, rest).Some?
    ensures rest == []
  {}

  lemma AcceptedIsGuarded(trace: seq<Action>)
    requires PhaseAfter(true, Ready, trace) == Some(Over)
    ensures Guarded(trace)
  {
    forall i | 0 <= i < |trace| && trace[i].Emit? && trace[i].frame != AuthorityLost
      ensures i > 0 && trace[i - 1] == Check(true)
    {
      var prior, before, after := PhaseAround(true, trace, i);
    }
    forall i | 0 <= i < |trace| && trace[i].Waited? ensures i + 1 < |trace| && trace[i + 1].Check? {
      var prior, before, after := PhaseAround(true, trace, i);
      assert after == Unchecked;
      if i + 1 < |trace| {
        var p2, b2, a2 := PhaseAround(true, trace, i + 1);
        assert trace[i + 1..][0] == trace[i + 1];
      }
    }
    forall i | 0 <= i < |trace| && trace[i] == Check(false) ensures trace[i + 1..] == LOST {
      var prior, before, after := PhaseAround(true, trace, i);
      DeniedEnds(trace[i + 1..]);
    }
  }

  lemma AcceptedIsClosed(authorized: bool, trace: seq<Action>)
    requires PhaseAfter(authorized, Ready, trace) == Some(if authorized then Over else Ended)
    ensures Closed(trace, authorized)
  {
    var n := |trace| - 1;
    var prior, before, after := PhaseAround(authorized, trace, n);
    assert trace[n + 1..] == [];
    assert trace[n..] == [trace[n]];
    if authorized {
      assert before == Ended && prior != Ended;
      assert trace[n - 1..] == [trace[n - 1], trace[n]];
    }
  }

  /** Phases in which no event can follow. */
  predicate Final(p: Phase) { p != Ready && p != Allowed && p != Unchecked }

  lemma {:induction false} FinalHasNoEvents(authorized: bool, p: Phase, rest: seq<Action>)
    requires Final(p) && PhaseAfter(authorized, p, rest).Some?
    ensures forall j | 0 <= j < |rest| :: !IsEvent(rest[j])
    decreases |rest|
  {
    if rest != [] {
      FinalHasNoEvents(authorized, Move(authorized, p, rest[0]).value, rest[1..]);
      assert forall j | 1 <= j < |rest| :: rest[j] == rest[1..][j - 1];
    }
  }

  lemma AcceptedResetEnds(authorized: bool, trace: seq<Action>)
    requires PhaseAfter(authorized, Ready, trace).Some?
    ensures ResetEnds(trace)
  {
    forall i, j | 0 <= i < j < |trace| && IsReset(trace[i]) ensures !IsEvent(trace[j]) {
      var prior, before, after := PhaseAround(authorized, trace, i);
      FinalHasNoEvents(authorized, after, trace[i + 1..]);
      assert trace[i + 1..][j - i - 1] == trace[j];
    }
  }

  // ---- the stream

  /** What is known about a trace that has got as far as phase p. */
  ghost predicate Reached(authorized: bool, answers: nat -> bool, waits: seq<Wait>, trace: seq<Action>, p: Phase,
                          checks: nat, used: nat) {
    && PhaseAfter(authorized, Ready, trace) == Some(p)
    && Asks(trace) == Given(answers, checks)
    && used <= |waits| && Consumed(trace) == waits[..used]
    && (p == Denied || p == Shut || p == Told ==> checks > 0 && !answers(checks - 1))
  }

  lemma Push(authorized: bool, answers: nat -> bool, waits: seq<Wait>, trace: seq<Action>, p: Phase, checks: nat,
             used: nat, a: Action)
    requires Reached(authorized, answers, waits, trace, p, checks, used) && Move(authorized, p, a).Some?
    requires a.Check? ==> a.current == answers(checks)
    requires a.Waited? ==> used < |waits| && a.wait == waits[used]
    ensures Reached(authorized, answers, waits, trace + [a], Move(authorized, p, a).value,
                    if a.Check? then checks + 1 else checks, if a.Waited? then used + 1 else used)
    ensures Emitted(trace + [a]) == Emitted(trace) + (if a.Emit? && a.frame.EventFrame? then [a.frame.event] else [])
    ensures Frames(trace + [a]) == Frames(trace) + if a.Emit? then 1 else 0
    ensures Beats(trace + [a]) == Beats(trace) + if a == Emit(Heartbeat) then 1 else 0
  {
    PhaseAppend(authorized, Ready, trace, a);
    assert (trace + [a])[..|trace|] == trace;
    if a.Check? { assert Given(answers, checks + 1) == Given(answers, checks) + [answers(checks)]; }
    if a.Waited? { assert waits[..used + 1] == waits[..used] + [waits[used]]; }
  }

  /** The emitted events are a prefix of the replay followed by the arrivals, and none is
      skipped: all arrivals but the last are out by the time the next wait ends. */
  ghost predicate InOrder(replay: seq<Event>, waits: seq<Wait>, trace: seq<Action>, used: nat) {
    && used <= |waits|
    && Emitted(trace) <= replay + Arrivals(waits[..used])
    && (used > 0 ==> replay + Arrivals(waits[..used - 1]) <= Emitted(trace))
  }

  /** The stream ended early: its authority failed, or its consumer closed it. */
  ghost predicate CutOff(trace: seq<Action>, frames: nat) {
    (Asks(trace) != [] && !Asks(trace)[|Asks(trace)| - 1]) || Frames(trace) >= frames
  }

  /** Everything that arrived was sent: all events, and the reset that arrived last if any. */
  ghost predicate SentAll(replay: seq<Event>, waits: seq<Wait>, trace: seq<Action>) {
    var used := Consumed(trace);
    && Emitted(trace) == replay + Arrivals(used)
    && (used == waits || LastIsReset(used))
    && (LastIsReset(used) ==> Emit(ResetFrame(used[|used| - 1].item.reason)) in trace)
  }

  /** What a stream that was not cut off has sent. */
  ghost predicate Sent(replay: seq<Event>, waits: seq<Wait>, reset: Option<string>, listening: bool,
                       trace: seq<Action>)
  {
    if reset.Some? then Emit(ResetFrame(reset.value)) in trace
    else if listening then SentAll(replay, waits, trace)
    else Emitted(trace) == replay
  }

  /** One heartbeat to begin with, and then every one that was due. */
  predicate OnTime(trace: seq<Action>, heartbeat: real, timeout: real) {
    Beats(trace) == 1 + Due(Consumed(trace), heartbeat, timeout)
  }

  predicate LastIsReset(used: seq<Wait>) { used != [] && used[|used| - 1].Arrives? && used[|used| - 1].item.Reset? }

  class Stream {
    const authorized: bool
    const answers: nat -> bool
    const replay: seq<Event>
    const waits: seq<Wait>
    var trace: seq<Action>
    var checks: nat
    var used: nat
    ghost var phase: Phase

    constructor (authorized: bool, answers: nat -> bool, replay: seq<Event>, waits: seq<Wait>)
      ensures Valid() && phase == Ready && trace == [] && used == 0 && checks == 0
      ensures this.authorized == authorized && this.answers == answers && this.replay == replay && this.waits == waits
    {
      this.authorized, this.answers, this.replay, this.waits := authorized, answers, replay, waits;
      trace, checks, used, phase := [], 0, 0, Ready;
      new;
      assert waits[..0] == [];
    }

    ghost predicate Valid()
      reads this
    {
      Reached(authorized, answers, waits, trace, phase, checks, used) && InOrder(replay, waits, trace, used)
    }

    /** authority_is_current(). */
    method AuthorityIsCurrent() returns (ok: bool)
      requires Valid() && (phase == Ready || phase == Unchecked || phase == ResetSent)
      modifies this
      ensures Valid() && used == old(used) && Emitted(trace) == old(Emitted(trace))
              && Frames(trace) == old(Frames(trace))
      ensures old(trace) <= trace && Beats(trace) == old(Beats(trace))
      ensures if !authorized then ok && phase == old(phase)
              else if !ok then phase == Denied
              else phase == if old(phase) == ResetSent then ResetAllowed else Allowed
    {
      if !authorized { return true; }
      ok := answers(checks);
      ghost var next := if !ok then Denied else if phase == ResetSent then ResetAllowed else Allowed;
      assert Move(authorized, phase, Check(ok)) == Some(next);
      Push(authorized, answers, waits, trace, phase, checks, used, Check(ok));
      trace, checks, phase := trace + [Check(ok)], checks + 1, next;
    }

    /** A heartbeat, a reset or a closing: whatever moves no event, check or wait. */
    method Act(a: Action)
      requires Valid() && !IsEvent(a) && !a.Check? && !a.Waited? && Move(authorized, phase, a).Some?
      modifies this
      ensures Valid() && used == old(used) && phase == Move(authorized, old(phase), a).value
      ensures Emitted(trace) == old(Emitted(trace)) && Frames(trace) == old(Frames(trace)) + if a.Emit? then 1 else 0
      ensures Beats(trace) == old(Beats(trace)) + if a == Emit(Heartbeat) then 1 else 0
      ensures trace == old(trace) + [a] && checks == old(checks)
    {
      Push(authorized, answers, waits, trace, phase, checks, used, a);
      trace, phase := trace + [a], Move(authorized, phase, a).value;
    }

    /** yield of the next event in order. */
    method YieldEvent(e: Event)
      requires Valid() && Move(authorized, phase, Emit(EventFrame(e))).Some?
      requires Emitted(trace) + [e] <= replay + Arrivals(waits[..used])
      modifies this
      ensures Valid() && used == old(used) && phase == Ready
      ensures Emitted(trace) == old(Emitted(trace)) + [e] && Frames(trace) == old(Frames(trace)) + 1
      ensures Beats(trace) == old(Beats(trace))
    {
      Push(authorized, answers, waits, trace, phase, checks, used, Emit(EventFrame(e)));
      trace, phase := trace + [Emit(EventFrame(e))], Ready;
    }

    /** authority_reset() and the yield of its frame. */
    method AuthorityReset()
      requires Valid() && phase == Denied
      modifies this
      ensures Valid() && phase == Told && used == old(used) && checks == old(checks)
    {
      Act(CloseSubscription);
      Act(Emit(AuthorityLost));
    }

    /** The check before a frame: the stream goes on, or sends the authority reset. */
    method Proceed() returns (ok: bool)
      requires Valid() && (phase == Ready || phase == Unchecked || phase == ResetSent)
      modifies this
      ensures Valid() && used == old(used)
      ensures !ok ==> phase == Told
      ensures ok ==> Emitted(trace) == old(Emitted(trace)) && Frames(trace) == old(Frames(trace)) && old(trace) <= trace
      ensures ok ==> Beats(trace) == old(Beats(trace))
      ensures ok ==> phase == if !authorized then old(phase)
                              else if old(phase) == ResetSent then ResetAllowed else Allowed
    {
      ok := AuthorityIsCurrent();
      if !ok { AuthorityReset(); }
    }

    /** One wait on the queue. */
    method WaitNext() returns (w: Wait)
      requires Valid() && used < |waits| && Move(authorized, phase, Waited(waits[used])).Some?
      requires Emitted(trace) == replay + Arrivals(waits[..used])
      modifies this
      ensures Valid() && used == old(used) + 1 && w == waits[old(used)] && phase == Unchecked
      ensures Emitted(trace) == old(Emitted(trace)) && Frames(trace) == old(Frames(trace))
              && Beats(trace) == old(Beats(trace))
      ensures Emitted(trace) + (if w.Arrives? && w.item.Put? then [w.item.event] else [])
              == replay + Arrivals(waits[..used])
    {
      w := waits[used];
      Push(authorized, answers, waits, trace, phase, checks, used, Waited(w));
      assert waits[..used + 1][..used] == waits[..used];
      trace, used, phase := trace + [Waited(w)], used + 1, Unchecked;
    }

    /** The finally block. */
    method Finish()
      requires Valid() && Move(authorized, phase, CloseSubscription) == Some(Ended)
      modifies this
      ensures Valid() && phase == if authorized then Over else Ended
      ensures old(trace) <= trace && checks == old(checks) && used == old(used)
      ensures Emitted(trace) == old(Emitted(trace)) && Frames(trace) == old(Frames(trace))
              && Beats(trace) == old(Beats(trace))
    {
      Act(CloseSubscription);
      if authorized { Act(CloseAuthority); }
    }

    /** The stream of a subscription that was refused at opening. */
    method ServeReset(reason: string, frames: nat)
      requires Valid() && phase == Ready && used == 0
      modifies this
      ensures Valid() && Move(authorized, phase, CloseSubscription) == Some(Ended)
      ensures phase == Told || Frames(trace) >= frames || Emit(ResetFrame(reason)) in trace
    {
      var ok := Proceed();
      if !ok { return; }
      Act(Emit(ResetFrame(reason)));
      assert phase == ResetSent && trace[|trace| - 1] == Emit(ResetFrame(reason));
      if Frames(trace) < frames { FollowReset(); }
    }

    /** The heartbeat that follows the reset of a refused subscription. */
    method FollowReset()
      requires Valid() && phase == ResetSent
      modifies this
      ensures Valid() && (phase == Told || phase == ResetDone)
      ensures phase != Told ==> old(trace) <= trace
    {
      var ok := Proceed();
      if ok { Act(Emit(Heartbeat)); }
    }

    /** The replay, then the first heartbeat. False when the stream ended on the way. */
    method ServeReplay(frames: nat) returns (more: bool)
      requires Valid() && phase == Ready && used == 0 && Emitted(trace) == [] && Beats(trace) == 0
      modifies this
      ensures Valid() && used == 0
      ensures Move(authorized, phase, CloseSubscription) == Some(Ended)
      ensures more ==> phase == Ready && Emitted(trace) == replay && Beats(trace) == 1
      ensures !more ==> phase == Told || Frames(trace) >= frames
    {
      for i := 0 to |replay|
        invariant Valid() && phase == Ready && used == 0 && Emitted(trace) == replay[..i] && Beats(trace) == 0
      {
        var ok := Proceed();
        if !ok { return false; }
        assert replay[..i + 1] == replay[..i] + [replay[i]] && replay[..i + 1] <= replay + Arrivals(waits[..0]);
        YieldEvent(replay[i]);
        if Frames(trace) >= frames { return false; }
      }
      more := FirstBeat(frames);
    }

    /** The heartbeat that ends the replay. */
    method FirstBeat(frames: nat) returns (more: bool)
      requires Valid() && phase == Ready
      modifies this
      ensures Valid() && used == old(used) && (phase == Told || phase == Ready)
      ensures more ==> phase == Ready && Emitted(trace) == old(Emitted(trace)) && Beats(trace) == old(Beats(trace)) + 1
      ensures !more ==> phase == Told || Frames(trace) >= frames
    {
      var ok := Proceed();
      if !ok { return false; }
      Act(Emit(Heartbeat));
      more := Frames(trace) < frames;
    }

    /** The frame of an item that arrived. False when the stream ended with it. */
    method ServeItem(item: Item, frames: nat) returns (more: bool)
      requires Valid() && phase == Unchecked
      requires Emitted(trace) + (if item.Put? then [item.event] else []) == replay + Arrivals(waits[..used])
      modifies this
      ensures Valid() && used == old(used) && (phase == Told || phase == Ready || phase == ResetSent)
      ensures phase != Told ==> Beats(trace) == old(Beats(trace))
      ensures more ==> item.Put? && phase == Ready && Emitted(trace) == replay + Arrivals(waits[..used])
      ensures !more ==> phase == Told || Frames(trace) >= frames
                        || (item.Reset? && Emit(ResetFrame(item.reason)) in trace
                            && Emitted(trace) == replay + Arrivals(waits[..used]))
    {
      var ok := Proceed();
      if !ok { return false; }
      if item.Reset? {
        Act(Emit(ResetFrame(item.reason)));
        assert trace[|trace| - 1] == Emit(ResetFrame(item.reason));
        return false;
      }
      YieldEvent(item.event);
      more := Frames(trace) < frames;
    }

    /** A wait that timed out: a late one brings a heartbeat. False when the stream ended. */
    method ServeTimeout(late: bool, frames: nat) returns (more: bool)
      requires Valid() && phase == Unchecked
      modifies this
      ensures Valid() && used == old(used)
      ensures phase == Told || phase == Ready || phase == Allowed || (!authorized && phase == Unchecked)
      ensures more ==> phase != Told && Emitted(trace) == old(Emitted(trace))
      ensures phase != Told ==> Beats(trace) == old(Beats(trace)) + if late then 1 else 0
      ensures late && more ==> trace != [] && trace[|trace| - 1] == Emit(Heartbeat)
      ensures !more ==> phase == Told || Frames(trace) >= frames
    {
      var ok := Proceed();
      if !ok { return false; }
      more := true;
      if late {
        Act(Emit(Heartbeat));
        more := Frames(trace) < frames;
      }
    }

    /** One turn of the loop: a wait and what it brings. False when the stream ended. */
    method ServeNext(elapsed0: real, frames: nat, heartbeat: real, timeout: real) returns (elapsed: real, more: bool)
      requires Valid() && used < |waits| && Emitted(trace) == replay + Arrivals(waits[..used])
      requires phase == Ready || phase == Allowed || (!authorized && phase == Unchecked)
      modifies this
      ensures Valid() && used == old(used) + 1
      ensures phase == Told || phase == Ready || phase == Allowed || phase == ResetSent
              || (!authorized && phase == Unchecked)
      ensures var w := waits[old(used)]; var late := w.TimesOut? && elapsed0 + timeout >= heartbeat;
        && elapsed == (if late then 0.0 else if w.TimesOut? then elapsed0 + timeout else elapsed0)
        && (phase != Told ==> Beats(trace) == old(Beats(trace)) + if late then 1 else 0)
      ensures more ==> phase != Told && phase != ResetSent && Emitted(trace) == replay + Arrivals(waits[..used])
                       && !(waits[old(used)].Arrives? && waits[old(used)].item.Reset?)
      ensures !more ==> phase == Told || Frames(trace) >= frames
                        || (waits[old(used)].Arrives? && waits[old(used)].item.Reset?
                            && Emit(ResetFrame(waits[old(used)].item.reason)) in trace
                            && Emitted(trace) == replay + Arrivals(waits[..used]))
    {
      elapsed := elapsed0;
      var w := WaitNext();
      match w {
        case TimesOut =>
          elapsed := elapsed + timeout;
          var late := elapsed >= heartbeat;
          if late { elapsed := 0.0; }
          more := ServeTimeout(late, frames);
        case Arrives(item) =>
          more := ServeItem(item, frames);
      }
    }

    /** The loop over the queue. It ends with the last wait when the consumer cancels there. */
    method ServeQueue(frames: nat, heartbeat: real, timeout: real)
      requires Valid() && phase == Ready && used == 0 && Emitted(trace) == replay && Beats(trace) == 1
      modifies this
      ensures Valid() && Move(authorized, phase, CloseSubscription) == Some(Ended)
      ensures phase == Told || Frames(trace) >= frames || SentAll(replay, waits, trace)
      ensures phase == Told || OnTime(trace, heartbeat, timeout)
    {
      var elapsed := 0.0;
      assert waits[..0] == [] && replay + Arrivals([]) == replay;
      while used < |waits|
        invariant Valid() && Emitted(trace) == replay + Arrivals(waits[..used])
        invariant phase == Ready || phase == Allowed || (!authorized && phase == Unchecked)
        invariant !LastIsReset(waits[..used])
        invariant elapsed == Waiting(waits[..used], heartbeat, timeout)
        invariant Beats(trace) == 1 + Due(waits[..used], heartbeat, timeout)
        decreases |waits| - used
      {
        var more;
        assert waits[..used + 1][..used] == waits[..used];
        elapsed, more := ServeNext(elapsed, frames, heartbeat, timeout);
        if !more { return; }
      }
      assert waits[..used] == waits;
    }

    /** The try block. */
    method Serve(reset: Option<string>, listening: bool, frames: nat, heartbeat: real, timeout: real)
      requires Valid() && phase == Ready && trace == [] && used == 0
      modifies this
      ensures Valid() && Move(authorized, phase, CloseSubscription) == Some(Ended)
      ensures phase == Told || Frames(trace) >= frames
              || Done(replay, waits, reset, listening, heartbeat, timeout, trace)
    {
      if reset.Some? {
        ServeReset(reset.value, frames);
        return;
      }
      var more := ServeReplay(frames);
      if more && listening { ServeQueue(frames, heartbeat, timeout); }
    }
  }

  /** What the stream has sent when neither authority nor consumer cut it off. */
  ghost predicate Done(replay: seq<Event>, waits: seq<Wait>, reset: Option<string>, listening: bool, heartbeat: real,
                       timeout: real, trace: seq<Action>) {
    Sent(replay, waits, reset, listening, trace) && (reset.Some? || OnTime(trace, heartbeat, timeout))
  }

  /** stream_sse for one subscription. The consumer closes the stream at the yield of frame
      number `frames`, or cancels it in the wait after the last of `waits`. Heartbeats come
      after `heartbeat` seconds of waiting, in steps of the shorter of the two periods. */
  method StreamSubscription(replay: seq<Event>, reset: Option<string>, listening: bool, authorized: bool,
                            answers: nat -> bool, waits: seq<Wait>, frames: nat, heartbeat: real, currentness: real)
      returns (trace: seq<Action>)
    ensures Closed(trace, authorized) && ResetEnds(trace)
    ensures authorized ==> Guarded(trace)
    ensures Asks(trace) == Given(answers, |Asks(trace)|)
    ensures Consumed(trace) <= waits
    ensures Emitted(trace) <= replay + Arrivals(Consumed(trace))
    ensures Consumed(trace) != [] ==>
              replay + Arrivals(Consumed(trace)[..|Consumed(trace)| - 1]) <= Emitted(trace)
    ensures CutOff(trace, frames)
            || Done(replay, waits, reset, listening, heartbeat, Shorter(heartbeat, currentness), trace)
  {
    var stream := new Stream(authorized, answers, replay, waits);
    stream.Serve(reset, listening, frames, heartbeat, Shorter(heartbeat, currentness));
    ghost var open := stream.trace;
    ghost var denied := stream.phase == Told;
    stream.Finish();
    trace := stream.trace;
    EndedWell(authorized, answers, replay, waits, trace, stream.checks, stream.used);
    Outcome(answers, replay, waits, reset, listening, frames, heartbeat, Shorter(heartbeat, currentness),
            open, denied, trace, stream.checks);
  }

  lemma EndedWell(authorized: bool, answers: nat -> bool, replay: seq<Event>, waits: seq<Wait>, trace: seq<Action>,
                  checks: nat, used: nat)
    requires Reached(authorized, answers, waits, trace, if authorized then Over else Ended, checks, used)
    requires InOrder(replay, waits, trace, used)
    ensures Closed(trace, authorized) && ResetEnds(trace)
    ensures authorized ==> Guarded(trace)
    ensures Consumed(trace) <= waits
    ensures Emitted(trace) <= replay + Arrivals(Consumed(trace))
    ensures Consumed(trace) != [] ==>
              replay + Arrivals(Consumed(trace)[..|Consumed(trace)| - 1]) <= Emitted(trace)
  {
    AcceptedIsClosed(authorized, trace);
    AcceptedResetEnds(authorized, trace);
    if authorized { AcceptedIsGuarded(trace); }
    if used > 0 { assert waits[..used][..used - 1] == waits[..used - 1]; }
  }

  /** How the stream ended before it was closed is how it ended. */
  lemma Outcome(answers: nat -> bool, replay: seq<Event>, waits: seq<Wait>, reset: Option<string>, listening: bool,
                frames: nat, heartbeat: real, timeout: real, open: seq<Action>, denied: bool, trace: seq<Action>,
                checks: nat)
    requires open <= trace && Consumed(open) == Consumed(trace) && Emitted(open) == Emitted(trace)
    requires Frames(open) == Frames(trace) && Beats(open) == Beats(trace) && Asks(trace) == Given(answers, checks)
    requires denied ==> checks > 0 && !answers(checks - 1)
    requires denied || Frames(open) >= frames || Done(replay, waits, reset, listening, heartbeat, timeout, open)
    ensures CutOff(trace, frames) || Done(replay, waits, reset, listening, heartbeat, timeout, trace)
  {
    assert forall a :: a in open ==> a in trace;
  }
}
