/** The bounded thread executor as a state machine over every interleaving of its callers
    and workers. Each access to a queue is one step. */
module BoundedExecutor {
  import opened Wrappers

  /** What a call produced: a value, or the exception it raised. */
  datatype Outcome = Returned(value: int) | Raised(error: int)

  datatype Worker = Idle | Running(call: nat) | Delivering(call: nat, outcome: Outcome)

  datatype Caller = Waiting | Received(outcome: Outcome) | TimedOut

  /** `jobs` is the shared queue, `mail` the one-place result queue of each accepted call,
      `accepted` and `started` the calls in the order they entered and left the queue. */
  datatype State = State(jobs: seq<nat>, workers: seq<Worker>, mail: map<nat, Option<Outcome>>,
                         callers: map<nat, Caller>,
                         accepted: seq<nat>, started: seq<nat>)

  datatype Step =
    | Submit(call: nat)
    | TakeJob(worker: nat)
    | Finish(worker: nat)
    | Deliver(worker: nat)
    | Collect(call: nat)
    | GiveUp(call: nat)

  function Start(size: nat): State {
    State([], seq(size, _ => Idle), map[], map[], [], [])
  }

  /** Whether a step can happen. A put waits for room and a get for an item; a caller gives
      up only while its result queue is empty. */
  predicate Enabled(s: State, step: Step) {
    match step
    case Submit(call) => call !in s.callers
    case TakeJob(w) => w < |s.workers| && s.workers[w].Idle? && s.jobs != []
    case Finish(w) => w < |s.workers| && s.workers[w].Running?
    case Deliver(w) => w < |s.workers| && s.workers[w].Delivering?
                       && s.workers[w].call in s.mail && s.mail[s.workers[w].call].None?
    case Collect(call) => call in s.callers && s.callers[call].Waiting? && call in s.mail && s.mail[call].Some?
    case GiveUp(call) => call in s.callers && s.callers[call].Waiting? && call in s.mail && s.mail[call].None?
  }

  /** `body` is what each call would produce. A full queue refuses the call with the same
      error as a timeout, without running it. */
  function Next(size: nat, body: nat -> Outcome, s: State, step: Step): State
    requires Enabled(s, step)
  {
    match step
    case Submit(call) =>
      if |s.jobs| >= size then s.(callers := s.callers[call := TimedOut])
      else s.(jobs := s.jobs + [call], mail := s.mail[call := None],
              callers := s.callers[call := Waiting], accepted := s.accepted + [call])
    case TakeJob(w) =>
      s.(jobs := s.jobs[1..], workers := s.workers[w := Running(s.jobs[0])], started := s.started + [s.jobs[0]])
    case Finish(w) =>
      s.(workers := s.workers[w := Delivering(s.workers[w].call, body(s.workers[w].call))])
    case Deliver(w) =>
      s.(workers := s.workers[w := Idle], mail := s.mail[s.workers[w].call := Some(s.workers[w].outcome)])
    case Collect(call) =>
      s.(mail := s.mail[call := None], callers := s.callers[call := Received(s.mail[call].value)])
    case GiveUp(call) =>
      s.(callers := s.callers[call := TimedOut])
  }

  predicate OnWorker(s: State, w: nat, call: nat) {
    w < |s.workers| && !s.workers[w].Idle? && s.workers[w].call == call
  }

  ghost predicate Busy(s: State, call: nat) { exists w: nat :: OnWorker(s, w, call) }

  ghost predicate Distinct(calls: seq<nat>) { forall i, j | 0 <= i < j < |calls| :: calls[i] != calls[j] }

  /** What holds of one accepted call. */
  ghost predicate Tracked(body: nat -> Outcome, s: State, call: nat) {
    && call in s.mail && call in s.callers
    // its result queue and its caller only ever hold its own result
    && (s.mail[call].Some? ==> s.mail[call].value == body(call) && call in s.started && !Busy(s, call))
    && (s.callers[call].Received? ==> s.callers[call].outcome == body(call) && call in s.started && !Busy(s, call)
                                      && s.mail[call].None?)
    // and a caller still waiting has not been forgotten
    && (s.callers[call].Waiting? ==> call in s.jobs || Busy(s, call) || s.mail[call].Some?)
  }

  ghost predicate Good(size: nat, body: nat -> Outcome, s: State) {
    && |s.workers| == size && |s.jobs| <= size
    && s.accepted == s.started + s.jobs && Distinct(s.accepted)
    && (forall w: nat, v: nat, call: nat :: OnWorker(s, w, call) && OnWorker(s, v, call) ==> w == v)
    && (forall w: nat, call: nat :: OnWorker(s, w, call) ==>
          call in s.started && call in s.mail && s.mail[call].None?
          && (s.workers[w].Delivering? ==> s.workers[w].outcome == body(call)))
    && (forall call :: call in s.accepted ==> Tracked(body, s, call))
    && (forall call :: call in s.mail ==> call in s.accepted)
    && (forall call :: call in s.callers ==> call in s.accepted || s.callers[call].TimedOut?)
  }

  lemma StartGood(size: nat, body: nat -> Outcome)
    ensures Good(size, body, Start(size))
  {}

  lemma Members(s: State)
    requires s.accepted == s.started + s.jobs
    ensures forall call :: call in s.accepted <==> call in s.started || call in s.jobs
  {}

  lemma NextGood(size: nat, body: nat -> Outcome, s: State, step: Step)
    requires Good(size, body, s) && Enabled(s, step)
    ensures Good(size, body, Next(size, body, s, step))
  {
    match step
    case Submit(call) => SubmitGood(size, body, s, call);
    case TakeJob(w) => TakeGood(size, body, s, w);
    case Finish(w) => FinishGood(size, body, s, w);
    case Deliver(w) => DeliverGood(size, body, s, w);
    case Collect(call) => CollectGood(size, body, s, call);
    case GiveUp(call) => GiveUpGood(size, body, s, call);
  }

  lemma SubmitGood(size: nat, body: nat -> Outcome, s: State, call: nat)
    requires Good(size, body, s) && Enabled(s, Submit(call))
    ensures Good(size, body, Next(size, body, s, Submit(call)))
  {
    var t := Next(size, body, s, Submit(call));
    assert call !in s.accepted by { assert call in s.accepted ==> Tracked(body, s, call); }
    assert call !in s.mail;
    assert s.started + (s.jobs + [call]) == s.started + s.jobs + [call];
    assert forall v: nat, c: nat :: OnWorker(t, v, c) <==> OnWorker(s, v, c);
    forall c | c in t.accepted ensures Tracked(body, t, c) {
      if c != call {
        assert Tracked(body, s, c);
        SameBusy(s, t, c);
      } else {
        assert call in t.jobs;
      }
    }
  }

  /** The head of the queue has not started and is not queued twice. */
  lemma HeadIsFresh(s: State)
    requires s.accepted == s.started + s.jobs && Distinct(s.accepted) && s.jobs != []
    ensures s.jobs[0] !in s.started && s.jobs[0] !in s.jobs[1..] && s.jobs[0] in s.accepted
    ensures s.accepted == s.started + [s.jobs[0]] + s.jobs[1..]
  {
    var n := |s.started|;
    assert s.accepted[n] == s.jobs[0];
    assert forall i | 0 <= i < n :: s.accepted[i] == s.started[i];
    assert forall i | 0 <= i < |s.jobs| - 1 :: s.accepted[n + 1 + i] == s.jobs[1..][i];
  }

  lemma TakeGood(size: nat, body: nat -> Outcome, s: State, w: nat)
    requires Good(size, body, s) && Enabled(s, TakeJob(w))
    ensures Good(size, body, Next(size, body, s, TakeJob(w)))
  {
    var t := Next(size, body, s, TakeJob(w));
    var taken := s.jobs[0];
    HeadIsFresh(s);
    assert Tracked(body, s, taken);
    assert !Busy(s, taken) by {
      forall v: nat ensures !OnWorker(s, v, taken) {}
    }
    assert forall v: nat, c: nat :: OnWorker(t, v, c) <==> (v == w && c == taken) || (v != w && OnWorker(s, v, c));
    assert OnWorker(t, w, taken);
    forall c | c in t.accepted ensures Tracked(body, t, c) { TakeTracked(size, body, s, w, c); }
  }

  lemma TakeTracked(size: nat, body: nat -> Outcome, s: State, w: nat, c: nat)
    requires Good(size, body, s) && Enabled(s, TakeJob(w)) && c in s.accepted
    ensures Tracked(body, Next(size, body, s, TakeJob(w)), c)
  {
    var t := Next(size, body, s, TakeJob(w));
    HeadIsFresh(s);
    assert Tracked(body, s, c);
    if c == s.jobs[0] {
      assert OnWorker(t, w, c);
    } else {
      assert s.jobs == [s.jobs[0]] + s.jobs[1..];
      assert forall v: nat :: OnWorker(t, v, c) <==> OnWorker(s, v, c);
      SameBusy(s, t, c);
    }
  }

  lemma SameBusy(s: State, t: State, call: nat)
    requires forall v: nat :: OnWorker(t, v, call) <==> OnWorker(s, v, call)
    ensures Busy(t, call) == Busy(s, call)
  {}

  lemma FinishGood(size: nat, body: nat -> Outcome, s: State, w: nat)
    requires Good(size, body, s) && Enabled(s, Finish(w))
    ensures Good(size, body, Next(size, body, s, Finish(w)))
  {
    var t := Next(size, body, s, Finish(w));
    assert forall v: nat, c: nat :: OnWorker(t, v, c) <==> OnWorker(s, v, c);
    forall c | c in t.accepted ensures Tracked(body, t, c) {
      assert Tracked(body, s, c);
      SameBusy(s, t, c);
    }
  }

  lemma DeliverGood(size: nat, body: nat -> Outcome, s: State, w: nat)
    requires Good(size, body, s) && Enabled(s, Deliver(w))
    ensures Good(size, body, Next(size, body, s, Deliver(w)))
  {
    var t := Next(size, body, s, Deliver(w));
    var call := s.workers[w].call;
    assert OnWorker(s, w, call);
    assert forall v: nat, c: nat :: OnWorker(t, v, c) <==> v != w && OnWorker(s, v, c);
    assert !Busy(t, call);
    Members(s);
    forall c | c in t.accepted ensures Tracked(body, t, c) {
      assert Tracked(body, s, c);
      if c != call { SameBusy(s, t, c); }
    }
  }

  lemma CollectGood(size: nat, body: nat -> Outcome, s: State, call: nat)
    requires Good(size, body, s) && Enabled(s, Collect(call))
    ensures Good(size, body, Next(size, body, s, Collect(call)))
  {
    var t := Next(size, body, s, Collect(call));
    assert forall v: nat, c: nat :: OnWorker(t, v, c) <==> OnWorker(s, v, c);
    forall c | c in t.accepted ensures Tracked(body, t, c) {
      assert Tracked(body, s, c);
      SameBusy(s, t, c);
    }
  }

  lemma GiveUpGood(size: nat, body: nat -> Outcome, s: State, call: nat)
    requires Good(size, body, s) && Enabled(s, GiveUp(call))
    ensures Good(size, body, Next(size, body, s, GiveUp(call)))
  {
    var t := Next(size, body, s, GiveUp(call));
    assert forall v: nat, c: nat :: OnWorker(t, v, c) <==> OnWorker(s, v, c);
    forall c | c in t.accepted ensures Tracked(body, t, c) {
      assert Tracked(body, s, c);
      SameBusy(s, t, c);
    }
  }

  // ---- every interleaving

  ghost predicate Schedule(size: nat, body: nat -> Outcome, states: seq<State>, steps: seq<Step>) {
    && |states| == |steps| + 1 && states[0] == Start(size)
    && forall i | 0 <= i < |steps| ::
         Enabled(states[i], steps[i]) && states[i + 1] == Next(size, body, states[i], steps[i])
  }

  lemma {:induction false} ScheduleGood(size: nat, body: nat -> Outcome, states: seq<State>, steps: seq<Step>, n: nat)
    requires Schedule(size, body, states, steps) && n <= |steps|
    ensures Good(size, body, states[n])
  {
    if n == 0 {
      StartGood(size, body);
    } else {
      ScheduleGood(size, body, states, steps, n - 1);
      NextGood(size, body, states[n - 1], steps[n - 1]);
    }
  }

  /** Safety in every reachable state: accepted calls start in order and at most once, at
      most `size` wait and at most `size` run, each on one worker, and what a caller
      received is the outcome of its own call. */
  lemma ExecutorIsSafe(size: nat, body: nat -> Outcome, states: seq<State>, steps: seq<Step>, n: nat)
    requires Schedule(size, body, states, steps) && n <= |steps|
    ensures var s := states[n];
      && s.started <= s.accepted && Distinct(s.started)
      && |s.jobs| <= size && |s.workers| == size
      && (forall w: nat, v: nat, call: nat :: OnWorker(s, w, call) && OnWorker(s, v, call) ==> w == v)
      && (forall call :: call in s.callers && s.callers[call].Received? ==>
            call in s.started && s.callers[call].outcome == body(call))
  {
    ScheduleGood(size, body, states, steps, n);
    var s := states[n];
    assert s.accepted[..|s.started|] == s.started;
    assert forall i | 0 <= i < |s.started| :: s.accepted[i] == s.started[i];
    forall call | call in s.callers && s.callers[call].Received?
      ensures call in s.started && s.callers[call].outcome == body(call)
    {
      assert Tracked(body, s, call);
    }
  }

  /** A worker is never stuck: whatever its caller did, it can take its next step unless it
      is idle and nothing waits. */
  lemma WorkerNeverBlocks(size: nat, body: nat -> Outcome, s: State, w: nat)
    requires Good(size, body, s) && w < size
    ensures match s.workers[w]
            case Idle => s.jobs != [] ==> Enabled(s, TakeJob(w))
            case Running(_) => Enabled(s, Finish(w))
            case Delivering(_, _) => Enabled(s, Deliver(w))
  {
    if s.workers[w].Delivering? { assert OnWorker(s, w, s.workers[w].call); }
  }

  /** A caller that gives up does so only while its call still waits or runs. */
  lemma TimeoutMeansUnfinished(size: nat, body: nat -> Outcome, s: State, call: nat)
    requires Good(size, body, s) && Enabled(s, GiveUp(call))
    ensures call in s.jobs || Busy(s, call)
  {
    assert Tracked(body, s, call);
  }

  // ---- progress

  function Rank(w: Worker): nat {
    match w
    case Idle => 0
    case Running(_) => 2
    case Delivering(_, _) => 1
  }

  function Ranks(workers: seq<Worker>): nat {
    if workers == [] then 0 else Ranks(workers[..|workers| - 1]) + Rank(workers[|workers| - 1])
  }

  function Work(s: State): nat { 3 * |s.jobs| + Ranks(s.workers) }

  lemma {:induction false} RanksUpdate(workers: seq<Worker>, w: nat, x: Worker)
    requires w < |workers|
    ensures Ranks(workers[w := x]) == Ranks(workers) - Rank(workers[w]) + Rank(x)
  {
    var n := |workers| - 1;
    if w < n {
      RanksUpdate(workers[..n], w, x);
      assert workers[w := x][..n] == workers[..n][w := x];
    } else {
      assert workers[w := x][..n] == workers[..n];
    }
  }

  /** Each worker step uses up one unit of work, so workers come to rest without help. */
  lemma WorkFalls(size: nat, body: nat -> Outcome, s: State, step: Step)
    requires Enabled(s, step) && (step.TakeJob? || step.Finish? || step.Deliver?)
    ensures Work(Next(size, body, s, step)) == Work(s) - 1
  {
    var w := step.worker;
    RanksUpdate(s.workers, w, Next(size, body, s, step).workers[w]);
  }

  /** When no worker can step, every accepted call has run and every caller still waiting
      has its own result in its queue. */
  lemma RestMeansDone(size: nat, body: nat -> Outcome, s: State, call: nat)
    requires Good(size, body, s) && size > 0 && call in s.accepted
    requires forall w | 0 <= w < size :: !Enabled(s, TakeJob(w)) && !Enabled(s, Finish(w)) && !Enabled(s, Deliver(w))
    ensures call in s.started
    ensures s.callers[call].Waiting? ==> s.mail[call] == Some(body(call))
  {
    forall w | 0 <= w < size ensures s.workers[w].Idle? { WorkerNeverBlocks(size, body, s, w); }
    assert !Enabled(s, TakeJob(0)) && s.workers[0].Idle?;
    assert s.jobs == [];
    assert s.accepted == s.started;
    assert Tracked(body, s, call) && !Busy(s, call);
  }
}
