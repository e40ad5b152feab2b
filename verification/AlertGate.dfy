/** The edge-triggered, rate-limited drift alert and the state it keeps between polls. */
module AlertGate {
  import opened Wrappers
  import opened Sorting

  datatype Finding = Finding(category: string, name: string, grade: string)

  datatype Node = Node(node: string, findings: seq<Finding>)

  function NodeErrors(node: string, findings: seq<Finding>): seq<string> {
    if findings == [] then []
    else
      var f := findings[0];
      (if f.grade == "error" then [node + "/" + f.category + "/" + f.name] else []) + NodeErrors(node, findings[1..])
  }

  function ErrorIds(nodes: seq<Node>): seq<string> {
    if nodes == [] then [] else NodeErrors(nodes[0].node, nodes[0].findings) + ErrorIds(nodes[1..])
  }

  type Fingerprint = seq<string>

  /** error_fingerprint */
  function ErrorFingerprint(nodes: seq<Node>): Fingerprint {
    SortBy(ErrorIds(nodes), StringLeq)
  }

  /** Two reports have one fingerprint exactly when they hold the same error findings, in
      whatever order nodes and findings are listed: identity, not a count. */
  lemma FingerprintIsIdentity(p: seq<Node>, q: seq<Node>)
    ensures ErrorFingerprint(p) == ErrorFingerprint(q) <==> multiset(ErrorIds(p)) == multiset(ErrorIds(q))
  {
    SortedStringsAgree(ErrorIds(p), ErrorIds(q));
  }

  // ---- one poll

  /** The state file: missing or unreadable means Kept(None, 0.0). */
  datatype Kept = Kept(fingerprint: Option<Fingerprint>, lastFire: real)

  const NOTHING_KEPT := Kept(None, 0.0)

  /** How the sender answers, when it is asked. */
  datatype Delivery = Delivered | Refused | Raised

  datatype Reason = Unchanged | Cleared | RateLimited | Fired | SendFailed | Failed

  /** One call: what it saw, when, and how sender and disk behaved. */
  datatype Poll = Poll(seen: Fingerprint, now: real, delivery: Delivery, writes: bool)

  predicate Attempts(kept: Kept, interval: real, p: Poll) {
    && kept.fingerprint != Some(p.seen)
    && p.seen != []
    && p.now - kept.lastFire >= interval
  }

  function Decide(kept: Kept, interval: real, p: Poll): Reason {
    if kept.fingerprint == Some(p.seen) then Unchanged
    else if p.seen == [] then (if p.writes then Cleared else Failed)
    else if p.now - kept.lastFire < interval then RateLimited
    else if p.delivery.Raised? then Failed
    else if p.delivery.Delivered? then Fired
    else SendFailed
  }

  function After(kept: Kept, interval: real, p: Poll): Kept {
    if !p.writes || kept.fingerprint == Some(p.seen) then kept
    else if p.seen == [] then kept.(fingerprint := Some([]))
    else if p.now - kept.lastFire < interval then kept
    else
      match p.delivery
      case Raised => kept
      case Refused => kept.(lastFire := p.now)
      case Delivered => Kept(Some(p.seen), p.now)
  }

  class Gate {
    var kept: Kept
    const interval: real

    constructor (interval: real)
      ensures kept == NOTHING_KEPT && this.interval == interval
    {
      kept := NOTHING_KEPT;
      this.interval := interval;
    }

    /** maybe_alert. `asked` tells whether the sender was called. */
    method MaybeAlert(p: Poll) returns (asked: bool, reason: Reason)
      modifies this
      ensures asked == Attempts(old(kept), interval, p) && reason == Decide(old(kept), interval, p)
      ensures kept == After(old(kept), interval, p)
    {
      asked := false;
      var state := kept;
      if state.fingerprint == Some(p.seen) { return asked, Unchanged; }
      if p.seen == [] {
        state := state.(fingerprint := Some(p.seen));
        if !p.writes { return asked, Failed; }
        kept := state;
        return asked, Cleared;
      }
      var elapsed := p.now - state.lastFire;
      if elapsed < interval { return asked, RateLimited; }
      asked := true;
      if p.delivery.Raised? { return asked, Failed; }
      var ok := p.delivery.Delivered?;
      state := state.(lastFire := p.now);
      if ok { state := state.(fingerprint := Some(p.seen)); }
      if p.writes { kept := state; }
      reason := if ok then Fired else SendFailed;
    }
  }

  // ---- whole runs

  type Run = seq<Poll>

  /** The state before poll `k`. */
  function Before(start: Kept, interval: real, run: Run, k: nat): Kept
    requires k <= |run|
  {
    if k == 0 then start else After(Before(start, interval, run, k - 1), interval, run[k - 1])
  }

  predicate Attempted(start: Kept, interval: real, run: Run, k: nat) {
    k < |run| && Attempts(Before(start, interval, run, k), interval, run[k])
  }

  /** The poll reaches the state file: nothing raises, and the write succeeds. */
  predicate LeavesTrace(p: Poll) {
    p.writes && !p.delivery.Raised?
  }

  /** An attempt the gate remembers. */
  predicate Recorded(start: Kept, interval: real, run: Run, k: nat) {
    Attempted(start, interval, run, k) && LeavesTrace(run[k])
  }

  predicate WasFired(start: Kept, interval: real, run: Run, k: nat) {
    Recorded(start, interval, run, k) && run[k].delivery.Delivered?
  }

  /** Poll `k` settles what the operator has been told: an alert went out, or all is clear, and
      that was written down. */
  predicate Settles(start: Kept, interval: real, run: Run, k: nat) {
    k < |run| && ((run[k].seen == [] && run[k].writes) || WasFired(start, interval, run, k))
  }

  ghost predicate Unsettled(start: Kept, interval: real, run: Run, from: nat, to: nat) {
    forall m: nat | from <= m < to :: !Settles(start, interval, run, m)
  }

  /** By poll `j` the last thing settled is that the operator was told of exactly `f`. */
  ghost predicate Told(start: Kept, interval: real, run: Run, j: nat, f: Fingerprint)
    requires j <= |run|
  {
    || (start.fingerprint == Some(f) && Unsettled(start, interval, run, 0, j))
    || (exists i: nat | i < j ::
          Settles(start, interval, run, i) && run[i].seen == f && Unsettled(start, interval, run, i + 1, j))
  }

  /** The cooldown of every recorded attempt is over for an attempt at `now`. */
  ghost predicate Cooled(start: Kept, interval: real, run: Run, j: nat, now: real) {
    && now - start.lastFire >= interval
    && (forall k: nat | k < j && Recorded(start, interval, run, k) :: now - run[k].now >= interval)
  }

  /** The fingerprint kept is what was last settled. */
  lemma {:induction false} KeepsWhatWasTold(start: Kept, interval: real, run: Run, j: nat, f: Fingerprint)
    requires j <= |run|
    ensures Before(start, interval, run, j).fingerprint == Some(f) <==> Told(start, interval, run, j, f)
  {
    if j > 0 {
      var k := j - 1;
      KeepsWhatWasTold(start, interval, run, k, f);
      if Settles(start, interval, run, k) {
        assert Unsettled(start, interval, run, k + 1, j);
      } else {
        assert Before(start, interval, run, j).fingerprint == Before(start, interval, run, k).fingerprint;
        ToldStays(start, interval, run, k, f);
      }
    }
  }

  lemma ToldStays(start: Kept, interval: real, run: Run, k: nat, f: Fingerprint)
    requires k < |run| && !Settles(start, interval, run, k)
    ensures Told(start, interval, run, k, f) <==> Told(start, interval, run, k + 1, f)
  {
    if Told(start, interval, run, k, f) && !(start.fingerprint == Some(f) && Unsettled(start, interval, run, 0, k)) {
      var i: nat :| i < k && Settles(start, interval, run, i) && run[i].seen == f
        && Unsettled(start, interval, run, i + 1, k);
      assert Unsettled(start, interval, run, i + 1, k + 1);
    }
    if Told(start, interval, run, k + 1, f)
      && !(start.fingerprint == Some(f) && Unsettled(start, interval, run, 0, k + 1)) {
      var i: nat :| i < k + 1 && Settles(start, interval, run, i) && run[i].seen == f
        && Unsettled(start, interval, run, i + 1, k + 1);
      assert i < k && Unsettled(start, interval, run, i + 1, k);
    }
  }

  /** The fire time kept is that of the latest recorded attempt, which no earlier one exceeds. */
  lemma {:induction false} KeepsLatestAttempt(start: Kept, interval: real, run: Run, j: nat, now: real)
    requires j <= |run| && interval >= 0.0
    ensures now - Before(start, interval, run, j).lastFire >= interval <==> Cooled(start, interval, run, j, now)
    decreases j
  {
    if j > 0 {
      var k := j - 1;
      KeepsLatestAttempt(start, interval, run, k, now);
      if Recorded(start, interval, run, k) {
        assert Before(start, interval, run, j).lastFire == run[k].now;
        KeepsLatestAttempt(start, interval, run, k, run[k].now);
      }
    }
  }

  /** The gate over any run, whatever sender and disk do: a poll asks the sender exactly when it
      sees errors other than those the operator was last told of, and the cooldown of every
      earlier recorded attempt is over. */
  lemma AsksWhenOwed(start: Kept, interval: real, run: Run, j: nat)
    requires interval >= 0.0 && j < |run|
    ensures Attempted(start, interval, run, j) <==>
            && run[j].seen != []
            && !Told(start, interval, run, j, run[j].seen)
            && Cooled(start, interval, run, j, run[j].now)
  {
    KeepsWhatWasTold(start, interval, run, j, run[j].seen);
    KeepsLatestAttempt(start, interval, run, j, run[j].now);
  }

  /** An attempt that left a trace holds off every later one for the interval. */
  lemma AttemptsAreSpaced(start: Kept, interval: real, run: Run, i: nat, j: nat)
    requires interval >= 0.0 && i < j
    requires Recorded(start, interval, run, i) && Attempted(start, interval, run, j)
    ensures run[j].now - run[i].now >= interval
  {
    AsksWhenOwed(start, interval, run, j);
  }

  /** A fingerprint that was sent stays silent until an alert for another one goes out or all
      is clear, however long that takes. */
  lemma SentStaysSilent(start: Kept, interval: real, run: Run, i: nat, j: nat)
    requires i < j < |run| && WasFired(start, interval, run, i)
    requires Unsettled(start, interval, run, i + 1, j) && run[j].seen == run[i].seen
    ensures !Attempted(start, interval, run, j)
    ensures Decide(Before(start, interval, run, j), interval, run[j]) == Unchanged
  {
    assert Settles(start, interval, run, i);
    KeepsWhatWasTold(start, interval, run, j, run[i].seen);
  }

  ghost predicate Persists(run: Run, f: Fingerprint, i: nat, j: nat) {
    i <= j < |run| && forall k: nat | i <= k <= j :: run[k].seen == f
  }

  /** New errors that persist are attempted at the first poll whose cooldown is over, and
      stay owed after every attempt that failed. */
  lemma {:induction false} PersistentIsOwed(start: Kept, interval: real, run: Run, f: Fingerprint, i: nat, j: nat)
    requires interval >= 0.0
    requires f != [] && Persists(run, f, i, j) && !Told(start, interval, run, i, f)
    requires forall k: nat | i <= k < j :: !WasFired(start, interval, run, k)
    ensures !Told(start, interval, run, j, f)
    ensures Attempted(start, interval, run, j) <==> Cooled(start, interval, run, j, run[j].now)
    decreases j
  {
    if i < j {
      PersistentIsOwed(start, interval, run, f, i, j - 1);
      assert run[j - 1].seen == f;
      assert !Settles(start, interval, run, j - 1);
      ToldStays(start, interval, run, j - 1, f);
    }
    AsksWhenOwed(start, interval, run, j);
  }

  /** A poll that saw no errors re-arms the gate: whatever errors come next are attempted as
      soon as the cooldown is over, even those alerted before. */
  lemma RecoveryRearms(start: Kept, interval: real, run: Run, i: nat, j: nat)
    requires interval >= 0.0 && i < j < |run|
    requires run[i].seen == [] && run[i].writes && run[j].seen != [] && Unsettled(start, interval, run, i + 1, j)
    ensures Attempted(start, interval, run, j) <==> Cooled(start, interval, run, j, run[j].now)
  {
    assert Settles(start, interval, run, i);
    assert Told(start, interval, run, j, []);
    KeepsWhatWasTold(start, interval, run, j, []);
    KeepsWhatWasTold(start, interval, run, j, run[j].seen);
    AsksWhenOwed(start, interval, run, j);
  }

  /** No attempt from poll `i` up to poll `j` is remembered. */
  ghost predicate NoneRecorded(start: Kept, interval: real, run: Run, i: nat, j: nat) {
    forall k: nat | i <= k < j :: !Recorded(start, interval, run, k)
  }

  /** While no alert is recorded, errors not told of stay so. */
  lemma {:induction false} UntoldStays(start: Kept, interval: real, run: Run, f: Fingerprint, i: nat, j: nat)
    requires i <= j <= |run| && f != [] && Before(start, interval, run, i).fingerprint != Some(f)
    requires forall k: nat | i <= k < j :: !WasFired(start, interval, run, k)
    ensures Before(start, interval, run, j).fingerprint != Some(f)
  {
    if i < j {
      UntoldStays(start, interval, run, f, i, j - 1);
      assert !WasFired(start, interval, run, j - 1);
    }
  }

  /** While no attempt is recorded, the fire time stays. */
  lemma {:induction false} FireTimeStays(start: Kept, interval: real, run: Run, i: nat, j: nat)
    requires i <= j <= |run| && NoneRecorded(start, interval, run, i, j)
    ensures Before(start, interval, run, j).lastFire == Before(start, interval, run, i).lastFire
  {
    if i < j {
      FireTimeStays(start, interval, run, i, j - 1);
      assert !Recorded(start, interval, run, j - 1);
    }
  }

  /** Exactly the attempts without a trace are repeated early. In any run, let the errors of an
      attempt be seen again within the interval, the clock not having run back behind it: they
      are attempted again if and only if no attempt from the first one on has left a trace. */
  lemma UnrecordedAttemptRepeats(start: Kept, interval: real, run: Run, i: nat, j: nat)
    requires interval >= 0.0 && i < j < |run| && Attempted(start, interval, run, i)
    requires run[j].seen == run[i].seen && run[j].now < run[i].now + interval
    requires forall k: nat | i < k <= j :: run[i].now <= run[k].now
    ensures Attempted(start, interval, run, j) <==> NoneRecorded(start, interval, run, i, j)
  {
    if NoneRecorded(start, interval, run, i, j) {
      FireTimeStays(start, interval, run, i, j);
      UntoldStays(start, interval, run, run[i].seen, i, j);
    } else if Attempted(start, interval, run, j) {
      var k: nat :| i <= k < j && Recorded(start, interval, run, k);
      AttemptsAreSpaced(start, interval, run, k, j);
    }
  }
}
