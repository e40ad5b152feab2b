/** Forecasts, dependency scenarios and rolling-origin backtests. */
module ForecastArtifacts {
  import opened Wrappers
  import opened Grouping
  import opened Sorting
  import opened Forecasting

  function Counts(ps: seq<Period>): seq<nat> {
    seq(|ps|, i requires 0 <= i < |ps| => ps[i].completed)
  }

  function Identity(n: nat): nat {
    n
  }

  /** All periods last equally long, and there is one. */
  predicate OneCadence(ps: seq<Period>) {
    ps != [] && forall i | 0 <= i < |ps| :: ps[i].end - ps[i].start == ps[0].end - ps[0].start
  }

  predicate AnyCompleted(ps: seq<Period>) {
    exists i | 0 <= i < |ps| :: ps[i].completed > 0
  }

  // ---- the forecast

  datatype Reason = TooFewPeriods | MixedCadence | NoCompletedWork

  /** Invalid is the source's ValueError; `onTime` counts the outcomes by the milestone. */
  datatype Artifact = Invalid | Abstained(reason: Reason) | Ready(quantiles: Quantiles, onTime: Option<int>)

  function Forecast(random: Random, history: seq<Period>, work: int, seed: int, iterations: int,
                    minimumSample: int, milestone: Option<int>): Artifact
  {
    var prepared := Prepared(history);
    if work <= 0 || iterations <= 0 || minimumSample <= 0 || (milestone.Some? && milestone.value < 0) || prepared.None?
    then Invalid
    else
      var included := prepared.value.0;
      if |included| < minimumSample then Abstained(TooFewPeriods)
      else if !OneCadence(included) then Abstained(MixedCadence)
      else if !AnyCompleted(included) then Abstained(NoCompletedWork)
      else
        var run := Outcomes(GainsOf(random, seed, Counts(included), Identity), work, 0, iterations);
        if run.None? then Invalid
        else
          var outcomes := run.value.outcomes;
          Ready(QuantilesOf(outcomes),
                if milestone.None? then None else Some(CountBelow(outcomes, milestone.value + 1)))
  }

  /** forecast */
  method RunForecast(random: Random, history: seq<Period>, work: int, seed: int, iterations: int,
                     minimumSample: int, milestone: Option<int>) returns (artifact: Artifact)
    ensures artifact == Forecast(random, history, work, seed, iterations, minimumSample, milestone)
  {
    if work <= 0 || iterations <= 0 || minimumSample <= 0 { return Invalid; }
    if milestone.Some? && milestone.value < 0 { return Invalid; }
    var prepared := PrepareHistory(history);
    if prepared.None? { return Invalid; }
    var included := prepared.value.0;
    if |included| < minimumSample { return Abstained(TooFewPeriods); }
    if !OneCadence(included) { return Abstained(MixedCadence); }
    if !AnyCompleted(included) { return Abstained(NoCompletedWork); }
    var outcomes := Simulate(GainsOf(random, seed, Counts(included), Identity), work, 0, iterations);
    if outcomes.None? { return Invalid; }
    artifact := Ready(QuantilesOf(outcomes.value),
                      if milestone.None? then None else Some(CountBelow(outcomes.value, milestone.value + 1)));
  }

  // ---- dependency scenarios

  datatype Scenario = Scenario(delta: int, blocked: nat, capacity: nat -> nat, changed: set<string>)

  datatype ScenarioResult = NoCapacity | Sensitivity(delivery: Quantiles, completion: Quantiles, sensitivity: Quantiles)

  function Minus(a: Quantiles, b: Quantiles): Quantiles {
    Quantiles(a.p50 - b.p50, a.p85 - b.p85, a.p95 - b.p95)
  }

  function All(n: int): Quantiles {
    Quantiles(n, n, n)
  }

  predicate AnyCapacity(counts: seq<nat>, capacity: nat -> nat) {
    exists i | 0 <= i < |counts| :: capacity(counts[i]) > 0
  }

  datatype ScenarioRun = Refused | Powerless | Drawn(outcomes: seq<nat>)

  /** There is work left, and only items of the bound topology change. */
  predicate Admissible(work: int, topology: set<string>, s: Scenario) {
    work + s.delta > 0 && s.changed - topology == {}
  }

  /** What a scenario draws, from the same seed as the forecast. */
  function RunScenario(random: Random, counts: seq<nat>, work: int, seed: int, iterations: nat,
                       topology: set<string>, s: Scenario): (run: ScenarioRun)
    ensures run.Drawn? ==> |run.outcomes| == iterations
  {
    if !Admissible(work, topology, s) then Refused
    else if !AnyCapacity(counts, s.capacity) then Powerless
    else DrawnFrom(GainsOf(random, seed, counts, s.capacity), work + s.delta, s.blocked, iterations)
  }

  function DrawnFrom(gain: Gains, work: int, blocked: nat, iterations: nat): (run: ScenarioRun)
    ensures run.Drawn? ==> |run.outcomes| == iterations
  {
    var run := Outcomes(gain, work, blocked, iterations);
    if run.None? then Refused else Drawn(run.value.outcomes)
  }

  function Compared(q: Quantiles, blocked: nat, baseline: Quantiles): ScenarioResult {
    Sensitivity(Minus(q, All(blocked)), q, Minus(q, baseline))
  }

  function Judged(run: ScenarioRun, blocked: nat, baseline: Quantiles): Option<ScenarioResult>
    requires run.Drawn? ==> run.outcomes != []
  {
    match run
    case Refused => None
    case Powerless => Some(NoCapacity)
    case Drawn(outcomes) => Some(Compared(QuantilesOf(outcomes), blocked, baseline))
  }

  /** One scenario; None is a ValueError. */
  function ScenarioOf(random: Random, counts: seq<nat>, work: int, seed: int, iterations: nat,
                      topology: set<string>, baseline: Quantiles, s: Scenario): Option<ScenarioResult>
    requires iterations > 0
  {
    Judged(RunScenario(random, counts, work, seed, iterations, topology, s), s.blocked, baseline)
  }

  /** The results of all scenarios, or the failure of one. */
  function Collected(of: Scenario -> Option<ScenarioResult>, scenarios: seq<Scenario>): Option<seq<ScenarioResult>> {
    if scenarios == [] then Some([])
    else
      var m := |scenarios| - 1;
      var before, last := Collected(of, scenarios[..m]), of(scenarios[m]);
      if before.None? || last.None? then None else Some(before.value + [last.value])
  }

  lemma {:induction false} CollectedFails(of: Scenario -> Option<ScenarioResult>, scenarios: seq<Scenario>, k: nat)
    requires k < |scenarios| && of(scenarios[k]).None?
    ensures Collected(of, scenarios).None?
  {
    if k < |scenarios| - 1 { CollectedFails(of, scenarios[..|scenarios| - 1], k); }
  }

  function Judge(random: Random, counts: seq<nat>, work: int, seed: int, iterations: nat,
                 topology: set<string>, baseline: Quantiles): Scenario -> Option<ScenarioResult>
    requires iterations > 0
  {
    s => ScenarioOf(random, counts, work, seed, iterations, topology, baseline, s)
  }

  method DrawScenario(random: Random, counts: seq<nat>, work: int, seed: int, iterations: nat,
                      topology: set<string>, s: Scenario) returns (run: ScenarioRun)
    ensures run == RunScenario(random, counts, work, seed, iterations, topology, s)
  {
    if !Admissible(work, topology, s) { return Refused; }
    if !AnyCapacity(counts, s.capacity) { return Powerless; }
    var outcomes := Simulate(GainsOf(random, seed, counts, s.capacity), work + s.delta, s.blocked, iterations);
    run := if outcomes.None? then Refused else Drawn(outcomes.value);
  }

  method SimulateScenario(random: Random, counts: seq<nat>, work: int, seed: int, iterations: nat,
                          topology: set<string>, baseline: Quantiles, s: Scenario)
      returns (result: Option<ScenarioResult>)
    requires iterations > 0
    ensures result == ScenarioOf(random, counts, work, seed, iterations, topology, baseline, s)
  {
    var run := DrawScenario(random, counts, work, seed, iterations, topology, s);
    result := Judged(run, s.blocked, baseline);
  }

  /** The scenario loop of simulate_dependencies, over a ready baseline. */
  method SimulateScenarios(random: Random, counts: seq<nat>, work: int, seed: int, iterations: nat,
                           topology: set<string>, baseline: Quantiles, scenarios: seq<Scenario>)
      returns (results: Option<seq<ScenarioResult>>)
    requires iterations > 0
    ensures results == Collected(Judge(random, counts, work, seed, iterations, topology, baseline), scenarios)
  {
    ghost var of := Judge(random, counts, work, seed, iterations, topology, baseline);
    var done: seq<ScenarioResult> := [];
    for k := 0 to |scenarios|
      invariant Collected(of, scenarios[..k]) == Some(done)
    {
      assert scenarios[..k + 1][..k] == scenarios[..k];
      var result := SimulateScenario(random, counts, work, seed, iterations, topology, baseline, scenarios[k]);
      assert result == of(scenarios[k]);
      if result.None? {
        CollectedFails(of, scenarios, k);
        return None;
      }
      done := done + [result.value];
    }
    assert scenarios[..|scenarios|] == scenarios;
    results := Some(done);
  }

  /** simulate_dependencies: the baseline forecast and, when it is ready, all scenarios; None is
      a ValueError. */
  method SimulateDependencies(random: Random, history: seq<Period>, work: int, seed: int, iterations: int,
                              minimumSample: int, topology: set<string>, scenarios: seq<Scenario>)
      returns (artifact: Option<(Artifact, seq<ScenarioResult>)>)
    ensures var baseline := Forecast(random, history, work, seed, iterations, minimumSample, None);
      artifact ==
      if baseline.Invalid? then None
      else if baseline.Abstained? then Some((baseline, []))
      else
        var counts := Counts(Prepared(history).value.0);
        var results := Collected(Judge(random, counts, work, seed, iterations, topology, baseline.quantiles),
          scenarios);
        if results.None? then None else Some((baseline, results.value))
  {
    var baseline := RunForecast(random, history, work, seed, iterations, minimumSample, None);
    if baseline.Invalid? { return None; }
    if baseline.Abstained? { return Some((baseline, [])); }
    var prepared := PrepareHistory(history);
    var results := SimulateScenarios(random, Counts(prepared.value.0), work, seed, iterations, topology,
                                     baseline.quantiles, scenarios);
    artifact := if results.None? then None else Some((baseline, results.value));
  }

  function Later(q: Quantiles, b: nat): Quantiles {
    Quantiles(q.p50 + b, q.p85 + b, q.p95 + b)
  }

  ghost predicate BlocksLonger(s: Scenario, t: Scenario, b: nat) {
    t.delta == s.delta && t.capacity == s.capacity && t.changed == s.changed && t.blocked == s.blocked + b
  }

  lemma DrawnShifts(gain: Gains, work: int, blocked: nat, b: nat, iterations: nat)
    ensures var one := DrawnFrom(gain, work, blocked, iterations);
      DrawnFrom(gain, work, blocked + b, iterations) == if one.Drawn? then Drawn(Shifted(one.outcomes, b)) else one
  {
    BlockedShiftsOutcomes(gain, work, blocked, b, iterations);
  }

  lemma BlockingShiftsRun(random: Random, counts: seq<nat>, work: int, seed: int, iterations: nat,
                          topology: set<string>, s: Scenario, t: Scenario, b: nat)
    requires BlocksLonger(s, t, b)
    ensures var one := RunScenario(random, counts, work, seed, iterations, topology, s);
      RunScenario(random, counts, work, seed, iterations, topology, t) ==
      if one.Drawn? then Drawn(Shifted(one.outcomes, b)) else one
  {
    DrawnShifts(GainsOf(random, seed, counts, s.capacity), work + s.delta, s.blocked, b, iterations);
  }

  lemma QuantilesLater(outcomes: seq<nat>, later: seq<nat>, b: nat)
    requires outcomes != [] && later == Shifted(outcomes, b)
    ensures later != [] && QuantilesOf(later) == Later(QuantilesOf(outcomes), b)
  {
    QuantilesShift(outcomes, b);
  }

  /** The second result is the first one, b periods later. */
  ghost predicate LaterBy(one: Option<ScenarioResult>, two: Option<ScenarioResult>, b: nat) {
    if one.Some? && one.value.Sensitivity?
    then && two.Some? && two.value.Sensitivity?
         && two.value.delivery == one.value.delivery
         && Minus(two.value.completion, one.value.completion) == All(b)
         && Minus(two.value.sensitivity, one.value.sensitivity) == All(b)
    else two == one
  }

  lemma ComparedLater(q: Quantiles, blocked: nat, b: nat, baseline: Quantiles)
    ensures LaterBy(Some(Compared(q, blocked, baseline)), Some(Compared(Later(q, b), blocked + b, baseline)), b)
  {
  }

  lemma JudgedLater(one: ScenarioRun, two: ScenarioRun, blocked: nat, b: nat, baseline: Quantiles)
    requires one.Drawn? ==> one.outcomes != []
    requires two == if one.Drawn? then Drawn(Shifted(one.outcomes, b)) else one
    ensures two.Drawn? ==> two.outcomes != []
    ensures LaterBy(Judged(one, blocked, baseline), Judged(two, blocked + b, baseline), b)
  {
    if one.Drawn? {
      QuantilesLater(one.outcomes, two.outcomes, b);
      ComparedLater(QuantilesOf(one.outcomes), blocked, b, baseline);
    }
  }

  /** Blocking a scenario for b more periods is accepted whenever the scenario was, leaves its
      delivery quantiles alone, and moves every completion quantile and every sensitivity by b. */
  lemma BlockingShifts(random: Random, counts: seq<nat>, work: int, seed: int, iterations: nat,
                       topology: set<string>, baseline: Quantiles, s: Scenario, t: Scenario, b: nat)
    requires iterations > 0 && BlocksLonger(s, t, b)
    ensures LaterBy(ScenarioOf(random, counts, work, seed, iterations, topology, baseline, s),
                    ScenarioOf(random, counts, work, seed, iterations, topology, baseline, t), b)
  {
    BlockingShiftsRun(random, counts, work, seed, iterations, topology, s, t, b);
    JudgedLater(RunScenario(random, counts, work, seed, iterations, topology, s),
                RunScenario(random, counts, work, seed, iterations, topology, t), s.blocked, b, baseline);
  }

  lemma {:induction false} HitAgrees(gain: Gains, gain': Gains, from: nat, work: int, limit: nat)
    requires forall n :: gain(n) == gain'(n)
    ensures HitFrom(gain, from, work, limit) == HitFrom(gain', from, work, limit)
    decreases limit
  {
    if work > 0 && limit > 0 { HitAgrees(gain, gain', from + 1, work - gain(from), limit - 1); }
  }

  lemma OneMoreAgrees(gain: Gains, gain': Gains, work: int, blocked: nat, before: Progress)
    requires forall n :: gain(n) == gain'(n)
    ensures OneMore(gain, work, blocked, before) == OneMore(gain', work, blocked, before)
  {
    HitAgrees(gain, gain', before.next, work, Horizon(work));
  }

  lemma {:induction false} OutcomesAgree(gain: Gains, gain': Gains, work: int, blocked: nat, n: nat)
    requires forall n :: gain(n) == gain'(n)
    ensures Outcomes(gain, work, blocked, n) == Outcomes(gain', work, blocked, n)
  {
    if n > 0 {
      OutcomesAgree(gain, gain', work, blocked, n - 1);
      var before := Outcomes(gain, work, blocked, n - 1);
      if before.Some? { OneMoreAgrees(gain, gain', work, blocked, before.value); }
    }
  }

  lemma SameCapacityRuns(random: Random, ps: seq<Period>, work: int, seed: int, iterations: nat,
                         topology: set<string>, s: Scenario)
    requires s.delta == 0 && s.blocked == 0 && s.changed <= topology && forall n :: s.capacity(n) == n
    requires AnyCompleted(ps) && work > 0
    ensures RunScenario(random, Counts(ps), work, seed, iterations, topology, s)
            == DrawnFrom(GainsOf(random, seed, Counts(ps), Identity), work, 0, iterations)
  {
    var gain, gain' := GainsOf(random, seed, Counts(ps), Identity), GainsOf(random, seed, Counts(ps), s.capacity);
    OutcomesAgree(gain, gain', work, 0, iterations);
    var i :| 0 <= i < |ps| && ps[i].completed > 0;
    assert s.capacity(Counts(ps)[i]) > 0;
    assert s.changed - topology == {};
  }

  lemma ReadyForecast(random: Random, history: seq<Period>, work: int, seed: int, iterations: int, minimumSample: int)
      returns (ps: seq<Period>, outcomes: seq<nat>)
    requires Forecast(random, history, work, seed, iterations, minimumSample, None).Ready?
    ensures Prepared(history).Some? && ps == Prepared(history).value.0 && AnyCompleted(ps) && work > 0 && iterations > 0
    ensures var run := Outcomes(GainsOf(random, seed, Counts(ps), Identity), work, 0, iterations);
      run.Some? && outcomes == run.value.outcomes && outcomes != []
    ensures Forecast(random, history, work, seed, iterations, minimumSample, None).quantiles == QuantilesOf(outcomes)
  {
    ps := Prepared(history).value.0;
    outcomes := Outcomes(GainsOf(random, seed, Counts(ps), Identity), work, 0, iterations).value.outcomes;
  }

  lemma NoChangeSameRun(random: Random, history: seq<Period>, work: int, seed: int, iterations: int,
                        minimumSample: int, topology: set<string>, s: Scenario) returns (outcomes: seq<nat>)
    requires s.delta == 0 && s.blocked == 0 && s.changed <= topology && forall n :: s.capacity(n) == n
    requires Forecast(random, history, work, seed, iterations, minimumSample, None).Ready?
    ensures Prepared(history).Some? && iterations > 0 && outcomes != []
    ensures QuantilesOf(outcomes) == Forecast(random, history, work, seed, iterations, minimumSample, None).quantiles
    ensures RunScenario(random, Counts(Prepared(history).value.0), work, seed, iterations, topology, s)
            == Drawn(outcomes)
  {
    var ps;
    ps, outcomes := ReadyForecast(random, history, work, seed, iterations, minimumSample);
    SameCapacityRuns(random, ps, work, seed, iterations, topology, s);
  }

  lemma OnlyBlockingJudged(outcomes: seq<nat>, b: nat, q: Quantiles)
    requires outcomes != [] && q == QuantilesOf(outcomes)
    ensures Shifted(outcomes, b) != []
    ensures Judged(Drawn(Shifted(outcomes, b)), b, q) == Some(Sensitivity(q, Later(q, b), All(b)))
  {
    QuantilesLater(outcomes, Shifted(outcomes, b), b);
    ComparedOnly(q, b);
  }

  lemma ComparedOnly(q: Quantiles, b: nat)
    ensures Compared(Later(q, b), b, q) == Sensitivity(q, Later(q, b), All(b))
  {
  }

  lemma BlockedOnly(random: Random, counts: seq<nat>, work: int, seed: int, iterations: nat,
                    topology: set<string>, still: Scenario, t: Scenario, q: Quantiles, outcomes: seq<nat>)
    requires iterations > 0 && still.blocked == 0 && BlocksLonger(still, t, t.blocked)
    requires RunScenario(random, counts, work, seed, iterations, topology, still) == Drawn(outcomes)
    requires outcomes != [] && q == QuantilesOf(outcomes)
    ensures ScenarioOf(random, counts, work, seed, iterations, topology, q, t)
            == Some(Sensitivity(q, Later(q, t.blocked), All(t.blocked)))
  {
    BlockingShiftsRun(random, counts, work, seed, iterations, topology, still, t, t.blocked);
    OnlyBlockingJudged(outcomes, t.blocked, q);
  }

  /** A scenario that only blocks, for b periods, over a ready forecast of the same history:
      its delivery is the forecast, every quantile the forecast's plus b, and so every
      sensitivity exactly b. */
  lemma OnlyBlocking(random: Random, history: seq<Period>, work: int, seed: int, iterations: int, minimumSample: int,
                     topology: set<string>, still: Scenario, t: Scenario, q: Quantiles)
    requires still.delta == 0 && still.blocked == 0 && still.changed <= topology && forall n :: still.capacity(n) == n
    requires BlocksLonger(still, t, t.blocked)
    requires Forecast(random, history, work, seed, iterations, minimumSample, None).Ready?
    requires q == Forecast(random, history, work, seed, iterations, minimumSample, None).quantiles
    ensures Prepared(history).Some? && iterations > 0
    ensures ScenarioOf(random, Counts(Prepared(history).value.0), work, seed, iterations, topology, q, t)
            == Some(Sensitivity(q, Later(q, t.blocked), All(t.blocked)))
  {
    var outcomes := NoChangeSameRun(random, history, work, seed, iterations, minimumSample, topology, still);
    BlockedOnly(random, Counts(Prepared(history).value.0), work, seed, iterations, topology, still, t, q, outcomes);
  }

  // ---- backtests

  /** What the periods themselves completed. */
  function Future(ps: seq<Period>): Gains {
    (n: nat) => if n < |ps| then ps[n].completed else 0
  }

  /** The number of periods from `cutoff` on that reach the target. */
  function ActualFrom(ps: seq<Period>, cutoff: nat, target: int): Option<nat>
    requires cutoff <= |ps|
  {
    HitFrom(Future(ps), cutoff, target, |ps| - cutoff)
  }

  datatype Record = Record(cutoff: nat, quantiles: Quantiles, actual: nat)

  datatype Attempt = Skipped | Failed | Made(record: Record)

  function RecordAt(random: Random, ps: seq<Period>, target: int, seed: int, iterations: int, cutoff: nat): Attempt
    requires cutoff <= |ps|
  {
    var actual := ActualFrom(ps, cutoff, target);
    if actual.None? then Skipped
    else
      var gain := GainsOf(random, seed + cutoff, Counts(ps[..cutoff]), Identity);
      var run := Outcomes(gain, target, 0, if iterations < 0 then 0 else iterations);
      if run.None? || run.value.outcomes == [] then Failed
      else Made(Record(cutoff, QuantilesOf(run.value.outcomes), actual.value))
  }

  /** The records of the cutoffs from `first` up to `k`. */
  function RecordsUpTo(at: nat -> Attempt, first: nat, k: nat): Option<seq<Record>> {
    if k <= first then Some([])
    else
      var before := RecordsUpTo(at, first, k - 1);
      if before.None? then None
      else
        match at(k - 1)
        case Skipped => before
        case Failed => None
        case Made(record) => Some(before.value + [record])
  }

  lemma {:induction false} RecordsFail(at: nat -> Attempt, first: nat, k: nat, more: nat)
    requires k <= more && RecordsUpTo(at, first, k).None?
    ensures RecordsUpTo(at, first, more).None?
    decreases more
  {
    if k < more { RecordsFail(at, first, k, more - 1); }
  }

  function Tester(random: Random, ps: seq<Period>, target: int, seed: int, iterations: int): nat -> Attempt {
    (cutoff: nat) => if cutoff <= |ps| then RecordAt(random, ps, target, seed, iterations, cutoff) else Skipped
  }

  predicate Testable(ps: seq<Period>, minimumSample: nat) {
    OneCadence(ps) && (|ps| >= minimumSample ==> AnyCompleted(ps[..minimumSample]))
  }

  /** The records of backtest; None is a ValueError. */
  function Backtest(random: Random, history: seq<Period>, target: int, seed: int, iterations: int, minimumSample: nat)
      : Option<seq<Record>>
  {
    var prepared := Prepared(history);
    if target <= 0 || prepared.None? then None
    else
      var ps := prepared.value.0;
      if Testable(ps, minimumSample) then RecordsUpTo(Tester(random, ps, target, seed, iterations), minimumSample, |ps|)
      else Some([])
  }

  method ActualPeriods(ps: seq<Period>, cutoff: nat, target: int) returns (actual: Option<nat>)
    requires cutoff < |ps| && target > 0
    ensures actual == ActualFrom(ps, cutoff, target)
  {
    var total: nat := 0;
    for i := cutoff to |ps|
      invariant total < target
      invariant var rest := HitFrom(Future(ps), i, target - total, |ps| - i);
        HitFrom(Future(ps), cutoff, target, |ps| - cutoff) == if rest.None? then None else Some(i - cutoff + rest.value)
    {
      total := total + ps[i].completed;
      if total >= target { return Some(i + 1 - cutoff); }
    }
    actual := None;
  }

  method MakeRecord(random: Random, ps: seq<Period>, target: int, seed: int, iterations: int, cutoff: nat)
      returns (attempt: Attempt)
    requires target > 0 && cutoff < |ps|
    ensures attempt == RecordAt(random, ps, target, seed, iterations, cutoff)
  {
    var actual := ActualPeriods(ps, cutoff, target);
    if actual.None? { return Skipped; }
    var outcomes := Simulate(GainsOf(random, seed + cutoff, Counts(ps[..cutoff]), Identity), target, 0, iterations);
    if outcomes.None? || outcomes.value == [] { return Failed; }
    attempt := Made(Record(cutoff, QuantilesOf(outcomes.value), actual.value));
  }

  method MakeRecords(random: Random, ps: seq<Period>, target: int, seed: int, iterations: int, minimumSample: nat)
      returns (records: Option<seq<Record>>)
    requires target > 0
    ensures records == RecordsUpTo(Tester(random, ps, target, seed, iterations), minimumSample, |ps|)
  {
    ghost var at := Tester(random, ps, target, seed, iterations);
    var done: seq<Record> := [];
    var cutoff := minimumSample;
    while cutoff < |ps|
      invariant cutoff <= |ps| || cutoff == minimumSample
      invariant cutoff >= minimumSample && RecordsUpTo(at, minimumSample, cutoff) == Some(done)
    {
      var attempt := MakeRecord(random, ps, target, seed, iterations, cutoff);
      assert attempt == at(cutoff);
      match attempt {
        case Skipped =>
        case Failed =>
          RecordsFail(at, minimumSample, cutoff + 1, |ps|);
          return None;
        case Made(record) => done := done + [record];
      }
      cutoff := cutoff + 1;
    }
    records := Some(done);
  }

  method RunBacktest(random: Random, history: seq<Period>, target: int, seed: int, iterations: int, minimumSample: nat)
      returns (records: Option<seq<Record>>)
    ensures records == Backtest(random, history, target, seed, iterations, minimumSample)
  {
    if target <= 0 { return None; }
    var prepared := PrepareHistory(history);
    if prepared.None? { return None; }
    var ps := prepared.value.0;
    if !Testable(ps, minimumSample) { return Some([]); }
    records := MakeRecords(random, ps, target, seed, iterations, minimumSample);
  }

  ghost predicate MarksCutoffs(at: nat -> Attempt) {
    forall k :: at(k).Made? ==> at(k).record.cutoff == k
  }

  /** The records are exactly those of the cutoffs from the first on that make one. */
  lemma {:induction false} RecordsAreThoseMade(at: nat -> Attempt, first: nat, k: nat, r: Record)
    requires MarksCutoffs(at) && RecordsUpTo(at, first, k).Some?
    ensures r in RecordsUpTo(at, first, k).value <==> first <= r.cutoff < k && at(r.cutoff) == Made(r)
  {
    if k > first { RecordsAreThoseMade(at, first, k - 1, r); }
  }

  /** A backtest has one record for each cutoff, from the minimum sample on, whose future
      reaches the target. */
  lemma BacktestRecords(random: Random, history: seq<Period>, target: int, seed: int, iterations: int,
                        minimumSample: nat, r: Record)
    requires Backtest(random, history, target, seed, iterations, minimumSample).Some?
    ensures Prepared(history).Some?
    ensures var ps := Prepared(history).value.0;
      r in Backtest(random, history, target, seed, iterations, minimumSample).value <==>
      && Testable(ps, minimumSample) && minimumSample <= r.cutoff < |ps|
      && RecordAt(random, ps, target, seed, iterations, r.cutoff) == Made(r)
  {
    var ps := Prepared(history).value.0;
    var at := Tester(random, ps, target, seed, iterations);
    assert MarksCutoffs(at);
    if Testable(ps, minimumSample) { RecordsAreThoseMade(at, minimumSample, |ps|, r); }
  }

  /** The actual periods of a record are the least number of future periods that reach the
      target, all of them inside the history. */
  lemma ActualIsLeast(random: Random, ps: seq<Period>, target: int, seed: int, iterations: int, cutoff: nat, r: Record)
    requires cutoff <= |ps| && RecordAt(random, ps, target, seed, iterations, cutoff) == Made(r)
    ensures cutoff + r.actual <= |ps| && ReachesFirst(ps, cutoff, target, r.actual)
  {
    RecordActual(random, ps, target, seed, iterations, cutoff, r);
    FutureIsLeast(ps, cutoff, target, r.actual);
  }

  /** The target is reached by the `n` periods from `cutoff` on, and not by fewer. */
  ghost predicate ReachesFirst(ps: seq<Period>, cutoff: nat, target: int, n: nat) {
    IsLeast(Future(ps), cutoff, target, n)
  }

  lemma RecordActual(random: Random, ps: seq<Period>, target: int, seed: int, iterations: int, cutoff: nat, r: Record)
    requires cutoff <= |ps| && RecordAt(random, ps, target, seed, iterations, cutoff) == Made(r)
    ensures ActualFrom(ps, cutoff, target) == Some(r.actual)
  {
  }

  lemma FutureIsLeast(ps: seq<Period>, cutoff: nat, target: int, n: nat)
    requires cutoff <= |ps| && ActualFrom(ps, cutoff, target) == Some(n)
    ensures cutoff + n <= |ps| && ReachesFirst(ps, cutoff, target, n)
  {
    HitIsLeast(Future(ps), cutoff, target, |ps| - cutoff);
  }

  function StartsBefore(day: int): Period -> bool {
    (p: Period) => p.start < day
  }

  /** The canonical periods that start before a day. */
  function Before(history: seq<Period>, day: int): seq<Period> {
    Keyed(Keyed(history, IsCanonical, true), StartsBefore(day), true)
  }

  lemma {:induction false} EarlyPrefix(ps: seq<Period>, day: int)
    requires SortedBy(ps, PeriodLeq)
    ensures var early := Keyed(ps, StartsBefore(day), true);
      |early| <= |ps| && early == ps[..|early|]
      && (forall i | |early| <= i < |ps| :: ps[i].start >= day)
  {
    if ps != [] {
      var m := |ps| - 1;
      EarlyPrefix(ps[..m], day);
      var early := Keyed(ps[..m], StartsBefore(day), true);
      if ps[m].start < day && |early| < m {
        assert PeriodLeq(ps[|early|], ps[m]) && ps[..m][|early|].start >= day;
      }
    }
  }

  /** Two histories with the same canonical periods before a day have the same canonical
      history up to that day. */
  lemma SamePastSamePrefix(h: seq<Period>, h': seq<Period>, day: int)
    requires multiset(Before(h, day)) == multiset(Before(h', day))
    requires Prepared(h).Some? && Prepared(h').Some?
    ensures var ps, ps', n := Prepared(h).value.0, Prepared(h').value.0, |Before(h, day)|;
      n <= |ps| && n <= |ps'| && ps[..n] == ps'[..n]
  {
    var ps, ps' := Prepared(h).value.0, Prepared(h').value.0;
    var early, early' := Keyed(ps, StartsBefore(day), true), Keyed(ps', StartsBefore(day), true);
    IncludedSorted(h);
    IncludedSorted(h');
    PastOfIncluded(h, day);
    PastOfIncluded(h', day);
    EarlyPrefix(ps, day);
    EarlyPrefix(ps', day);
    KeyedSorted(ps, StartsBefore(day), true, PeriodLeq);
    KeyedSorted(ps', StartsBefore(day), true, PeriodLeq);
    DisjointArrangement(early, early');
    assert |multiset(early)| == |multiset(Before(h, day))|;
  }

  lemma PastOfIncluded(h: seq<Period>, day: int)
    requires Prepared(h).Some?
    ensures multiset(Keyed(Prepared(h).value.0, StartsBefore(day), true)) == multiset(Before(h, day))
  {
    SortContents(h, PeriodLeq);
    SameContentsKeyed(SortBy(h, PeriodLeq), h, IsCanonical, true);
    SameContentsKeyed(Prepared(h).value.0, Keyed(h, IsCanonical, true), StartsBefore(day), true);
  }

  /** No leakage: whatever happens to the periods that start on or after a day, and in
      whatever order the history is given, the record whose training ends that day keeps its
      forecast quantiles. */
  lemma NoLeakage(random: Random, h: seq<Period>, h': seq<Period>, day: int, target: int, seed: int, iterations: int,
                  minimumSample: nat, r: Record, r': Record)
    requires multiset(Before(h, day)) == multiset(Before(h', day))
    requires var one := Backtest(random, h, target, seed, iterations, minimumSample); one.Some? && r in one.value
    requires var two := Backtest(random, h', target, seed, iterations, minimumSample); two.Some? && r' in two.value
    requires r.cutoff == r'.cutoff == |Before(h, day)|
    ensures r.quantiles == r'.quantiles
  {
    var ps, ps' := Prepared(h).value.0, Prepared(h').value.0;
    SamePastSamePrefix(h, h', day);
    BacktestRecords(random, h, target, seed, iterations, minimumSample, r);
    BacktestRecords(random, h', target, seed, iterations, minimumSample, r');
    SameTraining(random, ps, ps', target, seed, iterations, r.cutoff);
  }

  lemma SameTraining(random: Random, ps: seq<Period>, ps': seq<Period>, target: int, seed: int, iterations: int,
                     cutoff: nat)
    requires cutoff <= |ps| && cutoff <= |ps'| && ps[..cutoff] == ps'[..cutoff]
    requires RecordAt(random, ps, target, seed, iterations, cutoff).Made?
    requires RecordAt(random, ps', target, seed, iterations, cutoff).Made?
    ensures RecordAt(random, ps, target, seed, iterations, cutoff).record.quantiles ==
            RecordAt(random, ps', target, seed, iterations, cutoff).record.quantiles
  {
  }

  // ---- calibration

  datatype Level = P50 | P85 | P95

  function At(q: Quantiles, level: Level): int {
    match level
    case P50 => q.p50
    case P85 => q.p85
    case P95 => q.p95
  }

  function Covered(records: seq<Record>, level: Level): nat {
    if records == [] then 0
    else
      var last := records[|records| - 1];
      Covered(records[..|records| - 1], level) + (if last.actual <= At(last.quantiles, level) then 1 else 0)
  }

  function Misses(records: seq<Record>): nat {
    if records == [] then 0
    else
      var last := records[|records| - 1];
      Misses(records[..|records| - 1]) + (if last.actual > last.quantiles.p95 then 1 else 0)
  }

  predicate Ordered(r: Record) {
    r.quantiles.p50 <= r.quantiles.p85 <= r.quantiles.p95
  }

  lemma {:induction false} OrderedRecordsCover(records: seq<Record>)
    requires forall i | 0 <= i < |records| :: Ordered(records[i])
    ensures Covered(records, P50) <= Covered(records, P85) <= Covered(records, P95)
    ensures Misses(records) == |records| - Covered(records, P95)
  {
    if records != [] {
      assert Ordered(records[|records| - 1]);
      OrderedRecordsCover(records[..|records| - 1]);
    }
  }

  lemma RecordIsOrdered(random: Random, ps: seq<Period>, target: int, seed: int, iterations: int, cutoff: nat)
    requires cutoff <= |ps| && RecordAt(random, ps, target, seed, iterations, cutoff).Made?
    ensures Ordered(RecordAt(random, ps, target, seed, iterations, cutoff).record)
  {
    var gain := GainsOf(random, seed + cutoff, Counts(ps[..cutoff]), Identity);
    PercentilesAreOrdered(Outcomes(gain, target, 0, iterations).value.outcomes);
  }

  /** Over every backtest, coverage grows with the level, and the misses are the records not
      covered at p95. */
  lemma CoverageGrows(random: Random, history: seq<Period>, target: int, seed: int, iterations: int, minimumSample: nat)
    requires Backtest(random, history, target, seed, iterations, minimumSample).Some?
    ensures var records := Backtest(random, history, target, seed, iterations, minimumSample).value;
      && Covered(records, P50) <= Covered(records, P85) <= Covered(records, P95)
      && Misses(records) == |records| - Covered(records, P95)
  {
    var records := Backtest(random, history, target, seed, iterations, minimumSample).value;
    var ps := Prepared(history).value.0;
    forall i | 0 <= i < |records| ensures Ordered(records[i]) {
      BacktestRecords(random, history, target, seed, iterations, minimumSample, records[i]);
      RecordIsOrdered(random, ps, target, seed, iterations, records[i].cutoff);
    }
    OrderedRecordsCover(records);
  }
}
