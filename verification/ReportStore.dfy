/** The write-once store of report snapshots. */
module ReportStore {
  import opened Wrappers
  import opened ReportSnapshots

  /** What the store asks of a snapshot. */
  datatype Rules = Rules(valid: Snapshot -> bool, wellFormedId: string -> bool, size: Snapshot -> nat)

  function RulesOf(c: Codec): Rules {
    Rules(s => Valid(c, s), c.wellFormedId, c.size)
  }

  const MAX_SNAPSHOT_BYTES := 2 * 1024 * 1024

  type Files = map<string, Snapshot>

  datatype Fault = InvalidSnapshot | BadId | NotStored | TooLarge | Conflict | Corrupt

  datatype Answer = Done(snapshot: Snapshot) | Fails(fault: Fault)

  function Get(rules: Rules, files: Files, id: string): Answer {
    if !rules.wellFormedId(id) then Fails(BadId)
    else if id !in files then Fails(NotStored)
    else if rules.size(files[id]) > MAX_SNAPSHOT_BYTES || !rules.valid(files[id]) || files[id].id != id
      then Fails(Corrupt)
    else Done(files[id])
  }

  function Supersedes(s: Snapshot): Option<string> {
    s.body.request.supersedes
  }

  function Put(rules: Rules, files: Files, s: Snapshot): Answer {
    if !rules.valid(s) then Fails(InvalidSnapshot)
    else if Supersedes(s).Some? && Get(rules, files, Supersedes(s).value).Fails?
      then Get(rules, files, Supersedes(s).value)
    else if !rules.wellFormedId(s.id) then Fails(BadId)
    else if rules.size(s) > MAX_SNAPSHOT_BYTES then Fails(TooLarge)
    else if s.id !in files then Done(s)
    else
      var stored := Get(rules, files, s.id);
      if stored.Done? && stored.snapshot != s then Fails(Conflict) else stored
  }

  function AfterPut(rules: Rules, files: Files, s: Snapshot): Files {
    if Put(rules, files, s).Done? && s.id !in files then files[s.id := s] else files
  }

  class ReportSnapshotStore {
    var files: Files

    constructor ()
      ensures files == map[]
    {
      files := map[];
    }

    method ReadSnapshot(rules: Rules, id: string) returns (answer: Answer)
      ensures answer == Get(rules, files, id)
    {
      if !rules.wellFormedId(id) { return Fails(BadId); }
      if id !in files { return Fails(NotStored); }
      var raw := files[id];
      if rules.size(raw) > MAX_SNAPSHOT_BYTES || !rules.valid(raw) { return Fails(Corrupt); }
      answer := if raw.id != id then Fails(Corrupt) else Done(raw);
    }

    method PutSnapshot(rules: Rules, s: Snapshot) returns (answer: Answer)
      modifies this
      ensures answer == Put(rules, old(files), s) && files == AfterPut(rules, old(files), s)
    {
      if !rules.valid(s) { return Fails(InvalidSnapshot); }
      var supersedes := Supersedes(s);
      if supersedes.Some? {
        var prior := ReadSnapshot(rules, supersedes.value);
        if prior.Fails? { return prior; }
      }
      if !rules.wellFormedId(s.id) { return Fails(BadId); }
      if rules.size(s) > MAX_SNAPSHOT_BYTES { return Fails(TooLarge); }
      if s.id in files {
        var existing := ReadSnapshot(rules, s.id);
        if existing.Done? && existing.snapshot != s { return Fails(Conflict); }
        return existing;
      }
      files := files[s.id := s];
      answer := Done(s);
    }
  }

  // ---- whole runs

  /** The snapshots offered to `put`, in order. */
  type Run = seq<Snapshot>

  function After(rules: Rules, run: Run): Files {
    if run == [] then map[] else AfterPut(rules, After(rules, run[..|run| - 1]), run[|run| - 1])
  }

  /** Every stored file is readable under its own id. */
  ghost predicate Readable(rules: Rules, files: Files) {
    forall id | id in files :: Get(rules, files, id) == Done(files[id])
  }

  /** Every superseded id is stored. */
  ghost predicate Closed(files: Files) {
    forall id | id in files && Supersedes(files[id]).Some? :: Supersedes(files[id]).value in files
  }

  lemma {:induction false} StoreInvariant(rules: Rules, run: Run)
    ensures Readable(rules, After(rules, run)) && Closed(After(rules, run))
  {
    if run != [] {
      var before, s := After(rules, run[..|run| - 1]), run[|run| - 1];
      StoreInvariant(rules, run[..|run| - 1]);
      var files := After(rules, run);
      forall id | id in files ensures Get(rules, files, id) == Done(files[id]) {
        if id in before { assert Get(rules, before, id) == Done(before[id]); }
      }
    }
  }

  /** Stored content never changes, whatever is offered later. */
  lemma {:induction false} ContentIsForever(rules: Rules, run: Run, later: Run, id: string)
    requires id in After(rules, run)
    ensures id in After(rules, run + later) && After(rules, run + later)[id] == After(rules, run)[id]
  {
    if later == [] {
      assert run + later == run;
    } else {
      ContentIsForever(rules, run, later[..|later| - 1], id);
      assert (run + later)[..|run + later| - 1] == run + later[..|later| - 1];
    }
  }

  lemma StoredIsReadable(rules: Rules, run: Run, later: Run, id: string)
    requires id in After(rules, run)
    ensures Get(rules, After(rules, run + later), id) == Done(After(rules, run)[id])
  {
    ContentIsForever(rules, run, later, id);
    StoreInvariant(rules, run + later);
    assert Get(rules, After(rules, run + later), id) == Done(After(rules, run + later)[id]);
  }

  lemma AcceptedIsStored(rules: Rules, run: Run, s: Snapshot)
    requires Put(rules, After(rules, run), s).Done?
    ensures s.id in After(rules, run + [s]) && After(rules, run + [s])[s.id] == s
    ensures rules.valid(s) && rules.wellFormedId(s.id) && rules.size(s) <= MAX_SNAPSHOT_BYTES
    ensures Supersedes(s).Some? ==> Supersedes(s).value in After(rules, run)
  {
    assert (run + [s])[..|run|] == run;
    StoreInvariant(rules, run);
  }

  /** A put that was accepted can be read back for ever, and putting the same snapshot again
      is accepted, gives the same answer and changes nothing. */
  lemma AcceptedIsKept(rules: Rules, run: Run, s: Snapshot, later: Run)
    requires Put(rules, After(rules, run), s).Done?
    ensures var files := After(rules, run + [s] + later);
      && Get(rules, files, s.id) == Done(s)
      && Put(rules, files, s) == Done(s) && AfterPut(rules, files, s) == files
  {
    AcceptedIsStored(rules, run, s);
    StoredIsReadable(rules, run + [s], later, s.id);
    if Supersedes(s).Some? {
      assert run + ([s] + later) == run + [s] + later;
      StoredIsReadable(rules, run, [s] + later, Supersedes(s).value);
    }
  }

  /** In a store that only `put` writes, reading never finds a corrupt file. */
  lemma NothingIsCorrupt(rules: Rules, run: Run, id: string)
    ensures Get(rules, After(rules, run), id) != Fails(Corrupt)
    ensures Get(rules, After(rules, run), id).Done? <==> id in After(rules, run)
  {
    StoreInvariant(rules, run);
    if id in After(rules, run) { assert Get(rules, After(rules, run), id) == Done(After(rules, run)[id]); }
  }

  /** When an id identifies a valid snapshot no put ever conflicts. */
  lemma NoPutConflicts(rules: Rules, run: Run, s: Snapshot)
    requires forall t | rules.valid(s) && rules.valid(t) && t.id == s.id :: t == s
    ensures Put(rules, After(rules, run), s) != Fails(Conflict)
  {
    var files := After(rules, run);
    StoreInvariant(rules, run);
    if rules.valid(s) && s.id in files { assert Get(rules, files, s.id) == Done(files[s.id]); }
  }

  /** So the snapshot rules with collision-free ids leave no conflicts. */
  lemma ReportsNeverConflict(c: Codec, run: Run, s: Snapshot)
    requires CollisionFree(c)
    ensures Put(RulesOf(c), After(RulesOf(c), run), s) != Fails(Conflict)
  {
    forall t | Valid(c, s) && Valid(c, t) && t.id == s.id ensures t == s { ValidIdsIdentify(c, s, t); }
    NoPutConflicts(RulesOf(c), run, s);
  }

  ghost predicate Linked(files: Files, ids: seq<string>, i: nat)
    requires 0 < i < |ids|
  {
    ids[i - 1] in files && Supersedes(files[ids[i - 1]]) == Some(ids[i])
  }

  /** Each id of the chain supersedes the next. */
  ghost predicate Chain(files: Files, ids: seq<string>) {
    && (forall i | 0 <= i < |ids| :: ids[i] in files)
    && (forall i | 0 < i < |ids| :: Linked(files, ids, i))
  }

  /** The put that stored an id: the first that left it in the store. */
  function StoredBy(rules: Rules, run: Run, id: string): nat {
    if run == [] || id !in After(rules, run) then 0
    else
      var earlier := run[..|run| - 1];
      if id in After(rules, earlier) then StoredBy(rules, earlier, id) else |run|
  }

  lemma {:induction false} SupersededIsOlder(rules: Rules, run: Run, id: string)
    requires id in After(rules, run) && Supersedes(After(rules, run)[id]).Some?
    ensures StoredBy(rules, run, Supersedes(After(rules, run)[id]).value) < StoredBy(rules, run, id)
    ensures StoredBy(rules, run, id) <= |run|
  {
    var earlier := run[..|run| - 1];
    var prior := Supersedes(After(rules, run)[id]).value;
    StoreInvariant(rules, run);
    StoreInvariant(rules, earlier);
    StoredAtMost(rules, earlier, prior);
    if id in After(rules, earlier) {
      SupersededIsOlder(rules, earlier, id);
      assert prior in After(rules, earlier);
    } else {
      assert prior in After(rules, earlier);
    }
  }

  lemma {:induction false} StoredAtMost(rules: Rules, run: Run, id: string)
    ensures StoredBy(rules, run, id) <= |run|
  {
    if run != [] { StoredAtMost(rules, run[..|run| - 1], id); }
  }

  lemma {:induction false} ChainAges(rules: Rules, run: Run, ids: seq<string>, i: nat, j: nat)
    requires Chain(After(rules, run), ids) && i <= j < |ids|
    ensures StoredBy(rules, run, ids[j]) + (j - i) <= StoredBy(rules, run, ids[i])
    decreases j
  {
    if i < j {
      ChainAges(rules, run, ids, i, j - 1);
      var files := After(rules, run);
      assert Linked(files, ids, j);
      SupersededIsOlder(rules, run, ids[j - 1]);
    }
  }

  /** Supersession never loops: a chain visits no id twice and is no longer than the run. */
  lemma ChainsAreFinite(rules: Rules, run: Run, ids: seq<string>)
    requires Chain(After(rules, run), ids)
    ensures |ids| <= |run| + 1
    ensures forall i, j | 0 <= i < j < |ids| :: ids[i] != ids[j]
  {
    if |ids| > 0 {
      ChainAges(rules, run, ids, 0, |ids| - 1);
      StoredAtMost(rules, run, ids[0]);
    }
    forall i: nat, j: nat | i < j < |ids| ensures ids[i] != ids[j] { ChainAges(rules, run, ids, i, j); }
  }

  /** Every chain can be followed until a snapshot that supersedes nothing. */
  lemma {:induction false} ChainReachesOriginal(rules: Rules, run: Run, id: string) returns (ids: seq<string>)
    requires id in After(rules, run)
    ensures Chain(After(rules, run), ids) && ids != [] && ids[0] == id
    ensures Supersedes(After(rules, run)[ids[|ids| - 1]]).None?
    decreases StoredBy(rules, run, id)
  {
    var files := After(rules, run);
    ids := [id];
    if Supersedes(files[id]).Some? {
      var prior := Supersedes(files[id]).value;
      StoreInvariant(rules, run);
      SupersededIsOlder(rules, run, id);
      var rest := ChainReachesOriginal(rules, run, prior);
      ChainGrows(files, id, rest);
      ids := ids + rest;
    }
  }

  lemma ChainGrows(files: Files, id: string, rest: seq<string>)
    requires Chain(files, rest) && rest != [] && id in files && Supersedes(files[id]) == Some(rest[0])
    ensures Chain(files, [id] + rest)
  {
    var ids := [id] + rest;
    forall i | 0 < i < |ids| ensures Linked(files, ids, i) {
      if i > 1 { assert Linked(files, rest, i - 1); }
    }
  }
}
