/** The optimistic read of the SKCounter index and its sources while a writer may replace
    any of the files. */
module IndexRead {
  import opened Wrappers
  import opened Grouping
  import opened Sorting

  const MAX_INDEX_BYTES := 10 * 1024 * 1024
  const MAX_OBSERVATION_BYTES := 5 * 1024 * 1024
  const MAX_TOTAL_BYTES := 64 * 1024 * 1024
  const MAX_INDEX_ENTRIES := 10000
  const MAX_ATTEMPTS := 3
  const MAX_REPORTED_ERRORS := 100

  type Raw = seq<bv8>

  /** What one read of a file finds. */
  datatype File = Holds(raw: Raw) | Missing | Unreadable

  datatype Entry = Entry(lane: string, node: string, principal: string, view: string, bucket: string,
                         observedAt: string, idempotencyKey: string, payloadHash: string,
                         sourcePath: string, sourceSha: string)

  datatype Document = Document(entries: seq<Entry>, indexSha: string)

  datatype Row = Row(view: string, bucket: int, body: string)

  datatype Meta = Meta(lane: string, node: string, principal: string, observedAt: int,
                       idempotencyKey: string, payloadHash: string)

  datatype Snapshot = Snapshot(meta: Meta, rows: seq<Row>)

  datatype Observation = Observation(meta: Meta, sourcePath: string, sourceSha: string, sourceBytes: nat)

  /** The result of scanning the acknowledged snapshots. */
  datatype Fallback = Fallback(observations: seq<Observation>, rows: seq<Row>, errors: seq<Fault>)

  /** The errors a reading lists. */
  datatype Fault = SourceFault(name: string) | SnapshotFault(path: string) | IndexFault | NoIndex | IndexChanged

  /** All the files at one instant. */
  datatype Disk = Disk(index: File, sources: string -> File, acknowledged: Fallback)

  /** Decoding and hashing, left uninterpreted. */
  datatype Codec = Codec(
    document: Raw -> Option<Document>,
    unsigned: seq<Entry> -> string,
    sha: Raw -> string,
    snapshot: Raw -> Option<Snapshot>,
    time: string -> int,
    locate: string -> Option<string>)

  // ---- the index

  datatype Generation = Absent | Broken | Found(document: Document, bytes: Raw)

  function LogicalKey(e: Entry): (string, string, string, string, string) {
    (e.lane, e.node, e.principal, e.view, e.bucket)
  }

  predicate DistinctKeys(entries: seq<Entry>) {
    forall i, j | 0 <= i < j < |entries| :: LogicalKey(entries[i]) != LogicalKey(entries[j])
  }

  method HasDistinctKeys(entries: seq<Entry>) returns (distinct: bool)
    ensures distinct == DistinctKeys(entries)
  {
    var seen: set<(string, string, string, string, string)> := {};
    for k := 0 to |entries|
      invariant forall key :: key in seen <==> exists i :: 0 <= i < k && LogicalKey(entries[i]) == key
      invariant DistinctKeys(entries[..k])
    {
      var key := LogicalKey(entries[k]);
      if key in seen { return false; }
      seen := seen + {key};
    }
    assert entries[..|entries|] == entries;
    distinct := true;
  }

  predicate WellSigned(codec: Codec, d: Document) {
    |d.entries| <= MAX_INDEX_ENTRIES && codec.unsigned(d.entries) == d.indexSha && DistinctKeys(d.entries)
  }

  function GenerationOf(codec: Codec, file: File): Generation {
    match file
    case Missing => Absent
    case Unreadable => Broken
    case Holds(raw) =>
      if |raw| > MAX_INDEX_BYTES then Broken
      else
        var d := codec.document(raw);
        if d.None? || !WellSigned(codec, d.value) then Broken else Found(d.value, raw)
  }

  // ---- the sources

  function PathOf(e: Entry): string {
    e.sourcePath
  }

  function IndexedBy(entries: seq<Entry>, name: string): seq<Entry> {
    Keyed(entries, PathOf, name)
  }

  function SourceNames(entries: seq<Entry>): seq<string> {
    SortBy(FirstKeys(entries, PathOf), StringLeq)
  }

  predicate SameProvenance(codec: Codec, e: Entry, m: Meta) {
    && e.lane == m.lane && e.node == m.node && e.principal == m.principal
    && codec.time(e.observedAt) == m.observedAt
    && e.payloadHash == m.payloadHash && e.idempotencyKey == m.idempotencyKey
  }

  function Matching(rows: seq<Row>, view: string, bucket: int): seq<Row> {
    if rows == [] then []
    else
      var last := rows[|rows| - 1];
      Matching(rows[..|rows| - 1], view, bucket) + (if last.view == view && last.bucket == bucket then [last] else [])
  }

  function MatchingEntry(codec: Codec, s: Snapshot, e: Entry): seq<Row> {
    Matching(s.rows, e.view, codec.time(e.bucket))
  }

  predicate Serves(codec: Codec, s: Snapshot, e: Entry) {
    SameProvenance(codec, e, s.meta) && MatchingEntry(codec, s, e) != []
  }

  /** The rows of a snapshot that its index entries select, entry by entry. */
  function SelectedRows(codec: Codec, s: Snapshot, indexed: seq<Entry>): seq<Row> {
    if indexed == [] then []
    else
      var front := indexed[..|indexed| - 1];
      SelectedRows(codec, s, front) + MatchingEntry(codec, s, indexed[|indexed| - 1])
  }

  predicate ServesAll(codec: Codec, s: Snapshot, indexed: seq<Entry>) {
    forall i | 0 <= i < |indexed| :: Serves(codec, s, indexed[i])
  }

  method SelectRows(codec: Codec, s: Snapshot, indexed: seq<Entry>) returns (selected: Option<seq<Row>>)
    ensures selected == if ServesAll(codec, s, indexed) then Some(SelectedRows(codec, s, indexed)) else None
  {
    var rows := [];
    for k := 0 to |indexed|
      invariant rows == SelectedRows(codec, s, indexed[..k])
      invariant ServesAll(codec, s, indexed[..k])
    {
      var matching := MatchingEntry(codec, s, indexed[k]);
      if !SameProvenance(codec, indexed[k], s.meta) || matching == [] {
        assert !Serves(codec, s, indexed[k]);
        return None;
      }
      assert indexed[..k + 1][..k] == indexed[..k];
      rows := rows + matching;
    }
    assert indexed[..|indexed|] == indexed;
    selected := Some(rows);
  }

  /** What one source gives: an observation with its rows, or an error; and the bytes read. */
  datatype Part = Part(observation: Observation, rows: seq<Row>)

  datatype Source = Source(part: Option<Part>, bytes: nat)

  predicate OneHash(indexed: seq<Entry>) {
    indexed != [] && forall i | 0 <= i < |indexed| :: indexed[i].sourceSha == indexed[0].sourceSha
  }

  /** The part that the bytes `raw` of a source give: all its selected rows or none. */
  function PartOf(codec: Codec, path: string, indexed: seq<Entry>, raw: Raw): Option<Part>
    requires OneHash(indexed)
  {
    var sha := codec.sha(raw);
    if sha != indexed[0].sourceSha then None
    else
      var s := codec.snapshot(raw);
      if s.None? || !ServesAll(codec, s.value, indexed) then None
      else Some(Part(Observation(s.value.meta, path, sha, |raw|), SelectedRows(codec, s.value, indexed)))
  }

  function ReadSource(codec: Codec, disk: Disk, name: string, indexed: seq<Entry>, spent: nat): Source {
    var path := codec.locate(name);
    if path.None? || !OneHash(indexed) then Source(None, spent)
    else
      var file := disk.sources(path.value);
      if !file.Holds? || |file.raw| > MAX_OBSERVATION_BYTES then Source(None, spent)
      else
        var total := spent + |file.raw|;
        Source(if total > MAX_TOTAL_BYTES then None else PartOf(codec, path.value, indexed, file.raw), total)
  }

  method ReadOneSource(codec: Codec, disk: Disk, name: string, indexed: seq<Entry>, spent: nat) returns (source: Source)
    ensures source == ReadSource(codec, disk, name, indexed, spent)
  {
    var path := codec.locate(name);
    if path.None? { return Source(None, spent); }
    var hashes := set e | e in indexed :: e.sourceSha;
    OneHashIsOneElement(indexed, hashes);
    if |hashes| != 1 { return Source(None, spent); }
    var file := disk.sources(path.value);
    if !file.Holds? || |file.raw| > MAX_OBSERVATION_BYTES { return Source(None, spent); }
    var total := spent + |file.raw|;
    if total > MAX_TOTAL_BYTES { return Source(None, total); }
    var sha := codec.sha(file.raw);
    if sha !in hashes { return Source(None, total); }
    var snapshot := codec.snapshot(file.raw);
    if snapshot.None? { return Source(None, total); }
    var rows := SelectRows(codec, snapshot.value, indexed);
    if rows.None? { return Source(None, total); }
    source := Source(Some(Part(Observation(snapshot.value.meta, path.value, sha, |file.raw|), rows.value)), total);
  }

  lemma OneHashIsOneElement(indexed: seq<Entry>, hashes: set<string>)
    requires hashes == set e | e in indexed :: e.sourceSha
    ensures |hashes| == 1 <==> OneHash(indexed)
    ensures OneHash(indexed) ==> hashes == {indexed[0].sourceSha}
  {
    if indexed != [] {
      assert indexed[0].sourceSha in hashes;
      var first := indexed[0].sourceSha;
      if |hashes| == 1 {
        assert |hashes - {first}| == 0;
        forall i | 0 <= i < |indexed| ensures indexed[i].sourceSha == first {
          assert indexed[i].sourceSha in hashes && indexed[i].sourceSha !in hashes - {first};
        }
      }
      if OneHash(indexed) { assert hashes == {first}; }
    }
  }

  /** All parts read so far, the errors reported, and the bytes read. */
  datatype Batch = Batch(parts: seq<Part>, errors: seq<Fault>, bytes: nat)

  function Added(b: Batch, name: string, source: Source): Batch {
    match source.part
    case Some(part) => Batch(b.parts + [part], b.errors, source.bytes)
    case None =>
      var errors := if |b.errors| < MAX_REPORTED_ERRORS then b.errors + [SourceFault(name)] else b.errors;
      Batch(b.parts, errors, source.bytes)
  }

  /** The first `k` sources, read one instant after another from `t` on. */
  function ReadUpTo(codec: Codec, disk: nat -> Disk, t: nat, entries: seq<Entry>, names: seq<string>, k: nat): Batch
    requires k <= |names|
  {
    if k == 0 then Batch([], [], 0)
    else
      var before := ReadUpTo(codec, disk, t, entries, names, k - 1);
      Added(before, names[k - 1],
            ReadSource(codec, disk(t + k - 1), names[k - 1], IndexedBy(entries, names[k - 1]), before.bytes))
  }

  /** Every source an index names, read in the order of their paths. */
  function Collected(codec: Codec, disk: nat -> Disk, t: nat, entries: seq<Entry>): Batch {
    var names := SourceNames(entries);
    ReadUpTo(codec, disk, t, entries, names, |names|)
  }

  function ObservationsOf(parts: seq<Part>): seq<Observation> {
    if parts == [] then [] else ObservationsOf(parts[..|parts| - 1]) + [parts[|parts| - 1].observation]
  }

  function RowsOf(parts: seq<Part>): seq<Row> {
    if parts == [] then [] else RowsOf(parts[..|parts| - 1]) + parts[|parts| - 1].rows
  }

  function BytesOf(parts: seq<Part>): nat {
    if parts == [] then 0 else BytesOf(parts[..|parts| - 1]) + parts[|parts| - 1].observation.sourceBytes
  }

  /** The lists the reader builds stand for the batch. */
  ghost predicate Shows(b: Batch, observations: seq<Observation>, rows: seq<Row>, errors: seq<Fault>, total: nat) {
    observations == ObservationsOf(b.parts) && rows == RowsOf(b.parts) && errors == b.errors && total == b.bytes
  }

  lemma PartShows(b: Batch, observations: seq<Observation>, rows: seq<Row>, errors: seq<Fault>, total: nat,
                  name: string, source: Source)
    requires Shows(b, observations, rows, errors, total) && source.part.Some?
    ensures Shows(Added(b, name, source), observations + [source.part.value.observation], rows + source.part.value.rows,
                  errors, source.bytes)
  {
    assert (b.parts + [source.part.value])[..|b.parts|] == b.parts;
  }

  lemma ReadOneMore(codec: Codec, disk: nat -> Disk, t: nat, entries: seq<Entry>, names: seq<string>, k: nat,
                    before: Batch, source: Source)
    requires k < |names| && before == ReadUpTo(codec, disk, t, entries, names, k)
    requires source == ReadSource(codec, disk(t + k), names[k], IndexedBy(entries, names[k]), before.bytes)
    ensures ReadUpTo(codec, disk, t, entries, names, k + 1) == Added(before, names[k], source)
  {
  }

  method ReadSources(codec: Codec, disk: nat -> Disk, t: nat, entries: seq<Entry>, names: seq<string>,
                     grouped: map<string, seq<Entry>>)
      returns (observations: seq<Observation>, rows: seq<Row>, errors: seq<Fault>)
    requires forall name | name in names :: name in grouped && grouped[name] == IndexedBy(entries, name)
    ensures var batch := ReadUpTo(codec, disk, t, entries, names, |names|);
      Shows(batch, observations, rows, errors, batch.bytes)
  {
    observations, rows, errors := [], [], [];
    var total: nat := 0;
    ghost var batch := Batch([], [], 0);
    for k := 0 to |names|
      invariant batch == ReadUpTo(codec, disk, t, entries, names, k)
      invariant Shows(batch, observations, rows, errors, total)
    {
      var name := names[k];
      var source := ReadOneSource(codec, disk(t + k), name, grouped[name], total);
      ReadOneMore(codec, disk, t, entries, names, k, batch, source);
      if source.part.Some? {
        PartShows(batch, observations, rows, errors, total, name, source);
        observations := observations + [source.part.value.observation];
        rows := rows + source.part.value.rows;
      } else if |errors| < MAX_REPORTED_ERRORS {
        errors := errors + [SourceFault(name)];
      }
      total := source.bytes;
      batch := Added(batch, name, source);
    }
  }

  method ReadIndexedSources(codec: Codec, disk: nat -> Disk, t: nat, entries: seq<Entry>)
      returns (observations: seq<Observation>, rows: seq<Row>, errors: seq<Fault>)
    ensures var batch := Collected(codec, disk, t, entries);
      Shows(batch, observations, rows, errors, batch.bytes)
  {
    var order, grouped := GroupBy(entries, PathOf);
    var names := SortBy(order, StringLeq);
    SortMembers(order, StringLeq);
    observations, rows, errors := ReadSources(codec, disk, t, entries, names, grouped);
  }

  // ---- the retry loop

  datatype Status = Unavailable | Current | Partial | Empty | Changing

  datatype Reading = Reading(status: Status, observations: seq<Observation>, rows: seq<Row>, errors: seq<Fault>,
                             indexSha: string, entryCount: nat, sourceCount: nat)

  function Failure(status: Status, error: Fault): Reading {
    Reading(status, [], [], [error], "", 0, 0)
  }

  function FallbackReading(f: Fallback): Reading {
    if f.observations != [] || f.rows != [] || f.errors != []
    then
      var status := if f.errors != [] then Partial else Current;
      Reading(status, f.observations, f.rows, f.errors, "", |f.rows|, |f.observations|)
    else Failure(Unavailable, NoIndex)
  }

  function IndexedReading(d: Document, b: Batch): Reading {
    Reading(if b.errors != [] then Partial else if d.entries != [] then Current else Empty,
            ObservationsOf(b.parts), RowsOf(b.parts), b.errors, d.indexSha, |d.entries|, |SourceNames(d.entries)|)
  }

  /** The instant of the confirming read of an attempt that starts at `t`. */
  function ConfirmAt(codec: Codec, disk: nat -> Disk, t: nat): nat {
    var g := GenerationOf(codec, disk(t).index);
    if g.Found? then t + 1 + |SourceNames(g.document.entries)| else t
  }

  /** One attempt: a reading, or nothing when the index was not confirmed. */
  function Attempt(codec: Codec, disk: nat -> Disk, t: nat): Option<Reading> {
    match GenerationOf(codec, disk(t).index)
    case Broken => Some(Failure(Unavailable, IndexFault))
    case Absent => Some(FallbackReading(disk(t + 1).acknowledged))
    case Found(d, raw) =>
      var confirmed := GenerationOf(codec, disk(ConfirmAt(codec, disk, t)).index);
      if !confirmed.Found? || confirmed.bytes != raw then None
      else
        Some(IndexedReading(d, Collected(codec, disk, t + 1, d.entries)))
  }

  function Attempts(codec: Codec, disk: nat -> Disk, t: nat, left: nat): Reading
    decreases left
  {
    if left == 0 then Failure(Changing, IndexChanged)
    else
      var r := Attempt(codec, disk, t);
      if r.Some? then r.value else Attempts(codec, disk, ConfirmAt(codec, disk, t) + 1, left - 1)
  }

  method ReadOnce(codec: Codec, disk: nat -> Disk, t: nat) returns (reading: Option<Reading>, at: nat)
    ensures reading == Attempt(codec, disk, t) && at == ConfirmAt(codec, disk, t)
  {
    var g := GenerationOf(codec, disk(t).index);
    at := t;
    if g.Broken? { return Some(Failure(Unavailable, IndexFault)), at; }
    if g.Absent? { return Some(FallbackReading(disk(t + 1).acknowledged)), at; }
    var d := g.document;
    var observations, rows, errors := ReadIndexedSources(codec, disk, t + 1, d.entries);
    var sources := |SourceNames(d.entries)|;
    at := t + 1 + sources;
    var confirmed := GenerationOf(codec, disk(at).index);
    if !confirmed.Found? || confirmed.bytes != g.bytes { return None, at; }
    var status := if errors != [] then Partial else if d.entries != [] then Current else Empty;
    reading := Some(Reading(status, observations, rows, errors, d.indexSha, |d.entries|, sources));
  }

  /** _read_observations, with its first file read at instant `start`. */
  method ReadObservations(codec: Codec, disk: nat -> Disk, start: nat) returns (reading: Reading)
    ensures reading == Attempts(codec, disk, start, MAX_ATTEMPTS)
  {
    reading := ReadRepeatedly(codec, disk, start, MAX_ATTEMPTS);
  }

  /** Its retry loop, for any number of attempts. */
  method ReadRepeatedly(codec: Codec, disk: nat -> Disk, start: nat, most: nat) returns (reading: Reading)
    ensures reading == Attempts(codec, disk, start, most)
  {
    var t: nat := start;
    ghost var left := most;
    for attempt := 0 to most
      invariant left == most - attempt && Attempts(codec, disk, start, most) == Attempts(codec, disk, t, left)
    {
      var result, at := ReadOnce(codec, disk, t);
      if result.Some? { return result.value; }
      t, left := at + 1, left - 1;
    }
    reading := Failure(Changing, IndexChanged);
  }

  // ---- laws of the source reads

  /** Every source that some entry names is read exactly once and no other, and it is read
      for exactly the entries that name it. */
  lemma SourcesAreReadOnce(entries: seq<Entry>, name: string, e: Entry)
    ensures multiset(SourceNames(entries))[name] == if IndexedBy(entries, name) != [] then 1 else 0
    ensures e in IndexedBy(entries, name) <==> e in entries && e.sourcePath == name
  {
    KeysOccur(entries, PathOf, name);
    SortContents(FirstKeys(entries, PathOf), StringLeq);
    KeyedMembers(entries, PathOf, name, e);
  }

  /** `part` is the whole contribution of source `name`, taken from bytes found at one instant,
      whose hash every index entry of that source names. */
  ghost predicate Vouched(codec: Codec, disk: Disk, name: string, indexed: seq<Entry>, part: Part) {
    && codec.locate(name) == Some(part.observation.sourcePath)
    && var file := disk.sources(part.observation.sourcePath);
    && file.Holds? && |file.raw| == part.observation.sourceBytes <= MAX_OBSERVATION_BYTES
    && codec.sha(file.raw) == part.observation.sourceSha
    && indexed != [] && (forall e | e in indexed :: e.sourceSha == codec.sha(file.raw))
    && codec.snapshot(file.raw).Some?
    && var s := codec.snapshot(file.raw).value;
    && part.observation.meta == s.meta
    && part.rows == SelectedRows(codec, s, indexed)
    && (forall e | e in indexed :: Serves(codec, s, e))
  }

  ghost predicate VouchedAt(codec: Codec, disk: nat -> Disk, t: nat, entries: seq<Entry>, names: seq<string>, j: nat,
                            part: Part)
  {
    j < |names| && Vouched(codec, disk(t + j), names[j], IndexedBy(entries, names[j]), part)
  }

  /** Every part is vouched for, by a source of its own, in the order of the names. */
  ghost predicate AllVouched(codec: Codec, disk: nat -> Disk, t: nat, entries: seq<Entry>, names: seq<string>,
                             parts: seq<Part>, which: seq<nat>) {
    && |which| == |parts|
    && (forall i | 0 <= i < |parts| :: VouchedAt(codec, disk, t, entries, names, which[i], parts[i]))
    && (forall i, j | 0 <= i < j < |which| :: which[i] < which[j])
  }

  lemma SourcePartIsVouched(codec: Codec, disk: Disk, name: string, indexed: seq<Entry>, spent: nat)
    requires ReadSource(codec, disk, name, indexed, spent).part.Some?
    ensures Vouched(codec, disk, name, indexed, ReadSource(codec, disk, name, indexed, spent).part.value)
  {
  }

  lemma OneMoreVouched(codec: Codec, disk: nat -> Disk, t: nat, entries: seq<Entry>, names: seq<string>,
                       parts: seq<Part>, which: seq<nat>, part: Part, j: nat)
    requires AllVouched(codec, disk, t, entries, names, parts, which)
    requires forall i | 0 <= i < |which| :: which[i] < j
    requires VouchedAt(codec, disk, t, entries, names, j, part)
    ensures AllVouched(codec, disk, t, entries, names, parts + [part], which + [j])
  {
    var more, those := parts + [part], which + [j];
    forall i | 0 <= i < |more| ensures VouchedAt(codec, disk, t, entries, names, those[i], more[i]) {
      if i < |parts| { assert more[i] == parts[i] && those[i] == which[i]; }
    }
  }

  lemma {:induction false} PartsAreVouched(codec: Codec, disk: nat -> Disk, t: nat, entries: seq<Entry>,
                                           names: seq<string>, k: nat) returns (which: seq<nat>)
    requires k <= |names|
    ensures AllVouched(codec, disk, t, entries, names, ReadUpTo(codec, disk, t, entries, names, k).parts, which)
    ensures forall i | 0 <= i < |which| :: which[i] < k
  {
    which := [];
    if k > 0 {
      which := PartsAreVouched(codec, disk, t, entries, names, k - 1);
      var before := ReadUpTo(codec, disk, t, entries, names, k - 1);
      var indexed := IndexedBy(entries, names[k - 1]);
      var now := disk(t + (k - 1));
      var part := ReadSource(codec, now, names[k - 1], indexed, before.bytes).part;
      if part.Some? {
        SourcePartIsVouched(codec, now, names[k - 1], indexed, before.bytes);
        assert VouchedAt(codec, disk, t, entries, names, k - 1, part.value);
        OneMoreVouched(codec, disk, t, entries, names, before.parts, which, part.value, k - 1);
        which := which + [k - 1];
      }
    }
  }

  /** The bytes behind the parts kept never exceed the budget. */
  lemma {:induction false} PartsFitTheBudget(codec: Codec, disk: nat -> Disk, t: nat, entries: seq<Entry>,
                                             names: seq<string>, k: nat)
    requires k <= |names|
    ensures var b := ReadUpTo(codec, disk, t, entries, names, k);
      BytesOf(b.parts) <= b.bytes && BytesOf(b.parts) <= MAX_TOTAL_BYTES
  {
    if k > 0 {
      PartsFitTheBudget(codec, disk, t, entries, names, k - 1);
      var before := ReadUpTo(codec, disk, t, entries, names, k - 1);
      var b := ReadUpTo(codec, disk, t, entries, names, k);
      if b.parts != before.parts { assert b.parts[..|b.parts| - 1] == before.parts; }
    }
  }

  /** No error is reported exactly when every source gave its part. */
  lemma {:induction false} NoErrorMeansAll(codec: Codec, disk: nat -> Disk, t: nat, entries: seq<Entry>,
                                           names: seq<string>, k: nat)
    requires k <= |names|
    ensures var b := ReadUpTo(codec, disk, t, entries, names, k);
      |b.parts| <= k && (b.errors == [] <==> |b.parts| == k) && |b.errors| <= MAX_REPORTED_ERRORS
  {
    if k > 0 { NoErrorMeansAll(codec, disk, t, entries, names, k - 1); }
  }

  ghost predicate CollisionFree(codec: Codec) {
    forall a: Raw, b: Raw :: codec.sha(a) == codec.sha(b) ==> a == b
  }

  lemma ErrorFreeStep(b: Batch, name: string, source: Source)
    ensures Added(b, name, source).errors == [] <==> b.errors == [] && source.part.Some?
  {
  }

  /** With a collision-free hash, a read without errors is a function of the index alone: two
      such reads, at whatever instants and whatever else changed, give the same parts. */
  lemma {:induction false} ErrorFreeReadsAgree(codec: Codec, disk: nat -> Disk, t: nat, disk': nat -> Disk, t': nat,
                                               entries: seq<Entry>, names: seq<string>, k: nat)
    requires k <= |names| && CollisionFree(codec)
    requires ReadUpTo(codec, disk, t, entries, names, k).errors == []
    requires ReadUpTo(codec, disk', t', entries, names, k).errors == []
    ensures ReadUpTo(codec, disk, t, entries, names, k) == ReadUpTo(codec, disk', t', entries, names, k)
  {
    if k > 0 {
      var one := ReadUpTo(codec, disk, t, entries, names, k - 1);
      var two := ReadUpTo(codec, disk', t', entries, names, k - 1);
      var name, indexed := names[k - 1], IndexedBy(entries, names[k - 1]);
      var now, now' := disk(t + k - 1), disk'(t' + k - 1);
      ErrorFreeStep(one, name, ReadSource(codec, now, name, indexed, one.bytes));
      ErrorFreeStep(two, name, ReadSource(codec, now', name, indexed, two.bytes));
      ErrorFreeReadsAgree(codec, disk, t, disk', t', entries, names, k - 1);
      SourceIsDetermined(codec, now, now', name, indexed, one.bytes);
    }
  }

  lemma SourceIsDetermined(codec: Codec, disk: Disk, disk': Disk, name: string, indexed: seq<Entry>, spent: nat)
    requires CollisionFree(codec)
    requires ReadSource(codec, disk, name, indexed, spent).part.Some?
    requires ReadSource(codec, disk', name, indexed, spent).part.Some?
    ensures ReadSource(codec, disk, name, indexed, spent) == ReadSource(codec, disk', name, indexed, spent)
  {
    var path := codec.locate(name).value;
    assert codec.sha(disk.sources(path).raw) == codec.sha(disk'.sources(path).raw);
  }

  // ---- laws of the whole read

  /** The reading rests on the index found at `t`, unchanged when it was read again after
      every source. */
  ghost predicate ConfirmedAt(codec: Codec, disk: nat -> Disk, t: nat, reading: Reading) {
    var g := GenerationOf(codec, disk(t).index);
    && g.Found?
    && disk(ConfirmAt(codec, disk, t)).index == disk(t).index
    && reading == IndexedReading(g.document, Collected(codec, disk, t + 1, g.document.entries))
  }

  /** There was no index at `t`, and the reading is what the acknowledged snapshots gave next. */
  ghost predicate FellBackAt(codec: Codec, disk: nat -> Disk, t: nat, reading: Reading) {
    disk(t).index.Missing? && reading == FallbackReading(disk(t + 1).acknowledged)
  }

  predicate IsReport(reading: Reading) {
    reading.status.Current? || reading.status.Partial? || reading.status.Empty?
  }

  lemma AttemptIsHonest(codec: Codec, disk: nat -> Disk, t: nat)
    requires Attempt(codec, disk, t).Some? && IsReport(Attempt(codec, disk, t).value)
    ensures ConfirmedAt(codec, disk, t, Attempt(codec, disk, t).value)
            || FellBackAt(codec, disk, t, Attempt(codec, disk, t).value)
  {
  }

  /** Any report rests on one index generation that held before and after all source reads,
      or on the acknowledged snapshots when there was no index. */
  lemma {:induction false} ReportsRestOnOneIndex(codec: Codec, disk: nat -> Disk, t: nat, left: nat) returns (at: nat)
    requires IsReport(Attempts(codec, disk, t, left))
    ensures at >= t
    ensures var reading := Attempts(codec, disk, t, left);
      ConfirmedAt(codec, disk, at, reading) || FellBackAt(codec, disk, at, reading)
    decreases left
  {
    at := t;
    if Attempt(codec, disk, t).Some? {
      AttemptIsHonest(codec, disk, t);
    } else {
      at := ReportsRestOnOneIndex(codec, disk, ConfirmAt(codec, disk, t) + 1, left - 1);
    }
  }

  lemma CollectedIsFaithful(codec: Codec, disk: nat -> Disk, t: nat, entries: seq<Entry>, names: seq<string>)
      returns (which: seq<nat>)
    requires names == SourceNames(entries)
    ensures var b := Collected(codec, disk, t, entries);
      && AllVouched(codec, disk, t, entries, names, b.parts, which)
      && BytesOf(b.parts) <= MAX_TOTAL_BYTES
      && (b.errors == [] <==> |b.parts| == |names|) && |b.parts| <= |names|
  {
    which := PartsAreVouched(codec, disk, t, entries, names, |names|);
    PartsFitTheBudget(codec, disk, t, entries, names, |names|);
    NoErrorMeansAll(codec, disk, t, entries, names, |names|);
  }

  /** A reading that the index `d` and the parts of its sources account for: whole
      contributions of sources that index vouches for, each read between instants t and `end`,
      within the byte budget; it is called partial exactly when some source is missing. */
  ghost predicate AccountedFor(codec: Codec, disk: nat -> Disk, t: nat, end: nat, d: Document, reading: Reading,
                               parts: seq<Part>, which: seq<nat>) {
    var names := SourceNames(d.entries);
    && end == t + 1 + |names|
    && AllVouched(codec, disk, t + 1, d.entries, names, parts, which)
    && (reading.status.Partial? <==> |parts| < |names|)
    && reading.observations == ObservationsOf(parts) && reading.rows == RowsOf(parts)
    && BytesOf(parts) <= MAX_TOTAL_BYTES
  }

  lemma CollectedAccounts(codec: Codec, disk: nat -> Disk, t: nat, d: Document, batch: Batch)
      returns (which: seq<nat>)
    requires batch == Collected(codec, disk, t + 1, d.entries)
    ensures AccountedFor(codec, disk, t, t + 1 + |SourceNames(d.entries)|, d, IndexedReading(d, batch), batch.parts,
            which)
  {
    which := CollectedIsFaithful(codec, disk, t + 1, d.entries, SourceNames(d.entries));
  }

  /** Every confirmed reading is accounted for by the very index that was there before and
      after its sources were read. */
  lemma ConfirmedIsFaithful(codec: Codec, disk: nat -> Disk, t: nat, reading: Reading)
      returns (d: Document, parts: seq<Part>, which: seq<nat>)
    requires ConfirmedAt(codec, disk, t, reading)
    ensures GenerationOf(codec, disk(t).index).Found? && d == GenerationOf(codec, disk(t).index).document
    ensures disk(ConfirmAt(codec, disk, t)).index == disk(t).index
    ensures AccountedFor(codec, disk, t, ConfirmAt(codec, disk, t), d, reading, parts, which)
  {
    d := GenerationOf(codec, disk(t).index).document;
    var batch := Collected(codec, disk, t + 1, d.entries);
    parts := batch.parts;
    which := CollectedAccounts(codec, disk, t, d, batch);
  }

  /** With a collision-free hash, two complete readings that confirmed the same index bytes are
      the same reading, whatever the writer did around them. */
  lemma CompleteReadingsAgree(codec: Codec, disk: nat -> Disk, t: nat, reading: Reading,
                              disk': nat -> Disk, t': nat, reading': Reading)
    requires CollisionFree(codec)
    requires ConfirmedAt(codec, disk, t, reading) && ConfirmedAt(codec, disk', t', reading')
    requires disk(t).index == disk'(t').index
    requires !reading.status.Partial? && !reading'.status.Partial?
    ensures reading == reading'
  {
    var entries := GenerationOf(codec, disk(t).index).document.entries;
    var names := SourceNames(entries);
    ErrorFreeReadsAgree(codec, disk, t + 1, disk', t' + 1, entries, names, |names|);
  }

  /** The index was good at the start of the attempt and something else at its end. */
  ghost predicate Disturbed(codec: Codec, disk: nat -> Disk, t: nat) {
    GenerationOf(codec, disk(t).index).Found? && disk(ConfirmAt(codec, disk, t)).index != disk(t).index
  }

  function StartOf(codec: Codec, disk: nat -> Disk, t: nat, attempt: nat): nat {
    if attempt == 0 then t else ConfirmAt(codec, disk, StartOf(codec, disk, t, attempt - 1)) + 1
  }

  lemma {:induction false} StartShifts(codec: Codec, disk: nat -> Disk, t: nat, attempt: nat)
    ensures StartOf(codec, disk, ConfirmAt(codec, disk, t) + 1, attempt) == StartOf(codec, disk, t, attempt + 1)
  {
    if attempt > 0 { StartShifts(codec, disk, t, attempt - 1); }
  }

  lemma AttemptFailsWhenDisturbed(codec: Codec, disk: nat -> Disk, t: nat)
    ensures Attempt(codec, disk, t).None? <==> Disturbed(codec, disk, t)
    ensures Attempt(codec, disk, t).Some? ==> !Attempt(codec, disk, t).value.status.Changing?
  {
  }

  ghost predicate AllDisturbed(codec: Codec, disk: nat -> Disk, t: nat, attempts: nat) {
    forall a: nat | a < attempts :: Disturbed(codec, disk, StartOf(codec, disk, t, a))
  }

  lemma FirstDisturbed(codec: Codec, disk: nat -> Disk, t: nat, attempts: nat)
    ensures AllDisturbed(codec, disk, t, attempts + 1) <==>
            Disturbed(codec, disk, t) && AllDisturbed(codec, disk, ConfirmAt(codec, disk, t) + 1, attempts)
  {
    var next := ConfirmAt(codec, disk, t) + 1;
    forall a: nat ensures StartOf(codec, disk, next, a) == StartOf(codec, disk, t, a + 1) {
      StartShifts(codec, disk, t, a);
    }
    if AllDisturbed(codec, disk, t, attempts + 1) {
      assert Disturbed(codec, disk, StartOf(codec, disk, t, 0));
      forall a: nat | a < attempts ensures Disturbed(codec, disk, StartOf(codec, disk, next, a)) {
        assert Disturbed(codec, disk, StartOf(codec, disk, t, a + 1));
      }
    }
    if Disturbed(codec, disk, t) && AllDisturbed(codec, disk, next, attempts) {
      forall a: nat | a < attempts + 1 ensures Disturbed(codec, disk, StartOf(codec, disk, t, a)) {
        if a > 0 { assert Disturbed(codec, disk, StartOf(codec, disk, next, a - 1)); }
      }
    }
  }

  lemma AttemptsFirst(codec: Codec, disk: nat -> Disk, t: nat, left: nat, r: Option<Reading>, next: nat)
    requires left > 0 && r == Attempt(codec, disk, t) && next == ConfirmAt(codec, disk, t) + 1
    ensures Attempts(codec, disk, t, left) == if r.Some? then r.value else Attempts(codec, disk, next, left - 1)
  {
  }

  lemma AttemptsStep(codec: Codec, disk: nat -> Disk, t: nat, left: nat)
    requires left > 0
    ensures Attempts(codec, disk, t, left).status.Changing? <==>
            Disturbed(codec, disk, t) && Attempts(codec, disk, ConfirmAt(codec, disk, t) + 1, left - 1).status.Changing?
  {
    var r, next := Attempt(codec, disk, t), ConfirmAt(codec, disk, t) + 1;
    AttemptsFirst(codec, disk, t, left, r, next);
    AttemptFailsWhenDisturbed(codec, disk, t);
  }

  /** What the attempts report, and the induction hypothesis about the rest of them. */
  lemma DisturbedStep(codec: Codec, disk: nat -> Disk, t: nat, next: nat, rest: nat, left: nat, changing: bool,
                      later: bool)
    requires next == ConfirmAt(codec, disk, t) + 1 && left == rest + 1
    requires changing <==> Disturbed(codec, disk, t) && later
    requires later <==> AllDisturbed(codec, disk, next, rest)
    ensures changing <==> AllDisturbed(codec, disk, t, left)
  {
    FirstDisturbed(codec, disk, t, rest);
  }

  /** `changing` is reported exactly when every allowed attempt was disturbed. */
  lemma {:induction false} ChangingMeansDisturbed(codec: Codec, disk: nat -> Disk, t: nat, left: nat)
    ensures Attempts(codec, disk, t, left).status.Changing? <==> AllDisturbed(codec, disk, t, left)
    decreases left
  {
    if left > 0 {
      var next, rest := ConfirmAt(codec, disk, t) + 1, left - 1;
      AttemptsStep(codec, disk, t, left);
      ChangingMeansDisturbed(codec, disk, next, rest);
      DisturbedStep(codec, disk, t, next, rest, left, Attempts(codec, disk, t, left).status.Changing?,
                    Attempts(codec, disk, next, rest).status.Changing?);
    }
  }
}
