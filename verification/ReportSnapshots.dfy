/** Report snapshots: assembling, validating, and the write-once store with its supersession
    links. */
module ReportSnapshots {
  import opened Wrappers
  import opened Grouping
  import opened Sorting

  /** A source and the point it was read up to. */
  datatype Mark = Mark(source: string, value: string)

  /** A metric result; `rest` stands for every field the snapshot rules do not look at. */
  datatype Metric = Metric(identity: string, definitionHash: string, watermarks: seq<Mark>, rest: string)

  datatype Insight = Insight(provenance: Option<string>, text: string)

  datatype Section = Section(sectionId: string, title: string, metrics: seq<Metric>, insights: seq<Insight>)

  /** What a report is asked to hold. */
  datatype Request = Request(reportType: string, audience: seq<string>, generatedAt: string, asOf: string,
                             scope: map<string, string>, baseline: Option<string>, sections: seq<Section>,
                             review: string, supersedes: Option<string>)

  /** Everything the snapshot id is computed from. */
  datatype Body = Body(request: Request, definitionHashes: map<string, string>, watermarks: seq<Mark>,
                       quality: string, provenance: Option<seq<string>>)

  datatype Snapshot = Snapshot(id: string, body: Body, reportHash: string)

  /** Hashing, and the checks that each concern a single field, left uninterpreted. */
  datatype Codec = Codec(
    idOf: Body -> string,
    hashOf: (string, Body) -> string,
    wellFormedId: string -> bool,
    metricIsValid: Metric -> bool,
    quality: seq<Metric> -> string,
    size: Snapshot -> nat,
    requestFields: Request -> bool,
    snapshotFields: Request -> bool)

  /** Every minted id has the form of an id, and the fields a request is checked for include
      those that a stored snapshot is checked for. */
  ghost predicate Sound(c: Codec) {
    && (forall b :: c.wellFormedId(c.idOf(b)))
    && (forall r :: c.requestFields(r) ==> c.snapshotFields(r))
  }

  function AllMetrics(sections: seq<Section>): seq<Metric> {
    if sections == [] then [] else AllMetrics(sections[..|sections| - 1]) + sections[|sections| - 1].metrics
  }

  function AllInsights(sections: seq<Section>): seq<Insight> {
    if sections == [] then [] else AllInsights(sections[..|sections| - 1]) + sections[|sections| - 1].insights
  }

  // ---- what is derived from the metrics and insights

  /** The dict comprehension: the last metric with an identity decides. */
  function HashesOf(metrics: seq<Metric>): map<string, string> {
    if metrics == [] then map[]
    else
      var last := metrics[|metrics| - 1];
      HashesOf(metrics[..|metrics| - 1])[last.identity := last.definitionHash]
  }

  predicate Agrees(a: Metric, b: Metric) {
    a.identity == b.identity ==> a.definitionHash == b.definitionHash
  }

  predicate NoConflict(metrics: seq<Metric>) {
    forall i, j | 0 <= i < j < |metrics| :: Agrees(metrics[i], metrics[j])
  }

  lemma {:induction false} HashesHold(metrics: seq<Metric>, identity: string)
    ensures identity in HashesOf(metrics) <==> exists i :: 0 <= i < |metrics| && metrics[i].identity == identity
    ensures NoConflict(metrics) ==>
            forall i | 0 <= i < |metrics| && metrics[i].identity == identity ::
              HashesOf(metrics)[identity] == metrics[i].definitionHash
  {
    if metrics != [] {
      var m := |metrics| - 1;
      HashesHold(metrics[..m], identity);
      assert forall i | 0 <= i < m :: metrics[..m][i] == metrics[i];
      if NoConflict(metrics) {
        forall i | 0 <= i < |metrics| && metrics[i].identity == identity
          ensures HashesOf(metrics)[identity] == metrics[i].definitionHash
        {
          if i < m {
            assert metrics[..m][i].identity == identity;
            assert Agrees(metrics[i], metrics[m]);
          }
        }
      }
    }
  }

  lemma OneMoreAgrees(metrics: seq<Metric>, m: Metric)
    requires NoConflict(metrics) && forall i | 0 <= i < |metrics| :: Agrees(metrics[i], m)
    ensures NoConflict(metrics + [m])
  {
  }

  /** The loop of build_report_snapshot: None when two metrics disagree on a definition. */
  method CollectHashes(metrics: seq<Metric>) returns (hashes: Option<map<string, string>>)
    ensures hashes == if NoConflict(metrics) then Some(HashesOf(metrics)) else None
  {
    var known: map<string, string> := map[];
    for k := 0 to |metrics|
      invariant NoConflict(metrics[..k]) && known == HashesOf(metrics[..k])
    {
      var m := metrics[k];
      HashesHold(metrics[..k], m.identity);
      assert metrics[..k + 1][..k] == metrics[..k];
      if m.identity in known {
        var i :| 0 <= i < k && metrics[..k][i].identity == m.identity;
        if known[m.identity] != m.definitionHash {
          assert !Agrees(metrics[i], metrics[k]);
          return None;
        }
        forall j | 0 <= j < k ensures Agrees(metrics[..k][j], m) {
          assert metrics[..k][j].identity == m.identity ==> metrics[..k][j].definitionHash == known[m.identity];
        }
      } else {
        known := known[m.identity := m.definitionHash];
      }
      OneMoreAgrees(metrics[..k], m);
      assert metrics[..k + 1] == metrics[..k] + [m];
      assert known == HashesOf(metrics[..k])[m.identity := m.definitionHash];
    }
    assert metrics[..|metrics|] == metrics;
    hashes := Some(known);
  }

  predicate MarkLeq(a: Mark, b: Mark) {
    if a.source == b.source then StringLeq(a.value, b.value) else StringLeq(a.source, b.source)
  }

  function Same<T>(x: T): T {
    x
  }

  function Usable(m: Mark): bool {
    m.source != "" && m.value != ""
  }

  function AllMarks(metrics: seq<Metric>): seq<Mark> {
    if metrics == [] then []
    else AllMarks(metrics[..|metrics| - 1]) + Keyed(metrics[|metrics| - 1].watermarks, Usable, true)
  }

  /** The sorted set of usable watermarks; None when there is none. */
  function Watermarks(metrics: seq<Metric>): Option<seq<Mark>> {
    var marks := FirstKeys(AllMarks(metrics), Same);
    if marks == [] then None else Some(SortBy(marks, MarkLeq))
  }

  function ProvenanceOf(i: Insight): string {
    if i.provenance.None? then "" else i.provenance.value
  }

  predicate Typed(insights: seq<Insight>) {
    forall i | 0 <= i < |insights| :: insights[i].provenance.Some?
  }

  /** The distinct provenances in order of first use; None when an insight has none. */
  function ModelProvenance(insights: seq<Insight>): Option<seq<string>> {
    if Typed(insights) then Some(FirstKeys(insights, ProvenanceOf)) else None
  }

  /** _model_provenance */
  method CollectProvenance(insights: seq<Insight>) returns (values: Option<seq<string>>)
    ensures values == ModelProvenance(insights)
  {
    var found: seq<string> := [];
    var seen: set<string> := {};
    for k := 0 to |insights|
      invariant Typed(insights[..k]) && found == FirstKeys(insights[..k], ProvenanceOf)
      invariant forall p :: p in seen <==> p in found
    {
      if insights[k].provenance.None? { return None; }
      assert insights[..k + 1][..k] == insights[..k];
      var marker := insights[k].provenance.value;
      if marker !in seen {
        found := found + [marker];
        seen := seen + {marker};
      }
    }
    assert insights[..|insights|] == insights;
    values := Some(found);
  }

  // ---- validation

  predicate MetricsValid(c: Codec, metrics: seq<Metric>) {
    forall i | 0 <= i < |metrics| :: c.metricIsValid(metrics[i])
  }

  /** Everything a body derives from its sections reproduces. */
  predicate Reproduces(c: Codec, b: Body) {
    var metrics := AllMetrics(b.request.sections);
    && MetricsValid(c, metrics)
    && ModelProvenance(AllInsights(b.request.sections)) == Some(if b.provenance.None? then [] else b.provenance.value)
    && b.definitionHashes == HashesOf(metrics)
    && Watermarks(metrics) == Some(b.watermarks)
    && b.quality == c.quality(metrics)
  }

  /** validate_report_snapshot */
  predicate Valid(c: Codec, s: Snapshot) {
    && c.wellFormedId(s.id)
    && c.snapshotFields(s.body.request)
    && s.reportHash == c.hashOf(s.id, s.body)
    && s.id == c.idOf(s.body)
    && s.body.request.supersedes != Some(s.id)
    && s.body.request.sections != []
    && Reproduces(c, s.body)
  }

  // ---- assembling

  predicate Acceptable(c: Codec, r: Request) {
    var metrics := AllMetrics(r.sections);
    && c.requestFields(r) && 1 <= |r.sections| <= 32
    && MetricsValid(c, metrics) && metrics != [] && NoConflict(metrics)
    && Typed(AllInsights(r.sections)) && Watermarks(metrics).Some?
  }

  function BodyOf(c: Codec, r: Request): Body
    requires Acceptable(c, r)
  {
    var metrics := AllMetrics(r.sections);
    var provenance := ModelProvenance(AllInsights(r.sections)).value;
    Body(r, HashesOf(metrics), Watermarks(metrics).value, c.quality(metrics),
         if provenance == [] then None else Some(provenance))
  }

  function Assembled(c: Codec, r: Request): Snapshot
    requires Acceptable(c, r)
  {
    var body := BodyOf(c, r);
    Snapshot(c.idOf(body), body, c.hashOf(c.idOf(body), body))
  }

  /** An acceptable request assembles to a snapshot that revalidates, unless it supersedes the
      very id it is given. */
  lemma AssembledRevalidates(c: Codec, r: Request)
    requires Sound(c) && Acceptable(c, r)
    ensures Valid(c, Assembled(c, r)) <==> r.supersedes != Some(Assembled(c, r).id)
  {
  }

  /** build_report_snapshot; None is a ReportSnapshotError. */
  method BuildReportSnapshot(c: Codec, r: Request) returns (snapshot: Option<Snapshot>)
    requires Sound(c)
    ensures snapshot ==
            if Acceptable(c, r) && r.supersedes != Some(Assembled(c, r).id) then Some(Assembled(c, r)) else None
    ensures snapshot.Some? ==> Valid(c, snapshot.value) && snapshot.value.body.request == r
  {
    if !c.requestFields(r) || !(1 <= |r.sections| <= 32) { return None; }
    var metrics: seq<Metric> := [];
    var insights: seq<Insight> := [];
    for k := 0 to |r.sections|
      invariant metrics == AllMetrics(r.sections[..k]) && insights == AllInsights(r.sections[..k])
    {
      assert r.sections[..k + 1][..k] == r.sections[..k];
      metrics := metrics + r.sections[k].metrics;
      insights := insights + r.sections[k].insights;
    }
    assert r.sections[..|r.sections|] == r.sections;
    if !MetricsValid(c, metrics) || metrics == [] { return None; }
    var hashes := CollectHashes(metrics);
    if hashes.None? { return None; }
    var provenance := CollectProvenance(insights);
    if provenance.None? { return None; }
    var watermarks := Watermarks(metrics);
    if watermarks.None? { return None; }
    var body := Body(r, hashes.value, watermarks.value, c.quality(metrics),
                     if provenance.value == [] then None else Some(provenance.value));
    var built := Snapshot(c.idOf(body), body, c.hashOf(c.idOf(body), body));
    AssembledRevalidates(c, r);
    if !Valid(c, built) { return None; }
    snapshot := Some(built);
  }

  ghost predicate CollisionFree(c: Codec) {
    forall a, b :: c.idOf(a) == c.idOf(b) ==> a == b
  }

  /** With collision-free ids, an id identifies a valid snapshot. */
  lemma ValidIdsIdentify(c: Codec, s: Snapshot, t: Snapshot)
    requires CollisionFree(c) && Valid(c, s) && Valid(c, t) && s.id == t.id
    ensures s == t
  {
    assert c.idOf(s.body) == c.idOf(t.body);
  }
}
