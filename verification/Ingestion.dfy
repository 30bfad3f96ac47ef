/** From anomalies to incidents and playbook runs, with the in-memory set that short-circuits a query. */
module Ingestion {
  import opened Wrappers
  import V = PlaybookVersions

  /** None is SQL's NULL, which equals nothing, not even itself. */
  type Org = Option<int>

  datatype Playbook = Playbook(id: nat, org: Org, enabled: bool, trigger: V.TriggerOf<real>, auto: bool, role: string)

  /** An anomaly as a dictionary: without the key "id" its id is None. */
  datatype Anomaly = Anomaly(
    id: Option<string>, org: Org, timestamp: string, metric: string, category: string, value: real)

  /** `_anomaly_id`: a digest of timestamp, metric, value and category. */
  type IdDigest = (string, string, real, string) -> string

  /** What `_persist_anomaly` makes of an anomaly before anything else is done with it: it has an id. */
  function WithId(digest: IdDigest, a: Anomaly): (b: Anomaly)
    ensures b.id.Some? && b.(id := a.id) == a && (a.id.Some? ==> b == a)
  {
    if a.id.Some? then a else a.(id := Some(digest(a.timestamp, a.metric, a.value, a.category)))
  }

  datatype RunStatus = WaitingForApproval | Resolved | Open

  datatype Run = Run(org: Org, playbookId: nat, anomalyId: Option<string>, status: RunStatus)

  datatype Incident = Incident(org: Org, anomalyId: Option<string>)

  /** The two tables, oldest row first. */
  datatype Tables = Tables(runs: seq<Run>, incidents: seq<Incident>)

  /** An entry of `seen`. */
  datatype Key = Key(playbookId: nat, anomalyId: Option<string>)

  const LATEST: nat := 1000

  function KeyOf(r: Run): Key { Key(r.playbookId, r.anomalyId) }

  /** `op_eval`. */
  predicate Holds(value: real, operator: string, threshold: real) {
    if operator == ">" then value > threshold
    else if operator == "<" then value < threshold
    else if operator == ">=" then value >= threshold
    else if operator == "<=" then value <= threshold
    else (operator == "==" || operator == "equals") && value == threshold
  }

  /** `_playbook_matches_anomaly`. */
  predicate Matches(pb: Playbook, a: Anomaly) {
    pb.enabled && pb.trigger.Anomaly? && pb.trigger.metric == a.metric
    && (pb.trigger.category == "" || pb.trigger.category == a.category)
    && Holds(a.value, pb.trigger.operator, pb.trigger.threshold)
  }

  predicate Visible(rowOrg: Org, org: Org) { org.None? || rowOrg.None? || rowOrg == org }

  /** The playbooks an anomaly sets off, in the order of the table. */
  function MatchesOf(pbs: seq<Playbook>, a: Anomaly, org: Org): seq<Playbook> {
    if pbs == [] then []
    else (if Visible(pbs[0].org, org) && Matches(pbs[0], a) then [pbs[0]] else []) + MatchesOf(pbs[1..], a, org)
  }

  /** `SELECT ... WHERE anomaly_id = ? AND playbook_id = ?` finds a row. */
  predicate Recorded(runs: seq<Run>, playbookId: nat, anomalyId: Option<string>) {
    anomalyId.Some? && exists i :: 0 <= i < |runs| && runs[i].playbookId == playbookId && runs[i].anomalyId == anomalyId
  }

  function NewRun(a: Anomaly, pb: Playbook): Run {
    var approval := pb.role != "" && pb.role != "none" && pb.role != "automatic";
    Run(a.org, pb.id, a.id, if approval then WaitingForApproval else if pb.auto then Resolved else Open)
  }

  /** The table and `seen` after one call, and the run it made. */
  datatype Outcome = Outcome(runs: seq<Run>, seen: set<Key>, made: Option<Run>)

  /** `_record_playbook_run`. */
  function Record(runs: seq<Run>, seen: set<Key>, a: Anomaly, pb: Playbook): Outcome {
    var key := Key(pb.id, a.id);
    if key in seen then Outcome(runs, seen, None)
    else if Recorded(runs, pb.id, a.id) then Outcome(runs, seen + {key}, None)
    else Outcome(runs + [NewRun(a, pb)], seen + {key}, Some(NewRun(a, pb)))
  }

  /** One call after another for the first `n` of these playbooks. */
  function RecordEach(runs: seq<Run>, seen: set<Key>, a: Anomaly, pbs: seq<Playbook>, n: nat): Outcome
    requires n <= |pbs|
  {
    if n == 0 then Outcome(runs, seen, None)
    else
      var before := RecordEach(runs, seen, a, pbs, n - 1);
      Record(before.runs, before.seen, a, pbs[n - 1])
  }

  /** The keys of the latest `limit` runs that an organization sees, oldest first. */
  function VisibleRuns(runs: seq<Run>, org: Org): seq<Run> {
    if runs == [] then []
    else
      VisibleRuns(runs[..|runs| - 1], org)
      + if Visible(runs[|runs| - 1].org, org) then [runs[|runs| - 1]] else []
  }

  function Latest(runs: seq<Run>, limit: nat): seq<Run> { if |runs| <= limit then runs else runs[|runs| - limit..] }

  function LatestKeys(runs: seq<Run>, org: Org, limit: nat): set<Key> {
    set r | r in Latest(VisibleRuns(runs, org), limit) :: KeyOf(r)
  }

  /** `create_incident_from_anomaly`: the anomaly's incident in this organization is made once. */
  predicate HasIncident(incidents: seq<Incident>, anomalyId: Option<string>, org: Org) {
    anomalyId.Some?
    && exists i :: 0 <= i < |incidents| && incidents[i].anomalyId == anomalyId && incidents[i].org == org
  }

  function WithIncident(incidents: seq<Incident>, a: Anomaly, org: Org): seq<Incident> {
    if HasIncident(incidents, a.id, org) then incidents else incidents + [Incident(org, a.id)]
  }

  /** The organization playbooks are looked up in: the incident's, or the anomaly's. */
  function IngestMatches(pbs: seq<Playbook>, a: Anomaly, org: Org): seq<Playbook> {
    MatchesOf(pbs, a.(org := org), org)
  }

  /** `ingest_anomaly_workflow` on a persisted anomaly, seeing at most `limit` runs beforehand. */
  function IngestStored(t: Tables, pbs: seq<Playbook>, a: Anomaly, org: Org, createRuns: bool, limit: nat): Tables {
    var matches := IngestMatches(pbs, a, org);
    Tables(
      if createRuns then RecordEach(t.runs, LatestKeys(t.runs, org, limit), a.(org := org), matches, |matches|).runs
      else t.runs,
      WithIncident(t.incidents, a, org))
  }

  function Ingest(digest: IdDigest, t: Tables, pbs: seq<Playbook>, a: Anomaly, org: Org, createRuns: bool,
                  limit: nat): Tables
  {
    IngestStored(t, pbs, WithId(digest, a), org, createRuns, limit)
  }

  /** `apply_playbooks` on the first `n` anomalies, with one `seen` for all. */
  function Apply(runs: seq<Run>, seen: set<Key>, pbs: seq<Playbook>, anomalies: seq<Anomaly>, n: nat): Outcome
    requires n <= |anomalies|
  {
    if n == 0 then Outcome(runs, seen, None)
    else
      var before, a := Apply(runs, seen, pbs, anomalies, n - 1), anomalies[n - 1];
      var matches := MatchesOf(pbs, a, a.org);
      RecordEach(before.runs, before.seen, a, matches, |matches|)
  }

  // At most one run per anomaly and playbook.

  predicate UniqueRuns(runs: seq<Run>) {
    forall i, j :: 0 <= i < j < |runs| && runs[i].anomalyId.Some? ==>
      !(runs[i].playbookId == runs[j].playbookId && runs[i].anomalyId == runs[j].anomalyId)
  }

  predicate UniqueIncidents(incidents: seq<Incident>) {
    forall i, j :: 0 <= i < j < |incidents| && incidents[i].anomalyId.Some? ==>
      !(incidents[i].org == incidents[j].org && incidents[i].anomalyId == incidents[j].anomalyId)
  }

  lemma RecordKeepsUnique(runs: seq<Run>, seen: set<Key>, a: Anomaly, pb: Playbook)
    requires UniqueRuns(runs)
    ensures UniqueRuns(Record(runs, seen, a, pb).runs)
  {
  }

  lemma {:induction false} RecordEachKeepsUnique(runs: seq<Run>, seen: set<Key>, a: Anomaly, pbs: seq<Playbook>, n: nat)
    requires UniqueRuns(runs) && n <= |pbs|
    ensures UniqueRuns(RecordEach(runs, seen, a, pbs, n).runs)
  {
    if n > 0 {
      RecordEachKeepsUnique(runs, seen, a, pbs, n - 1);
      var before := RecordEach(runs, seen, a, pbs, n - 1);
      RecordKeepsUnique(before.runs, before.seen, a, pbs[n - 1]);
    }
  }

  lemma {:induction false} ApplyKeepsUnique(runs: seq<Run>, seen: set<Key>, pbs: seq<Playbook>,
                                            anomalies: seq<Anomaly>, n: nat)
    requires UniqueRuns(runs) && n <= |anomalies|
    ensures UniqueRuns(Apply(runs, seen, pbs, anomalies, n).runs)
  {
    if n > 0 {
      ApplyKeepsUnique(runs, seen, pbs, anomalies, n - 1);
      var before, a := Apply(runs, seen, pbs, anomalies, n - 1), anomalies[n - 1];
      var matches := MatchesOf(pbs, a, a.org);
      RecordEachKeepsUnique(before.runs, before.seen, a, matches, |matches|);
    }
  }

  /** The calls that write either table. */
  datatype Call =
    | IngestCall(a: Anomaly, org: Org, createRuns: bool)
    | ApplyCall(anomalies: seq<Anomaly>)
    | TriggerCall(a: Anomaly, pb: Playbook)      // a playbook triggered for an anomaly
    | ManualCall(org: Org, pb: Playbook)         // without one: a run with no anomaly
    | IncidentCall(a: Anomaly, org: Org)

  function After(digest: IdDigest, t: Tables, pbs: seq<Playbook>, c: Call): Tables {
    match c
    case IngestCall(a, org, createRuns) => Ingest(digest, t, pbs, a, org, createRuns, LATEST)
    case ApplyCall(anomalies) =>
      t.(runs := Apply(t.runs, LatestKeys(t.runs, None, LATEST), pbs, anomalies, |anomalies|).runs)
    case TriggerCall(a, pb) => t.(runs := Record(t.runs, {}, a, pb).runs)
    case ManualCall(org, pb) => t.(runs := t.runs + [Run(org, pb.id, None, Open)])
    case IncidentCall(a, org) => t.(incidents := WithIncident(t.incidents, WithId(digest, a), org))
  }

  lemma CallKeepsUnique(digest: IdDigest, t: Tables, pbs: seq<Playbook>, c: Call)
    requires UniqueRuns(t.runs) && UniqueIncidents(t.incidents)
    ensures UniqueRuns(After(digest, t, pbs, c).runs) && UniqueIncidents(After(digest, t, pbs, c).incidents)
  {
    match c
    case IngestCall(a, org, createRuns) =>
      var b := WithId(digest, a);
      var matches := IngestMatches(pbs, b, org);
      RecordEachKeepsUnique(t.runs, LatestKeys(t.runs, org, LATEST), b.(org := org), matches, |matches|);
    case ApplyCall(anomalies) =>
      ApplyKeepsUnique(t.runs, LatestKeys(t.runs, None, LATEST), pbs, anomalies, |anomalies|);
    case TriggerCall(a, pb) => RecordKeepsUnique(t.runs, {}, a, pb);
    case ManualCall(_, _) =>
    case IncidentCall(_, _) =>
  }

  /** A sequence of calls, each with the playbooks as they are then. */
  function AfterAll(digest: IdDigest, t: Tables, calls: seq<(seq<Playbook>, Call)>): Tables {
    if calls == [] then t
    else After(digest, AfterAll(digest, t, calls[..|calls| - 1]), calls[|calls| - 1].0, calls[|calls| - 1].1)
  }

  /** After any calls an anomaly has at most one run per playbook and one incident per organization. */
  lemma {:induction false} NoDuplicates(digest: IdDigest, t: Tables, calls: seq<(seq<Playbook>, Call)>)
    requires UniqueRuns(t.runs) && UniqueIncidents(t.incidents)
    ensures UniqueRuns(AfterAll(digest, t, calls).runs) && UniqueIncidents(AfterAll(digest, t, calls).incidents)
  {
    if calls != [] {
      var front := calls[..|calls| - 1];
      NoDuplicates(digest, t, front);
      CallKeepsUnique(digest, AfterAll(digest, t, front), calls[|calls| - 1].0, calls[|calls| - 1].1);
    }
  }

  // What `seen` may leave out.

  /** `seen` never claims a run for an anomaly that the table does not hold. */
  predicate SoundFor(seen: set<Key>, runs: seq<Run>, anomalyId: Option<string>) {
    forall k :: k in seen && k.anomalyId == anomalyId ==> Recorded(runs, k.playbookId, anomalyId)
  }

  lemma {:induction false} VisibleRunsAreRuns(runs: seq<Run>, org: Org, r: Run)
    requires r in VisibleRuns(runs, org)
    ensures r in runs
  {
    var front := runs[..|runs| - 1];
    if r in VisibleRuns(front, org) {
      VisibleRunsAreRuns(front, org, r);
    }
  }

  /** However many runs are looked at, what is found is in the table. */
  lemma LatestKeysSound(runs: seq<Run>, org: Org, limit: nat, anomalyId: Option<string>)
    requires anomalyId.Some?
    ensures SoundFor(LatestKeys(runs, org, limit), runs, anomalyId)
  {
    forall k | k in LatestKeys(runs, org, limit) && k.anomalyId == anomalyId
      ensures Recorded(runs, k.playbookId, anomalyId)
    {
      var r :| r in Latest(VisibleRuns(runs, org), limit) && KeyOf(r) == k;
      assert r in VisibleRuns(runs, org);
      VisibleRunsAreRuns(runs, org, r);
      var i :| 0 <= i < |runs| && runs[i] == r;
      assert runs[i].playbookId == k.playbookId && runs[i].anomalyId == anomalyId;
    }
  }

  /** For one call, what is left out of `seen` matters exactly to an anomaly without an id. */
  lemma SeenMattersOnlyWithoutId(runs: seq<Run>, s: set<Key>, u: set<Key>, a: Anomaly, pb: Playbook)
    requires a.id.Some? ==> SoundFor(s, runs, a.id) && SoundFor(u, runs, a.id)
    ensures Record(runs, s, a, pb).runs == Record(runs, u, a, pb).runs
            <==> a.id.Some? || (Key(pb.id, a.id) in s <==> Key(pb.id, a.id) in u)
  {
    assert |runs + [NewRun(a, pb)]| != |runs|;
  }

  lemma RecordKeepsSound(runs: seq<Run>, seen: set<Key>, a: Anomaly, pb: Playbook)
    requires a.id.Some? && SoundFor(seen, runs, a.id)
    ensures SoundFor(Record(runs, seen, a, pb).seen, Record(runs, seen, a, pb).runs, a.id)
    ensures Recorded(Record(runs, seen, a, pb).runs, pb.id, a.id)
  {
    var after := Record(runs, seen, a, pb);
    forall p | Recorded(runs, p, a.id) ensures Recorded(after.runs, p, a.id) {
      RecordedStays(runs, after.runs, p, a.id);
    }
    if after.made.Some? {
      assert after.runs[|runs|] == NewRun(a, pb);
      assert Recorded(after.runs, pb.id, a.id);
    }
  }

  lemma RecordedStays(runs: seq<Run>, more: seq<Run>, p: nat, id: Option<string>)
    requires Recorded(runs, p, id) && runs <= more
    ensures Recorded(more, p, id)
  {
    var i :| 0 <= i < |runs| && runs[i].playbookId == p && runs[i].anomalyId == id;
    assert more[i] == runs[i];
  }

  /** Any two sound sets lead to the same table. */
  lemma {:induction false} SeenIrrelevant(runs: seq<Run>, s: set<Key>, u: set<Key>, a: Anomaly, pbs: seq<Playbook>,
                                          n: nat)
    requires a.id.Some? && SoundFor(s, runs, a.id) && SoundFor(u, runs, a.id) && n <= |pbs|
    ensures RecordEach(runs, s, a, pbs, n).runs == RecordEach(runs, u, a, pbs, n).runs
    ensures SoundFor(RecordEach(runs, s, a, pbs, n).seen, RecordEach(runs, s, a, pbs, n).runs, a.id)
    ensures SoundFor(RecordEach(runs, u, a, pbs, n).seen, RecordEach(runs, u, a, pbs, n).runs, a.id)
  {
    if n > 0 {
      SeenIrrelevant(runs, s, u, a, pbs, n - 1);
      var x, y := RecordEach(runs, s, a, pbs, n - 1), RecordEach(runs, u, a, pbs, n - 1);
      RecordKeepsSound(x.runs, x.seen, a, pbs[n - 1]);
      RecordKeepsSound(y.runs, y.seen, a, pbs[n - 1]);
      SeenMattersOnlyWithoutId(x.runs, x.seen, y.seen, a, pbs[n - 1]);
    }
  }

  /** Ingesting with the latest runs in view, any number of them, is ingesting with all. */
  lemma TruncationIsInvisible(digest: IdDigest, t: Tables, pbs: seq<Playbook>, a: Anomaly, org: Org, createRuns: bool,
                              m: nat, n: nat)
    ensures Ingest(digest, t, pbs, a, org, createRuns, m) == Ingest(digest, t, pbs, a, org, createRuns, n)
  {
    var b := WithId(digest, a);
    var matches := IngestMatches(pbs, b, org);
    LatestKeysSound(t.runs, org, m, b.id);
    LatestKeysSound(t.runs, org, n, b.id);
    SeenIrrelevant(t.runs, LatestKeys(t.runs, org, m), LatestKeys(t.runs, org, n), b.(org := org), matches, |matches|);
  }

  /** The same over a whole batch, where one set is carried along. */
  predicate Sound(seen: set<Key>, runs: seq<Run>) {
    forall k :: k in seen && k.anomalyId.Some? ==> Recorded(runs, k.playbookId, k.anomalyId)
  }

  lemma RecordKeepsAllSound(runs: seq<Run>, seen: set<Key>, a: Anomaly, pb: Playbook)
    requires Sound(seen, runs)
    ensures Sound(Record(runs, seen, a, pb).seen, Record(runs, seen, a, pb).runs)
  {
    var after := Record(runs, seen, a, pb);
    if a.id.Some? { RecordKeepsSound(runs, seen, a, pb); }
    forall k | k in after.seen && k.anomalyId.Some? ensures Recorded(after.runs, k.playbookId, k.anomalyId) {
      if k in seen { RecordedStays(runs, after.runs, k.playbookId, k.anomalyId); }
    }
  }

  lemma {:induction false} RecordEachKeepsAllSound(runs: seq<Run>, seen: set<Key>, a: Anomaly, pbs: seq<Playbook>,
                                                   n: nat)
    requires Sound(seen, runs) && n <= |pbs|
    ensures Sound(RecordEach(runs, seen, a, pbs, n).seen, RecordEach(runs, seen, a, pbs, n).runs)
  {
    if n > 0 {
      RecordEachKeepsAllSound(runs, seen, a, pbs, n - 1);
      var before := RecordEach(runs, seen, a, pbs, n - 1);
      RecordKeepsAllSound(before.runs, before.seen, a, pbs[n - 1]);
    }
  }

  /** How many runs of a playbook belong to no anomaly. */
  function Unowned(runs: seq<Run>, p: nat): nat {
    if runs == [] then 0
    else
      var last := runs[|runs| - 1];
      Unowned(runs[..|runs| - 1], p) + if last.playbookId == p && last.anomalyId.None? then 1 else 0
  }

  /** One of these playbooks is called `p`, and the anomaly that sets them off has no id. */
  predicate SetOff(a: Anomaly, pbs: seq<Playbook>, n: nat, p: nat)
    requires n <= |pbs|
  {
    a.id.None? && exists j :: 0 <= j < n && pbs[j].id == p
  }

  predicate SetOffFrom(pbs: seq<Playbook>, a: Anomaly, p: nat) {
    var matches := MatchesOf(pbs, a, a.org);
    SetOff(a, matches, |matches|, p)
  }

  /** Some anomaly without an id sets off playbook `p`. */
  predicate SetOffBy(pbs: seq<Playbook>, anomalies: seq<Anomaly>, n: nat, p: nat)
    requires n <= |anomalies|
  {
    exists i :: 0 <= i < n && SetOffFrom(pbs, anomalies[i], p)
  }

  lemma SetOffByNext(pbs: seq<Playbook>, anomalies: seq<Anomaly>, n: nat, p: nat)
    requires 0 < n <= |anomalies|
    ensures SetOffBy(pbs, anomalies, n, p)
            <==> SetOffBy(pbs, anomalies, n - 1, p) || SetOffFrom(pbs, anomalies[n - 1], p)
  {
  }

  function Once(now: bool, before: bool): nat { if now && !before then 1 else 0 }

  lemma RecordCounts(runs: seq<Run>, seen: set<Key>, a: Anomaly, pb: Playbook, p: nat)
    ensures var after, hit := Record(runs, seen, a, pb), a.id.None? && pb.id == p;
            Unowned(after.runs, p) == Unowned(runs, p) + Once(hit, Key(p, None) in seen)
            && (Key(p, None) in after.seen <==> Key(p, None) in seen || hit)
  {
    var run := NewRun(a, pb);
    assert (runs + [run])[..|runs|] == runs;
  }

  lemma {:induction false} RecordEachCounts(runs: seq<Run>, seen: set<Key>, a: Anomaly, pbs: seq<Playbook>, n: nat,
                                            p: nat)
    requires n <= |pbs|
    ensures var after := RecordEach(runs, seen, a, pbs, n);
            Unowned(after.runs, p) == Unowned(runs, p) + Once(SetOff(a, pbs, n, p), Key(p, None) in seen)
            && (Key(p, None) in after.seen <==> Key(p, None) in seen || SetOff(a, pbs, n, p))
  {
    if n > 0 {
      RecordEachCounts(runs, seen, a, pbs, n - 1, p);
      var before := RecordEach(runs, seen, a, pbs, n - 1);
      RecordCounts(before.runs, before.seen, a, pbs[n - 1], p);
      assert SetOff(a, pbs, n, p) <==> SetOff(a, pbs, n - 1, p) || (a.id.None? && pbs[n - 1].id == p);
    }
  }

  /** A batch adds one run without an anomaly for each playbook set off so and not in `seen`. */
  lemma {:induction false} ApplyCounts(runs: seq<Run>, seen: set<Key>, pbs: seq<Playbook>, anomalies: seq<Anomaly>,
                                       n: nat, p: nat)
    requires n <= |anomalies|
    ensures var after := Apply(runs, seen, pbs, anomalies, n);
            Unowned(after.runs, p) == Unowned(runs, p) + Once(SetOffBy(pbs, anomalies, n, p), Key(p, None) in seen)
            && (Key(p, None) in after.seen <==> Key(p, None) in seen || SetOffBy(pbs, anomalies, n, p))
  {
    if n > 0 {
      ApplyCounts(runs, seen, pbs, anomalies, n - 1, p);
      var before, a := Apply(runs, seen, pbs, anomalies, n - 1), anomalies[n - 1];
      var matches := MatchesOf(pbs, a, a.org);
      RecordEachCounts(before.runs, before.seen, a, matches, |matches|, p);
      SetOffByNext(pbs, anomalies, n, p);
    }
  }

  predicate Agree(s: set<Key>, u: set<Key>, p: nat) { Key(p, None) in s <==> Key(p, None) in u }

  lemma AgreeAfterEach(runs: seq<Run>, s: set<Key>, u: set<Key>, a: Anomaly, pbs: seq<Playbook>, n: nat, p: nat)
    requires n <= |pbs| && Agree(s, u, p)
    ensures Agree(RecordEach(runs, s, a, pbs, n).seen, RecordEach(runs, u, a, pbs, n).seen, p)
  {
    RecordEachCounts(runs, s, a, pbs, n, p);
    RecordEachCounts(runs, u, a, pbs, n, p);
  }

  lemma AgreeAfter(runs: seq<Run>, s: set<Key>, u: set<Key>, pbs: seq<Playbook>, anomalies: seq<Anomaly>, n: nat,
                   p: nat)
    requires n <= |anomalies| && Agree(s, u, p)
    ensures Agree(Apply(runs, s, pbs, anomalies, n).seen, Apply(runs, u, pbs, anomalies, n).seen, p)
  {
    ApplyCounts(runs, s, pbs, anomalies, n, p);
    ApplyCounts(runs, u, pbs, anomalies, n, p);
  }

  lemma RecordAgrees(runs: seq<Run>, s: set<Key>, u: set<Key>, a: Anomaly, pb: Playbook)
    requires Sound(s, runs) && Sound(u, runs) && (a.id.None? ==> Agree(s, u, pb.id))
    ensures Record(runs, s, a, pb).runs == Record(runs, u, a, pb).runs
  {
    SeenMattersOnlyWithoutId(runs, s, u, a, pb);
  }

  lemma {:induction false} RecordEachAgrees(runs: seq<Run>, s: set<Key>, u: set<Key>, a: Anomaly, pbs: seq<Playbook>,
                                            n: nat)
    requires Sound(s, runs) && Sound(u, runs) && n <= |pbs|
    requires a.id.None? ==> forall j :: 0 <= j < n ==> Agree(s, u, pbs[j].id)
    ensures RecordEach(runs, s, a, pbs, n).runs == RecordEach(runs, u, a, pbs, n).runs
  {
    if n > 0 {
      RecordEachAgrees(runs, s, u, a, pbs, n - 1);
      var x, y := RecordEach(runs, s, a, pbs, n - 1), RecordEach(runs, u, a, pbs, n - 1);
      RecordEachKeepsAllSound(runs, s, a, pbs, n - 1);
      RecordEachKeepsAllSound(runs, u, a, pbs, n - 1);
      if a.id.None? { AgreeAfterEach(runs, s, u, a, pbs, n - 1, pbs[n - 1].id); }
      RecordAgrees(x.runs, x.seen, y.seen, a, pbs[n - 1]);
    }
  }

  lemma AnomalyAgrees(runs: seq<Run>, s: set<Key>, u: set<Key>, pbs: seq<Playbook>, a: Anomaly)
    requires Sound(s, runs) && Sound(u, runs) && forall p :: SetOffFrom(pbs, a, p) ==> Agree(s, u, p)
    ensures var matches := MatchesOf(pbs, a, a.org);
            var x, y := RecordEach(runs, s, a, matches, |matches|), RecordEach(runs, u, a, matches, |matches|);
            x.runs == y.runs && Sound(x.seen, x.runs) && Sound(y.seen, y.runs)
  {
    var matches := MatchesOf(pbs, a, a.org);
    if a.id.None? {
      forall j | 0 <= j < |matches| ensures Agree(s, u, matches[j].id) {
        assert SetOffFrom(pbs, a, matches[j].id);
      }
    }
    RecordEachAgrees(runs, s, u, a, matches, |matches|);
    RecordEachKeepsAllSound(runs, s, a, matches, |matches|);
    RecordEachKeepsAllSound(runs, u, a, matches, |matches|);
  }

  lemma {:induction false} ApplyAgrees(runs: seq<Run>, s: set<Key>, u: set<Key>, pbs: seq<Playbook>,
                                       anomalies: seq<Anomaly>, n: nat)
    requires Sound(s, runs) && Sound(u, runs) && n <= |anomalies|
    requires forall p :: SetOffBy(pbs, anomalies, n, p) ==> Agree(s, u, p)
    ensures var x, y := Apply(runs, s, pbs, anomalies, n), Apply(runs, u, pbs, anomalies, n);
            x.runs == y.runs && Sound(x.seen, x.runs) && Sound(y.seen, y.runs)
  {
    if n > 0 {
      forall p | SetOffBy(pbs, anomalies, n - 1, p) ensures Agree(s, u, p) { SetOffByNext(pbs, anomalies, n, p); }
      ApplyAgrees(runs, s, u, pbs, anomalies, n - 1);
      var x, y := Apply(runs, s, pbs, anomalies, n - 1), Apply(runs, u, pbs, anomalies, n - 1);
      forall p | SetOffFrom(pbs, anomalies[n - 1], p) ensures Agree(x.seen, y.seen, p) {
        SetOffByNext(pbs, anomalies, n, p);
        AgreeAfter(runs, s, u, pbs, anomalies, n - 1, p);
      }
      AnomalyAgrees(x.runs, x.seen, y.seen, pbs, anomalies[n - 1]);
    }
  }

  /** For a batch, `seen` matters exactly to the playbooks that anomalies without an id set off. */
  lemma SeenMattersToBatch(runs: seq<Run>, s: set<Key>, u: set<Key>, pbs: seq<Playbook>, anomalies: seq<Anomaly>)
    requires Sound(s, runs) && Sound(u, runs)
    ensures Apply(runs, s, pbs, anomalies, |anomalies|).runs == Apply(runs, u, pbs, anomalies, |anomalies|).runs
            <==> forall p :: SetOffBy(pbs, anomalies, |anomalies|, p) ==> Agree(s, u, p)
  {
    var n := |anomalies|;
    if Apply(runs, s, pbs, anomalies, n).runs == Apply(runs, u, pbs, anomalies, n).runs {
      forall p | SetOffBy(pbs, anomalies, n, p) ensures Agree(s, u, p) {
        ApplyCounts(runs, s, pbs, anomalies, n, p);
        ApplyCounts(runs, u, pbs, anomalies, n, p);
      }
    }
    if forall p :: SetOffBy(pbs, anomalies, n, p) ==> Agree(s, u, p) {
      ApplyAgrees(runs, s, u, pbs, anomalies, n);
    }
  }

  lemma LatestKeysAllSound(runs: seq<Run>, org: Org, limit: nat)
    ensures Sound(LatestKeys(runs, org, limit), runs)
  {
    forall k: Key | k.anomalyId.Some? ensures SoundFor(LatestKeys(runs, org, limit), runs, k.anomalyId) {
      LatestKeysSound(runs, org, limit, k.anomalyId);
    }
  }

  /**
   * How many of the latest runs a batch looks at matters exactly if it finds a run without an anomaly, of a
   * playbook that an anomaly without an id sets off, in one view and not in the other.
   */
  lemma BatchTruncationIsInvisible(runs: seq<Run>, pbs: seq<Playbook>, anomalies: seq<Anomaly>, m: nat, n: nat)
    ensures Apply(runs, LatestKeys(runs, None, m), pbs, anomalies, |anomalies|).runs
            == Apply(runs, LatestKeys(runs, None, n), pbs, anomalies, |anomalies|).runs
            <==> forall p :: SetOffBy(pbs, anomalies, |anomalies|, p) ==>
                   Agree(LatestKeys(runs, None, m), LatestKeys(runs, None, n), p)
    ensures (forall i :: 0 <= i < |anomalies| ==> anomalies[i].id.Some?) ==>
              Apply(runs, LatestKeys(runs, None, m), pbs, anomalies, |anomalies|).runs
              == Apply(runs, LatestKeys(runs, None, n), pbs, anomalies, |anomalies|).runs
  {
    LatestKeysAllSound(runs, None, m);
    LatestKeysAllSound(runs, None, n);
    SeenMattersToBatch(runs, LatestKeys(runs, None, m), LatestKeys(runs, None, n), pbs, anomalies);
  }

  // What ingesting records.

  lemma {:induction false} MatchesOfExactly(pbs: seq<Playbook>, a: Anomaly, org: Org, pb: Playbook)
    ensures pb in MatchesOf(pbs, a, org) <==> pb in pbs && Visible(pb.org, org) && Matches(pb, a)
  {
    if pbs != [] {
      MatchesOfExactly(pbs[1..], a, org, pb);
      assert pbs == [pbs[0]] + pbs[1..];
    }
  }

  /** A run the table already holds for this playbook and anomaly; SQL's NULL equals nothing. */
  predicate RunOf(r: Run, pb: Playbook, a: Anomaly) {
    a.id.Some? && r.anomalyId == a.id && r.playbookId == pb.id
  }

  /** A run as it is made: for whom, and where it starts. */
  predicate MadeBy(r: Run, pb: Playbook, a: Anomaly) {
    r.playbookId == pb.id && r.anomalyId == a.id && r.org == a.org
    && (pb.role !in {"", "none", "automatic"} ==> r.status == WaitingForApproval)
    && (pb.role in {"", "none", "automatic"} ==> r.status == if pb.auto then Resolved else Open)
  }

  /** An enabled playbook the organization sees, and whose trigger fits the anomaly, each operator read as it is. */
  predicate Triggered(pb: Playbook, a: Anomaly, org: Org) {
    pb.enabled && (org == None || pb.org == None || pb.org == org)
    && pb.trigger.Anomaly? && pb.trigger.metric == a.metric
    && (pb.trigger.category == "" || pb.trigger.category == a.category)
    && var v, t := a.value, pb.trigger.threshold;
       match pb.trigger.operator
       case ">" => v > t
       case "<" => v < t
       case ">=" => v >= t
       case "<=" => v <= t
       case "==" => v == t
       case "equals" => v == t
       case _ => false
  }

  lemma TriggeredExactly(pb: Playbook, a: Anomaly, org: Org)
    ensures Visible(pb.org, org) && Matches(pb, a) <==> Triggered(pb, a, org)
  {
  }

  /** A run of this anomaly for one of these playbooks. */
  predicate MadeFor(r: Run, a: Anomaly, pbs: seq<Playbook>) { exists pb :: pb in pbs && MadeBy(r, pb, a) }

  lemma {:induction false} RecordEachExactly(runs: seq<Run>, seen: set<Key>, a: Anomaly, pbs: seq<Playbook>, n: nat)
    requires n <= |pbs|
    ensures runs <= RecordEach(runs, seen, a, pbs, n).runs
    ensures forall i :: |runs| <= i < |RecordEach(runs, seen, a, pbs, n).runs| ==>
              MadeFor(RecordEach(runs, seen, a, pbs, n).runs[i], a, pbs)
  {
    if n > 0 {
      RecordEachExactly(runs, seen, a, pbs, n - 1);
      assert MadeBy(NewRun(a, pbs[n - 1]), pbs[n - 1], a);
    }
  }

  /** A run made for a playbook that the anomaly triggers. */
  predicate MadeForTriggered(r: Run, pbs: seq<Playbook>, a: Anomaly, org: Org) {
    exists pb :: pb in pbs && Triggered(pb, a, org) && MadeBy(r, pb, a)
  }

  lemma MadeForMatches(r: Run, pbs: seq<Playbook>, a: Anomaly, org: Org)
    requires MadeFor(r, a, MatchesOf(pbs, a, org))
    ensures MadeForTriggered(r, pbs, a, org)
  {
    var pb :| pb in MatchesOf(pbs, a, org) && MadeBy(r, pb, a);
    MatchesOfExactly(pbs, a, org, pb);
    TriggeredExactly(pb, a, org);
  }

  /**
   * Ingesting an anomaly keeps every run, adds only runs of playbooks it triggers, and leaves none of those
   * without a run; it leaves the anomaly with an incident, made only if there was none. All is done under the
   * anomaly's own id or, without one, the digest of its timestamp, metric, value and category.
   */
  lemma IngestRecordsExactly(digest: IdDigest, t: Tables, pbs: seq<Playbook>, a: Anomaly, org: Org, limit: nat)
    ensures var id := if a.id.Some? then a.id else Some(digest(a.timestamp, a.metric, a.value, a.category));
            var b, after := a.(id := id, org := org), Ingest(digest, t, pbs, a, org, true, limit);
            t.runs <= after.runs
            && (forall i :: |t.runs| <= i < |after.runs| ==> MadeForTriggered(after.runs[i], pbs, b, org))
            && (forall pb :: pb in pbs && Triggered(pb, b, org) ==>
                  exists i :: 0 <= i < |after.runs| && RunOf(after.runs[i], pb, b))
            && after.incidents
               == if exists i :: 0 <= i < |t.incidents| && t.incidents[i] == Incident(org, id) then t.incidents
                  else t.incidents + [Incident(org, id)]
  {
    var stored := WithId(digest, a);
    var b, matches, seen := stored.(org := org), IngestMatches(pbs, stored, org), LatestKeys(t.runs, org, limit);
    var after := Ingest(digest, t, pbs, a, org, true, limit).runs;
    RecordEachExactly(t.runs, seen, b, matches, |matches|);
    LatestKeysSound(t.runs, org, limit, b.id);
    forall i | |t.runs| <= i < |after| ensures MadeForTriggered(after[i], pbs, b, org) {
      MadeForMatches(after[i], pbs, b, org);
    }
    forall pb | pb in pbs && Triggered(pb, b, org) ensures exists i :: 0 <= i < |after| && RunOf(after[i], pb, b) {
      TriggeredExactly(pb, b, org);
      MatchesOfExactly(pbs, b, org, pb);
      var i :| 0 <= i < |matches| && matches[i] == pb;
      AllRecorded(t.runs, seen, b, matches, |matches|, i);
      RecordedIsRun(after, pb, b);
    }
    OwnIncident(t.incidents, stored, org);
  }

  lemma RecordedIsRun(runs: seq<Run>, pb: Playbook, a: Anomaly)
    requires Recorded(runs, pb.id, a.id)
    ensures exists i :: 0 <= i < |runs| && RunOf(runs[i], pb, a)
  {
    var i :| 0 <= i < |runs| && runs[i].playbookId == pb.id && runs[i].anomalyId == a.id;
    assert RunOf(runs[i], pb, a);
  }

  lemma OwnIncident(incidents: seq<Incident>, a: Anomaly, org: Org)
    requires a.id.Some?
    ensures WithIncident(incidents, a, org)
            == if exists i :: 0 <= i < |incidents| && incidents[i] == Incident(org, a.id) then incidents
               else incidents + [Incident(org, a.id)]
  {
    if HasIncident(incidents, a.id, org) {
      var i :| 0 <= i < |incidents| && incidents[i].anomalyId == a.id && incidents[i].org == org;
      assert incidents[i] == Incident(org, a.id);
    }
  }

  // Ingesting again.

  lemma {:induction false} AllRecorded(runs: seq<Run>, seen: set<Key>, a: Anomaly, pbs: seq<Playbook>, n: nat, i: nat)
    requires a.id.Some? && SoundFor(seen, runs, a.id) && i < n <= |pbs|
    ensures Recorded(RecordEach(runs, seen, a, pbs, n).runs, pbs[i].id, a.id)
  {
    SeenIrrelevant(runs, seen, seen, a, pbs, n - 1);
    var before := RecordEach(runs, seen, a, pbs, n - 1);
    RecordKeepsSound(before.runs, before.seen, a, pbs[n - 1]);
    if i < n - 1 {
      AllRecorded(runs, seen, a, pbs, n - 1, i);
      RecordedStays(before.runs, RecordEach(runs, seen, a, pbs, n).runs, pbs[i].id, a.id);
    }
  }

  lemma {:induction false} NothingLeft(runs: seq<Run>, seen: set<Key>, a: Anomaly, pbs: seq<Playbook>, n: nat)
    requires n <= |pbs| && forall i :: 0 <= i < n ==> Recorded(runs, pbs[i].id, a.id)
    ensures RecordEach(runs, seen, a, pbs, n).runs == runs
  {
    if n > 0 { NothingLeft(runs, seen, a, pbs, n - 1); }
  }

  lemma StoredAgain(t: Tables, pbs: seq<Playbook>, a: Anomaly, org: Org, createRuns: bool, limit: nat)
    requires a.id.Some?
    ensures var once := IngestStored(t, pbs, a, org, createRuns, limit);
            IngestStored(once, pbs, a, org, createRuns, limit) == once
  {
    var once := IngestStored(t, pbs, a, org, createRuns, limit);
    var b, matches := a.(org := org), IngestMatches(pbs, a, org);
    if !HasIncident(t.incidents, a.id, org) {
      assert once.incidents[|t.incidents|] == Incident(org, a.id);
    }
    assert HasIncident(once.incidents, a.id, org);
    if createRuns {
      LatestKeysSound(t.runs, org, limit, a.id);
      forall i | 0 <= i < |matches| ensures Recorded(once.runs, matches[i].id, b.id) {
        AllRecorded(t.runs, LatestKeys(t.runs, org, limit), b, matches, |matches|, i);
      }
      NothingLeft(once.runs, LatestKeys(once.runs, org, limit), b, matches, |matches|);
    }
  }

  /**
   * Ingesting an anomaly a second time adds nothing, whether or not it came with an id; nor does any
   * other anomaly that is given the same id, metric, category and value.
   */
  lemma ReingestAddsNothing(digest: IdDigest, t: Tables, pbs: seq<Playbook>, a: Anomaly, again: Anomaly, org: Org,
                            createRuns: bool, limit: nat)
    requires WithId(digest, again).(timestamp := a.timestamp, org := a.org) == WithId(digest, a)
    ensures var once := Ingest(digest, t, pbs, a, org, createRuns, limit);
            Ingest(digest, once, pbs, again, org, createRuns, limit) == once
  {
    var once, b, c := Ingest(digest, t, pbs, a, org, createRuns, limit), WithId(digest, a), WithId(digest, again);
    StoredAgain(t, pbs, b, org, createRuns, limit);
    SameMatches(pbs, b.(org := org), c.(org := org), org);
    var matches := IngestMatches(pbs, b, org);
    SameRuns(once.runs, LatestKeys(once.runs, org, limit), b.(org := org), c.(org := org), matches, |matches|);
  }

  lemma {:induction false} SameMatches(pbs: seq<Playbook>, a: Anomaly, b: Anomaly, org: Org)
    requires a.(timestamp := b.timestamp) == b
    ensures MatchesOf(pbs, a, org) == MatchesOf(pbs, b, org)
  {
    if pbs != [] { SameMatches(pbs[1..], a, b, org); }
  }

  lemma {:induction false} SameRuns(runs: seq<Run>, seen: set<Key>, a: Anomaly, b: Anomaly, pbs: seq<Playbook>, n: nat)
    requires a.(timestamp := b.timestamp) == b && n <= |pbs|
    ensures RecordEach(runs, seen, a, pbs, n) == RecordEach(runs, seen, b, pbs, n)
  {
    if n > 0 { SameRuns(runs, seen, a, b, pbs, n - 1); }
  }

  /** The tables as they are updated in place. */
  class Workspace {
    var tables: Tables
    var playbooks: seq<Playbook>
    const digest: IdDigest

    constructor (pbs: seq<Playbook>, digest: IdDigest)
      ensures tables == Tables([], []) && playbooks == pbs && this.digest == digest
    {
      tables, playbooks, this.digest := Tables([], []), pbs, digest;
    }

    /** `_record_playbook_run`: returns the run made and the grown `seen`. */
    method RecordRun(a: Anomaly, pb: Playbook, seen: set<Key>) returns (made: Option<Run>, grown: set<Key>)
      modifies this`tables
      ensures tables == old(tables).(runs := Record(old(tables.runs), seen, a, pb).runs)
      ensures Outcome(tables.runs, grown, made) == Record(old(tables.runs), seen, a, pb)
      ensures made.Some? <==> Key(pb.id, a.id) !in seen
                              && !exists i :: 0 <= i < |old(tables.runs)| && RunOf(old(tables.runs)[i], pb, a)
      ensures made.Some? ==> MadeBy(made.value, pb, a) && tables.runs == old(tables.runs) + [made.value]
      ensures made.None? ==> tables.runs == old(tables.runs)
      ensures grown == seen + {Key(pb.id, a.id)}
    {
      grown := seen;
      var key := Key(pb.id, a.id);
      if key in grown { return None, grown; }
      grown := grown + {key};
      if Recorded(tables.runs, pb.id, a.id) { return None, grown; }
      var run := NewRun(a, pb);
      tables := tables.(runs := tables.runs + [run]);
      made := Some(run);
    }

    /** `create_incident_from_anomaly`, with the id `_persist_anomaly` gives first. */
    method CreateIncident(a: Anomaly, org: Org) returns (stored: Anomaly)
      modifies this`tables
      ensures stored == WithId(digest, a)
      ensures stored.id == if a.id.Some? then a.id else Some(digest(a.timestamp, a.metric, a.value, a.category))
      ensures tables == old(tables).(incidents := WithIncident(old(tables).incidents, stored, org))
    {
      stored := a;
      if stored.id.None? {
        stored := stored.(id := Some(digest(a.timestamp, a.metric, a.value, a.category)));
      }
      if !HasIncident(tables.incidents, stored.id, org) {
        tables := tables.(incidents := tables.incidents + [Incident(org, stored.id)]);
      }
    }

    /** `ingest_anomaly_workflow`. */
    method IngestAnomaly(a: Anomaly, org: Org, createRuns: bool) returns (made: seq<Run>)
      modifies this`tables
      ensures tables == Ingest(digest, old(tables), playbooks, a, org, createRuns, LATEST)
      ensures tables.runs == old(tables).runs + made
    {
      var stored := CreateIncident(a, org);
      made := [];
      if createRuns {
        ghost var runs := tables.runs;
        var workflowAnomaly := stored.(org := org);
        var seen := LatestKeys(tables.runs, org, LATEST);
        ghost var first := seen;
        var matches := IngestMatches(playbooks, stored, org);
        for n := 0 to |matches|
          invariant tables == old(tables).(incidents := WithIncident(old(tables).incidents, stored, org),
                                           runs := tables.runs)
          invariant tables.runs == RecordEach(runs, first, workflowAnomaly, matches, n).runs == runs + made
          invariant seen == RecordEach(runs, first, workflowAnomaly, matches, n).seen
        {
          var run;
          run, seen := RecordRun(workflowAnomaly, matches[n], seen);
          if run.Some? { made := made + [run.value]; }
        }
      }
    }

    /** `apply_playbooks`. */
    method ApplyPlaybooks(anomalies: seq<Anomaly>)
      modifies this`tables
      ensures tables == After(digest, old(tables), playbooks, ApplyCall(anomalies))
    {
      ghost var runs := tables.runs;
      var seen := LatestKeys(tables.runs, None, LATEST);
      ghost var first := seen;
      for k := 0 to |anomalies|
        invariant tables == old(tables).(runs := tables.runs)
        invariant tables.runs == Apply(runs, first, playbooks, anomalies, k).runs
        invariant seen == Apply(runs, first, playbooks, anomalies, k).seen
      {
        var a := anomalies[k];
        var matches := MatchesOf(playbooks, a, a.org);
        ghost var runsBefore, seenBefore := tables.runs, seen;
        for n := 0 to |matches|
          invariant tables == old(tables).(runs := tables.runs)
          invariant tables.runs == RecordEach(runsBefore, seenBefore, a, matches, n).runs
          invariant seen == RecordEach(runsBefore, seenBefore, a, matches, n).seen
        {
          var run;
          run, seen := RecordRun(a, matches[n], seen);
        }
      }
    }
  }
}
