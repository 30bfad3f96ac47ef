/**
 * Ingestions in step with one another. Each looks for a row in one query and inserts it in a later one, and the
 * queries of different workers interleave freely. A unique index guards the playbook runs; incidents have none.
 */
module IngestionRuns {
  import opened Wrappers
  import opened Ingestion

  datatype Job =
    | IngestJob(a: Anomaly, org: Org, createRuns: bool)
    | TriggerJob(id: string, a: Anomaly, pb: Playbook)    // a playbook triggered for a stored anomaly

  /** Where a worker stands; `read` are the playbooks it has read, `k` counts those it is done with. */
  datatype Stage =
    | LookingForIncident
    | InsertingIncident
    | Gathering
    | LookingForRun(read: seq<Playbook>, k: nat, seen: set<Key>)
    | InsertingRun(read: seq<Playbook>, k: nat, seen: set<Key>)
    | Done(read: seq<Playbook>)
    | Failed                                              // the unique index refused a run

  datatype Worker = Worker(job: Job, stage: Stage)

  datatype World = World(tables: Tables, workers: map<nat, Worker>)

  /** The anomaly as its runs are made for it: it has an id. */
  function Subject(digest: IdDigest, job: Job): (a: Anomaly)
    ensures a.id.Some?
  {
    match job
    case IngestJob(a, org, _) => WithId(digest, a).(org := org)
    case TriggerJob(id, a, _) => a.(id := Some(id))
  }

  function MatchesFor(digest: IdDigest, job: Job, read: seq<Playbook>): seq<Playbook> {
    match job
    case IngestJob(_, org, _) => MatchesOf(read, Subject(digest, job), org)
    case TriggerJob(_, _, pb) => [pb]
  }

  function FirstStage(job: Job): Stage {
    if job.IngestJob? then LookingForIncident else LookingForRun([], 0, {})
  }

  function AfterIncident(job: Job): Stage {
    if job.IngestJob? && job.createRuns then Gathering else Done([])
  }

  function OrgOf(job: Job): Org { if job.IngestJob? then job.org else job.a.org }

  /** The next query of a worker, and the stage it leads to. */
  function NextOf(digest: IdDigest, t: Tables, x: Worker, pbs: seq<Playbook>): (Tables, Stage) {
    var a, org := Subject(digest, x.job), OrgOf(x.job);
    match x.stage
    case LookingForIncident =>
      (t, if HasIncident(t.incidents, a.id, org) then AfterIncident(x.job) else InsertingIncident)
    case InsertingIncident =>
      (t.(incidents := t.incidents + [Incident(org, a.id)]), AfterIncident(x.job))
    case Gathering => (t, LookingForRun(pbs, 0, LatestKeys(t.runs, org, LATEST)))
    case LookingForRun(read, k, seen) =>
      var matches := MatchesFor(digest, x.job, read);
      if k >= |matches| then (t, Done(read))
      else if Key(matches[k].id, a.id) in seen then (t, LookingForRun(read, k + 1, seen))
      else if Recorded(t.runs, matches[k].id, a.id) then
        (t, LookingForRun(read, k + 1, seen + {Key(matches[k].id, a.id)}))
      else (t, InsertingRun(read, k, seen))
    case InsertingRun(read, k, seen) =>
      var matches := MatchesFor(digest, x.job, read);
      if k >= |matches| || Recorded(t.runs, matches[k].id, a.id) then (t, Failed)
      else (t.(runs := t.runs + [NewRun(a, matches[k])]),
            LookingForRun(read, k + 1, seen + {Key(matches[k].id, a.id)}))
    case _ => (t, x.stage)
  }

  /** A worker starts or makes its next query, someone records a run without an anomaly, or a worker vanishes. */
  datatype Step =
    | Start(h: nat, job: Job)
    | Advance(h: nat, pbs: seq<Playbook>)
    | Manual(org: Org, pb: Playbook)
    | Abort(h: nat)

  predicate Enabled(w: World, s: Step) {
    match s
    case Start(h, _) => h !in w.workers
    case Advance(h, _) => h in w.workers
    case Manual(_, _) => true
    case Abort(h) => h in w.workers
  }

  function Advanced(digest: IdDigest, w: World, h: nat, pbs: seq<Playbook>): World
    requires h in w.workers
  {
    var x := w.workers[h];
    var (t, stage) := NextOf(digest, w.tables, x, pbs);
    World(t, w.workers[h := Worker(x.job, stage)])
  }

  function ApplyStep(digest: IdDigest, w: World, s: Step): World
    requires Enabled(w, s)
  {
    match s
    case Start(h, job) => w.(workers := w.workers[h := Worker(job, FirstStage(job))])
    case Advance(h, pbs) => Advanced(digest, w, h, pbs)
    case Manual(org, pb) => w.(tables := w.tables.(runs := w.tables.runs + [Run(org, pb.id, None, Open)]))
    case Abort(h) => w.(workers := w.workers - {h})
  }

  ghost predicate Next(digest: IdDigest, w: World, w': World) {
    exists s :: Enabled(w, s) && w' == ApplyStep(digest, w, s)
  }

  ghost predicate StepAt(digest: IdDigest, run: seq<World>, i: nat)
    requires 0 < i < |run|
  {
    Next(digest, run[i - 1], run[i])
  }

  /** A run starts without workers, from tables without duplicates. */
  ghost predicate Execution(digest: IdDigest, run: seq<World>) {
    |run| > 0 && run[0].workers == map[]
    && UniqueRuns(run[0].tables.runs) && UniqueIncidents(run[0].tables.incidents)
    && forall i :: 0 < i < |run| ==> StepAt(digest, run, i)
  }

  // What every interleaving keeps.

  /** The first `n` matching playbooks have their run. */
  predicate AllRun(runs: seq<Run>, matches: seq<Playbook>, n: nat, id: Option<string>)
    requires n <= |matches|
  {
    forall i :: 0 <= i < n ==> Recorded(runs, matches[i].id, id)
  }

  predicate StageSound(digest: IdDigest, t: Tables, x: Worker) {
    var a := Subject(digest, x.job);
    var has := x.job.IngestJob? ==> HasIncident(t.incidents, a.id, x.job.org);
    var runs := x.job.IngestJob? ==> x.job.createRuns;
    match x.stage
    case LookingForIncident | InsertingIncident => x.job.IngestJob?
    case Gathering => has && runs
    case LookingForRun(read, k, seen) =>
      has && runs && k <= |MatchesFor(digest, x.job, read)| && SoundFor(seen, t.runs, a.id)
      && AllRun(t.runs, MatchesFor(digest, x.job, read), k, a.id)
    case InsertingRun(read, k, seen) =>
      has && runs && k < |MatchesFor(digest, x.job, read)| && SoundFor(seen, t.runs, a.id)
      && AllRun(t.runs, MatchesFor(digest, x.job, read), k, a.id)
    case Done(read) =>
      has && (runs ==> AllRun(t.runs, MatchesFor(digest, x.job, read), |MatchesFor(digest, x.job, read)|, a.id))
    case Failed => true
  }

  ghost predicate Inv(digest: IdDigest, w: World) {
    UniqueRuns(w.tables.runs) && forall h :: h in w.workers ==> StageSound(digest, w.tables, w.workers[h])
  }

  predicate Grows(t: Tables, u: Tables) { t.runs <= u.runs && t.incidents <= u.incidents }

  lemma GrownHas(t: Tables, u: Tables, id: Option<string>, org: Org)
    requires Grows(t, u) && HasIncident(t.incidents, id, org)
    ensures HasIncident(u.incidents, id, org)
  {
    var i :| 0 <= i < |t.incidents| && t.incidents[i].anomalyId == id && t.incidents[i].org == org;
    assert u.incidents[i] == t.incidents[i];
  }

  lemma GrownSound(t: Tables, u: Tables, seen: set<Key>, id: Option<string>)
    requires Grows(t, u) && SoundFor(seen, t.runs, id)
    ensures SoundFor(seen, u.runs, id)
  {
    forall k | k in seen && k.anomalyId == id ensures Recorded(u.runs, k.playbookId, id) {
      RecordedStays(t.runs, u.runs, k.playbookId, id);
    }
  }

  lemma GrownAllRun(t: Tables, u: Tables, matches: seq<Playbook>, n: nat, id: Option<string>)
    requires Grows(t, u) && n <= |matches| && AllRun(t.runs, matches, n, id)
    ensures AllRun(u.runs, matches, n, id)
  {
    forall i | 0 <= i < n ensures Recorded(u.runs, matches[i].id, id) {
      RecordedStays(t.runs, u.runs, matches[i].id, id);
    }
  }

  /** No worker is hurt by what others add. */
  lemma GrownStage(digest: IdDigest, t: Tables, u: Tables, x: Worker)
    requires Grows(t, u) && StageSound(digest, t, x)
    ensures StageSound(digest, u, x)
  {
    var a, org := Subject(digest, x.job), OrgOf(x.job);
    if HasIncident(t.incidents, a.id, org) { GrownHas(t, u, a.id, org); }
    if x.stage.LookingForRun? || x.stage.InsertingRun? {
      GrownSound(t, u, x.stage.seen, a.id);
      GrownAllRun(t, u, MatchesFor(digest, x.job, x.stage.read), x.stage.k, a.id);
    } else if x.stage.Done? && (x.job.IngestJob? ==> x.job.createRuns) {
      var matches := MatchesFor(digest, x.job, x.stage.read);
      GrownAllRun(t, u, matches, |matches|, a.id);
    }
  }

  /** A run is inserted only where the index has none. */
  lemma InsertedRun(runs: seq<Run>, a: Anomaly, pb: Playbook)
    requires UniqueRuns(runs) && a.id.Some? && !Recorded(runs, pb.id, a.id)
    ensures UniqueRuns(runs + [NewRun(a, pb)]) && Recorded(runs + [NewRun(a, pb)], pb.id, a.id)
  {
    assert (runs + [NewRun(a, pb)])[|runs|] == NewRun(a, pb);
  }

  lemma AdvanceGrows(digest: IdDigest, t: Tables, x: Worker, pbs: seq<Playbook>)
    requires UniqueRuns(t.runs)
    ensures Grows(t, NextOf(digest, t, x, pbs).0) && UniqueRuns(NextOf(digest, t, x, pbs).0.runs)
  {
    if x.stage.InsertingRun? {
      var a, matches := Subject(digest, x.job), MatchesFor(digest, x.job, x.stage.read);
      var k := x.stage.k;
      if k < |matches| && !Recorded(t.runs, matches[k].id, a.id) { InsertedRun(t.runs, a, matches[k]); }
    }
  }

  lemma IncidentStageKeeps(digest: IdDigest, t: Tables, x: Worker, pbs: seq<Playbook>)
    requires StageSound(digest, t, x)
    requires x.stage.LookingForIncident? || x.stage.InsertingIncident? || x.stage.Gathering?
    ensures StageSound(digest, NextOf(digest, t, x, pbs).0, Worker(x.job, NextOf(digest, t, x, pbs).1))
  {
    var a := Subject(digest, x.job);
    if x.stage.InsertingIncident? {
      var u := NextOf(digest, t, x, pbs).0;
      assert u.incidents[|t.incidents|] == Incident(x.job.org, a.id);
    }
    LatestKeysSound(t.runs, OrgOf(x.job), LATEST, a.id);
  }

  lemma LookingKeeps(digest: IdDigest, t: Tables, x: Worker, pbs: seq<Playbook>)
    requires StageSound(digest, t, x) && x.stage.LookingForRun?
    ensures StageSound(digest, NextOf(digest, t, x, pbs).0, Worker(x.job, NextOf(digest, t, x, pbs).1))
  {
  }

  lemma InsertingKeeps(digest: IdDigest, t: Tables, x: Worker, pbs: seq<Playbook>)
    requires StageSound(digest, t, x) && x.stage.InsertingRun? && UniqueRuns(t.runs)
    ensures StageSound(digest, NextOf(digest, t, x, pbs).0, Worker(x.job, NextOf(digest, t, x, pbs).1))
  {
    var a, matches := Subject(digest, x.job), MatchesFor(digest, x.job, x.stage.read);
    var k := x.stage.k;
    if !Recorded(t.runs, matches[k].id, a.id) {
      InsertedRun(t.runs, a, matches[k]);
      var u := NextOf(digest, t, x, pbs).0;
      GrownStage(digest, t, u, x);
    }
  }

  lemma StageKeeps(digest: IdDigest, t: Tables, x: Worker, pbs: seq<Playbook>)
    requires StageSound(digest, t, x) && UniqueRuns(t.runs)
    ensures StageSound(digest, NextOf(digest, t, x, pbs).0, Worker(x.job, NextOf(digest, t, x, pbs).1))
  {
    if x.stage.LookingForRun? {
      LookingKeeps(digest, t, x, pbs);
    } else if x.stage.InsertingRun? {
      InsertingKeeps(digest, t, x, pbs);
    } else if !x.stage.Done? && !x.stage.Failed? {
      IncidentStageKeeps(digest, t, x, pbs);
    }
  }

  lemma AdvanceKeeps(digest: IdDigest, w: World, h: nat, pbs: seq<Playbook>)
    requires Inv(digest, w) && h in w.workers
    ensures Inv(digest, Advanced(digest, w, h, pbs))
  {
    var w' := Advanced(digest, w, h, pbs);
    AdvanceGrows(digest, w.tables, w.workers[h], pbs);
    StageKeeps(digest, w.tables, w.workers[h], pbs);
    forall g | g in w'.workers ensures StageSound(digest, w'.tables, w'.workers[g]) {
      if g != h { GrownStage(digest, w.tables, w'.tables, w.workers[g]); }
    }
  }

  lemma StepKeeps(digest: IdDigest, w: World, s: Step)
    requires Inv(digest, w) && Enabled(w, s)
    ensures Inv(digest, ApplyStep(digest, w, s))
  {
    match s
    case Advance(h, pbs) => AdvanceKeeps(digest, w, h, pbs);
    case Manual(org, pb) =>
      forall g | g in w.workers ensures StageSound(digest, ApplyStep(digest, w, s).tables, w.workers[g]) {
        GrownStage(digest, w.tables, ApplyStep(digest, w, s).tables, w.workers[g]);
      }
    case _ =>
  }

  lemma {:induction false} ExecutionKeeps(digest: IdDigest, run: seq<World>, i: nat)
    requires Execution(digest, run) && i < |run|
    ensures Inv(digest, run[i])
  {
    if i > 0 {
      ExecutionKeeps(digest, run, i - 1);
      assert StepAt(digest, run, i);
      var s :| Enabled(run[i - 1], s) && run[i] == ApplyStep(digest, run[i - 1], s);
      StepKeeps(digest, run[i - 1], s);
    }
  }

  /** However workers interleave, an anomaly never has two runs of one playbook. */
  lemma RunsStayUnique(digest: IdDigest, run: seq<World>, i: nat)
    requires Execution(digest, run) && i < |run|
    ensures UniqueRuns(run[i].tables.runs)
  {
    ExecutionKeeps(digest, run, i);
  }

  /** An ingestion that returns has its incident and a run of every playbook it set off, whatever else ran. */
  lemma FinishedMeansRecorded(digest: IdDigest, run: seq<World>, i: nat, h: nat, pb: Playbook)
    requires Execution(digest, run) && i < |run| && h in run[i].workers
    requires run[i].workers[h].job.IngestJob? && run[i].workers[h].stage.Done?
    ensures var job, t := run[i].workers[h].job, run[i].tables; var a := Subject(digest, job);
            HasIncident(t.incidents, a.id, job.org)
            && (job.createRuns && pb in run[i].workers[h].stage.read && Visible(pb.org, job.org) && Matches(pb, a) ==>
                  Recorded(t.runs, pb.id, a.id))
  {
    ExecutionKeeps(digest, run, i);
    var x := run[i].workers[h];
    assert StageSound(digest, run[i].tables, x);
    MatchesOfExactly(x.stage.read, Subject(digest, x.job), x.job.org, pb);
  }

  // What goes wrong, and exactly when.

  predicate AboutToRun(digest: IdDigest, x: Worker, p: nat, id: Option<string>) {
    x.stage.InsertingRun? && Subject(digest, x.job).id == id
    && var matches := MatchesFor(digest, x.job, x.stage.read);
       x.stage.k < |matches| && matches[x.stage.k].id == p
  }

  /** Two workers looked for the same incident or the same run, found none, and are about to insert it. */
  predicate Collide(digest: IdDigest, x: Worker, y: Worker) {
    (x.stage.InsertingIncident? && y.stage.InsertingIncident?
     && Subject(digest, x.job).id == Subject(digest, y.job).id && OrgOf(x.job) == OrgOf(y.job))
    || (x.stage.InsertingRun?
        && var matches := MatchesFor(digest, x.job, x.stage.read);
           x.stage.k < |matches| && AboutToRun(digest, y, matches[x.stage.k].id, Subject(digest, x.job).id))
  }

  ghost predicate Apart(digest: IdDigest, w: World) {
    forall g, h :: g in w.workers && h in w.workers && g != h ==> !Collide(digest, w.workers[g], w.workers[h])
  }

  /** What a worker is about to insert is still missing. */
  predicate NotYet(digest: IdDigest, t: Tables, x: Worker) {
    var a := Subject(digest, x.job);
    (x.stage.InsertingIncident? ==> !HasIncident(t.incidents, a.id, OrgOf(x.job)))
    && (x.stage.InsertingRun? ==>
          var matches := MatchesFor(digest, x.job, x.stage.read);
          x.stage.k < |matches| && !Recorded(t.runs, matches[x.stage.k].id, a.id))
  }

  ghost predicate Clean(digest: IdDigest, w: World) {
    UniqueIncidents(w.tables.incidents)
    && forall h :: h in w.workers ==> !w.workers[h].stage.Failed? && NotYet(digest, w.tables, w.workers[h])
  }

  lemma OtherStaysMissing(digest: IdDigest, t: Tables, x: Worker, y: Worker, pbs: seq<Playbook>)
    requires NotYet(digest, t, x) && NotYet(digest, t, y) && !Collide(digest, x, y)
    ensures NotYet(digest, NextOf(digest, t, x, pbs).0, y)
  {
  }

  lemma AdvanceIsClean(digest: IdDigest, t: Tables, x: Worker, pbs: seq<Playbook>)
    requires UniqueIncidents(t.incidents) && NotYet(digest, t, x) && !x.stage.Failed?
    ensures var (u, stage) := NextOf(digest, t, x, pbs);
            UniqueIncidents(u.incidents) && !stage.Failed? && NotYet(digest, u, Worker(x.job, stage))
  {
  }

  lemma StepIsClean(digest: IdDigest, w: World, s: Step)
    requires Clean(digest, w) && Apart(digest, w) && Enabled(w, s)
    ensures Clean(digest, ApplyStep(digest, w, s))
  {
    var w' := ApplyStep(digest, w, s);
    if s.Advance? {
      AdvanceIsClean(digest, w.tables, w.workers[s.h], s.pbs);
      forall g | g in w.workers && g != s.h ensures NotYet(digest, w'.tables, w.workers[g]) {
        OtherStaysMissing(digest, w.tables, w.workers[s.h], w.workers[g], s.pbs);
      }
    }
  }

  /** As long as no two workers collide, no incident is doubled and no worker fails. */
  lemma {:induction false} WithoutCollisionClean(digest: IdDigest, run: seq<World>, i: nat)
    requires Execution(digest, run) && i < |run| && forall j :: 0 <= j < i ==> Apart(digest, run[j])
    ensures Clean(digest, run[i])
  {
    if i > 0 {
      WithoutCollisionClean(digest, run, i - 1);
      assert StepAt(digest, run, i);
      var s :| Enabled(run[i - 1], s) && run[i] == ApplyStep(digest, run[i - 1], s);
      StepIsClean(digest, run[i - 1], s);
    }
  }

  /** Whoever inserts second of two colliding workers doubles the incident, or is refused the run. */
  lemma CollisionBreaks(digest: IdDigest, t: Tables, x: Worker, y: Worker, pbs: seq<Playbook>, qbs: seq<Playbook>)
    requires UniqueRuns(t.runs) && Collide(digest, x, y)
    ensures var u := NextOf(digest, t, x, pbs).0; var (v, stage) := NextOf(digest, u, y, qbs);
            !UniqueIncidents(v.incidents) || stage.Failed?
    ensures x.stage.InsertingRun? ==>
              var u := NextOf(digest, t, x, pbs).0; NextOf(digest, u, y, qbs) == (u, Failed)
  {
    var a, u := Subject(digest, x.job), NextOf(digest, t, x, pbs).0;
    if x.stage.InsertingIncident? {
      var v, n := NextOf(digest, u, y, qbs).0, |t.incidents|;
      assert v.incidents[n] == v.incidents[n + 1] == Incident(OrgOf(x.job), a.id);
    } else {
      var matches := MatchesFor(digest, x.job, x.stage.read);
      var k := x.stage.k;
      if !Recorded(t.runs, matches[k].id, a.id) { InsertedRun(t.runs, a, matches[k]); }
    }
  }

  /** In a world still clean, two workers' next queries do harm exactly when the two collide. */
  lemma HarmIffCollision(digest: IdDigest, w: World, g: nat, h: nat, pbs: seq<Playbook>, qbs: seq<Playbook>)
    requires Inv(digest, w) && Clean(digest, w) && g in w.workers && h in w.workers && g != h
    ensures var w' := Advanced(digest, Advanced(digest, w, g, pbs), h, qbs);
            UniqueIncidents(w'.tables.incidents) && !w'.workers[h].stage.Failed?
            <==> !Collide(digest, w.workers[g], w.workers[h])
  {
    var x, y := w.workers[g], w.workers[h];
    var w1 := Advanced(digest, w, g, pbs);
    assert w1.workers[h] == y && w1.tables == NextOf(digest, w.tables, x, pbs).0;
    if Collide(digest, x, y) {
      CollisionBreaks(digest, w.tables, x, y, pbs, qbs);
    } else {
      AdvanceIsClean(digest, w.tables, x, pbs);
      OtherStaysMissing(digest, w.tables, x, y, pbs);
      AdvanceIsClean(digest, w1.tables, y, qbs);
    }
  }

  /** The worlds of two workers that make their queries in turn. */
  function InTurn(digest: IdDigest, w: World, g: nat, h: nat, j: Job, k: Job): seq<World>
    requires g != h && g !in w.workers && h !in w.workers
  {
    var w1 := ApplyStep(digest, w, Start(g, j));
    var w2 := ApplyStep(digest, w1, Start(h, k));
    var w3 := Advanced(digest, w2, g, []);
    var w4 := Advanced(digest, w3, h, []);
    var w5 := Advanced(digest, w4, g, []);
    [w, w1, w2, w3, w4, w5, Advanced(digest, w5, h, [])]
  }

  lemma InTurnSteps(digest: IdDigest, w: World, g: nat, h: nat, j: Job, k: Job)
    requires g != h && w.workers == map[] && UniqueRuns(w.tables.runs) && UniqueIncidents(w.tables.incidents)
    ensures Execution(digest, InTurn(digest, w, g, h, j, k))
  {
    var run := InTurn(digest, w, g, h, j, k);
    assert run[1] == ApplyStep(digest, run[0], Start(g, j));
    assert run[2] == ApplyStep(digest, run[1], Start(h, k));
    assert run[3] == ApplyStep(digest, run[2], Advance(g, []));
    assert run[4] == ApplyStep(digest, run[3], Advance(h, []));
    assert run[5] == ApplyStep(digest, run[4], Advance(g, []));
    assert run[6] == ApplyStep(digest, run[5], Advance(h, []));
    assert forall i :: 0 < i < 7 ==> StepAt(digest, run, i);
  }

  /** Any anomaly without an incident can be ingested twice at once, and then has two incidents. */
  lemma IncidentCanDouble(digest: IdDigest, t: Tables, j: Job, k: Job) returns (run: seq<World>)
    requires UniqueRuns(t.runs) && UniqueIncidents(t.incidents)
    requires j.IngestJob? && k.IngestJob? && j.org == k.org && Subject(digest, j).id == Subject(digest, k).id
    requires !HasIncident(t.incidents, Subject(digest, j).id, j.org)
    ensures Execution(digest, run) && run[0].tables == t
    ensures run[|run| - 1].tables.incidents
            == t.incidents + [Incident(j.org, Subject(digest, j).id), Incident(j.org, Subject(digest, j).id)]
  {
    run := InTurn(digest, World(t, map[]), 0, 1, j, k);
    InTurnSteps(digest, World(t, map[]), 0, 1, j, k);
  }

  /** Any run still missing can be asked for twice at once: one is made, and the second request fails. */
  lemma RunCanBeRefused(digest: IdDigest, t: Tables, j: Job, k: Job) returns (run: seq<World>)
    requires UniqueRuns(t.runs) && UniqueIncidents(t.incidents)
    requires j.TriggerJob? && k.TriggerJob? && j.id == k.id && j.pb.id == k.pb.id
    requires !Recorded(t.runs, j.pb.id, Some(j.id))
    ensures Execution(digest, run) && run[0].tables == t
    ensures var last := run[|run| - 1];
            last.tables == t.(runs := t.runs + [NewRun(Subject(digest, j), j.pb)])
            && 1 in last.workers && last.workers[1] == Worker(k, Failed)
  {
    run := InTurn(digest, World(t, map[]), 0, 1, j, k);
    InTurnSteps(digest, World(t, map[]), 0, 1, j, k);
    InsertedRun(t.runs, Subject(digest, j), j.pb);
  }

  // A worker that is left alone.

  /** A worker after `n` queries of its own, with nothing in between. */
  function Alone(digest: IdDigest, t: Tables, x: Worker, pbs: seq<Playbook>, n: nat): (Tables, Stage)
    decreases n
  {
    if n == 0 then (t, x.stage)
    else
      var (u, stage) := NextOf(digest, t, x, pbs);
      Alone(digest, u, Worker(x.job, stage), pbs, n - 1)
  }

  /** One playbook takes a look and, unless its run is there already, an insertion. */
  lemma OnePlaybook(digest: IdDigest, t: Tables, job: Job, pbs: seq<Playbook>, k: nat, seen: set<Key>, n: nat)
      returns (m: nat)
    requires k < |MatchesFor(digest, job, pbs)|
    ensures var r := Record(t.runs, seen, Subject(digest, job), MatchesFor(digest, job, pbs)[k]);
            Alone(digest, t, Worker(job, LookingForRun(pbs, k, seen)), pbs, m)
            == Alone(digest, t.(runs := r.runs), Worker(job, LookingForRun(pbs, k + 1, r.seen)), pbs, n)
  {
    var a, pb := Subject(digest, job), MatchesFor(digest, job, pbs)[k];
    var looked := NextOf(digest, t, Worker(job, LookingForRun(pbs, k, seen)), pbs);
    if Key(pb.id, a.id) in seen || Recorded(t.runs, pb.id, a.id) {
      m := n + 1;
    } else {
      m := n + 2;
      assert looked == (t, InsertingRun(pbs, k, seen));
      assert Alone(digest, t, Worker(job, LookingForRun(pbs, k, seen)), pbs, m)
          == Alone(digest, t, Worker(job, InsertingRun(pbs, k, seen)), pbs, n + 1);
    }
  }

  /** The rest of the loop over the playbooks. */
  lemma {:induction false} AloneRecords(digest: IdDigest, t: Tables, job: Job, pbs: seq<Playbook>, runs: seq<Run>,
                                        seen: set<Key>, k: nat) returns (m: nat)
    requires k <= |MatchesFor(digest, job, pbs)|
    requires t.runs == RecordEach(runs, seen, Subject(digest, job), MatchesFor(digest, job, pbs), k).runs
    ensures var matches := MatchesFor(digest, job, pbs); var a := Subject(digest, job);
            var stage := LookingForRun(pbs, k, RecordEach(runs, seen, a, matches, k).seen);
            Alone(digest, t, Worker(job, stage), pbs, m)
            == (t.(runs := RecordEach(runs, seen, a, matches, |matches|).runs), Done(pbs))
    decreases |MatchesFor(digest, job, pbs)| - k
  {
    var a, matches := Subject(digest, job), MatchesFor(digest, job, pbs);
    if k == |matches| {
      m := 1;
      assert Alone(digest, t, Worker(job, Done(pbs)), pbs, 0) == (t, Done(pbs));
    } else {
      var before := RecordEach(runs, seen, a, matches, k);
      var u := t.(runs := RecordEach(runs, seen, a, matches, k + 1).runs);
      m := AloneRecords(digest, u, job, pbs, runs, seen, k + 1);
      m := OnePlaybook(digest, t, job, pbs, k, before.seen, m);
    }
  }

  lemma AloneFindsIncident(digest: IdDigest, t: Tables, pbs: seq<Playbook>, a: Anomaly, org: Org, createRuns: bool,
                           n: nat) returns (m: nat)
    ensures var job := IngestJob(a, org, createRuns);
            var u := t.(incidents := WithIncident(t.incidents, WithId(digest, a), org));
            Alone(digest, t, Worker(job, FirstStage(job)), pbs, m)
            == Alone(digest, u, Worker(job, AfterIncident(job)), pbs, n)
  {
    var job := IngestJob(a, org, createRuns);
    if HasIncident(t.incidents, Subject(digest, job).id, org) {
      m := n + 1;
    } else {
      m := n + 2;
      assert Alone(digest, t, Worker(job, LookingForIncident), pbs, m)
          == Alone(digest, t, Worker(job, InsertingIncident), pbs, n + 1);
    }
  }

  /** An ingestion that nothing interrupts does exactly what the sequential call does. */
  lemma AloneIngests(digest: IdDigest, t: Tables, pbs: seq<Playbook>, a: Anomaly, org: Org, createRuns: bool)
      returns (n: nat)
    ensures var job := IngestJob(a, org, createRuns);
            Alone(digest, t, Worker(job, FirstStage(job)), pbs, n)
            == (Ingest(digest, t, pbs, a, org, createRuns, LATEST), Done(if createRuns then pbs else []))
  {
    var job := IngestJob(a, org, createRuns);
    n := 0;
    var u := t.(incidents := WithIncident(t.incidents, WithId(digest, a), org));
    if createRuns {
      var seen := LatestKeys(t.runs, org, LATEST);
      n := AloneRecords(digest, u, job, pbs, t.runs, seen, 0);
      assert Alone(digest, u, Worker(job, Gathering), pbs, n + 1)
          == Alone(digest, u, Worker(job, LookingForRun(pbs, 0, seen)), pbs, n);
      n := n + 1;
    }
    n := AloneFindsIncident(digest, t, pbs, a, org, createRuns, n);
  }
}
