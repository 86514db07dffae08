/** The recovery-drill protocol: HTTP handlers, the bounded job queue and the workers of
    backend/internal/drill/worker.go acting on the shared tables, the object store and
    Docker. Every guarded SQL statement or row-locked transaction, every storage call and
    every sandbox call is one atomic action; an action carries the environment's choices,
    so a run of the system is a sequence of actions and `Replay` executes it. */
module Drills {
  import opened Prelude
  import opened Domain
  import opened Sandbox

  type Bytes = seq<int>

  // ------------------------------------------------------------------- evidence keys

  ghost predicate NoSlash(s: string) { '/' !in s }

  function EvidenceKey(org: string, id: string): string {
    org + "/drills/" + id + "/evidence/recovery.json"
  }

  /** A slash-free head is determined by the string that a slash ends it in. */
  lemma HeadUnique(a: string, b: string, s: string, t: string)
    requires NoSlash(a) && NoSlash(b)
    requires s != [] && t != [] && s[0] == '/' && t[0] == '/'
    requires a + s == b + t
    ensures a == b && s == t
  {
    var whole := a + s;
    assert forall i :: 0 <= i < |a| ==> whole[i] == a[i];
    assert forall i :: 0 <= i < |b| ==> whole[i] == b[i];
    assert whole[|a|] == s[0] && whole[|b|] == t[0];
    assert |a| == |b|;
    assert a == whole[..|a|] && b == whole[..|a|];
    assert s == whole[|a|..] && t == whole[|a|..];
  }

  /** Different drills never share an evidence key. */
  lemma EvidenceKeyInjective(org: string, id: string, org': string, id': string)
    requires NoSlash(org) && NoSlash(id) && NoSlash(org') && NoSlash(id')
    requires EvidenceKey(org, id) == EvidenceKey(org', id')
    ensures org == org' && id == id'
  {
    var tail := "/evidence/recovery.json";
    assert EvidenceKey(org, id) == org + ("/drills/" + id + tail);
    assert EvidenceKey(org', id') == org' + ("/drills/" + id' + tail);
    HeadUnique(org, org', "/drills/" + id + tail, "/drills/" + id' + tail);
    assert ("/drills/" + id + tail)[8..] == id + tail;
    assert ("/drills/" + id' + tail)[8..] == id' + tail;
    HeadUnique(id, id', tail, tail);
  }

  // --------------------------------------------------------------------------- tables

  datatype StepName =
    | FetchBackup | CreateSandbox | RestorePostgres | PostgresConnectivity | CollectEvidence
    | PrepareDrill  // the only step of a pool without executor or storage

  /** The fixed order in which a run records its steps. */
  const TIMELINE := [FetchBackup, CreateSandbox, RestorePostgres, PostgresConnectivity, CollectEvidence]

  datatype Row = Row(
    org: string, key: string, status: DrillStatus,
    startedAt: Option<int>, completedAt: Option<int>,
    rpo: Option<int>, rto: Option<int>, rpoResult: Option<PolicyResult>, rtoResult: Option<PolicyResult>,
    assessment: Option<Assessment>, confidence: Option<Confidence>)

  datatype Artifact = Artifact(drill: string, size: nat, sha: string)

  /** What a run really did, in order. */
  datatype Milestone =
    IntegrityChecked | SandboxReady | Restored | Connected | EvidenceStored | SandboxGone | Committed

  const JOURNEY := [IntegrityChecked, SandboxReady, Restored, Connected, EvidenceStored, SandboxGone, Committed]

  /** What a run reads about its drill, snapshot and policy. */
  datatype Snapshot = Snapshot(completedAt: int, checksum: string, storageKey: string,
                               rpoTarget: int, rtoTarget: int, required: seq<string>)
  datatype Job = Job(org: string, startedAt: int, snapshot: Snapshot)

  /** What a success rests on: the job, the time at which the recovery was ready, and the
      bytes of the backup that was restored. */
  datatype Basis = Basis(job: Job, readyAt: int, staged: Bytes)

  /** A drill: its row, the rows of `drill_steps`, `recovery_sandboxes`, `evidence` and
      `recovery_reports` that reference it, and history that the program does not store: how
      often it was claimed, by which worker, what was done for it, and what a success rests
      on. */
  datatype Drill = Drill(
    row: Row, steps: map<int, StepName>, sandboxed: bool, evidence: Option<string>, report: bool,
    claims: nat, claimant: Option<nat>, trace: seq<Milestone>, basis: Option<Basis>)

  /** `INSERT ... ON CONFLICT(drill_id,sequence) DO NOTHING`. */
  function InsertStep(steps: map<int, StepName>, n: int, step: StepName): map<int, StepName> {
    if n in steps then steps else steps[n := step]
  }

  /** The committed effect of `transition` on a row that allows it. */
  function Transitioned(d: Drill, to: DrillStatus, step: StepName, n: int, now: int): Drill {
    var started := if d.row.startedAt.Some? then d.row.startedAt else if to == Preparing then Some(now) else None;
    d.(row := d.row.(status := to, startedAt := started), steps := InsertStep(d.steps, n, step))
  }

  /** `setTerminal`: guarded by NOT IN the four terminal statuses. */
  function Terminated(d: Drill, status: DrillStatus, now: int): Drill {
    if Terminal(d.row.status) then d
    else d.(row := d.row.(status := status, completedAt := Some(now),
                          assessment := Some(if status == Failed then AssessmentFailed else AssessmentUnknown),
                          confidence := Some(Low)))
  }

  /** `CancelDrill`: guarded by IN the five active statuses. */
  function UserCancelled(d: Drill, now: int): Drill {
    var st := d.row.status;
    if st.Queued? || st.Preparing? || st.Restoring? || st.Validating? || st.Finalizing?
    then d.(row := d.row.(status := Cancelled, completedAt := Some(now)))
    else d
  }

  /** The row update of the final transaction. */
  function Completed(row: Row, job: Job, readyAt: int, now: int): Row {
    var (rpo, rpoState) := MeasureRPO(job.startedAt, job.snapshot.completedAt);
    var (rto, rtoState) := MeasureRTO(job.startedAt, readyAt);
    var verdict := Verdict(job.snapshot.required);
    row.(status := Succeeded, completedAt := Some(now), rpo := Some(rpo), rto := Some(rto),
         rpoResult := Some(EvaluatePolicy(rpo, rpoState, job.snapshot.rpoTarget)),
         rtoResult := Some(EvaluatePolicy(rto, rtoState, job.snapshot.rtoTarget)),
         assessment := Some(verdict), confidence := Some(ConfidenceIn(verdict)))
  }

  // --------------------------------------------------------------------- system state

  /** Where a run stands; each point names the next atomic action. */
  datatype Point =
    | Claim | Load | LoadFailed | Stage | MakeSandbox | Persist | RecordSandbox
    | ToRestoring | Restore | ToValidating | Connect | ToFinalizing
    | PutEvidence | DestroySandbox | Commit
    | DeleteThenFail | DeleteThenLeave
    | FailDecide | FailWrite(status: DrillStatus)
    | Cleanup | Done
    | PrepareOnly | GiveUp  // the branch without executor or object storage

  /** One in-flight call of `run`: `live` says that a sandbox exists which the deferred
      cleanup still has to destroy, `staged` is the backup in its temporary file. */
  datatype Run = Run(
    id: string, at: Point, ctxDone: bool, claimed: bool, live: bool, base: string,
    job: Option<Job>, staged: Bytes, readyAt: int, artifact: Option<Artifact>)

  datatype Response = Response(org: string, key: string, id: string, created: bool)

  /** Handlers and the worker pool, apart from the runs: `created` and `cancels` are
      requests between two of their steps, `responses` what create requests were told. */
  datatype Pool = Pool(
    index: map<(string, string), string>,  // UNIQUE(organization_id, idempotency_key)
    jobs: seq<string>, running: map<string, nat>, closed: bool,
    created: set<string>, cancels: multiset<(string, string)>, responses: seq<Response>)

  /** Docker, with the base names drawn so far and their drills; `leaked` are those whose
      cleanup left something, `faulty` says that some removal failed. */
  datatype DockerSide = DockerSide(docker: Docker, bases: map<string, string>, leaked: set<string>, faulty: bool)

  /** History: how often an ON CONFLICT branch was taken, the drills whose compensating
      delete failed, and those hit by a database error, a timeout, a shutdown or a cancel
      from another organisation. */
  datatype Log = Log(conflicts: nat, undeleted: set<string>, excused: set<string>)

  datatype State = State(
    drills: map<string, Drill>,
    artifacts: map<string, Artifact>,  // by UNIQUE storage_key
    objects: map<string, Bytes>,
    workers: map<nat, Run>,
    side: DockerSide,
    pool: Pool,
    log: Log)

  /** Fixed for the life of the process; `hash` is SHA-256 in hexadecimal. */
  datatype Config = Config(
    configured: bool, concurrency: nat, maxArtifactBytes: int, hash: Bytes -> string, docker: Docker)

  const QUEUE_CAPACITY := 100

  function Initial(c: Config, objects: map<string, Bytes>): State {
    State(map[], map[], objects, map[], DockerSide(c.docker, map[], {}, false),
          Pool(map[], [], map[], false, {}, multiset{}, []), Log(0, {}, {}))
  }

  // -------------------------------------------------------------------------- actions

  /** The environment's choices for one step of a run. */
  datatype Outcome = Outcome(
    ok: bool, now: int, snapshot: Snapshot, suffix: string, env: CreateEnv, faults: Faults, payload: Bytes)

  datatype Action =
    | CreateDrill(org: string, header: string, uuid: string, id: string, assetExists: bool)
    | Submit(id: string)     // by the handler that created the drill
    | Resubmit(id: string)   // any other call of `Submit`
    | CancelContext(org: string, id: string)
    | CancelRow(org: string, id: string, ok: bool, now: int)
    | Timeout(w: nat)
    | Shutdown
    | Dequeue(w: nat)
    | Step(w: nat, o: Outcome)

  function SetRun(s: State, w: nat, r: Run): State {
    s.(workers := s.workers[w := r])
  }

  function SetDrill(s: State, id: string, d: Drill): State {
    s.(drills := s.drills[id := d])
  }

  function Excuse(s: State, id: string, when: bool): State {
    if when then s.(log := s.log.(excused := s.log.excused + {id})) else s
  }

  /** Return from `run`: the deferred cleanup runs first when a sandbox is live. */
  function Leave(s: State, w: nat, r: Run): State {
    SetRun(s, w, r.(at := if r.live then Cleanup else Done))
  }

  function Reached(d: Drill, m: Milestone): Drill {
    d.(trace := d.trace + [m])
  }

  function Enqueue(s: State, id: string): State {
    if |s.pool.jobs| < QUEUE_CAPACITY then s.(pool := s.pool.(jobs := s.pool.jobs + [id])) else s
  }

  /** The handler is about to submit the drill it created. */
  function Taken(s: State, id: string): State {
    s.(pool := s.pool.(created := s.pool.created - {id}))
  }

  function ApplyCreate(s: State, org: string, header: string, uuid: string, id: string, assetExists: bool): State {
    var key := if header == "" then uuid else header;
    if (org, key) in s.pool.index then
      s.(pool := s.pool.(responses := s.pool.responses + [Response(org, key, s.pool.index[(org, key)], false)]))
    else if !assetExists || id in s.drills || '/' in id || '/' in org then s
    else
      var row := Row(org, key, Queued, None, None, None, None, None, None, None, None);
      s.(drills := s.drills[id := Drill(row, map[], false, None, false, 0, None, [], None)],
         pool := s.pool.(index := s.pool.index[(org, key) := id],
                         created := s.pool.created + {id},
                         responses := s.pool.responses + [Response(org, key, id, true)]))
  }

  function CancelRun(s: State, w: nat, why: bool): State {
    if w in s.workers then
      Excuse(SetRun(s, w, s.workers[w].(ctxDone := true)), s.workers[w].id, why)
    else s
  }

  function ApplyCancelContext(s: State, org: string, id: string): State {
    var foreign := id in s.drills && s.drills[id].row.org != org;
    var t := if id in s.pool.running then CancelRun(s, s.pool.running[id], foreign) else s;
    t.(pool := t.pool.(cancels := t.pool.cancels + multiset{(org, id)}))
  }

  function ApplyCancelRow(s: State, org: string, id: string, ok: bool, now: int): State {
    if (org, id) !in s.pool.cancels then s
    else
      var t := s.(pool := s.pool.(cancels := s.pool.cancels - multiset{(org, id)}));
      if !ok then Excuse(t, id, true)
      else if id in s.drills && s.drills[id].row.org == org then SetDrill(t, id, UserCancelled(s.drills[id], now))
      else t
  }

  function ApplyShutdown(s: State): State {
    s.(pool := s.pool.(closed := true),
       workers := map w | w in s.workers :: s.workers[w].(ctxDone := true),
       log := s.log.(excused := s.log.excused + set w | w in s.workers :: s.workers[w].id))
  }

  function ApplyDequeue(c: Config, s: State, w: nat): State {
    if w >= c.concurrency || w in s.workers || s.pool.jobs == [] then s
    else
      var id := s.pool.jobs[0];
      var r := Run(id, if c.configured then Claim else PrepareOnly, s.pool.closed, false, false, "", None, [], 0, None);
      s.(workers := s.workers[w := r], pool := s.pool.(jobs := s.pool.jobs[1..], running := s.pool.running[id := w]))
  }

  // ------------------------------------------------------------------- steps of a run

  /** `transition(baseCtx, id, to, step, n)` as run by worker `w`; a refused or failed
      transition makes the run return without touching the row. */
  function StepTransition(s: State, w: nat, o: Outcome, to: DrillStatus, step: StepName, n: int, next: Point): State
    requires w in s.workers
  {
    var r := s.workers[w];
    var t := Excuse(s, r.id, !o.ok);
    if !o.ok || r.ctxDone || r.id !in s.drills || !CanTransition(s.drills[r.id].row.status, to) then Leave(t, w, r)
    else
      var d := s.drills[r.id];
      var e := Transitioned(d, to, step, n, o.now);
      var claimed := if to == Preparing then e.(claims := d.claims + 1, claimant := Some(w)) else e;
      SetRun(SetDrill(t, r.id, claimed), w, r.(at := next, claimed := true))
        .(log := t.log.(conflicts := s.log.conflicts + if n in d.steps then 1 else 0))
  }

  /** The join that loads the drill, its snapshot and its policy. */
  function StepLoad(s: State, w: nat, o: Outcome): State
    requires w in s.workers
  {
    var r := s.workers[w];
    var t := Excuse(s, r.id, !o.ok);
    if !o.ok || r.ctxDone || r.id !in s.drills || s.drills[r.id].row.startedAt.None? || o.snapshot.storageKey == "" then
      SetRun(t, w, r.(at := LoadFailed))
    else
      var row := s.drills[r.id].row;
      SetRun(s, w, r.(at := Stage, job := Some(Job(row.org, row.startedAt.value, o.snapshot))))
  }

  /** `setTerminal` on whatever row is there now; `reachable` says whether the statement ran. */
  function StepTerminate(s: State, w: nat, status: DrillStatus, now: int, reachable: bool): State
    requires w in s.workers
  {
    var r := s.workers[w];
    var t := if reachable && r.id in s.drills then SetDrill(s, r.id, Terminated(s.drills[r.id], status, now)) else s;
    Leave(t, w, r)
  }

  function Lower(c: char): char {
    if 'A' <= c <= 'Z' then (c as int + 32) as char else c
  }

  predicate EqualHash(a: string, b: string) {
    |a| == |b| && forall i | 0 <= i < |a| :: Lower(a[i]) == Lower(b[i])
  }

  function ArtifactLimit(c: Config): int {
    if c.maxArtifactBytes <= 0 then 0x4000_0000 else c.maxArtifactBytes
  }

  const MAX_INT64 := 0x7FFF_FFFF_FFFF_FFFF

  /** How many of `n` bytes come through a reader limited to one byte more than allowed; at
      the largest 64-bit limit that one byte more wraps round and nothing is read. */
  function Staged(n: nat, limit: int): int {
    if limit >= MAX_INT64 then 0 else if n <= limit then n else limit + 1
  }

  /** The integrity check on a staged backup. */
  predicate IntegrityHolds(c: Config, content: Bytes, checksum: string) {
    var limit := ArtifactLimit(c);
    var written := Staged(|content|, limit);
    written <= limit && |content| == written && (checksum == "" || EqualHash(checksum, c.hash(content)))
  }

  /** Apply a milestone of the run's drill and move on. */
  function StepReach(s: State, w: nat, m: Milestone, r: Run): State
    requires w in s.workers
  {
    var id := s.workers[w].id;
    SetRun(if id in s.drills then SetDrill(s, id, Reached(s.drills[id], m)) else s, w, r)
  }

  /** The object at the snapshot's storage key. */
  function Download(s: State, r: Run): Bytes {
    if r.job.Some? && r.job.value.snapshot.storageKey in s.objects
    then s.objects[r.job.value.snapshot.storageKey] else []
  }

  predicate StagePasses(c: Config, s: State, r: Run, o: Outcome) {
    o.ok && r.job.Some? && r.job.value.snapshot.storageKey in s.objects
    && IntegrityHolds(c, Download(s, r), r.job.value.snapshot.checksum)
  }

  /** Reach a milestone and go on, or go to `fail`. */
  function ReachOrFail(s: State, w: nat, m: Milestone, next: Run, passed: bool): State
    requires w in s.workers
  {
    if passed then StepReach(s, w, m, next) else SetRun(s, w, s.workers[w].(at := FailDecide))
  }

  function StepStage(c: Config, s: State, w: nat, o: Outcome): State
    requires w in s.workers
  {
    var r := s.workers[w];
    ReachOrFail(s, w, IntegrityChecked, r.(at := MakeSandbox, staged := Download(s, r)), StagePasses(c, s, r, o))
  }

  /** Docker after work on the sandbox `base`; `left` says that something of it is still
      there although nobody is left to remove it. */
  function DockerDone(s: State, base: string, d: Docker, left: bool, fault: bool): State {
    s.(side := s.side.(docker := d, leaked := if left then s.side.leaked + {base} else s.side.leaked - {base},
                       faulty := s.side.faulty || fault))
  }

  function Drawn(s: State, base: string, id: string): State {
    s.(side := s.side.(bases := s.side.bases[base := id]))
  }

  function SandboxMade(s: State, w: nat, base: string, d: Docker, ok: bool, left: bool, fault: bool): State
    requires w in s.workers
  {
    var r := s.workers[w];
    var t := Drawn(DockerDone(s, base, d, left && !ok, fault && !ok), base, r.id);
    ReachOrFail(t, w, SandboxReady, r.(at := Persist, live := true, base := base), ok)
  }

  predicate BaseTaken(s: State, base: string) {
    base in s.side.bases || Residue(s.side.docker, base)
  }

  /** `Create`: an id without letters or digits is rejected before Docker is called. The
      random part of a base name is never drawn twice; a name that is taken fails like a
      network that already exists. */
  function StepMakeSandbox(s: State, w: nat, o: Outcome): State
    requires w in s.workers
  {
    var r := s.workers[w];
    var base := BaseName(Compact(r.id), o.suffix);
    if Compact(r.id) == "" || BaseTaken(s, base) then SetRun(s, w, r.(at := FailDecide))
    else
      var (d, ok) := Created(s.side.docker, base, o.env);
      SandboxMade(s, w, base, d, ok, Residue(d, base), o.env.faults != NO_FAULTS)
  }

  /** The insert into `recovery_sandboxes`, one row per drill. */
  function StepPersist(s: State, w: nat, o: Outcome): State
    requires w in s.workers
  {
    var r := s.workers[w];
    if !o.ok || r.ctxDone || r.id !in s.drills then
      SetRun(Excuse(s, r.id, !o.ok), w, r.(at := FailDecide))
    else
      var d := s.drills[r.id];
      SetRun(SetDrill(s, r.id, d.(sandboxed := true)), w, r.(at := RecordSandbox))
        .(log := s.log.(conflicts := s.log.conflicts + if d.sandboxed then 1 else 0))
  }

  /** `recordStep`: inserts the step without looking at the row's status. */
  function StepRecordSandbox(s: State, w: nat, o: Outcome): State
    requires w in s.workers
  {
    var r := s.workers[w];
    if !o.ok || r.ctxDone || r.id !in s.drills then Leave(Excuse(s, r.id, !o.ok), w, r)
    else
      var d := s.drills[r.id];
      SetRun(SetDrill(s, r.id, d.(steps := InsertStep(d.steps, 2, CreateSandbox))), w, r.(at := ToRestoring))
        .(log := s.log.(conflicts := s.log.conflicts + if 2 in d.steps then 1 else 0))
  }

  function StepPut(c: Config, s: State, w: nat, o: Outcome): State
    requires w in s.workers
  {
    var r := s.workers[w];
    if !o.ok || r.job.None? then SetRun(s, w, r.(at := FailDecide))
    else
      var t := s.(objects := s.objects[EvidenceKey(r.job.value.org, r.id) := o.payload]);
      StepReach(t, w, EvidenceStored,
                r.(at := DestroySandbox, artifact := Some(Artifact(r.id, |o.payload|, c.hash(o.payload)))))
  }

  function SandboxEnded(s: State, w: nat, d: Docker, ok: bool, left: bool, fault: bool): State
    requires w in s.workers
  {
    var r := s.workers[w];
    var t := DockerDone(s, r.base, d, left, fault);
    if ok then StepReach(t, w, SandboxGone, r.(at := Commit, live := false))
    else SetRun(t, w, r.(at := DeleteThenFail))
  }

  function StepDestroy(s: State, w: nat, o: Outcome): State
    requires w in s.workers
  {
    var r := s.workers[w];
    var (d, ok) := Destroyed(s.side.docker, Names(r.base), o.faults);
    SandboxEnded(s, w, d, ok, Residue(d, r.base), o.faults != NO_FAULTS)
  }

  /** The final transaction; it takes effect as a whole or not at all. */
  function StepCommit(s: State, w: nat, o: Outcome): State
    requires w in s.workers
  {
    var r := s.workers[w];
    if !o.ok || r.ctxDone || r.id !in s.drills || s.drills[r.id].row.status != Finalizing
       || r.job.None? || r.artifact.None? then
      SetRun(Excuse(s, r.id, !o.ok), w, r.(at := DeleteThenLeave))
    else
      var d := s.drills[r.id];
      var key := EvidenceKey(r.job.value.org, r.id);
      var stored := if key in s.artifacts then s.artifacts[key].(sha := r.artifact.value.sha) else r.artifact.value;
      var e := d.(row := Completed(d.row, r.job.value, r.readyAt, o.now), evidence := Some(r.artifact.value.sha),
                  report := true, trace := d.trace + [Committed], basis := Some(Basis(r.job.value, r.readyAt, r.staged)));
      Leave(SetDrill(s, r.id, e), w, r)
        .(artifacts := s.artifacts[key := stored],
          log := s.log.(conflicts := s.log.conflicts + if key in s.artifacts || d.evidence.Some? || d.report then 1 else 0))
  }

  /** The compensating delete of the evidence object. */
  function StepDelete(s: State, w: nat, o: Outcome): State
    requires w in s.workers
  {
    var r := s.workers[w];
    var t := if o.ok && r.job.Some? then s.(objects := s.objects - {EvidenceKey(r.job.value.org, r.id)})
             else s.(log := s.log.(undeleted := s.log.undeleted + {r.id}));
    if r.at == DeleteThenFail then SetRun(t, w, r.(at := FailDecide)) else Leave(t, w, r)
  }

  /** The deferred cleanup; its result is ignored. */
  function StepCleanup(s: State, w: nat, o: Outcome): State
    requires w in s.workers
  {
    var r := s.workers[w];
    var d := Destroyed(s.side.docker, Names(r.base), o.faults).0;
    SetRun(DockerDone(s, r.base, d, Residue(d, r.base), o.faults != NO_FAULTS), w, r.(at := Done, live := false))
  }

  function StepRun(c: Config, s: State, w: nat, o: Outcome): State
    requires w in s.workers
  {
    var r := s.workers[w];
    match r.at
    case Claim => StepTransition(s, w, o, Preparing, FetchBackup, 1, Load)
    case Load => StepLoad(s, w, o)
    case LoadFailed =>
      StepTerminate(Excuse(s, r.id, !o.ok), w, Inconclusive, o.now, o.ok && !r.ctxDone)
    case Stage => StepStage(c, s, w, o)
    case MakeSandbox => StepMakeSandbox(s, w, o)
    case Persist => StepPersist(s, w, o)
    case RecordSandbox => StepRecordSandbox(s, w, o)
    case ToRestoring => StepTransition(s, w, o, Restoring, RestorePostgres, 3, Restore)
    case Restore => ReachOrFail(s, w, Restored, r.(at := ToValidating), o.ok)
    case ToValidating => StepTransition(s, w, o, Validating, PostgresConnectivity, 4, Connect)
    case Connect => ReachOrFail(s, w, Connected, r.(at := ToFinalizing, readyAt := o.now), o.ok)
    case ToFinalizing => StepTransition(s, w, o, Finalizing, CollectEvidence, 5, PutEvidence)
    case PutEvidence => StepPut(c, s, w, o)
    case DestroySandbox => StepDestroy(s, w, o)
    case Commit => StepCommit(s, w, o)
    case DeleteThenFail => StepDelete(s, w, o)
    case DeleteThenLeave => StepDelete(s, w, o)
    case FailDecide => SetRun(s, w, r.(at := FailWrite(if r.ctxDone then Cancelled else Failed)))
    case FailWrite(status) => StepTerminate(Excuse(s, r.id, !o.ok), w, status, o.now, o.ok)
    case Cleanup => StepCleanup(s, w, o)
    case Done => s.(workers := s.workers - {w}, pool := s.pool.(running := s.pool.running - {r.id}))
    case PrepareOnly =>
      var t := StepTransition(s, w, o, Preparing, PrepareDrill, 1, GiveUp);
      SetRun(t, w, t.workers[w].(at := GiveUp))
    case GiveUp => StepTerminate(s, w, Inconclusive, o.now, o.ok)
  }

  function Apply(c: Config, s: State, a: Action): State {
    match a
    case CreateDrill(org, header, uuid, id, assetExists) => ApplyCreate(s, org, header, uuid, id, assetExists)
    case Submit(id) => if id in s.pool.created then Enqueue(Taken(s, id), id) else s
    case Resubmit(id) => Enqueue(s, id)
    case CancelContext(org, id) => ApplyCancelContext(s, org, id)
    case CancelRow(org, id, ok, now) => ApplyCancelRow(s, org, id, ok, now)
    case Timeout(w) => CancelRun(s, w, true)
    case Shutdown => ApplyShutdown(s)
    case Dequeue(w) => ApplyDequeue(c, s, w)
    case Step(w, o) => if w in s.workers then StepRun(c, s, w, o) else s
  }

  function Replay(c: Config, s: State, actions: seq<Action>): State
    decreases |actions|
  {
    if actions == [] then s else Replay(c, Apply(c, s, actions[0]), actions[1..])
  }

  lemma {:induction false} ReplayAppend(c: Config, s: State, xs: seq<Action>, ys: seq<Action>)
    ensures Replay(c, s, xs + ys) == Replay(c, Replay(c, s, xs), ys)
    decreases |xs|
  {
    if xs == [] {
      assert xs + ys == ys;
    } else {
      ReplayAppend(c, Apply(c, s, xs[0]), xs[1..], ys);
      assert (xs + ys)[1..] == xs[1..] + ys && (xs + ys)[0] == xs[0];
    }
  }

  lemma ReplaySnoc(c: Config, s: State, actions: seq<Action>, a: Action)
    ensures Replay(c, s, actions + [a]) == Apply(c, Replay(c, s, actions), a)
  {
    ReplayAppend(c, s, actions, [a]);
    var t := Replay(c, s, actions);
    assert [a][1..] == [];
    assert Replay(c, t, [a]) == Replay(c, Apply(c, t, a), [a][1..]);
    assert Replay(c, Apply(c, t, a), []) == Apply(c, t, a);
  }

  lemma ReplayTwo(c: Config, s: State, a: Action, b: Action)
    ensures Replay(c, s, [a, b]) == Apply(c, Apply(c, s, a), b)
  {
    ReplaySnoc(c, s, [a], b);
    ReplaySnoc(c, s, [], a);
    assert [] + [a] == [a] && [a] + [b] == [a, b];
  }

  lemma ReplayThree(c: Config, s: State, a: Action, b: Action, d: Action)
    ensures Replay(c, s, [a, b, d]) == Apply(c, Apply(c, Apply(c, s, a), b), d)
  {
    ReplayTwo(c, s, a, b);
    ReplaySnoc(c, s, [a, b], d);
    assert [a, b] + [d] == [a, b, d];
  }

  lemma ReplayFour(c: Config, s: State, a: Action, b: Action, d: Action, e: Action)
    ensures Replay(c, s, [a, b, d, e]) == Apply(c, Apply(c, Apply(c, Apply(c, s, a), b), d), e)
  {
    ReplayThree(c, s, a, b, d);
    ReplaySnoc(c, s, [a, b, d], e);
    assert [a, b, d] + [e] == [a, b, d, e];
  }
}
