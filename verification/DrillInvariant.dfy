/** The inductive invariant of a configured pool: what every action of every actor keeps,
    for any interleaving, any duplicate submission and any failure. */
module DrillInvariant {
  import opened Prelude
  import opened Domain
  import opened Sandbox
  import opened Drills

  // ------------------------------------------------------------------ program points

  /** From a successful claim to the final transaction, without failures. */
  predicate OnPath(p: Point) {
    match p
    case Claim => false
    case DeleteThenFail => false
    case DeleteThenLeave => false
    case FailDecide => false
    case FailWrite(_) => false
    case Cleanup => false
    case Done => false
    case PrepareOnly => false
    case GiveUp => false
    case _ => true
  }

  predicate Failing(p: Point) {
    p.DeleteThenFail? || p.DeleteThenLeave? || p.FailDecide? || p.FailWrite?
  }

  predicate Leaving(p: Point) { p.Cleanup? || p.Done? }

  /** An evidence object was written and neither committed nor deleted yet. */
  predicate Holding(p: Point) {
    p.DestroySandbox? || p.Commit? || p.DeleteThenFail? || p.DeleteThenLeave?
  }

  /** The status a run on the path has given its row. */
  function Phase(p: Point): DrillStatus {
    match p
    case Restore => Restoring
    case ToValidating => Restoring
    case Connect => Validating
    case ToFinalizing => Validating
    case PutEvidence => Finalizing
    case DestroySandbox => Finalizing
    case Commit => Finalizing
    case _ => Preparing
  }

  /** How many steps a run on the path has recorded. */
  function StepsAt(p: Point): nat {
    match p
    case ToRestoring => 2
    case Restore => 3
    case ToValidating => 3
    case Connect => 4
    case ToFinalizing => 4
    case PutEvidence => 5
    case DestroySandbox => 5
    case Commit => 5
    case _ => 1
  }

  /** How many milestones it has reached. */
  function MilesAt(p: Point): nat {
    match p
    case MakeSandbox => 1
    case Persist => 2
    case RecordSandbox => 2
    case ToRestoring => 2
    case Restore => 2
    case ToValidating => 3
    case Connect => 3
    case ToFinalizing => 4
    case PutEvidence => 4
    case DestroySandbox => 5
    case Commit => 6
    case _ => 0
  }

  predicate SandboxLive(p: Point) {
    match p
    case Persist => true
    case RecordSandbox => true
    case ToRestoring => true
    case Restore => true
    case ToValidating => true
    case Connect => true
    case ToFinalizing => true
    case PutEvidence => true
    case DestroySandbox => true
    case DeleteThenFail => true
    case Cleanup => true
    case _ => false
  }

  /** The sandbox is not in `recovery_sandboxes` yet. */
  predicate Unpersisted(p: Point) {
    p.Load? || p.LoadFailed? || p.Stage? || p.MakeSandbox? || p.Persist?
  }

  /** `fail` is reached with and without a sandbox. */
  predicate SandboxAbsent(p: Point) {
    !SandboxLive(p) && !p.FailDecide? && !p.FailWrite?
  }

  // ------------------------------------------------------------------------- one drill

  /** Exactly the first `k` steps of the timeline are recorded. */
  ghost predicate FirstSteps(steps: map<int, StepName>, k: int) {
    && 0 <= k <= 5
    && (forall i :: i in steps <==> 1 <= i <= k)
    && (forall i :: i in steps && 1 <= i <= 5 ==> steps[i] == TIMELINE[i - 1])
  }

  function Recorded(steps: map<int, StepName>): int {
    if 5 in steps then 5 else if 4 in steps then 4 else if 3 in steps then 3
    else if 2 in steps then 2 else if 1 in steps then 1 else 0
  }

  /** The number of recorded steps a status allows. */
  predicate StepsFit(status: DrillStatus, k: int) {
    match status
    case Queued => k == 0
    case Preparing => k == 1 || k == 2
    case Restoring => k == 3
    case Validating => k == 4
    case Finalizing => k == 5
    case Succeeded => k == 5
    case Failed => k >= 1
    case Inconclusive => k == 1
    case Cancelled => true
  }

  /** The columns of a row agree with its status. */
  ghost predicate ColumnsAgree(row: Row) {
    && (row.completedAt.Some? <==> Terminal(row.status))
    && (row.rpo.Some? <==> row.status == Succeeded) && (row.rto.Some? <==> row.status == Succeeded)
    && (row.rpoResult.Some? <==> row.status == Succeeded) && (row.rtoResult.Some? <==> row.status == Succeeded)
    && (row.assessment == Some(Verified) <==> row.confidence == Some(High))
    && (row.assessment == Some(PartiallyVerified) <==> row.confidence == Some(Medium))
    && (row.status == Succeeded <==> row.assessment == Some(Verified) || row.assessment == Some(PartiallyVerified))
    && (row.status == Failed <==> row.assessment == Some(AssessmentFailed))
    && (row.status == Inconclusive ==> row.assessment == Some(AssessmentUnknown))
    && (!Terminal(row.status) ==> row.assessment == None && row.confidence == None)
    && (row.startedAt.None? ==> row.status.Queued? || row.status.Cancelled?)
  }

  ghost predicate ClaimsAgree(d: Drill) {
    && d.claims <= 1
    && (d.claims == 0 <==> d.claimant == None)
    && (d.claims == 1 <==> d.row.startedAt.Some?)
    && (d.row.status == Queued ==> d.claims == 0)
    && (d.claims == 0 ==>
          (d.row.status.Queued? || d.row.status.Cancelled?) && d.trace == [] && Recorded(d.steps) == 0 && !d.sandboxed)
  }

  /** The claimant is in flight and holds an evidence object for the drill. */
  predicate Holder(s: State, id: string) {
    id in s.drills && s.drills[id].claimant.Some? &&
    var w := s.drills[id].claimant.value;
    w in s.workers && s.workers[w].id == id && s.workers[w].claimed && Holding(s.workers[w].at)
  }

  ghost predicate StoredAs(c: Config, s: State, key: string, a: Artifact) {
    key in s.objects && a.size == |s.objects[key]| && a.sha == c.hash(s.objects[key])
  }

  ghost predicate EvidenceAgrees(c: Config, s: State, id: string)
    requires id in s.drills
  {
    var d := s.drills[id];
    var key := EvidenceKey(d.row.org, id);
    && (d.evidence.Some? <==> d.row.status == Succeeded)
    && (d.report <==> d.row.status == Succeeded)
    && (key in s.artifacts <==> d.row.status == Succeeded)
    && (d.row.status == Succeeded ==>
          && s.artifacts[key].drill == id && d.evidence == Some(s.artifacts[key].sha)
          && StoredAs(c, s, key, s.artifacts[key]))
    && (key in s.objects ==> d.row.status == Succeeded || id in s.log.undeleted || Holder(s, id))
  }

  /** A success has passed every milestone, its measurements are those of the run, and the
      backup it restored passed the integrity check. */
  ghost predicate SuccessEarned(c: Config, d: Drill) {
    d.row.status == Succeeded ==>
      && d.trace == JOURNEY
      && d.basis.Some?
      && var Basis(job, readyAt, staged) := d.basis.value;
      && IntegrityHolds(c, staged, job.snapshot.checksum)
      && d.row.startedAt == Some(job.startedAt)
      && d.row.rpo == Some(MeasureRPO(job.startedAt, job.snapshot.completedAt).0)
      && d.row.rto == Some(MeasureRTO(job.startedAt, readyAt).0)
      && d.row.rpoResult == Some(RPOVerdict(job.startedAt, job.snapshot.completedAt, job.snapshot.rpoTarget))
      && d.row.rtoResult == Some(RTOVerdict(job.startedAt, readyAt, job.snapshot.rtoTarget))
      && d.row.assessment == Some(Verdict(job.snapshot.required))
  }

  ghost predicate DrillOk(c: Config, s: State, id: string)
    requires id in s.drills
  {
    var d := s.drills[id];
    && NoSlash(id) && NoSlash(d.row.org)
    && ColumnsAgree(d.row) && ClaimsAgree(d)
    && FirstSteps(d.steps, Recorded(d.steps)) && StepsFit(d.row.status, Recorded(d.steps))
    && EvidenceAgrees(c, s, id) && SuccessEarned(c, d)
    && (id in s.log.undeleted ==> d.claims == 1)
  }

  // --------------------------------------------------------------------------- one run

  ghost predicate JobMatches(r: Run, d: Drill) {
    r.job.Some? && r.job.value.org == d.row.org && d.row.startedAt == Some(r.job.value.startedAt)
  }

  /** The staged backup passed the integrity check. */
  ghost predicate Checked(c: Config, r: Run) {
    r.job.Some? && IntegrityHolds(c, r.staged, r.job.value.snapshot.checksum)
  }

  /** What a run that holds the claim knows about its drill. */
  ghost predicate ClaimedOk(c: Config, s: State, w: nat, r: Run) {
    && r.id in s.drills
    && var d := s.drills[r.id];
    && d.claims == 1 && d.claimant == Some(w)
    && d.row.status != Queued
    && (OnPath(r.at) || Failing(r.at) || Leaving(r.at))
    && (!Leaving(r.at) ==> !d.row.status.Succeeded? && !d.row.status.Failed? && !d.row.status.Inconclusive?)
    && (r.at.FailWrite? ==> r.at.status.Failed? || r.at.status.Cancelled?)
    && (OnPath(r.at) ==>
          && (d.row.status == Phase(r.at) || d.row.status.Cancelled?)
          && FirstSteps(d.steps, StepsAt(r.at))
          && d.trace == JOURNEY[..MilesAt(r.at)]
          && (!r.at.Load? && !r.at.LoadFailed? ==> JobMatches(r, d))
          && (MilesAt(r.at) > 0 ==> Checked(c, r))
          && (Unpersisted(r.at) ==> !d.sandboxed))
    && (Holding(r.at) ==>
          && JobMatches(r, d) && r.artifact.Some? && r.artifact.value.drill == r.id
          && StoredAs(c, s, EvidenceKey(d.row.org, r.id), r.artifact.value))
    && (SandboxLive(r.at) ==> r.live) && (SandboxAbsent(r.at) ==> !r.live)
  }

  ghost predicate RunOk(c: Config, s: State, w: nat)
    requires w in s.workers
  {
    var r := s.workers[w];
    && (r.at == Claim ==> !r.claimed)
    && (!r.claimed ==> (r.at.Claim? || r.at.Done?) && !r.live)
    && (r.claimed ==> ClaimedOk(c, s, w, r))
  }

  // ------------------------------------------------------------------------- all of it

  /** Every evidence object or artifact row belongs to a drill. */
  ghost predicate KeysOwned(s: State) {
    && (forall org, id :: NoSlash(org) && NoSlash(id)
          && (EvidenceKey(org, id) in s.objects || EvidenceKey(org, id) in s.artifacts)
          ==> id in s.drills && s.drills[id].row.org == org)
  }

  ghost predicate Inv(c: Config, s: State) {
    && (forall id :: id in s.drills ==> DrillOk(c, s, id))
    && (forall w :: w in s.workers ==> RunOk(c, s, w))
    && KeysOwned(s)
    && s.log.conflicts == 0 && s.log.undeleted <= s.drills.Keys
  }

  // -------------------------------------------------------------------- proof structure

  /** `t` differs from `s` only in worker `w`, drill `id` and that drill's evidence key. */
  ghost predicate Elsewhere(s: State, t: State, w: nat, id: string) {
    && id in s.drills && t.drills.Keys == s.drills.Keys
    && (forall i :: i in s.drills && i != id ==> t.drills[i] == s.drills[i])
    && t.drills[id].row.org == s.drills[id].row.org
    && SameRuns(s, t, w)
    && var key := EvidenceKey(s.drills[id].row.org, id);
    && (forall k :: k != key ==> (k in t.objects <==> k in s.objects))
    && (forall k :: k != key && k in s.objects ==> t.objects[k] == s.objects[k])
    && (forall k :: k != key ==> (k in t.artifacts <==> k in s.artifacts))
    && (forall k :: k != key && k in s.artifacts ==> t.artifacts[k] == s.artifacts[k])
    && s.log.undeleted <= t.log.undeleted <= s.log.undeleted + {id}
  }

  ghost predicate SameRuns(s: State, t: State, w: nat) {
    && (forall v :: v != w ==> (v in t.workers <==> v in s.workers))
    && (forall v :: v != w && v in s.workers ==> t.workers[v] == s.workers[v])
  }

  ghost predicate SameStores(s: State, t: State) {
    t.drills == s.drills && t.objects == s.objects && t.artifacts == s.artifacts && t.log.undeleted == s.log.undeleted
  }

  lemma OtherDrill(c: Config, s: State, t: State, w: nat, id: string, i: string)
    requires w in s.workers && s.workers[w].id == id
    requires Elsewhere(s, t, w, id)
    requires w in t.workers ==> t.workers[w].id == id
    requires i in s.drills && i != id && DrillOk(c, s, i) && DrillOk(c, s, id)
    ensures DrillOk(c, t, i)
  {
    KeysDiffer(c, s, i, id);
    assert Holder(s, i) ==> Holder(t, i);
  }

  lemma OtherRun(c: Config, s: State, t: State, w: nat, id: string, v: nat)
    requires w in s.workers && s.workers[w].id == id && RunOk(c, s, w)
    requires Elsewhere(s, t, w, id) && DrillOk(c, s, id)
    requires s.workers[w].claimed || s.drills[id].claims == 0
    requires v != w && v in s.workers && RunOk(c, s, v)
    requires s.workers[v].id in s.drills ==> DrillOk(c, s, s.workers[v].id)
    ensures RunOk(c, t, v)
  {
    var r := s.workers[v];
    if r.claimed {
      assert r.id != id;
      KeysDiffer(c, s, r.id, id);
    }
  }

  lemma OtherKeys(c: Config, s: State, t: State, w: nat, id: string)
    requires Elsewhere(s, t, w, id) && DrillOk(c, s, id) && KeysOwned(s)
    ensures KeysOwned(t)
  {
    var key := EvidenceKey(s.drills[id].row.org, id);
    forall o, i | NoSlash(o) && NoSlash(i) && (EvidenceKey(o, i) in t.objects || EvidenceKey(o, i) in t.artifacts)
      ensures i in t.drills && t.drills[i].row.org == o
    {
      if EvidenceKey(o, i) == key {
        EvidenceKeyInjective(o, i, s.drills[id].row.org, id);
      } else {
        assert EvidenceKey(o, i) in s.objects || EvidenceKey(o, i) in s.artifacts;
      }
    }
  }

  /** What a step of worker `w` may rely on: its own run and its own drill. */
  ghost predicate Here(c: Config, s: State, w: nat) {
    && w in s.workers && RunOk(c, s, w) && s.log.conflicts == 0
    && (s.workers[w].id in s.drills ==> DrillOk(c, s, s.workers[w].id))
  }

  /** What it has to establish: its own run and its own drill again, and no effect elsewhere. */
  ghost predicate Kept(c: Config, s: State, t: State, w: nat) {
    && w in s.workers && w in t.workers && t.workers[w].id == s.workers[w].id
    && var id := s.workers[w].id;
    && Elsewhere(s, t, w, id) && t.log.conflicts == 0
    && (s.workers[w].claimed || s.drills[id].claims == 0)
    && DrillOk(c, t, id) && RunOk(c, t, w)
  }

  /** A step that changes its own run and its own drill. */
  lemma OwnDrill(c: Config, s: State, t: State, w: nat)
    requires Inv(c, s) && Kept(c, s, t, w)
    ensures Inv(c, t)
  {
    hide DrillOk, RunOk;
    var id := s.workers[w].id;
    forall i | i in t.drills ensures DrillOk(c, t, i) {
      if i != id { OtherDrill(c, s, t, w, id, i); }
    }
    forall v | v in t.workers ensures RunOk(c, t, v) {
      if v != w { OtherRun(c, s, t, w, id, v); }
    }
    OtherKeys(c, s, t, w, id);
  }

  /** What a step that changes only its own run has to establish. */
  ghost predicate Moved(c: Config, s: State, t: State, w: nat) {
    && SameStores(s, t) && SameRuns(s, t, w) && t.log.conflicts == 0
    && (w in t.workers ==> RunOk(c, t, w))
    && (w in s.workers && s.workers[w].claimed && Holding(s.workers[w].at) ==>
          w in t.workers && t.workers[w].id == s.workers[w].id && t.workers[w].claimed && Holding(t.workers[w].at))
  }

  lemma RunOnly(c: Config, s: State, t: State, w: nat)
    requires Inv(c, s) && Moved(c, s, t, w)
    ensures Inv(c, t)
  {
    forall id | id in t.drills ensures DrillOk(c, t, id) {
      assert DrillOk(c, s, id);
    }
    forall v | v in t.workers ensures RunOk(c, t, v) {
      if v != w { assert RunOk(c, s, v); }
    }
  }

  lemma KeysDiffer(c: Config, s: State, i: string, j: string)
    requires i in s.drills && j in s.drills && i != j && DrillOk(c, s, i) && DrillOk(c, s, j)
    ensures EvidenceKey(s.drills[i].row.org, i) != EvidenceKey(s.drills[j].row.org, j)
  {
    if EvidenceKey(s.drills[i].row.org, i) == EvidenceKey(s.drills[j].row.org, j) {
      EvidenceKeyInjective(s.drills[i].row.org, i, s.drills[j].row.org, j);
    }
  }
}
