/** Every action keeps the invariant of `DrillInvariant`. */
module DrillSteps {
  import opened Prelude
  import opened Domain
  import opened Sandbox
  import opened Drills
  import opened DrillInvariant

  // --------------------------------------------------------------- actions of a run

  /** What a run knows depends on its drill alone unless it holds an object. */
  lemma NotHeld(c: Config, s: State, t: State, w: nat, r: Run)
    requires ClaimedOk(c, s, w, r) && !Holding(r.at) && t.drills == s.drills
    ensures ClaimedOk(c, t, w, r)
  {}

  /** Returning from `run` when no evidence object is held. */
  lemma LeaveMoves(c: Config, s: State, t: State, w: nat)
    requires Here(c, s, w) && !Holding(s.workers[w].at)
    requires SameStores(s, t) && t.workers == s.workers && t.log.conflicts == s.log.conflicts
    ensures Moved(c, s, Leave(t, w, s.workers[w]), w)
  {
    hide DrillOk, FirstSteps, StoredAs, IntegrityHolds, Phase, StepsAt, MilesAt, Unpersisted, JobMatches, Checked;
  }

  /** A failed call that sends the run to `fail`. */
  lemma FailMoves(c: Config, s: State, t: State, w: nat)
    requires Here(c, s, w) && s.workers[w].claimed && OnPath(s.workers[w].at) && !Holding(s.workers[w].at)
    requires SameStores(s, t) && SameRuns(s, t, w) && t.log.conflicts == s.log.conflicts && w in t.workers
    requires t.workers[w] == s.workers[w].(at := FailDecide)
    ensures Moved(c, s, t, w)
  {
    hide DrillOk, FirstSteps, StoredAs, IntegrityHolds, Phase, StepsAt, MilesAt, Unpersisted, JobMatches, Checked;
  }

  predicate TransitionPoint(at: Point, to: DrillStatus, step: StepName, n: int, next: Point) {
    match at
    case Claim => to == Preparing && step == FetchBackup && n == 1 && next == Load
    case ToRestoring => to == Restoring && step == RestorePostgres && n == 3 && next == Restore
    case ToValidating => to == Validating && step == PostgresConnectivity && n == 4 && next == Connect
    case ToFinalizing => to == Finalizing && step == CollectEvidence && n == 5 && next == PutEvidence
    case _ => false
  }

  predicate TransitionRefused(s: State, r: Run, o: Outcome, to: DrillStatus) {
    !o.ok || r.ctxDone || r.id !in s.drills || !CanTransition(s.drills[r.id].row.status, to)
  }

  lemma RefusedTransition(s: State, w: nat, o: Outcome, to: DrillStatus, step: StepName, n: int, next: Point)
    requires w in s.workers && TransitionRefused(s, s.workers[w], o, to)
    ensures StepTransition(s, w, o, to, step, n, next) == Leave(Excuse(s, s.workers[w].id, !o.ok), w, s.workers[w])
  {}

  /** The next step of the timeline is recorded without a conflict. */
  lemma NextStep(steps: map<int, StepName>, n: int, step: StepName)
    requires 1 <= n <= 5 && FirstSteps(steps, n - 1) && step == TIMELINE[n - 1]
    ensures n !in steps && FirstSteps(InsertStep(steps, n, step), n) && Recorded(InsertStep(steps, n, step)) == n
  {}

  lemma ClaimedDrill(c: Config, s: State, w: nat, o: Outcome)
    requires Here(c, s, w) && s.workers[w].at == Claim && !TransitionRefused(s, s.workers[w], o, Preparing)
    ensures var t := StepTransition(s, w, o, Preparing, FetchBackup, 1, Load);
      DrillOk(c, t, s.workers[w].id) && t.log.conflicts == 0
  {
    NextStep(s.drills[s.workers[w].id].steps, 1, FetchBackup);
    hide FirstSteps, IntegrityHolds, RunOk;
  }

  lemma ClaimedRun(c: Config, s: State, w: nat, o: Outcome)
    requires Here(c, s, w) && s.workers[w].at == Claim && !TransitionRefused(s, s.workers[w], o, Preparing)
    ensures RunOk(c, StepTransition(s, w, o, Preparing, FetchBackup, 1, Load), w)
  {
    NextStep(s.drills[s.workers[w].id].steps, 1, FetchBackup);
    hide FirstSteps, IntegrityHolds, EvidenceAgrees, ColumnsAgree, SuccessEarned;
  }

  lemma ClaimKeeps(c: Config, s: State, w: nat, o: Outcome)
    requires Here(c, s, w) && s.workers[w].at == Claim && !TransitionRefused(s, s.workers[w], o, Preparing)
    ensures Kept(c, s, StepTransition(s, w, o, Preparing, FetchBackup, 1, Load), w)
  {
    assert s.drills[s.workers[w].id].claims == 0;
    hide DrillOk, FirstSteps, IntegrityHolds, StoredAs, RunOk;
    ClaimedDrill(c, s, w, o);
    ClaimedRun(c, s, w, o);
  }

  /** The points before and after a later transition. */
  predicate TransitionMove(at: Point, next: Point) {
    && OnPath(at) && OnPath(next) && !Holding(at) && !Holding(next) && !at.Load? && !at.LoadFailed?
    && SandboxLive(at) && SandboxLive(next) && MilesAt(next) == MilesAt(at) && !Unpersisted(next)
  }

  /** A later transition changes the status and the steps. */
  predicate AfterTransition(d: Drill, e: Drill, to: DrillStatus) {
    e == d.(row := d.row.(status := to), steps := e.steps)
  }

  lemma TransitionShape(s: State, w: nat, o: Outcome, to: DrillStatus, step: StepName, n: int, next: Point)
    requires w in s.workers && to != Preparing && !TransitionRefused(s, s.workers[w], o, to)
    ensures var t := StepTransition(s, w, o, to, step, n, next); var r := s.workers[w];
      && t == SetRun(SetDrill(s, r.id, t.drills[r.id]), w, r.(at := next, claimed := true)).(log := t.log)
      && w in t.workers && t.workers[w] == r.(at := next, claimed := true)
      && r.id in t.drills && AfterTransition(s.drills[r.id], t.drills[r.id], to)
      && t.drills[r.id].steps == InsertStep(s.drills[r.id].steps, n, step)
      && t.log == s.log.(conflicts := s.log.conflicts + if n in s.drills[r.id].steps then 1 else 0)
  {}

  lemma TransitionedRun(c: Config, s: State, t: State, w: nat, next: Point)
    requires w in s.workers && RunOk(c, s, w) && s.workers[w].claimed && TransitionMove(s.workers[w].at, next)
    requires w in t.workers && t.workers[w] == s.workers[w].(at := next, claimed := true)
    requires s.workers[w].id in s.drills && s.workers[w].id in t.drills
    requires AfterTransition(s.drills[s.workers[w].id], t.drills[s.workers[w].id], Phase(next))
    requires FirstSteps(t.drills[s.workers[w].id].steps, StepsAt(next))
    requires Phase(next) != Queued && !Terminal(Phase(next))
    ensures RunOk(c, t, w)
  {
    hide FirstSteps, Phase, StepsAt, MilesAt, StoredAs;
  }

  /** What a run about to make a later transition knows. */
  lemma BeforeTransition(c: Config, s: State, w: nat, to: DrillStatus, step: StepName, n: int, next: Point)
    requires Here(c, s, w) && s.workers[w].at != Claim && TransitionPoint(s.workers[w].at, to, step, n, next)
    ensures RunOk(c, s, w) && s.workers[w].claimed && s.workers[w].id in s.drills && DrillOk(c, s, s.workers[w].id)
    ensures TransitionMove(s.workers[w].at, next) && Phase(next) == to && StepsAt(next) == n
    ensures 1 <= n <= 5 && step == TIMELINE[n - 1] && FirstSteps(s.drills[s.workers[w].id].steps, n - 1)
    ensures to != Preparing && to != Queued && !Terminal(to)
  {
    hide DrillOk, FirstSteps;
  }

  lemma TransitionedDrill(c: Config, s: State, t: State, w: nat, to: DrillStatus, n: int)
    requires w in s.workers && RunOk(c, s, w) && s.workers[w].claimed && !Holding(s.workers[w].at)
    requires var id := s.workers[w].id; id in s.drills && id in t.drills && DrillOk(c, s, id)
    requires AfterTransition(s.drills[s.workers[w].id], t.drills[s.workers[w].id], to)
    requires t.artifacts == s.artifacts && t.objects == s.objects && t.log.undeleted == s.log.undeleted
    requires FirstSteps(t.drills[s.workers[w].id].steps, n) && Recorded(t.drills[s.workers[w].id].steps) == n
    requires to != Queued && !Terminal(to) && StepsFit(to, n) && !Terminal(s.drills[s.workers[w].id].row.status)
    ensures DrillOk(c, t, s.workers[w].id)
  {
    hide FirstSteps, Recorded, StepsFit;
  }

  lemma TransitionDrill(c: Config, s: State, w: nat, o: Outcome, to: DrillStatus, step: StepName, n: int, next: Point)
    requires Here(c, s, w) && s.workers[w].at != Claim && TransitionPoint(s.workers[w].at, to, step, n, next)
    requires !TransitionRefused(s, s.workers[w], o, to)
    ensures DrillOk(c, StepTransition(s, w, o, to, step, n, next), s.workers[w].id)
  {
    BeforeTransition(c, s, w, to, step, n, next);
    TransitionShape(s, w, o, to, step, n, next);
    NextStep(s.drills[s.workers[w].id].steps, n, step);
    assert StepsFit(to, n);
    hide Here, RunOk, DrillOk, FirstSteps, StepTransition, StepsFit;
    TransitionedDrill(c, s, StepTransition(s, w, o, to, step, n, next), w, to, n);
  }

  lemma TransitionRun(c: Config, s: State, w: nat, o: Outcome, to: DrillStatus, step: StepName, n: int, next: Point)
    requires Here(c, s, w) && s.workers[w].at != Claim && TransitionPoint(s.workers[w].at, to, step, n, next)
    requires !TransitionRefused(s, s.workers[w], o, to)
    ensures RunOk(c, StepTransition(s, w, o, to, step, n, next), w)
  {
    BeforeTransition(c, s, w, to, step, n, next);
    TransitionShape(s, w, o, to, step, n, next);
    NextStep(s.drills[s.workers[w].id].steps, n, step);
    hide Here, RunOk, DrillOk, FirstSteps, StepTransition;
    TransitionedRun(c, s, StepTransition(s, w, o, to, step, n, next), w, next);
  }

  lemma TransitionKeeps(c: Config, s: State, w: nat, o: Outcome, to: DrillStatus, step: StepName, n: int, next: Point)
    requires Here(c, s, w) && s.workers[w].at != Claim && TransitionPoint(s.workers[w].at, to, step, n, next)
    requires !TransitionRefused(s, s.workers[w], o, to)
    ensures Kept(c, s, StepTransition(s, w, o, to, step, n, next), w)
  {
    TransitionDrill(c, s, w, o, to, step, n, next);
    TransitionRun(c, s, w, o, to, step, n, next);
    NextStep(s.drills[s.workers[w].id].steps, n, step);
  }

  lemma AnyTransitionKeeps(c: Config, s: State, w: nat, o: Outcome, to: DrillStatus, step: StepName, n: int, next: Point)
    requires Here(c, s, w) && TransitionPoint(s.workers[w].at, to, step, n, next)
    requires !TransitionRefused(s, s.workers[w], o, to)
    ensures Kept(c, s, StepTransition(s, w, o, to, step, n, next), w)
  {
    if s.workers[w].at == Claim { ClaimKeeps(c, s, w, o); } else { TransitionKeeps(c, s, w, o, to, step, n, next); }
  }

  lemma RefusedMoves(c: Config, s: State, w: nat, o: Outcome, to: DrillStatus, step: StepName, n: int, next: Point)
    requires Here(c, s, w) && TransitionPoint(s.workers[w].at, to, step, n, next)
    requires TransitionRefused(s, s.workers[w], o, to)
    ensures Moved(c, s, StepTransition(s, w, o, to, step, n, next), w)
  {
    hide DrillOk, Moved;
    LeaveMoves(c, s, Excuse(s, s.workers[w].id, !o.ok), w);
  }

  lemma KeepTransition(c: Config, s: State, w: nat, o: Outcome, to: DrillStatus, step: StepName, n: int, next: Point)
    requires Inv(c, s) && Here(c, s, w) && TransitionPoint(s.workers[w].at, to, step, n, next)
    ensures Inv(c, StepTransition(s, w, o, to, step, n, next))
  {
    var t := StepTransition(s, w, o, to, step, n, next);
    if TransitionRefused(s, s.workers[w], o, to) {
      RefusedMoves(c, s, w, o, to, step, n, next);
      RunOnly(c, s, t, w);
    } else {
      AnyTransitionKeeps(c, s, w, o, to, step, n, next);
      OwnDrill(c, s, t, w);
    }
  }

  lemma LoadMoves(c: Config, s: State, w: nat, o: Outcome)
    requires Here(c, s, w) && s.workers[w].at == Load
    ensures Moved(c, s, StepLoad(s, w, o), w)
  {
    hide DrillOk, FirstSteps, StoredAs, IntegrityHolds;
  }

  /** `setTerminal` after a failed load, or at the end of `fail`. */
  predicate TerminatePoint(at: Point, status: DrillStatus) {
    (at.LoadFailed? && status == Inconclusive) || (at.FailWrite? && at.status == status)
  }

  lemma TerminateDrill(c: Config, s: State, w: nat, status: DrillStatus, now: int)
    requires Here(c, s, w) && TerminatePoint(s.workers[w].at, status)
    ensures DrillOk(c, StepTerminate(s, w, status, now, true), s.workers[w].id)
  {
    hide StoredAs, JobMatches, SandboxLive, SandboxAbsent, MilesAt;
  }

  lemma TerminateRun(c: Config, s: State, w: nat, status: DrillStatus, now: int)
    requires Here(c, s, w) && TerminatePoint(s.workers[w].at, status)
    ensures RunOk(c, StepTerminate(s, w, status, now, true), w)
  {
    hide DrillOk, FirstSteps, StoredAs, IntegrityHolds, Phase, StepsAt, MilesAt, Unpersisted, JobMatches, Checked;
  }

  lemma TerminateKeeps(c: Config, s: State, w: nat, status: DrillStatus, now: int)
    requires Here(c, s, w) && TerminatePoint(s.workers[w].at, status)
    ensures Kept(c, s, StepTerminate(s, w, status, now, true), w)
  {
    hide DrillOk, FirstSteps, StoredAs, IntegrityHolds, Phase, StepsAt, MilesAt, Unpersisted, JobMatches, Checked;
    TerminateDrill(c, s, w, status, now);
    TerminateRun(c, s, w, status, now);
  }

  lemma KeepTerminate(c: Config, s: State, w: nat, status: DrillStatus, now: int, reachable: bool)
    requires Inv(c, s) && Here(c, s, w) && TerminatePoint(s.workers[w].at, status)
    ensures Inv(c, StepTerminate(s, w, status, now, reachable))
  {
    if reachable {
      TerminateKeeps(c, s, w, status, now);
      OwnDrill(c, s, StepTerminate(s, w, status, now, reachable), w);
    } else {
      LeaveMoves(c, s, s, w);
      RunOnly(c, s, Leave(s, w, s.workers[w]), w);
    }
  }

  lemma KeepExcuse(c: Config, s: State, id: string, when: bool)
    requires Inv(c, s)
    ensures Inv(c, Excuse(s, id, when))
  {
    KeepContexts(c, s, Excuse(s, id, when));
  }

  predicate ReachPoint(at: Point, next: Point, m: Milestone) {
    match at
    case Stage => next == MakeSandbox && m == IntegrityChecked
    case MakeSandbox => next == Persist && m == SandboxReady
    case Restore => next == ToValidating && m == Restored
    case Connect => next == ToFinalizing && m == Connected
    case PutEvidence => next == DestroySandbox && m == EvidenceStored
    case DestroySandbox => next == Commit && m == SandboxGone
    case _ => false
  }

  lemma NextMilestone(at: Point, next: Point, m: Milestone)
    requires ReachPoint(at, next, m)
    ensures JOURNEY[..MilesAt(next)] == JOURNEY[..MilesAt(at)] + [m]
  {}

  /** Reaching the next milestone on the path, with nothing else about the drill changed. */
  ghost predicate Reaching(c: Config, s: State, t: State, w: nat, m: Milestone, next: Run) {
    && Here(c, s, w)
    && SameStores(s, t) && t.workers == s.workers && t.log.conflicts == s.log.conflicts
    && var r := s.workers[w];
    && ReachPoint(r.at, next.at, m) && !r.at.PutEvidence?
    && next == r.(at := next.at, live := next.live, base := next.base, readyAt := next.readyAt, staged := next.staged)
    && (if r.at.Stage? then Checked(c, next) else next.staged == r.staged)
    && next.live == SandboxLive(next.at)
  }

  lemma ReachDrill(c: Config, s: State, t: State, w: nat, m: Milestone, next: Run)
    requires Reaching(c, s, t, w, m, next)
    ensures DrillOk(c, StepReach(t, w, m, next), s.workers[w].id)
  {
    var id := s.workers[w].id;
    assert Holder(s, id) ==> Holder(StepReach(t, w, m, next), id);
  }

  lemma ReachKeeps(c: Config, s: State, t: State, w: nat, m: Milestone, next: Run)
    requires Reaching(c, s, t, w, m, next)
    requires DrillOk(c, StepReach(t, w, m, next), s.workers[w].id)
    ensures Kept(c, s, StepReach(t, w, m, next), w)
  {
    hide DrillOk, FirstSteps, IntegrityHolds;
    NextMilestone(s.workers[w].at, next.at, m);
  }

  lemma KeepReach(c: Config, s: State, t: State, w: nat, m: Milestone, next: Run)
    requires Inv(c, s) && Reaching(c, s, t, w, m, next)
    ensures Inv(c, StepReach(t, w, m, next))
  {
    ReachDrill(c, s, t, w, m, next);
    ReachKeeps(c, s, t, w, m, next);
    OwnDrill(c, s, StepReach(t, w, m, next), w);
  }

  lemma KeepFail(c: Config, s: State, t: State, w: nat)
    requires Inv(c, s) && Here(c, s, w)
    requires s.workers[w].claimed && OnPath(s.workers[w].at) && !Holding(s.workers[w].at)
    requires SameStores(s, t) && SameRuns(s, t, w) && t.log.conflicts == s.log.conflicts && w in t.workers
    requires t.workers[w] == s.workers[w].(at := FailDecide)
    ensures Inv(c, t)
  {
    FailMoves(c, s, t, w);
    RunOnly(c, s, t, w);
  }

  lemma KeepReachOrFail(c: Config, s: State, t: State, w: nat, m: Milestone, next: Run, passed: bool)
    requires Inv(c, s) && Reaching(c, s, t, w, m, next) && !Holding(s.workers[w].at)
    ensures Inv(c, ReachOrFail(t, w, m, next, passed))
  {
    if passed {
      KeepReach(c, s, t, w, m, next);
    } else {
      KeepFail(c, s, ReachOrFail(t, w, m, next, passed), w);
    }
  }

  lemma KeepStage(c: Config, s: State, w: nat, o: Outcome)
    requires Inv(c, s) && Here(c, s, w) && s.workers[w].at == Stage
    ensures Inv(c, StepStage(c, s, w, o))
  {
    hide Inv, IntegrityHolds;
    var r := s.workers[w];
    if StagePasses(c, s, r, o) {
      KeepReach(c, s, s, w, IntegrityChecked, r.(at := MakeSandbox, staged := Download(s, r)));
    } else {
      KeepFail(c, s, StepStage(c, s, w, o), w);
    }
  }

  lemma KeepMade(c: Config, s: State, w: nat, base: string, d: Docker, ok: bool, left: bool, fault: bool)
    requires Inv(c, s) && Here(c, s, w) && s.workers[w].at == MakeSandbox
    ensures Inv(c, SandboxMade(s, w, base, d, ok, left, fault))
  {
    hide Inv;
    var r := s.workers[w];
    var t := Drawn(DockerDone(s, base, d, left && !ok, fault && !ok), base, r.id);
    KeepReachOrFail(c, s, t, w, SandboxReady, r.(at := Persist, live := true, base := base), ok);
  }

  lemma KeepMakeSandbox(c: Config, s: State, w: nat, o: Outcome)
    requires Inv(c, s) && Here(c, s, w) && s.workers[w].at == MakeSandbox
    ensures Inv(c, StepMakeSandbox(s, w, o))
  {
    hide Inv, DrillOk, FirstSteps, StoredAs, IntegrityHolds, Created, Residue;
    var base := BaseName(Compact(s.workers[w].id), o.suffix);
    if Compact(s.workers[w].id) == "" || BaseTaken(s, base) {
      KeepFail(c, s, StepMakeSandbox(s, w, o), w);
    } else {
      var (d, ok) := Created(s.side.docker, base, o.env);
      KeepMade(c, s, w, base, d, ok, Residue(d, base), o.env.faults != NO_FAULTS);
    }
  }

  predicate PersistRefused(s: State, r: Run, o: Outcome) {
    !o.ok || r.ctxDone || r.id !in s.drills
  }

  lemma PersistKeeps(c: Config, s: State, w: nat, o: Outcome)
    requires Here(c, s, w) && s.workers[w].at == Persist && !PersistRefused(s, s.workers[w], o)
    ensures Kept(c, s, StepPersist(s, w, o), w)
  {
    hide FirstSteps, Recorded, StepsFit, IntegrityHolds, ColumnsAgree;
  }

  lemma KeepPersist(c: Config, s: State, w: nat, o: Outcome)
    requires Inv(c, s) && Here(c, s, w) && s.workers[w].at == Persist
    ensures Inv(c, StepPersist(s, w, o))
  {
    hide Inv;
    if PersistRefused(s, s.workers[w], o) {
      KeepFail(c, s, StepPersist(s, w, o), w);
    } else {
      PersistKeeps(c, s, w, o);
      OwnDrill(c, s, StepPersist(s, w, o), w);
    }
  }

  lemma RecordSandboxDrill(c: Config, s: State, w: nat, o: Outcome)
    requires Here(c, s, w) && s.workers[w].at == RecordSandbox && o.ok && !s.workers[w].ctxDone
    ensures var t := StepRecordSandbox(s, w, o); DrillOk(c, t, s.workers[w].id) && t.log.conflicts == 0
  {
    NextStep(s.drills[s.workers[w].id].steps, 2, CreateSandbox);
    hide FirstSteps, Recorded, IntegrityHolds, ColumnsAgree, SuccessEarned, Checked, JobMatches;
  }

  lemma RecordSandboxRun(c: Config, s: State, w: nat, o: Outcome)
    requires Here(c, s, w) && s.workers[w].at == RecordSandbox && o.ok && !s.workers[w].ctxDone
    ensures RunOk(c, StepRecordSandbox(s, w, o), w)
  {
    NextStep(s.drills[s.workers[w].id].steps, 2, CreateSandbox);
    hide DrillOk, FirstSteps, Recorded, IntegrityHolds;
  }

  lemma RecordSandboxKeeps(c: Config, s: State, w: nat, o: Outcome)
    requires Here(c, s, w) && s.workers[w].at == RecordSandbox && o.ok && !s.workers[w].ctxDone
    ensures Kept(c, s, StepRecordSandbox(s, w, o), w)
  {
    hide DrillOk, FirstSteps, IntegrityHolds, StoredAs;
    RecordSandboxDrill(c, s, w, o);
    RecordSandboxRun(c, s, w, o);
  }

  lemma KeepRecordSandbox(c: Config, s: State, w: nat, o: Outcome)
    requires Inv(c, s) && Here(c, s, w) && s.workers[w].at == RecordSandbox
    ensures Inv(c, StepRecordSandbox(s, w, o))
  {
    var r := s.workers[w];
    if !o.ok || r.ctxDone {
      LeaveMoves(c, s, Excuse(s, r.id, !o.ok), w);
      RunOnly(c, s, StepRecordSandbox(s, w, o), w);
    } else {
      RecordSandboxKeeps(c, s, w, o);
      OwnDrill(c, s, StepRecordSandbox(s, w, o), w);
    }
  }

  lemma PutDrill(c: Config, s: State, w: nat, o: Outcome)
    requires Here(c, s, w) && s.workers[w].at == PutEvidence && o.ok
    ensures DrillOk(c, StepPut(c, s, w, o), s.workers[w].id)
  {
    hide FirstSteps, Recorded, StepsFit, IntegrityHolds, ColumnsAgree;
    assert Holder(StepPut(c, s, w, o), s.workers[w].id);
  }

  lemma PutRun(c: Config, s: State, w: nat, o: Outcome)
    requires Here(c, s, w) && s.workers[w].at == PutEvidence && o.ok
    ensures RunOk(c, StepPut(c, s, w, o), w)
  {
    hide DrillOk, FirstSteps, IntegrityHolds;
    NextMilestone(PutEvidence, DestroySandbox, EvidenceStored);
  }

  lemma PutKeeps(c: Config, s: State, w: nat, o: Outcome)
    requires Here(c, s, w) && s.workers[w].at == PutEvidence && o.ok
    ensures Kept(c, s, StepPut(c, s, w, o), w)
  {
    hide DrillOk, FirstSteps, IntegrityHolds, StoredAs, EvidenceKey;
    PutDrill(c, s, w, o);
    PutRun(c, s, w, o);
  }

  lemma KeepPut(c: Config, s: State, w: nat, o: Outcome)
    requires Inv(c, s) && Here(c, s, w) && s.workers[w].at == PutEvidence
    ensures Inv(c, StepPut(c, s, w, o))
  {
    if !o.ok {
      KeepFail(c, s, StepPut(c, s, w, o), w);
    } else {
      PutKeeps(c, s, w, o);
      OwnDrill(c, s, StepPut(c, s, w, o), w);
    }
  }

  lemma KeepEnded(c: Config, s: State, w: nat, d: Docker, ok: bool, left: bool, fault: bool)
    requires Inv(c, s) && Here(c, s, w) && s.workers[w].at == DestroySandbox
    ensures Inv(c, SandboxEnded(s, w, d, ok, left, fault))
  {
    hide Inv, DrillOk, Moved, FirstSteps, StoredAs, IntegrityHolds;
    var r := s.workers[w];
    if ok {
      KeepReach(c, s, DockerDone(s, r.base, d, left, fault), w, SandboxGone, r.(at := Commit, live := false));
    } else {
      HoldMoves(c, s, SandboxEnded(s, w, d, ok, left, fault), w, DeleteThenFail);
      RunOnly(c, s, SandboxEnded(s, w, d, ok, left, fault), w);
    }
  }

  lemma KeepDestroy(c: Config, s: State, w: nat, o: Outcome)
    requires Inv(c, s) && Here(c, s, w) && s.workers[w].at == DestroySandbox
    ensures Inv(c, StepDestroy(s, w, o))
  {
    var (d, ok) := Destroyed(s.side.docker, Names(s.workers[w].base), o.faults);
    KeepEnded(c, s, w, d, ok, Residue(d, s.workers[w].base), o.faults != NO_FAULTS);
  }

  predicate CommitRefused(s: State, r: Run, o: Outcome) {
    !o.ok || r.ctxDone || r.id !in s.drills || s.drills[r.id].row.status != Finalizing
  }

  /** A held object stays held on the way to its compensating delete. */
  lemma HoldMoves(c: Config, s: State, t: State, w: nat, next: Point)
    requires Here(c, s, w)
    requires (s.workers[w].at == Commit && next == DeleteThenLeave)
          || (s.workers[w].at == DestroySandbox && next == DeleteThenFail)
    requires SameStores(s, t) && SameRuns(s, t, w) && t.log.conflicts == s.log.conflicts && w in t.workers
    requires t.workers[w] == s.workers[w].(at := next)
    ensures Moved(c, s, t, w)
  {
    hide DrillOk, FirstSteps, StepsAt, MilesAt, Phase, Unpersisted, Checked, IntegrityHolds;
  }

  lemma CommitDrill(c: Config, s: State, w: nat, o: Outcome)
    requires Here(c, s, w) && s.workers[w].at == Commit && !CommitRefused(s, s.workers[w], o)
    ensures DrillOk(c, StepCommit(s, w, o), s.workers[w].id)
  {
    var r := s.workers[w];
    var t := StepCommit(s, w, o);
    assert JOURNEY == JOURNEY[..6] + [Committed];
    assert Recorded(s.drills[r.id].steps) == 5;
    assert t.artifacts[EvidenceKey(s.drills[r.id].row.org, r.id)] == r.artifact.value;
  }

  lemma CommitRun(c: Config, s: State, w: nat, o: Outcome)
    requires Here(c, s, w) && s.workers[w].at == Commit && !CommitRefused(s, s.workers[w], o)
    ensures var t := StepCommit(s, w, o);
      w in t.workers && t.workers[w].id == s.workers[w].id && s.workers[w].claimed && RunOk(c, t, w)
  {
    hide DrillOk, FirstSteps, StoredAs, IntegrityHolds, MeasureRPO, MeasureRTO, EvaluatePolicy, Verdict, EvidenceKey,
      Phase, StepsAt, MilesAt, Unpersisted, Checked;
  }

  lemma CommitElsewhere(c: Config, s: State, w: nat, o: Outcome)
    requires Here(c, s, w) && s.workers[w].at == Commit && !CommitRefused(s, s.workers[w], o)
    ensures var t := StepCommit(s, w, o); Elsewhere(s, t, w, s.workers[w].id) && t.log.conflicts == 0
  {
    hide MeasureRPO, MeasureRTO, EvaluatePolicy, Verdict, SuccessEarned, ColumnsAgree, FirstSteps;
  }

  lemma CommitKeeps(c: Config, s: State, w: nat, o: Outcome)
    requires Here(c, s, w) && s.workers[w].at == Commit && !CommitRefused(s, s.workers[w], o)
    requires DrillOk(c, StepCommit(s, w, o), s.workers[w].id)
    ensures Kept(c, s, StepCommit(s, w, o), w)
  {
    CommitRun(c, s, w, o);
    CommitElsewhere(c, s, w, o);
  }

  lemma KeepCommit(c: Config, s: State, w: nat, o: Outcome)
    requires Inv(c, s) && Here(c, s, w) && s.workers[w].at == Commit
    ensures Inv(c, StepCommit(s, w, o))
  {
    hide Inv;
    if CommitRefused(s, s.workers[w], o) {
      HoldMoves(c, s, StepCommit(s, w, o), w, DeleteThenLeave);
      RunOnly(c, s, StepCommit(s, w, o), w);
    } else {
      CommitDrill(c, s, w, o);
      CommitKeeps(c, s, w, o);
      OwnDrill(c, s, StepCommit(s, w, o), w);
    }
  }

  predicate DeletePoint(at: Point) { at.DeleteThenFail? || at.DeleteThenLeave? }

  lemma DeleteDrill(c: Config, s: State, w: nat, o: Outcome)
    requires Here(c, s, w) && DeletePoint(s.workers[w].at)
    ensures DrillOk(c, StepDelete(s, w, o), s.workers[w].id)
  {}

  lemma DeleteLeads(c: Config, s: State, w: nat)
    requires Here(c, s, w) && DeletePoint(s.workers[w].at)
    ensures var r := s.workers[w];
      r.claimed && ClaimedOk(c, s, w, r.(at := if r.at == DeleteThenFail then FailDecide else Done))
  {}

  lemma DeleteFrame(s: State, w: nat, o: Outcome)
    requires w in s.workers && s.workers[w].id in s.drills && s.workers[w].job.Some?
    requires s.workers[w].job.value.org == s.drills[s.workers[w].id].row.org
    ensures var t := StepDelete(s, w, o); var r := s.workers[w];
      && Elsewhere(s, t, w, r.id) && t.log.conflicts == s.log.conflicts && t.drills == s.drills && w in t.workers
      && t.workers[w] == r.(at := if r.at == DeleteThenFail then FailDecide else if r.live then Cleanup else Done)
  {}

  lemma DeleteKeeps(c: Config, s: State, w: nat, o: Outcome)
    requires Here(c, s, w) && DeletePoint(s.workers[w].at)
    ensures Kept(c, s, StepDelete(s, w, o), w)
  {
    hide DrillOk, FirstSteps, StoredAs, IntegrityHolds, StepDelete;
    var r := s.workers[w];
    assert RunOk(c, s, w);
    DeleteLeads(c, s, w);
    DeleteFrame(s, w, o);
    DeleteDrill(c, s, w, o);
    NotHeld(c, s, StepDelete(s, w, o), w, r.(at := if r.at == DeleteThenFail then FailDecide else Done));
  }

  lemma KeepDelete(c: Config, s: State, w: nat, o: Outcome)
    requires Inv(c, s) && Here(c, s, w) && DeletePoint(s.workers[w].at)
    ensures Inv(c, StepDelete(s, w, o))
  {
    DeleteKeeps(c, s, w, o);
    OwnDrill(c, s, StepDelete(s, w, o), w);
  }

  lemma FailDecideMoves(c: Config, s: State, w: nat, o: Outcome)
    requires Here(c, s, w) && s.workers[w].at == FailDecide
    ensures Moved(c, s, StepRun(c, s, w, o), w)
  {
    hide DrillOk, FirstSteps;
  }

  lemma CleanupMoves(c: Config, s: State, t: State, w: nat)
    requires Here(c, s, w) && s.workers[w].at == Cleanup
    requires SameStores(s, t) && SameRuns(s, t, w) && t.log.conflicts == s.log.conflicts && w in t.workers
    requires t.workers[w] == s.workers[w].(at := Done, live := false)
    ensures Moved(c, s, t, w)
  {}

  /** The points before a sandbox exists. */
  predicate Early(p: Point) {
    p == Claim || p == Load || p == LoadFailed || p == Stage || p == MakeSandbox
  }

  lemma KeepEarly(c: Config, s: State, w: nat, o: Outcome)
    requires Inv(c, s) && Here(c, s, w) && Early(s.workers[w].at)
    ensures Inv(c, StepRun(c, s, w, o))
  {
    hide Inv;
    var r := s.workers[w];
    match r.at
    case Claim => KeepTransition(c, s, w, o, Preparing, FetchBackup, 1, Load);
    case Load => LoadMoves(c, s, w, o); RunOnly(c, s, StepLoad(s, w, o), w);
    case LoadFailed =>
      KeepExcuse(c, s, r.id, !o.ok);
      KeepTerminate(c, Excuse(s, r.id, !o.ok), w, Inconclusive, o.now, o.ok && !r.ctxDone);
    case Stage => KeepStage(c, s, w, o);
    case MakeSandbox => KeepMakeSandbox(c, s, w, o);
  }

  /** The points of the recovery itself. */
  predicate Middle(p: Point) {
    p == Persist || p == RecordSandbox || p == ToRestoring || p == Restore || p == ToValidating
    || p == Connect || p == ToFinalizing
  }

  lemma KeepMiddle(c: Config, s: State, w: nat, o: Outcome)
    requires Inv(c, s) && Here(c, s, w) && Middle(s.workers[w].at)
    ensures Inv(c, StepRun(c, s, w, o))
  {
    hide Inv, DrillOk, FirstSteps, StoredAs, IntegrityHolds;
    var r := s.workers[w];
    match r.at
    case Persist => KeepPersist(c, s, w, o);
    case RecordSandbox => KeepRecordSandbox(c, s, w, o);
    case ToRestoring => KeepTransition(c, s, w, o, Restoring, RestorePostgres, 3, Restore);
    case Restore => KeepReachOrFail(c, s, s, w, Restored, r.(at := ToValidating), o.ok);
    case ToValidating => KeepTransition(c, s, w, o, Validating, PostgresConnectivity, 4, Connect);
    case Connect => KeepReachOrFail(c, s, s, w, Connected, r.(at := ToFinalizing, readyAt := o.now), o.ok);
    case ToFinalizing => KeepTransition(c, s, w, o, Finalizing, CollectEvidence, 5, PutEvidence);
  }

  lemma KeepLate(c: Config, s: State, w: nat, o: Outcome)
    requires Inv(c, s) && Here(c, s, w) && !Early(s.workers[w].at) && !Middle(s.workers[w].at)
    ensures Inv(c, StepRun(c, s, w, o))
  {
    hide Inv, DrillOk, Moved, FirstSteps, StoredAs, IntegrityHolds;
    var r := s.workers[w];
    match r.at
    case PutEvidence => KeepPut(c, s, w, o);
    case DestroySandbox => KeepDestroy(c, s, w, o);
    case Commit => KeepCommit(c, s, w, o);
    case DeleteThenFail => KeepDelete(c, s, w, o);
    case DeleteThenLeave => KeepDelete(c, s, w, o);
    case FailWrite(status) =>
      KeepExcuse(c, s, r.id, !o.ok);
      KeepTerminate(c, Excuse(s, r.id, !o.ok), w, status, o.now, o.ok);
    case FailDecide => FailDecideMoves(c, s, w, o); RunOnly(c, s, StepRun(c, s, w, o), w);
    case Cleanup => CleanupMoves(c, s, StepCleanup(s, w, o), w); RunOnly(c, s, StepCleanup(s, w, o), w);
    case Done => DoneMoves(c, s, w, o); RunOnly(c, s, StepRun(c, s, w, o), w);
  }

  lemma DoneMoves(c: Config, s: State, w: nat, o: Outcome)
    requires Here(c, s, w) && s.workers[w].at == Done
    ensures Moved(c, s, StepRun(c, s, w, o), w)
  {
    hide RunOk, DrillOk;
  }

  lemma KeepRun(c: Config, s: State, w: nat, o: Outcome)
    requires Inv(c, s) && Here(c, s, w)
    ensures Inv(c, StepRun(c, s, w, o))
  {
    if Early(s.workers[w].at) { KeepEarly(c, s, w, o); }
    else if Middle(s.workers[w].at) { KeepMiddle(c, s, w, o); }
    else { KeepLate(c, s, w, o); }
  }

  // ------------------------------------------------------------ the other actors

  ghost predicate SameButContexts(s: State, t: State) {
    && t.workers.Keys == s.workers.Keys
    && forall w :: w in s.workers ==> t.workers[w] == s.workers[w].(ctxDone := t.workers[w].ctxDone)
  }

  lemma ContextDrillOk(c: Config, s: State, t: State, i: string)
    requires SameStores(s, t) && SameButContexts(s, t) && i in s.drills && DrillOk(c, s, i)
    ensures DrillOk(c, t, i)
  {}

  lemma ContextRunOk(c: Config, s: State, t: State, v: nat)
    requires SameStores(s, t) && SameButContexts(s, t) && v in s.workers && RunOk(c, s, v)
    ensures RunOk(c, t, v)
  {}

  /** Changing whether contexts are done changes nothing the invariant mentions. */
  lemma KeepContexts(c: Config, s: State, t: State)
    requires Inv(c, s) && SameStores(s, t) && t.log.conflicts == s.log.conflicts
    requires SameButContexts(s, t)
    ensures Inv(c, t)
  {
    forall i | i in t.drills ensures DrillOk(c, t, i) { ContextDrillOk(c, s, t, i); }
    forall v | v in t.workers ensures RunOk(c, t, v) { ContextRunOk(c, s, t, v); }
  }

  /** A fresh drill has no evidence yet, since every evidence key has an owner. */
  lemma FreshDrillOk(c: Config, s: State, t: State, id: string)
    requires KeysOwned(s) && t.objects == s.objects && t.artifacts == s.artifacts
    requires id !in s.drills && id !in t.log.undeleted && id in t.drills && NoSlash(id) && NoSlash(t.drills[id].row.org)
    requires t.drills[id] == Drill(Row(t.drills[id].row.org, t.drills[id].row.key, Queued,
               None, None, None, None, None, None, None, None), map[], false, None, false, 0, None, [], None)
    ensures DrillOk(c, t, id)
  {
    assert EvidenceKey(t.drills[id].row.org, id) !in s.objects;
  }

  lemma FreshOtherOk(c: Config, s: State, t: State, id: string, i: string)
    requires id in t.drills && id !in s.drills && t == SetDrill(s, id, t.drills[id]).(pool := t.pool)
    requires i in s.drills && DrillOk(c, s, i)
    ensures DrillOk(c, t, i)
  {}

  lemma FreshRunOk(c: Config, s: State, t: State, id: string, v: nat)
    requires id in t.drills && id !in s.drills && t == SetDrill(s, id, t.drills[id]).(pool := t.pool)
    requires v in s.workers && RunOk(c, s, v)
    ensures RunOk(c, t, v)
  {}

  lemma KeepFresh(c: Config, s: State, t: State, id: string)
    requires Inv(c, s) && id in t.drills && id !in s.drills && NoSlash(id) && NoSlash(t.drills[id].row.org)
    requires t == SetDrill(s, id, t.drills[id]).(pool := t.pool)
    requires t.drills[id] == Drill(Row(t.drills[id].row.org, t.drills[id].row.key, Queued,
               None, None, None, None, None, None, None, None), map[], false, None, false, 0, None, [], None)
    ensures Inv(c, t)
  {
    hide DrillOk, RunOk;
    forall i | i in t.drills ensures DrillOk(c, t, i) {
      if i == id { FreshDrillOk(c, s, t, id); } else { FreshOtherOk(c, s, t, id, i); }
    }
    forall v | v in t.workers ensures RunOk(c, t, v) { FreshRunOk(c, s, t, id, v); }
  }

  lemma KeepCreate(c: Config, s: State, org: string, header: string, uuid: string, id: string, assetExists: bool)
    requires Inv(c, s)
    ensures Inv(c, ApplyCreate(s, org, header, uuid, id, assetExists))
  {
    hide Inv;
    var t := ApplyCreate(s, org, header, uuid, id, assetExists);
    if t.drills == s.drills {
      KeepContexts(c, s, t);
    } else {
      KeepFresh(c, s, t, id);
    }
  }

  lemma CancelledDrillOk(c: Config, s: State, t: State, id: string, now: int)
    requires id in s.drills && DrillOk(c, s, id)
    requires t == SetDrill(s, id, UserCancelled(s.drills[id], now)).(pool := t.pool)
    ensures DrillOk(c, t, id)
  {}

  lemma CancelledRunOk(c: Config, s: State, t: State, id: string, now: int, v: nat)
    requires id in s.drills && v in s.workers && RunOk(c, s, v)
    requires t == SetDrill(s, id, UserCancelled(s.drills[id], now)).(pool := t.pool)
    ensures RunOk(c, t, v)
  {}

  lemma CancelledOtherOk(c: Config, s: State, t: State, id: string, now: int, i: string)
    requires id in s.drills && i in s.drills && i != id && DrillOk(c, s, i)
    requires t == SetDrill(s, id, UserCancelled(s.drills[id], now)).(pool := t.pool)
    ensures DrillOk(c, t, i)
  {}

  lemma KeepCancelled(c: Config, s: State, t: State, id: string, now: int)
    requires Inv(c, s) && id in s.drills
    requires t == SetDrill(s, id, UserCancelled(s.drills[id], now)).(pool := t.pool)
    ensures Inv(c, t)
  {
    hide DrillOk, RunOk;
    forall i | i in t.drills ensures DrillOk(c, t, i) {
      if i == id { CancelledDrillOk(c, s, t, id, now); } else { CancelledOtherOk(c, s, t, id, now, i); }
    }
    forall v | v in t.workers ensures RunOk(c, t, v) {
      CancelledRunOk(c, s, t, id, now, v);
    }
  }

  lemma KeepCancelRow(c: Config, s: State, org: string, id: string, ok: bool, now: int)
    requires Inv(c, s)
    ensures Inv(c, ApplyCancelRow(s, org, id, ok, now))
  {
    hide Inv, UserCancelled, SameButContexts;
    var t := ApplyCancelRow(s, org, id, ok, now);
    if (org, id) in s.pool.cancels && ok && id in s.drills && s.drills[id].row.org == org {
      KeepCancelled(c, s, t, id, now);
    } else {
      KeepPool(c, s, t);
    }
  }

  lemma KeepPool(c: Config, s: State, t: State)
    requires Inv(c, s) && t == s.(pool := t.pool, log := t.log)
    requires t.log.conflicts == s.log.conflicts && t.log.undeleted == s.log.undeleted
    ensures Inv(c, t)
  {
    hide Inv;
    KeepContexts(c, s, t);
  }

  lemma KeepDequeue(c: Config, s: State, w: nat)
    requires Inv(c, s) && c.configured
    ensures Inv(c, ApplyDequeue(c, s, w))
  {
    if !(w >= c.concurrency || w in s.workers || s.pool.jobs == []) {
      assert Moved(c, s, ApplyDequeue(c, s, w), w);
      RunOnly(c, s, ApplyDequeue(c, s, w), w);
    }
  }

  lemma KeepCancelContext(c: Config, s: State, org: string, id: string)
    requires Inv(c, s)
    ensures Inv(c, ApplyCancelContext(s, org, id))
  {
    hide Inv;
    KeepContexts(c, s, ApplyCancelContext(s, org, id));
  }

  lemma KeepShutdown(c: Config, s: State)
    requires Inv(c, s)
    ensures Inv(c, ApplyShutdown(s))
  {
    KeepContexts(c, s, ApplyShutdown(s));
  }

  lemma KeepTimeout(c: Config, s: State, w: nat)
    requires Inv(c, s)
    ensures Inv(c, CancelRun(s, w, true))
  {
    hide Inv;
    KeepContexts(c, s, CancelRun(s, w, true));
  }

  lemma KeepSubmit(c: Config, s: State, t: State, id: string)
    requires Inv(c, s) && t == s.(pool := t.pool)
    ensures Inv(c, Enqueue(t, id))
  {
    hide Inv;
    KeepContexts(c, s, Enqueue(t, id));
  }

  /** Every action of every actor keeps the invariant. */
  lemma KeepAction(c: Config, s: State, a: Action)
    requires Inv(c, s) && c.configured
    ensures Inv(c, Apply(c, s, a))
  {
    match a
    case CreateDrill(org, header, uuid, id, assetExists) => KeepCreate(c, s, org, header, uuid, id, assetExists);
    case Submit(id) => KeepSubmit(c, s, Taken(s, id), id);
    case Resubmit(id) => KeepSubmit(c, s, s, id);
    case CancelContext(org, id) => KeepCancelContext(c, s, org, id);
    case CancelRow(org, id, ok, now) => KeepCancelRow(c, s, org, id, ok, now);
    case Timeout(w) => KeepTimeout(c, s, w);
    case Shutdown => KeepShutdown(c, s);
    case Dequeue(w) => KeepDequeue(c, s, w);
    case Step(w, o) =>
      if w in s.workers {
        assert RunOk(c, s, w);
        KeepRun(c, s, w, o);
      }
  }

  /** The object store holds no evidence before the first drill. */
  ghost predicate NoEvidenceYet(objects: map<string, Bytes>) {
    forall org, id :: EvidenceKey(org, id) !in objects
  }

  lemma {:induction false} KeepReplay(c: Config, s: State, actions: seq<Action>)
    requires Inv(c, s) && c.configured
    ensures Inv(c, Replay(c, s, actions))
    decreases |actions|
  {
    if actions != [] {
      KeepAction(c, s, actions[0]);
      KeepReplay(c, Apply(c, s, actions[0]), actions[1..]);
    }
  }

  /** The invariant holds in every reachable state. */
  lemma Reachable(c: Config, objects: map<string, Bytes>, actions: seq<Action>)
    requires c.configured && NoEvidenceYet(objects)
    ensures Inv(c, Replay(c, Initial(c, objects), actions))
  {
    KeepReplay(c, Initial(c, objects), actions);
  }
}
