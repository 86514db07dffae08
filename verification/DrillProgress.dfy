/** A claimed drill ends: whichever step of the run fails and wherever a user cancel lands,
    the row is terminal once the run is over and no cancel request is half-way through,
    unless the drill met a database error, the drill timeout, a shutdown, or a cancel by
    another organisation (whose context cancel takes effect although its row update does
    not). */
module DrillProgress {
  import opened Prelude
  import opened Domain
  import opened Sandbox
  import opened Drills
  import opened DrillInvariant
  import opened DrillSteps
  import opened DrillSafety
  import opened DrillFrames

  /** Terminal, excused, or about to be cancelled by a request in progress. */
  predicate Covered(s: State, id: string) {
    id in s.drills
    && (Terminal(s.drills[id].row.status) || id in s.log.excused || (s.drills[id].row.org, id) in s.pool.cancels)
  }

  /** The claimant is still on its way to a terminal write. */
  predicate Working(s: State, id: string) {
    id in s.drills && s.drills[id].claimant.Some? &&
    var w := s.drills[id].claimant.value;
    w in s.workers && s.workers[w].id == id && s.workers[w].claimed && !Leaving(s.workers[w].at)
  }

  ghost predicate RunCovered(s: State, r: Run) {
    r.claimed && (r.ctxDone || r.at.DeleteThenLeave?) ==> Covered(s, r.id)
  }

  /** Every registered cancel function belongs to the in-flight run of that drill. */
  ghost predicate Registered(s: State) {
    forall i :: i in s.pool.running ==> s.pool.running[i] in s.workers && s.workers[s.pool.running[i]].id == i
  }

  ghost predicate Progress(s: State) {
    && Registered(s)
    && (forall w :: w in s.workers ==> RunCovered(s, s.workers[w]))
    && (forall id :: id in s.drills && s.drills[id].claims == 1 ==> Covered(s, id) || Working(s, id))
  }

  // ------------------------------------------------------------- where a run may stop

  /** A run that stops, or is about to, leaves its drill covered. */
  ghost predicate Settled(t: State, w: nat) {
    w in t.workers && t.workers[w].claimed && (t.workers[w].at.DeleteThenLeave? || Leaving(t.workers[w].at))
    ==> Covered(t, t.workers[w].id)
  }

  /** What a step may rely on. */
  ghost predicate Ready(c: Config, s: State, w: nat) {
    && Here(c, s, w) && RunCovered(s, s.workers[w])
    && (s.workers[w].claimed && Leaving(s.workers[w].at) ==> Covered(s, s.workers[w].id))
  }

  /** A claimed run's transition is refused for one of three reasons. */
  lemma WhyRefused(c: Config, s: State, w: nat, o: Outcome, to: DrillStatus, step: StepName, n: int, next: Point)
    requires Ready(c, s, w) && TransitionPoint(s.workers[w].at, to, step, n, next) && s.workers[w].claimed
    requires TransitionRefused(s, s.workers[w], o, to)
    ensures s.workers[w].id in s.drills
    ensures !o.ok || s.workers[w].ctxDone || s.drills[s.workers[w].id].row.status == Cancelled
  {
    hide DrillOk, SandboxLive, SandboxAbsent, StoredAs, FirstSteps, JobMatches, Checked;
  }

  lemma TransitionSettles(c: Config, s: State, w: nat, o: Outcome, to: DrillStatus, step: StepName, n: int, next: Point)
    requires Ready(c, s, w) && TransitionPoint(s.workers[w].at, to, step, n, next)
    ensures Settled(StepTransition(s, w, o, to, step, n, next), w)
  {
    hide DrillOk, RunOk, CanTransition;
    if TransitionRefused(s, s.workers[w], o, to) {
      hide StepTransition, Leave;
      RefusedTransition(s, w, o, to, step, n, next);
      if s.workers[w].claimed { WhyRefused(c, s, w, o, to, step, n, next); }
      RefusedSettles(s, w, o);
    } else {
      GoesOn(StepTransition(s, w, o, to, step, n, next), w);
    }
  }

  lemma RefusedSettles(s: State, w: nat, o: Outcome)
    requires w in s.workers && RunCovered(s, s.workers[w])
    requires var r := s.workers[w]; r.claimed ==>
      r.id in s.drills && (!o.ok || r.ctxDone || s.drills[r.id].row.status == Cancelled)
    ensures Settled(Leave(Excuse(s, s.workers[w].id, !o.ok), w, s.workers[w]), w)
  {}

  lemma TerminateSettles(c: Config, s: State, w: nat, o: Outcome, status: DrillStatus, reachable: bool)
    requires Ready(c, s, w) && TerminatePoint(s.workers[w].at, status)
    requires !reachable ==> !o.ok || s.workers[w].ctxDone
    ensures Settled(StepTerminate(Excuse(s, s.workers[w].id, !o.ok), w, status, o.now, reachable), w)
  {}

  lemma RecordSandboxSettles(c: Config, s: State, w: nat, o: Outcome)
    requires Ready(c, s, w) && s.workers[w].at == RecordSandbox
    ensures Settled(StepRecordSandbox(s, w, o), w)
  {}

  lemma CommitSettles(c: Config, s: State, w: nat, o: Outcome)
    requires Ready(c, s, w) && s.workers[w].at == Commit
    ensures Settled(StepCommit(s, w, o), w)
  {
    var r := s.workers[w];
    if CommitRefused(s, r, o) {
      assert !o.ok || r.ctxDone || s.drills[r.id].row.status == Cancelled;
    }
  }

  lemma DeleteSettles(c: Config, s: State, w: nat, o: Outcome)
    requires Ready(c, s, w) && DeletePoint(s.workers[w].at)
    ensures Settled(StepDelete(s, w, o), w)
  {}

  /** A run that does not stop at this step. */
  lemma GoesOn(t: State, w: nat)
    requires w in t.workers && !t.workers[w].at.DeleteThenLeave? && !Leaving(t.workers[w].at)
    ensures Settled(t, w)
  {}

  lemma WorkSettles(c: Config, s: State, w: nat, o: Outcome)
    requires w in s.workers
    requires var p := s.workers[w].at; p == Load || p == Stage || p == Persist || p == Restore || p == Connect || p == PutEvidence
    ensures Settled(StepRun(c, s, w, o), w)
  {
    GoesOn(StepRun(c, s, w, o), w);
  }

  lemma SandboxSettles(c: Config, s: State, w: nat, o: Outcome)
    requires w in s.workers && s.workers[w].at == MakeSandbox
    ensures Settled(StepMakeSandbox(s, w, o), w)
  {
    hide Created, Residue, Compact, BaseTaken, Settled;
    GoesOn(StepMakeSandbox(s, w, o), w);
  }

  lemma DestroySettles(s: State, w: nat, o: Outcome)
    requires w in s.workers && s.workers[w].at == DestroySandbox
    ensures Settled(StepDestroy(s, w, o), w)
  {
    var (d, ok) := Destroyed(s.side.docker, Names(s.workers[w].base), o.faults);
    EndedSettles(s, w, d, ok, Residue(d, s.workers[w].base), o.faults != NO_FAULTS);
  }

  lemma EndedSettles(s: State, w: nat, d: Docker, ok: bool, left: bool, fault: bool)
    requires w in s.workers
    ensures Settled(SandboxEnded(s, w, d, ok, left, fault), w)
  {
    GoesOn(SandboxEnded(s, w, d, ok, left, fault), w);
  }

  lemma CleanupSettles(c: Config, s: State, w: nat, d: Docker, left: bool, fault: bool)
    requires Ready(c, s, w) && s.workers[w].at == Cleanup
    ensures var r := s.workers[w];
      Settled(SetRun(DockerDone(s, r.base, d, left, fault), w, r.(at := Done, live := false)), w)
  {}

  lemma FirstSettles(c: Config, s: State, w: nat, o: Outcome)
    requires Ready(c, s, w) && (Early(s.workers[w].at) || Middle(s.workers[w].at))
    ensures Settled(StepRun(c, s, w, o), w)
  {
    hide Settled, DrillOk, FirstSteps, StoredAs, IntegrityHolds;
    var r := s.workers[w];
    match r.at
    case Claim => TransitionSettles(c, s, w, o, Preparing, FetchBackup, 1, Load);
    case LoadFailed => TerminateSettles(c, s, w, o, Inconclusive, o.ok && !r.ctxDone);
    case MakeSandbox => SandboxSettles(c, s, w, o);
    case RecordSandbox => RecordSandboxSettles(c, s, w, o);
    case ToRestoring => TransitionSettles(c, s, w, o, Restoring, RestorePostgres, 3, Restore);
    case ToValidating => TransitionSettles(c, s, w, o, Validating, PostgresConnectivity, 4, Connect);
    case ToFinalizing => TransitionSettles(c, s, w, o, Finalizing, CollectEvidence, 5, PutEvidence);
    case _ => WorkSettles(c, s, w, o);
  }

  lemma LastSettles(c: Config, s: State, w: nat, o: Outcome)
    requires Ready(c, s, w) && !Early(s.workers[w].at) && !Middle(s.workers[w].at) && s.workers[w].at != Done
    ensures Settled(StepRun(c, s, w, o), w)
  {
    hide Settled, StepPut, StepDestroy, StepCommit, StepDelete, StepTerminate, DrillOk, FirstSteps, StoredAs, IntegrityHolds, Destroyed, Residue;
    var r := s.workers[w];
    match r.at
    case PutEvidence => WorkSettles(c, s, w, o);
    case DestroySandbox => DestroySettles(s, w, o);
    case Commit => CommitSettles(c, s, w, o);
    case DeleteThenFail => DeleteSettles(c, s, w, o);
    case DeleteThenLeave => DeleteSettles(c, s, w, o);
    case FailDecide => GoesOn(SetRun(s, w, r.(at := FailWrite(if r.ctxDone then Cancelled else Failed))), w);
    case FailWrite(status) => TerminateSettles(c, s, w, o, status, o.ok);
    case Cleanup =>
      var d := Destroyed(s.side.docker, Names(r.base), o.faults).0;
      CleanupSettles(c, s, w, d, Residue(d, r.base), o.faults != NO_FAULTS);
  }

  // ------------------------------------------------------------------ steps of a run

  lemma CoveredByStep(s: State, t: State, w: nat, id: string)
    requires WritersSane(s) && StepEffect(s, t, w) && t.pool == s.pool && s.log.excused <= t.log.excused && Covered(s, id)
    ensures Covered(t, id)
  {
    if Terminal(s.drills[id].row.status) { FrozenByStep(s, t, w, id); }
  }

  lemma WorkingElsewhere(s: State, t: State, w: nat, id: string)
    requires StepEffect(s, t, w) && Working(s, id) && s.drills[id].claimant != Some(w)
    requires t.drills[id].claimant == s.drills[id].claimant
    ensures Working(t, id)
  {}

  lemma RunsCoveredAfter(s: State, t: State, w: nat)
    requires WritersSane(s) && Progress(s) && StepEffect(s, t, w) && StepFrame(s, t, w) && Settled(t, w)
    requires t.workers[w].claimed && !s.workers[w].claimed ==> !t.workers[w].ctxDone
    ensures forall v :: v in t.workers ==> RunCovered(t, t.workers[v])
  {
    forall v | v in t.workers ensures RunCovered(t, t.workers[v]) {
      assert RunCovered(s, s.workers[v]);
      var id := s.workers[v].id;
      if Covered(s, id) { CoveredByStep(s, t, w, id); }
    }
  }

  lemma DrillsCoveredAfter(c: Config, s: State, t: State, w: nat, id: string)
    requires Inv(c, s) && Inv(c, t) && WritersSane(s)
    requires Progress(s) && StepEffect(s, t, w) && StepFrame(s, t, w) && Settled(t, w)
    requires id in t.drills && t.drills[id].claims == 1
    ensures Covered(t, id) || Working(t, id)
  {
    assert DrillOk(c, s, id) && DrillOk(c, t, id) && RunOk(c, s, w) && RunOk(c, t, w);
    if id == s.workers[w].id && t.workers[w].claimed {
    } else {
      assert s.drills[id].claims == 1;
      if Covered(s, id) { CoveredByStep(s, t, w, id); } else { WorkingElsewhere(s, t, w, id); }
    }
  }

  lemma FreshClaim(c: Config, s: State, w: nat, o: Outcome)
    requires w in s.workers && !s.workers[w].claimed && s.workers[w].at == Claim
    ensures var t := StepRun(c, s, w, o); w in t.workers && (t.workers[w].claimed ==> !t.workers[w].ctxDone)
  {}

  lemma KeepProgressStep(c: Config, s: State, w: nat, o: Outcome)
    requires Inv(c, s) && WritersSane(s) && Progress(s) && w in s.workers && s.workers[w].at != Done
    requires c.configured
    ensures Progress(StepRun(c, s, w, o))
  {
    hide Inv, StepEffect, StepFrame;
    var t := StepRun(c, s, w, o);
    ReadyHere(c, s, w);
    RunEffect(c, s, w, o);
    RunFrame(c, s, w, o);
    KeepRun(c, s, w, o);
    if Early(s.workers[w].at) || Middle(s.workers[w].at) { FirstSettles(c, s, w, o); } else { LastSettles(c, s, w, o); }
    if !s.workers[w].claimed { FreshClaim(c, s, w, o); }
    AfterStep(c, s, t, w);
  }

  lemma ReadyHere(c: Config, s: State, w: nat)
    requires Inv(c, s) && Progress(s) && w in s.workers
    ensures Ready(c, s, w)
  {
    assert RunOk(c, s, w) && RunCovered(s, s.workers[w]);
  }

  lemma RegisteredAfter(s: State, t: State, w: nat)
    requires Registered(s) && StepEffect(s, t, w) && w in t.workers && t.pool == s.pool
    ensures Registered(t)
  {}

  lemma AfterStep(c: Config, s: State, t: State, w: nat)
    requires Inv(c, s) && Inv(c, t) && WritersSane(s) && Progress(s)
    requires StepEffect(s, t, w) && StepFrame(s, t, w) && Settled(t, w)
    requires t.workers[w].claimed && !s.workers[w].claimed ==> !t.workers[w].ctxDone
    ensures Progress(t)
  {
    RunsCoveredAfter(s, t, w);
    RegisteredAfter(s, t, w);
    forall id | id in t.drills && t.drills[id].claims == 1 ensures Covered(t, id) || Working(t, id) {
      DrillsCoveredAfter(c, s, t, w, id);
    }
  }

  lemma KeepProgressDone(c: Config, s: State, w: nat, o: Outcome)
    requires Inv(c, s) && Progress(s) && w in s.workers && s.workers[w].at == Done
    ensures Progress(StepRun(c, s, w, o))
  {
    var t := StepRun(c, s, w, o);
    forall id | id in t.drills && t.drills[id].claims == 1 ensures Covered(t, id) || Working(t, id) {
      assert Covered(s, id) || Working(s, id);
    }
    forall v | v in t.workers ensures RunCovered(t, t.workers[v]) { assert RunCovered(s, s.workers[v]); }
  }

  // ------------------------------------------------------------------ other actors

  /** An actor that only adds excuses and requests. */
  lemma KeepQuiet(c: Config, s: State, t: State)
    requires Progress(s) && t.drills == s.drills && t.workers == s.workers
    requires t.pool.running == s.pool.running && s.log.excused <= t.log.excused && s.pool.cancels <= t.pool.cancels
    ensures Progress(t)
  {
    forall id | id in t.drills && t.drills[id].claims == 1 ensures Covered(t, id) || Working(t, id) {
      assert Covered(s, id) || Working(s, id);
    }
    forall v | v in t.workers ensures RunCovered(t, t.workers[v]) { assert RunCovered(s, s.workers[v]); }
  }

  /** Ending the context of a run whose drill is covered afterwards. */
  lemma KeepCancelRun(s: State, t: State, w: nat)
    requires Progress(s) && t.drills == s.drills && w in s.workers
    requires t.workers == s.workers[w := s.workers[w].(ctxDone := true)]
    requires t.pool.running == s.pool.running && s.log.excused <= t.log.excused && s.pool.cancels <= t.pool.cancels
    requires s.workers[w].claimed ==> Covered(t, s.workers[w].id)
    ensures Progress(t)
  {
    forall id | id in t.drills && t.drills[id].claims == 1 ensures Covered(t, id) || Working(t, id) {
      assert Covered(s, id) || Working(s, id);
    }
    forall v | v in t.workers ensures RunCovered(t, t.workers[v]) { assert RunCovered(s, s.workers[v]); }
  }

  lemma RegisteredDrill(c: Config, s: State, id: string)
    requires Inv(c, s) && Progress(s) && id in s.pool.running
    ensures var w := s.pool.running[id];
      w in s.workers && s.workers[w].id == id && (s.workers[w].claimed ==> id in s.drills)
  {
    assert RunOk(c, s, s.pool.running[id]);
  }

  lemma ContextCancelled(s: State, org: string, id: string)
    requires id in s.pool.running && s.pool.running[id] in s.workers && s.workers[s.pool.running[id]].id == id
    ensures var t := ApplyCancelContext(s, org, id); var w := s.pool.running[id];
      && t.drills == s.drills && t.workers == s.workers[w := s.workers[w].(ctxDone := true)]
      && t.pool.running == s.pool.running && s.log.excused <= t.log.excused && s.pool.cancels <= t.pool.cancels
      && (id in s.drills ==> Covered(t, id))
  {}

  lemma KeepProgressCancelContext(c: Config, s: State, org: string, id: string)
    requires Inv(c, s) && Progress(s)
    ensures Progress(ApplyCancelContext(s, org, id))
  {
    var t := ApplyCancelContext(s, org, id);
    if id in s.pool.running {
      RegisteredDrill(c, s, id);
      ContextCancelled(s, org, id);
      hide Inv, Progress, Covered, ApplyCancelContext;
      KeepCancelRun(s, t, s.pool.running[id]);
    } else {
      KeepQuiet(c, s, t);
    }
  }

  lemma KeepProgressTimeout(c: Config, s: State, w: nat)
    requires Inv(c, s) && Progress(s)
    ensures Progress(CancelRun(s, w, true))
  {
    if w in s.workers {
      assert RunOk(c, s, w);
      KeepCancelRun(s, CancelRun(s, w, true), w);
    }
  }

  lemma KeepProgressShutdown(c: Config, s: State)
    requires Inv(c, s) && Progress(s)
    ensures Progress(ApplyShutdown(s))
  {
    var t := ApplyShutdown(s);
    forall id | id in t.drills && t.drills[id].claims == 1 ensures Covered(t, id) || Working(t, id) {
      assert Covered(s, id) || Working(s, id);
    }
    forall v | v in t.workers ensures RunCovered(t, t.workers[v]) { assert RunOk(c, s, v); }
  }

  lemma CreateLeaves(s: State, org: string, header: string, uuid: string, id: string, assetExists: bool, i: string)
    ensures var t := ApplyCreate(s, org, header, uuid, id, assetExists);
      && (i in s.drills ==> i in t.drills && t.drills[i] == s.drills[i])
      && (i in t.drills && i !in s.drills ==> t.drills[i].claims == 0)
      && (Covered(s, i) ==> Covered(t, i)) && (Working(s, i) ==> Working(t, i))
      && t.workers == s.workers && t.pool.running == s.pool.running
  {}

  lemma KeepProgressCreate(c: Config, s: State, org: string, header: string, uuid: string, id: string, assetExists: bool)
    requires Inv(c, s) && Progress(s)
    ensures Progress(ApplyCreate(s, org, header, uuid, id, assetExists))
  {
    var t := ApplyCreate(s, org, header, uuid, id, assetExists);
    forall i | i in t.drills && t.drills[i].claims == 1 ensures Covered(t, i) || Working(t, i) {
      CreateLeaves(s, org, header, uuid, id, assetExists, i);
    }
    forall v | v in t.workers ensures RunCovered(t, t.workers[v]) {
      assert RunCovered(s, s.workers[v]) && RunOk(c, s, v);
      if s.workers[v].id in s.drills { CreateLeaves(s, org, header, uuid, id, assetExists, s.workers[v].id); }
    }
  }

  lemma CoveredByCancelRow(s: State, org: string, id: string, ok: bool, now: int, i: string)
    requires Covered(s, i)
    ensures Covered(ApplyCancelRow(s, org, id, ok, now), i)
  {
    if i == id && org == s.drills[i].row.org {
    } else {
      assert (s.drills[i].row.org, i) != (org, id);
    }
  }

  lemma WorkingByCancelRow(s: State, org: string, id: string, ok: bool, now: int, i: string)
    requires Working(s, i)
    ensures Working(ApplyCancelRow(s, org, id, ok, now), i)
  {
    CancelRowShape(s, org, id, ok, now);
  }

  lemma KeepProgressCancelRow(c: Config, s: State, org: string, id: string, ok: bool, now: int)
    requires Progress(s)
    ensures Progress(ApplyCancelRow(s, org, id, ok, now))
  {
    hide ApplyCancelRow, Covered, Working, RunCovered;
    var t := ApplyCancelRow(s, org, id, ok, now);
    PoolByCancelRow(s, org, id, ok, now);
    forall i | i in t.drills && t.drills[i].claims == 1 ensures Covered(t, i) || Working(t, i) {
      if Covered(s, i) { CoveredByCancelRow(s, org, id, ok, now, i); } else { WorkingByCancelRow(s, org, id, ok, now, i); }
    }
    forall v | v in t.workers ensures RunCovered(t, t.workers[v]) {
      RunByCancelRow(s, org, id, ok, now, v);
    }
  }

  lemma PoolByCancelRow(s: State, org: string, id: string, ok: bool, now: int)
    ensures var t := ApplyCancelRow(s, org, id, ok, now);
      && t.pool.running == s.pool.running && t.workers == s.workers && t.drills.Keys == s.drills.Keys
      && forall i :: i in s.drills ==> t.drills[i].claims == s.drills[i].claims
  {
    RunningByCancelRow(s, org, id, ok, now);
    CancelRowShape(s, org, id, ok, now);
    hide ApplyCancelRow;
  }

  lemma RunningByCancelRow(s: State, org: string, id: string, ok: bool, now: int)
    ensures ApplyCancelRow(s, org, id, ok, now).pool.running == s.pool.running
  {
    hide UserCancelled;
  }

  lemma RunByCancelRow(s: State, org: string, id: string, ok: bool, now: int, v: nat)
    requires v in s.workers && RunCovered(s, s.workers[v])
    ensures RunCovered(ApplyCancelRow(s, org, id, ok, now), s.workers[v])
  {
    hide ApplyCancelRow;
    if Covered(s, s.workers[v].id) { CoveredByCancelRow(s, org, id, ok, now, s.workers[v].id); }
  }

  lemma KeepProgressDequeue(c: Config, s: State, w: nat)
    requires Progress(s)
    ensures Progress(ApplyDequeue(c, s, w))
  {
    var t := ApplyDequeue(c, s, w);
    forall i | i in t.drills && t.drills[i].claims == 1 ensures Covered(t, i) || Working(t, i) {
      assert Covered(s, i) || Working(s, i);
    }
    forall v | v in t.workers ensures RunCovered(t, t.workers[v]) {
      if v in s.workers { assert RunCovered(s, s.workers[v]); }
    }
  }

  // --------------------------------------------------------------------- whole runs

  lemma KeepProgress(c: Config, s: State, a: Action)
    requires Inv(c, s) && WritersSane(s) && Progress(s) && c.configured
    ensures Progress(Apply(c, s, a))
  {
    hide Inv, Progress;
    match a
    case CreateDrill(org, header, uuid, id, assetExists) => KeepProgressCreate(c, s, org, header, uuid, id, assetExists);
    case Submit(id) => KeepQuiet(c, s, Enqueue(Taken(s, id), id));
    case Resubmit(id) => KeepQuiet(c, s, Enqueue(s, id));
    case CancelContext(org, id) => KeepProgressCancelContext(c, s, org, id);
    case CancelRow(org, id, ok, now) => KeepProgressCancelRow(c, s, org, id, ok, now);
    case Timeout(w) => KeepProgressTimeout(c, s, w);
    case Shutdown => KeepProgressShutdown(c, s);
    case Dequeue(w) => KeepProgressDequeue(c, s, w);
    case Step(w, o) =>
      if w in s.workers {
        if s.workers[w].at == Done { KeepProgressDone(c, s, w, o); } else { KeepProgressStep(c, s, w, o); }
      }
  }

  lemma {:induction false} ProgressReplay(c: Config, s: State, actions: seq<Action>)
    requires Inv(c, s) && WritersSane(s) && Progress(s) && c.configured
    ensures Progress(Replay(c, s, actions))
    decreases |actions|
  {
    if actions != [] {
      KeepProgress(c, s, actions[0]);
      KeepAction(c, s, actions[0]);
      KeepSane(c, s, actions[0]);
      ProgressReplay(c, Apply(c, s, actions[0]), actions[1..]);
    }
  }

  /** No run for the drill is in flight any more. */
  predicate RunOver(s: State, id: string) {
    forall w | w in s.workers :: s.workers[w].id == id ==> !s.workers[w].claimed
  }

  /** Every claimed drill whose run is over is terminal, in every reachable state, unless it
      is excused or a cancel of its own organisation has yet to update the row. */
  lemma ClaimedDrillsEnd(c: Config, objects: map<string, Bytes>, actions: seq<Action>, id: string)
    requires c.configured && NoEvidenceYet(objects)
    requires var s := Replay(c, Initial(c, objects), actions);
      && id in s.drills && s.drills[id].claims == 1 && RunOver(s, id)
      && id !in s.log.excused && (s.drills[id].row.org, id) !in s.pool.cancels
    ensures Terminal(Replay(c, Initial(c, objects), actions).drills[id].row.status)
  {
    ProgressReplay(c, Initial(c, objects), actions);
    var s := Replay(c, Initial(c, objects), actions);
    assert Covered(s, id) || Working(s, id);
  }

  // ------------------------------------------------ why a foreign cancel is an excuse

  /** A drill is claimed, somebody of organisation `org` cancels it, the run ends, and the
      cancel request finishes. No call of any store fails. */
  function CancelStory(org: string, o: Outcome): seq<Action> {
    [CreateDrill("acme", "k", "", "d", true), Submit("d"), Dequeue(0), Step(0, o)]
    + ([CancelContext(org, "d"), Step(0, o), Step(0, o)] + [Step(0, o), CancelRow(org, "d", true, o.now)])
  }

  lemma QueuedInStory(c: Config, s0: State) returns (s: State)
    requires s0 == Initial(c, s0.objects)
    ensures s == Apply(c, Apply(c, s0, CreateDrill("acme", "k", "", "d", true)), Submit("d"))
    ensures s.drills.Keys == {"d"} && s.drills["d"].claims == 0 && s.drills["d"].row.status == Queued
    ensures s.drills["d"].row.org == "acme" && s.drills["d"].row.startedAt == None
    ensures s.workers == map[] && s.pool.jobs == ["d"] && s.pool.running == map[] && s.pool.cancels == multiset{}
    ensures !s.pool.closed
  {
    var s1 := Apply(c, s0, CreateDrill("acme", "k", "", "d", true));
    s := Apply(c, s1, Submit("d"));
    assert s.pool.jobs == ["d"];
  }

  lemma ClaimedInStory(c: Config, s0: State, o: Outcome) returns (s: State)
    requires c.configured && c.concurrency > 0 && o.ok && s0 == Initial(c, s0.objects)
    ensures s == Apply(c, Apply(c, Apply(c, Apply(c, s0, CreateDrill("acme", "k", "", "d", true)), Submit("d")), Dequeue(0)), Step(0, o))
    ensures "d" in s.drills && s.drills["d"].claims == 1 && s.drills["d"].row.status == Preparing
    ensures s.drills["d"].row.org == "acme"
    ensures s.workers.Keys == {0} && s.workers[0].at == Load && s.workers[0].id == "d" && !s.workers[0].live
    ensures s.pool.running.Keys == {"d"} && s.pool.running["d"] == 0 && s.pool.cancels == multiset{}
  {
    var s2 := QueuedInStory(c, s0);
    var s3 := Apply(c, s2, Dequeue(0));
    assert s3 == s2.(workers := s3.workers, pool := s2.pool.(jobs := [], running := map["d" := 0]));
    assert s3.workers == map[0 := Run("d", Claim, false, false, false, "", None, [], 0, None)];
    s := ClaimsInStory(c, s3, o);
  }

  lemma ClaimsInStory(c: Config, s: State, o: Outcome) returns (t: State)
    requires o.ok && s.drills.Keys == {"d"} && s.drills["d"].claims == 0 && s.drills["d"].row.status == Queued
    requires s.workers == map[0 := Run("d", Claim, false, false, false, "", None, [], 0, None)]
    ensures t == Apply(c, s, Step(0, o)) && t.pool == s.pool && t.workers.Keys == {0}
    ensures "d" in t.drills && t.drills["d"].claims == 1 && t.drills["d"].row.status == Preparing
    ensures t.drills["d"].row.org == s.drills["d"].row.org
    ensures t.workers[0].at == Load && t.workers[0].id == "d" && !t.workers[0].live
  {
    t := Apply(c, s, Step(0, o));
  }

  lemma LeftInStory(c: Config, s4: State, org: string, o: Outcome) returns (s: State)
    requires o.ok
    requires "d" in s4.drills && s4.drills["d"].row.status == Preparing && s4.drills["d"].row.org == "acme"
    requires s4.workers.Keys == {0} && s4.workers[0].at == Load && s4.workers[0].id == "d" && !s4.workers[0].live
    requires s4.pool.running.Keys == {"d"} && s4.pool.running["d"] == 0 && s4.pool.cancels == multiset{}
    ensures s == Apply(c, Apply(c, Apply(c, s4, CancelContext(org, "d")), Step(0, o)), Step(0, o))
    ensures s.drills == s4.drills && s.workers.Keys == {0} && s.workers[0].at == Done
    ensures s.pool.cancels == multiset{(org, "d")}
  {
    var s5 := Apply(c, s4, CancelContext(org, "d"));
    assert s5.workers.Keys == {0} && s5.workers[0] == s4.workers[0].(ctxDone := true);
    assert s5.pool.cancels == multiset{(org, "d")};
    s := GivesUp(c, s5, o);
  }

  /** A run whose context ends before the load leaves its drill as it is. */
  lemma GivesUp(c: Config, s: State, o: Outcome) returns (t: State)
    requires o.ok && s.workers.Keys == {0}
    requires s.workers[0].at == Load && s.workers[0].ctxDone && !s.workers[0].live
    ensures t == Apply(c, Apply(c, s, Step(0, o)), Step(0, o))
    ensures t.drills == s.drills && t.workers.Keys == {0} && t.workers[0].at == Done && t.pool == s.pool
  {
    var u := Apply(c, s, Step(0, o));
    assert u == SetRun(s, 0, s.workers[0].(at := LoadFailed));
    t := Apply(c, u, Step(0, o));
  }

  lemma CancelledInStory(c: Config, s7: State, org: string, o: Outcome) returns (s: State)
    requires "d" in s7.drills && s7.drills["d"].row.status == Preparing && s7.drills["d"].row.org == "acme"
    requires s7.workers.Keys == {0} && s7.workers[0].at == Done && s7.pool.cancels == multiset{(org, "d")}
    ensures s == Apply(c, Apply(c, s7, Step(0, o)), CancelRow(org, "d", true, o.now))
    ensures "d" in s.drills && s.drills["d"].claims == s7.drills["d"].claims && s.drills["d"].row.org == "acme"
    ensures s.workers == map[] && s.pool.cancels == multiset{}
    ensures s.drills["d"].row.status == if org == "acme" then Cancelled else Preparing
  {
    var s8 := FinishedInStory(c, s7, o);
    hide StepRun;
    s := Apply(c, s8, CancelRow(org, "d", true, o.now));
  }

  lemma FinishedInStory(c: Config, s7: State, o: Outcome) returns (s8: State)
    requires s7.workers.Keys == {0} && s7.workers[0].at == Done
    ensures s8 == Apply(c, s7, Step(0, o))
    ensures s8.workers == map[] && s8.drills == s7.drills && s8.pool.cancels == s7.pool.cancels
  {
    s8 := Apply(c, s7, Step(0, o));
    assert s7.workers - {0} == map[];
  }

  /** At the end of this one story, whose cancel comes between claim and load, the claimed
      drill is terminal exactly when the cancel came from the drill's own organisation; what
      holds for every run and every point is proved in `DrillExits`. */
  lemma CancelledAtLoad(c: Config, objects: map<string, Bytes>, org: string, o: Outcome)
    requires c.configured && c.concurrency > 0 && o.ok
    ensures var s := Replay(c, Initial(c, objects), CancelStory(org, o));
      && "d" in s.drills && s.drills["d"].claims == 1 && RunOver(s, "d") && s.pool.cancels == multiset{}
      && (Terminal(s.drills["d"].row.status) <==> org == s.drills["d"].row.org)
  {
    var s0 := Initial(c, objects);
    var s4 := ClaimedInStory(c, s0, o);
    var s7 := LeftInStory(c, s4, org, o);
    var s9 := CancelledInStory(c, s7, org, o);
    StoryReplayed(c, s0, s4, s7, s9, org, o);
  }

  lemma StoryReplayed(c: Config, s0: State, s4: State, s7: State, s9: State, org: string, o: Outcome)
    requires s4 == Apply(c, Apply(c, Apply(c, Apply(c, s0, CreateDrill("acme", "k", "", "d", true)), Submit("d")), Dequeue(0)), Step(0, o))
    requires s7 == Apply(c, Apply(c, Apply(c, s4, CancelContext(org, "d")), Step(0, o)), Step(0, o))
    requires s9 == Apply(c, Apply(c, s7, Step(0, o)), CancelRow(org, "d", true, o.now))
    ensures Replay(c, s0, CancelStory(org, o)) == s9
  {
    var first := [CreateDrill("acme", "k", "", "d", true), Submit("d"), Dequeue(0), Step(0, o)];
    var second := [CancelContext(org, "d"), Step(0, o), Step(0, o)];
    var third := [Step(0, o), CancelRow(org, "d", true, o.now)];
    ReplayFour(c, s0, first[0], first[1], first[2], first[3]);
    ReplayThree(c, s4, second[0], second[1], second[2]);
    ReplayTwo(c, s7, third[0], third[1]);
    ReplayAppend(c, s4, second, third);
    ReplayAppend(c, s0, first, second + third);
  }
}
