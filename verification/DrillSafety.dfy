/** Guarantees over whole runs of the drill protocol. */
module DrillSafety {
  import opened Prelude
  import opened Domain
  import opened Sandbox
  import opened Drills
  import opened DrillInvariant
  import opened DrillSteps

  // ----------------------------------------------------- who may write what to a row

  predicate TerminalWriter(p: Point) { p.LoadFailed? || p.FailWrite? || p.GiveUp? }

  /** The changes an action may make to a drill: none to the row, an edge of the table, or
      a terminal status by one of the three terminal writers; only leaving QUEUED for
      PREPARING counts as a claim, and a start is never changed. */
  predicate DrillStep(p: Point, d: Drill, e: Drill) {
    && (e.row == d.row
        || if TerminalWriter(p)
           then !Terminal(d.row.status) && e.row.status == if p.FailWrite? then p.status else Inconclusive
           else CanTransition(d.row.status, e.row.status))
    && (if e.claims == d.claims then e.claimant == d.claimant
        else d.claims < e.claims && d.row.status == Queued && e.row.status == Preparing)
    && e.row.org == d.row.org && e.row.key == d.row.key
    && (d.row.startedAt.Some? ==> e.row.startedAt == d.row.startedAt)
    && (d.row.status == Succeeded ==> e.basis == d.basis)
  }

  /** `fail` writes FAILED or CANCELLED. */
  predicate SaneFail(p: Point) { p.FailWrite? ==> p.status.Failed? || p.status.Cancelled? }

  /** The points at which a run need not hold the claim. */
  predicate Unclaimed(p: Point) {
    p.Claim? || p.Cleanup? || p.Done? || p.PrepareOnly? || p.GiveUp?
  }

  predicate Unconfigured(p: Point) { p.PrepareOnly? || p.GiveUp? }

  lemma ConfiguredPoint(c: Config, s: State, w: nat)
    requires Here(c, s, w)
    ensures !Unconfigured(s.workers[w].at)
  {}

  /** The effect of one step of worker `w` on the drills and on itself. */
  ghost predicate StepEffect(s: State, t: State, w: nat) {
    && w in s.workers && SameRuns(s, t, w)
    && t.drills.Keys == s.drills.Keys
    && var r := s.workers[w];
    && (forall i :: i in s.drills && i != r.id ==> t.drills[i] == s.drills[i])
    && (r.id in s.drills && SaneFail(r.at) ==> DrillStep(r.at, s.drills[r.id], t.drills[r.id]))
    && (r.id in s.drills && t.drills[r.id].claims != s.drills[r.id].claims ==> w in t.workers && t.workers[w].claimed)
    && (w in t.workers ==>
          && t.workers[w].id == r.id && (r.claimed ==> t.workers[w].claimed)
          && (Unclaimed(r.at) && !Unclaimed(t.workers[w].at) ==> r.id in t.drills && t.drills[r.id].row.status != Queued)
          && SaneFail(t.workers[w].at)
          && (Unconfigured(t.workers[w].at) ==> Unconfigured(r.at)))
  }

  lemma ClaimEffect(s: State, w: nat, o: Outcome, step: StepName, n: int, next: Point)
    requires w in s.workers && !TerminalWriter(s.workers[w].at) && !next.FailWrite?
    requires Unconfigured(next) ==> Unconfigured(s.workers[w].at)
    requires !TransitionRefused(s, s.workers[w], o, Preparing)
    ensures StepEffect(s, StepTransition(s, w, o, Preparing, step, n, next), w)
  {
    hide InsertStep;
  }

  lemma AllowedEffect(s: State, w: nat, o: Outcome, to: DrillStatus, step: StepName, n: int, next: Point)
    requires w in s.workers && !TerminalWriter(s.workers[w].at) && to != Queued && !next.FailWrite?
    requires Unconfigured(next) ==> Unconfigured(s.workers[w].at)
    requires !TransitionRefused(s, s.workers[w], o, to)
    ensures StepEffect(s, StepTransition(s, w, o, to, step, n, next), w)
  {
    if to == Preparing {
      ClaimEffect(s, w, o, step, n, next);
    } else {
      TransitionShape(s, w, o, to, step, n, next);
    }
    hide InsertStep, StepTransition;
  }

  lemma TransitionEffect(s: State, w: nat, o: Outcome, to: DrillStatus, step: StepName, n: int, next: Point)
    requires w in s.workers && !TerminalWriter(s.workers[w].at) && to != Queued && !next.FailWrite?
    requires Unconfigured(next) ==> Unconfigured(s.workers[w].at)
    ensures StepEffect(s, StepTransition(s, w, o, to, step, n, next), w)
  {
    if TransitionRefused(s, s.workers[w], o, to) {
      RefusedTransition(s, w, o, to, step, n, next);
      hide StepTransition;
      LeaveHarmless(s, Excuse(s, s.workers[w].id, !o.ok), w);
    } else {
      AllowedEffect(s, w, o, to, step, n, next);
    }
  }

  lemma LeaveHarmless(s: State, t: State, w: nat)
    requires w in s.workers && t.drills == s.drills && t.workers == s.workers
    ensures StepEffect(s, Leave(t, w, s.workers[w]), w)
  {}

  lemma TerminateEffect(s: State, w: nat, status: DrillStatus, now: int, reachable: bool)
    requires w in s.workers && TerminalWriter(s.workers[w].at)
    requires s.workers[w].at.FailWrite? ==> s.workers[w].at.status == status
    requires !s.workers[w].at.FailWrite? ==> status == Inconclusive
    ensures StepEffect(s, StepTerminate(s, w, status, now, reachable), w)
  {}

  /** Only the run itself moves. */
  lemma MoveHarmless(s: State, t: State, w: nat)
    requires w in s.workers && w in t.workers && SameRuns(s, t, w) && t.drills == s.drills
    requires t.workers[w].id == s.workers[w].id && !Unconfigured(t.workers[w].at)
    requires s.workers[w].claimed ==> t.workers[w].claimed
    requires !Unclaimed(s.workers[w].at) || Unclaimed(t.workers[w].at)
    requires SaneFail(t.workers[w].at)
    ensures StepEffect(s, t, w)
  {}

  lemma ReachHarmless(s: State, t: State, w: nat, m: Milestone, next: Run)
    requires w in s.workers && t.drills == s.drills && t.workers == s.workers
    requires next.id == s.workers[w].id && !Unconfigured(next.at) && !Unclaimed(s.workers[w].at) && !next.at.FailWrite?
    requires next.claimed == s.workers[w].claimed
    ensures StepEffect(s, StepReach(t, w, m, next), w)
  {}

  lemma ReachOrFailHarmless(s: State, t: State, w: nat, m: Milestone, next: Run, passed: bool)
    requires w in s.workers && t.drills == s.drills && t.workers == s.workers
    requires next.id == s.workers[w].id && !Unconfigured(next.at) && !Unclaimed(s.workers[w].at) && !next.at.FailWrite?
    requires next.claimed == s.workers[w].claimed
    ensures StepEffect(s, ReachOrFail(t, w, m, next, passed), w)
  {
    if passed {
      ReachHarmless(s, t, w, m, next);
    } else {
      MoveHarmless(s, ReachOrFail(t, w, m, next, passed), w);
    }
  }

  lemma MadeHarmless(s: State, w: nat, base: string, d: Docker, ok: bool, left: bool, fault: bool)
    requires w in s.workers && s.workers[w].at == MakeSandbox
    ensures StepEffect(s, SandboxMade(s, w, base, d, ok, left, fault), w)
  {
    var r := s.workers[w];
    var t := Drawn(DockerDone(s, base, d, left && !ok, fault && !ok), base, r.id);
    ReachOrFailHarmless(s, t, w, SandboxReady, r.(at := Persist, live := true, base := base), ok);
  }

  lemma MakeSandboxEffect(s: State, w: nat, o: Outcome)
    requires w in s.workers && s.workers[w].at == MakeSandbox
    ensures StepEffect(s, StepMakeSandbox(s, w, o), w)
  {
    var r := s.workers[w];
    var base := BaseName(Compact(r.id), o.suffix);
    if Compact(r.id) == "" || BaseTaken(s, base) {
      MoveHarmless(s, SetRun(s, w, r.(at := FailDecide)), w);
    } else {
      var (d, ok) := Created(s.side.docker, base, o.env);
      MadeHarmless(s, w, base, d, ok, Residue(d, base), o.env.faults != NO_FAULTS);
    }
  }

  lemma PersistEffect(s: State, w: nat, o: Outcome)
    requires w in s.workers && s.workers[w].at == Persist
    ensures StepEffect(s, StepPersist(s, w, o), w)
  {
    if !o.ok || s.workers[w].ctxDone || s.workers[w].id !in s.drills {
      MoveHarmless(s, StepPersist(s, w, o), w);
    }
  }

  lemma RecordSandboxEffect(s: State, w: nat, o: Outcome)
    requires w in s.workers && s.workers[w].at == RecordSandbox
    ensures StepEffect(s, StepRecordSandbox(s, w, o), w)
  {
    hide InsertStep;
  }

  lemma PutEffect(c: Config, s: State, w: nat, o: Outcome)
    requires w in s.workers && s.workers[w].at == PutEvidence
    ensures StepEffect(s, StepPut(c, s, w, o), w)
  {
    var r := s.workers[w];
    if !o.ok || r.job.None? {
      MoveHarmless(s, StepPut(c, s, w, o), w);
    } else {
      var t := s.(objects := s.objects[EvidenceKey(r.job.value.org, r.id) := o.payload]);
      ReachHarmless(s, t, w, EvidenceStored,
        r.(at := DestroySandbox, artifact := Some(Artifact(r.id, |o.payload|, c.hash(o.payload)))));
    }
  }

  lemma EndedEffect(s: State, w: nat, d: Docker, ok: bool, left: bool, fault: bool)
    requires w in s.workers && s.workers[w].at == DestroySandbox
    ensures StepEffect(s, SandboxEnded(s, w, d, ok, left, fault), w)
  {
    var r := s.workers[w];
    var t := DockerDone(s, r.base, d, left, fault);
    if ok {
      ReachHarmless(s, t, w, SandboxGone, r.(at := Commit, live := false));
    } else {
      MoveHarmless(s, SandboxEnded(s, w, d, ok, left, fault), w);
    }
  }

  lemma DestroyEffect(s: State, w: nat, o: Outcome)
    requires w in s.workers && s.workers[w].at == DestroySandbox
    ensures StepEffect(s, StepDestroy(s, w, o), w)
  {
    var (d, ok) := Destroyed(s.side.docker, Names(s.workers[w].base), o.faults);
    EndedEffect(s, w, d, ok, Residue(d, s.workers[w].base), o.faults != NO_FAULTS);
  }

  predicate CommitStops(s: State, r: Run, o: Outcome) {
    CommitRefused(s, r, o) || r.job.None? || r.artifact.None?
  }

  lemma CommittedEffect(s: State, w: nat, o: Outcome)
    requires w in s.workers && s.workers[w].at == Commit && !CommitStops(s, s.workers[w], o)
    ensures StepEffect(s, StepCommit(s, w, o), w)
  {
    hide MeasureRPO, MeasureRTO, EvaluatePolicy, Verdict, EvidenceKey;
  }

  lemma CommitEffect(s: State, w: nat, o: Outcome)
    requires w in s.workers && s.workers[w].at == Commit
    ensures StepEffect(s, StepCommit(s, w, o), w)
  {
    hide StepEffect, Completed, EvidenceKey;
    if CommitStops(s, s.workers[w], o) { MoveHarmless(s, StepCommit(s, w, o), w); } else { CommittedEffect(s, w, o); }
  }

  lemma RetargetEffect(s: State, t: State, w: nat)
    requires StepEffect(s, t, w) && s.workers[w].at == PrepareOnly && w in t.workers
    ensures StepEffect(s, SetRun(t, w, t.workers[w].(at := GiveUp)), w)
  {}

  lemma PrepareOnlyEffect(s: State, w: nat, o: Outcome)
    requires w in s.workers && s.workers[w].at == PrepareOnly
    ensures var t := StepTransition(s, w, o, Preparing, PrepareDrill, 1, GiveUp);
      w in t.workers && StepEffect(s, SetRun(t, w, t.workers[w].(at := GiveUp)), w)
  {
    TransitionEffect(s, w, o, Preparing, PrepareDrill, 1, GiveUp);
    RetargetEffect(s, StepTransition(s, w, o, Preparing, PrepareDrill, 1, GiveUp), w);
  }

  lemma ExcusedEffect(s: State, t: State, w: nat, id: string, when: bool)
    requires StepEffect(Excuse(s, id, when), t, w)
    ensures StepEffect(s, t, w)
  {}

  lemma ExcusedTerminate(s: State, w: nat, status: DrillStatus, now: int, reachable: bool, when: bool)
    requires w in s.workers && TerminalWriter(s.workers[w].at)
    requires s.workers[w].at.FailWrite? ==> s.workers[w].at.status == status
    requires !s.workers[w].at.FailWrite? ==> status == Inconclusive
    ensures StepEffect(s, StepTerminate(Excuse(s, s.workers[w].id, when), w, status, now, reachable), w)
  {
    var t := Excuse(s, s.workers[w].id, when);
    TerminateEffect(t, w, status, now, reachable);
    ExcusedEffect(s, StepTerminate(t, w, status, now, reachable), w, s.workers[w].id, when);
  }

  lemma LoadEffect(s: State, w: nat, o: Outcome)
    requires w in s.workers && s.workers[w].at == Load
    ensures StepEffect(s, StepLoad(s, w, o), w)
  {
    MoveHarmless(s, StepLoad(s, w, o), w);
  }

  lemma EarlyEffect(c: Config, s: State, w: nat, o: Outcome)
    requires w in s.workers && Early(s.workers[w].at)
    ensures StepEffect(s, StepRun(c, s, w, o), w)
  {
    var r := s.workers[w];
    match r.at
    case Claim => TransitionEffect(s, w, o, Preparing, FetchBackup, 1, Load);
    case Load => LoadEffect(s, w, o);
    case LoadFailed => ExcusedTerminate(s, w, Inconclusive, o.now, o.ok && !r.ctxDone, !o.ok);
    case Stage =>
      ReachOrFailHarmless(s, s, w, IntegrityChecked, r.(at := MakeSandbox, staged := Download(s, r)), StagePasses(c, s, r, o));
    case MakeSandbox => MakeSandboxEffect(s, w, o);
  }

  lemma MiddleEffect(c: Config, s: State, w: nat, o: Outcome)
    requires w in s.workers && Middle(s.workers[w].at)
    ensures StepEffect(s, StepRun(c, s, w, o), w)
  {
    hide StepEffect;
    var r := s.workers[w];
    match r.at
    case Persist => PersistEffect(s, w, o);
    case RecordSandbox => RecordSandboxEffect(s, w, o);
    case ToRestoring => TransitionEffect(s, w, o, Restoring, RestorePostgres, 3, Restore);
    case Restore => ReachOrFailHarmless(s, s, w, Restored, r.(at := ToValidating), o.ok);
    case ToValidating => TransitionEffect(s, w, o, Validating, PostgresConnectivity, 4, Connect);
    case Connect => ReachOrFailHarmless(s, s, w, Connected, r.(at := ToFinalizing, readyAt := o.now), o.ok);
    case ToFinalizing => TransitionEffect(s, w, o, Finalizing, CollectEvidence, 5, PutEvidence);
  }

  lemma DeleteMoves(s: State, w: nat, o: Outcome)
    requires w in s.workers && DeletePoint(s.workers[w].at)
    ensures StepEffect(s, StepDelete(s, w, o), w)
  {
    MoveHarmless(s, StepDelete(s, w, o), w);
  }

  lemma LateEffect(c: Config, s: State, w: nat, o: Outcome)
    requires w in s.workers && !Early(s.workers[w].at) && !Middle(s.workers[w].at)
    ensures StepEffect(s, StepRun(c, s, w, o), w)
  {
    hide StepEffect;
    var r := s.workers[w];
    match r.at
    case PutEvidence => PutEffect(c, s, w, o);
    case DestroySandbox => DestroyEffect(s, w, o);
    case Commit => CommitEffect(s, w, o);
    case DeleteThenFail => DeleteMoves(s, w, o);
    case DeleteThenLeave => DeleteMoves(s, w, o);
    case PrepareOnly => PrepareOnlyEffect(s, w, o);
    case GiveUp => TerminateEffect(s, w, Inconclusive, o.now, o.ok);
    case _ => LastEffect(c, s, w, o);
  }

  lemma CleanupEffect(s: State, w: nat, d: Docker, left: bool, fault: bool)
    requires w in s.workers && s.workers[w].at == Cleanup
    ensures var r := s.workers[w];
      StepEffect(s, SetRun(DockerDone(s, r.base, d, left, fault), w, r.(at := Done, live := false)), w)
  {
    var r := s.workers[w];
    MoveHarmless(s, SetRun(DockerDone(s, r.base, d, left, fault), w, r.(at := Done, live := false)), w);
  }

  lemma FailDecideEffect(s: State, w: nat)
    requires w in s.workers && s.workers[w].at == FailDecide
    ensures var r := s.workers[w];
      StepEffect(s, SetRun(s, w, r.(at := FailWrite(if r.ctxDone then Cancelled else Failed))), w)
  {
    var r := s.workers[w];
    MoveHarmless(s, SetRun(s, w, r.(at := FailWrite(if r.ctxDone then Cancelled else Failed))), w);
  }

  lemma LastEffect(c: Config, s: State, w: nat, o: Outcome)
    requires w in s.workers && (Leaving(s.workers[w].at) || s.workers[w].at.FailDecide? || s.workers[w].at.FailWrite?)
    ensures StepEffect(s, StepRun(c, s, w, o), w)
  {
    hide StepEffect;
    var r := s.workers[w];
    match r.at
    case FailDecide => FailDecideEffect(s, w);
    case FailWrite(status) => ExcusedTerminate(s, w, status, o.now, o.ok, !o.ok);
    case Cleanup =>
      var d := Destroyed(s.side.docker, Names(r.base), o.faults).0;
      CleanupEffect(s, w, d, Residue(d, r.base), o.faults != NO_FAULTS);
    case Done => DoneEffect(s, StepRun(c, s, w, o), w);
  }

  lemma DoneEffect(s: State, t: State, w: nat)
    requires w in s.workers && t.drills == s.drills && t.workers == s.workers - {w}
    ensures StepEffect(s, t, w)
  {}

  lemma RunEffect(c: Config, s: State, w: nat, o: Outcome)
    requires w in s.workers
    ensures StepEffect(s, StepRun(c, s, w, o), w)
  {
    if Early(s.workers[w].at) { EarlyEffect(c, s, w, o); }
    else if Middle(s.workers[w].at) { MiddleEffect(c, s, w, o); }
    else { LateEffect(c, s, w, o); }
  }

  /** The effect of the other actors: a user cancel is the only change to an existing row,
      and runs only start or lose their context. */
  ghost predicate ActorEffect(c: Config, s: State, t: State) {
    && s.drills.Keys <= t.drills.Keys
    && (forall i :: i in s.drills ==> DrillStep(Claim, s.drills[i], t.drills[i]) && t.drills[i].claims == s.drills[i].claims)
    && (forall w :: w in t.workers ==>
          if w in s.workers then t.workers[w] == s.workers[w].(ctxDone := t.workers[w].ctxDone)
          else t.workers[w].at == if c.configured then Claim else PrepareOnly)
  }

  lemma CreateEffect(c: Config, s: State, org: string, header: string, uuid: string, id: string, assetExists: bool)
    ensures ActorEffect(c, s, ApplyCreate(s, org, header, uuid, id, assetExists))
  {
    hide ActorEffect;
    var t := ApplyCreate(s, org, header, uuid, id, assetExists);
    if t.drills == s.drills { QuietEffect(c, s, t); } else { InsertEffect(c, s, t, id); }
  }

  lemma InsertEffect(c: Config, s: State, t: State, id: string)
    requires id !in s.drills && id in t.drills && t.drills == s.drills[id := t.drills[id]] && t.workers == s.workers
    ensures ActorEffect(c, s, t)
  {}

  lemma UserCancelStep(d: Drill, now: int)
    ensures DrillStep(Claim, d, UserCancelled(d, now)) && UserCancelled(d, now).claims == d.claims
  {}

  /** A row cancel touches one drill, and only as `CancelDrill` does. */
  lemma CancelRowShape(s: State, org: string, id: string, ok: bool, now: int)
    ensures var t := ApplyCancelRow(s, org, id, ok, now);
      && t.workers == s.workers && t.drills.Keys == s.drills.Keys
      && (t.drills == s.drills || (id in s.drills && t.drills == s.drills[id := UserCancelled(s.drills[id], now)]))
  {}

  lemma CancelledEffect(c: Config, s: State, t: State, id: string, now: int)
    requires id in s.drills && t.workers == s.workers && t.drills == s.drills[id := UserCancelled(s.drills[id], now)]
    ensures ActorEffect(c, s, t)
  {
    UserCancelStep(s.drills[id], now);
    forall i | i in s.drills && i != id ensures t.drills[i] == s.drills[i] {}
  }

  lemma CancelRowEffect(c: Config, s: State, org: string, id: string, ok: bool, now: int)
    ensures ActorEffect(c, s, ApplyCancelRow(s, org, id, ok, now))
  {
    CancelRowShape(s, org, id, ok, now);
    var t := ApplyCancelRow(s, org, id, ok, now);
    if t.drills == s.drills { QuietEffect(c, s, t); } else { CancelledEffect(c, s, t, id, now); }
  }

  lemma CancelContextEffect(c: Config, s: State, org: string, id: string)
    ensures ActorEffect(c, s, ApplyCancelContext(s, org, id))
  {
    hide ActorEffect;
    QuietEffect(c, s, ApplyCancelContext(s, org, id));
  }

  lemma ShutdownEffect(c: Config, s: State)
    ensures ActorEffect(c, s, ApplyShutdown(s))
  {}

  lemma DequeueEffect(c: Config, s: State, w: nat)
    ensures ActorEffect(c, s, ApplyDequeue(c, s, w))
  {}

  lemma QuietEffect(c: Config, s: State, t: State)
    requires t.drills == s.drills && t.workers.Keys == s.workers.Keys
    requires forall w :: w in s.workers ==> t.workers[w] == s.workers[w].(ctxDone := t.workers[w].ctxDone)
    ensures ActorEffect(c, s, t)
  {}

  lemma SubmitEffect(c: Config, s: State, t: State, id: string)
    requires t == s.(pool := t.pool)
    ensures ActorEffect(c, s, Enqueue(t, id))
  {
    QuietEffect(c, s, Enqueue(t, id));
  }

  lemma TimeoutEffect(c: Config, s: State, w: nat)
    ensures ActorEffect(c, s, CancelRun(s, w, true))
  {
    QuietEffect(c, s, CancelRun(s, w, true));
  }

  lemma OtherEffect(c: Config, s: State, a: Action)
    requires !a.Step?
    ensures ActorEffect(c, s, Apply(c, s, a))
  {
    match a
    case CreateDrill(org, header, uuid, id, assetExists) => CreateEffect(c, s, org, header, uuid, id, assetExists);
    case CancelRow(org, id, ok, now) => CancelRowEffect(c, s, org, id, ok, now);
    case CancelContext(org, id) => CancelContextEffect(c, s, org, id);
    case Shutdown => ShutdownEffect(c, s);
    case Dequeue(w) => DequeueEffect(c, s, w);
    case Submit(id) => SubmitEffect(c, s, Taken(s, id), id); QuietEffect(c, s, s);
    case Resubmit(id) => SubmitEffect(c, s, s, id);
    case Timeout(w) => TimeoutEffect(c, s, w);
  }

  // ------------------------------------------------------- terminal rows are frozen

  /** A terminal-status write in flight never writes QUEUED. */
  ghost predicate WritersSane(s: State) {
    forall w :: w in s.workers ==> SaneFail(s.workers[w].at)
  }

  lemma SaneAfterStep(s: State, t: State, w: nat)
    requires WritersSane(s) && StepEffect(s, t, w)
    ensures WritersSane(t)
  {}

  lemma SaneAfterActor(c: Config, s: State, t: State)
    requires WritersSane(s) && ActorEffect(c, s, t)
    ensures WritersSane(t)
  {}

  lemma KeepSane(c: Config, s: State, a: Action)
    requires WritersSane(s)
    ensures WritersSane(Apply(c, s, a))
  {
    if a.Step? {
      if a.w in s.workers {
        RunEffect(c, s, a.w, a.o);
        SaneAfterStep(s, StepRun(c, s, a.w, a.o), a.w);
      }
    } else {
      OtherEffect(c, s, a);
      SaneAfterActor(c, s, Apply(c, s, a));
    }
  }

  /** The rows and claims of `t` agree with those of `s` on a drill. */
  predicate SameRow(s: State, t: State, id: string) {
    id in s.drills && id in t.drills && t.drills[id].row == s.drills[id].row && t.drills[id].claims == s.drills[id].claims
  }

  lemma FrozenByStep(s: State, t: State, w: nat, id: string)
    requires WritersSane(s) && StepEffect(s, t, w) && id in s.drills && Terminal(s.drills[id].row.status)
    ensures SameRow(s, t, id)
  {}

  lemma FrozenByActor(c: Config, s: State, t: State, id: string)
    requires ActorEffect(c, s, t) && id in s.drills && Terminal(s.drills[id].row.status)
    ensures SameRow(s, t, id)
  {}

  lemma FrozenStep(c: Config, s: State, a: Action, id: string)
    requires WritersSane(s) && id in s.drills && Terminal(s.drills[id].row.status)
    ensures SameRow(s, Apply(c, s, a), id)
  {
    if a.Step? {
      if a.w in s.workers {
        RunEffect(c, s, a.w, a.o);
        FrozenByStep(s, StepRun(c, s, a.w, a.o), a.w, id);
      }
    } else {
      OtherEffect(c, s, a);
      FrozenByActor(c, s, Apply(c, s, a), id);
    }
  }

  lemma {:induction false} FrozenFrom(c: Config, s: State, actions: seq<Action>, id: string)
    requires WritersSane(s) && id in s.drills && Terminal(s.drills[id].row.status)
    ensures SameRow(s, Replay(c, s, actions), id)
    decreases |actions|
  {
    if actions != [] {
      FrozenStep(c, s, actions[0], id);
      KeepSane(c, s, actions[0]);
      FrozenFrom(c, Apply(c, s, actions[0]), actions[1..], id);
    }
  }

  lemma {:induction false} SaneReplay(c: Config, s: State, actions: seq<Action>)
    requires WritersSane(s)
    ensures WritersSane(Replay(c, s, actions))
    decreases |actions|
  {
    if actions != [] {
      KeepSane(c, s, actions[0]);
      SaneReplay(c, Apply(c, s, actions[0]), actions[1..]);
    }
  }

  /** Whatever has happened before and whatever happens afterwards, with or without an
      executor: once a drill is terminal its row never changes again. */
  lemma TerminalRowsFrozen(c: Config, objects: map<string, Bytes>, before: seq<Action>, after: seq<Action>, id: string)
    requires var s := Replay(c, Initial(c, objects), before);
      id in s.drills && Terminal(s.drills[id].row.status)
    ensures var s := Replay(c, Initial(c, objects), before);
      var t := Replay(c, Initial(c, objects), before + after);
      id in t.drills && t.drills[id].row == s.drills[id].row
  {
    SaneReplay(c, Initial(c, objects), before);
    ReplayAppend(c, Initial(c, objects), before, after);
    FrozenFrom(c, Replay(c, Initial(c, objects), before), after, id);
  }

  // --------------------------------------------------------------- legal edges only

  /** Every run that could write a terminal status has left QUEUED behind, except in the
      branch without executor or storage. */
  ghost predicate WriterOk(c: Config, s: State, r: Run) {
    && (c.configured ==> !Unconfigured(r.at))
    && (!Unclaimed(r.at) ==> r.id in s.drills && s.drills[r.id].row.status != Queued)
    && SaneFail(r.at)
  }

  ghost predicate WritersClaimed(c: Config, s: State) {
    forall w :: w in s.workers ==> WriterOk(c, s, s.workers[w])
  }

  lemma WritersAfterStep(c: Config, s: State, t: State, w: nat)
    requires WritersClaimed(c, s) && StepEffect(s, t, w)
    ensures WritersClaimed(c, t)
  {
    forall v | v in t.workers ensures WriterOk(c, t, t.workers[v]) {
      assert WriterOk(c, s, s.workers[v]) && WriterOk(c, s, s.workers[w]);
    }
  }

  lemma WritersAfterActor(c: Config, s: State, t: State)
    requires WritersClaimed(c, s) && ActorEffect(c, s, t)
    ensures WritersClaimed(c, t)
  {
    forall v | v in t.workers ensures WriterOk(c, t, t.workers[v]) {
      if v in s.workers { assert WriterOk(c, s, s.workers[v]); }
    }
  }

  lemma KeepWriters(c: Config, s: State, a: Action)
    requires WritersClaimed(c, s)
    ensures WritersClaimed(c, Apply(c, s, a))
  {
    if a.Step? {
      if a.w in s.workers {
        RunEffect(c, s, a.w, a.o);
        WritersAfterStep(c, s, StepRun(c, s, a.w, a.o), a.w);
      }
    } else {
      OtherEffect(c, s, a);
      WritersAfterActor(c, s, Apply(c, s, a));
    }
  }

  lemma {:induction false} WritersReplay(c: Config, s: State, actions: seq<Action>)
    requires WritersClaimed(c, s)
    ensures WritersClaimed(c, Replay(c, s, actions))
    decreases |actions|
  {
    if actions != [] {
      KeepWriters(c, s, actions[0]);
      WritersReplay(c, Apply(c, s, actions[0]), actions[1..]);
    }
  }

  /** The one write that the table does not allow: a pool without executor or storage
      whose claim failed still closes the queued drill as inconclusive. */
  predicate ClosesQueued(s: State, a: Action, id: string) {
    && a.Step? && a.w in s.workers && s.workers[a.w].at == GiveUp && s.workers[a.w].id == id
    && id in s.drills && s.drills[id].row.status == Queued
  }

  predicate StatusChanged(s: State, t: State, id: string) {
    id in s.drills && id in t.drills && t.drills[id].row.status != s.drills[id].row.status
  }

  predicate LegalChange(s: State, t: State, id: string) {
    id in s.drills && id in t.drills && CanTransition(s.drills[id].row.status, t.drills[id].row.status)
  }

  lemma EdgeByStep(c: Config, s: State, t: State, w: nat, id: string)
    requires WritersClaimed(c, s) && StepEffect(s, t, w) && StatusChanged(s, t, id)
    ensures LegalChange(s, t, id) <==>
      !(s.workers[w].at == GiveUp && s.workers[w].id == id && s.drills[id].row.status == Queued)
  {
    assert WriterOk(c, s, s.workers[w]);
  }

  lemma EdgeByActor(c: Config, s: State, t: State, id: string)
    requires ActorEffect(c, s, t) && StatusChanged(s, t, id)
    ensures LegalChange(s, t, id)
  {}

  lemma EdgeExact(c: Config, s: State, a: Action, id: string)
    requires WritersClaimed(c, s) && StatusChanged(s, Apply(c, s, a), id)
    ensures LegalChange(s, Apply(c, s, a), id) <==> !ClosesQueued(s, a, id)
  {
    if a.Step? {
      if a.w in s.workers {
        RunEffect(c, s, a.w, a.o);
        EdgeByStep(c, s, StepRun(c, s, a.w, a.o), a.w, id);
      }
    } else {
      OtherEffect(c, s, a);
      EdgeByActor(c, s, Apply(c, s, a), id);
    }
  }

  /** In every reachable state of every configuration, a status change is an edge of the
      transition table exactly when it is not that write. */
  lemma StatusEdges(c: Config, objects: map<string, Bytes>, before: seq<Action>, a: Action, id: string)
    requires var s := Replay(c, Initial(c, objects), before); StatusChanged(s, Apply(c, s, a), id)
    ensures var s := Replay(c, Initial(c, objects), before);
      && (LegalChange(s, Apply(c, s, a), id) <==> !ClosesQueued(s, a, id))
      && (c.configured ==> LegalChange(s, Apply(c, s, a), id))
  {
    var s := Replay(c, Initial(c, objects), before);
    WritersReplay(c, Initial(c, objects), before);
    EdgeExact(c, s, a, id);
    if ClosesQueued(s, a, id) { assert WriterOk(c, s, s.workers[a.w]); }
  }

  /** A queued drill whose claim just failed in a pool without executor. */
  lemma FailedClaim(c: Config, objects: map<string, Bytes>, failing: Outcome) returns (s4: State)
    requires !c.configured && c.concurrency > 0 && !failing.ok
    ensures var s1 := Apply(c, Initial(c, objects), CreateDrill("o", "k", "", "d", true));
      var s3 := Apply(c, Apply(c, s1, Submit("d")), Dequeue(0));
      s4 == Apply(c, s3, Step(0, failing))
    ensures 0 in s4.workers && s4.workers[0].at == GiveUp && s4.workers[0].id == "d"
    ensures "d" in s4.drills && s4.drills["d"].row.status == Queued
  {
    var s3 := QueuedStart(c, objects);
    s4 := Apply(c, s3, Step(0, failing));
  }

  lemma QueuedStart(c: Config, objects: map<string, Bytes>) returns (s3: State)
    requires !c.configured && c.concurrency > 0
    ensures var s1 := Apply(c, Initial(c, objects), CreateDrill("o", "k", "", "d", true));
      s3 == Apply(c, Apply(c, s1, Submit("d")), Dequeue(0))
    ensures 0 in s3.workers && s3.workers[0].at == PrepareOnly && s3.workers[0].id == "d" && !s3.workers[0].live
    ensures "d" in s3.drills && s3.drills["d"].row.status == Queued
  {
    var s1 := Apply(c, Initial(c, objects), CreateDrill("o", "k", "", "d", true));
    var s2 := Apply(c, s1, Submit("d"));
    assert s2.pool.jobs == ["d"];
    s3 := Apply(c, s2, Dequeue(0));
  }

  lemma ClosesQueuedDrill(c: Config, s: State, o: Outcome)
    requires 0 in s.workers && s.workers[0].at == GiveUp && s.workers[0].id == "d" && o.ok
    requires "d" in s.drills && s.drills["d"].row.status == Queued
    ensures var t := Apply(c, s, Step(0, o)); "d" in t.drills && t.drills["d"].row.status == Inconclusive
  {}

  /** That write does happen: a pool without executor whose claim fails takes a queued
      drill straight to INCONCLUSIVE. */
  lemma UnconfiguredSkipsPreparing(c: Config, objects: map<string, Bytes>, o: Outcome)
    requires !c.configured && c.concurrency > 0 && o.ok
    ensures exists actions, a ::
      var s := Replay(c, Initial(c, objects), actions);
      StatusChanged(s, Apply(c, s, a), "d") && !LegalChange(s, Apply(c, s, a), "d")
  {
    hide Replay;
    var failing := o.(ok := false);
    var s0 := Initial(c, objects);
    var s4 := FailedClaim(c, objects, failing);
    var actions := [CreateDrill("o", "k", "", "d", true), Submit("d"), Dequeue(0), Step(0, failing)];
    ReplayFour(c, s0, actions[0], actions[1], actions[2], actions[3]);
    assert Replay(c, s0, actions) == s4;
    ClosesQueuedDrill(c, s4, o);
    hide Apply;
    assert StatusChanged(Replay(c, s0, actions), Apply(c, Replay(c, s0, actions), Step(0, o)), "d");
  }
}
