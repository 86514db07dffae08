/** Which parts of the system a step of a run leaves alone. */
module DrillFrames {
  import opened Prelude
  import opened Domain
  import opened Sandbox
  import opened Drills
  import opened DrillInvariant
  import opened DrillSteps

  predicate DockerPoint(p: Point) { p.MakeSandbox? || p.DestroySandbox? || p.Cleanup? }

  predicate ObjectPoint(p: Point) { p.PutEvidence? || p.DeleteThenFail? || p.DeleteThenLeave? }

  /** Queue, registries, requests and responses stay as they are; Docker changes only at
      the three sandbox points, the object store only at the three evidence points, and a
      delete can fail only at the two points that delete. */
  ghost predicate StepFrame(s: State, t: State, w: nat) {
    && w in s.workers && w in t.workers
    && var r := s.workers[w]; var q := t.workers[w];
    && t.pool == s.pool && q.ctxDone == r.ctxDone && s.log.excused <= t.log.excused
    && (!DockerPoint(r.at) ==> t.side == s.side && q.live == r.live && q.base == r.base)
    && (!ObjectPoint(r.at) ==> t.objects == s.objects)
    && (!DeletePoint(r.at) ==> t.log.undeleted == s.log.undeleted)
  }

  lemma MoveFrame(s: State, t: State, w: nat)
    requires w in s.workers && w in t.workers && t.pool == s.pool && t.side == s.side && t.objects == s.objects
    requires t.log.undeleted == s.log.undeleted
    requires s.log.excused <= t.log.excused && t.workers[w] == s.workers[w].(at := t.workers[w].at)
    ensures StepFrame(s, t, w)
  {}

  lemma TransitionFrame(s: State, w: nat, o: Outcome, to: DrillStatus, step: StepName, n: int, next: Point)
    requires w in s.workers
    ensures StepFrame(s, StepTransition(s, w, o, to, step, n, next), w)
  {
    if TransitionRefused(s, s.workers[w], o, to) {
      MoveFrame(s, Leave(Excuse(s, s.workers[w].id, !o.ok), w, s.workers[w]), w);
    }
  }

  lemma LoadFrame(s: State, w: nat, o: Outcome)
    requires w in s.workers
    ensures StepFrame(s, StepLoad(s, w, o), w)
  {}

  lemma TerminateFrame(s: State, w: nat, status: DrillStatus, now: int, reachable: bool, when: bool)
    requires w in s.workers
    ensures StepFrame(s, StepTerminate(Excuse(s, s.workers[w].id, when), w, status, now, reachable), w)
  {}

  lemma ReachFrame(s: State, t: State, w: nat, m: Milestone, next: Run)
    requires w in s.workers && t == s.(side := t.side, objects := t.objects)
    requires next.ctxDone == s.workers[w].ctxDone
    requires !DockerPoint(s.workers[w].at) ==>
      t.side == s.side && next.live == s.workers[w].live && next.base == s.workers[w].base
    requires !ObjectPoint(s.workers[w].at) ==> t.objects == s.objects
    ensures StepFrame(s, StepReach(t, w, m, next), w)
  {}

  lemma ReachOrFailFrame(s: State, t: State, w: nat, m: Milestone, next: Run, passed: bool)
    requires w in s.workers && t == s.(side := t.side, objects := t.objects)
    requires next.ctxDone == s.workers[w].ctxDone
    requires !DockerPoint(s.workers[w].at) ==>
      t.side == s.side && next.live == s.workers[w].live && next.base == s.workers[w].base
    requires !ObjectPoint(s.workers[w].at) ==> t.objects == s.objects
    ensures StepFrame(s, ReachOrFail(t, w, m, next, passed), w)
  {
    if passed { ReachFrame(s, t, w, m, next); }
  }

  lemma MakeSandboxFrame(s: State, w: nat, o: Outcome)
    requires w in s.workers && s.workers[w].at == MakeSandbox
    ensures StepFrame(s, StepMakeSandbox(s, w, o), w)
  {
    var r := s.workers[w];
    var base := BaseName(Compact(r.id), o.suffix);
    if Compact(r.id) != "" && !BaseTaken(s, base) {
      var (d, ok) := Created(s.side.docker, base, o.env);
      MadeFrame(s, w, base, d, ok, Residue(d, base), o.env.faults != NO_FAULTS);
    }
  }

  lemma MadeFrame(s: State, w: nat, base: string, d: Docker, ok: bool, left: bool, fault: bool)
    requires w in s.workers && s.workers[w].at == MakeSandbox
    ensures StepFrame(s, SandboxMade(s, w, base, d, ok, left, fault), w)
  {
    var r := s.workers[w];
    var t := Drawn(DockerDone(s, base, d, left && !ok, fault && !ok), base, r.id);
    ReachOrFailFrame(s, t, w, SandboxReady, r.(at := Persist, live := true, base := base), ok);
  }

  lemma PersistFrame(s: State, w: nat, o: Outcome)
    requires w in s.workers
    ensures StepFrame(s, StepPersist(s, w, o), w)
  {}

  lemma RecordSandboxFrame(s: State, w: nat, o: Outcome)
    requires w in s.workers
    ensures StepFrame(s, StepRecordSandbox(s, w, o), w)
  {}

  lemma PutFrame(c: Config, s: State, w: nat, o: Outcome)
    requires w in s.workers && s.workers[w].at == PutEvidence
    ensures StepFrame(s, StepPut(c, s, w, o), w)
  {
    var r := s.workers[w];
    if o.ok && r.job.Some? {
      var t := s.(objects := s.objects[EvidenceKey(r.job.value.org, r.id) := o.payload]);
      ReachFrame(s, t, w, EvidenceStored,
        r.(at := DestroySandbox, artifact := Some(Artifact(r.id, |o.payload|, c.hash(o.payload)))));
    }
  }

  lemma EndedFrame(s: State, w: nat, d: Docker, ok: bool, left: bool, fault: bool)
    requires w in s.workers && s.workers[w].at == DestroySandbox
    ensures StepFrame(s, SandboxEnded(s, w, d, ok, left, fault), w)
  {
    var r := s.workers[w];
    if ok {
      ReachFrame(s, DockerDone(s, r.base, d, left, fault), w, SandboxGone, r.(at := Commit, live := false));
    }
  }

  lemma CommitFrame(s: State, w: nat, o: Outcome)
    requires w in s.workers && s.workers[w].at == Commit
    ensures StepFrame(s, StepCommit(s, w, o), w)
  {}

  lemma DeleteStepFrame(s: State, w: nat, o: Outcome)
    requires w in s.workers && DeletePoint(s.workers[w].at)
    ensures StepFrame(s, StepDelete(s, w, o), w)
  {}

  lemma CleanupFrame(s: State, w: nat, d: Docker, left: bool, fault: bool)
    requires w in s.workers && s.workers[w].at == Cleanup
    ensures var r := s.workers[w];
      StepFrame(s, SetRun(DockerDone(s, r.base, d, left, fault), w, r.(at := Done, live := false)), w)
  {}

  lemma EarlyFrame(c: Config, s: State, w: nat, o: Outcome)
    requires w in s.workers && Early(s.workers[w].at)
    ensures StepFrame(s, StepRun(c, s, w, o), w)
  {
    var r := s.workers[w];
    match r.at
    case Claim => TransitionFrame(s, w, o, Preparing, FetchBackup, 1, Load);
    case Load => LoadFrame(s, w, o);
    case LoadFailed => TerminateFrame(s, w, Inconclusive, o.now, o.ok && !r.ctxDone, !o.ok);
    case Stage => ReachOrFailFrame(s, s, w, IntegrityChecked, r.(at := MakeSandbox, staged := Download(s, r)), StagePasses(c, s, r, o));
    case MakeSandbox => MakeSandboxFrame(s, w, o);
  }

  lemma MiddleFrame(c: Config, s: State, w: nat, o: Outcome)
    requires w in s.workers && Middle(s.workers[w].at)
    ensures StepFrame(s, StepRun(c, s, w, o), w)
  {
    var r := s.workers[w];
    match r.at
    case Persist => PersistFrame(s, w, o);
    case RecordSandbox => RecordSandboxFrame(s, w, o);
    case ToRestoring => TransitionFrame(s, w, o, Restoring, RestorePostgres, 3, Restore);
    case Restore => ReachOrFailFrame(s, s, w, Restored, r.(at := ToValidating), o.ok);
    case ToValidating => TransitionFrame(s, w, o, Validating, PostgresConnectivity, 4, Connect);
    case Connect => ReachOrFailFrame(s, s, w, Connected, r.(at := ToFinalizing, readyAt := o.now), o.ok);
    case ToFinalizing => TransitionFrame(s, w, o, Finalizing, CollectEvidence, 5, PutEvidence);
  }

  lemma LateFrame(c: Config, s: State, w: nat, o: Outcome)
    requires w in s.workers && !Early(s.workers[w].at) && !Middle(s.workers[w].at)
    requires s.workers[w].at != Done
    ensures StepFrame(s, StepRun(c, s, w, o), w)
  {
    var r := s.workers[w];
    match r.at
    case PutEvidence => PutFrame(c, s, w, o);
    case DestroySandbox =>
      var (d, ok) := Destroyed(s.side.docker, Names(r.base), o.faults);
      EndedFrame(s, w, d, ok, Residue(d, r.base), o.faults != NO_FAULTS);
    case Commit => CommitFrame(s, w, o);
    case DeleteThenFail => DeleteStepFrame(s, w, o);
    case DeleteThenLeave => DeleteStepFrame(s, w, o);
    case FailDecide => MoveFrame(s, SetRun(s, w, r.(at := FailWrite(if r.ctxDone then Cancelled else Failed))), w);
    case FailWrite(status) => TerminateFrame(s, w, status, o.now, o.ok, !o.ok);
    case Cleanup =>
      var d := Destroyed(s.side.docker, Names(r.base), o.faults).0;
      CleanupFrame(s, w, d, Residue(d, r.base), o.faults != NO_FAULTS);
    case PrepareOnly => PrepareFrame(s, w, o);
    case GiveUp => TerminateFrame(s, w, Inconclusive, o.now, o.ok, false);
  }

  lemma PrepareFrame(s: State, w: nat, o: Outcome)
    requires w in s.workers
    ensures var t := StepTransition(s, w, o, Preparing, PrepareDrill, 1, GiveUp);
      w in t.workers && StepFrame(s, SetRun(t, w, t.workers[w].(at := GiveUp)), w)
  {
    TransitionFrame(s, w, o, Preparing, PrepareDrill, 1, GiveUp);
  }

  /** Every step of a run but the last has this frame. */
  lemma RunFrame(c: Config, s: State, w: nat, o: Outcome)
    requires w in s.workers && s.workers[w].at != Done
    ensures StepFrame(s, StepRun(c, s, w, o), w)
  {
    if Early(s.workers[w].at) { EarlyFrame(c, s, w, o); }
    else if Middle(s.workers[w].at) { MiddleFrame(c, s, w, o); }
    else { LateFrame(c, s, w, o); }
  }
}
