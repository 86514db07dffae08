/** Success, exactly: over all interleavings, a claimed drill succeeds if and only if its run
    passed every one of its guards. */
module DrillVerdicts {
  import opened Prelude
  import opened Domain
  import opened Sandbox
  import opened Drills
  import opened DrillInvariant
  import opened DrillSteps
  import opened DrillSafety
  import opened DrillFrames
  import opened DrillDocker
  import opened DrillProgress
  import opened DrillExits

  /** From the claim to the final transaction, without failures. */
  predicate OnCourse(p: Point) { OnPath(p) && !p.LoadFailed? }

  /** A user has cancelled the drill. */
  predicate Withdrawn(s: State, id: string) {
    id in s.drills && s.drills[id].row.status == Cancelled
  }

  /** What the next step of a run on course needs. */
  predicate Passes(c: Config, s: State, r: Run, o: Outcome) {
    match r.at
    case Load => o.ok && !r.ctxDone && o.snapshot.storageKey != ""
    case Stage => StagePasses(c, s, r, o)
    case MakeSandbox =>
      var base := BaseName(Compact(r.id), o.suffix);
      Compact(r.id) != "" && !BaseTaken(s, base) && Created(s.side.docker, base, o.env).1
    case Persist => o.ok && !r.ctxDone
    case RecordSandbox => o.ok && !r.ctxDone
    case Restore => o.ok
    case Connect => o.ok
    case PutEvidence => o.ok
    case DestroySandbox => Destroyed(s.side.docker, Names(r.base), o.faults).1
    case _ => o.ok && !r.ctxDone && !Withdrawn(s, r.id)
  }

  /** A step of a run on course goes on, commits, or leaves the course for good. */
  ghost predicate Judged(s: State, t: State, w: nat, passed: bool) {
    && w in s.workers && w in t.workers && s.workers[w].id in t.drills
    && (t.drills[s.workers[w].id].row.status == Succeeded <==> passed && s.workers[w].at == Commit)
    && (OnCourse(t.workers[w].at) <==> passed && s.workers[w].at != Commit)
  }

  lemma JudgeProvision(c: Config, s: State, w: nat, o: Outcome)
    requires w in s.workers && (s.workers[w].at == Stage || s.workers[w].at == MakeSandbox)
    requires s.workers[w].id in s.drills && s.drills[s.workers[w].id].row.status != Succeeded
    ensures Judged(s, StepRun(c, s, w, o), w, Passes(c, s, s.workers[w], o))
  {
    hide StagePasses, Created, Compact, Residue, BaseTaken;
  }

  lemma JudgeLoad(c: Config, s: State, w: nat, o: Outcome)
    requires w in s.workers && s.workers[w].at == Load && s.workers[w].id in s.drills
    requires s.drills[s.workers[w].id].row.status != Succeeded && s.drills[s.workers[w].id].row.startedAt.Some?
    ensures Judged(s, StepRun(c, s, w, o), w, Passes(c, s, s.workers[w], o))
  {}

  lemma JudgeRecorded(c: Config, s: State, w: nat, o: Outcome)
    requires w in s.workers && (s.workers[w].at == Persist || s.workers[w].at == RecordSandbox)
    requires s.workers[w].id in s.drills && s.drills[s.workers[w].id].row.status != Succeeded
    ensures Judged(s, StepRun(c, s, w, o), w, Passes(c, s, s.workers[w], o))
  {}

  lemma JudgeProbe(c: Config, s: State, w: nat, o: Outcome)
    requires w in s.workers && (s.workers[w].at == Restore || s.workers[w].at == Connect)
    requires s.workers[w].id in s.drills && s.drills[s.workers[w].id].row.status != Succeeded
    ensures Judged(s, StepRun(c, s, w, o), w, Passes(c, s, s.workers[w], o))
  {}

  /** The guard of a later transition: the table refuses nothing but a cancelled drill. */
  lemma TransitionPasses(
    c: Config, s: State, w: nat, o: Outcome, to: DrillStatus, step: StepName, n: int, next: Point)
    requires w in s.workers && s.workers[w].id in s.drills
    requires TransitionPoint(s.workers[w].at, to, step, n, next) && s.workers[w].at != Claim
    requires var status := s.drills[s.workers[w].id].row.status; status == Phase(s.workers[w].at) || status == Cancelled
    ensures Passes(c, s, s.workers[w], o) <==> !TransitionRefused(s, s.workers[w], o, to)
  {}

  lemma JudgeTransition(
    c: Config, s: State, w: nat, o: Outcome, to: DrillStatus, step: StepName, n: int, next: Point)
    requires w in s.workers && s.workers[w].id in s.drills
    requires TransitionPoint(s.workers[w].at, to, step, n, next) && s.workers[w].at != Claim
    requires var status := s.drills[s.workers[w].id].row.status; status == Phase(s.workers[w].at) || status == Cancelled
    ensures Judged(s, StepTransition(s, w, o, to, step, n, next), w, Passes(c, s, s.workers[w], o))
  {
    hide StepTransition, Passes, CanTransition;
    TransitionPasses(c, s, w, o, to, step, n, next);
    if TransitionRefused(s, s.workers[w], o, to) { RefusedTransition(s, w, o, to, step, n, next); }
    else { TransitionShape(s, w, o, to, step, n, next); }
  }

  lemma JudgePut(c: Config, s: State, w: nat, o: Outcome)
    requires w in s.workers && s.workers[w].at == PutEvidence && s.workers[w].job.Some?
    requires s.workers[w].id in s.drills && s.drills[s.workers[w].id].row.status != Succeeded
    ensures Judged(s, StepRun(c, s, w, o), w, Passes(c, s, s.workers[w], o))
  {
    hide EvidenceKey;
  }

  lemma JudgeDestroy(c: Config, s: State, w: nat, o: Outcome)
    requires w in s.workers && s.workers[w].at == DestroySandbox
    requires s.workers[w].id in s.drills && s.drills[s.workers[w].id].row.status != Succeeded
    ensures Judged(s, StepRun(c, s, w, o), w, Passes(c, s, s.workers[w], o))
  {
    hide Destroyed, Residue;
  }

  lemma JudgeCommit(c: Config, s: State, w: nat, o: Outcome)
    requires w in s.workers && s.workers[w].at == Commit && s.workers[w].job.Some? && s.workers[w].artifact.Some?
    requires s.workers[w].id in s.drills
    requires var status := s.drills[s.workers[w].id].row.status; status == Finalizing || status == Cancelled
    ensures Judged(s, StepRun(c, s, w, o), w, Passes(c, s, s.workers[w], o))
  {
    hide EvidenceKey, MeasureRPO, MeasureRTO, EvaluatePolicy, Verdict;
  }

  /** Each step of a run on course does what its guard says. */
  lemma Judge(c: Config, s: State, w: nat, o: Outcome)
    requires Here(c, s, w) && s.workers[w].claimed && OnCourse(s.workers[w].at)
    ensures Judged(s, StepRun(c, s, w, o), w, Passes(c, s, s.workers[w], o))
  {
    hide Judged, Passes, FirstSteps, StoredAs, IntegrityHolds, EvidenceAgrees, ColumnsAgree, SuccessEarned;
    match s.workers[w].at
    case Load => JudgeLoad(c, s, w, o);
    case Stage => JudgeProvision(c, s, w, o);
    case MakeSandbox => JudgeProvision(c, s, w, o);
    case ToRestoring => JudgeTransition(c, s, w, o, Restoring, RestorePostgres, 3, Restore);
    case ToValidating => JudgeTransition(c, s, w, o, Validating, PostgresConnectivity, 4, Connect);
    case ToFinalizing => JudgeTransition(c, s, w, o, Finalizing, CollectEvidence, 5, PutEvidence);
    case PutEvidence => JudgePut(c, s, w, o);
    case DestroySandbox => JudgeDestroy(c, s, w, o);
    case Commit => JudgeCommit(c, s, w, o);
    case Persist => JudgeRecorded(c, s, w, o);
    case RecordSandbox => JudgeRecorded(c, s, w, o);
    case _ => JudgeProbe(c, s, w, o);
  }

  /** A run off course stays off course and makes no success. */
  ghost predicate Strayed(s: State, t: State, w: nat) {
    && w in s.workers && s.workers[w].id in s.drills && s.workers[w].id in t.drills
    && (w in t.workers ==> !OnCourse(t.workers[w].at))
    && (t.drills[s.workers[w].id].row.status == Succeeded <==> s.drills[s.workers[w].id].row.status == Succeeded)
  }

  lemma StrayLoad(c: Config, s: State, w: nat, o: Outcome)
    requires w in s.workers && s.workers[w].at == LoadFailed && s.workers[w].id in s.drills
    ensures Strayed(s, StepRun(c, s, w, o), w)
  {}

  lemma StrayFail(c: Config, s: State, w: nat, o: Outcome)
    requires w in s.workers && s.workers[w].id in s.drills && SaneFail(s.workers[w].at)
    requires s.workers[w].at.FailDecide? || s.workers[w].at.FailWrite?
    ensures Strayed(s, StepRun(c, s, w, o), w)
  {}

  lemma StrayDelete(c: Config, s: State, w: nat, o: Outcome)
    requires w in s.workers && s.workers[w].id in s.drills && DeletePoint(s.workers[w].at)
    ensures Strayed(s, StepRun(c, s, w, o), w)
  {
    hide EvidenceKey;
  }

  lemma StrayOut(c: Config, s: State, w: nat, o: Outcome)
    requires w in s.workers && s.workers[w].id in s.drills && Leaving(s.workers[w].at)
    ensures Strayed(s, StepRun(c, s, w, o), w)
  {
    hide Destroyed, Residue;
  }

  lemma Stray(c: Config, s: State, w: nat, o: Outcome)
    requires Here(c, s, w) && s.workers[w].claimed && !OnCourse(s.workers[w].at) && SaneFail(s.workers[w].at)
    ensures Strayed(s, StepRun(c, s, w, o), w)
  {
    hide Strayed, StepRun, FirstSteps, StoredAs, IntegrityHolds, EvidenceAgrees, ColumnsAgree, SuccessEarned;
    match s.workers[w].at
    case LoadFailed => StrayLoad(c, s, w, o);
    case FailDecide => StrayFail(c, s, w, o);
    case FailWrite(_) => StrayFail(c, s, w, o);
    case Cleanup => StrayOut(c, s, w, o);
    case Done => StrayOut(c, s, w, o);
    case _ => StrayDelete(c, s, w, o);
  }

  // ---------------------------------------------------------------------- whole runs

  /** The drills whose run fails a guard in an action. */
  function StumbledBy(c: Config, s: State, a: Action): set<string> {
    if a.Step? && a.w in s.workers then
      var r := s.workers[a.w];
      if r.claimed && OnCourse(r.at) && !Passes(c, s, r, a.o) then {r.id} else {}
    else {}
  }

  function Stumbled(c: Config, s: State, actions: seq<Action>): set<string> {
    if actions == [] then {}
    else
      var n := |actions| - 1;
      Stumbled(c, s, actions[..n]) + StumbledBy(c, Replay(c, s, actions[..n]), actions[n])
  }

  /** The drill's claimant is in flight and on course. */
  predicate Heading(s: State, id: string) {
    id in s.drills && s.drills[id].claimant.Some? &&
    var w := s.drills[id].claimant.value;
    w in s.workers && s.workers[w].id == id && s.workers[w].claimed && OnCourse(s.workers[w].at)
  }

  /** A drill that is unclaimed or on course has not stumbled, and is no success yet; any other
      is a success exactly when it has not stumbled. */
  ghost predicate Decided(s: State, id: string, stumbled: bool) {
    if id !in s.drills || s.drills[id].claims == 0 then !stumbled
    else if Heading(s, id) then !stumbled && s.drills[id].row.status != Succeeded
    else s.drills[id].row.status == Succeeded <==> !stumbled
  }

  /** The actors outside the runs neither make nor unmake a success. */
  lemma ActorRow(c: Config, s: State, a: Action, id: string)
    requires !a.Step? && id in s.drills
    ensures var t := Apply(c, s, a);
      id in t.drills && (t.drills[id].row.status == Succeeded <==> s.drills[id].row.status == Succeeded)
  {
    match a
    case CreateDrill(org, header, uuid, i, assetExists) =>
    case CancelRow(org, i, ok, now) =>
    case CancelContext(org, i) =>
    case Shutdown =>
    case Dequeue(w) =>
    case Submit(i) =>
    case Resubmit(i) =>
    case Timeout(w) =>
  }

  lemma DecidedByActor(c: Config, s: State, t: State, id: string, stumbled: bool)
    requires ActorEffect(c, s, t) && s.workers.Keys <= t.workers.Keys && Decided(s, id, stumbled)
    requires id in t.drills && id !in s.drills ==> t.drills[id].claims == 0
    requires id in s.drills ==> (t.drills[id].row.status == Succeeded <==> s.drills[id].row.status == Succeeded)
    requires forall v :: v in t.workers && v !in s.workers ==> !t.workers[v].claimed
    ensures Decided(t, id, stumbled)
  {
    if id in s.drills { assert Heading(t, id) <==> Heading(s, id); }
  }

  lemma DecidedThere(s: State, t: State, w: nat, id: string, stumbled: bool)
    requires StepEffect(s, t, w) && id != s.workers[w].id && Decided(s, id, stumbled)
    ensures Decided(t, id, stumbled)
  {
    if id in s.drills { assert Heading(t, id) <==> Heading(s, id); }
  }

  lemma DecidedDone(s: State, t: State, w: nat, id: string, stumbled: bool)
    requires w in s.workers && s.workers[w].at == Done && t.drills == s.drills && t.workers == s.workers - {w}
    requires Decided(s, id, stumbled)
    ensures Decided(t, id, stumbled)
  {}

  /** The drill of a worker that holds its claim. */
  lemma DecidedHere(c: Config, s: State, w: nat, o: Outcome, stumbled: bool)
    requires Here(c, s, w) && s.workers[w].claimed && s.workers[w].at != Done && SaneFail(s.workers[w].at)
    requires Decided(s, s.workers[w].id, stumbled) && StepEffect(s, StepRun(c, s, w, o), w)
    ensures var id := s.workers[w].id; Decided(StepRun(c, s, w, o), id, stumbled || id in StumbledBy(c, s, Step(w, o)))
  {
    hide StepRun, Passes, FirstSteps, StoredAs, IntegrityHolds, EvidenceAgrees, ColumnsAgree, SuccessEarned;
    if OnCourse(s.workers[w].at) { Judge(c, s, w, o); } else { Stray(c, s, w, o); }
  }

  /** A run at the claim. */
  lemma ClaimDecides(c: Config, s: State, w: nat, o: Outcome)
    requires w in s.workers && s.workers[w].at == Claim && !s.workers[w].claimed && s.workers[w].id in s.drills
    ensures var t := StepRun(c, s, w, o); var id := s.workers[w].id;
      && w in t.workers && id in t.drills
      && if TransitionRefused(s, s.workers[w], o, Preparing) then !t.workers[w].claimed && t.drills == s.drills
         else
           && s.drills[id].row.status == Queued && t.drills[id].row.status == Preparing
           && t.drills[id].claims > 0 && t.drills[id].claimant == Some(w)
           && t.workers[w].id == id && t.workers[w].claimed && t.workers[w].at == Load
  {}

  lemma DecidedUnclaimed(c: Config, s: State, w: nat, o: Outcome, stumbled: bool)
    requires Here(c, s, w) && !s.workers[w].claimed && s.workers[w].at != Done && Decided(s, s.workers[w].id, stumbled)
    requires StepEffect(s, StepRun(c, s, w, o), w)
    ensures Decided(StepRun(c, s, w, o), s.workers[w].id, stumbled)
  {
    hide StepRun, FirstSteps, EvidenceAgrees, ColumnsAgree, SuccessEarned;
    var t, id := StepRun(c, s, w, o), s.workers[w].id;
    if id in s.drills {
      ClaimDecides(c, s, w, o);
      if TransitionRefused(s, s.workers[w], o, Preparing) { assert Heading(t, id) <==> Heading(s, id); }
    }
  }

  lemma KeepDecided(c: Config, s: State, a: Action, id: string, stumbled: bool)
    requires Inv(c, s) && WritersSane(s) && c.configured && Decided(s, id, stumbled)
    ensures Decided(Apply(c, s, a), id, stumbled || id in StumbledBy(c, s, a))
  {
    hide Decided, StepEffect, ActorEffect, StepRun, Inv, RunOk, DrillOk, Passes;
    var t := Apply(c, s, a);
    if !a.Step? {
      OtherEffect(c, s, a);
      ActorFrame(c, s, a);
      NewDrillsUnclaimed(c, s, a, id);
      ActorLeavesRuns(c, s, a);
      if id in s.drills { ActorRow(c, s, a, id); }
      hide Apply;
      DecidedByActor(c, s, t, id, stumbled);
    } else if a.w in s.workers {
      HereNow(c, s, a.w);
      RunEffect(c, s, a.w, a.o);
      if s.workers[a.w].at == Done {
        DoneLeaves(c, s, a.w, a.o);
        DecidedDone(s, t, a.w, id, stumbled);
      } else if id != s.workers[a.w].id {
        DecidedThere(s, t, a.w, id, stumbled);
      } else if s.workers[a.w].claimed {
        DecidedHere(c, s, a.w, a.o, stumbled);
      } else {
        DecidedUnclaimed(c, s, a.w, a.o, stumbled);
      }
    }
  }

  lemma {:induction false} DecidedReplay(c: Config, s: State, actions: seq<Action>, id: string)
    requires Inv(c, s) && WritersSane(s) && c.configured && Decided(s, id, false)
    ensures Decided(Replay(c, s, actions), id, id in Stumbled(c, s, actions))
    decreases |actions|
  {
    if actions != [] {
      var n := |actions| - 1;
      var u := Replay(c, s, actions[..n]);
      ReplaySnoc(c, s, actions[..n], actions[n]);
      assert actions[..n] + [actions[n]] == actions;
      KeepReplay(c, s, actions[..n]);
      SaneReplay(c, s, actions[..n]);
      hide Decided, Inv, WritersSane, Apply, StumbledBy;
      DecidedReplay(c, s, actions[..n], id);
      KeepDecided(c, u, actions[n], id, id in Stumbled(c, s, actions[..n]));
    }
  }

  /** In every reachable state, for every claimed drill whose run is over, whatever the other
      actors did meanwhile: it has SUCCEEDED exactly when its run passed all its guards. */
  lemma SucceedsExactly(c: Config, objects: map<string, Bytes>, actions: seq<Action>, id: string)
    requires c.configured && NoEvidenceYet(objects)
    requires var s := Replay(c, Initial(c, objects), actions);
      id in s.drills && s.drills[id].claims == 1 && RunOver(s, id)
    ensures Replay(c, Initial(c, objects), actions).drills[id].row.status == Succeeded
       <==> id !in Stumbled(c, Initial(c, objects), actions)
  {
    hide Replay, Stumbled, Inv, WritersSane;
    InitiallyExplained(c, objects, id);
    DecidedReplay(c, Initial(c, objects), actions, id);
  }
}
