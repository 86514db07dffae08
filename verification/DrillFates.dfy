/** What ends a drill, and as what: every terminal row is stamped by the action that made it
    so, and over whole runs each final status has its own cause. */
module DrillFates {
  import opened Prelude
  import opened Domain
  import opened Sandbox
  import opened Drills
  import opened DrillInvariant
  import opened DrillSteps
  import opened DrillSafety
  import opened DrillFrames
  import opened DrillDocker
  import opened DrillProgress
  import opened DrillExits
  import opened DrillVerdicts
  import opened DrillQueue

  // ------------------------------------------------------------------------- stamps

  predicate RowWriter(p: Point) {
    p.Claim? || p.ToRestoring? || p.ToValidating? || p.ToFinalizing? || p.PrepareOnly? || p.Commit? || TerminalWriter(p)
  }

  ghost predicate RowKept(s: State, t: State, id: string) {
    id in s.drills ==> id in t.drills && t.drills[id].row == s.drills[id].row
  }

  lemma QuietEarly(c: Config, s: State, w: nat, o: Outcome)
    requires w in s.workers && Early(s.workers[w].at) && !RowWriter(s.workers[w].at)
    ensures RowKept(s, StepRun(c, s, w, o), s.workers[w].id)
  {
    hide Created, StagePasses, Residue, BaseTaken, Compact;
  }

  lemma QuietMiddle(c: Config, s: State, w: nat, o: Outcome)
    requires w in s.workers && Middle(s.workers[w].at) && !RowWriter(s.workers[w].at)
    ensures RowKept(s, StepRun(c, s, w, o), s.workers[w].id)
  {}

  lemma QuietLate(c: Config, s: State, w: nat, o: Outcome)
    requires w in s.workers && !Early(s.workers[w].at) && !Middle(s.workers[w].at) && !RowWriter(s.workers[w].at)
    ensures RowKept(s, StepRun(c, s, w, o), s.workers[w].id)
  {
    hide Destroyed, EvidenceKey, Residue;
  }

  /** Everywhere else a run leaves its row alone. */
  lemma QuietRow(c: Config, s: State, w: nat, o: Outcome)
    requires w in s.workers && !RowWriter(s.workers[w].at)
    ensures RowKept(s, StepRun(c, s, w, o), s.workers[w].id)
  {
    hide StepRun, RowKept;
    if Early(s.workers[w].at) { QuietEarly(c, s, w, o); }
    else if Middle(s.workers[w].at) { QuietMiddle(c, s, w, o); }
    else { QuietLate(c, s, w, o); }
  }

  /** The row as `setTerminal` leaves it. */
  function Closed(row: Row, status: DrillStatus, now: int): Row {
    row.(status := status, completedAt := Some(now),
         assessment := Some(if status == Failed then AssessmentFailed else AssessmentUnknown), confidence := Some(Low))
  }

  /** One terminal write of a run, by the point it stands at. */
  ghost predicate Stamped(before: Row, after: Row, p: Point, now: int) {
    match p
    case LoadFailed => after == Closed(before, Inconclusive, now)
    case GiveUp => after == Closed(before, Inconclusive, now)
    case FailWrite(status) => after == Closed(before, status, now)
    case Commit => after.status == Succeeded && after.completedAt == Some(now)
    case _ => false
  }

  lemma StampedByWriter(c: Config, s: State, w: nat, o: Outcome)
    requires w in s.workers && s.workers[w].id in s.drills && TerminalWriter(s.workers[w].at)
    ensures var t, id := StepRun(c, s, w, o), s.workers[w].id;
      && id in t.drills
      && (t.drills[id].row == s.drills[id].row || Stamped(s.drills[id].row, t.drills[id].row, s.workers[w].at, o.now))
  {}

  lemma StampedByCommit(c: Config, s: State, w: nat, o: Outcome)
    requires w in s.workers && s.workers[w].id in s.drills && s.workers[w].at == Commit
    ensures var t, id := StepRun(c, s, w, o), s.workers[w].id;
      && id in t.drills
      && (t.drills[id].row == s.drills[id].row || Stamped(s.drills[id].row, t.drills[id].row, Commit, o.now))
  {
    hide EvidenceKey, MeasureRPO, MeasureRTO, EvaluatePolicy, Verdict;
  }

  lemma OpenAfterTransition(
    s: State, w: nat, o: Outcome, to: DrillStatus, step: StepName, n: int, next: Point)
    requires w in s.workers && s.workers[w].id in s.drills && !Terminal(to)
    ensures var t, id := StepTransition(s, w, o, to, step, n, next), s.workers[w].id;
      id in t.drills && (t.drills[id].row.status == s.drills[id].row.status || t.drills[id].row.status == to)
  {
    hide InsertStep, CanTransition;
  }

  lemma OpenAfterPrepare(c: Config, s: State, w: nat, o: Outcome)
    requires w in s.workers && s.workers[w].id in s.drills && s.workers[w].at == PrepareOnly
    ensures var t, id := StepRun(c, s, w, o), s.workers[w].id;
      id in t.drills && (t.drills[id].row.status == s.drills[id].row.status || t.drills[id].row.status == Preparing)
  {
    OpenAfterTransition(s, w, o, Preparing, PrepareDrill, 1, GiveUp);
  }

  lemma StampedByRun(c: Config, s: State, w: nat, o: Outcome)
    requires w in s.workers && s.workers[w].id in s.drills
    ensures var t, id, p := StepRun(c, s, w, o), s.workers[w].id, s.workers[w].at;
      && id in t.drills
      && (!Terminal(s.drills[id].row.status) && Terminal(t.drills[id].row.status) ==>
            Stamped(s.drills[id].row, t.drills[id].row, p, o.now))
  {
    hide Stamped, StepTransition, StepLoad, StepStage, StepMakeSandbox, StepPut, StepDestroy, StepCommit, StepDelete,
      StepTerminate, StepCleanup, StepPersist, StepRecordSandbox, ReachOrFail;
    match s.workers[w].at
    case Claim => OpenAfterTransition(s, w, o, Preparing, FetchBackup, 1, Load);
    case ToRestoring => OpenAfterTransition(s, w, o, Restoring, RestorePostgres, 3, Restore);
    case ToValidating => OpenAfterTransition(s, w, o, Validating, PostgresConnectivity, 4, Connect);
    case ToFinalizing => OpenAfterTransition(s, w, o, Finalizing, CollectEvidence, 5, PutEvidence);
    case PrepareOnly => OpenAfterPrepare(c, s, w, o);
    case Commit => StampedByCommit(c, s, w, o);
    case LoadFailed => StampedByWriter(c, s, w, o);
    case GiveUp => StampedByWriter(c, s, w, o);
    case FailWrite(_) => StampedByWriter(c, s, w, o);
    case _ => QuietRow(c, s, w, o);
  }

  lemma StampedByActor(c: Config, s: State, a: Action, id: string)
    requires !a.Step? && id in s.drills
    ensures var t := Apply(c, s, a);
      && id in t.drills
      && (t.drills[id].row == s.drills[id].row
          || (a.CancelRow? && a.id == id && a.org == s.drills[id].row.org
              && t.drills[id].row == s.drills[id].row.(status := Cancelled, completedAt := Some(a.now))))
  {
    match a
    case CreateDrill(org, header, uuid, i, assetExists) =>
    case CancelRow(org, i, ok, now) =>
    case CancelContext(org, i) =>
    case Shutdown =>
    case Dequeue(w) =>
    case Submit(i) =>
    case Resubmit(i) =>
    case Timeout(w) =>
  }

  /** Only these actions ever make a row terminal, and each leaves exactly this row: a cancel by
      the drill's own organisation, the write after a failed load, the write of `fail`, the one
      of a pool without executor, and the final transaction; the completion is always the time
      of the action itself. */
  lemma TerminalStamps(c: Config, s: State, a: Action, id: string)
    requires id in s.drills && !Terminal(s.drills[id].row.status)
    requires id in Apply(c, s, a).drills && Terminal(Apply(c, s, a).drills[id].row.status)
    ensures var before, after := s.drills[id].row, Apply(c, s, a).drills[id].row;
      if a.CancelRow? then a.id == id && a.org == before.org && after == before.(status := Cancelled, completedAt := Some(a.now))
      else a.Step? && a.w in s.workers && s.workers[a.w].id == id && Stamped(before, after, s.workers[a.w].at, a.o.now)
  {
    hide Stamped, StepRun;
    if !a.Step? {
      StampedByActor(c, s, a, id);
    } else if a.w in s.workers {
      RunEffect(c, s, a.w, a.o);
      if s.workers[a.w].id == id { StampedByRun(c, s, a.w, a.o); }
    }
  }

  // ----------------------------------------------------------------------- shutdown

  /** The pool is closed and every context has ended. */
  predicate Stopped(s: State) {
    s.pool.closed && forall w | w in s.workers :: s.workers[w].ctxDone
  }

  lemma ShutdownStops(c: Config, s: State)
    ensures Stopped(Apply(c, s, Shutdown))
  {}

  lemma StoppedRun(c: Config, s: State, w: nat, o: Outcome)
    requires Stopped(s) && w in s.workers
    ensures Stopped(StepRun(c, s, w, o))
  {
    RunEffect(c, s, w, o);
    if s.workers[w].at == Done { DoneLeaves(c, s, w, o); DonePool(c, s, w, o); } else { RunFrame(c, s, w, o); }
    hide StepRun;
  }

  lemma StoppedActor(c: Config, s: State, a: Action)
    requires Stopped(s) && !a.Step?
    ensures Stopped(Apply(c, s, a))
  {}

  /** The row as far as a stopped pool may still change it: to no claim and no success. */
  predicate NothingWon(d: Drill, e: Drill) {
    e.claims == d.claims && (e.row.status == Succeeded ==> d.row.status == Succeeded)
  }

  lemma StoppedTransition(s: State, w: nat, o: Outcome, to: DrillStatus, step: StepName, n: int, next: Point)
    requires w in s.workers && s.workers[w].ctxDone && s.workers[w].id in s.drills
    ensures StepTransition(s, w, o, to, step, n, next).drills == s.drills
  {
    RefusedTransition(s, w, o, to, step, n, next);
  }

  lemma StoppedCommit(s: State, w: nat, o: Outcome)
    requires w in s.workers && s.workers[w].ctxDone
    ensures StepCommit(s, w, o).drills == s.drills
  {
    hide Completed, EvidenceKey;
  }

  lemma StoppedDrill(c: Config, s: State, w: nat, o: Outcome)
    requires Stopped(s) && w in s.workers && s.workers[w].id in s.drills && SaneFail(s.workers[w].at)
    ensures var id, t := s.workers[w].id, StepRun(c, s, w, o); id in t.drills && NothingWon(s.drills[id], t.drills[id])
  {
    hide Stamped, StepTransition, StepLoad, StepStage, StepMakeSandbox, StepPut, StepDestroy, StepCommit, StepDelete,
      StepTerminate, StepCleanup, StepPersist, StepRecordSandbox, ReachOrFail, RowKept;
    RunEffect(c, s, w, o);
    match s.workers[w].at
    case Claim => StoppedTransition(s, w, o, Preparing, FetchBackup, 1, Load);
    case ToRestoring => StoppedTransition(s, w, o, Restoring, RestorePostgres, 3, Restore);
    case ToValidating => StoppedTransition(s, w, o, Validating, PostgresConnectivity, 4, Connect);
    case ToFinalizing => StoppedTransition(s, w, o, Finalizing, CollectEvidence, 5, PutEvidence);
    case PrepareOnly => StoppedTransition(s, w, o, Preparing, PrepareDrill, 1, GiveUp);
    case Commit => StoppedCommit(s, w, o);
    case LoadFailed => StoppedWriter(c, s, w, o);
    case GiveUp => StoppedWriter(c, s, w, o);
    case FailWrite(_) => StoppedWriter(c, s, w, o);
    case _ => StoppedQuiet(c, s, w, o);
  }

  lemma StoppedWriter(c: Config, s: State, w: nat, o: Outcome)
    requires w in s.workers && s.workers[w].id in s.drills && TerminalWriter(s.workers[w].at) && SaneFail(s.workers[w].at)
    ensures var id, t := s.workers[w].id, StepRun(c, s, w, o); id in t.drills && NothingWon(s.drills[id], t.drills[id])
  {
    hide StepRun;
    StampedByWriter(c, s, w, o);
    RunEffect(c, s, w, o);
  }

  lemma StoppedQuiet(c: Config, s: State, w: nat, o: Outcome)
    requires w in s.workers && s.workers[w].id in s.drills && !RowWriter(s.workers[w].at)
    ensures var id, t := s.workers[w].id, StepRun(c, s, w, o); id in t.drills && NothingWon(s.drills[id], t.drills[id])
  {
    hide StepRun;
    QuietRow(c, s, w, o);
    RunEffect(c, s, w, o);
  }

  lemma StoppedAction(c: Config, s: State, a: Action, id: string)
    requires Stopped(s) && WritersSane(s) && id in s.drills
    ensures Stopped(Apply(c, s, a)) && id in Apply(c, s, a).drills && NothingWon(s.drills[id], Apply(c, s, a).drills[id])
  {
    hide Stopped, StepRun;
    if !a.Step? {
      StoppedActor(c, s, a);
      ActorRow(c, s, a, id);
      OtherEffect(c, s, a);
      hide Apply;
    } else if a.w in s.workers {
      StoppedRun(c, s, a.w, a.o);
      RunEffect(c, s, a.w, a.o);
      if s.workers[a.w].id == id { StoppedDrill(c, s, a.w, a.o); }
    }
  }

  lemma {:induction false} NothingWonWhenStopped(c: Config, s: State, actions: seq<Action>, id: string)
    requires Stopped(s) && WritersSane(s) && id in s.drills
    ensures var t := Replay(c, s, actions); Stopped(t) && id in t.drills && NothingWon(s.drills[id], t.drills[id])
    decreases |actions|
  {
    if actions != [] {
      hide Stopped, WritersSane, Apply;
      StoppedAction(c, s, actions[0], id);
      KeepSane(c, s, actions[0]);
      NothingWonWhenStopped(c, Apply(c, s, actions[0]), actions[1..], id);
    }
  }

  /** After a shutdown, whatever happened before and happens then, no drill is claimed any more
      and none becomes a success, with or without executor. */
  lemma NothingWonAfterShutdown(
    c: Config, objects: map<string, Bytes>, before: seq<Action>, after: seq<Action>, id: string)
    requires id in Replay(c, Initial(c, objects), before).drills
    ensures var s, t := Replay(c, Initial(c, objects), before), Replay(c, Initial(c, objects), before + [Shutdown] + after);
      id in t.drills && NothingWon(s.drills[id], t.drills[id])
  {
    var s0 := Initial(c, objects);
    var u := Replay(c, s0, before);
    SaneReplay(c, s0, before);
    ReplaySnoc(c, s0, before, Shutdown);
    ReplayAppend(c, s0, before + [Shutdown], after);
    KeepSane(c, u, Shutdown);
    ShutdownStops(c, u);
    hide Replay;
    NothingWonWhenStopped(c, Apply(c, u, Shutdown), after, id);
  }

  // --------------------------------------------------------------------- whole runs

  /** What an action of the drill's run decides: a failed load and a failed call decide by the
      state of the context, the final transaction by its guard. */
  function Decides(c: Config, s: State, a: Action, id: string, fate: Option<DrillStatus>): Option<DrillStatus> {
    if a.Step? && a.w in s.workers && s.workers[a.w].id == id && s.workers[a.w].claimed
    then DecidesAt(c, s, s.workers[a.w], a.o, fate) else fate
  }

  function DecidesAt(c: Config, s: State, r: Run, o: Outcome, fate: Option<DrillStatus>): Option<DrillStatus> {
    match r.at
    case LoadFailed => if o.ok && !r.ctxDone then Some(Inconclusive) else fate
    case FailDecide => if r.ctxDone then Some(Cancelled) else Some(Failed)
    case Commit => if Passes(c, s, r, o) then Some(Succeeded) else fate
    case _ => fate
  }

  /** The last decision on a drill over a run of the system. */
  function Fate(c: Config, s: State, actions: seq<Action>, id: string): Option<DrillStatus> {
    if actions == [] then None
    else
      var n := |actions| - 1;
      Decides(c, Replay(c, s, actions[..n]), actions[n], id, Fate(c, s, actions[..n], id))
  }

  /** The claimant's run, if it is in flight. */
  predicate Flying(s: State, id: string) {
    id in s.drills && s.drills[id].claimant.Some? &&
    var w := s.drills[id].claimant.value;
    w in s.workers && s.workers[w].id == id && s.workers[w].claimed
  }

  function PointOf(s: State, id: string): Point
    requires Flying(s, id)
  {
    s.workers[s.drills[id].claimant.value].at
  }

  /** Nothing is decided and the row is open; or the decision is the row's status and the run
      leaving or over; or the run is about to write it. */
  ghost predicate Fated(s: State, id: string, fate: Option<DrillStatus>) {
    id in s.drills &&
    var status := s.drills[id].row.status;
    match fate
    case None => !Terminal(status) && (Flying(s, id) ==> !PointOf(s, id).FailWrite?)
    case Some(decided) =>
      || (status == decided && Terminal(status) && (Flying(s, id) ==> Leaving(PointOf(s, id))))
      || (!Terminal(status) && Flying(s, id) && PointOf(s, id) == FailWrite(decided))
  }

  ghost predicate FatedOr(s: State, id: string, fate: Option<DrillStatus>, known: bool) {
    && (id in s.drills && s.drills[id].claims == 1 && !known ==> Fated(s, id, fate))
    && (id !in s.drills || s.drills[id].claims == 0 ==> fate == None)
  }

  predicate Onward(t: State, w: nat) { w in t.workers && !t.workers[w].at.FailWrite? }

  lemma OnwardTransition(s: State, w: nat, o: Outcome, to: DrillStatus, step: StepName, n: int, next: Point)
    requires w in s.workers && !next.FailWrite?
    ensures Onward(StepTransition(s, w, o, to, step, n, next), w)
  {
    hide CanTransition, InsertStep;
  }

  lemma OnwardProvision(c: Config, s: State, w: nat, o: Outcome)
    requires w in s.workers && (s.workers[w].at == Stage || s.workers[w].at == MakeSandbox)
    ensures Onward(StepRun(c, s, w, o), w)
  {
    hide Created, StagePasses, Residue, BaseTaken, Compact;
  }

  lemma OnwardRecorded(c: Config, s: State, w: nat, o: Outcome)
    requires w in s.workers && (s.workers[w].at == Persist || s.workers[w].at == RecordSandbox)
    ensures Onward(StepRun(c, s, w, o), w)
  {}

  lemma OnwardLoad(c: Config, s: State, w: nat, o: Outcome)
    requires w in s.workers && (s.workers[w].at == Load || s.workers[w].at == LoadFailed)
    ensures Onward(StepRun(c, s, w, o), w)
  {}

  lemma OnwardProbe(c: Config, s: State, w: nat, o: Outcome)
    requires w in s.workers && (s.workers[w].at == Restore || s.workers[w].at == Connect)
    ensures Onward(StepRun(c, s, w, o), w)
  {}

  lemma OnwardLate(c: Config, s: State, w: nat, o: Outcome)
    requires w in s.workers && !Early(s.workers[w].at) && !Middle(s.workers[w].at)
    requires s.workers[w].at != FailDecide && s.workers[w].at != Done
    ensures Onward(StepRun(c, s, w, o), w)
  {
    hide Destroyed, EvidenceKey, Residue, Completed;
  }

  /** Only a decision leads to the write of `fail`. */
  lemma FailWriteFrom(c: Config, s: State, w: nat, o: Outcome)
    requires w in s.workers && s.workers[w].at != FailDecide && s.workers[w].at != Done
    ensures Onward(StepRun(c, s, w, o), w)
  {
    hide Onward, StepTransition, StepLoad, StepStage, StepMakeSandbox, StepPersist, StepRecordSandbox, ReachOrFail,
      StepPut, StepDestroy, StepCommit, StepDelete, StepTerminate, StepCleanup;
    match s.workers[w].at
    case Claim => OnwardTransition(s, w, o, Preparing, FetchBackup, 1, Load);
    case ToRestoring => OnwardTransition(s, w, o, Restoring, RestorePostgres, 3, Restore);
    case ToValidating => OnwardTransition(s, w, o, Validating, PostgresConnectivity, 4, Connect);
    case ToFinalizing => OnwardTransition(s, w, o, Finalizing, CollectEvidence, 5, PutEvidence);
    case Load => OnwardLoad(c, s, w, o);
    case LoadFailed => OnwardLoad(c, s, w, o);
    case Stage => OnwardProvision(c, s, w, o);
    case MakeSandbox => OnwardProvision(c, s, w, o);
    case Persist => OnwardRecorded(c, s, w, o);
    case RecordSandbox => OnwardRecorded(c, s, w, o);
    case Restore => OnwardProbe(c, s, w, o);
    case Connect => OnwardProbe(c, s, w, o);
    case _ => OnwardLate(c, s, w, o);
  }

  lemma FatedLoad(c: Config, s: State, w: nat, o: Outcome)
    requires w in s.workers && s.workers[w].at == LoadFailed && s.workers[w].id in s.drills
    requires !Terminal(s.drills[s.workers[w].id].row.status)
    ensures var t, id := StepRun(c, s, w, o), s.workers[w].id;
      && w in t.workers && Leaving(t.workers[w].at) && id in t.drills
      && t.drills[id].row.status == if o.ok && !s.workers[w].ctxDone then Inconclusive else s.drills[id].row.status
  {}

  lemma FatedFail(c: Config, s: State, w: nat, o: Outcome)
    requires w in s.workers && s.workers[w].id in s.drills && (s.workers[w].at.FailDecide? || s.workers[w].at.FailWrite?)
    requires !Terminal(s.drills[s.workers[w].id].row.status)
    ensures var t, id, r := StepRun(c, s, w, o), s.workers[w].id, s.workers[w];
      && w in t.workers && id in t.drills
      && (r.at.FailDecide? ==>
            t.drills[id].row == s.drills[id].row && t.workers[w].at == FailWrite(if r.ctxDone then Cancelled else Failed))
      && (r.at.FailWrite? && o.ok ==> t.drills[id].row.status == r.at.status && Leaving(t.workers[w].at))
  {}

  lemma FatedLeaving(c: Config, s: State, w: nat, o: Outcome)
    requires w in s.workers && Leaving(s.workers[w].at) && s.workers[w].at != Done
    ensures w in StepRun(c, s, w, o).workers && StepRun(c, s, w, o).workers[w].at == Done
  {
    hide Destroyed, Residue;
  }

  /** Where the row is still open and stays so. */
  lemma StaysOpen(c: Config, s: State, w: nat, o: Outcome)
    requires Here(c, s, w) && s.workers[w].claimed && s.workers[w].at != Done && s.workers[w].id in s.drills
    requires !Terminal(s.drills[s.workers[w].id].row.status) && !TerminalWriter(s.workers[w].at)
    requires s.workers[w].at == Commit ==> !Passes(c, s, s.workers[w], o)
    ensures var t, id := StepRun(c, s, w, o), s.workers[w].id; id in t.drills && !Terminal(t.drills[id].row.status)
  {
    hide StepRun, FirstSteps, StoredAs, IntegrityHolds, EvidenceAgrees, ColumnsAgree, SuccessEarned, Passes;
    StampedByRun(c, s, w, o);
    if s.workers[w].at == Commit { Judge(c, s, w, o); }
  }

  lemma CommitLeaves(c: Config, s: State, w: nat, o: Outcome)
    requires Here(c, s, w) && s.workers[w].claimed && s.workers[w].at == Commit && Passes(c, s, s.workers[w], o)
    ensures w in StepRun(c, s, w, o).workers && Leaving(StepRun(c, s, w, o).workers[w].at)
  {
    hide FirstSteps, StoredAs, IntegrityHolds, EvidenceKey, MeasureRPO, MeasureRTO, EvaluatePolicy, Verdict;
  }

  lemma FrozenHere(s: State, t: State, w: nat)
    requires StepEffect(s, t, w) && SaneFail(s.workers[w].at)
    requires s.workers[w].id in s.drills && Terminal(s.drills[s.workers[w].id].row.status)
    ensures t.drills[s.workers[w].id].row == s.drills[s.workers[w].id].row
  {}

  /** Where the own run of a claimed drill gets its drill, case by case. */
  lemma FatedMoves(c: Config, s: State, w: nat, o: Outcome, fate: Option<DrillStatus>)
    requires Here(c, s, w) && s.workers[w].claimed && s.workers[w].at != Done && SaneFail(s.workers[w].at)
    requires s.workers[w].id in s.drills && s.drills[s.workers[w].id].claimant == Some(w)
    requires Fated(s, s.workers[w].id, fate) && StepEffect(s, StepRun(c, s, w, o), w)
    requires s.workers[w].id !in StruckBy(s, Step(w, o))
    ensures
      var t, id, after := StepRun(c, s, w, o), s.workers[w].id, DecidesAt(c, s, s.workers[w], o, fate);
      && w in t.workers && id in t.drills
      && match after
         case None => !Terminal(t.drills[id].row.status) && !t.workers[w].at.FailWrite?
         case Some(decided) =>
           || (t.drills[id].row.status == decided && Terminal(decided) && Leaving(t.workers[w].at))
           || (!Terminal(t.drills[id].row.status) && t.workers[w].at == FailWrite(decided))
  {
    hide StepRun, FirstSteps, StoredAs, IntegrityHolds, EvidenceAgrees, ColumnsAgree, SuccessEarned, Passes;
    var p := s.workers[w].at;
    assert Flying(s, s.workers[w].id) && PointOf(s, s.workers[w].id) == p;
    if fate.Some? && Leaving(p) {
      FatedLeaving(c, s, w, o);
      FrozenHere(s, StepRun(c, s, w, o), w);
    } else if p == LoadFailed {
      FatedLoad(c, s, w, o);
      FailWriteFrom(c, s, w, o);
    } else if p.FailDecide? || p.FailWrite? {
      FatedFail(c, s, w, o);
    } else if p == Commit && Passes(c, s, s.workers[w], o) {
      Judge(c, s, w, o);
      CommitLeaves(c, s, w, o);
    } else {
      StaysOpen(c, s, w, o);
      FailWriteFrom(c, s, w, o);
    }
  }

  lemma FatedOwn(c: Config, s: State, w: nat, o: Outcome, fate: Option<DrillStatus>)
    requires Here(c, s, w) && s.workers[w].claimed && s.workers[w].at != Done && SaneFail(s.workers[w].at)
    requires s.workers[w].id in s.drills && s.drills[s.workers[w].id].claims == 1
    requires Fated(s, s.workers[w].id, fate) && StepEffect(s, StepRun(c, s, w, o), w)
    requires s.workers[w].id !in StruckBy(s, Step(w, o))
    requires StepRun(c, s, w, o).drills[s.workers[w].id].claims == 1
    ensures Fated(StepRun(c, s, w, o), s.workers[w].id, DecidesAt(c, s, s.workers[w], o, fate))
  {
    hide StepRun, FirstSteps, StoredAs, IntegrityHolds, EvidenceAgrees, ColumnsAgree, SuccessEarned, Passes, DecidesAt, StruckBy;
    FatedMoves(c, s, w, o, fate);
  }

  lemma FatedSame(s: State, t: State, id: string, fate: Option<DrillStatus>)
    requires Fated(s, id, fate) && id in t.drills && t.drills[id] == s.drills[id]
    requires Flying(t, id) ==> Flying(s, id) && PointOf(t, id) == PointOf(s, id)
    requires fate.Some? && !Terminal(s.drills[id].row.status) ==> Flying(t, id)
    ensures Fated(t, id, fate)
  {}

  lemma FatedByActor(c: Config, s: State, t: State, id: string, fate: Option<DrillStatus>)
    requires ActorEffect(c, s, t) && s.workers.Keys <= t.workers.Keys
    requires forall v :: v in t.workers && v !in s.workers ==> !t.workers[v].claimed
    requires id in s.drills && id in t.drills && t.drills[id] == s.drills[id] && Fated(s, id, fate)
    ensures Fated(t, id, fate)
  {
    FatedSame(s, t, id, fate);
  }

  lemma FatedThere(s: State, t: State, w: nat, id: string, fate: Option<DrillStatus>)
    requires StepEffect(s, t, w) && id != s.workers[w].id && Fated(s, id, fate)
    ensures Fated(t, id, fate)
  {
    FatedSame(s, t, id, fate);
  }

  lemma FatedDone(s: State, t: State, w: nat, id: string, fate: Option<DrillStatus>)
    requires w in s.workers && s.workers[w].at == Done && t.drills == s.drills && t.workers == s.workers - {w}
    requires Fated(s, id, fate)
    ensures Fated(t, id, fate)
  {
    FatedSame(s, t, id, fate);
  }

  lemma FatedUnclaimed(c: Config, s: State, w: nat, o: Outcome, fate: Option<DrillStatus>, known: bool)
    requires Here(c, s, w) && !s.workers[w].claimed && s.workers[w].at != Done && FatedOr(s, s.workers[w].id, fate, known)
    requires StepEffect(s, StepRun(c, s, w, o), w)
    ensures FatedOr(StepRun(c, s, w, o), s.workers[w].id, fate, known)
  {
    hide StepRun, FirstSteps, EvidenceAgrees, ColumnsAgree, SuccessEarned;
    var t, id := StepRun(c, s, w, o), s.workers[w].id;
    if id in s.drills {
      ClaimDecides(c, s, w, o);
      if TransitionRefused(s, s.workers[w], o, Preparing) && s.drills[id].claims == 1 && !known {
        FatedSame(s, t, id, fate);
      }
    }
  }

  lemma FatedClaimed(c: Config, s: State, w: nat, o: Outcome, fate: Option<DrillStatus>, known: bool)
    requires Here(c, s, w) && s.workers[w].claimed && s.workers[w].at != Done && SaneFail(s.workers[w].at)
    requires FatedOr(s, s.workers[w].id, fate, known)
    requires Here(c, StepRun(c, s, w, o), w) && StepEffect(s, StepRun(c, s, w, o), w)
    ensures var id, a := s.workers[w].id, Step(w, o);
      FatedOr(StepRun(c, s, w, o), id, Decides(c, s, a, id, fate), known || id in StruckBy(s, a))
  {
    hide StepRun, FirstSteps, StoredAs, IntegrityHolds, EvidenceAgrees, ColumnsAgree, SuccessEarned, DecidesAt, StruckBy, Fated;
    if !known && s.workers[w].id !in StruckBy(s, Step(w, o)) { FatedOwn(c, s, w, o, fate); }
  }

  lemma KeepFated(c: Config, s: State, a: Action, id: string, fate: Option<DrillStatus>, known: bool)
    requires Inv(c, s) && WritersSane(s) && c.configured && FatedOr(s, id, fate, known)
    ensures FatedOr(Apply(c, s, a), id, Decides(c, s, a, id, fate), known || id in StruckBy(s, a) || id in RecalledBy(s, a))
  {
    hide Fated, StepEffect, ActorEffect, StepRun, Inv, RunOk, DrillOk, DecidesAt, StruckBy, RecalledBy;
    var t := Apply(c, s, a);
    if !a.Step? {
      OtherEffect(c, s, a);
      ActorFrame(c, s, a);
      NewDrillsUnclaimed(c, s, a, id);
      ActorLeavesRuns(c, s, a);
      if id in s.drills && id !in RecalledBy(s, a) { ActorLeavesRow(c, s, a, id); }
      if id in s.drills { ActorKeepsClaims(c, s, a, id); }
      hide Apply;
      if id in s.drills && s.drills[id].claims == 1 && !known && id !in RecalledBy(s, a) { FatedByActor(c, s, t, id, fate); }
    } else if a.w in s.workers {
      FatedStep(c, s, a.w, a.o, id, fate, known);
    }
  }

  lemma ActorKeepsClaims(c: Config, s: State, a: Action, id: string)
    requires !a.Step? && id in s.drills
    ensures id in Apply(c, s, a).drills && Apply(c, s, a).drills[id].claims == s.drills[id].claims
  {
    OtherEffect(c, s, a);
  }

  lemma FatedStep(c: Config, s: State, w: nat, o: Outcome, id: string, fate: Option<DrillStatus>, known: bool)
    requires Inv(c, s) && WritersSane(s) && c.configured && w in s.workers && FatedOr(s, id, fate, known)
    ensures var a := Step(w, o); FatedOr(StepRun(c, s, w, o), id, Decides(c, s, a, id, fate), known || id in StruckBy(s, a))
  {
    hide Fated, StepEffect, StepRun, Inv, RunOk, DrillOk, DecidesAt, StruckBy;
    var t := StepRun(c, s, w, o);
    HereNow(c, s, w);
    RunEffect(c, s, w, o);
    if s.workers[w].at == Done {
      DoneLeaves(c, s, w, o);
      DoneDecides(c, s, w, o, id, fate);
      if id in s.drills && s.drills[id].claims == 1 && !known { FatedDone(s, t, w, id, fate); }
    } else if id != s.workers[w].id {
      OtherClaims(s, t, w, id);
      if id in s.drills && s.drills[id].claims == 1 && !known { FatedThere(s, t, w, id, fate); }
    } else if s.workers[w].claimed {
      KeepRun(c, s, w, o);
      ConfiguredPoint(c, s, w);
      RunFrame(c, s, w, o);
      HereNow(c, t, w);
      FatedClaimed(c, s, w, o, fate, known);
    } else {
      FatedUnclaimed(c, s, w, o, fate, known);
    }
  }

  lemma DoneDecides(c: Config, s: State, w: nat, o: Outcome, id: string, fate: Option<DrillStatus>)
    requires w in s.workers && s.workers[w].at == Done
    ensures Decides(c, s, Step(w, o), id, fate) == fate
  {}

  lemma OtherClaims(s: State, t: State, w: nat, id: string)
    requires StepEffect(s, t, w) && id != s.workers[w].id
    ensures id in t.drills <==> id in s.drills
    ensures id in s.drills ==> t.drills[id] == s.drills[id]
  {}

  lemma {:induction false} FatedReplay(c: Config, s: State, actions: seq<Action>, id: string)
    requires Inv(c, s) && WritersSane(s) && c.configured && FatedOr(s, id, None, false)
    ensures FatedOr(Replay(c, s, actions), id, Fate(c, s, actions, id),
                    id in Struck(c, s, actions) || id in Recalled(c, s, actions))
    decreases |actions|
  {
    if actions != [] {
      var n := |actions| - 1;
      var u := Replay(c, s, actions[..n]);
      ReplaySnoc(c, s, actions[..n], actions[n]);
      assert actions[..n] + [actions[n]] == actions;
      KeepReplay(c, s, actions[..n]);
      SaneReplay(c, s, actions[..n]);
      hide Fated, Inv, WritersSane, Apply, StruckBy, RecalledBy, Decides;
      FatedReplay(c, s, actions[..n], id);
      KeepFated(c, u, actions[n], id, Fate(c, s, actions[..n], id),
        id in Struck(c, s, actions[..n]) || id in Recalled(c, s, actions[..n]));
    }
  }

  lemma InitiallyFated(c: Config, objects: map<string, Bytes>, id: string)
    requires NoEvidenceYet(objects)
    ensures var s := Initial(c, objects); Inv(c, s) && WritersSane(s) && FatedOr(s, id, None, false)
  {}

  /** In every reachable state, for every claimed drill whose run is over, whose database calls
      were answered and which its own organisation has not cancelled: the status is the one its
      run decided on. SUCCEEDED needs the final transaction; INCONCLUSIVE means a failed load
      with a live context, FAILED a failed call with a live context at that moment, CANCELLED
      one with an ended context; and without a decision the drill is still open. */
  lemma EndStatusExactly(c: Config, objects: map<string, Bytes>, actions: seq<Action>, id: string)
    requires c.configured && NoEvidenceYet(objects)
    requires var s := Replay(c, Initial(c, objects), actions);
      && id in s.drills && s.drills[id].claims == 1 && RunOver(s, id)
      && id !in Struck(c, Initial(c, objects), actions) && id !in Recalled(c, Initial(c, objects), actions)
    ensures var status, fate := Replay(c, Initial(c, objects), actions).drills[id].row.status, Fate(c, Initial(c, objects), actions, id);
      if fate == None then !Terminal(status) else status == fate.value && Terminal(status)
  {
    hide Replay, Fate, Struck, Recalled, Inv, WritersSane, Initial;
    InitiallyFated(c, objects, id);
    FatedReplay(c, Initial(c, objects), actions, id);
  }
}
