/** The other half of safety: when nothing goes wrong, a drill succeeds. From every reachable
    state a run that starts on a queued drill with an acceptable backup, and that nobody
    disturbs, takes fourteen steps to SUCCEEDED. */
module DrillSuccess {
  import opened Prelude
  import opened Domain
  import opened Sandbox
  import opened Drills
  import opened DrillInvariant
  import opened DrillSteps
  import opened DrillSafety
  import opened DrillFrames
  import opened DrillDocker
  import opened DrillTheorems

  /** Every call of the step succeeds. */
  predicate Smooth(o: Outcome) {
    && o.ok && o.env.network && o.env.volume == Effect.Worked && o.env.container == Effect.Worked
    && o.env.ready && o.faults == NO_FAULTS
  }

  /** What the run is about: its snapshot, the bytes stored for it, the random part of its
      sandbox's name, and the clock at its claim, after its connectivity check and at its final
      transaction. */
  datatype Errand = Errand(snapshot: Snapshot, backup: Bytes, suffix: string, claimed: int, ready: int, done: int)

  /** The outcome of the step that leaves `left` steps to go, itself included. */
  predicate For(o: Outcome, e: Errand, left: nat) {
    && o.snapshot == e.snapshot && o.suffix == e.suffix
    && (left == 14 ==> o.now == e.claimed) && (left == 5 ==> o.now == e.ready) && (left == 1 ==> o.now == e.done)
  }

  predicate Acceptable(c: Config, e: Errand) {
    e.snapshot.storageKey != "" && IntegrityHolds(c, e.backup, e.snapshot.checksum)
  }

  /** The points in the order in which an undisturbed run passes them. */
  function Following(p: Point): Point {
    match p
    case Claim => Load
    case Load => Stage
    case Stage => MakeSandbox
    case MakeSandbox => Persist
    case Persist => RecordSandbox
    case RecordSandbox => ToRestoring
    case ToRestoring => Restore
    case Restore => ToValidating
    case ToValidating => Connect
    case Connect => ToFinalizing
    case ToFinalizing => PutEvidence
    case PutEvidence => DestroySandbox
    case DestroySandbox => Commit
    case _ => Done
  }

  /** How many steps an undisturbed run has left. */
  function Left(p: Point): nat {
    match p
    case Claim => 14
    case Load => 13
    case Stage => 12
    case MakeSandbox => 11
    case Persist => 10
    case RecordSandbox => 9
    case ToRestoring => 8
    case Restore => 7
    case ToValidating => 6
    case Connect => 5
    case ToFinalizing => 4
    case PutEvidence => 3
    case DestroySandbox => 2
    case Commit => 1
    case _ => 0
  }

  /** The backup and the sandbox's name are still to be used. */
  predicate Provided(s: State, id: string, p: Point, e: Errand) {
    && (p.Claim? || p.Load? || p.Stage? ==>
          e.snapshot.storageKey in s.objects && s.objects[e.snapshot.storageKey] == e.backup)
    && (p.Claim? || p.Load? || p.Stage? || p.MakeSandbox? ==>
          Compact(id) != "" && !BaseTaken(s, BaseName(Compact(id), e.suffix)))
  }

  /** The run is on its way, undisturbed so far. */
  predicate Underway(s: State, w: nat, p: Point, e: Errand) {
    && w in s.workers
    && var r := s.workers[w];
    && r.at == p && !r.ctxDone && r.id in s.drills && (r.claimed <==> !p.Claim?)
    && s.drills[r.id].row.status == (if p.Claim? then Queued else Phase(p))
    && (!p.Claim? && !p.Load? ==> r.job.Some? && r.job.value.snapshot == e.snapshot)
    && (!p.Claim? && !p.Load? && !p.Stage? ==> r.staged == e.backup)
    && (!p.Claim? ==> s.drills[r.id].row.startedAt == Some(e.claimed))
    && (MilesAt(p) > 3 ==> r.readyAt == e.ready)
    && Provided(s, r.id, p, e)
  }

  predicate Arrived(s: State, id: string, e: Errand) {
    && id in s.drills
    && var d := s.drills[id];
    && d.row.status == Succeeded && d.basis.Some?
    && d.basis.value.job.snapshot == e.snapshot && d.basis.value.staged == e.backup
    && Timely(d.row, e)
  }

  /** The row's times and measurements are those of the errand's clock readings. */
  predicate Timely(row: Row, e: Errand) {
    && row.startedAt == Some(e.claimed) && row.completedAt == Some(e.done)
    && (0 < e.claimed <= e.ready ==> row.rto == Some((e.ready - e.claimed) / 1_000_000_000))
    && (0 < e.snapshot.completedAt <= e.claimed ==> row.rpo == Some((e.claimed - e.snapshot.completedAt) / 1_000_000_000))
  }

  ghost predicate Advanced(s: State, t: State, w: nat, e: Errand) {
    w in s.workers && var p := s.workers[w].at;
    w in t.workers && t.workers[w].id == s.workers[w].id
    && if p == Commit then Arrived(t, s.workers[w].id, e) else Underway(t, w, Following(p), e)
  }

  lemma CreatedWorks(d: Docker, base: string, env: CreateEnv)
    requires !Residue(d, base) && env.network && env.volume == Effect.Worked && env.container == Effect.Worked && env.ready
    ensures Created(d, base, env).1
  {}

  lemma AdvanceProvision(c: Config, s: State, w: nat, o: Outcome, e: Errand)
    requires w in s.workers && (s.workers[w].at == Stage || s.workers[w].at == MakeSandbox)
    requires Underway(s, w, s.workers[w].at, e) && Smooth(o) && For(o, e, Left(s.workers[w].at)) && Acceptable(c, e)
    ensures Advanced(s, StepRun(c, s, w, o), w, e)
  {
    hide IntegrityHolds, Created;
    if s.workers[w].at == MakeSandbox {
      CreatedWorks(s.side.docker, BaseName(Compact(s.workers[w].id), o.suffix), o.env);
    }
  }

  lemma AdvanceEarly(c: Config, s: State, w: nat, o: Outcome, e: Errand)
    requires Here(c, s, w) && (s.workers[w].at == Claim || s.workers[w].at == Load)
    requires Underway(s, w, s.workers[w].at, e) && Smooth(o) && For(o, e, Left(s.workers[w].at)) && Acceptable(c, e)
    ensures Advanced(s, StepRun(c, s, w, o), w, e)
  {
    hide IntegrityHolds, FirstSteps, EvidenceAgrees, ColumnsAgree, SuccessEarned, Compact, Residue;
  }

  lemma AdvanceSteady(c: Config, s: State, w: nat, o: Outcome, e: Errand)
    requires w in s.workers && Underway(s, w, s.workers[w].at, e) && Smooth(o) && For(o, e, Left(s.workers[w].at))
    requires s.workers[w].at.Persist? || s.workers[w].at.RecordSandbox? || s.workers[w].at.Restore? || s.workers[w].at.Connect?
    ensures Advanced(s, StepRun(c, s, w, o), w, e)
  {
    hide BaseTaken, Compact;
  }

  lemma AdvanceTransition(
    c: Config, s: State, w: nat, o: Outcome, e: Errand, to: DrillStatus, step: StepName, n: int, next: Point)
    requires w in s.workers && Underway(s, w, s.workers[w].at, e) && Smooth(o) && For(o, e, Left(s.workers[w].at))
    requires TransitionPoint(s.workers[w].at, to, step, n, next) && s.workers[w].at != Claim
    ensures Advanced(s, StepTransition(s, w, o, to, step, n, next), w, e)
  {
    hide StepTransition, BaseTaken, Compact;
    TransitionShape(s, w, o, to, step, n, next);
  }

  lemma AdvancePut(c: Config, s: State, w: nat, o: Outcome, e: Errand)
    requires Underway(s, w, PutEvidence, e) && Smooth(o)
    ensures Advanced(s, StepRun(c, s, w, o), w, e)
  {
    hide BaseTaken, Compact, EvidenceKey;
  }

  lemma AdvanceEnded(s: State, w: nat, d: Docker, left: bool, fault: bool, e: Errand)
    requires Underway(s, w, DestroySandbox, e)
    ensures Advanced(s, SandboxEnded(s, w, d, true, left, fault), w, e)
  {
    hide BaseTaken, Compact;
  }

  lemma AdvanceDestroy(c: Config, s: State, w: nat, o: Outcome, e: Errand)
    requires Here(c, s, w) && Clean(c, s) && Underway(s, w, DestroySandbox, e) && Smooth(o)
    ensures Advanced(s, StepRun(c, s, w, o), w, e)
  {
    hide StepRun, Clean, DrillOk, Destroyed, Residue, SandboxEnded, Advanced;
    var (d, ok) := Destroyed(s.side.docker, Names(s.workers[w].base), o.faults);
    DestroyedEnds(c, s, w, o.faults);
    DestroyStep(c, s, w, o);
    AdvanceEnded(s, w, d, Residue(d, s.workers[w].base), false, e);
  }

  lemma AdvanceCommit(c: Config, s: State, w: nat, o: Outcome, e: Errand)
    requires Here(c, s, w) && Underway(s, w, Commit, e) && Smooth(o) && For(o, e, 1)
    ensures Advanced(s, StepRun(c, s, w, o), w, e)
  {
    hide IntegrityHolds, FirstSteps, BaseTaken, Compact, EvidenceAgrees, ColumnsAgree, SuccessEarned, EvaluatePolicy, Verdict;
  }

  /** One smooth step takes an undisturbed run to the next point. */
  lemma Advance(c: Config, s: State, w: nat, o: Outcome, e: Errand)
    requires Here(c, s, w) && Clean(c, s) && Underway(s, w, s.workers[w].at, e) && Left(s.workers[w].at) > 0
    requires Smooth(o) && For(o, e, Left(s.workers[w].at)) && Acceptable(c, e)
    ensures Advanced(s, StepRun(c, s, w, o), w, e)
  {
    hide Advanced, Underway, Clean, RunOk, DrillOk, Smooth, For, Acceptable, StepTransition, StepStage, StepMakeSandbox,
      StepPut, StepDestroy, StepCommit, StepLoad;
    match s.workers[w].at
    case Claim => AdvanceEarly(c, s, w, o, e);
    case Load => AdvanceEarly(c, s, w, o, e);
    case Stage => AdvanceProvision(c, s, w, o, e);
    case MakeSandbox => AdvanceProvision(c, s, w, o, e);
    case PutEvidence => AdvancePut(c, s, w, o, e);
    case DestroySandbox => AdvanceDestroy(c, s, w, o, e);
    case Commit => AdvanceCommit(c, s, w, o, e);
    case ToRestoring => AdvanceTransition(c, s, w, o, e, Restoring, RestorePostgres, 3, Restore);
    case ToValidating => AdvanceTransition(c, s, w, o, e, Validating, PostgresConnectivity, 4, Connect);
    case ToFinalizing => AdvanceTransition(c, s, w, o, e, Finalizing, CollectEvidence, 5, PutEvidence);
    case _ => AdvanceSteady(c, s, w, o, e);
  }

  function Steps(w: nat, outcomes: seq<Outcome>): (actions: seq<Action>)
    ensures |actions| == |outcomes|
  {
    if outcomes == [] then [] else [Step(w, outcomes[0])] + Steps(w, outcomes[1..])
  }

  lemma {:induction false} GoesThrough(c: Config, s: State, w: nat, outcomes: seq<Outcome>, e: Errand)
    requires Inv(c, s) && WritersSane(s) && Clean(c, s) && c.configured && Acceptable(c, e)
    requires w in s.workers && Underway(s, w, s.workers[w].at, e)
    requires |outcomes| == Left(s.workers[w].at) > 0
    requires forall i :: 0 <= i < |outcomes| ==> Smooth(outcomes[i]) && For(outcomes[i], e, |outcomes| - i)
    ensures Arrived(Replay(c, s, Steps(w, outcomes)), s.workers[w].id, e)
    decreases |outcomes|
  {
    hide Inv, WritersSane, Clean, Underway, Apply, StepRun, Here, Smooth, For, Acceptable, Arrived;
    var a, rest := Step(w, outcomes[0]), outcomes[1..];
    var t := Apply(c, s, a);
    assert Steps(w, outcomes)[1..] == Steps(w, rest);
    forall i | 0 <= i < |rest| ensures Smooth(rest[i]) && For(rest[i], e, |rest| - i) {
      assert rest[i] == outcomes[i + 1];
    }
    OwnStep(c, s, w, outcomes[0], e);
    if s.workers[w].at == Commit {
      assert rest == [];
    } else {
      KeepAction(c, s, a);
      KeepSane(c, s, a);
      KeepClean(c, s, a);
      Landed(s, t, w, e);
      GoesThrough(c, t, w, rest, e);
    }
  }

  lemma OwnStep(c: Config, s: State, w: nat, o: Outcome, e: Errand)
    requires Inv(c, s) && Clean(c, s) && w in s.workers && Underway(s, w, s.workers[w].at, e)
    requires Left(s.workers[w].at) > 0 && Smooth(o) && For(o, e, Left(s.workers[w].at)) && Acceptable(c, e)
    ensures Advanced(s, Apply(c, s, Step(w, o)), w, e)
  {
    hide Advanced, Underway, Clean, StepRun, RunOk, DrillOk;
    Advance(c, s, w, o, e);
  }

  lemma Landed(s: State, t: State, w: nat, e: Errand)
    requires Advanced(s, t, w, e) && s.workers[w].at != Commit && Left(s.workers[w].at) > 0
    ensures w in t.workers && t.workers[w].id == s.workers[w].id && Underway(t, w, t.workers[w].at, e)
    ensures Left(t.workers[w].at) == Left(s.workers[w].at) - 1
  {}

  // ------------------------------------------------------------------------ theorems

  /** In any reachable state, whatever the other drills are doing: a run about to claim a
      queued drill, whose backup is acceptable and in the store and whose sandbox name is
      free, takes the drill to SUCCEEDED on exactly that snapshot and those bytes when none
      of its fourteen calls fails and nobody else acts in between. Its row then says that it
      started at the first of their clock readings and ended at the last, and the measured RTO
      runs from the first to the tenth, the one after the connectivity check. */
  lemma UndisturbedRunSucceeds(
    c: Config, objects: map<string, Bytes>, before: seq<Action>, w: nat, outcomes: seq<Outcome>, e: Errand)
    requires c.configured && NoEvidenceYet(objects) && Consistent(c.docker) && Acceptable(c, e)
    requires Underway(Replay(c, Initial(c, objects), before), w, Claim, e)
    requires |outcomes| == 14 && forall i :: 0 <= i < 14 ==> Smooth(outcomes[i]) && For(outcomes[i], e, 14 - i)
    ensures
      var id := Replay(c, Initial(c, objects), before).workers[w].id;
      var drills := Replay(c, Initial(c, objects), before + Steps(w, outcomes)).drills;
      && id in drills && drills[id].row.status == Succeeded && drills[id].basis.Some?
      && drills[id].basis.value.job.snapshot == e.snapshot && drills[id].basis.value.staged == e.backup
      && drills[id].row.startedAt == Some(outcomes[0].now) && drills[id].row.completedAt == Some(outcomes[13].now)
      && (0 < outcomes[0].now <= outcomes[9].now ==>
            drills[id].row.rto == Some((outcomes[9].now - outcomes[0].now) / 1_000_000_000))
      && (0 < e.snapshot.completedAt <= outcomes[0].now ==>
            drills[id].row.rpo == Some((outcomes[0].now - e.snapshot.completedAt) / 1_000_000_000))
  {
    hide Inv, WritersSane, Clean, Smooth, Underway, Acceptable;
    var s0 := Initial(c, objects);
    Reachable(c, objects, before);
    Clear(c, objects);
    SaneReplay(c, s0, before);
    CleanReplay(c, s0, before);
    ReplayAppend(c, s0, before, Steps(w, outcomes));
    AtClaim(Replay(c, s0, before), w, e);
    GoesThrough(c, Replay(c, s0, before), w, outcomes, e);
    assert For(outcomes[0], e, 14) && For(outcomes[9], e, 5) && For(outcomes[13], e, 1);
  }

  lemma AtClaim(s: State, w: nat, e: Errand)
    requires Underway(s, w, Claim, e)
    ensures w in s.workers && s.workers[w].at == Claim && Left(Claim) == 14
  {}

  lemma Clear(c: Config, objects: map<string, Bytes>)
    requires Consistent(c.docker) && NoEvidenceYet(objects)
    ensures Inv(c, Initial(c, objects)) && WritersSane(Initial(c, objects)) && Clean(c, Initial(c, objects))
  {}

  lemma ClockAtConnect(c: Config, s: State, w: nat, o: Outcome)
    requires Here(c, s, w) && s.workers[w].claimed && s.workers[w].at == Connect && o.ok
    ensures var r := s.workers[w]; var t := StepRun(c, s, w, o);
      && w in t.workers && t.workers[w].readyAt == o.now
      && r.id in t.drills && t.drills[r.id].trace == JOURNEY[..4]
  {
    hide IntegrityHolds, FirstSteps, StoredAs, DrillOk;
  }

  predicate SameClock(s: State, t: State, w: nat) {
    w in s.workers && w in t.workers && t.workers[w].readyAt == s.workers[w].readyAt
  }

  lemma ClockEarly(c: Config, s: State, w: nat, o: Outcome)
    requires w in s.workers && Early(s.workers[w].at)
    ensures SameClock(s, StepRun(c, s, w, o), w)
  {
    hide StepMakeSandbox, StagePasses;
    if s.workers[w].at == MakeSandbox { ClockMaking(s, w, o); }
  }

  lemma ClockMaking(s: State, w: nat, o: Outcome)
    requires w in s.workers
    ensures SameClock(s, StepMakeSandbox(s, w, o), w)
  {
    hide Created, Residue, BaseTaken, Compact;
  }

  lemma ClockMiddle(c: Config, s: State, w: nat, o: Outcome)
    requires w in s.workers && Middle(s.workers[w].at) && !(s.workers[w].at == Connect && o.ok)
    ensures SameClock(s, StepRun(c, s, w, o), w)
  {}

  lemma ClockLate(c: Config, s: State, w: nat, o: Outcome)
    requires w in s.workers && s.workers[w].at != Done && !Early(s.workers[w].at) && !Middle(s.workers[w].at)
    ensures SameClock(s, StepRun(c, s, w, o), w)
  {
    hide Destroyed, Completed, EvidenceKey, Residue;
  }

  /** The recovery clock of a run stops when the connectivity check has passed, after the
      first four milestones, and at no other step. */
  lemma ClockStops(c: Config, s: State, w: nat, o: Outcome)
    requires Here(c, s, w) && s.workers[w].claimed && s.workers[w].at != Done
    ensures var r := s.workers[w]; var t := StepRun(c, s, w, o);
      && w in t.workers
      && (r.at == Connect && o.ok ==>
            t.workers[w].readyAt == o.now && r.id in t.drills && t.drills[r.id].trace == JOURNEY[..4])
      && (!(r.at == Connect && o.ok) ==> t.workers[w].readyAt == r.readyAt)
  {
    hide StepRun, RunOk, DrillOk;
    if s.workers[w].at == Connect && o.ok { ClockAtConnect(c, s, w, o); }
    else if Early(s.workers[w].at) { ClockEarly(c, s, w, o); }
    else if Middle(s.workers[w].at) { ClockMiddle(c, s, w, o); }
    else { ClockLate(c, s, w, o); }
  }

  // ------------------------------------------------- a clock that stops too early

  const SCHEMA := "SCHEMA"
  const DEMO := Config(true, 1, 0, (b: Bytes) => "", Docker(map[], {}, {}))
  const BACKUP := Errand(Snapshot(0, "", "backup", 60, 60, [SCHEMA]), [], "0", 0, 0, 0)
  const SMOOTH := Outcome(true, 0, BACKUP.snapshot, "0", CreateEnv(true, Effect.Worked, Effect.Worked, true, NO_FAULTS), NO_FAULTS, [])
  const OPENING := [CreateDrill("acme", "key", "", "d", true), Submit("d"), Dequeue(0)]

  lemma OpeningRow() returns (s: State)
    ensures s == Apply(DEMO, Initial(DEMO, map["backup" := []]), CreateDrill("acme", "key", "", "d", true))
    ensures "d" in s.drills && s.drills["d"].row.status == Queued && s.pool.created == {"d"} && s.pool.jobs == []
    ensures s.workers == map[] && s.objects == map["backup" := []] && s.side == DockerSide(DEMO.docker, map[], {}, false)
    ensures !s.pool.closed
  {
    assert '/' !in "d" && '/' !in "acme";
    s := Apply(DEMO, Initial(DEMO, map["backup" := []]), CreateDrill("acme", "key", "", "d", true));
    assert {} + {"d"} == {"d"};
  }

  lemma Opening()
    ensures Underway(Replay(DEMO, Initial(DEMO, map["backup" := []]), OPENING), 0, Claim, BACKUP)
    ensures Replay(DEMO, Initial(DEMO, map["backup" := []]), OPENING).workers[0].id == "d"
  {
    hide Replay, ApplyCreate, Initial;
    ReplayThree(DEMO, Initial(DEMO, map["backup" := []]), CreateDrill("acme", "key", "", "d", true), Submit("d"), Dequeue(0));
    var s1 := OpeningRow();
    var s2 := Apply(DEMO, s1, Submit("d"));
    assert s2.pool.jobs == ["d"];
    assert Compact("d") == "d" by { assert Letters("d") == "d"; }
  }

  lemma OnlyUnchecked(c: Config, objects: map<string, Bytes>, actions: seq<Action>, id: string, check: string)
    requires c.configured && NoEvidenceYet(objects) && check != CONNECTIVITY
    requires var s := Replay(c, Initial(c, objects), actions); id in s.drills && s.drills[id].row.status == Succeeded
    requires var d := Replay(c, Initial(c, objects), actions).drills[id];
      d.basis.Some? && d.basis.value.job.snapshot.required == [check]
    ensures var d := Replay(c, Initial(c, objects), actions).drills[id];
      d.row.assessment == Some(PartiallyVerified) && check !in Validated(BeforeClock(d.trace))
  {
    hide Replay, Initial, FirstSteps, Recorded, StepsFit;
    TimelineAndJourney(c, objects, actions, id);
    assert Unsupported([check]) == [check];
  }

  /** A drill that requires SCHEMA succeeds although its clock stopped before that check. */
  lemma ClockStopsEarly()
    ensures var actions := OPENING + Steps(0, seq(14, _ => SMOOTH));
      var drills := Replay(DEMO, Initial(DEMO, map["backup" := []]), actions).drills;
      && "d" in drills && drills["d"].row.status == Succeeded && drills["d"].row.assessment == Some(PartiallyVerified)
      && drills["d"].basis.Some? && SCHEMA in drills["d"].basis.value.job.snapshot.required
      && SCHEMA !in Validated(BeforeClock(drills["d"].trace))
  {
    hide Replay, Initial, Underway, BeforeClock, Validated;
    var outcomes := seq(14, _ => SMOOTH);
    var objects := map["backup" := []];
    Opening();
    NoEvidence();
    UndisturbedRunSucceeds(DEMO, objects, OPENING, 0, outcomes, BACKUP);
    OnlyUnchecked(DEMO, objects, OPENING + Steps(0, outcomes), "d", SCHEMA);
  }

  lemma NoEvidence()
    ensures NoEvidenceYet(map["backup" := []])
  {}
}
