/** How a run ends: which of its returns write no terminal status, and what becomes of the
    drill then. The excuses of `DrillProgress` are made exact here: a claimed drill stays
    open exactly when its run returned at one of six points with its context ended. */
module DrillExits {
  import opened Prelude
  import opened Domain
  import opened Sandbox
  import opened Drills
  import opened DrillInvariant
  import opened DrillSteps
  import opened DrillSafety
  import opened DrillFrames
  import opened DrillDocker
  import opened DrillProgress

  predicate Open(s: State, id: string) {
    id in s.drills && !Terminal(s.drills[id].row.status)
  }

  /** The returns that write nothing once the context has ended. */
  predicate SilentPoint(p: Point) {
    p.LoadFailed? || p.RecordSandbox? || p.ToRestoring? || p.ToValidating? || p.ToFinalizing? || p.Commit?
  }

  /** The calls that fail on a database error. */
  predicate DatabasePoint(p: Point) {
    SilentPoint(p) || p.Claim? || p.Load? || p.Persist? || p.FailWrite?
  }

  /** Only deferred calls and the compensating delete are left. */
  predicate OnWayOut(p: Point) { Leaving(p) || p.DeleteThenLeave? }

  // ------------------------------------------------------------------------ one step

  /** What the step of a run that is not on its way out yet does to its drill: it goes on, it
      leaves a terminal row, it met a database error, or it returned silently. */
  ghost predicate ExitOk(s: State, t: State, w: nat, o: Outcome) {
    && w in s.workers && w in t.workers && s.workers[w].id in t.drills
    && (OnWayOut(t.workers[w].at) ==>
          || Terminal(t.drills[s.workers[w].id].row.status)
          || (!o.ok && DatabasePoint(s.workers[w].at))
          || (s.workers[w].ctxDone && SilentPoint(s.workers[w].at)))
  }

  lemma ExitByTransition(c: Config, s: State, w: nat, o: Outcome, to: DrillStatus, step: StepName, n: int, next: Point)
    requires Here(c, s, w) && s.workers[w].claimed && TransitionPoint(s.workers[w].at, to, step, n, next)
    ensures ExitOk(s, StepTransition(s, w, o, to, step, n, next), w, o)
  {
    hide FirstSteps, StoredAs, IntegrityHolds, EvidenceAgrees;
    if TransitionRefused(s, s.workers[w], o, to) { RefusedTransition(s, w, o, to, step, n, next); }
  }

  /** The two calls between the load and the sandbox row never return. */
  lemma ProvisionGoesOn(c: Config, s: State, w: nat, o: Outcome)
    requires w in s.workers && (s.workers[w].at == Stage || s.workers[w].at == MakeSandbox) && s.workers[w].id in s.drills
    ensures ExitOk(s, StepRun(c, s, w, o), w, o)
  {
    hide Created, IntegrityHolds, StagePasses, Compact, Residue, BaseTaken;
  }

  lemma ExitEarly(c: Config, s: State, w: nat, o: Outcome)
    requires Here(c, s, w) && s.workers[w].claimed && Early(s.workers[w].at)
    ensures ExitOk(s, StepRun(c, s, w, o), w, o)
  {
    if s.workers[w].at == Stage || s.workers[w].at == MakeSandbox {
      hide StepRun, DrillOk;
      ProvisionGoesOn(c, s, w, o);
    } else {
      hide DrillOk, FirstSteps, StoredAs, IntegrityHolds, StepStage, StepMakeSandbox;
    }
  }

  lemma ExitMiddle(c: Config, s: State, w: nat, o: Outcome)
    requires Here(c, s, w) && s.workers[w].claimed && Middle(s.workers[w].at)
    ensures ExitOk(s, StepRun(c, s, w, o), w, o)
  {
    hide FirstSteps, StoredAs, IntegrityHolds, EvidenceAgrees, ColumnsAgree, SuccessEarned, Recorded;
    match s.workers[w].at
    case ToRestoring => ExitByTransition(c, s, w, o, Restoring, RestorePostgres, 3, Restore);
    case ToValidating => ExitByTransition(c, s, w, o, Validating, PostgresConnectivity, 4, Connect);
    case ToFinalizing => ExitByTransition(c, s, w, o, Finalizing, CollectEvidence, 5, PutEvidence);
    case Persist =>
    case RecordSandbox =>
    case Restore =>
    case Connect =>
  }

  lemma ExitByCommit(c: Config, s: State, w: nat, o: Outcome)
    requires Here(c, s, w) && s.workers[w].claimed && s.workers[w].at == Commit
    ensures ExitOk(s, StepCommit(s, w, o), w, o)
  {
    hide FirstSteps, IntegrityHolds, EvidenceAgrees, MeasureRPO, MeasureRTO, EvaluatePolicy, Verdict;
  }

  lemma ExitEvidence(c: Config, s: State, w: nat, o: Outcome)
    requires w in s.workers && s.workers[w].id in s.drills && (s.workers[w].at == PutEvidence || s.workers[w].at == DestroySandbox)
    ensures ExitOk(s, StepRun(c, s, w, o), w, o)
  {
    hide Destroyed, Residue, EvidenceKey;
  }

  lemma ExitByFail(c: Config, s: State, w: nat, o: Outcome)
    requires w in s.workers && s.workers[w].id in s.drills && SaneFail(s.workers[w].at)
    requires s.workers[w].at.DeleteThenFail? || s.workers[w].at.FailDecide? || s.workers[w].at.FailWrite?
    ensures ExitOk(s, StepRun(c, s, w, o), w, o)
  {
    hide EvidenceKey;
  }

  lemma ExitLate(c: Config, s: State, w: nat, o: Outcome)
    requires Here(c, s, w) && s.workers[w].claimed && !OnWayOut(s.workers[w].at)
    requires !Early(s.workers[w].at) && !Middle(s.workers[w].at)
    ensures ExitOk(s, StepRun(c, s, w, o), w, o)
  {
    hide ExitOk, DrillOk, FirstSteps, StoredAs, IntegrityHolds;
    match s.workers[w].at
    case Commit => ExitByCommit(c, s, w, o);
    case PutEvidence => ExitEvidence(c, s, w, o);
    case DestroySandbox => ExitEvidence(c, s, w, o);
    case _ => ExitByFail(c, s, w, o);
  }

  lemma Exit(c: Config, s: State, w: nat, o: Outcome)
    requires Here(c, s, w) && s.workers[w].claimed && !OnWayOut(s.workers[w].at)
    ensures ExitOk(s, StepRun(c, s, w, o), w, o)
  {
    if Early(s.workers[w].at) { ExitEarly(c, s, w, o); }
    else if Middle(s.workers[w].at) { ExitMiddle(c, s, w, o); }
    else { ExitLate(c, s, w, o); }
  }

  lemma SilentReturn(c: Config, s: State, w: nat, o: Outcome)
    requires Here(c, s, w) && s.workers[w].claimed && s.workers[w].ctxDone && SilentPoint(s.workers[w].at)
    ensures var t := StepRun(c, s, w, o); var id := s.workers[w].id;
      && id in s.drills && id in t.drills && t.drills[id].row == s.drills[id].row
      && w in t.workers && OnWayOut(t.workers[w].at)
  {
    hide FirstSteps, StoredAs, IntegrityHolds, EvidenceAgrees;
  }

  /** With its context ended and the database answering, a run returns without closing its
      drill exactly at the six silent points. */
  lemma SilentExactly(c: Config, s: State, w: nat, o: Outcome)
    requires Here(c, s, w) && s.workers[w].claimed && s.workers[w].ctxDone && o.ok
    requires !OnWayOut(s.workers[w].at) && Open(s, s.workers[w].id)
    ensures var t := StepRun(c, s, w, o);
      && w in t.workers
      && (OnWayOut(t.workers[w].at) && Open(t, s.workers[w].id) <==> SilentPoint(s.workers[w].at))
  {
    hide StepRun;
    Exit(c, s, w, o);
    if SilentPoint(s.workers[w].at) { SilentReturn(c, s, w, o); }
  }

  // ---------------------------------------------------------------------- whole runs

  /** The drills that an action leaves open by a silent return. */
  function SilencedBy(s: State, a: Action): set<string> {
    if a.Step? && a.w in s.workers && a.o.ok then
      var r := s.workers[a.w];
      if r.claimed && r.ctxDone && SilentPoint(r.at) && Open(s, r.id) then {r.id} else {}
    else {}
  }

  /** The drills whose run meets a database error in an action. */
  function StruckBy(s: State, a: Action): set<string> {
    if a.Step? && a.w in s.workers && !a.o.ok && s.workers[a.w].claimed && DatabasePoint(s.workers[a.w].at)
    then {s.workers[a.w].id} else {}
  }

  /** The drills whose row a cancel by their own organisation reaches in an action. */
  function RecalledBy(s: State, a: Action): set<string> {
    if a.CancelRow? && a.ok && (a.org, a.id) in s.pool.cancels && a.id in s.drills && s.drills[a.id].row.org == a.org
    then {a.id} else {}
  }

  function Silenced(c: Config, s: State, actions: seq<Action>): set<string> {
    if actions == [] then {}
    else
      var n := |actions| - 1;
      Silenced(c, s, actions[..n]) + SilencedBy(Replay(c, s, actions[..n]), actions[n])
  }

  function Struck(c: Config, s: State, actions: seq<Action>): set<string> {
    if actions == [] then {}
    else
      var n := |actions| - 1;
      Struck(c, s, actions[..n]) + StruckBy(Replay(c, s, actions[..n]), actions[n])
  }

  function Recalled(c: Config, s: State, actions: seq<Action>): set<string> {
    if actions == [] then {}
    else
      var n := |actions| - 1;
      Recalled(c, s, actions[..n]) + RecalledBy(Replay(c, s, actions[..n]), actions[n])
  }

  /** The claimant is in flight and not on its way out. */
  predicate Busy(s: State, id: string) {
    id in s.drills && s.drills[id].claimant.Some? &&
    var w := s.drills[id].claimant.value;
    w in s.workers && s.workers[w].id == id && s.workers[w].claimed && !OnWayOut(s.workers[w].at)
  }

  lemma ExplainedOwn(c: Config, s: State, w: nat, o: Outcome)
    requires Here(c, s, w) && s.workers[w].claimed && !OnWayOut(s.workers[w].at)
    ensures var t := StepRun(c, s, w, o); var id := s.workers[w].id;
      || (w in t.workers && t.workers[w].id == id && t.workers[w].claimed && !OnWayOut(t.workers[w].at))
      || (id in t.drills && Terminal(t.drills[id].row.status))
      || id in SilencedBy(s, Step(w, o)) || id in StruckBy(s, Step(w, o))
  {
    Exit(c, s, w, o);
    RunEffect(c, s, w, o);
    hide StepRun, RunOk, DrillOk;
    if s.workers[w].ctxDone && SilentPoint(s.workers[w].at) && !Open(s, s.workers[w].id) {
      SilentReturn(c, s, w, o);
    }
  }

  lemma BusyElsewhere(s: State, t: State, w: nat, id: string)
    requires StepEffect(s, t, w) && Busy(s, id) && s.drills[id].claimant != Some(w)
    requires t.drills[id].claimant == s.drills[id].claimant
    ensures Busy(t, id)
  {}

  lemma ClaimsByStep(s: State, t: State, w: nat, id: string)
    requires StepEffect(s, t, w) && WritersSane(s) && id in s.drills
    ensures id in t.drills
    ensures t.drills[id].claims == s.drills[id].claims ==> t.drills[id].claimant == s.drills[id].claimant
    ensures t.drills[id].claims != s.drills[id].claims ==> id == s.workers[w].id && w in t.workers && t.workers[w].claimed
  {}

  lemma FreshGoesOn(c: Config, s: State, w: nat, o: Outcome)
    requires w in s.workers && s.workers[w].at == Claim && !s.workers[w].claimed
    ensures var t := StepRun(c, s, w, o); w in t.workers && (t.workers[w].claimed ==> t.workers[w].at == Load)
  {}

  /** One drill is busy, terminal or explained. */
  ghost predicate ExplainedAt(s: State, id: string, known: bool) {
    id in s.drills && s.drills[id].claims == 1 ==> Busy(s, id) || Terminal(s.drills[id].row.status) || known
  }

  /** The drill of the worker that moved. */
  lemma ExplainedHere(c: Config, s: State, w: nat, o: Outcome, known: bool)
    requires Here(c, s, w) && WritersSane(s) && s.workers[w].at != Done && ExplainedAt(s, s.workers[w].id, known)
    requires Here(c, StepRun(c, s, w, o), w)
    ensures var id := s.workers[w].id; var a := Step(w, o);
      ExplainedAt(StepRun(c, s, w, o), id, known || id in SilencedBy(s, a) || id in StruckBy(s, a))
  {
    var t, id := StepRun(c, s, w, o), s.workers[w].id;
    RunEffect(c, s, w, o);
    if id in s.drills {
      ClaimsByStep(s, t, w, id);
      if !s.workers[w].claimed { FreshGoesOn(c, s, w, o); }
      else if !OnWayOut(s.workers[w].at) { ExplainedOwn(c, s, w, o); }
      if Terminal(s.drills[id].row.status) { FrozenByStep(s, t, w, id); }
    }
    hide StepRun, StepEffect, SilencedBy, StruckBy, FirstSteps, EvidenceAgrees, ColumnsAgree, SuccessEarned;
  }

  /** Any other drill. */
  lemma ExplainedThere(s: State, t: State, w: nat, id: string, known: bool)
    requires StepEffect(s, t, w) && WritersSane(s) && id != s.workers[w].id && ExplainedAt(s, id, known)
    ensures ExplainedAt(t, id, known)
  {
    if id in s.drills && t.drills[id].claims == 1 {
      if Busy(s, id) && s.drills[id].claimant != Some(w) { BusyElsewhere(s, t, w, id); }
    }
  }

  lemma ExplainedDone(s: State, t: State, w: nat, id: string, known: bool)
    requires w in s.workers && s.workers[w].at == Done && t.drills == s.drills && t.workers == s.workers - {w}
    requires ExplainedAt(s, id, known)
    ensures ExplainedAt(t, id, known)
  {}

  lemma ExplainedByActor(c: Config, s: State, t: State, id: string, known: bool)
    requires ActorEffect(c, s, t) && s.workers.Keys <= t.workers.Keys && ExplainedAt(s, id, known)
    requires id in t.drills && id !in s.drills ==> t.drills[id].claims == 0
    ensures ExplainedAt(t, id, known)
  {
    if id in s.drills && Terminal(s.drills[id].row.status) { assert DrillStep(Claim, s.drills[id], t.drills[id]); }
  }

  lemma KeepExplained(c: Config, s: State, a: Action, id: string, known: bool)
    requires Inv(c, s) && WritersSane(s) && c.configured && ExplainedAt(s, id, known)
    ensures ExplainedAt(Apply(c, s, a), id, known || id in SilencedBy(s, a) || id in StruckBy(s, a))
  {
    hide ExplainedAt, StepEffect, ActorEffect, SilencedBy, StruckBy;
    var t := Apply(c, s, a);
    if !a.Step? {
      OtherEffect(c, s, a);
      ActorFrame(c, s, a);
      NewDrillsUnclaimed(c, s, a, id);
      ExplainedByActor(c, s, t, id, known);
    } else if a.w in s.workers {
      StepExplained(c, s, a.w, a.o, id, known);
    }
    Weaken(t, id, known, known || id in SilencedBy(s, a) || id in StruckBy(s, a));
  }

  lemma Weaken(t: State, id: string, known: bool, more: bool)
    requires known ==> more
    ensures ExplainedAt(t, id, known) ==> ExplainedAt(t, id, more)
  {}

  lemma NewDrillsUnclaimed(c: Config, s: State, a: Action, id: string)
    requires !a.Step?
    ensures id in Apply(c, s, a).drills && id !in s.drills ==> Apply(c, s, a).drills[id].claims == 0
  {}

  lemma StepExplained(c: Config, s: State, w: nat, o: Outcome, id: string, known: bool)
    requires Inv(c, s) && WritersSane(s) && c.configured && w in s.workers && ExplainedAt(s, id, known)
    ensures var a := Step(w, o);
      ExplainedAt(StepRun(c, s, w, o), id, known || id in SilencedBy(s, a) || id in StruckBy(s, a))
  {
    hide StepRun, ExplainedAt, SilencedBy, StruckBy, StepEffect, Inv, WritersSane, RunOk, DrillOk;
    var t, a := StepRun(c, s, w, o), Step(w, o);
    HereNow(c, s, w);
    RunEffect(c, s, w, o);
    if s.workers[w].at == Done {
      DoneLeaves(c, s, w, o);
      ExplainedDone(s, t, w, id, known);
    } else if id == s.workers[w].id {
      KeepRun(c, s, w, o);
      ConfiguredPoint(c, s, w);
      RunFrame(c, s, w, o);
      HereNow(c, t, w);
      ExplainedHere(c, s, w, o, known);
    } else {
      ExplainedThere(s, t, w, id, known);
    }
    Weaken(t, id, known, known || id in SilencedBy(s, a) || id in StruckBy(s, a));
  }

  lemma HereNow(c: Config, s: State, w: nat)
    requires Inv(c, s) && w in s.workers
    ensures Here(c, s, w)
  {}

  lemma DoneLeaves(c: Config, s: State, w: nat, o: Outcome)
    requires w in s.workers && s.workers[w].at == Done
    ensures StepRun(c, s, w, o).drills == s.drills && StepRun(c, s, w, o).workers == s.workers - {w}
  {}

  lemma {:induction false} ExplainedReplay(c: Config, s: State, actions: seq<Action>, id: string)
    requires Inv(c, s) && WritersSane(s) && c.configured && ExplainedAt(s, id, false)
    ensures Inv(c, Replay(c, s, actions)) && WritersSane(Replay(c, s, actions))
    ensures ExplainedAt(Replay(c, s, actions), id, id in Silenced(c, s, actions) || id in Struck(c, s, actions))
    decreases |actions|
  {
    KeepReplay(c, s, actions);
    SaneReplay(c, s, actions);
    if actions != [] {
      var n := |actions| - 1;
      ExplainedReplay(c, s, actions[..n], id);
      ReplaySnoc(c, s, actions[..n], actions[n]);
      assert actions[..n] + [actions[n]] == actions;
      hide ExplainedAt, Inv, WritersSane, SilencedBy, StruckBy, Apply;
      KeepExplained(c, Replay(c, s, actions[..n]), actions[n], id,
        id in Silenced(c, s, actions[..n]) || id in Struck(c, s, actions[..n]));
    }
  }

  // ------------------------------------------------------------------ what stays open

  /** A run that will not write to its drill's row any more. */
  predicate Spent(r: Run) {
    OnWayOut(r.at) || !r.claimed || (r.ctxDone && (r.at.Load? || r.at.LoadFailed?))
  }

  /** Nobody but a user of its own organisation will ever change the row of the drill. */
  ghost predicate Abandoned(s: State, id: string) {
    && id in s.drills && s.drills[id].claims == 1
    && forall v :: v in s.workers && s.workers[v].id == id ==> Spent(s.workers[v])
  }

  /** What a run that is spent does next. */
  ghost predicate StaysSpent(s: State, t: State, w: nat) {
    && w in s.workers && w in t.workers && t.workers[w].id == s.workers[w].id && Spent(t.workers[w])
    && SameRow(s, t, s.workers[w].id)
  }

  lemma SpentClaim(c: Config, s: State, w: nat, o: Outcome)
    requires w in s.workers && s.workers[w].at == Claim && !s.workers[w].claimed
    requires s.workers[w].id in s.drills && s.drills[s.workers[w].id].row.status != Queued
    ensures StaysSpent(s, StepRun(c, s, w, o), w)
  {
    RefusedTransition(s, w, o, Preparing, FetchBackup, 1, Load);
  }

  lemma SpentLoad(c: Config, s: State, w: nat, o: Outcome)
    requires w in s.workers && s.workers[w].ctxDone && (s.workers[w].at.Load? || s.workers[w].at.LoadFailed?)
    requires s.workers[w].id in s.drills
    ensures StaysSpent(s, StepRun(c, s, w, o), w)
  {}

  lemma SpentOut(c: Config, s: State, w: nat, o: Outcome)
    requires w in s.workers && (s.workers[w].at.DeleteThenLeave? || s.workers[w].at.Cleanup?)
    requires s.workers[w].id in s.drills
    ensures StaysSpent(s, StepRun(c, s, w, o), w)
  {
    hide Destroyed, EvidenceKey;
  }

  lemma SpentStep(c: Config, s: State, w: nat, o: Outcome)
    requires Here(c, s, w) && s.workers[w].at != Done && Spent(s.workers[w])
    requires s.workers[w].id in s.drills && s.drills[s.workers[w].id].claims == 1
    ensures StaysSpent(s, StepRun(c, s, w, o), w)
  {
    hide StepRun, StaysSpent, FirstSteps, EvidenceAgrees, SuccessEarned;
    match s.workers[w].at
    case Claim => SpentClaim(c, s, w, o);
    case Load => SpentLoad(c, s, w, o);
    case LoadFailed => SpentLoad(c, s, w, o);
    case DeleteThenLeave => SpentOut(c, s, w, o);
    case Cleanup => SpentOut(c, s, w, o);
  }

  lemma AbandonedElsewhere(s: State, t: State, w: nat, id: string)
    requires StepEffect(s, t, w) && Abandoned(s, id) && s.workers[w].id != id
    ensures SameRow(s, t, id) && Abandoned(t, id)
  {}

  lemma AbandonedHere(s: State, t: State, w: nat, id: string)
    requires StepEffect(s, t, w) && Abandoned(s, id) && SameRow(s, t, id)
    requires w in t.workers ==> Spent(t.workers[w])
    ensures Abandoned(t, id)
  {}

  lemma AbandonedByActor(c: Config, s: State, t: State, id: string)
    requires ActorEffect(c, s, t) && Abandoned(s, id) && t.drills[id] == s.drills[id] && c.configured
    requires forall v :: v in t.workers && v !in s.workers ==> !t.workers[v].claimed
    requires forall v :: v in s.workers && v in t.workers ==> (s.workers[v].ctxDone ==> t.workers[v].ctxDone)
    ensures Abandoned(t, id)
  {}

  /** Other actors leave the rows they do not cancel alone. */
  lemma ActorLeavesRow(c: Config, s: State, a: Action, id: string)
    requires !a.Step? && id in s.drills && id !in RecalledBy(s, a)
    ensures var t := Apply(c, s, a); id in t.drills && t.drills[id] == s.drills[id]
  {
    hide UserCancelled;
  }

  /** They start runs unclaimed and never revive a context. */
  lemma ActorLeavesRuns(c: Config, s: State, a: Action)
    requires !a.Step?
    ensures var t := Apply(c, s, a);
      && (forall v :: v in t.workers && v !in s.workers ==> !t.workers[v].claimed)
      && (forall v :: v in s.workers && v in t.workers ==> (s.workers[v].ctxDone ==> t.workers[v].ctxDone))
  {
    hide UserCancelled;
  }

  lemma KeepAbandoned(c: Config, s: State, a: Action, id: string)
    requires Inv(c, s) && c.configured && Abandoned(s, id) && id !in RecalledBy(s, a)
    ensures SameRow(s, Apply(c, s, a), id) && Abandoned(Apply(c, s, a), id)
  {
    hide StepRun, Inv, StepEffect, ActorEffect, RunOk, DrillOk;
    var t := Apply(c, s, a);
    if !a.Step? {
      OtherEffect(c, s, a);
      ActorLeavesRow(c, s, a, id);
      ActorLeavesRuns(c, s, a);
      hide Apply;
      AbandonedByActor(c, s, t, id);
    } else if a.w in s.workers {
      RunEffect(c, s, a.w, a.o);
      HereNow(c, s, a.w);
      if s.workers[a.w].id != id {
        AbandonedElsewhere(s, t, a.w, id);
      } else {
        if s.workers[a.w].at == Done { DoneLeaves(c, s, a.w, a.o); } else { SpentStep(c, s, a.w, a.o); }
        AbandonedHere(s, t, a.w, id);
      }
    }
  }

  lemma {:induction false} AbandonedReplay(c: Config, s: State, actions: seq<Action>, id: string)
    requires Inv(c, s) && c.configured && Abandoned(s, id) && id !in Recalled(c, s, actions)
    ensures SameRow(s, Replay(c, s, actions), id) && Abandoned(Replay(c, s, actions), id)
    decreases |actions|
  {
    if actions != [] {
      hide Inv, Abandoned, RecalledBy, Apply;
      var n := |actions| - 1;
      ReplaySnoc(c, s, actions[..n], actions[n]);
      assert actions[..n] + [actions[n]] == actions;
      KeepReplay(c, s, actions[..n]);
      AbandonedReplay(c, s, actions[..n], id);
      KeepAbandoned(c, Replay(c, s, actions[..n]), actions[n], id);
    } else {
      assert Replay(c, s, actions) == s;
    }
  }

  /** The runs for a claimed drill other than its claimant's. */
  lemma OthersUnclaimed(c: Config, s: State, w: nat)
    requires Inv(c, s) && w in s.workers && s.workers[w].claimed
    ensures s.workers[w].id in s.drills && s.drills[s.workers[w].id].claims == 1
    ensures forall v :: v in s.workers && v != w && s.workers[v].id == s.workers[w].id ==> !s.workers[v].claimed
  {
    assert RunOk(c, s, w);
    forall v | v in s.workers && v != w && s.workers[v].id == s.workers[w].id ensures !s.workers[v].claimed {
      assert RunOk(c, s, v);
    }
  }

  lemma SilencedNow(c: Config, s: State, w: nat, o: Outcome)
    requires Inv(c, s) && w in s.workers && s.workers[w].claimed && s.workers[w].ctxDone && SilentPoint(s.workers[w].at)
    ensures Abandoned(StepRun(c, s, w, o), s.workers[w].id) && SameRow(s, StepRun(c, s, w, o), s.workers[w].id)
  {
    hide StepRun, Inv, RunOk, DrillOk;
    HereNow(c, s, w);
    SilentReturn(c, s, w, o);
    OthersUnclaimed(c, s, w);
    RunEffect(c, s, w, o);
  }

  lemma OrgStays(c: Config, s: State, a: Action, id: string)
    requires WritersSane(s) && id in s.drills
    ensures id in Apply(c, s, a).drills && Apply(c, s, a).drills[id].row.org == s.drills[id].row.org
  {
    if a.Step? {
      if a.w in s.workers { RunEffect(c, s, a.w, a.o); }
    } else {
      OtherEffect(c, s, a);
    }
    hide Apply, StepRun;
  }

  lemma {:induction false} SilencedStays(c: Config, s: State, actions: seq<Action>, id: string)
    requires Inv(c, s) && WritersSane(s) && c.configured
    requires id in Silenced(c, s, actions) && id !in Recalled(c, s, actions)
    ensures Abandoned(Replay(c, s, actions), id) && Open(Replay(c, s, actions), id)
    decreases |actions|
  {
    hide Inv, WritersSane, Apply, Abandoned, Replay, RecalledBy;
    var n := |actions| - 1;
    var u, a := Replay(c, s, actions[..n]), actions[n];
    ReplaySnoc(c, s, actions[..n], a);
    assert actions[..n] + [a] == actions;
    KeepReplay(c, s, actions[..n]);
    SaneReplay(c, s, actions[..n]);
    if id in SilencedBy(u, a) {
      SilencedNow(c, u, a.w, a.o);
      StepIsRun(c, u, a);
    } else {
      SilencedStays(c, s, actions[..n], id);
      KeepAbandoned(c, u, a, id);
    }
  }

  /** A cancel by its own organisation ends a drill for good. */
  lemma RecallEnds(c: Config, s: State, a: Action, id: string)
    requires id in RecalledBy(s, a)
    ensures id in Apply(c, s, a).drills && Terminal(Apply(c, s, a).drills[id].row.status)
  {}

  lemma {:induction false} RecalledEnd(c: Config, s: State, actions: seq<Action>, id: string)
    requires WritersSane(s) && id in Recalled(c, s, actions)
    ensures var t := Replay(c, s, actions); id in t.drills && Terminal(t.drills[id].row.status)
    decreases |actions|
  {
    hide WritersSane, Apply, Replay, RecalledBy;
    var n := |actions| - 1;
    var u, a := Replay(c, s, actions[..n]), actions[n];
    ReplaySnoc(c, s, actions[..n], a);
    assert actions[..n] + [a] == actions;
    SaneReplay(c, s, actions[..n]);
    if id in RecalledBy(u, a) {
      RecallEnds(c, u, a, id);
    } else {
      RecalledEnd(c, s, actions[..n], id);
      FrozenStep(c, u, a, id);
    }
  }

  lemma StepIsRun(c: Config, s: State, a: Action)
    requires a.Step? && a.w in s.workers
    ensures Apply(c, s, a) == StepRun(c, s, a.w, a.o)
  {}

  // ------------------------------------------------------------------------ theorems

  /** In every reachable state, for every claimed drill whose run is over and whose database
      calls all got an answer: it is terminal exactly when its own organisation cancelled it,
      or its run did not return at one of the six silent points with its context ended,
      whoever or whatever ended it. */
  lemma EndsExactly(c: Config, objects: map<string, Bytes>, actions: seq<Action>, id: string)
    requires c.configured && NoEvidenceYet(objects)
    requires var s := Replay(c, Initial(c, objects), actions);
      && id in s.drills && s.drills[id].claims == 1 && RunOver(s, id)
      && id !in Struck(c, Initial(c, objects), actions)
    ensures Terminal(Replay(c, Initial(c, objects), actions).drills[id].row.status)
       <==> id !in Silenced(c, Initial(c, objects), actions) || id in Recalled(c, Initial(c, objects), actions)
  {
    hide Replay, Silenced, Struck, Recalled, Inv, WritersSane, ExplainedAt, RunOver, Initial, Abandoned;
    var s0 := Initial(c, objects);
    InitiallyExplained(c, objects, id);
    ExplainedReplay(c, s0, actions, id);
    OverExplained(Replay(c, s0, actions), id, id in Silenced(c, s0, actions) || id in Struck(c, s0, actions));
    if id in Recalled(c, s0, actions) { RecalledEnd(c, s0, actions, id); }
    else if id in Silenced(c, s0, actions) { SilencedStays(c, s0, actions, id); }
  }

  lemma InitiallyExplained(c: Config, objects: map<string, Bytes>, id: string)
    requires NoEvidenceYet(objects)
    ensures Inv(c, Initial(c, objects)) && WritersSane(Initial(c, objects)) && ExplainedAt(Initial(c, objects), id, false)
  {}

  lemma OverExplained(s: State, id: string, known: bool)
    requires ExplainedAt(s, id, known) && id in s.drills && s.drills[id].claims == 1 && RunOver(s, id)
    ensures Terminal(s.drills[id].row.status) || known
  {}

  /** From these points a run whose context has ended closes its drill. */
  predicate ClosingPoint(p: Point) {
    p.Stage? || p.MakeSandbox? || p.Persist? || p.DeleteThenFail? || p.FailDecide? || p.FailWrite?
  }

  /** The status such a run is going to write. */
  function ClosingStatus(p: Point): DrillStatus { if p.FailWrite? then p.status else Cancelled }

  /** The drill has the given status, was cancelled, or its run is about to write the status. */
  ghost predicate Closing(s: State, w: nat, id: string, status: DrillStatus) {
    id in s.drills
    && (s.drills[id].row.status == status || s.drills[id].row.status == Cancelled
        || (w in s.workers && s.workers[w].id == id && s.workers[w].claimed && s.workers[w].ctxDone
            && ClosingPoint(s.workers[w].at) && ClosingStatus(s.workers[w].at) == status))
  }

  lemma ClosingOwn(c: Config, s: State, w: nat, o: Outcome)
    requires Here(c, s, w) && s.workers[w].claimed && s.workers[w].ctxDone && ClosingPoint(s.workers[w].at)
    ensures Closing(StepRun(c, s, w, o), w, s.workers[w].id, ClosingStatus(s.workers[w].at))
         || s.workers[w].id in StruckBy(s, Step(w, o))
  {
    hide FirstSteps, StoredAs, IntegrityHolds, DrillOk, Created, EvidenceKey, Residue, Compact, BaseTaken,
      Phase, StepsAt, MilesAt, Unpersisted, JobMatches, Checked;
  }

  lemma KeepClosing(c: Config, s: State, a: Action, w: nat, id: string, status: DrillStatus)
    requires Inv(c, s) && WritersSane(s) && Terminal(status) && Closing(s, w, id, status)
    ensures Closing(Apply(c, s, a), w, id, status) || id in StruckBy(s, a)
  {
    hide Inv, RunOk, DrillOk, StepRun, StruckBy;
    if Terminal(s.drills[id].row.status) && (s.drills[id].row.status == status || s.drills[id].row.status == Cancelled) {
      FrozenStep(c, s, a, id);
    } else if a.Step? && a.w == w {
      HereNow(c, s, w);
      ClosingOwn(c, s, w, a.o);
    } else {
      OrgStays(c, s, a, id);
      OtherLeavesRun(c, s, a, w);
    }
  }

  /** Another actor leaves a run where it is; at most it ends the run's context. */
  lemma OtherLeavesRun(c: Config, s: State, a: Action, w: nat)
    requires w in s.workers && !(a.Step? && a.w == w)
    ensures var t := Apply(c, s, a);
      && w in t.workers && t.workers[w] == s.workers[w].(ctxDone := t.workers[w].ctxDone)
      && (s.workers[w].ctxDone ==> t.workers[w].ctxDone)
  {
    if a.Step? {
      if a.w in s.workers { RunEffect(c, s, a.w, a.o); }
    } else {
      OtherEffect(c, s, a);
      ActorFrame(c, s, a);
      ActorLeavesRuns(c, s, a);
      hide Apply;
    }
  }

  /** Wherever it came from and whatever else happens: a context that ends while the run is at
      one of the closing points closes the drill, even one of another organisation, and as
      CANCELLED unless the run had chosen FAILED before. */
  lemma ContextEndCloses(c: Config, s: State, actions: seq<Action>, w: nat)
    requires Inv(c, s) && WritersSane(s) && c.configured
    requires w in s.workers && s.workers[w].claimed && s.workers[w].ctxDone && ClosingPoint(s.workers[w].at)
    ensures var t := Replay(c, s, actions); var id := s.workers[w].id;
      && id in t.drills
      && (RunOver(t, id) && id !in Struck(c, s, actions) ==>
            t.drills[id].row.status == ClosingStatus(s.workers[w].at) || t.drills[id].row.status == Cancelled)
  {
    HereNow(c, s, w);
    assert Terminal(ClosingStatus(s.workers[w].at));
    ClosingReplay(c, s, actions, w, s.workers[w].id, ClosingStatus(s.workers[w].at));
    RowsStay(c, s, actions, s.workers[w].id);
  }

  lemma {:induction false} RowsStay(c: Config, s: State, actions: seq<Action>, id: string)
    requires WritersSane(s) && id in s.drills
    ensures id in Replay(c, s, actions).drills
    decreases |actions|
  {
    if actions != [] {
      OrgStays(c, s, actions[0], id);
      KeepSane(c, s, actions[0]);
      RowsStay(c, Apply(c, s, actions[0]), actions[1..], id);
    }
  }

  lemma {:induction false} ClosingReplay(c: Config, s: State, actions: seq<Action>, w: nat, id: string, status: DrillStatus)
    requires Inv(c, s) && WritersSane(s) && c.configured && Terminal(status) && Closing(s, w, id, status)
    ensures Closing(Replay(c, s, actions), w, id, status) || id in Struck(c, s, actions)
    decreases |actions|
  {
    if actions != [] {
      var n := |actions| - 1;
      var u, a := Replay(c, s, actions[..n]), actions[n];
      ReplaySnoc(c, s, actions[..n], a);
      assert actions[..n] + [a] == actions;
      KeepReplay(c, s, actions[..n]);
      SaneReplay(c, s, actions[..n]);
      hide Inv, WritersSane, Apply, Closing, StruckBy;
      ClosingReplay(c, s, actions[..n], w, id, status);
      if Closing(u, w, id, status) { KeepClosing(c, u, a, w, id, status); }
    }
  }

  /** A context that ends before the load leaves the drill open: nothing but a cancel by its
      own organisation ever changes its row again. */
  lemma ContextEndAtLoad(c: Config, s: State, actions: seq<Action>, w: nat)
    requires Inv(c, s) && c.configured && w in s.workers && s.workers[w].claimed
    requires s.workers[w].ctxDone && s.workers[w].at == Load && s.workers[w].id !in Recalled(c, s, actions)
    ensures SameRow(s, Replay(c, s, actions), s.workers[w].id)
  {
    OthersUnclaimed(c, s, w);
    AbandonedReplay(c, s, actions, s.workers[w].id);
  }
}
