/** What a drill's row says against what really happened: an account kept from the clock
    readings, snapshots and payloads of the actions alone, with which every stored time,
    measurement and object of every reachable state agrees. */
module DrillAccounts {
  import opened Prelude
  import opened Domain
  import opened Sandbox
  import opened Drills
  import opened DrillInvariant
  import opened DrillSteps
  import opened DrillSafety
  import opened DrillFrames
  import opened DrillDocker
  import opened DrillTheorems
  import opened DrillProgress
  import opened DrillExits
  import opened DrillVerdicts

  /** When the drill was claimed, found ready and committed, which snapshot was loaded, which
      bytes were staged, and which evidence was written. */
  datatype Account = Account(
    claimed: Option<int>, snapshot: Option<Snapshot>, backup: Option<Bytes>, ready: Option<int>,
    evidence: Option<Bytes>, committed: Option<int>)

  const BLANK := Account(None, None, None, None, None, None)

  /** The account after one action: the calls that succeed for the drill are noted. */
  function Noted(s: State, t: State, a: Action, id: string, acc: Account): Account {
    if !a.Step? || a.w !in s.workers || a.w !in t.workers || s.workers[a.w].id != id then acc
    else NotedStep(s, s.workers[a.w].at, t.workers[a.w].at, a.o, acc)
  }

  function NotedStep(s: State, from: Point, to: Point, o: Outcome, acc: Account): Account {
    match (from, to)
    case (Claim, Load) => acc.(claimed := Some(o.now))
    case (Load, Stage) => acc.(snapshot := Some(o.snapshot))
    case (Stage, MakeSandbox) => acc.(backup := Stored(s, acc.snapshot))
    case (Connect, ToFinalizing) => acc.(ready := Some(o.now))
    case (PutEvidence, DestroySandbox) => acc.(evidence := Some(o.payload))
    case (Commit, Done) => acc.(committed := Some(o.now))
    case _ => acc
  }

  /** The bytes in the object store under a snapshot's storage key. */
  function Stored(s: State, snapshot: Option<Snapshot>): Option<Bytes> {
    if snapshot.Some? && snapshot.value.storageKey in s.objects then Some(s.objects[snapshot.value.storageKey]) else None
  }

  /** The account of a drill over a whole run of the system. */
  function AccountOf(c: Config, s: State, actions: seq<Action>, id: string): Account {
    if actions == [] then BLANK
    else
      var n := |actions| - 1;
      var u := Replay(c, s, actions[..n]);
      Noted(u, Apply(c, u, actions[n]), actions[n], id, AccountOf(c, s, actions[..n], id))
  }

  // ------------------------------------------------------------------- the invariant

  /** What a run on course holds is what was noted. */
  ghost predicate RunTold(r: Run, acc: Account) {
    OnCourse(r.at) ==>
      && (!r.at.Load? ==> acc.snapshot.Some? && r.job.Some? && r.job.value.snapshot == acc.snapshot.value)
      && (MilesAt(r.at) > 0 ==> acc.backup == Some(r.staged))
      && (MilesAt(r.at) > 3 ==> acc.ready == Some(r.readyAt))
  }

  /** What a success rests on is what was noted. */
  ghost predicate SuccessTold(d: Drill, acc: Account) {
    && acc.snapshot.Some? && acc.backup.Some? && acc.ready.Some? && acc.committed.Some? && d.basis.Some?
    && d.basis.value.job.snapshot == acc.snapshot.value
    && d.basis.value.staged == acc.backup.value
    && d.basis.value.readyAt == acc.ready.value
    && d.row.completedAt == acc.committed
  }

  /** The evidence object is in the store and not paid for yet. */
  predicate HasEvidence(p: Point) { p.DestroySandbox? || p.Commit? }

  ghost predicate Told(s: State, id: string, acc: Account) {
    id in s.drills && s.drills[id].claims == 1 ==>
      && acc.claimed.Some? && s.drills[id].row.startedAt == acc.claimed
      && (Heading(s, id) ==> RunTold(s.workers[s.drills[id].claimant.value], acc))
      && (s.drills[id].row.status == Succeeded ==> SuccessTold(s.drills[id], acc))
  }

  // ------------------------------------------------------------------- steps on course

  /** What the step of a run on course has to establish. */
  ghost predicate StepTold(s: State, t: State, w: nat, o: Outcome, acc: Account) {
    && w in s.workers && w in t.workers && s.workers[w].id in t.drills
    && var after := NotedStep(s, s.workers[w].at, t.workers[w].at, o, acc);
    && after.claimed == acc.claimed
    && RunTold(t.workers[w], after)
    && (HasEvidence(t.workers[w].at) ==> HasEvidence(s.workers[w].at) || s.workers[w].at.PutEvidence?)
    && (t.drills[s.workers[w].id].row.status == Succeeded ==> SuccessTold(t.drills[s.workers[w].id], after))
  }

  ghost predicate Telling(s: State, w: nat, acc: Account) {
    && w in s.workers && s.workers[w].id in s.drills && s.drills[s.workers[w].id].row.status != Succeeded
    && OnCourse(s.workers[w].at) && RunTold(s.workers[w], acc)
  }

  lemma TellEarly(c: Config, s: State, w: nat, o: Outcome, acc: Account)
    requires Telling(s, w, acc) && (s.workers[w].at == Load || s.workers[w].at == Stage)
    ensures StepTold(s, StepRun(c, s, w, o), w, o, acc)
  {
    hide IntegrityHolds;
  }

  lemma TellMade(s: State, w: nat, base: string, d: Docker, ok: bool, left: bool, fault: bool, o: Outcome, acc: Account)
    requires Telling(s, w, acc) && s.workers[w].at == MakeSandbox
    ensures StepTold(s, SandboxMade(s, w, base, d, ok, left, fault), w, o, acc)
  {}

  lemma TellMake(c: Config, s: State, w: nat, o: Outcome, acc: Account)
    requires Telling(s, w, acc) && s.workers[w].at == MakeSandbox
    ensures StepTold(s, StepRun(c, s, w, o), w, o, acc)
  {
    hide Created, Compact, Residue, BaseTaken, SandboxMade;
    var base := BaseName(Compact(s.workers[w].id), o.suffix);
    if Compact(s.workers[w].id) != "" && !BaseTaken(s, base) {
      var (d, ok) := Created(s.side.docker, base, o.env);
      TellMade(s, w, base, d, ok, Residue(d, base), o.env.faults != NO_FAULTS, o, acc);
    }
  }

  lemma TellRecorded(c: Config, s: State, w: nat, o: Outcome, acc: Account)
    requires Telling(s, w, acc) && (s.workers[w].at == Persist || s.workers[w].at == RecordSandbox)
    ensures StepTold(s, StepRun(c, s, w, o), w, o, acc)
  {}

  lemma TellProbe(c: Config, s: State, w: nat, o: Outcome, acc: Account)
    requires Telling(s, w, acc) && (s.workers[w].at == Restore || s.workers[w].at == Connect)
    ensures StepTold(s, StepRun(c, s, w, o), w, o, acc)
  {}

  lemma TellRefused(s: State, w: nat, when: bool, o: Outcome, acc: Account)
    requires Telling(s, w, acc)
    ensures StepTold(s, Leave(Excuse(s, s.workers[w].id, when), w, s.workers[w]), w, o, acc)
    ensures !OnCourse(Leave(Excuse(s, s.workers[w].id, when), w, s.workers[w]).workers[w].at)
  {}

  lemma TellMoved(s: State, t: State, w: nat, o: Outcome, acc: Account, next: Point)
    requires Telling(s, w, acc) && w in t.workers && t.workers[w] == s.workers[w].(at := next, claimed := true)
    requires s.workers[w].id in t.drills && t.drills[s.workers[w].id].row.status != Succeeded
    requires TransitionMove(s.workers[w].at, next) && !HasEvidence(next)
    ensures StepTold(s, t, w, o, acc)
  {}

  lemma TellTransition(
    s: State, w: nat, o: Outcome, acc: Account, to: DrillStatus, step: StepName, n: int, next: Point)
    requires Telling(s, w, acc) && TransitionPoint(s.workers[w].at, to, step, n, next)
    ensures StepTold(s, StepTransition(s, w, o, to, step, n, next), w, o, acc)
  {
    hide StepTransition, CanTransition, StepTold, RunTold;
    if TransitionRefused(s, s.workers[w], o, to) {
      RefusedTransition(s, w, o, to, step, n, next);
      TellRefused(s, w, !o.ok, o, acc);
    } else {
      TransitionShape(s, w, o, to, step, n, next);
      TellMoved(s, StepTransition(s, w, o, to, step, n, next), w, o, acc, next);
    }
  }

  lemma TellEvidence(c: Config, s: State, w: nat, o: Outcome, acc: Account)
    requires Telling(s, w, acc) && (s.workers[w].at == PutEvidence || s.workers[w].at == DestroySandbox)
    ensures StepTold(s, StepRun(c, s, w, o), w, o, acc)
  {
    hide Destroyed, Residue, EvidenceKey;
  }

  lemma TellCommit(c: Config, s: State, w: nat, o: Outcome, acc: Account)
    requires Telling(s, w, acc) && s.workers[w].at == Commit && !s.workers[w].live
    ensures StepTold(s, StepRun(c, s, w, o), w, o, acc)
  {
    hide EvidenceKey, MeasureRPO, MeasureRTO, EvaluatePolicy, Verdict;
  }

  lemma Tell(c: Config, s: State, w: nat, o: Outcome, acc: Account)
    requires Here(c, s, w) && s.workers[w].claimed && Telling(s, w, acc)
    ensures StepTold(s, StepRun(c, s, w, o), w, o, acc)
  {
    hide StepTold, FirstSteps, StoredAs, IntegrityHolds, DrillOk, RunTold;
    match s.workers[w].at
    case Load => TellEarly(c, s, w, o, acc);
    case Stage => TellEarly(c, s, w, o, acc);
    case MakeSandbox => TellMake(c, s, w, o, acc);
    case Persist => TellRecorded(c, s, w, o, acc);
    case RecordSandbox => TellRecorded(c, s, w, o, acc);
    case Restore => TellProbe(c, s, w, o, acc);
    case Connect => TellProbe(c, s, w, o, acc);
    case ToRestoring => TellTransition(s, w, o, acc, Restoring, RestorePostgres, 3, Restore);
    case ToValidating => TellTransition(s, w, o, acc, Validating, PostgresConnectivity, 4, Connect);
    case ToFinalizing => TellTransition(s, w, o, acc, Finalizing, CollectEvidence, 5, PutEvidence);
    case Commit => TellCommit(c, s, w, o, acc);
    case _ => TellEvidence(c, s, w, o, acc);
  }

  // ------------------------------------------------------------------- every action

  lemma ToldByActor(c: Config, s: State, t: State, id: string, acc: Account)
    requires ActorEffect(c, s, t) && s.workers.Keys <= t.workers.Keys && Told(s, id, acc)
    requires id in t.drills && id !in s.drills ==> t.drills[id].claims == 0
    requires id in s.drills ==> (t.drills[id].row.status == Succeeded <==> s.drills[id].row.status == Succeeded)
    requires forall v :: v in t.workers && v !in s.workers ==> !t.workers[v].claimed
    requires id in s.drills ==> ClaimsAgree(s.drills[id])
    ensures Told(t, id, acc)
  {
    if id in s.drills {
      assert DrillStep(Claim, s.drills[id], t.drills[id]);
      assert Heading(t, id) ==> Heading(s, id);
      if s.drills[id].row.status == Succeeded { FrozenByActor(c, s, t, id); }
    }
  }

  lemma ToldThere(s: State, t: State, w: nat, id: string, acc: Account)
    requires StepEffect(s, t, w) && id != s.workers[w].id && Told(s, id, acc)
    ensures Told(t, id, acc)
  {
    if id in s.drills { assert Heading(t, id) ==> Heading(s, id); }
  }

  lemma ToldDone(s: State, t: State, w: nat, id: string, acc: Account)
    requires w in s.workers && s.workers[w].at == Done && t.drills == s.drills && t.workers == s.workers - {w}
    requires Told(s, id, acc)
    ensures Told(t, id, acc)
  {
    if id in s.drills { assert Heading(t, id) ==> Heading(s, id); }
  }

  /** The claim of a drill opens its account. */
  lemma ToldUnclaimed(c: Config, s: State, w: nat, o: Outcome, acc: Account)
    requires Here(c, s, w) && !s.workers[w].claimed && s.workers[w].at != Done && Told(s, s.workers[w].id, acc)
    requires StepEffect(s, StepRun(c, s, w, o), w)
    ensures var t, id := StepRun(c, s, w, o), s.workers[w].id; Told(t, id, Noted(s, t, Step(w, o), id, acc))
  {
    hide StepRun, FirstSteps, EvidenceAgrees, ColumnsAgree, SuccessEarned, RunTold, SuccessTold;
    var t, id := StepRun(c, s, w, o), s.workers[w].id;
    if id in s.drills {
      ClaimDecides(c, s, w, o);
      ClaimStamps(c, s, w, o);
      if TransitionRefused(s, s.workers[w], o, Preparing) {
        assert Heading(t, id) ==> Heading(s, id);
      } else {
        LoadTold(t.workers[w], acc.(claimed := Some(o.now)));
      }
    }
  }

  lemma LoadTold(r: Run, acc: Account)
    requires r.at == Load
    ensures RunTold(r, acc)
  {}

  lemma ClaimStamps(c: Config, s: State, w: nat, o: Outcome)
    requires w in s.workers && s.workers[w].at == Claim && s.workers[w].id in s.drills
    requires s.drills[s.workers[w].id].row.status == Queued ==> s.drills[s.workers[w].id].row.startedAt == None
    ensures var t := StepRun(c, s, w, o);
      && s.workers[w].id in t.drills && w in t.workers
      && if TransitionRefused(s, s.workers[w], o, Preparing) then Leaving(t.workers[w].at)
         else t.drills[s.workers[w].id].row.startedAt == Some(o.now)
  {}

  lemma ToldHere(c: Config, s: State, w: nat, o: Outcome, acc: Account)
    requires Here(c, s, w) && s.workers[w].claimed && s.workers[w].at != Done && SaneFail(s.workers[w].at)
    requires Told(s, s.workers[w].id, acc) && StepEffect(s, StepRun(c, s, w, o), w)
    ensures var t, id := StepRun(c, s, w, o), s.workers[w].id; Told(t, id, Noted(s, t, Step(w, o), id, acc))
  {
    hide StepRun, FirstSteps, StoredAs, IntegrityHolds, EvidenceAgrees, ColumnsAgree, SuccessEarned, RunTold, SuccessTold;
    var t, id := StepRun(c, s, w, o), s.workers[w].id;
    if OnCourse(s.workers[w].at) {
      Tell(c, s, w, o, acc);
    } else {
      Stray(c, s, w, o);
      if s.drills[id].row.status == Succeeded { FrozenSuccess(s, t, w, acc); }
    }
  }

  lemma FrozenSuccess(s: State, t: State, w: nat, acc: Account)
    requires StepEffect(s, t, w) && s.workers[w].id in s.drills && s.drills[s.workers[w].id].row.status == Succeeded
    requires SaneFail(s.workers[w].at) && SuccessTold(s.drills[s.workers[w].id], acc)
    ensures var id := s.workers[w].id; t.drills[id].row == s.drills[id].row && SuccessTold(t.drills[id], acc)
  {}

  lemma KeepTold(c: Config, s: State, a: Action, id: string, acc: Account)
    requires Inv(c, s) && WritersSane(s) && c.configured && Told(s, id, acc)
    ensures Told(Apply(c, s, a), id, Noted(s, Apply(c, s, a), a, id, acc))
  {
    hide Told, StepEffect, ActorEffect, StepRun, Inv, RunOk, DrillOk, NotedStep;
    var t := Apply(c, s, a);
    if !a.Step? {
      OtherEffect(c, s, a);
      ActorFrame(c, s, a);
      NewDrillsUnclaimed(c, s, a, id);
      ActorLeavesRuns(c, s, a);
      if id in s.drills { ActorRow(c, s, a, id); DrillNow(c, s, id); }
      hide Apply;
      ToldByActor(c, s, t, id, acc);
    } else if a.w in s.workers {
      HereNow(c, s, a.w);
      RunEffect(c, s, a.w, a.o);
      if s.workers[a.w].at == Done {
        DoneLeaves(c, s, a.w, a.o);
        ToldDone(s, t, a.w, id, acc);
      } else if id != s.workers[a.w].id {
        ToldThere(s, t, a.w, id, acc);
      } else if s.workers[a.w].claimed {
        ToldHere(c, s, a.w, a.o, acc);
      } else {
        ToldUnclaimed(c, s, a.w, a.o, acc);
      }
    }
  }

  lemma DrillNow(c: Config, s: State, id: string)
    requires Inv(c, s) && id in s.drills
    ensures DrillOk(c, s, id) && ClaimsAgree(s.drills[id])
  {}

  // ------------------------------------------------------------------- the evidence

  /** Held or paid for, the evidence object is the noted one. */
  ghost predicate EvidenceTold(s: State, id: string, acc: Account) {
    && id in s.drills && s.drills[id].claims == 1
    && (s.drills[id].row.status == Succeeded
        || (Heading(s, id) && HasEvidence(s.workers[s.drills[id].claimant.value].at)))
    ==> acc.evidence.Some? && Holds(s, id, acc.evidence.value)
  }

  predicate Holds(s: State, id: string, payload: Bytes)
    requires id in s.drills
  {
    var key := EvidenceKey(s.drills[id].row.org, id);
    key in s.objects && s.objects[key] == payload
  }

  /** The evidence changes hands without being touched. */
  lemma EvidenceStays(s: State, t: State, id: string, acc: Account, after: Account)
    requires EvidenceTold(s, id, acc) && after.evidence == acc.evidence
    requires id in s.drills && id in t.drills && t.drills[id].row.org == s.drills[id].row.org
    requires forall payload :: Holds(s, id, payload) ==> Holds(t, id, payload)
    requires t.drills[id].claims == 1 ==> s.drills[id].claims == 1
    requires t.drills[id].row.status == Succeeded ==> s.drills[id].row.status == Succeeded || WrittenFor(s, id)
    requires WrittenFor(t, id) ==> WrittenFor(s, id)
    ensures EvidenceTold(t, id, after)
  {}

  predicate WrittenFor(s: State, id: string) {
    Heading(s, id) && HasEvidence(s.workers[s.drills[id].claimant.value].at)
  }

  /** Nobody else touches the evidence object of a drill. */
  lemma OthersKeepObject(c: Config, s: State, w: nat, o: Outcome, id: string)
    requires Inv(c, s) && c.configured && w in s.workers && id in s.drills && s.workers[w].id != id
    ensures var key, t := EvidenceKey(s.drills[id].row.org, id), StepRun(c, s, w, o);
      key in s.objects ==> key in t.objects && t.objects[key] == s.objects[key]
  {
    HereNow(c, s, w);
    DrillNow(c, s, id);
    if ObjectPoint(s.workers[w].at) {
      EvidenceWrites(c, s, w, o);
      DrillNow(c, s, s.workers[w].id);
      KeysDiffer(c, s, id, s.workers[w].id);
    } else {
      QuietObjects(c, s, w, o);
    }
    hide StepRun;
  }

  lemma QuietObjects(c: Config, s: State, w: nat, o: Outcome)
    requires Here(c, s, w) && !ObjectPoint(s.workers[w].at)
    ensures StepRun(c, s, w, o).objects == s.objects
  {
    hide StepRun, RunOk, DrillOk;
    if s.workers[w].at == Done { DoneObjects(c, s, w, o); } else { RunFrame(c, s, w, o); }
  }

  lemma EvidenceThere(c: Config, s: State, w: nat, o: Outcome, id: string, acc: Account)
    requires Inv(c, s) && c.configured && w in s.workers && s.workers[w].id != id && EvidenceTold(s, id, acc)
    requires StepEffect(s, StepRun(c, s, w, o), w)
    ensures EvidenceTold(StepRun(c, s, w, o), id, acc)
  {
    var t := StepRun(c, s, w, o);
    if id in s.drills {
      OthersKeepObject(c, s, w, o, id);
      hide StepRun, Inv;
      assert WrittenFor(t, id) ==> WrittenFor(s, id);
      EvidenceStays(s, t, id, acc, acc);
    }
  }

  lemma PutHolds(c: Config, s: State, w: nat, o: Outcome)
    requires w in s.workers && s.workers[w].at == PutEvidence && s.workers[w].id in s.drills
    requires JobMatches(s.workers[w], s.drills[s.workers[w].id])
    ensures var t := StepRun(c, s, w, o);
      && w in t.workers && s.workers[w].id in t.drills
      && (OnCourse(t.workers[w].at) ==> t.workers[w].at == DestroySandbox && Holds(t, s.workers[w].id, o.payload))
  {
    hide EvidenceKey;
  }

  /** On course: the evidence is written once and kept until the commit. */
  lemma EvidenceOnCourse(c: Config, s: State, w: nat, o: Outcome, acc: Account)
    requires Here(c, s, w) && s.workers[w].claimed && OnCourse(s.workers[w].at)
    requires Told(s, s.workers[w].id, acc) && EvidenceTold(s, s.workers[w].id, acc)
    requires StepEffect(s, StepRun(c, s, w, o), w)
    ensures var t, id := StepRun(c, s, w, o), s.workers[w].id; EvidenceTold(t, id, Noted(s, t, Step(w, o), id, acc))
  {
    hide StepRun, FirstSteps, StoredAs, IntegrityHolds, EvidenceAgrees, ColumnsAgree, SuccessEarned, RunTold, SuccessTold;
    var t, id := StepRun(c, s, w, o), s.workers[w].id;
    Tell(c, s, w, o, acc);
    Judge(c, s, w, o);
    if s.workers[w].at == PutEvidence {
      PutHolds(c, s, w, o);
    } else {
      QuietObjects(c, s, w, o);
      hide Told;
      EvidenceStays(s, t, id, acc, Noted(s, t, Step(w, o), id, acc));
    }
  }

  /** Off course, only a run that is leaving may have a success to its drill. */
  lemma EvidenceOffCourse(c: Config, s: State, w: nat, o: Outcome, acc: Account)
    requires Here(c, s, w) && s.workers[w].claimed && !OnCourse(s.workers[w].at) && SaneFail(s.workers[w].at)
    requires EvidenceTold(s, s.workers[w].id, acc) && StepEffect(s, StepRun(c, s, w, o), w)
    ensures var t, id := StepRun(c, s, w, o), s.workers[w].id; EvidenceTold(t, id, Noted(s, t, Step(w, o), id, acc))
  {
    hide StepRun, FirstSteps, StoredAs, IntegrityHolds, EvidenceAgrees, ColumnsAgree, SuccessEarned;
    Stray(c, s, w, o);
    if Leaving(s.workers[w].at) { QuietObjects(c, s, w, o); }
  }

  lemma EvidenceUnclaimed(c: Config, s: State, w: nat, o: Outcome, acc: Account)
    requires Here(c, s, w) && !s.workers[w].claimed && s.workers[w].at != Done && EvidenceTold(s, s.workers[w].id, acc)
    requires StepEffect(s, StepRun(c, s, w, o), w)
    ensures var t, id := StepRun(c, s, w, o), s.workers[w].id; EvidenceTold(t, id, Noted(s, t, Step(w, o), id, acc))
  {
    hide StepRun, FirstSteps, EvidenceAgrees, ColumnsAgree, SuccessEarned;
    var t, id := StepRun(c, s, w, o), s.workers[w].id;
    if id in s.drills {
      ClaimDecides(c, s, w, o);
      QuietObjects(c, s, w, o);
      if TransitionRefused(s, s.workers[w], o, Preparing) { assert WrittenFor(t, id) ==> WrittenFor(s, id); }
    }
  }

  lemma EvidenceDone(s: State, t: State, w: nat, id: string, acc: Account)
    requires w in s.workers && s.workers[w].at == Done && t.drills == s.drills && t.workers == s.workers - {w}
    requires t.objects == s.objects && EvidenceTold(s, id, acc)
    ensures EvidenceTold(t, id, acc)
  {
    if id in s.drills { assert WrittenFor(t, id) ==> WrittenFor(s, id); }
  }

  lemma EvidenceByActor(c: Config, s: State, t: State, id: string, acc: Account)
    requires ActorEffect(c, s, t) && s.workers.Keys <= t.workers.Keys && t.objects == s.objects && EvidenceTold(s, id, acc)
    requires id in t.drills && id !in s.drills ==> t.drills[id].claims == 0
    requires id in s.drills ==> (t.drills[id].row.status == Succeeded <==> s.drills[id].row.status == Succeeded)
    requires forall v :: v in t.workers && v !in s.workers ==> !t.workers[v].claimed
    ensures EvidenceTold(t, id, acc)
  {
    if id in s.drills {
      assert DrillStep(Claim, s.drills[id], t.drills[id]);
      assert WrittenFor(t, id) ==> WrittenFor(s, id);
      EvidenceStays(s, t, id, acc, acc);
    }
  }

  lemma KeepEvidence(c: Config, s: State, a: Action, id: string, acc: Account)
    requires Inv(c, s) && WritersSane(s) && c.configured && Told(s, id, acc) && EvidenceTold(s, id, acc)
    ensures EvidenceTold(Apply(c, s, a), id, Noted(s, Apply(c, s, a), a, id, acc))
  {
    hide Told, EvidenceTold, StepEffect, ActorEffect, StepRun, Inv, RunOk, DrillOk, NotedStep;
    var t := Apply(c, s, a);
    if !a.Step? {
      OtherEffect(c, s, a);
      ActorFrame(c, s, a);
      ActorObjects(c, s, a);
      NewDrillsUnclaimed(c, s, a, id);
      ActorLeavesRuns(c, s, a);
      if id in s.drills { ActorRow(c, s, a, id); }
      hide Apply;
      EvidenceByActor(c, s, t, id, acc);
    } else if a.w in s.workers {
      HereNow(c, s, a.w);
      RunEffect(c, s, a.w, a.o);
      if s.workers[a.w].at == Done {
        DoneLeaves(c, s, a.w, a.o);
        DoneObjects(c, s, a.w, a.o);
        EvidenceDone(s, t, a.w, id, acc);
      } else if id != s.workers[a.w].id {
        EvidenceThere(c, s, a.w, a.o, id, acc);
      } else if !s.workers[a.w].claimed {
        EvidenceUnclaimed(c, s, a.w, a.o, acc);
      } else if OnCourse(s.workers[a.w].at) {
        EvidenceOnCourse(c, s, a.w, a.o, acc);
      } else {
        EvidenceOffCourse(c, s, a.w, a.o, acc);
      }
    }
  }

  // ---------------------------------------------------------------------- whole runs

  lemma {:induction false} ToldReplay(c: Config, s: State, actions: seq<Action>, id: string)
    requires Inv(c, s) && WritersSane(s) && c.configured && Told(s, id, BLANK) && EvidenceTold(s, id, BLANK)
    ensures var t, acc := Replay(c, s, actions), AccountOf(c, s, actions, id); Told(t, id, acc) && EvidenceTold(t, id, acc)
    decreases |actions|
  {
    if actions != [] {
      var n := |actions| - 1;
      ReplaySnoc(c, s, actions[..n], actions[n]);
      assert actions[..n] + [actions[n]] == actions;
      KeepReplay(c, s, actions[..n]);
      SaneReplay(c, s, actions[..n]);
      hide Told, EvidenceTold, Inv, WritersSane, Apply, Noted;
      ToldReplay(c, s, actions[..n], id);
      KeepTold(c, Replay(c, s, actions[..n]), actions[n], id, AccountOf(c, s, actions[..n], id));
      KeepEvidence(c, Replay(c, s, actions[..n]), actions[n], id, AccountOf(c, s, actions[..n], id));
    }
  }

  lemma InitiallyTold(c: Config, objects: map<string, Bytes>, id: string)
    requires NoEvidenceYet(objects)
    ensures var s := Initial(c, objects); Inv(c, s) && WritersSane(s) && Told(s, id, BLANK) && EvidenceTold(s, id, BLANK)
  {}

  /** Seconds from one time to a later one; a missing or reversed time counts nothing. */
  function Seconds(from: int, to: int): int {
    if from == 0 || to == 0 || to < from then 0 else (to - from) / 1_000_000_000
  }

  /** The verdict on a duration, given in full: inconclusive without both times, in order, or
      without a target; else a pass exactly below the target plus one second. */
  predicate VerdictOn(result: Option<PolicyResult>, from: int, to: int, target: int) {
    && result.Some?
    && (result.value == PolicyInconclusive <==> from == 0 || to == 0 || to < from || target <= 0)
    && (result.value == PolicyPass
        <==> from != 0 && to != 0 && from <= to && target > 0 && to - from < (target + 1) * 1_000_000_000)
    && (result.value == PolicyFail
        <==> from != 0 && to != 0 && from <= to && target > 0 && to - from >= (target + 1) * 1_000_000_000)
  }

  /** The times of a row are those of its account. */
  ghost predicate TimesStored(row: Row, acc: Account)
    requires acc.claimed.Some? && acc.snapshot.Some? && acc.ready.Some?
  {
    var start, snapshot, ready := acc.claimed.value, acc.snapshot.value, acc.ready.value;
    && row.startedAt == Some(start) && row.completedAt == acc.committed
    && row.rto == Some(Seconds(start, ready)) && VerdictOn(row.rtoResult, start, ready, snapshot.rtoTarget)
    && (start != 0 ==>
          && row.rpo == Some(Seconds(snapshot.completedAt, start))
          && VerdictOn(row.rpoResult, snapshot.completedAt, start, snapshot.rpoTarget))
  }

  lemma TimesFit(d: Drill, acc: Account, c: Config)
    requires d.row.status == Succeeded && SuccessEarned(c, d) && SuccessTold(d, acc)
    requires acc.claimed.Some? && d.row.startedAt == acc.claimed
    ensures TimesStored(d.row, acc)
  {
    var start, snapshot, ready := acc.claimed.value, acc.snapshot.value, acc.ready.value;
    RTOVerdictExact(start, ready, snapshot.rtoTarget);
    RPOVerdictExact(start, snapshot.completedAt, snapshot.rpoTarget);
    hide RTOVerdict, RPOVerdict, IntegrityHolds, Verdict;
  }

  /** In every reachable state, whatever else happened: a succeeded drill's row holds what the
      actions say. The start is the clock reading of its claim and the completion that of its
      final transaction; the RTO is measured to the reading after its connectivity check, the
      RPO from the loaded snapshot to the claim; the assessment is about the checks that this
      snapshot requires; and what the object store and the artifact row hold for the drill is
      the evidence that was written. */
  lemma SuccessAccounted(c: Config, objects: map<string, Bytes>, actions: seq<Action>, id: string)
    requires c.configured && NoEvidenceYet(objects)
    requires var s := Replay(c, Initial(c, objects), actions); id in s.drills && s.drills[id].row.status == Succeeded
    ensures
      var s, acc := Replay(c, Initial(c, objects), actions), AccountOf(c, Initial(c, objects), actions, id);
      var d, key := s.drills[id], EvidenceKey(s.drills[id].row.org, id);
      && acc.claimed.Some? && acc.snapshot.Some? && acc.backup.Some? && acc.ready.Some?
      && acc.evidence.Some? && acc.committed.Some?
      && TimesStored(d.row, acc)
      && (d.row.assessment == Some(Verified)
          <==> forall i :: 0 <= i < |acc.snapshot.value.required| ==> acc.snapshot.value.required[i] == "POSTGRES_CONNECTIVITY")
      && key in s.objects && s.objects[key] == acc.evidence.value
      && key in s.artifacts
      && s.artifacts[key] == Artifact(id, |acc.evidence.value|, c.hash(acc.evidence.value))
      && d.evidence == Some(c.hash(acc.evidence.value))
  {
    var s0 := Initial(c, objects);
    InitiallyTold(c, objects, id);
    ToldReplay(c, s0, actions, id);
    SucceededExactlyWithEvidence(c, objects, actions, id);
    Reachable(c, objects, actions);
    hide Replay, AccountOf, Initial, TimesStored, Verdict;
    var d, acc := Replay(c, s0, actions).drills[id], AccountOf(c, s0, actions, id);
    DrillNow(c, Replay(c, s0, actions), id);
    TimesFit(d, acc, c);
    VerdictExactly(acc.snapshot.value.required);
  }

  /** And the bytes that were staged for it were within the limit and carried its checksum: the
      very hash when the checksum is in lower case, its capitals when it is in upper case. */
  lemma SuccessMatchesChecksum(c: Config, objects: map<string, Bytes>, actions: seq<Action>, id: string)
    requires c.configured && NoEvidenceYet(objects) && forall content :: LowerHex(c.hash(content))
    requires var s := Replay(c, Initial(c, objects), actions); id in s.drills && s.drills[id].row.status == Succeeded
    ensures
      var acc := AccountOf(c, Initial(c, objects), actions, id);
      && acc.snapshot.Some? && acc.backup.Some?
      && var checksum, content := acc.snapshot.value.checksum, acc.backup.value;
      && (LowerHex(checksum) && checksum != "" ==> checksum == c.hash(content))
      && (UpperHex(checksum) && checksum != "" ==> checksum == Capitals(c.hash(content)))
      && |content| <= (if c.maxArtifactBytes <= 0 then 1_073_741_824 else c.maxArtifactBytes)
      && (c.maxArtifactBytes >= 9_223_372_036_854_775_807 ==> content == [])
  {
    var s0 := Initial(c, objects);
    InitiallyTold(c, objects, id);
    ToldReplay(c, s0, actions, id);
    Reachable(c, objects, actions);
    hide Replay, AccountOf, Initial;
    DrillNow(c, Replay(c, s0, actions), id);
    ChecksumFits(c, Replay(c, s0, actions).drills[id], AccountOf(c, s0, actions, id));
  }

  lemma ChecksumFits(c: Config, d: Drill, acc: Account)
    requires d.row.status == Succeeded && SuccessEarned(c, d) && SuccessTold(d, acc) && LowerHex(c.hash(acc.backup.value))
    ensures
      var checksum, content := acc.snapshot.value.checksum, acc.backup.value;
      && (LowerHex(checksum) && checksum != "" ==> checksum == c.hash(content))
      && (UpperHex(checksum) && checksum != "" ==> checksum == Capitals(c.hash(content)))
      && |content| <= (if c.maxArtifactBytes <= 0 then 1_073_741_824 else c.maxArtifactBytes)
      && (c.maxArtifactBytes >= 9_223_372_036_854_775_807 ==> content == [])
  {
    var checksum, content := acc.snapshot.value.checksum, acc.backup.value;
    BackupAcceptedExactly(c, content, checksum);
    HashMatchesExactly(checksum, c.hash(content));
    hide EqualHash, RTOVerdict, RPOVerdict, Verdict;
  }
}
