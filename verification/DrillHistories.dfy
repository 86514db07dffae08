/** The guarantees that speak of faults, stated on the actions that bring them: which removal
    failed, which compensating delete failed, and that no insert ever meets a row. */
module DrillHistories {
  import opened Prelude
  import opened Domain
  import opened Sandbox
  import opened Drills
  import opened DrillInvariant
  import opened DrillSteps
  import opened DrillSafety
  import opened DrillFrames
  import opened DrillDocker
  import opened DrillTheorems
  import opened DrillExits

  // ------------------------------------------------------------ compensating deletes

  /** The drill whose compensating delete fails in an action. */
  function DeleteFails(s: State, a: Action): set<string> {
    if a.Step? && a.w in s.workers && !a.o.ok && DeletePoint(s.workers[a.w].at) then {s.workers[a.w].id} else {}
  }

  function DeletesFailed(c: Config, s: State, actions: seq<Action>): set<string> {
    if actions == [] then {}
    else
      var n := |actions| - 1;
      DeletesFailed(c, s, actions[..n]) + DeleteFails(Replay(c, s, actions[..n]), actions[n])
  }

  lemma DeleteRecorded(c: Config, s: State, w: nat, o: Outcome)
    requires Here(c, s, w) && DeletePoint(s.workers[w].at)
    ensures StepRun(c, s, w, o).log.undeleted == s.log.undeleted + (if o.ok then {} else {s.workers[w].id})
  {
    hide FirstSteps, StoredAs, IntegrityHolds, DrillOk, EvidenceKey;
  }

  lemma UndeletedStep(c: Config, s: State, w: nat, o: Outcome)
    requires Here(c, s, w)
    ensures StepRun(c, s, w, o).log.undeleted == s.log.undeleted + DeleteFails(s, Step(w, o))
  {
    hide StepRun, RunOk, DrillOk;
    if DeletePoint(s.workers[w].at) { DeleteRecorded(c, s, w, o); }
    else if s.workers[w].at == Done { DoneLog(c, s, w, o); }
    else { RunFrame(c, s, w, o); }
  }

  lemma DoneLog(c: Config, s: State, w: nat, o: Outcome)
    requires w in s.workers && s.workers[w].at == Done
    ensures StepRun(c, s, w, o).log == s.log && StepRun(c, s, w, o).side == s.side
  {}

  lemma ActorLog(c: Config, s: State, a: Action)
    requires !a.Step?
    ensures Apply(c, s, a).log.undeleted == s.log.undeleted && Apply(c, s, a).side == s.side
  {}

  lemma UndeletedAction(c: Config, s: State, a: Action)
    requires Inv(c, s)
    ensures Apply(c, s, a).log.undeleted == s.log.undeleted + DeleteFails(s, a)
  {
    hide Inv, StepRun;
    if !a.Step? { ActorLog(c, s, a); }
    else if a.w in s.workers { HereNow(c, s, a.w); UndeletedStep(c, s, a.w, a.o); }
  }

  lemma {:induction false} UndeletedReplay(c: Config, s: State, actions: seq<Action>)
    requires Inv(c, s) && c.configured && s.log.undeleted == {}
    ensures Replay(c, s, actions).log.undeleted == DeletesFailed(c, s, actions)
    decreases |actions|
  {
    if actions != [] {
      var n := |actions| - 1;
      var u, a := Replay(c, s, actions[..n]), actions[n];
      ReplaySnoc(c, s, actions[..n], a);
      assert actions[..n] + [a] == actions;
      KeepReplay(c, s, actions[..n]);
      hide Inv, Apply, DeleteFails;
      UndeletedReplay(c, s, actions[..n]);
      UndeletedAction(c, u, a);
    }
  }

  /** In every reachable state, when no run holds the drill's evidence and no action failed to
      delete it: the object exists exactly on success, and without success nothing of it is
      visible anywhere. */
  lemma CompensatedUnlessDeleteFailed(c: Config, objects: map<string, Bytes>, actions: seq<Action>, id: string)
    requires c.configured && NoEvidenceYet(objects)
    requires var s := Replay(c, Initial(c, objects), actions);
      id in s.drills && !Holder(s, id) && id !in DeletesFailed(c, Initial(c, objects), actions)
    ensures var s := Replay(c, Initial(c, objects), actions); var d := s.drills[id]; var key := EvidenceKey(d.row.org, id);
      && (key in s.objects <==> d.row.status == Succeeded)
      && (d.row.status != Succeeded ==> key !in s.artifacts && d.evidence == None && !d.report)
  {
    InitiallyExplained(c, objects, id);
    UndeletedReplay(c, Initial(c, objects), actions);
    EvidenceCompensated(c, objects, actions, id);
  }

  // ------------------------------------------------------------------ failed removals

  /** The sandbox that a step works on. */
  function BaseAt(r: Run, o: Outcome): string {
    if r.at == MakeSandbox then BaseName(Compact(r.id), o.suffix) else r.base
  }

  /** The sandbox some of whose removals fail in an action. */
  function RemovalFails(s: State, a: Action): set<string> {
    if a.Step? && a.w in s.workers && DockerPoint(s.workers[a.w].at)
       && (a.o.faults != NO_FAULTS || a.o.env.faults != NO_FAULTS)
    then {BaseAt(s.workers[a.w], a.o)} else {}
  }

  function RemovalsFailed(c: Config, s: State, actions: seq<Action>): set<string> {
    if actions == [] then {}
    else
      var n := |actions| - 1;
      RemovalsFailed(c, s, actions[..n]) + RemovalFails(Replay(c, s, actions[..n]), actions[n])
  }

  lemma MakeLeaks(c: Config, s: State, w: nat, o: Outcome)
    requires Clean(c, s) && w in s.workers && s.workers[w].at == MakeSandbox
    ensures StepRun(c, s, w, o).side.leaked <= s.side.leaked + RemovalFails(s, Step(w, o))
  {
    var base := BaseName(Compact(s.workers[w].id), o.suffix);
    if Compact(s.workers[w].id) != "" && !BaseTaken(s, base) { CreatedExact(s.side.docker, base, o.env); }
    hide Created, Compact, Exclusive, SameElsewhere, Accounted, BasesClaimed;
  }

  lemma EndLeaks(c: Config, s: State, w: nat, o: Outcome)
    requires Clean(c, s) && w in s.workers && (s.workers[w].at == DestroySandbox || s.workers[w].at == Cleanup)
    requires s.workers[w].live
    ensures StepRun(c, s, w, o).side.leaked <= s.side.leaked + RemovalFails(s, Step(w, o))
  {
    var base := s.workers[w].base;
    var (d, ok) := Destroyed(s.side.docker, Names(base), o.faults);
    DestroyedEnds(c, s, w, o.faults);
    DestroyStep(c, s, w, o);
    hide StepRun, Destroyed, Clean, Residue, Exclusive, SameElsewhere;
  }

  lemma LeaksStep(c: Config, s: State, w: nat, o: Outcome)
    requires Here(c, s, w) && Clean(c, s)
    ensures StepRun(c, s, w, o).side.leaked <= s.side.leaked + RemovalFails(s, Step(w, o))
  {
    hide StepRun, DrillOk, Clean, FirstSteps, StoredAs, IntegrityHolds;
    if s.workers[w].at == MakeSandbox { MakeLeaks(c, s, w, o); }
    else if s.workers[w].at == DestroySandbox || s.workers[w].at == Cleanup { EndLeaks(c, s, w, o); }
    else if s.workers[w].at == Done { DoneLog(c, s, w, o); }
    else { RunFrame(c, s, w, o); }
  }

  lemma LeaksAction(c: Config, s: State, a: Action)
    requires Inv(c, s) && Clean(c, s)
    ensures Apply(c, s, a).side.leaked <= s.side.leaked + RemovalFails(s, a)
  {
    hide Inv, Clean, StepRun;
    if !a.Step? { ActorLog(c, s, a); }
    else if a.w in s.workers { HereNow(c, s, a.w); LeaksStep(c, s, a.w, a.o); }
  }

  lemma {:induction false} LeaksReplay(c: Config, s: State, actions: seq<Action>)
    requires Inv(c, s) && WritersSane(s) && Clean(c, s) && c.configured && s.side.leaked == {}
    ensures Replay(c, s, actions).side.leaked <= RemovalsFailed(c, s, actions)
    decreases |actions|
  {
    if actions != [] {
      var n := |actions| - 1;
      var u, a := Replay(c, s, actions[..n]), actions[n];
      ReplaySnoc(c, s, actions[..n], a);
      assert actions[..n] + [a] == actions;
      KeepReplay(c, s, actions[..n]);
      CleanFrom(c, s, actions[..n]);
      hide Inv, WritersSane, Clean, Apply, RemovalFails;
      LeaksReplay(c, s, actions[..n]);
      LeaksAction(c, u, a);
    }
  }

  lemma {:induction false} CleanFrom(c: Config, s: State, actions: seq<Action>)
    requires Inv(c, s) && WritersSane(s) && Clean(c, s) && c.configured
    ensures Clean(c, Replay(c, s, actions))
    decreases |actions|
  {
    if actions != [] {
      hide Inv, WritersSane, Clean, Apply;
      KeepClean(c, s, actions[0]);
      KeepAction(c, s, actions[0]);
      KeepSane(c, s, actions[0]);
      CleanFrom(c, Apply(c, s, actions[0]), actions[1..]);
    }
  }

  /** In every reachable state, any container, network or volume of a sandbox that was not there
      at the start belongs to a run that still has to destroy it, or to a sandbox one of whose
      removals failed in some action of the run. */
  lemma LeftoversFromFaults(c: Config, objects: map<string, Bytes>, actions: seq<Action>, base: string)
    requires c.configured && NoEvidenceYet(objects) && Consistent(c.docker)
    requires Residue(Replay(c, Initial(c, objects), actions).side.docker, base) && !Residue(c.docker, base)
    ensures LiveBase(Replay(c, Initial(c, objects), actions), base) || base in RemovalsFailed(c, Initial(c, objects), actions)
  {
    InitiallyExplained(c, objects, "");
    InitiallyClean(c, objects);
    LeaksReplay(c, Initial(c, objects), actions);
    if !LiveBase(Replay(c, Initial(c, objects), actions), base) { LeaksRecorded(c, objects, actions, base); }
  }

  lemma InitiallyClean(c: Config, objects: map<string, Bytes>)
    requires Consistent(c.docker)
    ensures Clean(c, Initial(c, objects)) && Initial(c, objects).side.leaked == {}
  {}

  // ------------------------------------------------------------------- fresh inserts

  /** The rows that the next call of a run inserts are not there. */
  predicate InsertsFresh(s: State, r: Run)
    requires r.id in s.drills
  {
    var d := s.drills[r.id];
    match r.at
    case Claim => d.row.status == Queued ==> 1 !in d.steps
    case Persist => !d.sandboxed
    case RecordSandbox => 2 !in d.steps
    case ToRestoring => 3 !in d.steps
    case ToValidating => 4 !in d.steps
    case ToFinalizing => 5 !in d.steps
    case Commit => EvidenceKey(d.row.org, r.id) !in s.artifacts && d.evidence == None && !d.report
    case _ => true
  }

  lemma FreshHere(c: Config, s: State, w: nat)
    requires Here(c, s, w) && s.workers[w].id in s.drills
    ensures InsertsFresh(s, s.workers[w])
  {
    hide StoredAs, IntegrityHolds, ColumnsAgree, EvidenceKey;
  }

  /** In every reachable state no insert of any run would meet a row, so no ON CONFLICT clause of
      the worker ever decides anything. */
  lemma NoInsertConflicts(c: Config, objects: map<string, Bytes>, actions: seq<Action>, w: nat)
    requires c.configured && NoEvidenceYet(objects)
    requires var s := Replay(c, Initial(c, objects), actions); w in s.workers && s.workers[w].id in s.drills
    ensures var s := Replay(c, Initial(c, objects), actions); InsertsFresh(s, s.workers[w])
  {
    Reachable(c, objects, actions);
    HereNow(c, Replay(c, Initial(c, objects), actions), w);
    FreshHere(c, Replay(c, Initial(c, objects), actions), w);
  }
}
