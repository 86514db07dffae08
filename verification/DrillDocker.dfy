/** No container, network or volume made for a drill outlives the run that made it, unless
    the daemon refused to remove something that was not in use. */
module DrillDocker {
  import opened Prelude
  import opened Domain
  import opened Sandbox
  import opened Drills
  import opened DrillInvariant
  import opened DrillSteps
  import opened DrillSafety
  import opened DrillFrames

  /** The sandbox `base` belongs to an in-flight run that still has to destroy it. */
  predicate LiveBase(s: State, base: string) {
    base in s.side.bases && s.side.bases[base] in s.drills &&
    var d := s.drills[s.side.bases[base]];
    d.claimant.Some? && d.claimant.value in s.workers &&
    var r := s.workers[d.claimant.value];
    r.claimed && r.live && r.base == base && r.id == s.side.bases[base]
  }

  ghost predicate RunSandboxOk(s: State, r: Run) {
    r.live ==>
      && r.base in s.side.bases && s.side.bases[r.base] == r.id
      && PREFIX <= r.base && Exclusive(s.side.docker, Names(r.base))
  }

  /** Whatever exists existed from the start, belongs to a live run, or leaked. */
  ghost predicate Accounted(c: Config, s: State) {
    forall b :: Residue(s.side.docker, b) ==> Residue(c.docker, b) || b in s.side.leaked || LiveBase(s, b)
  }

  ghost predicate Clean(c: Config, s: State) {
    && Consistent(s.side.docker)
    && (forall w :: w in s.workers ==> RunSandboxOk(s, s.workers[w]))
    && Accounted(c, s)
    && (!s.side.faulty ==> s.side.leaked == {})
    && BasesClaimed(s)
  }

  /** Sandboxes are only ever made for drills that were claimed. */
  ghost predicate BasesClaimed(s: State) {
    forall b :: b in s.side.bases ==> s.side.bases[b] in s.drills && s.drills[s.side.bases[b]].claims > 0
  }

  // ------------------------------------------------- steps that leave Docker alone

  lemma LiveStays(s: State, t: State, w: nat, base: string)
    requires StepEffect(s, t, w) && t.side == s.side && w in t.workers && LiveBase(s, base)
    requires t.workers[w].live == s.workers[w].live && t.workers[w].base == s.workers[w].base
    requires t.drills[s.side.bases[base]].claimant == s.drills[s.side.bases[base]].claimant
    ensures LiveBase(t, base)
  {}

  lemma QuietLive(c: Config, s: State, t: State, w: nat, base: string)
    requires Inv(c, s) && WritersSane(s) && StepEffect(s, t, w) && w in t.workers && LiveBase(s, base)
    requires t.side == s.side && t.workers[w].live == s.workers[w].live && t.workers[w].base == s.workers[w].base
    ensures LiveBase(t, base)
  {
    assert DrillOk(c, s, s.side.bases[base]);
    LiveStays(s, t, w, base);
  }

  lemma CleanQuietStep(c: Config, s: State, t: State, w: nat)
    requires Inv(c, s) && WritersSane(s) && Clean(c, s) && StepEffect(s, t, w) && w in t.workers
    requires t.side == s.side && t.workers[w].live == s.workers[w].live && t.workers[w].base == s.workers[w].base
    ensures Clean(c, t)
  {
    hide RunOk, DrillOk, LiveBase, Residue, Exclusive, Consistent;
    forall v | v in t.workers ensures RunSandboxOk(t, t.workers[v]) { assert RunSandboxOk(s, s.workers[v]); }
    forall b | Residue(t.side.docker, b) ensures Residue(c.docker, b) || b in t.side.leaked || LiveBase(t, b) {
      if LiveBase(s, b) { QuietLive(c, s, t, w, b); }
    }
  }

  lemma DoneNotLive(c: Config, s: State, t: State, w: nat, base: string)
    requires w in s.workers && RunOk(c, s, w) && s.workers[w].at == Done && LiveBase(s, base)
    requires t.side == s.side && t.drills == s.drills && t.workers == s.workers - {w}
    ensures LiveBase(t, base)
  {}

  /** A run that is over has no sandbox. */
  lemma CleanDone(c: Config, s: State, t: State, w: nat)
    requires Inv(c, s) && Clean(c, s) && w in s.workers && s.workers[w].at == Done
    requires t.side == s.side && t.drills == s.drills && t.workers == s.workers - {w}
    ensures Clean(c, t)
  {
    forall v | v in t.workers ensures RunSandboxOk(t, t.workers[v]) { assert RunSandboxOk(s, s.workers[v]); }
    forall b | Residue(t.side.docker, b) ensures Residue(c.docker, b) || b in t.side.leaked || LiveBase(t, b) {
      if LiveBase(s, b) { DoneNotLive(c, s, t, w, b); }
    }
  }

  // ------------------------------------------------- steps that work on one sandbox

  /** Work on `base` by worker `w` that touches nothing else in Docker and ends with the
      sandbox gone, handed to the run, or recorded as leaked. */
  ghost predicate Worked(s: State, t: State, w: nat, base: string) {
    && w in s.workers && w in t.workers && t.workers[w].id == s.workers[w].id
    && (t.workers[w].claimed <==> s.workers[w].claimed)
    && SameRuns(s, t, w)
    && t.drills.Keys == s.drills.Keys
    && (forall i :: i in s.drills ==> t.drills[i].claimant == s.drills[i].claimant && t.drills[i].claims == s.drills[i].claims)
    && (forall b :: b in t.side.bases && b != base ==> b in s.side.bases && t.side.bases[b] == s.side.bases[b])
    && Consistent(t.side.docker) && SameElsewhere(s.side.docker, t.side.docker, Names(base))
    && Exclusive(t.side.docker, Names(base))
    && (forall b :: b in s.side.bases && b != base ==> b in t.side.bases && t.side.bases[b] == s.side.bases[b])
    && base in t.side.bases && t.side.bases[base] == s.workers[w].id
    && (forall b :: b != base && b in s.side.leaked ==> b in t.side.leaked)
    && (t.workers[w].live ==> t.workers[w].base == base && PREFIX <= base)
    && (!t.workers[w].live && Residue(t.side.docker, base) ==> base in t.side.leaked)
    && (!t.side.faulty ==> t.side.leaked == {})
  }

  /** Two live runs never share a base name. */
  lemma BasesDistinct(c: Config, s: State, v: nat, w: nat)
    requires Inv(c, s) && Clean(c, s) && v in s.workers && w in s.workers && v != w
    requires s.workers[v].live && s.workers[w].claimed
    ensures s.workers[v].base !in s.side.bases || s.side.bases[s.workers[v].base] != s.workers[w].id
  {
    assert RunOk(c, s, v) && RunOk(c, s, w) && RunSandboxOk(s, s.workers[v]);
  }

  lemma WorkedOthers(c: Config, s: State, t: State, w: nat, base: string, v: nat)
    requires Inv(c, s) && Clean(c, s) && Worked(s, t, w, base) && s.workers[w].claimed
    requires base in s.side.bases ==> s.side.bases[base] == s.workers[w].id
    requires v in t.workers && v != w
    ensures RunSandboxOk(t, t.workers[v])
  {
    assert RunSandboxOk(s, s.workers[v]);
    if s.workers[v].live {
      BasesDistinct(c, s, v, w);
      OthersUntouched(s.side.docker, t.side.docker, base, s.workers[v].base);
    }
  }

  lemma WorkedAccounted(c: Config, s: State, t: State, w: nat, base: string, b: string)
    requires Inv(c, s) && Clean(c, s) && Worked(s, t, w, base) && s.workers[w].claimed
    requires s.workers[w].live ==> s.workers[w].base == base
    requires Residue(t.side.docker, b)
    ensures Residue(c.docker, b) || b in t.side.leaked || LiveBase(t, b)
  {
    assert RunOk(c, s, w);
    hide Inv;
    if b == base {
      assert t.workers[w].live ==> LiveBase(t, b);
    } else {
      OthersUntouched(s.side.docker, t.side.docker, base, b);
      assert LiveBase(s, b) ==> LiveBase(t, b);
    }
  }

  lemma WorkedRuns(c: Config, s: State, t: State, w: nat, base: string)
    requires Inv(c, s) && Clean(c, s) && Worked(s, t, w, base) && s.workers[w].claimed
    requires base in s.side.bases ==> s.side.bases[base] == s.workers[w].id
    requires s.workers[w].live ==> s.workers[w].base == base
    ensures forall v :: v in t.workers ==> RunSandboxOk(t, t.workers[v])
    ensures BasesClaimed(t)
  {
    hide Accounted, DrillOk, LiveBase;
    forall v | v in t.workers ensures RunSandboxOk(t, t.workers[v]) {
      if v != w { WorkedOthers(c, s, t, w, base, v); }
    }
    WorkedBases(c, s, t, w, base);
  }

  lemma WorkedBases(c: Config, s: State, t: State, w: nat, base: string)
    requires w in s.workers && RunOk(c, s, w) && s.workers[w].claimed && BasesClaimed(s) && Worked(s, t, w, base)
    ensures BasesClaimed(t)
  {
    hide Exclusive, SameElsewhere, Residue;
  }

  lemma CleanWorked(c: Config, s: State, t: State, w: nat, base: string)
    requires Inv(c, s) && Clean(c, s) && Worked(s, t, w, base) && s.workers[w].claimed
    requires base in s.side.bases ==> s.side.bases[base] == s.workers[w].id
    requires s.workers[w].live ==> s.workers[w].base == base
    ensures Clean(c, t)
  {
    hide LiveBase;
    WorkedRuns(c, s, t, w, base);
    forall b | Residue(t.side.docker, b) ensures Residue(c.docker, b) || b in t.side.leaked || LiveBase(t, b) {
      WorkedAccounted(c, s, t, w, base, b);
    }
  }

  // ------------------------------------------------------------------ the three points

  lemma BasePrefix(id: string, suffix: string)
    ensures PREFIX <= BaseName(id, suffix)
  {
    assert BaseName(id, suffix) == PREFIX + (id + "-" + suffix);
  }

  lemma MadeWorked(s: State, w: nat, base: string, d: Docker, ok: bool, left: bool, fault: bool)
    requires w in s.workers && !s.workers[w].live && PREFIX <= base
    requires Consistent(d) && SameElsewhere(s.side.docker, d, Names(base)) && Exclusive(d, Names(base))
    requires left == Residue(d, base) && (!ok && !fault ==> !left) && (!s.side.faulty ==> s.side.leaked == {})
    ensures Worked(s, SandboxMade(s, w, base, d, ok, left, fault), w, base)
  {
    hide Consistent, SameElsewhere, Exclusive, Residue;
  }

  lemma MakingRun(c: Config, s: State, w: nat)
    requires Inv(c, s) && Clean(c, s) && w in s.workers && s.workers[w].at == MakeSandbox
    ensures s.workers[w].claimed && !s.workers[w].live && Consistent(s.side.docker)
    ensures !s.side.faulty ==> s.side.leaked == {}
  {
    assert RunOk(c, s, w);
  }

  lemma CleanMake(c: Config, s: State, w: nat, o: Outcome)
    requires Inv(c, s) && Clean(c, s) && w in s.workers && s.workers[w].at == MakeSandbox
    requires WritersSane(s)
    ensures Clean(c, StepRun(c, s, w, o))
  {
    MakingRun(c, s, w);
    hide Inv, Clean, Worked, Created, Consistent, SameElsewhere, Exclusive;
    var r := s.workers[w];
    var base := BaseName(Compact(r.id), o.suffix);
    if Compact(r.id) == "" || BaseTaken(s, base) {
      RunEffect(c, s, w, o);
      CleanQuietStep(c, s, SetRun(s, w, r.(at := FailDecide)), w);
    } else {
      var (d, ok) := Created(s.side.docker, base, o.env);
      CreatedExact(s.side.docker, base, o.env);
      BasePrefix(Compact(r.id), o.suffix);
      MadeWorked(s, w, base, d, ok, Residue(d, base), o.env.faults != NO_FAULTS);
      CleanWorked(c, s, SandboxMade(s, w, base, d, ok, Residue(d, base), o.env.faults != NO_FAULTS), w, base);
    }
  }

  /** What the executor's `Destroy` guarantees for a run's own sandbox. */
  ghost predicate Ended(s: State, r: Run, d: Docker, ok: bool, fault: bool) {
    && Consistent(d) && SameElsewhere(s.side.docker, d, Names(r.base)) && Exclusive(d, Names(r.base))
    && (ok ==> !Residue(d, r.base)) && (!fault ==> ok)
  }

  lemma DestroyedEnds(c: Config, s: State, w: nat, f: Faults)
    requires Clean(c, s) && w in s.workers && s.workers[w].live
    ensures var (d, ok) := Destroyed(s.side.docker, Names(s.workers[w].base), f);
      Ended(s, s.workers[w], d, ok, f != NO_FAULTS)
  {
    var base := s.workers[w].base;
    assert RunSandboxOk(s, s.workers[w]);
    ManagedNames(base);
    assert Named(Names(base));
    PurgeExact(s.side.docker, Names(base), f);
  }

  lemma EndedWorked(c: Config, s: State, w: nat, d: Docker, ok: bool, left: bool, fault: bool)
    requires Clean(c, s) && w in s.workers && s.workers[w].live
    requires Ended(s, s.workers[w], d, ok, fault) && left == Residue(d, s.workers[w].base)
    ensures Worked(s, SandboxEnded(s, w, d, ok, left, fault), w, s.workers[w].base)
  {
    assert RunSandboxOk(s, s.workers[w]);
  }

  lemma CleanupWorked(c: Config, s: State, w: nat, d: Docker, ok: bool, left: bool, fault: bool)
    requires Clean(c, s) && w in s.workers && s.workers[w].live
    requires Ended(s, s.workers[w], d, ok, fault) && left == Residue(d, s.workers[w].base)
    ensures var r := s.workers[w];
      Worked(s, SetRun(DockerDone(s, r.base, d, left, fault), w, r.(at := Done, live := false)), w, r.base)
  {
    assert RunSandboxOk(s, s.workers[w]);
  }

  lemma CleanEnded(c: Config, s: State, w: nat, d: Docker, ok: bool, left: bool, fault: bool)
    requires Inv(c, s) && Clean(c, s) && w in s.workers && s.workers[w].live
    requires Ended(s, s.workers[w], d, ok, fault) && left == Residue(d, s.workers[w].base)
    ensures Clean(c, SandboxEnded(s, w, d, ok, left, fault))
    ensures var r := s.workers[w];
      Clean(c, SetRun(DockerDone(s, r.base, d, left, fault), w, r.(at := Done, live := false)))
  {
    var r := s.workers[w];
    assert RunOk(c, s, w) && RunSandboxOk(s, r);
    EndedWorked(c, s, w, d, ok, left, fault);
    CleanWorked(c, s, SandboxEnded(s, w, d, ok, left, fault), w, r.base);
    CleanupWorked(c, s, w, d, ok, left, fault);
    CleanWorked(c, s, SetRun(DockerDone(s, r.base, d, left, fault), w, r.(at := Done, live := false)), w, r.base);
  }

  lemma CleanDestroyed(c: Config, s: State, w: nat, f: Faults)
    requires Inv(c, s) && Clean(c, s) && w in s.workers && s.workers[w].live
    ensures var r := s.workers[w]; var (d, ok) := Destroyed(s.side.docker, Names(r.base), f);
      && Clean(c, SandboxEnded(s, w, d, ok, Residue(d, r.base), f != NO_FAULTS))
      && Clean(c, SetRun(DockerDone(s, r.base, d, Residue(d, r.base), f != NO_FAULTS), w, r.(at := Done, live := false)))
  {
    var (d, ok) := Destroyed(s.side.docker, Names(s.workers[w].base), f);
    DestroyedEnds(c, s, w, f);
    CleanEnded(c, s, w, d, ok, Residue(d, s.workers[w].base), f != NO_FAULTS);
  }

  /** What the two destroying steps compute. */
  lemma DestroyStep(c: Config, s: State, w: nat, o: Outcome)
    requires w in s.workers
    ensures var r := s.workers[w]; var (d, ok) := Destroyed(s.side.docker, Names(r.base), o.faults);
      && (r.at == DestroySandbox ==> StepRun(c, s, w, o) == SandboxEnded(s, w, d, ok, Residue(d, r.base), o.faults != NO_FAULTS))
      && var u := DockerDone(s, r.base, d, Residue(d, r.base), o.faults != NO_FAULTS);
      && (r.at == Cleanup ==> StepRun(c, s, w, o) == SetRun(u, w, r.(at := Done, live := false)))
  {}

  lemma CleanQuiet(c: Config, s: State, w: nat, o: Outcome)
    requires Inv(c, s) && WritersSane(s) && Clean(c, s) && w in s.workers && !DockerPoint(s.workers[w].at)
    requires s.workers[w].at != Done && s.workers[w].at != PrepareOnly && s.workers[w].at != GiveUp
    ensures Clean(c, StepRun(c, s, w, o))
  {
    RunEffect(c, s, w, o);
    RunFrame(c, s, w, o);
    CleanQuietStep(c, s, StepRun(c, s, w, o), w);
  }

  lemma CleanLast(c: Config, s: State, w: nat, o: Outcome)
    requires Inv(c, s) && Clean(c, s) && w in s.workers && s.workers[w].at == Done
    ensures Clean(c, StepRun(c, s, w, o))
  {
    CleanDone(c, s, StepRun(c, s, w, o), w);
  }

  lemma CleanStep(c: Config, s: State, w: nat, o: Outcome)
    requires Inv(c, s) && WritersSane(s) && Clean(c, s) && Here(c, s, w) && !Unconfigured(s.workers[w].at)
    ensures Clean(c, StepRun(c, s, w, o))
  {
    hide Clean, Inv;
    var p := s.workers[w].at;
    if p == MakeSandbox {
      CleanMake(c, s, w, o);
    } else if p == DestroySandbox || p == Cleanup {
      CleanDestroyed(c, s, w, o.faults);
      DestroyStep(c, s, w, o);
    } else if p == Done {
      CleanLast(c, s, w, o);
    } else {
      CleanQuiet(c, s, w, o);
    }
  }

  // ------------------------------------------------------------------- whole runs

  lemma CleanActor(c: Config, s: State, t: State)
    requires Inv(c, s) && Clean(c, s) && ActorEffect(c, s, t) && t.side == s.side
    requires s.workers.Keys <= t.workers.Keys
    requires forall w :: w in t.workers && w !in s.workers ==> !t.workers[w].live
    ensures Clean(c, t)
  {
    forall v | v in t.workers ensures RunSandboxOk(t, t.workers[v]) {
      if v in s.workers { assert RunSandboxOk(s, s.workers[v]); }
    }
    forall b | Residue(t.side.docker, b) ensures Residue(c.docker, b) || b in t.side.leaked || LiveBase(t, b) {
      if LiveBase(s, b) { assert LiveBase(t, b); }
    }
  }

  lemma ActorFrame(c: Config, s: State, a: Action)
    requires !a.Step?
    ensures var t := Apply(c, s, a);
      && t.side == s.side && s.workers.Keys <= t.workers.Keys
      && (forall w :: w in t.workers && w !in s.workers ==> !t.workers[w].live)
  {
    match a
    case CreateDrill(org, header, uuid, id, assetExists) =>
    case CancelRow(org, id, ok, now) =>
    case CancelContext(org, id) =>
    case Shutdown =>
    case Dequeue(w) =>
    case Submit(id) =>
    case Resubmit(id) =>
    case Timeout(w) =>
  }

  lemma KeepClean(c: Config, s: State, a: Action)
    requires Inv(c, s) && WritersSane(s) && Clean(c, s)
    ensures Clean(c, Apply(c, s, a))
  {
    if a.Step? {
      if a.w in s.workers {
        assert RunOk(c, s, a.w);
        ConfiguredPoint(c, s, a.w);
        CleanStep(c, s, a.w, a.o);
      }
    } else {
      OtherEffect(c, s, a);
      ActorFrame(c, s, a);
      CleanActor(c, s, Apply(c, s, a));
    }
  }

  lemma {:induction false} CleanReplay(c: Config, s: State, actions: seq<Action>)
    requires Inv(c, s) && WritersSane(s) && Clean(c, s) && c.configured
    ensures Clean(c, Replay(c, s, actions))
    decreases |actions|
  {
    if actions != [] {
      KeepClean(c, s, actions[0]);
      KeepAction(c, s, actions[0]);
      KeepSane(c, s, actions[0]);
      CleanReplay(c, Apply(c, s, actions[0]), actions[1..]);
    }
  }

  /** In every reachable state in which no removal of an unused resource has failed, every
      sandbox resource that was not there at the start belongs to a run in flight that is
      between its sandbox's creation and its destruction. */
  lemma NothingLeaks(c: Config, objects: map<string, Bytes>, actions: seq<Action>, base: string)
    requires c.configured && NoEvidenceYet(objects) && Consistent(c.docker)
    requires var s := Replay(c, Initial(c, objects), actions);
      !s.side.faulty && Residue(s.side.docker, base) && !Residue(c.docker, base)
    ensures LiveBase(Replay(c, Initial(c, objects), actions), base)
  {
    CleanReplay(c, Initial(c, objects), actions);
  }

  /** Even after faults, what is left of a sandbox no run is responsible for is exactly what
      was recorded as leaked. */
  lemma LeaksRecorded(c: Config, objects: map<string, Bytes>, actions: seq<Action>, base: string)
    requires c.configured && NoEvidenceYet(objects) && Consistent(c.docker)
    requires var s := Replay(c, Initial(c, objects), actions);
      Residue(s.side.docker, base) && !Residue(c.docker, base) && !LiveBase(s, base)
    ensures var s := Replay(c, Initial(c, objects), actions); base in s.side.leaked && s.side.faulty
  {
    CleanReplay(c, Initial(c, objects), actions);
  }
}
