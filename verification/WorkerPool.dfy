/** The handlers and the worker of backend/internal/drill/worker.go as a program: methods
    that update the shared tables, stores and registries in place, with the other actors
    interfering between any two of their calls. Every method is proved to perform the
    atomic actions of the protocol, so `Run` inherits everything proved about it. */
module WorkerPool {
  import opened Prelude
  import opened Domain
  import opened Sandbox
  import opened Drills
  import opened DrillInvariant
  import opened DrillSteps
  import opened DrillSafety
  import opened DrillDocker
  import opened DrillProgress
  import DrillExits

  lemma TransitionIsStep(c: Config, s: State, w: nat, o: Outcome, to: DrillStatus, step: StepName, n: int, next: Point)
    requires w in s.workers && TransitionPoint(s.workers[w].at, to, step, n, next)
    ensures Apply(c, s, Step(w, o)) == StepTransition(s, w, o, to, step, n, next)
  {}

  lemma TerminateIsStep(c: Config, s: State, w: nat, o: Outcome, status: DrillStatus)
    requires w in s.workers && TerminatePoint(s.workers[w].at, status)
    ensures var r := s.workers[w]; var reachable := o.ok && (r.at.FailWrite? || !r.ctxDone);
      Apply(c, s, Step(w, o)) == StepTerminate(Excuse(s, r.id, !o.ok), w, status, o.now, reachable)
  {}

  lemma PrepareIsStep(c: Config, s: State, w: nat, o: Outcome)
    requires w in s.workers && s.workers[w].at == PrepareOnly
    ensures var t := StepTransition(s, w, o, Preparing, PrepareDrill, 1, GiveUp);
      && w in t.workers && t.workers[w].id == s.workers[w].id && t.workers[w].live == s.workers[w].live
      && Apply(c, s, Step(w, o)) == SetRun(t, w, t.workers[w].(at := GiveUp))
  {}

  lemma FailIsStep(c: Config, s: State, w: nat, o: Outcome)
    requires w in s.workers && s.workers[w].at == FailDecide
    ensures Apply(c, s, Step(w, o))
         == SetRun(s, w, s.workers[w].(at := FailWrite(if s.workers[w].ctxDone then Cancelled else Failed)))
  {}

  lemma GiveUpIsStep(c: Config, s: State, w: nat, o: Outcome)
    requires w in s.workers && s.workers[w].at == GiveUp
    ensures Apply(c, s, Step(w, o)) == StepTerminate(s, w, Inconclusive, o.now, o.ok)
  {}

  /** The step a worker takes at each of the points with a method of its own below. */
  lemma StepIs(c: Config, s: State, w: nat, o: Outcome)
    requires w in s.workers
    ensures var at := s.workers[w].at; var t := Apply(c, s, Step(w, o));
      && (at == Load ==> t == StepLoad(s, w, o))
      && (at == Stage ==> t == StepStage(c, s, w, o))
      && (at == MakeSandbox ==> t == StepMakeSandbox(s, w, o))
      && (at == Persist ==> t == StepPersist(s, w, o))
      && (at == RecordSandbox ==> t == StepRecordSandbox(s, w, o))
      && (at == PutEvidence ==> t == StepPut(c, s, w, o))
      && (at == DestroySandbox ==> t == StepDestroy(s, w, o))
      && (at == Commit ==> t == StepCommit(s, w, o))
      && (DeletePoint(at) ==> t == StepDelete(s, w, o))
      && (at == Cleanup ==> t == StepCleanup(s, w, o))
  {
    hide StepLoad, StepStage, StepMakeSandbox, StepPersist, StepRecordSandbox, StepPut, StepDestroy, StepCommit, StepDelete, StepCleanup;
  }

  /** What happens around one call of a run: the actions of others before it, and how it ends. */
  datatype Turn = Turn(others: seq<Action>, outcome: Outcome)

  /** Others never take a step of this worker. */
  function Quiet(w: nat, actions: seq<Action>): seq<Action> {
    if actions == [] then []
    else
      var a := actions[|actions| - 1];
      Quiet(w, actions[..|actions| - 1]) + (if a.Step? && a.w == w then [] else [a])
  }

  function Played(w: nat, t: Turn): seq<Action> {
    Quiet(w, t.others) + [Step(w, t.outcome)]
  }

  /** The protocol actions of the first `n` turns. */
  function Turns(w: nat, turns: nat -> Turn, n: nat): seq<Action> {
    if n == 0 then [] else Turns(w, turns, n - 1) + Played(w, turns(n - 1))
  }

  lemma TurnEnds(c: Config, s0: State, w: nat, turns: nat -> Turn, k: nat)
    ensures Replay(c, s0, Turns(w, turns, k + 1))
         == Apply(c, Replay(c, s0, Turns(w, turns, k) + Quiet(w, turns(k).others)), Step(w, turns(k).outcome))
  {
    var before := Turns(w, turns, k) + Quiet(w, turns(k).others);
    ReplaySnoc(c, s0, before, Step(w, turns(k).outcome));
    assert Turns(w, turns, k + 1) == before + [Step(w, turns(k).outcome)];
  }

  class ControlPlane {
    const c: Config
    var drills: map<string, Drill>
    var artifacts: map<string, Artifact>
    var objects: map<string, Bytes>
    var workers: map<nat, Run>
    var side: DockerSide
    var pool: Pool
    var log: Log

    function Now(): State
      reads this
    {
      State(drills, artifacts, objects, workers, side, pool, log)
    }

    constructor (c: Config, objects: map<string, Bytes>)
      ensures this.c == c && Now() == Initial(c, objects)
    {
      this.c := c;
      drills, artifacts, this.objects, workers := map[], map[], objects, map[];
      side := DockerSide(c.docker, map[], {}, false);
      pool := Pool(map[], [], map[], false, {}, multiset{}, []);
      log := Log(0, {}, {});
    }

    // ------------------------------------------------------------------- handlers

    /** `CreateDrill`: insert, or read the row that already has the key. */
    method CreateDrill(org: string, header: string, uuid: string, id: string, assetExists: bool)
      returns (found: Option<string>, created: bool)
      modifies this
      ensures Now() == ApplyCreate(old(Now()), org, header, uuid, id, assetExists)
      ensures created ==> found == Some(id) && id !in old(drills) && id in drills && id in pool.created
      ensures found.Some? && !created ==> drills == old(drills)
      ensures found == None ==> Now() == old(Now())
      ensures found.Some? ==>
        var key := if header == "" then uuid else header;
        pool.responses == old(pool).responses + [Response(org, key, found.value, created)]
    {
      var key := if header == "" then uuid else header;
      if (org, key) in pool.index {
        found, created := Some(pool.index[(org, key)]), false;
        pool := pool.(responses := pool.responses + [Response(org, key, found.value, false)]);
      } else if !assetExists || id in drills || '/' in id || '/' in org {
        found, created := None, false;
      } else {
        var row := Row(org, key, Queued, None, None, None, None, None, None, None, None);
        drills := drills[id := Drill(row, map[], false, None, false, 0, None, [], None)];
        pool := pool.(index := pool.index[(org, key) := id], created := pool.created + {id},
                      responses := pool.responses + [Response(org, key, id, true)]);
        found, created := Some(id), true;
      }
    }

    /** `Submit`: refused exactly when the queue is full. */
    method Submit(id: string) returns (ok: bool)
      modifies this`pool
      ensures Now() == Enqueue(old(Now()), id)
      ensures ok <==> |old(pool).jobs| < 100
    {
      ok := |pool.jobs| < QUEUE_CAPACITY;
      if ok {
        pool := pool.(jobs := pool.jobs + [id]);
      }
    }

    /** The drills handler: create, and submit exactly what was created. */
    method Drills(org: string, header: string, uuid: string, id: string, assetExists: bool)
      returns (found: Option<string>, created: bool, queued: bool)
      modifies this
      ensures
        var create := Action.CreateDrill(org, header, uuid, id, assetExists);
        Now() == Replay(c, old(Now()), if created then [create, Action.Submit(id)] else [create])
      ensures created <==> id in drills && id !in old(drills)
      ensures queued <==> created && |old(pool).jobs| < 100
    {
      ghost var s0 := Now();
      var a := Action.CreateDrill(org, header, uuid, id, assetExists);
      ReplaySnoc(c, s0, [], a);
      assert [] + [a] == [a];
      ReplayTwo(c, s0, a, Action.Submit(id));
      found, created := CreateDrill(org, header, uuid, id, assetExists);
      queued := false;
      if created {
        pool := pool.(created := pool.created - {id});
        queued := Submit(id);
      }
    }

    /** `Cancel`: ends the context registered for the drill, whoever asks. */
    method Cancel(org: string, id: string)
      modifies this
      ensures Now() == ApplyCancelContext(old(Now()), org, id)
    {
      var foreign := id in drills && drills[id].row.org != org;
      if id in pool.running && pool.running[id] in workers {
        var w := pool.running[id];
        var r := workers[w];
        workers := workers[w := r.(ctxDone := true)];
        if foreign {
          log := log.(excused := log.excused + {r.id});
        }
      }
      pool := pool.(cancels := pool.cancels + multiset{(org, id)});
    }

    /** `CancelDrill`: the guarded update; `found` is false when no row matched. */
    method CancelDrill(org: string, id: string, ok: bool, now: int) returns (found: bool)
      requires (org, id) in pool.cancels
      modifies this
      ensures Now() == ApplyCancelRow(old(Now()), org, id, ok, now)
      ensures found ==> id in drills && drills[id].row.status == Cancelled
      ensures !found ==> drills == old(drills)
    {
      pool := pool.(cancels := pool.cancels - multiset{(org, id)});
      found := false;
      if !ok {
        log := log.(excused := log.excused + {id});
      } else if id in drills && drills[id].row.org == org {
        var d := drills[id];
        var st := d.row.status;
        if st.Queued? || st.Preparing? || st.Restoring? || st.Validating? || st.Finalizing? {
          d := d.(row := d.row.(status := Cancelled, completedAt := Some(now)));
          found := true;
        }
        drills := drills[id := d];
        assert !found ==> drills == old(drills);
      }
    }

    // ----------------------------------------------------- one call, with interference

    ghost predicate Ran(s0: State, trace: seq<Action>)
      reads this
    {
      Now() == Replay(c, s0, trace)
    }

    /** The actions of others before call `k`. */
    method Others(w: nat, ghost s0: State, turns: nat -> Turn, k: nat)
      requires w in workers && Ran(s0, Turns(w, turns, k))
      modifies this
      ensures Ran(s0, Turns(w, turns, k) + Quiet(w, turns(k).others))
      ensures w in workers && workers[w] == old(workers)[w].(ctxDone := workers[w].ctxDone)
    {
      var others := turns(k).others;
      ghost var trace := Turns(w, turns, k);
      assert trace + Quiet(w, others[..0]) == trace;
      for i := 0 to |others|
        invariant Ran(s0, trace + Quiet(w, others[..i]))
        invariant w in workers && workers[w] == old(workers)[w].(ctxDone := workers[w].ctxDone)
      {
        var a := others[i];
        assert others[..i + 1][..i] == others[..i];
        if !(a.Step? && a.w == w) {
          Other(w, a);
          ReplaySnoc(c, s0, trace + Quiet(w, others[..i]), a);
          assert trace + Quiet(w, others[..i + 1]) == trace + Quiet(w, others[..i]) + [a];
        } else {
          assert Quiet(w, others[..i + 1]) == Quiet(w, others[..i]);
        }
      }
      assert others[..|others|] == others;
    }

    method Other(w: nat, a: Action)
      requires w in workers && !(a.Step? && a.w == w)
      modifies this
      ensures Now() == Apply(c, old(Now()), a)
      ensures w in workers && workers[w] == old(workers)[w].(ctxDone := workers[w].ctxDone)
    {
      DrillExits.OtherLeavesRun(c, Now(), a, w);
      var t := Apply(c, Now(), a);
      drills, artifacts, objects, workers := t.drills, t.artifacts, t.objects, t.workers;
      side, pool, log := t.side, t.pool, t.log;
    }

    /** After `k` turns the run is at `at`. */
    ghost predicate Stands(s0: State, w: nat, turns: nat -> Turn, k: nat, at: Point)
      reads this
    {
      Ran(s0, Turns(w, turns, k)) && w in workers && workers[w].at == at
    }

    /** After `k` turns the run is about to execute its deferred calls. */
    ghost predicate Left(s0: State, w: nat, turns: nat -> Turn, k: nat)
      reads this
    {
      Ran(s0, Turns(w, turns, k)) && w in workers && workers[w].at == if workers[w].live then Cleanup else Done
    }

    method Move(w: nat, at: Point)
      requires w in workers
      modifies this`workers
      ensures Now() == SetRun(old(Now()), w, old(workers)[w].(at := at))
    {
      workers := workers[w := workers[w].(at := at)];
    }

    /** `return`: the deferred calls come next. */
    method Return(w: nat)
      requires w in workers
      modifies this`workers
      ensures Now() == Leave(old(Now()), w, old(workers)[w])
    {
      workers := workers[w := workers[w].(at := if workers[w].live then Cleanup else Done)];
    }

    method NoteDatabaseError(id: string, failed: bool)
      modifies this`log
      ensures Now() == Excuse(old(Now()), id, failed)
    {
      if failed {
        log := log.(excused := log.excused + {id});
      }
    }

    method Note(id: string, m: Milestone)
      modifies this`drills
      ensures drills == if id in old(drills) then old(drills)[id := Reached(old(drills)[id], m)] else old(drills)
    {
      if id in drills {
        drills := drills[id := Reached(drills[id], m)];
      }
    }

    // ---------------------------------------------------------------- calls of `run`

    /** The update of the row and the insert of the step. */
    method WriteStatus(w: nat, d: Drill, to: DrillStatus, step: StepName, n: int, now: int) returns (e: Drill)
      ensures
        var moved := Transitioned(d, to, step, n, now);
        e == if to == Preparing then moved.(claims := d.claims + 1, claimant := Some(w)) else moved
    {
      var started := d.row.startedAt;
      if started.None? && to == Preparing {
        started := Some(now);
      }
      var steps := d.steps;
      if n !in steps {
        steps := steps[n := step];
      }
      e := d.(row := d.row.(status := to, startedAt := started), steps := steps);
      if to == Preparing {
        e := e.(claims := d.claims + 1, claimant := Some(w));
      }
    }

    /** The writes of a transition that the table allows. */
    method Advance(w: nat, to: DrillStatus, step: StepName, n: int, next: Point, o: Outcome)
      requires w in workers && !TransitionRefused(Now(), workers[w], o, to)
      modifies this
      ensures Now() == StepTransition(old(Now()), w, o, to, step, n, next)
    {
      hide Transitioned, CanTransition;
      var r := workers[w];
      if n in drills[r.id].steps {
        log := log.(conflicts := log.conflicts + 1);
      }
      var e := WriteStatus(w, drills[r.id], to, step, n, o.now);
      drills := drills[r.id := e];
      workers := workers[w := r.(at := next, claimed := true)];
    }

    /** `transition`: row lock, table check, update, step insert, commit. */
    method UpdateStatus(w: nat, to: DrillStatus, step: StepName, n: int, next: Point, o: Outcome) returns (ok: bool)
      requires w in workers
      modifies this
      ensures Now() == StepTransition(old(Now()), w, o, to, step, n, next)
      ensures ok <==> !TransitionRefused(old(Now()), old(workers)[w], o, to)
    {
      hide StepTransition;
      var r := workers[w];
      if !o.ok || r.ctxDone || r.id !in drills || !CanTransition(drills[r.id].row.status, to) {
        RefusedTransition(Now(), w, o, to, step, n, next);
        NoteDatabaseError(r.id, !o.ok);
        Return(w);
        return false;
      }
      Advance(w, to, step, n, next, o);
      return true;
    }

    method Transition(w: nat, to: DrillStatus, step: StepName, n: int, next: Point, ghost s0: State, turns: nat -> Turn, k: nat)
      returns (ok: bool)
      requires Ran(s0, Turns(w, turns, k)) && w in workers && TransitionPoint(workers[w].at, to, step, n, next)
      modifies this
      ensures if ok then Stands(s0, w, turns, k + 1, next) else Left(s0, w, turns, k + 1)
    {
      Others(w, s0, turns, k);
      var o := turns(k).outcome;
      TransitionIsStep(c, Now(), w, o, to, step, n, next);
      TurnEnds(c, s0, w, turns, k);
      ok := UpdateStatus(w, to, step, n, next, o);
    }

    /** The query for drill, snapshot and policy. */
    method Query(w: nat, o: Outcome) returns (ok: bool)
      requires w in workers
      modifies this`workers, this`log
      ensures Now() == StepLoad(old(Now()), w, o)
      ensures w in workers && workers[w].at == if ok then Stage else LoadFailed
    {
      var r := workers[w];
      if !o.ok || r.ctxDone || r.id !in drills || drills[r.id].row.startedAt.None? || o.snapshot.storageKey == "" {
        NoteDatabaseError(r.id, !o.ok);
        Move(w, LoadFailed);
        return false;
      }
      var row := drills[r.id].row;
      workers := workers[w := r.(at := Stage, job := Some(Job(row.org, row.startedAt.value, o.snapshot)))];
      return true;
    }

    method LoadJob(w: nat, ghost s0: State, turns: nat -> Turn, k: nat) returns (ok: bool)
      requires Stands(s0, w, turns, k, Load)
      modifies this
      ensures Stands(s0, w, turns, k + 1, if ok then Stage else LoadFailed)
    {
      hide Apply, Replay, Turns, StepLoad;
      Others(w, s0, turns, k);
      var o := turns(k).outcome;
      StepIs(c, Now(), w, o);
      TurnEnds(c, s0, w, turns, k);
      ok := Query(w, o);
    }

    /** `setTerminal`: the update guarded by NOT IN the terminal statuses. */
    method WriteTerminal(w: nat, status: DrillStatus, now: int, reachable: bool)
      requires w in workers
      modifies this
      ensures Now() == StepTerminate(old(Now()), w, status, now, reachable)
      ensures w in workers && workers[w].at == if workers[w].live then Cleanup else Done
      ensures workers[w].live == old(workers)[w].live
      ensures var id := old(workers)[w].id;
        reachable && Terminal(status) && id in old(drills) ==> id in drills && Terminal(drills[id].row.status)
    {
      hide Terminated;
      var id := workers[w].id;
      if reachable && id in drills {
        var e := TerminalRow(drills[id], status, now);
        drills := drills[id := e];
      }
      Return(w);
    }

    /** The guard and the columns of that update. */
    method TerminalRow(d: Drill, status: DrillStatus, now: int) returns (e: Drill)
      ensures e == Terminated(d, status, now)
      ensures Terminal(status) ==> Terminal(e.row.status)
    {
      e := d;
      if d.row.status !in {Succeeded, Failed, Cancelled, Inconclusive} {
        var assessment := if status == Failed then AssessmentFailed else AssessmentUnknown;
        e := d.(row := d.row.(status := status, completedAt := Some(now),
                              assessment := Some(assessment), confidence := Some(Low)));
      }
    }

    /** It runs in the run's own context after a failed load and in a background context at
        the end of `fail`. */
    method SetTerminal(w: nat, status: DrillStatus, ghost s0: State, turns: nat -> Turn, k: nat)
      requires Ran(s0, Turns(w, turns, k)) && w in workers && TerminatePoint(workers[w].at, status)
      modifies this
      ensures Left(s0, w, turns, k + 1)
    {
      Others(w, s0, turns, k);
      var o := turns(k).outcome;
      TerminateIsStep(c, Now(), w, o, status);
      TurnEnds(c, s0, w, turns, k);
      var r := workers[w];
      NoteDatabaseError(r.id, !o.ok);
      WriteTerminal(w, status, o.now, o.ok && (r.at.FailWrite? || !r.ctxDone));
    }

    /** `fail`: CANCELLED when the context is done by now, otherwise FAILED. */
    method Fail(w: nat, ghost s0: State, turns: nat -> Turn, k: nat)
      requires Stands(s0, w, turns, k, FailDecide)
      modifies this
      ensures Left(s0, w, turns, k + 2)
    {
      hide Replay, Turns;
      Others(w, s0, turns, k);
      FailIsStep(c, Now(), w, turns(k).outcome);
      TurnEnds(c, s0, w, turns, k);
      var status := if workers[w].ctxDone then Cancelled else Failed;
      Move(w, FailWrite(status));
      SetTerminal(w, status, s0, turns, k + 1);
    }

    /** Work that touches no shared store: it reaches a milestone or the run fails. */
    method Reach(w: nat, m: Milestone, next: Point, o: Outcome)
      requires w in workers
      modifies this`workers, this`drills
      ensures
        var r := old(workers)[w];
        Now() == ReachOrFail(old(Now()), w, m, if m == Connected then r.(at := next, readyAt := o.now) else r.(at := next), o.ok)
    {
      var r := workers[w];
      if o.ok {
        Note(r.id, m);
        workers := workers[w := if m == Connected then r.(at := next, readyAt := o.now) else r.(at := next)];
      } else {
        Move(w, FailDecide);
      }
    }

    method Work(w: nat, m: Milestone, next: Point, ghost s0: State, turns: nat -> Turn, k: nat)
      returns (ok: bool)
      requires Ran(s0, Turns(w, turns, k)) && w in workers
      requires (workers[w].at == Restore && m == Restored && next == ToValidating)
            || (workers[w].at == Connect && m == Connected && next == ToFinalizing)
      modifies this
      ensures Stands(s0, w, turns, k + 1, if ok then next else FailDecide)
    {
      Others(w, s0, turns, k);
      var o := turns(k).outcome;
      ok := o.ok;
      Reach(w, m, next, o);
      TurnEnds(c, s0, w, turns, k);
    }

    /** Download to a temporary file, then size and checksum validation. */
    method CheckBackup(r: Run, o: Outcome) returns (ok: bool)
      ensures ok == StagePasses(c, Now(), r, o)
    {
      ok := false;
      if o.ok && r.job.Some? && r.job.value.snapshot.storageKey in objects {
        var content := objects[r.job.value.snapshot.storageKey];
        var checksum := r.job.value.snapshot.checksum;
        var limit := if c.maxArtifactBytes <= 0 then 0x4000_0000 else c.maxArtifactBytes;
        var written := Staged(|content|, limit);
        ok := written <= limit && |content| == written && (checksum == "" || EqualHash(checksum, c.hash(content)));
      }
    }

    method StageNow(w: nat, o: Outcome) returns (ok: bool)
      requires w in workers
      modifies this`workers, this`drills
      ensures Now() == StepStage(c, old(Now()), w, o)
      ensures ok == StagePasses(c, old(Now()), old(workers)[w], o)
      ensures w in workers && workers[w].at == if ok then MakeSandbox else FailDecide
    {
      var r := workers[w];
      ok := CheckBackup(r, o);
      if ok {
        var staged := Download(Now(), r);
        Note(r.id, IntegrityChecked);
        workers := workers[w := r.(at := MakeSandbox, staged := staged)];
      } else {
        Move(w, FailDecide);
      }
    }

    method StageBackup(w: nat, ghost s0: State, turns: nat -> Turn, k: nat) returns (ok: bool)
      requires Stands(s0, w, turns, k, Stage)
      modifies this
      ensures Stands(s0, w, turns, k + 1, if ok then MakeSandbox else FailDecide)
    {
      hide Apply, Replay, Turns, StepStage;
      Others(w, s0, turns, k);
      var o := turns(k).outcome;
      StepIs(c, Now(), w, o);
      TurnEnds(c, s0, w, turns, k);
      ok := StageNow(w, o);
    }

    /** `Create` for a compacted id under a drawn name. */
    method OpenSandbox(w: nat, o: Outcome) returns (ok: bool)
      requires w in workers
      modifies this
      ensures Now() == StepMakeSandbox(old(Now()), w, o)
      ensures w in workers && workers[w].at == (if ok then Persist else FailDecide) && (ok ==> workers[w].live)
    {
      var r := workers[w];
      var base := BaseName(Compact(r.id), o.suffix);
      if Compact(r.id) == "" || BaseTaken(Now(), base) {
        Move(w, FailDecide);
        return false;
      }
      var (d, made) := Created(side.docker, base, o.env);
      MakeOutcome(w, base, d, made, Residue(d, base), o.env.faults != NO_FAULTS);
      return made;
    }

    method MakeSandboxFor(w: nat, ghost s0: State, turns: nat -> Turn, k: nat) returns (ok: bool)
      requires Stands(s0, w, turns, k, MakeSandbox)
      modifies this
      ensures Stands(s0, w, turns, k + 1, if ok then Persist else FailDecide)
      ensures ok ==> workers[w].live
    {
      hide Apply, Replay, Turns, StepMakeSandbox;
      Others(w, s0, turns, k);
      var o := turns(k).outcome;
      StepIs(c, Now(), w, o);
      TurnEnds(c, s0, w, turns, k);
      ok := OpenSandbox(w, o);
    }

    method MakeOutcome(w: nat, base: string, d: Docker, ok: bool, left: bool, fault: bool)
      requires w in workers
      modifies this
      ensures Now() == SandboxMade(old(Now()), w, base, d, ok, left, fault)
    {
      var r := workers[w];
      side := side.(docker := d, bases := side.bases[base := r.id],
                    leaked := if left && !ok then side.leaked + {base} else side.leaked - {base},
                    faulty := side.faulty || (fault && !ok));
      if ok {
        Note(r.id, SandboxReady);
        workers := workers[w := r.(at := Persist, live := true, base := base)];
      } else {
        Move(w, FailDecide);
      }
    }

    /** The insert into `recovery_sandboxes`. */
    method InsertSandbox(w: nat, o: Outcome) returns (ok: bool)
      requires w in workers
      modifies this
      ensures Now() == StepPersist(old(Now()), w, o)
      ensures w in workers && workers[w].at == if ok then RecordSandbox else FailDecide
    {
      var r := workers[w];
      ok := o.ok && !r.ctxDone && r.id in drills;
      if ok {
        if drills[r.id].sandboxed {
          log := log.(conflicts := log.conflicts + 1);
        }
        drills := drills[r.id := drills[r.id].(sandboxed := true)];
        Move(w, RecordSandbox);
      } else {
        NoteDatabaseError(r.id, !o.ok);
        Move(w, FailDecide);
      }
    }

    method PersistSandbox(w: nat, ghost s0: State, turns: nat -> Turn, k: nat) returns (ok: bool)
      requires Stands(s0, w, turns, k, Persist)
      modifies this
      ensures Stands(s0, w, turns, k + 1, if ok then RecordSandbox else FailDecide)
    {
      hide Apply, Replay, Turns, StepPersist;
      Others(w, s0, turns, k);
      var o := turns(k).outcome;
      StepIs(c, Now(), w, o);
      TurnEnds(c, s0, w, turns, k);
      ok := InsertSandbox(w, o);
    }

    /** `recordStep(CREATE_SANDBOX, 2)`. */
    method RecordNow(w: nat, o: Outcome) returns (ok: bool)
      requires w in workers
      modifies this
      ensures Now() == StepRecordSandbox(old(Now()), w, o)
      ensures ok <==> o.ok && !old(workers)[w].ctxDone && old(workers)[w].id in old(drills)
      ensures w in workers
      ensures workers[w].at == if ok then ToRestoring else if workers[w].live then Cleanup else Done
    {
      var r := workers[w];
      ok := o.ok && !r.ctxDone && r.id in drills;
      if ok {
        var d := drills[r.id];
        if 2 in d.steps {
          log := log.(conflicts := log.conflicts + 1);
        } else {
          d := d.(steps := d.steps[2 := CreateSandbox]);
        }
        drills := drills[r.id := d];
        Move(w, ToRestoring);
      } else {
        NoteDatabaseError(r.id, !o.ok);
        Return(w);
      }
    }

    method RecordStep(w: nat, ghost s0: State, turns: nat -> Turn, k: nat) returns (ok: bool)
      requires Stands(s0, w, turns, k, RecordSandbox)
      modifies this
      ensures if ok then Stands(s0, w, turns, k + 1, ToRestoring) else Left(s0, w, turns, k + 1)
    {
      hide Apply, Replay, Turns, StepRecordSandbox;
      Others(w, s0, turns, k);
      var o := turns(k).outcome;
      StepIs(c, Now(), w, o);
      TurnEnds(c, s0, w, turns, k);
      ok := RecordNow(w, o);
    }

    /** The evidence object, remembered with its size and hash. */
    method PutNow(w: nat, o: Outcome) returns (ok: bool)
      requires w in workers
      modifies this
      ensures Now() == StepPut(c, old(Now()), w, o)
      ensures ok <==> o.ok && old(workers)[w].job.Some?
      ensures w in workers && workers[w].at == if ok then DestroySandbox else FailDecide
    {
      var r := workers[w];
      ok := o.ok && r.job.Some?;
      if ok {
        var key := EvidenceKey(r.job.value.org, r.id);
        objects := objects[key := o.payload];
        Note(r.id, EvidenceStored);
        workers := workers[w := r.(at := DestroySandbox, artifact := Some(Artifact(r.id, |o.payload|, c.hash(o.payload))))];
      } else {
        Move(w, FailDecide);
      }
    }

    method StoreEvidence(w: nat, ghost s0: State, turns: nat -> Turn, k: nat) returns (ok: bool)
      requires Stands(s0, w, turns, k, PutEvidence)
      modifies this
      ensures Stands(s0, w, turns, k + 1, if ok then DestroySandbox else FailDecide)
    {
      hide Apply, Replay, Turns, StepPut;
      Others(w, s0, turns, k);
      var o := turns(k).outcome;
      StepIs(c, Now(), w, o);
      TurnEnds(c, s0, w, turns, k);
      ok := PutNow(w, o);
    }

    method DestroyOutcome(w: nat, d: Docker, ok: bool, left: bool, fault: bool)
      requires w in workers
      modifies this
      ensures Now() == SandboxEnded(old(Now()), w, d, ok, left, fault)
    {
      var r := workers[w];
      side := side.(docker := d, leaked := if left then side.leaked + {r.base} else side.leaked - {r.base},
                    faulty := side.faulty || fault);
      if ok {
        Note(r.id, SandboxGone);
        workers := workers[w := r.(at := Commit, live := false)];
      } else {
        Move(w, DeleteThenFail);
      }
    }

    method EndSandbox(w: nat, o: Outcome) returns (ok: bool)
      requires w in workers
      modifies this
      ensures Now() == StepDestroy(old(Now()), w, o)
      ensures w in workers && workers[w].at == if ok then Commit else DeleteThenFail
    {
      var base := workers[w].base;
      var (d, gone) := Destroyed(side.docker, Names(base), o.faults);
      DestroyOutcome(w, d, gone, Residue(d, base), o.faults != NO_FAULTS);
      return gone;
    }

    method DestroyNow(w: nat, ghost s0: State, turns: nat -> Turn, k: nat) returns (ok: bool)
      requires Stands(s0, w, turns, k, DestroySandbox)
      modifies this
      ensures Stands(s0, w, turns, k + 1, if ok then Commit else DeleteThenFail)
    {
      hide Apply, Replay, Turns, StepDestroy;
      Others(w, s0, turns, k);
      var o := turns(k).outcome;
      StepIs(c, Now(), w, o);
      TurnEnds(c, s0, w, turns, k);
      ok := EndSandbox(w, o);
    }

    /** The final transaction: all rows, or none and on to the compensating delete. */
    method CommitNow(w: nat, o: Outcome) returns (ok: bool)
      requires w in workers
      modifies this
      ensures Now() == StepCommit(old(Now()), w, o)
      ensures ok <==> !CommitRefused(old(Now()), old(workers)[w], o)
                      && old(workers)[w].job.Some? && old(workers)[w].artifact.Some?
      ensures w in workers
      ensures workers[w].at == if !ok then DeleteThenLeave else if workers[w].live then Cleanup else Done
    {
      var r := workers[w];
      ok := o.ok && !r.ctxDone && r.id in drills && drills[r.id].row.status == Finalizing && r.job.Some? && r.artifact.Some?;
      if ok {
        CommitRows(w, r.job.value, r.artifact.value, o);
      } else {
        NoteDatabaseError(r.id, !o.ok);
        Move(w, DeleteThenLeave);
      }
    }

    method CommitEvidence(w: nat, ghost s0: State, turns: nat -> Turn, k: nat) returns (ok: bool)
      requires Stands(s0, w, turns, k, Commit)
      modifies this
      ensures if ok then Left(s0, w, turns, k + 1) else Stands(s0, w, turns, k + 1, DeleteThenLeave)
    {
      hide Apply, Replay, Turns, StepCommit;
      Others(w, s0, turns, k);
      var o := turns(k).outcome;
      StepIs(c, Now(), w, o);
      TurnEnds(c, s0, w, turns, k);
      ok := CommitNow(w, o);
    }

    /** Artifact, evidence, drill and report rows, with the measurements of the run. */
    method CommitRows(w: nat, job: Job, artifact: Artifact, o: Outcome)
      requires w in workers && workers[w].id in drills
      requires workers[w].job == Some(job) && workers[w].artifact == Some(artifact)
      requires drills[workers[w].id].row.status == Finalizing && !workers[w].ctxDone && o.ok
      modifies this
      ensures Now() == StepCommit(old(Now()), w, o)
    {
      var r := workers[w];
      var d := drills[r.id];
      var key := EvidenceKey(job.org, r.id);
      if key in artifacts || d.evidence.Some? || d.report {
        log := log.(conflicts := log.conflicts + 1);
      }
      artifacts := artifacts[key := if key in artifacts then artifacts[key].(sha := artifact.sha) else artifact];
      var (rpo, rpoState) := MeasureRPO(job.startedAt, job.snapshot.completedAt);
      var (rto, rtoState) := MeasureRTO(job.startedAt, r.readyAt);
      var rpoResult := EvaluatePolicy(rpo, rpoState, job.snapshot.rpoTarget);
      var rtoResult := EvaluatePolicy(rto, rtoState, job.snapshot.rtoTarget);
      var assessment, confidence, _ := WorkerVerdict(job.snapshot.required);
      var row := d.row.(status := Succeeded, completedAt := Some(o.now), rpo := Some(rpo), rto := Some(rto),
                        rpoResult := Some(rpoResult), rtoResult := Some(rtoResult),
                        assessment := Some(assessment), confidence := Some(confidence));
      drills := drills[r.id := d.(row := row, evidence := Some(artifact.sha), report := true,
                                  trace := d.trace + [Committed], basis := Some(Basis(job, r.readyAt, r.staged)))];
      Return(w);
    }

    method DropEvidence(w: nat, o: Outcome)
      requires w in workers
      modifies this
      ensures Now() == StepDelete(old(Now()), w, o)
      ensures w in workers
      ensures workers[w].at == if old(workers)[w].at == DeleteThenFail then FailDecide
                               else if workers[w].live then Cleanup else Done
    {
      var r := workers[w];
      if o.ok && r.job.Some? {
        objects := objects - {EvidenceKey(r.job.value.org, r.id)};
      } else {
        log := log.(undeleted := log.undeleted + {r.id});
      }
      if r.at == DeleteThenFail {
        Move(w, FailDecide);
      } else {
        Return(w);
      }
    }

    /** The compensating delete. */
    method DeleteEvidence(w: nat, ghost s0: State, turns: nat -> Turn, k: nat)
      requires Ran(s0, Turns(w, turns, k)) && w in workers && DeletePoint(workers[w].at)
      modifies this
      ensures old(workers)[w].at == DeleteThenFail ==> Stands(s0, w, turns, k + 1, FailDecide)
      ensures old(workers)[w].at == DeleteThenLeave ==> Left(s0, w, turns, k + 1)
    {
      hide Apply, Replay, Turns, StepDelete;
      Others(w, s0, turns, k);
      var o := turns(k).outcome;
      StepIs(c, Now(), w, o);
      TurnEnds(c, s0, w, turns, k);
      DropEvidence(w, o);
    }

    // ------------------------------------------------------------------------ `run`

    /** The part of `run` up to its return, from turn 0 to turn `n`. */
    method Body(w: nat, ghost s0: State, turns: nat -> Turn) returns (n: nat)
      requires Stands(s0, w, turns, 0, Claim)
      modifies this
      ensures Left(s0, w, turns, n)
    {
      hide Replay, Turns;
      var ok := Transition(w, Preparing, FetchBackup, 1, Load, s0, turns, 0);
      if !ok { return 1; }
      ok := LoadJob(w, s0, turns, 1);
      if !ok {
        SetTerminal(w, Inconclusive, s0, turns, 2);
        return 3;
      }
      n := Provision(w, s0, turns, 2);
    }

    /** Staged backup and sandbox, then on to the restore. */
    method Provision(w: nat, ghost s0: State, turns: nat -> Turn, k: nat) returns (n: nat)
      requires Stands(s0, w, turns, k, Stage)
      modifies this
      ensures Left(s0, w, turns, n)
    {
      hide Replay, Turns;
      var ok := StageBackup(w, s0, turns, k);
      if !ok {
        Fail(w, s0, turns, k + 1);
        return k + 3;
      }
      ok := MakeSandboxFor(w, s0, turns, k + 1);
      if !ok {
        Fail(w, s0, turns, k + 2);
        return k + 4;
      }
      ok := PersistSandbox(w, s0, turns, k + 2);
      if !ok {
        Fail(w, s0, turns, k + 3);
        return k + 5;
      }
      ok := RecordStep(w, s0, turns, k + 3);
      if !ok { return k + 4; }
      n := Recover(w, s0, turns, k + 4);
    }

    /** From the restore to the final transaction. */
    method Recover(w: nat, ghost s0: State, turns: nat -> Turn, k: nat) returns (n: nat)
      requires Stands(s0, w, turns, k, ToRestoring)
      modifies this
      ensures Left(s0, w, turns, n)
    {
      hide Replay, Turns;
      var ok := Transition(w, Restoring, RestorePostgres, 3, Restore, s0, turns, k);
      if !ok { return k + 1; }
      ok := Work(w, Restored, ToValidating, s0, turns, k + 1);
      if !ok {
        Fail(w, s0, turns, k + 2);
        return k + 4;
      }
      ok := Transition(w, Validating, PostgresConnectivity, 4, Connect, s0, turns, k + 2);
      if !ok { return k + 3; }
      ok := Work(w, Connected, ToFinalizing, s0, turns, k + 3);
      if !ok {
        Fail(w, s0, turns, k + 4);
        return k + 6;
      }
      ok := Transition(w, Finalizing, CollectEvidence, 5, PutEvidence, s0, turns, k + 4);
      if !ok { return k + 5; }
      n := Conclude(w, s0, turns, k + 5);
    }

    /** From the evidence object to the final transaction. */
    method Conclude(w: nat, ghost s0: State, turns: nat -> Turn, k: nat) returns (n: nat)
      requires Stands(s0, w, turns, k, PutEvidence)
      modifies this
      ensures Left(s0, w, turns, n)
    {
      hide Replay, Turns;
      var ok := StoreEvidence(w, s0, turns, k);
      if !ok {
        Fail(w, s0, turns, k + 1);
        return k + 3;
      }
      ok := DestroyNow(w, s0, turns, k + 1);
      if !ok {
        DeleteEvidence(w, s0, turns, k + 2);
        Fail(w, s0, turns, k + 3);
        return k + 5;
      }
      ok := CommitEvidence(w, s0, turns, k + 2);
      if ok { return k + 3; }
      DeleteEvidence(w, s0, turns, k + 3);
      return k + 4;
    }

    /** The deferred cleanup of a live sandbox. */
    method CleanUp(w: nat, o: Outcome)
      requires w in workers
      modifies this`side, this`workers
      ensures Now() == StepCleanup(old(Now()), w, o)
      ensures w in workers && workers[w].at == Done
    {
      var r := workers[w];
      var d := Destroyed(side.docker, Names(r.base), o.faults).0;
      var left := Residue(d, r.base);
      side := side.(docker := d, leaked := if left then side.leaked + {r.base} else side.leaked - {r.base},
                    faulty := side.faulty || o.faults != NO_FAULTS);
      workers := workers[w := r.(at := Done, live := false)];
    }

    method DeferredCleanup(w: nat, ghost s0: State, turns: nat -> Turn, k: nat)
      requires Stands(s0, w, turns, k, Cleanup)
      modifies this
      ensures Stands(s0, w, turns, k + 1, Done)
    {
      hide Apply, Replay, Turns, StepCleanup;
      Others(w, s0, turns, k);
      var o := turns(k).outcome;
      StepIs(c, Now(), w, o);
      TurnEnds(c, s0, w, turns, k);
      CleanUp(w, o);
    }

    /** `run` of a job, among arbitrary other activity and with arbitrary outcomes of its
        calls: it performs exactly the protocol's turns until its worker is free again, and
        leaves a drill it claimed terminal, excused or about to be cancelled, with nothing
        of its sandbox left unless a removal failed, and its evidence object there exactly
        on success unless the compensating delete failed. */
    method Run(w: nat, turns: nat -> Turn) returns (n: nat)
      requires c.configured && w in workers && workers[w].at == Claim
      requires Inv(c, Now()) && WritersSane(Now()) && Progress(Now()) && Clean(c, Now())
      modifies this
      ensures Now() == Replay(c, old(Now()), Turns(w, turns, n)) && w !in workers
      ensures Inv(c, Now()) && WritersSane(Now()) && Progress(Now()) && Clean(c, Now())
      ensures var id := old(workers)[w].id; id in drills && drills[id].claimant == Some(w) ==> Finished(id)
    {
      hide Inv, WritersSane, Progress, Clean;
      ghost var s0 := Now();
      var id := workers[w].id;
      n := Body(w, s0, turns);
      if workers[w].at == Cleanup {
        DeferredCleanup(w, s0, turns, n);
        n := n + 1;
      }
      Unregister(w, s0, turns, n);
      n := n + 1;
      ghost var trace := Turns(w, turns, n);
      KeepReplay(c, s0, trace);
      SaneReplay(c, s0, trace);
      ProgressReplay(c, s0, trace);
      CleanReplay(c, s0, trace);
      if id in drills && drills[id].claimant == Some(w) {
        FinishedRun(id, w);
      }
    }

    /** The deferred removal from the registry; the worker is free again. */
    method Unregister(w: nat, ghost s0: State, turns: nat -> Turn, k: nat)
      requires Stands(s0, w, turns, k, Done)
      modifies this
      ensures Ran(s0, Turns(w, turns, k + 1)) && w !in workers
    {
      Others(w, s0, turns, k);
      ghost var s := Now();
      ghost var o := turns(k).outcome;
      pool := pool.(running := pool.running - {workers[w].id});
      workers := workers - {w};
      assert Now() == StepRun(c, s, w, o);
      TurnEnds(c, s0, w, turns, k);
    }

    /** `run` in a pool without executor or object store: a transition whose result is
        ignored, then the terminal write. Once that write got through, the drill is terminal
        and stays so. */
    method RunWithoutExecutor(w: nat, turns: nat -> Turn) returns (written: bool)
      requires !c.configured && w in workers && workers[w].at == PrepareOnly && !workers[w].live
      requires WritersSane(Now())
      modifies this
      ensures Now() == Replay(c, old(Now()), Turns(w, turns, 3)) && w !in workers
      ensures var id := old(workers)[w].id; written ==> id in drills && Terminal(drills[id].row.status)
    {
      ghost var s0 := Now();
      var id := workers[w].id;
      TryPrepare(w, s0, turns, 0);
      written := GiveUpNow(w, s0, turns, 1);
      ghost var s1 := Now();
      Unregister(w, s0, turns, 2);
      ReplayAppend(c, s0, Turns(w, turns, 2), Played(w, turns(2)));
      assert Turns(w, turns, 3) == Turns(w, turns, 2) + Played(w, turns(2));
      SaneReplay(c, s0, Turns(w, turns, 2));
      if written { FrozenFrom(c, s1, Played(w, turns(2)), id); }
    }

    method TryPrepare(w: nat, ghost s0: State, turns: nat -> Turn, k: nat)
      requires Stands(s0, w, turns, k, PrepareOnly)
      modifies this
      ensures Stands(s0, w, turns, k + 1, GiveUp)
      ensures workers[w].id == old(workers)[w].id && workers[w].live == old(workers)[w].live
    {
      Others(w, s0, turns, k);
      var o := turns(k).outcome;
      PrepareIsStep(c, Now(), w, o);
      TurnEnds(c, s0, w, turns, k);
      var _ := UpdateStatus(w, Preparing, PrepareDrill, 1, GiveUp, o);
      Move(w, GiveUp);
    }

    /** `written` says that the update reached an existing row. */
    method GiveUpNow(w: nat, ghost s0: State, turns: nat -> Turn, k: nat) returns (written: bool)
      requires Stands(s0, w, turns, k, GiveUp) && !workers[w].live
      modifies this
      ensures Stands(s0, w, turns, k + 1, Done)
      ensures written ==> old(workers)[w].id in drills && Terminal(drills[old(workers)[w].id].row.status)
    {
      hide Apply, Replay, Turns, StepTerminate;
      Others(w, s0, turns, k);
      var o := turns(k).outcome;
      GiveUpIsStep(c, Now(), w, o);
      TurnEnds(c, s0, w, turns, k);
      written := o.ok && workers[w].id in drills;
      WriteTerminal(w, Inconclusive, o.now, o.ok);
    }

    /** What is true of a drill whose claimant is gone. */
    ghost predicate Finished(id: string)
      reads this
      requires id in drills
    {
      var d := drills[id];
      var key := EvidenceKey(d.row.org, id);
      && Covered(Now(), id)
      && (id !in log.undeleted ==> (key in objects <==> d.row.status == Succeeded))
      && (d.row.status != Succeeded ==> key !in artifacts && d.evidence == None && !d.report)
      && (forall b :: b in side.bases && side.bases[b] == id && Residue(side.docker, b) && !Residue(c.docker, b)
            ==> b in side.leaked && side.faulty)
    }

    lemma FinishedRun(id: string, w: nat)
      requires Inv(c, Now()) && Progress(Now()) && Clean(c, Now())
      requires id in drills && drills[id].claimant == Some(w) && w !in workers
      ensures Finished(id)
    {
      var s := Now();
      assert DrillOk(c, s, id);
      assert Covered(s, id) || Working(s, id);
      forall b | b in side.bases && side.bases[b] == id && Residue(side.docker, b) && !Residue(c.docker, b)
        ensures b in side.leaked && side.faulty
      {
        assert !LiveBase(s, b);
      }
    }
  }
}
