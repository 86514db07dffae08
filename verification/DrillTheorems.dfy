/** What every reachable state of a configured pool guarantees about a drill. */
module DrillTheorems {
  import opened Prelude
  import opened Domain
  import opened Sandbox
  import opened Drills
  import opened DrillInvariant
  import opened DrillSteps
  import opened DrillSafety
  import opened DrillFrames
  import opened DrillDocker

  // ------------------------------------------------------------- rows and evidence

  /** A drill is SUCCEEDED exactly when its evidence row, its report and its artifact row
      exist; then the object at its key is present with the recorded size and hash. */
  lemma SucceededExactlyWithEvidence(c: Config, objects: map<string, Bytes>, actions: seq<Action>, id: string)
    requires c.configured && NoEvidenceYet(objects) && id in Replay(c, Initial(c, objects), actions).drills
    ensures var s := Replay(c, Initial(c, objects), actions); var d := s.drills[id]; var key := EvidenceKey(d.row.org, id);
      && (d.row.status == Succeeded <==> d.evidence.Some?)
      && (d.row.status == Succeeded <==> d.report)
      && (d.row.status == Succeeded <==> key in s.artifacts)
      && (d.row.status == Succeeded ==>
            && key in s.objects && s.artifacts[key] == Artifact(id, |s.objects[key]|, c.hash(s.objects[key]))
            && d.evidence == Some(c.hash(s.objects[key])))
  {
    Reachable(c, objects, actions);
    assert DrillOk(c, Replay(c, Initial(c, objects), actions), id);
  }

  /** The columns of every row agree with its status. */
  lemma ColumnsAlwaysAgree(c: Config, objects: map<string, Bytes>, actions: seq<Action>, id: string)
    requires c.configured && NoEvidenceYet(objects) && id in Replay(c, Initial(c, objects), actions).drills
    ensures ColumnsAgree(Replay(c, Initial(c, objects), actions).drills[id].row)
  {
    Reachable(c, objects, actions);
    assert DrillOk(c, Replay(c, Initial(c, objects), actions), id);
  }

  /** Two runs hold the claim of the same drill. */
  predicate SameClaim(a: Run, b: Run) { a.claimed && b.claimed && a.id == b.id }

  /** At most one run ever gets past the claim of a drill, two runs in flight never hold the
      same claim, and no ON CONFLICT branch is ever taken. */
  lemma ClaimedAtMostOnce(c: Config, objects: map<string, Bytes>, actions: seq<Action>)
    requires c.configured && NoEvidenceYet(objects)
    ensures var s := Replay(c, Initial(c, objects), actions);
      && (forall id :: id in s.drills ==> s.drills[id].claims <= 1)
      && (forall v, w :: v in s.workers && w in s.workers && SameClaim(s.workers[v], s.workers[w]) ==> v == w)
      && s.log.conflicts == 0
  {
    Reachable(c, objects, actions);
    var s := Replay(c, Initial(c, objects), actions);
    forall id | id in s.drills ensures s.drills[id].claims <= 1 { assert DrillOk(c, s, id); }
    forall v, w | v in s.workers && w in s.workers && SameClaim(s.workers[v], s.workers[w]) ensures v == w {
      assert RunOk(c, s, v) && RunOk(c, s, w);
    }
  }

  /** The recorded steps are always the first `k` of the fixed sequence, with `k` as the
      status requires; a success has passed every milestone in order, and its policy
      results and assessment are those of the measurements taken by its run. */
  lemma TimelineAndJourney(c: Config, objects: map<string, Bytes>, actions: seq<Action>, id: string)
    requires c.configured && NoEvidenceYet(objects) && id in Replay(c, Initial(c, objects), actions).drills
    ensures var d := Replay(c, Initial(c, objects), actions).drills[id];
      && FirstSteps(d.steps, Recorded(d.steps)) && StepsFit(d.row.status, Recorded(d.steps))
      && SuccessEarned(c, d)
      && (d.row.status == Succeeded ==>
            && d.steps == map[1 := FetchBackup, 2 := CreateSandbox, 3 := RestorePostgres, 4 := PostgresConnectivity,
                              5 := CollectEvidence]
            && d.trace == [IntegrityChecked, SandboxReady, Restored, Connected, EvidenceStored, SandboxGone, Committed])
  {
    Reachable(c, objects, actions);
    var d := Replay(c, Initial(c, objects), actions).drills[id];
    assert DrillOk(c, Replay(c, Initial(c, objects), actions), id);
    if d.row.status == Succeeded { FiveSteps(d.steps); }
    hide FirstSteps, IntegrityHolds;
  }

  lemma FiveSteps(steps: map<int, StepName>)
    requires FirstSteps(steps, Recorded(steps)) && Recorded(steps) == 5
    ensures steps == map[1 := FetchBackup, 2 := CreateSandbox, 3 := RestorePostgres, 4 := PostgresConnectivity,
                         5 := CollectEvidence]
  {
    var all := map[1 := FetchBackup, 2 := CreateSandbox, 3 := RestorePostgres, 4 := PostgresConnectivity,
                   5 := CollectEvidence];
    assert all.Keys == {1, 2, 3, 4, 5} && TIMELINE[4] == CollectEvidence;
    forall i: int ensures i in steps <==> i in all {
      assert i in all.Keys <==> i == 1 || i == 2 || i == 3 || i == 4 || i == 5;
    }
    assert steps.Keys == all.Keys;
  }

  // --------------------------------------------------------- backups and validations

  /** The checksum is absent or the one of the content, in either case of letters. */
  predicate ChecksumMatches(c: Config, content: Bytes, checksum: string) {
    checksum == "" || EqualHash(checksum, c.hash(content))
  }

  /** A backup is accepted exactly when it is within the limit and matches its checksum; at the
      largest 64-bit limit only an empty backup is. */
  lemma BackupAcceptedExactly(c: Config, content: Bytes, checksum: string)
    ensures IntegrityHolds(c, content, checksum)
       <==> && ChecksumMatches(c, content, checksum)
            && if ArtifactLimit(c) < MAX_INT64 then |content| <= ArtifactLimit(c) else content == []
  {
    var limit := ArtifactLimit(c);
    assert limit >= 0;
    assert Staged(|content|, limit) == |content| <==> (if limit < MAX_INT64 then |content| <= limit + 1 else content == []);
  }

  /** Hexadecimal as `hex.EncodeToString` writes it. */
  predicate LowerHex(s: string) {
    forall i :: 0 <= i < |s| ==> '0' <= s[i] <= '9' || 'a' <= s[i] <= 'f'
  }

  predicate UpperHex(s: string) {
    forall i :: 0 <= i < |s| ==> '0' <= s[i] <= '9' || 'A' <= s[i] <= 'F'
  }

  function Capital(c: char): char { if 'a' <= c <= 'f' then (c as int - 32) as char else c }

  function Capitals(s: string): (r: string)
    ensures |r| == |s| && forall i :: 0 <= i < |s| ==> r[i] == Capital(s[i])
  {
    seq(|s|, i requires 0 <= i < |s| => Capital(s[i]))
  }

  /** A checksum matches a hash exactly when it is the hash character by character, capital
      letters allowed: written in lower case it is the hash, in upper case its capitals. */
  lemma HashMatchesExactly(checksum: string, hash: string)
    requires LowerHex(hash)
    ensures EqualHash(checksum, hash)
       <==> |checksum| == |hash| && forall i :: 0 <= i < |hash| ==> checksum[i] == hash[i] || checksum[i] == Capital(hash[i])
    ensures LowerHex(checksum) ==> (EqualHash(checksum, hash) <==> checksum == hash)
    ensures UpperHex(checksum) ==> (EqualHash(checksum, hash) <==> checksum == Capitals(hash))
  {
    if |checksum| == |hash| {
      forall i | 0 <= i < |hash|
        ensures Lower(checksum[i]) == Lower(hash[i]) <==> checksum[i] == hash[i] || checksum[i] == Capital(hash[i])
      {
        FoldedCharacter(checksum[i], hash[i]);
      }
      forall i | 0 <= i < |hash| && LowerHex(checksum)
        ensures Lower(checksum[i]) == Lower(hash[i]) <==> checksum[i] == hash[i]
      {
        FoldedCharacter(checksum[i], hash[i]);
      }
      forall i | 0 <= i < |hash| && UpperHex(checksum)
        ensures Lower(checksum[i]) == Lower(hash[i]) <==> checksum[i] == Capitals(hash)[i]
      {
        FoldedCharacter(checksum[i], hash[i]);
      }
    }
  }

  lemma FoldedCharacter(c: char, h: char)
    requires '0' <= h <= '9' || 'a' <= h <= 'f'
    ensures Lower(c) == Lower(h) <==> c == h || c == Capital(h)
    ensures '0' <= c <= '9' || 'a' <= c <= 'f' ==> (Lower(c) == Lower(h) <==> c == h)
    ensures '0' <= c <= '9' || 'A' <= c <= 'F' ==> (Lower(c) == Lower(h) <==> c == Capital(h))
  {}

  /** The integrity check on the characters and bytes themselves: a backup within the limit of
      one gibibyte, or the configured one, whose checksum is given in one case of letters, is
      accepted exactly when the checksum is its hash in that case, and no other is. */
  lemma CorruptBackupRefused(c: Config, content: Bytes, checksum: string)
    requires LowerHex(c.hash(content)) && checksum != "" && (LowerHex(checksum) || UpperHex(checksum))
    ensures
      var limit := if c.maxArtifactBytes <= 0 then 1_073_741_824 else c.maxArtifactBytes;
      IntegrityHolds(c, content, checksum)
      <==> && (if LowerHex(checksum) then checksum == c.hash(content) else checksum == Capitals(c.hash(content)))
           && (if limit < 9_223_372_036_854_775_807 then |content| <= limit else content == [])
  {
    BackupAcceptedExactly(c, content, checksum);
    HashMatchesExactly(checksum, c.hash(content));
    hide EqualHash, IntegrityHolds;
  }

  /** A drill succeeds only on a backup that was within the limit and matched its checksum, with
      the seconds, results and assessment that follow from its own times; and at the largest
      limit never on a backup with any bytes in it. */
  lemma SuccessRestedOnCheckedBackup(c: Config, objects: map<string, Bytes>, actions: seq<Action>, id: string)
    requires c.configured && NoEvidenceYet(objects)
    requires var s := Replay(c, Initial(c, objects), actions); id in s.drills && s.drills[id].row.status == Succeeded
    ensures var d := Replay(c, Initial(c, objects), actions).drills[id];
      && d.basis.Some?
      && var Basis(job, readyAt, staged) := d.basis.value;
      && |staged| <= ArtifactLimit(c) && ChecksumMatches(c, staged, job.snapshot.checksum)
      && (ArtifactLimit(c) >= MAX_INT64 ==> staged == [])
      && d.row.rpo == Some(MeasureRPO(job.startedAt, job.snapshot.completedAt).0)
      && d.row.rto == Some(MeasureRTO(job.startedAt, readyAt).0)
  {
    Reachable(c, objects, actions);
    var d := Replay(c, Initial(c, objects), actions).drills[id];
    assert DrillOk(c, Replay(c, Initial(c, objects), actions), id);
    BackupAcceptedExactly(c, d.basis.value.staged, d.basis.value.job.snapshot.checksum);
  }

  /** The validations a run has completed. */
  function Validated(trace: seq<Milestone>): set<string> {
    if Connected in trace then {CONNECTIVITY} else {}
  }

  /** The milestones a run has passed when its recovery clock stops. */
  function BeforeClock(trace: seq<Milestone>): seq<Milestone> {
    if |trace| < 4 then trace else trace[..4]
  }

  /** For a drill that succeeded, the clock of the measured RTO stopped after every required
      validation exactly when no required check is without a typed profile, that is exactly
      when the assessment is VERIFIED. */
  lemma ClockAfterValidationsExactly(c: Config, objects: map<string, Bytes>, actions: seq<Action>, id: string)
    requires c.configured && NoEvidenceYet(objects)
    requires var s := Replay(c, Initial(c, objects), actions); id in s.drills && s.drills[id].row.status == Succeeded
    ensures var d := Replay(c, Initial(c, objects), actions).drills[id];
      && d.basis.Some?
      && var required := d.basis.value.job.snapshot.required;
      && ((forall check :: check in required ==> check in Validated(BeforeClock(d.trace)))
          <==> d.row.assessment == Some(Verified))
      && (d.row.assessment == Some(Verified) <==> Unsupported(required) == [])
  {
    Reachable(c, objects, actions);
    var d := Replay(c, Initial(c, objects), actions).drills[id];
    assert DrillOk(c, Replay(c, Initial(c, objects), actions), id);
    AllSupported(d.basis.value.job.snapshot.required);
    assert d.trace[..4] == [IntegrityChecked, SandboxReady, Restored, Connected];
    assert Validated(BeforeClock(d.trace)) == {CONNECTIVITY};
  }

  // ------------------------------------------------------------------- compensation

  /** Once no run holds an evidence object for the drill, the object exists exactly when the
      drill succeeded, provided its compensating delete did not fail; and without success
      no artifact, evidence or report row is visible. */
  lemma EvidenceCompensated(c: Config, objects: map<string, Bytes>, actions: seq<Action>, id: string)
    requires c.configured && NoEvidenceYet(objects)
    requires var s := Replay(c, Initial(c, objects), actions);
      id in s.drills && !Holder(s, id) && id !in s.log.undeleted
    ensures var s := Replay(c, Initial(c, objects), actions); var d := s.drills[id]; var key := EvidenceKey(d.row.org, id);
      && (key in s.objects <==> d.row.status == Succeeded)
      && (d.row.status != Succeeded ==> key !in s.artifacts && d.evidence == None && !d.report)
  {
    Reachable(c, objects, actions);
    assert DrillOk(c, Replay(c, Initial(c, objects), actions), id);
  }

  /** What a run at one of the evidence points may do to the object store. */
  lemma EvidenceWrites(c: Config, s: State, w: nat, o: Outcome)
    requires Here(c, s, w) && ObjectPoint(s.workers[w].at)
    ensures var r := s.workers[w]; var t := StepRun(c, s, w, o);
      && r.id in s.drills && s.drills[r.id].row.status != Succeeded
      && (forall k :: k in s.objects && k != EvidenceKey(s.drills[r.id].row.org, r.id)
            ==> k in t.objects && t.objects[k] == s.objects[k])
  {
    assert RunOk(c, s, w);
  }

  lemma ObjectKept(c: Config, s: State, a: Action, id: string)
    requires Inv(c, s) && id in s.drills && s.drills[id].row.status == Succeeded
    ensures var key := EvidenceKey(s.drills[id].row.org, id); var t := Apply(c, s, a);
      key in s.objects && key in t.objects && t.objects[key] == s.objects[key]
  {
    assert DrillOk(c, s, id);
    if a.Step? {
      if a.w in s.workers { ObjectKeptStep(c, s, a.w, a.o, id); }
    } else {
      ActorObjects(c, s, a);
    }
  }

  lemma ActorObjects(c: Config, s: State, a: Action)
    requires !a.Step?
    ensures Apply(c, s, a).objects == s.objects
  {
    match a
    case CreateDrill(org, header, uuid, id, assetExists) =>
    case CancelRow(org, id, ok, now) =>
    case CancelContext(org, id) =>
    case Shutdown =>
    case Dequeue(w) =>
    case Submit(id) =>
    case Resubmit(id) =>
    case Timeout(w) =>
  }

  lemma ObjectKeptStep(c: Config, s: State, w: nat, o: Outcome, id: string)
    requires Inv(c, s) && id in s.drills && s.drills[id].row.status == Succeeded && DrillOk(c, s, id) && w in s.workers
    ensures var key := EvidenceKey(s.drills[id].row.org, id); var t := StepRun(c, s, w, o);
      key in s.objects && key in t.objects && t.objects[key] == s.objects[key]
  {
    assert RunOk(c, s, w);
    if ObjectPoint(s.workers[w].at) {
      EvidenceWrites(c, s, w, o);
      assert DrillOk(c, s, s.workers[w].id);
      KeysDiffer(c, s, id, s.workers[w].id);
    } else if s.workers[w].at == Done {
      DoneObjects(c, s, w, o);
    } else {
      ConfiguredPoint(c, s, w);
      RunFrame(c, s, w, o);
    }
  }

  lemma DoneObjects(c: Config, s: State, w: nat, o: Outcome)
    requires w in s.workers && s.workers[w].at == Done
    ensures StepRun(c, s, w, o).objects == s.objects
  {}

  lemma {:induction false} ObjectKeptReplay(c: Config, s: State, actions: seq<Action>, id: string)
    requires Inv(c, s) && WritersSane(s) && c.configured && id in s.drills && s.drills[id].row.status == Succeeded
    ensures var key := EvidenceKey(s.drills[id].row.org, id); var t := Replay(c, s, actions);
      key in s.objects && key in t.objects && t.objects[key] == s.objects[key]
    decreases |actions|
  {
    assert DrillOk(c, s, id);
    if actions != [] {
      var t := Apply(c, s, actions[0]);
      ObjectKept(c, s, actions[0], id);
      KeepAction(c, s, actions[0]);
      KeepSane(c, s, actions[0]);
      FrozenStep(c, s, actions[0], id);
      ObjectKeptReplay(c, t, actions[1..], id);
    }
  }

  /** No later action, and in particular no compensating delete of any run, ever removes or
      changes the evidence object of a drill that succeeded. */
  lemma SucceededObjectSurvives(c: Config, objects: map<string, Bytes>, before: seq<Action>, after: seq<Action>, id: string)
    requires c.configured && NoEvidenceYet(objects)
    requires var s := Replay(c, Initial(c, objects), before); id in s.drills && s.drills[id].row.status == Succeeded
    ensures var s := Replay(c, Initial(c, objects), before); var t := Replay(c, Initial(c, objects), before + after);
      var key := EvidenceKey(s.drills[id].row.org, id);
      key in s.objects && key in t.objects && t.objects[key] == s.objects[key]
  {
    Reachable(c, objects, before);
    SaneReplay(c, Initial(c, objects), before);
    ReplayAppend(c, Initial(c, objects), before, after);
    ObjectKeptReplay(c, Replay(c, Initial(c, objects), before), after, id);
  }

  // ------------------------------------------------------------ cancelled before claim

  /** A drill whose cancellation commits before any run claims it never gets a claim, a
      step, a milestone, a sandbox or an evidence object. */
  lemma CancelledBeforeClaim(c: Config, objects: map<string, Bytes>, before: seq<Action>, after: seq<Action>, id: string)
    requires c.configured && NoEvidenceYet(objects) && Consistent(c.docker)
    requires var s := Replay(c, Initial(c, objects), before);
      id in s.drills && s.drills[id].row.status == Cancelled && s.drills[id].claims == 0
    ensures var t := Replay(c, Initial(c, objects), before + after);
      && id in t.drills && t.drills[id].claims == 0 && t.drills[id].row.status == Cancelled
      && Recorded(t.drills[id].steps) == 0 && t.drills[id].trace == []
      && (forall b :: b in t.side.bases ==> t.side.bases[b] != id)
      && EvidenceKey(t.drills[id].row.org, id) !in t.objects
  {
    var s0 := Initial(c, objects);
    SaneReplay(c, s0, before);
    ReplayAppend(c, s0, before, after);
    FrozenFrom(c, Replay(c, s0, before), after, id);
    Reachable(c, objects, before + after);
    CleanReplay(c, s0, before + after);
    var t := Replay(c, s0, before + after);
    assert DrillOk(c, t, id);
    assert !Holder(t, id);
  }

  // ------------------------------------------------------------- the route to success

  /** The statuses a drill goes through from now on, without repetitions. */
  function Statuses(c: Config, s: State, actions: seq<Action>, id: string): seq<DrillStatus>
    requires id in s.drills
    decreases |actions|
  {
    var now := s.drills[id].row.status;
    if actions == [] then [now]
    else
      var t := Apply(c, s, actions[0]);
      if id !in t.drills then [now]
      else
        var later := Statuses(c, t, actions[1..], id);
        if t.drills[id].row.status == now then later else [now] + later
  }

  lemma DrillStays(c: Config, s: State, a: Action, id: string)
    requires id in s.drills
    ensures id in Apply(c, s, a).drills
  {
    if a.Step? {
      if a.w in s.workers { RunEffect(c, s, a.w, a.o); }
    } else {
      OtherEffect(c, s, a);
    }
  }

  lemma {:induction false} StatusesLegal(c: Config, s: State, actions: seq<Action>, id: string)
    requires c.configured && WritersClaimed(c, s) && id in s.drills
    ensures var path := Statuses(c, s, actions, id); var t := Replay(c, s, actions);
      && |path| > 0 && path[0] == s.drills[id].row.status
      && id in t.drills && path[|path| - 1] == t.drills[id].row.status
      && LegalPath(path)
    decreases |actions|
  {
    if actions != [] {
      var t := Apply(c, s, actions[0]);
      StatusStep(c, s, actions[0], id);
      StatusesLegal(c, t, actions[1..], id);
      if t.drills[id].row.status != s.drills[id].row.status {
        ConsLegal(s.drills[id].row.status, Statuses(c, t, actions[1..], id));
      }
    }
  }

  lemma StatusStep(c: Config, s: State, a: Action, id: string)
    requires c.configured && WritersClaimed(c, s) && id in s.drills
    ensures id in Apply(c, s, a).drills && WritersClaimed(c, Apply(c, s, a))
    ensures var x, y := s.drills[id].row.status, Apply(c, s, a).drills[id].row.status; x == y || CanTransition(x, y)
  {
    DrillStays(c, s, a, id);
    KeepWriters(c, s, a);
    if Apply(c, s, a).drills[id].row.status != s.drills[id].row.status {
      EdgeExact(c, s, a, id);
      assert ClosesQueued(s, a, id) ==> WriterOk(c, s, s.workers[a.w]);
    }
  }

  lemma ConsLegal(x: DrillStatus, path: seq<DrillStatus>)
    requires |path| > 0 && CanTransition(x, path[0]) && LegalPath(path)
    ensures LegalPath([x] + path)
  {
    var p := [x] + path;
    forall i | 0 <= i < |p| - 1 ensures CanTransition(p[i], p[i + 1]) {
      if i > 0 { assert CanTransition(path[i - 1], path[i]); }
    }
  }

  /** From a queued drill to a succeeded one there is a single history of statuses, in any
      interleaving with any other activity. */
  lemma RouteToSuccess(c: Config, objects: map<string, Bytes>, before: seq<Action>, after: seq<Action>, id: string)
    requires c.configured
    requires var s := Replay(c, Initial(c, objects), before); id in s.drills && s.drills[id].row.status == Queued
    requires var t := Replay(c, Initial(c, objects), before + after); id in t.drills && t.drills[id].row.status == Succeeded
    ensures Statuses(c, Replay(c, Initial(c, objects), before), after, id)
         == [Queued, Preparing, Restoring, Validating, Finalizing, Succeeded]
  {
    var s := Replay(c, Initial(c, objects), before);
    WritersReplay(c, Initial(c, objects), before);
    ReplayAppend(c, Initial(c, objects), before, after);
    StatusesLegal(c, s, after, id);
    OnlyRouteToSucceeded(Statuses(c, s, after, id));
  }
}
