/** Creation and submission: one drill per idempotency key, one submission per drill, and a
    registry of cancel functions that mirrors the runs in flight. */
module DrillQueue {
  import opened Prelude
  import opened Domain
  import opened Sandbox
  import opened Drills
  import opened DrillInvariant
  import opened DrillSteps
  import opened DrillSafety
  import opened DrillFrames

  // ------------------------------------------------------------- idempotent creation

  ghost predicate RowKeyed(s: State, id: string)
    requires id in s.drills
  {
    var p := (s.drills[id].row.org, s.drills[id].row.key);
    p in s.pool.index && s.pool.index[p] == id
  }

  ghost predicate IndexOk(s: State, p: (string, string))
    requires p in s.pool.index && s.pool.index[p] in s.drills
  {
    var row := s.drills[s.pool.index[p]].row;
    row.org == p.0 && row.key == p.1
  }

  ghost predicate ResponseOk(s: State, r: Response) {
    (r.org, r.key) in s.pool.index && s.pool.index[(r.org, r.key)] == r.id
  }

  /** The unique index mirrors the rows, every response names the drill its key stands for,
      and every drill was announced as created by exactly one response. */
  ghost predicate Idempotent(s: State) {
    && (forall id :: id in s.drills ==> RowKeyed(s, id))
    && (forall p :: p in s.pool.index ==> s.pool.index[p] in s.drills && IndexOk(s, p))
    && (forall i :: 0 <= i < |s.pool.responses| ==> ResponseOk(s, s.pool.responses[i]))
    && (forall id :: id in s.drills ==>
          exists i :: 0 <= i < |s.pool.responses| && s.pool.responses[i].id == id && s.pool.responses[i].created)
    && (forall i, j :: 0 <= i < j < |s.pool.responses| && s.pool.responses[i].created && s.pool.responses[j].created
          ==> s.pool.responses[i].id != s.pool.responses[j].id)
  }

  /** A repeated request is answered with the drill its key already names. */
  lemma IdempotentRepeat(s: State, t: State, r: Response)
    requires Idempotent(s) && ResponseOk(s, r) && !r.created
    requires t.drills == s.drills && t.pool.index == s.pool.index
    requires t.pool.responses == s.pool.responses + [r]
    ensures Idempotent(t)
  {
    var n := |s.pool.responses|;
    assert forall i :: 0 <= i < n ==> t.pool.responses[i] == s.pool.responses[i];
    RepeatedResponses(s, t, r);
    forall d | d in t.drills
      ensures RowKeyed(t, d)
      ensures exists i :: 0 <= i < |t.pool.responses| && t.pool.responses[i].id == d && t.pool.responses[i].created
    {
      assert RowKeyed(s, d);
      var i :| 0 <= i < n && s.pool.responses[i].id == d && s.pool.responses[i].created;
      assert t.pool.responses[i].id == d;
    }
    forall p | p in t.pool.index ensures t.pool.index[p] in t.drills && IndexOk(t, p) { assert IndexOk(s, p); }
  }

  lemma RepeatedResponses(s: State, t: State, r: Response)
    requires Idempotent(s) && ResponseOk(s, r) && !r.created
    requires t.pool.index == s.pool.index && t.pool.responses == s.pool.responses + [r]
    ensures forall i :: 0 <= i < |t.pool.responses| ==> ResponseOk(t, t.pool.responses[i])
    ensures forall i, j ::
      0 <= i < j < |t.pool.responses| && t.pool.responses[i].created && t.pool.responses[j].created ==>
        t.pool.responses[i].id != t.pool.responses[j].id
  {
    hide RowKeyed, IndexOk;
    var n := |s.pool.responses|;
    assert forall i :: 0 <= i < n ==> t.pool.responses[i] == s.pool.responses[i];
    forall i | 0 <= i < |t.pool.responses| ensures ResponseOk(t, t.pool.responses[i]) {
      if i < n { assert ResponseOk(s, s.pool.responses[i]); }
    }
  }

  /** A new drill takes a free key and is announced once. */
  lemma IdempotentInsert(s: State, t: State, id: string, d: Drill)
    requires Idempotent(s) && id !in s.drills && (d.row.org, d.row.key) !in s.pool.index
    requires t.drills == s.drills[id := d]
    requires t.pool.index == s.pool.index[(d.row.org, d.row.key) := id]
    requires t.pool.responses == s.pool.responses + [Response(d.row.org, d.row.key, id, true)]
    ensures Idempotent(t)
  {
    var n := |s.pool.responses|;
    assert forall i :: 0 <= i < n ==> t.pool.responses[i] == s.pool.responses[i];
    InsertedResponses(s, t, id, d);
    forall e | e in t.drills
      ensures RowKeyed(t, e)
      ensures exists i :: 0 <= i < |t.pool.responses| && t.pool.responses[i].id == e && t.pool.responses[i].created
    {
      if e == id {
        assert t.pool.responses[n].id == e;
      } else {
        assert RowKeyed(s, e);
        var i :| 0 <= i < n && s.pool.responses[i].id == e && s.pool.responses[i].created;
        assert t.pool.responses[i].id == e;
      }
    }
    forall p | p in t.pool.index ensures t.pool.index[p] in t.drills && IndexOk(t, p) {
      if p in s.pool.index { assert IndexOk(s, p); }
    }
  }

  lemma InsertedResponses(s: State, t: State, id: string, d: Drill)
    requires Idempotent(s) && id !in s.drills && (d.row.org, d.row.key) !in s.pool.index
    requires t.pool.index == s.pool.index[(d.row.org, d.row.key) := id]
    requires t.pool.responses == s.pool.responses + [Response(d.row.org, d.row.key, id, true)]
    ensures forall i :: 0 <= i < |t.pool.responses| ==> ResponseOk(t, t.pool.responses[i])
    ensures forall i, j ::
      0 <= i < j < |t.pool.responses| && t.pool.responses[i].created && t.pool.responses[j].created ==>
        t.pool.responses[i].id != t.pool.responses[j].id
  {
    hide RowKeyed, IndexOk;
    var n := |s.pool.responses|;
    assert forall i :: 0 <= i < n ==> t.pool.responses[i] == s.pool.responses[i];
    forall i | 0 <= i < |t.pool.responses| ensures ResponseOk(t, t.pool.responses[i]) {
      if i < n { assert ResponseOk(s, s.pool.responses[i]); }
    }
    forall i, j | 0 <= i < j < |t.pool.responses| && t.pool.responses[i].created && t.pool.responses[j].created
      ensures t.pool.responses[i].id != t.pool.responses[j].id
    {
      if j == n { assert ResponseOk(s, s.pool.responses[i]); }
    }
  }

  lemma KeepIdempotentCreate(s: State, org: string, header: string, uuid: string, id: string, assetExists: bool)
    requires Idempotent(s)
    ensures Idempotent(ApplyCreate(s, org, header, uuid, id, assetExists))
  {
    var t := ApplyCreate(s, org, header, uuid, id, assetExists);
    var key := if header == "" then uuid else header;
    if (org, key) in s.pool.index {
      IdempotentRepeat(s, t, Response(org, key, s.pool.index[(org, key)], false));
    } else if id in t.drills && id !in s.drills {
      IdempotentInsert(s, t, id, t.drills[id]);
    }
  }

  /** Actions that neither create drills nor change their organisation or key. */
  lemma KeepIdempotentOther(s: State, t: State)
    requires Idempotent(s) && t.drills.Keys == s.drills.Keys
    requires t.pool.index == s.pool.index && t.pool.responses == s.pool.responses
    requires forall i :: i in s.drills ==> t.drills[i].row.org == s.drills[i].row.org && t.drills[i].row.key == s.drills[i].row.key
    ensures Idempotent(t)
  {
    forall d | d in t.drills ensures RowKeyed(t, d) { assert RowKeyed(s, d); }
    forall p | p in t.pool.index ensures t.pool.index[p] in t.drills && IndexOk(t, p) { assert IndexOk(s, p); }
    forall i | 0 <= i < |t.pool.responses| ensures ResponseOk(t, t.pool.responses[i]) {
      assert ResponseOk(s, s.pool.responses[i]);
    }
  }

  // ------------------------------------------------- one submission, one registration

  ghost predicate NoRepeats(xs: seq<string>) {
    forall i, j :: 0 <= i < j < |xs| ==> xs[i] != xs[j]
  }

  ghost predicate RunQueued(c: Config, s: State, w: nat)
    requires w in s.workers
  {
    var id := s.workers[w].id;
    && w < c.concurrency && id in s.drills && id !in s.pool.created && id !in s.pool.jobs
    && id in s.pool.running && s.pool.running[id] == w
  }

  ghost predicate QueueOk(c: Config, s: State) {
    && |s.pool.jobs| <= QUEUE_CAPACITY && NoRepeats(s.pool.jobs)
    && (forall id :: id in s.pool.created ==> id in s.drills)
    && (forall id :: id in s.pool.jobs ==> id in s.drills && id !in s.pool.created)
    && (forall w :: w in s.workers ==> RunQueued(c, s, w))
    && (forall id :: id in s.pool.running ==> s.pool.running[id] in s.workers && s.workers[s.pool.running[id]].id == id)
  }

  lemma QueueAfterStep(c: Config, s: State, t: State, w: nat)
    requires QueueOk(c, s) && StepEffect(s, t, w) && w in t.workers && t.pool == s.pool
    ensures QueueOk(c, t)
  {
    forall v | v in t.workers ensures RunQueued(c, t, v) { assert RunQueued(c, s, v); }
  }

  lemma QueueAfterDone(c: Config, s: State, w: nat, o: Outcome)
    requires QueueOk(c, s) && w in s.workers && s.workers[w].at == Done
    ensures QueueOk(c, StepRun(c, s, w, o))
  {
    var t := StepRun(c, s, w, o);
    assert RunQueued(c, s, w);
    forall v | v in t.workers ensures RunQueued(c, t, v) { assert RunQueued(c, s, v); }
  }

  lemma QueueAfterCreate(c: Config, s: State, org: string, header: string, uuid: string, id: string, assetExists: bool)
    requires QueueOk(c, s)
    ensures QueueOk(c, ApplyCreate(s, org, header, uuid, id, assetExists))
  {
    var t := ApplyCreate(s, org, header, uuid, id, assetExists);
    forall v | v in t.workers ensures RunQueued(c, t, v) { assert RunQueued(c, s, v); }
  }

  lemma QueueAfterSubmit(c: Config, s: State, id: string)
    requires QueueOk(c, s) && id in s.pool.created
    ensures QueueOk(c, Enqueue(Taken(s, id), id))
  {
    hide RunQueued;
    var t := Enqueue(Taken(s, id), id);
    forall v | v in t.workers ensures RunQueued(c, t, v) { SubmitLeavesRun(c, s, id, v); }
  }

  lemma SubmitLeavesRun(c: Config, s: State, id: string, v: nat)
    requires v in s.workers && RunQueued(c, s, v) && id in s.pool.created
    ensures RunQueued(c, Enqueue(Taken(s, id), id), v)
  {}

  lemma QueueAfterDequeue(c: Config, s: State, w: nat)
    requires QueueOk(c, s)
    ensures QueueOk(c, ApplyDequeue(c, s, w))
  {
    var t := ApplyDequeue(c, s, w);
    if !(w >= c.concurrency || w in s.workers || s.pool.jobs == []) {
      assert s.pool.jobs[0] in s.pool.jobs;
      forall id | id in t.pool.jobs ensures id in s.pool.jobs && id != s.pool.jobs[0] {
        var k :| 0 <= k < |t.pool.jobs| && t.pool.jobs[k] == id;
        assert s.pool.jobs[k + 1] == id;
      }
      forall v | v in t.workers ensures RunQueued(c, t, v) {
        if v != w { assert RunQueued(c, s, v); }
      }
    }
  }

  lemma QueueAfterQuiet(c: Config, s: State, t: State)
    requires QueueOk(c, s) && t.drills.Keys == s.drills.Keys && t.workers.Keys == s.workers.Keys
    requires forall w :: w in s.workers ==> t.workers[w].id == s.workers[w].id
    requires t.pool.jobs == s.pool.jobs && t.pool.running == s.pool.running && t.pool.created == s.pool.created
    ensures QueueOk(c, t)
  {
    forall v | v in t.workers ensures RunQueued(c, t, v) { assert RunQueued(c, s, v); }
  }

  // ---------------------------------------------------------------------- whole runs

  /** The actions other than creating, submitting, dequeuing and stepping. */
  predicate Signal(a: Action) { a.CancelContext? || a.CancelRow? || a.Timeout? || a.Shutdown? }

  lemma SignalFrame(c: Config, s: State, a: Action)
    requires Signal(a)
    ensures var t := Apply(c, s, a);
      && t.drills.Keys == s.drills.Keys && t.workers.Keys == s.workers.Keys
      && (forall w :: w in s.workers ==> t.workers[w].id == s.workers[w].id)
      && t.pool == s.pool.(cancels := t.pool.cancels, closed := t.pool.closed)
  {
    hide ApplyCancelRow, ApplyCancelContext;
    match a
    case CancelContext(org, id) => CancelContextFrame(s, org, id);
    case CancelRow(org, id, ok, now) => CancelRowFrame(s, org, id, ok, now);
    case Timeout(w) =>
    case Shutdown =>
  }

  lemma CancelContextFrame(s: State, org: string, id: string)
    ensures var t := ApplyCancelContext(s, org, id);
      && t.drills.Keys == s.drills.Keys && t.workers.Keys == s.workers.Keys
      && (forall w :: w in s.workers ==> t.workers[w].id == s.workers[w].id)
      && t.pool == s.pool.(cancels := t.pool.cancels)
  {}

  lemma CancelRowFrame(s: State, org: string, id: string, ok: bool, now: int)
    ensures var t := ApplyCancelRow(s, org, id, ok, now);
      && t.drills.Keys == s.drills.Keys && t.workers == s.workers && t.pool == s.pool.(cancels := t.pool.cancels)
  {
    hide UserCancelled;
  }

  lemma KeepQueue(c: Config, s: State, a: Action)
    requires QueueOk(c, s) && !a.Resubmit?
    ensures QueueOk(c, Apply(c, s, a))
  {
    hide QueueOk;
    match a
    case CreateDrill(org, header, uuid, id, assetExists) => QueueAfterCreate(c, s, org, header, uuid, id, assetExists);
    case Submit(id) => if id in s.pool.created { QueueAfterSubmit(c, s, id); }
    case Dequeue(w) => QueueAfterDequeue(c, s, w);
    case Step(w, o) => if w in s.workers { KeepQueueStep(c, s, w, o); }
    case _ =>
      SignalFrame(c, s, a);
      QueueAfterQuiet(c, s, Apply(c, s, a));
  }

  lemma KeepQueueStep(c: Config, s: State, w: nat, o: Outcome)
    requires QueueOk(c, s) && w in s.workers
    ensures QueueOk(c, StepRun(c, s, w, o))
  {
    hide QueueOk, StepRun, StepEffect;
    if s.workers[w].at == Done {
      QueueAfterDone(c, s, w, o);
    } else {
      RunEffect(c, s, w, o);
      RunFrame(c, s, w, o);
      QueueAfterStep(c, s, StepRun(c, s, w, o), w);
    }
  }

  lemma IdempotentAfterStep(s: State, t: State, w: nat)
    requires Idempotent(s) && WritersSane(s) && StepEffect(s, t, w)
    requires t.pool.index == s.pool.index && t.pool.responses == s.pool.responses
    ensures Idempotent(t)
  {
    KeepIdempotentOther(s, t);
  }

  lemma DonePool(c: Config, s: State, w: nat, o: Outcome)
    requires w in s.workers && s.workers[w].at == Done
    ensures StepRun(c, s, w, o).pool == s.pool.(running := s.pool.running - {s.workers[w].id})
  {}

  lemma IdempotentSubmit(s: State, t: State, id: string)
    requires Idempotent(s) && t == s.(pool := s.pool.(created := t.pool.created))
    ensures Idempotent(Enqueue(t, id))
  {
    hide Idempotent;
    KeepIdempotentOther(s, Enqueue(t, id));
  }

  lemma IdempotentDequeue(c: Config, s: State, w: nat)
    requires Idempotent(s)
    ensures Idempotent(ApplyDequeue(c, s, w))
  {
    hide Idempotent;
    KeepIdempotentOther(s, ApplyDequeue(c, s, w));
  }

  lemma KeepIdempotent(c: Config, s: State, a: Action)
    requires WritersSane(s) && Idempotent(s)
    ensures Idempotent(Apply(c, s, a))
  {
    hide Idempotent, WritersSane;
    match a
    case CreateDrill(org, header, uuid, id, assetExists) => KeepIdempotentCreate(s, org, header, uuid, id, assetExists);
    case Submit(id) => IdempotentSubmit(s, Taken(s, id), id);
    case Resubmit(id) => IdempotentSubmit(s, s, id);
    case Dequeue(w) => IdempotentDequeue(c, s, w);
    case Step(w, o) => if w in s.workers { KeepIdempotentStep(c, s, w, o); }
    case _ => KeepIdempotentSignal(c, s, a);
  }

  lemma KeepIdempotentSignal(c: Config, s: State, a: Action)
    requires Idempotent(s) && Signal(a)
    ensures Idempotent(Apply(c, s, a))
  {
    SignalFrame(c, s, a);
    OtherEffect(c, s, a);
    IdempotentAfterSignal(c, s, Apply(c, s, a));
  }

  lemma IdempotentAfterSignal(c: Config, s: State, t: State)
    requires Idempotent(s) && ActorEffect(c, s, t) && t.drills.Keys == s.drills.Keys
    requires t.pool == s.pool.(cancels := t.pool.cancels, closed := t.pool.closed)
    ensures Idempotent(t)
  {
    KeepIdempotentOther(s, t);
  }

  lemma KeepIdempotentStep(c: Config, s: State, w: nat, o: Outcome)
    requires WritersSane(s) && Idempotent(s) && w in s.workers
    ensures Idempotent(StepRun(c, s, w, o))
  {
    hide Idempotent, WritersSane, StepRun, StepEffect;
    RunEffect(c, s, w, o);
    if s.workers[w].at == Done { DonePool(c, s, w, o); } else { RunFrame(c, s, w, o); }
    IdempotentAfterStep(s, StepRun(c, s, w, o), w);
  }

  lemma {:induction false} IdempotentReplay(c: Config, s: State, actions: seq<Action>)
    requires WritersSane(s) && Idempotent(s)
    ensures Idempotent(Replay(c, s, actions))
    decreases |actions|
  {
    if actions != [] {
      KeepIdempotent(c, s, actions[0]);
      KeepSane(c, s, actions[0]);
      IdempotentReplay(c, Apply(c, s, actions[0]), actions[1..]);
    }
  }

  lemma {:induction false} QueueReplay(c: Config, s: State, actions: seq<Action>)
    requires QueueOk(c, s) && forall a :: a in actions ==> !a.Resubmit?
    ensures QueueOk(c, Replay(c, s, actions))
    decreases |actions|
  {
    if actions != [] {
      KeepQueue(c, s, actions[0]);
      QueueReplay(c, Apply(c, s, actions[0]), actions[1..]);
    }
  }

  // ------------------------------------------------------------------------ theorems

  /** Across any requests, one organisation and idempotency key name one drill, and exactly
      one of the responses for them says that it was created. */
  lemma OneDrillPerKey(c: Config, objects: map<string, Bytes>, actions: seq<Action>, i: nat)
    requires i < |Replay(c, Initial(c, objects), actions).pool.responses|
    ensures var rs := Replay(c, Initial(c, objects), actions).pool.responses;
      && (forall j :: 0 <= j < |rs| && rs[j].org == rs[i].org && rs[j].key == rs[i].key ==> rs[j].id == rs[i].id)
      && (exists j :: 0 <= j < |rs| && rs[j].org == rs[i].org && rs[j].key == rs[i].key && rs[j].created
            && forall k :: 0 <= k < |rs| && rs[k].org == rs[i].org && rs[k].key == rs[i].key && rs[k].created ==> k == j)
  {
    IdempotentReplay(c, Initial(c, objects), actions);
    var s := Replay(c, Initial(c, objects), actions);
    var rs := s.pool.responses;
    assert ResponseOk(s, rs[i]);
    forall j | 0 <= j < |rs| && rs[j].org == rs[i].org && rs[j].key == rs[i].key ensures rs[j].id == rs[i].id {
      assert ResponseOk(s, rs[j]);
    }
    var j :| 0 <= j < |rs| && rs[j].id == rs[i].id && rs[j].created;
    assert ResponseOk(s, rs[j]) && RowKeyed(s, rs[j].id);
    SameKey(s, rs[i], rs[j]);
  }

  lemma SameKey(s: State, a: Response, b: Response)
    requires Idempotent(s) && ResponseOk(s, a) && ResponseOk(s, b) && a.id == b.id
    requires a in s.pool.responses && b in s.pool.responses
    ensures a.org == b.org && a.key == b.key
  {
    assert IndexOk(s, (a.org, a.key)) && IndexOk(s, (b.org, b.key));
  }

  // --------------------------------------------------------------- first in, first out

  /** What a call of `Submit` puts into the queue: nothing when a hundred jobs wait. */
  function Accepts(s: State, a: Action): seq<string> {
    if (a.Resubmit? || (a.Submit? && a.id in s.pool.created)) && |s.pool.jobs| < 100 then [a.id] else []
  }

  /** The drill that a worker starts to run in an action. */
  function Starts(s: State, t: State, a: Action): seq<string> {
    if a.Dequeue? && a.w !in s.workers && a.w in t.workers then [t.workers[a.w].id] else []
  }

  function Accepted(c: Config, s: State, actions: seq<Action>): seq<string> {
    if actions == [] then []
    else
      var n := |actions| - 1;
      Accepted(c, s, actions[..n]) + Accepts(Replay(c, s, actions[..n]), actions[n])
  }

  function Started(c: Config, s: State, actions: seq<Action>): seq<string> {
    if actions == [] then []
    else
      var n := |actions| - 1;
      var u := Replay(c, s, actions[..n]);
      Started(c, s, actions[..n]) + Starts(u, Apply(c, u, actions[n]), actions[n])
  }

  lemma QueueMoves(c: Config, s: State, a: Action)
    ensures var t := Apply(c, s, a); Starts(s, t, a) + t.pool.jobs == s.pool.jobs + Accepts(s, a)
  {
    hide StepRun;
    if Signal(a) {
      SignalFrame(c, s, a);
    } else if a.Step? && a.w in s.workers {
      if s.workers[a.w].at == Done { DonePool(c, s, a.w, a.o); } else { RunFrame(c, s, a.w, a.o); }
    }
  }

  /** Whatever is submitted, also repeatedly, is run once per accepted submission and in the
      order of the submissions: the runs started so far and the jobs that wait are together
      exactly what was accepted. */
  lemma {:induction false} FirstInFirstOut(c: Config, objects: map<string, Bytes>, actions: seq<Action>)
    ensures var s := Initial(c, objects); Started(c, s, actions) + Replay(c, s, actions).pool.jobs == Accepted(c, s, actions)
    decreases |actions|
  {
    var s := Initial(c, objects);
    if actions != [] {
      hide Apply, Starts, Accepts, Initial;
      var n := |actions| - 1;
      var u := Replay(c, s, actions[..n]);
      ReplaySnoc(c, s, actions[..n], actions[n]);
      assert actions[..n] + [actions[n]] == actions;
      FirstInFirstOut(c, objects, actions[..n]);
      QueueMoves(c, u, actions[n]);
      var t := Apply(c, u, actions[n]);
      Shift(Started(c, s, actions[..n]), Starts(u, t, actions[n]), t.pool.jobs, u.pool.jobs, Accepts(u, actions[n]));
    }
  }

  lemma Shift(started: seq<string>, more: seq<string>, left: seq<string>, waiting: seq<string>, taken: seq<string>)
    requires more + left == waiting + taken
    ensures started + more + left == started + waiting + taken
  {
    assert started + more + left == started + (more + left);
    assert started + waiting + taken == started + (waiting + taken);
  }

  // ------------------------------------------------------------ requests and answers

  /** What the handler of a create request is told; nothing when it fails. */
  function Answer(c: Config, s: State, a: Action): Option<Response> {
    var n, t := |s.pool.responses|, Apply(c, s, a);
    if a.CreateDrill? && |t.pool.responses| > n then Some(t.pool.responses[n]) else None
  }

  /** The answer to the request at position `i` of a run. */
  function AnswerAt(c: Config, s: State, actions: seq<Action>, i: nat): Option<Response>
    requires i < |actions|
  {
    Answer(c, Replay(c, s, actions[..i]), actions[i])
  }

  lemma AnswerNames(c: Config, s: State, a: Action)
    requires Answer(c, s, a).Some?
    ensures var r, t := Answer(c, s, a).value, Apply(c, s, a);
      && r.org == a.org && r.key == (if a.header == "" then a.uuid else a.header)
      && t.pool.responses == s.pool.responses + [r]
      && (!r.created ==> t.drills == s.drills)
      && (r.created ==>
            && r.id == a.id && a.id !in s.drills && t.drills.Keys == s.drills.Keys + {a.id}
            && t.drills[a.id].row.org == a.org && t.drills[a.id].row.status == Queued)
  {}

  /** A request is answered exactly when its key is taken or its asset exists; any other, and
      one for an id that is taken or no UUID, changes nothing. */
  lemma AnsweredExactly(c: Config, s: State, a: Action)
    requires a.CreateDrill?
    ensures Answer(c, s, a).Some?
       <==> || (a.org, if a.header == "" then a.uuid else a.header) in s.pool.index
            || (a.assetExists && a.id !in s.drills && NoSlash(a.id) && NoSlash(a.org))
    ensures Answer(c, s, a) == None ==> Apply(c, s, a) == s
  {}

  /** A request whose organisation and key were answered before adds no row. */
  lemma RepeatAdds(c: Config, s: State, a: Action, earlier: Response)
    requires Idempotent(s) && earlier in s.pool.responses && a.CreateDrill? && earlier.org == a.org
    requires earlier.key == if a.header == "" then a.uuid else a.header
    ensures Answer(c, s, a) == Some(Response(a.org, earlier.key, earlier.id, false)) && Apply(c, s, a).drills == s.drills
  {
    assert ResponseOk(s, earlier);
  }

  lemma ResponsesStay(c: Config, s: State, a: Action)
    ensures s.pool.responses <= Apply(c, s, a).pool.responses
  {
    if Signal(a) {
      SignalFrame(c, s, a);
    } else if a.Step? {
      if a.w in s.workers {
        if s.workers[a.w].at == Done { DonePool(c, s, a.w, a.o); } else { RunFrame(c, s, a.w, a.o); }
      }
      hide StepRun;
    }
  }

  lemma {:induction false} ResponsesGrow(c: Config, s: State, actions: seq<Action>)
    ensures s.pool.responses <= Replay(c, s, actions).pool.responses
    decreases |actions|
  {
    if actions != [] {
      hide Apply;
      ResponsesStay(c, s, actions[0]);
      ResponsesGrow(c, Apply(c, s, actions[0]), actions[1..]);
    }
  }

  /** What was answered at position `i` is on record at every later one. */
  lemma AnswerOnRecord(c: Config, s: State, actions: seq<Action>, i: nat, j: nat)
    requires i < j <= |actions| && AnswerAt(c, s, actions, i).Some?
    ensures AnswerAt(c, s, actions, i).value in Replay(c, s, actions[..j]).pool.responses
  {
    var u := Replay(c, s, actions[..i]);
    AnswerNames(c, u, actions[i]);
    ReplaySnoc(c, s, actions[..i], actions[i]);
    assert actions[..i] + [actions[i]] == actions[..i + 1];
    ReplayAppend(c, s, actions[..i + 1], actions[i + 1..j]);
    assert actions[..i + 1] + actions[i + 1..j] == actions[..j];
    hide Apply, Replay;
    var r, next := AnswerAt(c, s, actions, i).value, Replay(c, s, actions[..i + 1]);
    assert next.pool.responses[|u.pool.responses|] == r;
    ResponsesGrow(c, next, actions[i + 1..j]);
  }

  /** Two requests that were answered, at any two positions of any run, got the same drill
      exactly when they came from the same organisation with the same key: the caller's
      header, or a fresh UUID where there was none. The later of two such requests adds no
      row and is told so. */
  lemma SameDrillExactly(c: Config, objects: map<string, Bytes>, actions: seq<Action>, i: nat, j: nat)
    requires i < j < |actions| && actions[i].CreateDrill? && actions[j].CreateDrill?
    requires AnswerAt(c, Initial(c, objects), actions, i).Some? && AnswerAt(c, Initial(c, objects), actions, j).Some?
    ensures
      var a, b := actions[i], actions[j];
      var r, q := AnswerAt(c, Initial(c, objects), actions, i).value, AnswerAt(c, Initial(c, objects), actions, j).value;
      var u := Replay(c, Initial(c, objects), actions[..j]);
      var same := a.org == b.org && (if a.header == "" then a.uuid else a.header) == (if b.header == "" then b.uuid else b.header);
      && (r.id == q.id <==> same)
      && (same ==> !q.created && Apply(c, u, b).drills == u.drills)
  {
    hide Replay, Apply, Idempotent, Answer, Initial;
    var s0 := Initial(c, objects);
    AnswerNames(c, Replay(c, s0, actions[..i]), actions[i]);
    AnswerNames(c, Replay(c, s0, actions[..j]), actions[j]);
    var r, q := AnswerAt(c, s0, actions, i).value, AnswerAt(c, s0, actions, j).value;
    OnRecord(c, objects, actions, i, j);
    SameRecord(Replay(c, s0, actions[..j + 1]), r, q);
    if r.org == q.org && r.key == q.key { RepeatAdds(c, Replay(c, s0, actions[..j]), actions[j], r); }
  }

  lemma OnRecord(c: Config, objects: map<string, Bytes>, actions: seq<Action>, i: nat, j: nat)
    requires i < j < |actions|
    requires AnswerAt(c, Initial(c, objects), actions, i).Some? && AnswerAt(c, Initial(c, objects), actions, j).Some?
    ensures
      var s0 := Initial(c, objects);
      var u, t := Replay(c, s0, actions[..j]), Replay(c, s0, actions[..j + 1]);
      && Idempotent(u) && Idempotent(t)
      && AnswerAt(c, s0, actions, i).value in u.pool.responses
      && AnswerAt(c, s0, actions, i).value in t.pool.responses && AnswerAt(c, s0, actions, j).value in t.pool.responses
  {
    hide Replay, AnswerAt, Initial, Idempotent;
    var s0 := Initial(c, objects);
    AnswerOnRecord(c, s0, actions, i, j);
    AnswerOnRecord(c, s0, actions, i, j + 1);
    AnswerOnRecord(c, s0, actions, j, j + 1);
    IdempotentRun(c, objects, actions[..j]);
    IdempotentRun(c, objects, actions[..j + 1]);
  }

  lemma IdempotentRun(c: Config, objects: map<string, Bytes>, actions: seq<Action>)
    ensures Idempotent(Replay(c, Initial(c, objects), actions))
  {
    IdempotentReplay(c, Initial(c, objects), actions);
  }

  lemma SameRecord(s: State, r: Response, q: Response)
    requires Idempotent(s) && r in s.pool.responses && q in s.pool.responses
    ensures r.id == q.id <==> r.org == q.org && r.key == q.key
  {
    assert ResponseOk(s, r) && ResponseOk(s, q);
    if r.id == q.id { SameKey(s, r, q); }
  }

  lemma {:induction false} InjectionBound(m: map<string, nat>, n: nat)
    requires forall k :: k in m ==> m[k] < n
    requires forall k, l :: k in m && l in m && m[k] == m[l] ==> k == l
    ensures |m| <= n
    decreases n
  {
    if n == 0 {
      assert m == map[];
    } else if k :| k in m && m[k] == n - 1 {
      var rest := m - {k};
      assert rest.Keys == m.Keys - {k};
      InjectionBound(rest, n - 1);
      assert |m| == |m.Keys| && |rest| == |rest.Keys|;
    } else {
      InjectionBound(m, n - 1);
    }
  }

  /** When drills are submitted only by the request that created them, the registered cancel
      functions are exactly those of the runs in flight, one each, and there are never more
      of them than workers. */
  lemma RegistryMirrorsRuns(c: Config, objects: map<string, Bytes>, actions: seq<Action>)
    requires forall a :: a in actions ==> !a.Resubmit?
    ensures var s := Replay(c, Initial(c, objects), actions);
      && s.pool.running.Keys == (set w | w in s.workers :: s.workers[w].id)
      && (forall w :: w in s.workers ==> s.pool.running[s.workers[w].id] == w)
      && |s.pool.running| <= c.concurrency && |s.pool.jobs| <= 100
  {
    QueueReplay(c, Initial(c, objects), actions);
    var s := Replay(c, Initial(c, objects), actions);
    forall w | w in s.workers ensures s.workers[w].id in s.pool.running && s.pool.running[s.workers[w].id] == w {
      assert RunQueued(c, s, w);
    }
    forall k | k in s.pool.running ensures s.pool.running[k] < c.concurrency {
      assert RunQueued(c, s, s.pool.running[k]);
    }
    InjectionBound(s.pool.running, c.concurrency);
  }
}
