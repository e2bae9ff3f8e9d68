/**
 * Any number of workers running the idempotent protocol against one ledger and one object store,
 * interleaved at every port call, each free to crash between any two of them.
 */
module Protocol {
  import opened Results
  import opened Ledger
  import opened Store
  import opened Runtime

  /** Where a worker is, between two port calls. */
  datatype Pc =
    | Start
    | Replaying(ref: OutputRef)
    | Missed
    | Running
    | Failing
    | Returned(x: Execution)
    | Uploading(x: Execution)
    | Uploaded(x: Execution)
    | Done(x: Execution)
    | Dead

  datatype Worker = Worker(call: Call, pc: Pc)

  datatype System = System(rows: Rows, objects: Objects, workers: map<nat, Worker>)

  datatype Step =
    | Spawn(w: nat, call: Call)
    | Get(w: nat)
    | ReadBack(w: nat)
    | Prepare(w: nat)
    | HandlerReturns(w: nat, result: Execution)
    | HandlerRaises(w: nat)
    | MarkUnknown(w: nat)
    | Head(w: nat)
    | Upload(w: nat)
    | Complete(w: nat)
    | Crash(w: nat)
    | Foreign(tenant: string, content: string)

  /** The platform, and the node each key names: a key determines its node. */
  datatype Env = Env(p: Platform, nodeOf: string -> string)

  function Move(s: System, w: nat, pc: Pc): System
    requires w in s.workers
  {
    s.(workers := s.workers[w := s.workers[w].(pc := pc)])
  }

  /** One port call of one worker; a step that is not enabled changes nothing. */
  function Apply(e: Env, s: System, step: Step): System {
    match step
    case Spawn(w, call) =>
      if w in s.workers || call.node != e.nodeOf(call.key) then s
      else s.(workers := s.workers[w := Worker(call, Start)])
    case Foreign(tenant, content) =>
      if Put(e.p, s.objects, tenant, content).Raised? then s
      else s.(objects := Put(e.p, s.objects, tenant, content).value)
    case _ =>
      if step.w !in s.workers then s else Act(e, s, step, s.workers[step.w])
  }

  function Act(e: Env, s: System, step: Step, me: Worker): System
    requires !step.Spawn? && !step.Foreign? && step.w in s.workers
  {
    var w, id := step.w, me.call.Id();
    match (step, me.pc)
    case (Get(_), Start) =>
      var existing := PgGet(s.rows, id);
      Move(s, w, if Replayable(existing) then Replaying(existing.value.output.value) else Missed)
    case (ReadBack(_), Replaying(ref)) =>
      var x := Load(e.p, s.objects, me.call.tenant, ref);
      Move(s, w, if x.Ok? then Done(x.value) else Dead)
    case (Prepare(_), Missed) =>
      Move(s.(rows := PgPrepare(s.rows, id, me.call.Intent())), w, Running)
    case (HandlerRaises(_), Running) => Move(s, w, Failing)
    case (MarkUnknown(_), Failing) => Move(s.(rows := ThrownRows(s.rows, id)), w, Dead)
    case (HandlerReturns(_, x), Running) =>
      Move(s, w, if e.p.Accepts(me.call.node, x) then Returned(x) else Dead)
    case (Head(_), Returned(x)) =>
      Move(s, w, if Blank(me.call.tenant) then Dead
                 else if (me.call.tenant, e.p.hex(e.p.encode(x))) in s.objects then Uploaded(x)
                 else Uploading(x))
    case (Upload(_), Uploading(x)) =>
      Move(s.(objects := s.objects[(me.call.tenant, e.p.hex(e.p.encode(x))) := e.p.encode(x)]), w, Uploaded(x))
    case (Complete(_), Uploaded(x)) =>
      var rows := PgComplete(s.rows, id, e.p.RefTo(me.call.tenant, e.p.encode(x)));
      if rows.Raised? then Move(s, w, Dead) else Move(s.(rows := rows.value), w, Done(x))
    case (Crash(_), _) => Move(s, w, Dead)
    case _ => s
  }

  function Run(e: Env, s: System, steps: seq<Step>): System
    decreases |steps|
  {
    if steps == [] then s else Run(e, Apply(e, s, steps[0]), steps[1..])
  }

  const INITIAL := System(map[], map[], map[])

  // ----- safety -------------------------------------------------------------

  /** The ref loads, for the tenant, as an execution the node was allowed to return. */
  ghost predicate LoadsFor(e: Env, objects: Objects, tenant: string, node: string, ref: OutputRef) {
    Load(e.p, objects, tenant, ref).Ok? && e.p.Accepts(node, Load(e.p, objects, tenant, ref).value)
  }

  ghost predicate RowSafe(e: Env, s: System, id: IntentId)
    requires id in s.rows
  {
    && s.rows[id].nodeId == e.nodeOf(id.1)
    && (if s.rows[id].status == Completed
        then RefFromColumns(s.rows[id].columns).Some?
             && LoadsFor(e, s.objects, id.0, s.rows[id].nodeId, RefFromColumns(s.rows[id].columns).value)
        else s.rows[id].columns == NO_OUTPUT)
  }

  ghost predicate WorkerSafe(e: Env, s: System, me: Worker) {
    && me.call.node == e.nodeOf(me.call.key)
    && match me.pc
       case Replaying(ref) => LoadsFor(e, s.objects, me.call.tenant, me.call.node, ref)
       case Running | Failing => me.call.Id() in s.rows
       case Returned(x) => me.call.Id() in s.rows && e.p.Accepts(me.call.node, x)
       case Uploading(x) => me.call.Id() in s.rows && e.p.Accepts(me.call.node, x) && !Blank(me.call.tenant)
       case Uploaded(x) =>
         && me.call.Id() in s.rows && e.p.Accepts(me.call.node, x) && !Blank(me.call.tenant)
         && (me.call.tenant, e.p.hex(e.p.encode(x))) in s.objects
       case Done(x) => e.p.Accepts(me.call.node, x)
       case _ => true
  }

  ghost predicate Safe(e: Env, s: System) {
    && ContentAddressed(e.p, s.objects)
    && (forall id | id in s.rows :: RowSafe(e, s, id))
    && (forall w | w in s.workers :: WorkerSafe(e, s, s.workers[w]))
  }

  /** Rows are never deleted, completed ones stay completed, objects are never replaced. */
  ghost predicate Grows(s: System, t: System) {
    && s.rows.Keys <= t.rows.Keys
    && (forall id | id in s.rows && s.rows[id].status == Completed :: t.rows[id].status == Completed)
    && (forall k | k in s.objects :: k in t.objects && t.objects[k] == s.objects[k])
  }

  lemma StepRowsGrow(e: Env, s: System, step: Step)
    ensures s.rows.Keys <= Apply(e, s, step).rows.Keys
    ensures forall id | id in s.rows && s.rows[id].status == Completed :: Apply(e, s, step).rows[id].status == Completed
  {
    hide Put, Load, PgGet;
  }

  lemma UploadGrows(e: Env, objects: Objects, tenant: string, content: string)
    requires e.p.Sound() && ContentAddressed(e.p, objects)
    ensures var more := objects[(tenant, e.p.hex(content)) := content];
            ContentAddressed(e.p, more) && forall k | k in objects :: k in more && more[k] == objects[k]
  {
    var k := (tenant, e.p.hex(content));
    assert k in objects ==> e.p.hex(objects[k]) == e.p.hex(content);
  }

  lemma StepObjectsGrow(e: Env, s: System, step: Step)
    requires e.p.Sound() && ContentAddressed(e.p, s.objects)
    ensures forall k | k in s.objects :: k in Apply(e, s, step).objects && Apply(e, s, step).objects[k] == s.objects[k]
    ensures ContentAddressed(e.p, Apply(e, s, step).objects)
  {
    hide PgPrepare, PgComplete, ThrownRows, PgGet, Load;
    if step.Upload? && step.w in s.workers && s.workers[step.w].pc.Uploading? {
      UploadGrows(e, s.objects, s.workers[step.w].call.tenant, e.p.encode(s.workers[step.w].pc.x));
    }
  }

  lemma StepGrows(e: Env, s: System, step: Step)
    requires e.p.Sound() && ContentAddressed(e.p, s.objects)
    ensures Grows(s, Apply(e, s, step)) && ContentAddressed(e.p, Apply(e, s, step).objects)
  {
    hide Apply, ContentAddressed;
    StepRowsGrow(e, s, step);
    StepObjectsGrow(e, s, step);
  }

  lemma WorkersKept(e: Env, s: System, t: System, me: Worker)
    requires Grows(s, t) && WorkerSafe(e, s, me)
    ensures WorkerSafe(e, t, me)
  {
    if me.pc.Replaying? {
      LoadKept(e.p, s.objects, t.objects, me.call.tenant, me.pc.ref);
    }
  }

  lemma RowKept(e: Env, s: System, t: System, id: IntentId)
    requires Grows(s, t) && id in s.rows && RowSafe(e, s, id) && t.rows[id] == s.rows[id]
    ensures RowSafe(e, t, id)
  {
    if s.rows[id].status == Completed {
      LoadKept(e.p, s.objects, t.objects, id.0, RefFromColumns(s.rows[id].columns).value);
    }
  }

  /** The content stored under a digest is the content with that digest. */
  lemma UploadedLoads(e: Env, objects: Objects, tenant: string, x: Execution)
    requires e.p.Sound() && ContentAddressed(e.p, objects)
    requires (tenant, e.p.hex(e.p.encode(x))) in objects
    ensures Load(e.p, objects, tenant, e.p.RefTo(tenant, e.p.encode(x))) == Ok(x)
  {
    var k := (tenant, e.p.hex(e.p.encode(x)));
    assert e.p.hex(objects[k]) == e.p.hex(e.p.encode(x));
    var key := tenant + "/" + k.1;
    assert key[..|tenant| + 1] == tenant + "/";
  }

  /** A row a step writes belongs to the worker that took the step. */
  lemma WrittenRow(e: Env, s: System, step: Step, id: IntentId)
    requires id in Apply(e, s, step).rows && !(id in s.rows && Apply(e, s, step).rows[id] == s.rows[id])
    ensures !step.Spawn? && !step.Foreign? && step.w in s.workers && s.workers[step.w].call.Id() == id
    ensures var me := s.workers[step.w];
            && (step.Complete? ==> me.pc.Uploaded? && id in s.rows &&
                                   Apply(e, s, step).rows[id] == PgComplete(s.rows, id, e.p.RefTo(me.call.tenant, e.p.encode(me.pc.x))).value[id])
            && (step.Prepare? ==> Apply(e, s, step).rows[id] == PgPrepare(s.rows, id, me.call.Intent())[id])
            && (step.MarkUnknown? ==> me.pc.Failing? && id in ThrownRows(s.rows, id) && Apply(e, s, step).rows[id] == ThrownRows(s.rows, id)[id])
            && (step.Complete? || step.Prepare? || step.MarkUnknown?)
  {
    hide Load, Put, PgGet, Replayable;
  }

  lemma StepRow(e: Env, s: System, step: Step, id: IntentId)
    requires e.p.Sound() && Safe(e, s) && id in Apply(e, s, step).rows
    ensures RowSafe(e, Apply(e, s, step), id)
  {
    hide Load, ContentAddressed, Apply;
    var t := Apply(e, s, step);
    StepGrows(e, s, step);
    if id in s.rows && t.rows[id] == s.rows[id] {
      RowKept(e, s, t, id);
    } else {
      WrittenRow(e, s, step, id);
      var me := s.workers[step.w];
      assert WorkerSafe(e, s, me);
      assert id in s.rows ==> RowSafe(e, s, id);
      if step.Complete? {
        UploadedLoads(e, s.objects, me.call.tenant, me.pc.x);
        LoadKept(e.p, s.objects, t.objects, id.0, e.p.RefTo(me.call.tenant, e.p.encode(me.pc.x)));
      }
    }
  }

  lemma StepWorker(e: Env, s: System, step: Step, w: nat)
    requires e.p.Sound() && Safe(e, s) && w in Apply(e, s, step).workers
    ensures WorkerSafe(e, Apply(e, s, step), Apply(e, s, step).workers[w])
  {
    hide Grows, WorkerSafe, RowSafe, Act;
    var t := Apply(e, s, step);
    StepGrows(e, s, step);
    if w in s.workers {
      WorkersKept(e, s, t, s.workers[w]);
      if !step.Spawn? && !step.Foreign? && step.w == w {
        ActingWorker(e, s, step);
      } else {
        OtherWorkers(e, s, step, w);
      }
    } else {
      NewWorker(e, s, step, w);
    }
  }

  lemma OtherWorkers(e: Env, s: System, step: Step, w: nat)
    requires w in s.workers && (step.Spawn? || step.Foreign? || step.w != w)
    ensures w in Apply(e, s, step).workers && Apply(e, s, step).workers[w] == s.workers[w]
  {
  }

  lemma NewWorker(e: Env, s: System, step: Step, w: nat)
    requires w !in s.workers && w in Apply(e, s, step).workers
    ensures WorkerSafe(e, Apply(e, s, step), Apply(e, s, step).workers[w])
  {
  }

  lemma ActingWorker(e: Env, s: System, step: Step)
    requires e.p.Sound() && Safe(e, s) && !step.Spawn? && !step.Foreign? && step.w in s.workers
    ensures step.w in Apply(e, s, step).workers && WorkerSafe(e, Apply(e, s, step), Apply(e, s, step).workers[step.w])
  {
    hide Put, ThrownRows, ContentAddressed;
    var me := s.workers[step.w];
    assert WorkerSafe(e, s, me);
    if step.Get? && me.pc.Start? && Replayable(PgGet(s.rows, me.call.Id())) {
      assert RowSafe(e, s, me.call.Id());
    }
  }

  lemma StepSafe(e: Env, s: System, step: Step)
    requires e.p.Sound() && Safe(e, s)
    ensures Safe(e, Apply(e, s, step))
  {
    var t := Apply(e, s, step);
    StepGrows(e, s, step);
    forall id | id in t.rows ensures RowSafe(e, t, id) {
      StepRow(e, s, step, id);
    }
    forall w | w in t.workers ensures WorkerSafe(e, t, t.workers[w]) {
      StepWorker(e, s, step, w);
    }
  }

  /**
   * Every reachable state: outputs are set exactly on completed intents, each completed intent's
   * output loads as an execution validated for its node, and so does whatever a worker commits.
   */
  lemma {:induction false} AlwaysSafe(e: Env, s: System, steps: seq<Step>)
    requires e.p.Sound() && Safe(e, s)
    ensures Safe(e, Run(e, s, steps))
    decreases |steps|
  {
    if steps != [] {
      StepSafe(e, s, steps[0]);
      AlwaysSafe(e, Apply(e, s, steps[0]), steps[1..]);
    }
  }

  lemma ReachableSafe(e: Env, steps: seq<Step>)
    requires e.p.Sound()
    ensures Safe(e, Run(e, INITIAL, steps))
  {
    AlwaysSafe(e, INITIAL, steps);
  }

  /** No interleaving and no crash takes a completed intent out of `completed`. */
  lemma {:induction false} CompletedForever(e: Env, s: System, steps: seq<Step>, id: IntentId)
    requires e.p.Sound() && ContentAddressed(e.p, s.objects)
    requires id in s.rows && s.rows[id].status == Completed
    ensures id in Run(e, s, steps).rows && Run(e, s, steps).rows[id].status == Completed
    decreases |steps|
  {
    if steps != [] {
      StepGrows(e, s, steps[0]);
      CompletedForever(e, Apply(e, s, steps[0]), steps[1..], id);
    }
  }

  // ----- when a completed output can still change ----------------------------

  /** The one step that rewrites a completed intent: another attempt on the same key completing. */
  lemma CompletedOutputChangesIff(e: Env, s: System, step: Step, id: IntentId)
    requires id in s.rows && s.rows[id].status == Completed
    ensures id in Apply(e, s, step).rows
    ensures Apply(e, s, step).rows[id] != s.rows[id] <==>
            && step.Complete? && step.w in s.workers
            && s.workers[step.w].call.Id() == id && s.workers[step.w].pc.Uploaded?
            && s.rows[id].columns != Flatten(e.p.RefTo(id.0, e.p.encode(s.workers[step.w].pc.x)))
  {
  }

  /** Past its lookup on this key, and not finished: only such a worker can still complete it. */
  predicate InFlight(me: Worker, id: IntentId) {
    me.call.Id() == id && !me.pc.Start? && !me.pc.Replaying? && !me.pc.Done? && !me.pc.Dead?
  }

  /** Not in flight, and unless it looked up earlier (`past`) bound to commit `x` from `ref`. */
  ghost predicate Bound(me: Worker, id: IntentId, ref: OutputRef, x: Execution, past: bool) {
    && !InFlight(me, id)
    && (past ==> me.pc.Replaying? || me.pc.Done? || me.pc.Dead?)
    && (!past && me.call.Id() == id ==> (me.pc.Replaying? ==> me.pc.ref == ref) && (me.pc.Done? ==> me.pc.x == x))
  }

  /** Completed with `ref`, nobody in flight, and every worker outside `past` bound to commit `x`. */
  ghost predicate Quiet(e: Env, s: System, id: IntentId, ref: OutputRef, x: Execution, past: set<nat>) {
    && id in s.rows && s.rows[id].status == Completed && s.rows[id].columns == Flatten(ref)
    && Load(e.p, s.objects, id.0, ref) == Ok(x)
    && past <= s.workers.Keys
    && forall w | w in s.workers :: Bound(s.workers[w], id, ref, x, w in past)
  }

  lemma BoundStep(e: Env, s: System, step: Step, id: IntentId, ref: OutputRef, x: Execution, past: set<nat>, w: nat)
    requires Quiet(e, s, id, ref, x, past) && w in Apply(e, s, step).workers
    ensures Bound(Apply(e, s, step).workers[w], id, ref, x, w in past)
  {
    hide Put, PgPrepare, ThrownRows, PgComplete;
    assert RefFromColumns(Flatten(ref)) == Some(ref);
    if w in s.workers {
      assert Bound(s.workers[w], id, ref, x, w in past);
      if step.Spawn? || step.Foreign? || step.w != w {
        OtherWorkers(e, s, step, w);
      } else {
        BoundActing(e, s, step, id, ref, x, past);
      }
    }
  }

  lemma BoundActing(e: Env, s: System, step: Step, id: IntentId, ref: OutputRef, x: Execution, past: set<nat>)
    requires Quiet(e, s, id, ref, x, past) && !step.Spawn? && !step.Foreign? && step.w in s.workers
    ensures step.w in Apply(e, s, step).workers && Bound(Apply(e, s, step).workers[step.w], id, ref, x, step.w in past)
  {
    hide Put, PgPrepare, ThrownRows, PgComplete;
    assert RefFromColumns(Flatten(ref)) == Some(ref);
    assert Bound(s.workers[step.w], id, ref, x, step.w in past);
  }

  lemma WorkersStay(e: Env, s: System, step: Step)
    ensures s.workers.Keys <= Apply(e, s, step).workers.Keys
  {
    hide Load, Put, PgPrepare, ThrownRows, PgGet, PgComplete;
  }

  lemma QuietStep(e: Env, s: System, step: Step, id: IntentId, ref: OutputRef, x: Execution, past: set<nat>)
    requires e.p.Sound() && ContentAddressed(e.p, s.objects) && Quiet(e, s, id, ref, x, past)
    ensures Quiet(e, Apply(e, s, step), id, ref, x, past)
  {
    hide Load, Apply, ContentAddressed;
    var t := Apply(e, s, step);
    StepGrows(e, s, step);
    CompletedOutputChangesIff(e, s, step, id);
    LoadKept(e.p, s.objects, t.objects, id.0, ref);
    if !step.Foreign? && step.w in s.workers {
      assert Bound(s.workers[step.w], id, ref, x, step.w in past);
    }
    forall w | w in t.workers ensures Bound(t.workers[w], id, ref, x, w in past) {
      BoundStep(e, s, step, id, ref, x, past, w);
    }
    WorkersStay(e, s, step);
  }

  /**
   * Once a completed intent has no attempt in flight its output is fixed for good, and every
   * worker that looks it up from then on commits the execution it holds.
   */
  lemma {:induction false} QuietForever(e: Env, s: System, steps: seq<Step>, id: IntentId, ref: OutputRef,
                                        x: Execution, past: set<nat>)
    requires e.p.Sound() && ContentAddressed(e.p, s.objects) && Quiet(e, s, id, ref, x, past)
    ensures Quiet(e, Run(e, s, steps), id, ref, x, past)
    decreases |steps|
  {
    if steps != [] {
      QuietStep(e, s, steps[0], id, ref, x, past);
      StepGrows(e, s, steps[0]);
      QuietForever(e, Apply(e, s, steps[0]), steps[1..], id, ref, x, past);
    }
  }

  // ----- the race that rewrites it, reached from the initial state ------------

  /** Worker `w` of two on one call is at `mine`, the other at `other`. */
  function Two(c: Call, rows: Rows, objects: Objects, w: nat, mine: Pc, other: Pc): System
    requires w < 2
  {
    System(rows, objects, map[w := Worker(c, mine), 1 - w := Worker(c, other)])
  }

  ghost predicate Reaches(e: Env, s: System, t: System) {
    exists steps :: Run(e, s, steps) == t
  }

  lemma {:induction false} RunThen(e: Env, s: System, steps: seq<Step>, step: Step)
    ensures Run(e, s, steps + [step]) == Apply(e, Run(e, s, steps), step)
    decreases |steps|
  {
    if steps == [] {
      assert steps + [step] == [step];
      assert Run(e, Apply(e, s, step), [step][1..]) == Apply(e, s, step);
    } else {
      assert (steps + [step])[1..] == steps[1..] + [step];
      RunThen(e, Apply(e, s, steps[0]), steps[1..], step);
    }
  }

  lemma ReachesStep(e: Env, s: System, t: System, step: Step)
    requires Reaches(e, s, t)
    ensures Reaches(e, s, Apply(e, t, step))
  {
    var steps :| Run(e, s, steps) == t;
    RunThen(e, s, steps, step);
  }

  lemma TwoMoves(c: Call, rows: Rows, objects: Objects, w: nat, mine: Pc, other: Pc, pc: Pc)
    requires w < 2
    ensures Move(Two(c, rows, objects, w, mine, other), w, pc) == Two(c, rows, objects, w, pc, other)
  {
    var ws := map[w := Worker(c, mine), 1 - w := Worker(c, other)];
    assert ws[w := Worker(c, pc)] == map[w := Worker(c, pc), 1 - w := Worker(c, other)];
  }

  lemma Swapped(c: Call, rows: Rows, objects: Objects, a: Pc, b: Pc)
    ensures Two(c, rows, objects, 0, a, b) == Two(c, rows, objects, 1, b, a)
  {
    assert map[0 := Worker(c, a), 1 := Worker(c, b)] == map[1 := Worker(c, b), 0 := Worker(c, a)];
  }

  /** Both workers look the key up before either prepares it. */
  lemma BothMiss(e: Env, c: Call)
    requires c.node == e.nodeOf(c.key)
    ensures Reaches(e, INITIAL, Two(c, map[], map[], 1, Missed, Missed))
  {
    assert Run(e, INITIAL, []) == INITIAL;
    ReachesStep(e, INITIAL, INITIAL, Spawn(0, c));
    ReachesStep(e, INITIAL, Apply(e, INITIAL, Spawn(0, c)), Spawn(1, c));
    assert Apply(e, Apply(e, INITIAL, Spawn(0, c)), Spawn(1, c)) == Two(c, map[], map[], 0, Start, Start);
    ReachesStep(e, INITIAL, Two(c, map[], map[], 0, Start, Start), Get(0));
    TwoMoves(c, map[], map[], 0, Start, Start, Missed);
    Swapped(c, map[], map[], Missed, Start);
    ReachesStep(e, INITIAL, Two(c, map[], map[], 1, Start, Missed), Get(1));
    TwoMoves(c, map[], map[], 1, Start, Missed, Missed);
  }

  lemma Prepares(e: Env, s: System, c: Call, rows: Rows, objects: Objects, w: nat, other: Pc)
    requires w < 2 && Reaches(e, s, Two(c, rows, objects, w, Missed, other))
    ensures Reaches(e, s, Two(c, PgPrepare(rows, c.Id(), c.Intent()), objects, w, Running, other))
  {
    ReachesStep(e, s, Two(c, rows, objects, w, Missed, other), Prepare(w));
    TwoMoves(c, PgPrepare(rows, c.Id(), c.Intent()), objects, w, Missed, other, Running);
  }

  lemma Computes(e: Env, s: System, c: Call, rows: Rows, objects: Objects, w: nat, other: Pc, x: Execution)
    requires w < 2 && Reaches(e, s, Two(c, rows, objects, w, Running, other)) && e.p.Accepts(c.node, x)
    ensures Reaches(e, s, Two(c, rows, objects, w, Returned(x), other))
  {
    ReachesStep(e, s, Two(c, rows, objects, w, Running, other), HandlerReturns(w, x));
    TwoMoves(c, rows, objects, w, Running, other, Returned(x));
  }

  lemma Uploads(e: Env, s: System, c: Call, rows: Rows, objects: Objects, w: nat, other: Pc, x: Execution)
    requires w < 2 && Reaches(e, s, Two(c, rows, objects, w, Returned(x), other))
    requires !Blank(c.tenant) && (c.tenant, e.p.hex(e.p.encode(x))) !in objects
    ensures Reaches(e, s, Two(c, rows, objects[(c.tenant, e.p.hex(e.p.encode(x))) := e.p.encode(x)], w, Uploaded(x), other))
  {
    hide Reaches;
    ReachesStep(e, s, Two(c, rows, objects, w, Returned(x), other), Head(w));
    TwoMoves(c, rows, objects, w, Returned(x), other, Uploading(x));
    ReachesStep(e, s, Two(c, rows, objects, w, Uploading(x), other), Upload(w));
    TwoMoves(c, rows, objects[(c.tenant, e.p.hex(e.p.encode(x))) := e.p.encode(x)], w, Uploading(x), other, Uploaded(x));
  }

  lemma Completes(e: Env, s: System, c: Call, rows: Rows, objects: Objects, w: nat, other: Pc, x: Execution)
    requires w < 2 && Reaches(e, s, Two(c, rows, objects, w, Uploaded(x), other)) && c.Id() in rows
    ensures Reaches(e, s, Two(c, PgComplete(rows, c.Id(), e.p.RefTo(c.tenant, e.p.encode(x))).value, objects, w, Done(x), other))
  {
    ReachesStep(e, s, Two(c, rows, objects, w, Uploaded(x), other), Complete(w));
    TwoMoves(c, PgComplete(rows, c.Id(), e.p.RefTo(c.tenant, e.p.encode(x))).value, objects, w, Uploaded(x), other, Done(x));
  }

  lemma BothUpload(e: Env, c: Call, x: Execution, y: Execution)
    requires e.p.Sound() && c.node == e.nodeOf(c.key) && !Blank(c.tenant)
    requires e.p.Accepts(c.node, x) && e.p.Accepts(c.node, y) && x != y
    ensures exists rows, objects :: c.Id() in rows
              && Reaches(e, INITIAL, Two(c, rows, objects, 0, Uploaded(x), Uploaded(y)))
  {
    assert e.p.decode(e.p.encode(x)) == Ok(x) && e.p.decode(e.p.encode(y)) == Ok(y);
    assert e.p.hex(e.p.encode(x)) != e.p.hex(e.p.encode(y));
    var id := c.Id();
    BothMiss(e, c);
    Prepares(e, INITIAL, c, map[], map[], 1, Missed);
    var rows := PgPrepare(map[], id, c.Intent());
    Computes(e, INITIAL, c, rows, map[], 1, Missed, y);
    Uploads(e, INITIAL, c, rows, map[], 1, Missed, y);
    var objects: Objects := map[][(c.tenant, e.p.hex(e.p.encode(y))) := e.p.encode(y)];
    Swapped(c, rows, objects, Missed, Uploaded(y));
    Prepares(e, INITIAL, c, rows, objects, 0, Uploaded(y));
    var rows' := PgPrepare(rows, id, c.Intent());
    Computes(e, INITIAL, c, rows', objects, 0, Uploaded(y), x);
    Uploads(e, INITIAL, c, rows', objects, 0, Uploaded(y), x);
  }

  ghost predicate CompletedWith(e: Env, s: System, c: Call, x: Execution) {
    && c.Id() in s.rows && s.rows[c.Id()].status == Completed
    && s.rows[c.Id()].columns == Flatten(e.p.RefTo(c.tenant, e.p.encode(x)))
  }

  /** Two racing attempts with different results: the intent completes with one, then with the other. */
  lemma RaceRewritesOutput(e: Env, c: Call, x: Execution, y: Execution)
    requires e.p.Sound() && c.node == e.nodeOf(c.key) && !Blank(c.tenant)
    requires e.p.Accepts(c.node, x) && e.p.Accepts(c.node, y) && x != y
    ensures exists s, t :: Reaches(e, INITIAL, s) && CompletedWith(e, s, c, x)
                           && Reaches(e, s, t) && CompletedWith(e, t, c, y)
  {
    BothUpload(e, c, x, y);
    var rows, objects :| c.Id() in rows && Reaches(e, INITIAL, Two(c, rows, objects, 0, Uploaded(x), Uploaded(y)));
    Completes(e, INITIAL, c, rows, objects, 0, Uploaded(y), x);
    var rows' := PgComplete(rows, c.Id(), e.p.RefTo(c.tenant, e.p.encode(x))).value;
    var s := Two(c, rows', objects, 0, Done(x), Uploaded(y));
    Swapped(c, rows', objects, Done(x), Uploaded(y));
    assert Run(e, s, []) == s;
    Completes(e, s, c, rows', objects, 1, Done(x), y);
    var t := Two(c, PgComplete(rows', c.Id(), e.p.RefTo(c.tenant, e.p.encode(y))).value, objects, 1, Done(y), Done(x));
    assert CompletedWith(e, s, c, x) && CompletedWith(e, t, c, y);
  }
}
