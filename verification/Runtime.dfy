/** `NodeRuntime._execute_idempotent`: replay a completed intent, or prepare, run, store, complete. */
module Runtime {
  import opened Results
  import opened Ledger
  import opened Store

  datatype Call = Call(tenant: string, key: string, node: string, caseId: string, inputDigest: string)
  {
    function Id(): IntentId {
      (tenant, key)
    }

    function Intent(): IntentRecord {
      IntentRecord(caseId, node, inputDigest, Pending, None)
    }
  }

  /** What the handler does if it is asked: raise, or return an execution. */
  datatype Handler = Raises | Returns(x: Execution)

  /** How far the process gets. */
  datatype Fate = Finishes | CrashAfterGet | CrashAfterPrepare | CrashAfterHandler | CrashAfterPut

  datatype Reply = Committed(x: Execution, ran: bool) | Threw | Crashed

  datatype Request = Request(call: Call, handler: Handler, fate: Fate)

  datatype World = World(rows: Rows, objects: Objects)

  predicate Replayable(record: Option<IntentRecord>) {
    record.Some? && record.value.status == Completed && record.value.output.Some?
  }

  function Replay(p: Platform, objects: Objects, call: Call, ref: OutputRef): Reply {
    match Load(p, objects, call.tenant, ref)
    case Raised => Threw
    case Ok(x) => Committed(x, false)
  }

  function ThrownRows(rows: Rows, id: IntentId): Rows {
    if PgMarkUnknown(rows, id).Ok? then PgMarkUnknown(rows, id).value else rows
  }

  /** One call against the PostgreSQL ledger and the object store. */
  function Invoke(p: Platform, w: World, q: Request): (World, Reply) {
    var id := q.call.Id();
    var existing := PgGet(w.rows, id);
    if Replayable(existing) then (w, Replay(p, w.objects, q.call, existing.value.output.value))
    else if q.fate == CrashAfterGet then (w, Crashed)
    else
      var prepared := PgPrepare(w.rows, id, q.call.Intent());
      if q.fate == CrashAfterPrepare then (w.(rows := prepared), Crashed)
      else if q.handler.Raises? then (w.(rows := ThrownRows(prepared, id)), Threw)
      else if q.fate == CrashAfterHandler then (w.(rows := prepared), Crashed)
      else if !p.Accepts(q.call.node, q.handler.x) then (w.(rows := prepared), Threw)
      else
        var content := p.encode(q.handler.x);
        match Put(p, w.objects, q.call.tenant, content)
        case Raised => (w.(rows := prepared), Threw)
        case Ok(objects) =>
          if q.fate == CrashAfterPut then (World(prepared, objects), Crashed)
          else
            match PgComplete(prepared, id, p.RefTo(q.call.tenant, content))
            case Raised => (World(prepared, objects), Threw)
            case Ok(rows) => (World(rows, objects), Committed(q.handler.x, true))
  }

  /** The protocol as the runtime runs it, on the ledger and store objects. */
  method ExecuteIdempotent(ledger: PostgresIntentLedger, store: S3ArtifactStore, call: Call, handler: Handler)
    returns (reply: Reply)
    modifies ledger, store
    ensures (World(ledger.rows, store.objects), reply) ==
            Invoke(store.platform, World(old(ledger.rows), old(store.objects)), Request(call, handler, Finishes))
  {
    var existing := ledger.Get(call.Id());
    if Replayable(existing) {
      var payload := store.ReadJson(call.tenant, existing.value.output.value);
      if payload.Raised? {
        return Threw;
      }
      var x := store.platform.decode(payload.value);
      return if x.Raised? then Threw else Committed(x.value, false);
    }
    var _ := ledger.Prepare(call.Id(), call.Intent());
    if handler.Raises? {
      var _ := ledger.MarkUnknown(call.Id());
      return Threw;
    }
    if !store.platform.Accepts(call.node, handler.x) {
      return Threw;
    }
    var ref := store.PutJson(call.tenant, store.platform.encode(handler.x));
    if ref.Raised? {
      return Threw;
    }
    var done := ledger.Complete(call.Id(), ref.value);
    if done.Raised? {
      return Threw;
    }
    reply := Committed(handler.x, true);
  }

  // ----- what every call keeps ----------------------------------------------

  /** A completed row's output loads as an execution its node was allowed to return. */
  ghost predicate Delivers(p: Platform, w: World, id: IntentId) {
    && id in w.rows
    && PgGet(w.rows, id).value.output.Some?
    && Load(p, w.objects, id.0, PgGet(w.rows, id).value.output.value).Ok?
    && p.Accepts(w.rows[id].nodeId, Load(p, w.objects, id.0, PgGet(w.rows, id).value.output.value).value)
  }

  ghost predicate Intact(p: Platform, w: World) {
    && OutputsMatchStatus(w.rows)
    && ContentAddressed(p, w.objects)
    && forall id | id in w.rows && w.rows[id].status == Completed :: Delivers(p, w, id)
  }

  lemma LoadKept(p: Platform, before: Objects, after: Objects, tenant: string, ref: OutputRef)
    requires forall k | k in before :: k in after && after[k] == before[k]
    requires Load(p, before, tenant, ref).Ok?
    ensures Load(p, after, tenant, ref) == Load(p, before, tenant, ref)
  {
  }

  /** The execution a completed intent stands for. */
  ghost function Stored(p: Platform, w: World, id: IntentId): Outcome<Execution> {
    if Replayable(PgGet(w.rows, id)) then Load(p, w.objects, id.0, PgGet(w.rows, id).value.output.value) else Raised
  }

  /** Storing and completing: afterwards the row stands for exactly what the handler returned. */
  lemma CompletionStores(p: Platform, w: World, q: Request)
    requires p.Sound() && Intact(p, w)
    requires Invoke(p, w, q).1.Committed? && Invoke(p, w, q).1.ran
    ensures q.handler.Returns? && Invoke(p, w, q).1.x == q.handler.x && p.Accepts(q.call.node, q.handler.x)
    ensures var w' := Invoke(p, w, q).0;
            && Stored(p, w', q.call.Id()) == Ok(q.handler.x)
            && w'.rows[q.call.Id()].status == Completed && w'.rows[q.call.Id()].nodeId == q.call.node
            && ContentAddressed(p, w'.objects)
            && (forall k | k in w.objects :: k in w'.objects && w'.objects[k] == w.objects[k])
  {
    var id, content := q.call.Id(), p.encode(q.handler.x);
    PutThenRead(p, w.objects, q.call.tenant, content);
    assert RefFromColumns(Flatten(p.RefTo(q.call.tenant, content))) == Some(p.RefTo(q.call.tenant, content));
  }

  lemma InvokeKeepsOthers(p: Platform, w: World, q: Request, id: IntentId)
    requires id != q.call.Id()
    ensures id in Invoke(p, w, q).0.rows <==> id in w.rows
    ensures id in w.rows ==> Invoke(p, w, q).0.rows[id] == w.rows[id]
  {
  }

  lemma ObjectsGrow(p: Platform, w: World, q: Request)
    ensures forall k | k in w.objects :: k in Invoke(p, w, q).0.objects && Invoke(p, w, q).0.objects[k] == w.objects[k]
    ensures ContentAddressed(p, w.objects) ==> ContentAddressed(p, Invoke(p, w, q).0.objects)
  {
  }

  lemma OutputsMatchAfter(p: Platform, w: World, q: Request)
    requires OutputsMatchStatus(w.rows)
    ensures OutputsMatchStatus(Invoke(p, w, q).0.rows)
  {
    hide OutputsMatchStatus, PgPrepare, PgMarkUnknown, PgComplete, View;
    var id := q.call.Id();
    PrepareAgrees(w.rows, id, q.call.Intent());
    var prepared := PgPrepare(w.rows, id, q.call.Intent());
    MarkUnknownAgrees(prepared, id);
    if q.handler.Returns? {
      CompleteAgrees(prepared, id, p.RefTo(q.call.tenant, p.encode(q.handler.x)));
    }
  }

  lemma RowAfter(p: Platform, w: World, q: Request)
    requires OutputsMatchStatus(w.rows)
    ensures var id := q.call.Id();
            var rows := Invoke(p, w, q).0.rows;
            id in rows && rows[id].status == Completed ==>
              (id in w.rows && w.rows[id].status == Completed && rows[id] == w.rows[id])
              || (Invoke(p, w, q).1.Committed? && Invoke(p, w, q).1.ran)
  {
    hide Put, Load;
  }

  /** Crash or not, a call leaves every completed intent loadable as a valid execution. */
  lemma InvokeKeepsIntact(p: Platform, w: World, q: Request)
    requires p.Sound() && Intact(p, w)
    ensures Intact(p, Invoke(p, w, q).0)
  {
    var (w', reply) := Invoke(p, w, q);
    OutputsMatchAfter(p, w, q);
    RowAfter(p, w, q);
    ObjectsGrow(p, w, q);
    forall id | id in w'.rows && w'.rows[id].status == Completed ensures Delivers(p, w', id) {
      if id != q.call.Id() {
        InvokeKeepsOthers(p, w, q, id);
      }
      if id in w.rows && w.rows[id].status == Completed && w'.rows[id] == w.rows[id] {
        assert Delivers(p, w, id);
        LoadKept(p, w.objects, w'.objects, id.0, PgGet(w.rows, id).value.output.value);
      } else {
        CompletionStores(p, w, q);
      }
    }
  }

  // ----- series of calls ----------------------------------------------------

  function Series(p: Platform, w: World, qs: seq<Request>): (World, seq<Reply>)
    decreases |qs|
  {
    if qs == [] then (w, [])
    else
      var (w', reply) := Invoke(p, w, qs[0]);
      var (w'', replies) := Series(p, w', qs[1..]);
      (w'', [reply] + replies)
  }

  lemma {:induction false} SeriesLength(p: Platform, w: World, qs: seq<Request>)
    ensures |Series(p, w, qs).1| == |qs|
    decreases |qs|
  {
    if qs != [] {
      SeriesLength(p, Invoke(p, w, qs[0]).0, qs[1..]);
    }
  }

  /** A completed intent answers one call by replaying, and stays what it is under any call. */
  lemma CompletedReplays(p: Platform, w: World, q: Request, id: IntentId)
    requires Stored(p, w, id).Ok?
    ensures Stored(p, Invoke(p, w, q).0, id) == Stored(p, w, id)
    ensures q.call.Id() == id ==> Invoke(p, w, q).1 == Committed(Stored(p, w, id).value, false)
  {
    if q.call.Id() != id {
      InvokeKeepsOthers(p, w, q, id);
      ObjectsGrow(p, w, q);
      LoadKept(p, w.objects, Invoke(p, w, q).0.objects, id.0, PgGet(w.rows, id).value.output.value);
    }
  }

  lemma {:induction false} OnceCompletedAllReplay(p: Platform, w: World, qs: seq<Request>, id: IntentId, j: nat)
    requires Stored(p, w, id).Ok? && j < |qs| && qs[j].call.Id() == id
    ensures |Series(p, w, qs).1| == |qs| && Series(p, w, qs).1[j] == Committed(Stored(p, w, id).value, false)
    decreases |qs|
  {
    SeriesLength(p, w, qs);
    CompletedReplays(p, w, qs[0], id);
    if j > 0 {
      OnceCompletedAllReplay(p, Invoke(p, w, qs[0]).0, qs[1..], id, j - 1);
    }
  }

  /** Whichever way a call commits, the intent then stands for what it committed. */
  lemma CommittedIsStored(p: Platform, w: World, q: Request)
    requires p.Sound() && Intact(p, w) && Invoke(p, w, q).1.Committed?
    ensures Stored(p, Invoke(p, w, q).0, q.call.Id()) == Ok(Invoke(p, w, q).1.x)
  {
    if Invoke(p, w, q).1.ran {
      CompletionStores(p, w, q);
    } else {
      CompletedReplays(p, w, q, q.call.Id());
    }
  }

  /**
   * In any series of calls, crashes included, a key's handler succeeds at most once, and every
   * later call on that key commits the same execution without running the handler.
   */
  lemma {:induction false} HandlerSucceedsOnce(p: Platform, w: World, qs: seq<Request>, i: nat, j: nat)
    requires p.Sound() && Intact(p, w)
    requires i < j < |qs| && qs[i].call.Id() == qs[j].call.Id()
    requires |Series(p, w, qs).1| == |qs|
    requires Series(p, w, qs).1[i].Committed?
    ensures Series(p, w, qs).1[j] == Committed(Series(p, w, qs).1[i].x, false)
    decreases |qs|
  {
    hide Intact, Stored, Invoke;
    var (w', reply) := Invoke(p, w, qs[0]);
    SeriesLength(p, w', qs[1..]);
    InvokeKeepsIntact(p, w, qs[0]);
    if i > 0 {
      HandlerSucceedsOnce(p, w', qs[1..], i - 1, j - 1);
    } else {
      CommittedIsStored(p, w, qs[0]);
      OnceCompletedAllReplay(p, w', qs[1..], qs[0].call.Id(), j - 1);
    }
  }

  // ----- the in-memory ledger -----------------------------------------------

  datatype MemWorld = MemWorld(records: Records, objects: Objects)

  /** The same call against the in-memory ledger. */
  function MemInvoke(p: Platform, w: MemWorld, q: Request): (MemWorld, Reply) {
    var id := q.call.Id();
    var existing := MemGet(w.records, id);
    if Replayable(existing) then (w, Replay(p, w.objects, q.call, existing.value.output.value))
    else if q.fate == CrashAfterGet then (w, Crashed)
    else
      var prepared := MemPrepare(w.records, id, q.call.Intent());
      if q.fate == CrashAfterPrepare then (w.(records := prepared), Crashed)
      else if q.handler.Raises? then
        (w.(records := if MemMarkUnknown(prepared, id).Ok? then MemMarkUnknown(prepared, id).value else prepared), Threw)
      else if q.fate == CrashAfterHandler then (w.(records := prepared), Crashed)
      else if !p.Accepts(q.call.node, q.handler.x) then (w.(records := prepared), Threw)
      else
        var content := p.encode(q.handler.x);
        match Put(p, w.objects, q.call.tenant, content)
        case Raised => (w.(records := prepared), Threw)
        case Ok(objects) =>
          if q.fate == CrashAfterPut then (MemWorld(prepared, objects), Crashed)
          else
            match MemComplete(prepared, id, p.RefTo(q.call.tenant, content))
            case Raised => (MemWorld(prepared, objects), Threw)
            case Ok(records) => (MemWorld(records, objects), Committed(q.handler.x, true))
  }

  function MemSeries(p: Platform, w: MemWorld, qs: seq<Request>): (MemWorld, seq<Reply>)
    decreases |qs|
  {
    if qs == [] then (w, [])
    else
      var (w', reply) := MemInvoke(p, w, qs[0]);
      var (w'', replies) := MemSeries(p, w', qs[1..]);
      (w'', [reply] + replies)
  }

  ghost function Shadow(w: World): MemWorld {
    MemWorld(View(w.rows), w.objects)
  }

  /** Whatever is not replayed is pending once it is prepared. */
  lemma PreparedIsPending(rows: Rows, id: IntentId, intent: IntentRecord)
    requires OutputsMatchStatus(rows) && IsFresh(intent) && !Replayable(PgGet(rows, id))
    ensures id in PgPrepare(rows, id, intent) && PgPrepare(rows, id, intent)[id].status == Pending
  {
  }

  /** One call: same reply, same records, although the table keeps columns the dictionary drops. */
  lemma InvokeAgrees(p: Platform, w: World, q: Request)
    requires OutputsMatchStatus(w.rows)
    ensures MemInvoke(p, Shadow(w), q) == (Shadow(Invoke(p, w, q).0), Invoke(p, w, q).1)
  {
    hide OutputsMatchStatus, Put, Replay, View, PgGet, MemGet, PgPrepare, MemPrepare, PgComplete, MemComplete;
    var id := q.call.Id();
    LookupAgrees(w.rows, id);
    if !Replayable(PgGet(w.rows, id)) {
      PreparedIsPending(w.rows, id, q.call.Intent());
    }
    PrepareAgrees(w.rows, id, q.call.Intent());
    var prepared := PgPrepare(w.rows, id, q.call.Intent());
    MarkUnknownAgrees(prepared, id);
    if q.handler.Returns? {
      CompleteAgrees(prepared, id, p.RefTo(q.call.tenant, p.encode(q.handler.x)));
    }
  }

  /** For every series of runtime calls the two ledgers give the same replies and hold the same records. */
  lemma {:induction false} LedgersAgree(p: Platform, w: World, qs: seq<Request>)
    requires OutputsMatchStatus(w.rows)
    ensures MemSeries(p, Shadow(w), qs) == (Shadow(Series(p, w, qs).0), Series(p, w, qs).1)
    decreases |qs|
  {
    if qs != [] {
      InvokeAgrees(p, w, qs[0]);
      OutputsMatchAfter(p, w, qs[0]);
      LedgersAgree(p, Invoke(p, w, qs[0]).0, qs[1..]);
    }
  }
}
