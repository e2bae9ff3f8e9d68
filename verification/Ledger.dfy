/** The two intent ledgers: rows of `optimizer_control.node_intents`, and the in-memory dictionary. */
module Ledger {
  import opened Results

  /** Tenant and idempotency key: the primary key of both ledgers. */
  type IntentId = (string, string)

  datatype Status = Pending | Completed | Unknown | Failed

  /** A stored object: the bucket and key of its URI, the key as (tenant, hexadecimal digest). */
  datatype Uri = Uri(bucket: string, tenant: string, hex: string)

  datatype OutputRef = OutputRef(
    artifactType: string, schemaVersion: string, artifactId: string, digest: string, uri: Uri)

  datatype IntentRecord = IntentRecord(
    caseId: string, nodeId: string, inputDigest: string, status: Status, output: Option<OutputRef>)

  // ----- PostgreSQL ---------------------------------------------------------

  /** The five nullable `output_*` columns. */
  datatype OutputColumns = OutputColumns(
    artifactType: Option<string>, schemaVersion: Option<string>, artifactId: Option<string>,
    digest: Option<string>, uri: Option<Uri>)

  datatype Row = Row(caseId: string, nodeId: string, inputDigest: string, status: Status, columns: OutputColumns)

  type Rows = map<IntentId, Row>

  const NO_OUTPUT := OutputColumns(None, None, None, None, None)

  function Flatten(ref: OutputRef): OutputColumns {
    OutputColumns(Some(ref.artifactType), Some(ref.schemaVersion), Some(ref.artifactId), Some(ref.digest), Some(ref.uri))
  }

  /** `artifact_ref_from_row`: any missing column means no output. */
  function RefFromColumns(c: OutputColumns): Option<OutputRef> {
    if c.artifactType.None? || c.schemaVersion.None? || c.artifactId.None? || c.digest.None? || c.uri.None? then None
    else Some(OutputRef(c.artifactType.value, c.schemaVersion.value, c.artifactId.value, c.digest.value, c.uri.value))
  }

  function RecordFromRow(r: Row): IntentRecord {
    IntentRecord(r.caseId, r.nodeId, r.inputDigest, r.status, RefFromColumns(r.columns))
  }

  /** `INSERT ... ON CONFLICT DO UPDATE ... WHERE status <> 'completed'`; the outputs are not touched. */
  function PgPrepare(rows: Rows, id: IntentId, intent: IntentRecord): Rows {
    if id !in rows then
      rows[id := Row(intent.caseId, intent.nodeId, intent.inputDigest, intent.status, NO_OUTPUT)]
    else if rows[id].status != Completed then
      rows[id := Row(intent.caseId, intent.nodeId, intent.inputDigest, intent.status, rows[id].columns)]
    else rows
  }

  function PgGet(rows: Rows, id: IntentId): Option<IntentRecord> {
    if id in rows then Some(RecordFromRow(rows[id])) else None
  }

  function PgComplete(rows: Rows, id: IntentId, ref: OutputRef): Outcome<Rows> {
    if id in rows then Ok(rows[id := rows[id].(status := Completed, columns := Flatten(ref))]) else Raised
  }

  /** `UPDATE ... WHERE status = 'pending'`, raising when no row matched. */
  function PgMarkUnknown(rows: Rows, id: IntentId): Outcome<Rows> {
    if id in rows && rows[id].status == Pending then Ok(rows[id := rows[id].(status := Unknown)]) else Raised
  }

  // ----- in memory ----------------------------------------------------------

  type Records = map<IntentId, IntentRecord>

  function MemPrepare(records: Records, id: IntentId, intent: IntentRecord): Records {
    if id in records && records[id].status == Completed then records else records[id := intent]
  }

  function MemGet(records: Records, id: IntentId): Option<IntentRecord> {
    if id in records then Some(records[id]) else None
  }

  function MemComplete(records: Records, id: IntentId, ref: OutputRef): Outcome<Records> {
    if id in records then Ok(records[id := records[id].(status := Completed, output := Some(ref))]) else Raised
  }

  function MemMarkUnknown(records: Records, id: IntentId): Outcome<Records> {
    if id in records then Ok(records[id := records[id].(status := Unknown)]) else Raised
  }

  // ----- how far they agree -------------------------------------------------

  /** Outputs are present exactly on completed rows. */
  ghost predicate OutputsMatchStatus(rows: Rows) {
    forall id | id in rows ::
      if rows[id].status == Completed then RefFromColumns(rows[id].columns).Some? else rows[id].columns == NO_OUTPUT
  }

  ghost function View(rows: Rows): Records {
    map id | id in rows :: RecordFromRow(rows[id])
  }

  /** A fresh intent as the runtime builds it. */
  predicate IsFresh(intent: IntentRecord) {
    intent.status == Pending && intent.output == None
  }

  /** What every transition keeps, and where the two ledgers take the same step. */
  lemma PrepareAgrees(rows: Rows, id: IntentId, intent: IntentRecord)
    requires OutputsMatchStatus(rows) && IsFresh(intent)
    ensures OutputsMatchStatus(PgPrepare(rows, id, intent))
    ensures View(PgPrepare(rows, id, intent)) == MemPrepare(View(rows), id, intent)
  {
  }

  lemma CompleteAgrees(rows: Rows, id: IntentId, ref: OutputRef)
    requires OutputsMatchStatus(rows)
    ensures PgComplete(rows, id, ref).Raised? <==> MemComplete(View(rows), id, ref).Raised?
    ensures PgComplete(rows, id, ref).Ok? ==>
              && OutputsMatchStatus(PgComplete(rows, id, ref).value)
              && View(PgComplete(rows, id, ref).value) == MemComplete(View(rows), id, ref).value
  {
    assert RefFromColumns(Flatten(ref)) == Some(ref);
    if id in rows {
      assert View(PgComplete(rows, id, ref).value) == MemComplete(View(rows), id, ref).value;
    }
  }

  /** Marking a failed attempt is where they part: they agree exactly on absent and pending intents. */
  lemma MarkUnknownAgrees(rows: Rows, id: IntentId)
    requires OutputsMatchStatus(rows)
    ensures var pg, mem := PgMarkUnknown(rows, id), MemMarkUnknown(View(rows), id);
            && (pg.Ok? ==> OutputsMatchStatus(pg.value))
            && ((pg.Raised? && mem.Raised?) || (pg.Ok? && mem.Ok? && View(pg.value) == mem.value)
                <==> id !in rows || rows[id].status == Pending)
  {
    if id in rows && rows[id].status == Pending {
      assert View(PgMarkUnknown(rows, id).value) == MemMarkUnknown(View(rows), id).value;
    }
  }

  /** On a completed intent the dictionary forgets the completion; the table refuses. */
  lemma MemoryForgetsCompletion(rows: Rows, id: IntentId)
    requires OutputsMatchStatus(rows) && id in rows && rows[id].status == Completed
    ensures PgMarkUnknown(rows, id).Raised?
    ensures MemMarkUnknown(View(rows), id).Ok?
    ensures MemGet(MemMarkUnknown(View(rows), id).value, id).value.status == Unknown
  {
  }

  /** A lookup answers with an output exactly on completed intents, and the same from either ledger. */
  lemma LookupAgrees(rows: Rows, id: IntentId)
    requires OutputsMatchStatus(rows)
    ensures PgGet(rows, id) == MemGet(View(rows), id)
    ensures PgGet(rows, id).Some? && PgGet(rows, id).value.output.Some? <==> id in rows && rows[id].status == Completed
  {
  }

  /** What is completed is what the next lookup returns, on this intent and on no other. */
  lemma LookupAfterComplete(rows: Rows, id: IntentId, ref: OutputRef, other: IntentId)
    requires PgComplete(rows, id, ref).Ok?
    ensures var after := PgComplete(rows, id, ref).value;
            && PgGet(after, id).Some? && PgGet(after, id).value.output == Some(ref) && PgGet(after, id).value.status == Completed
            && (other != id ==> PgGet(after, other) == PgGet(rows, other))
  {
    assert RefFromColumns(Flatten(ref)) == Some(ref);
  }

  // ----- the classes --------------------------------------------------------

  class PostgresIntentLedger {
    var rows: Rows

    constructor ()
      ensures rows == map[]
    {
      rows := map[];
    }

    method Prepare(id: IntentId, intent: IntentRecord) returns (r: IntentRecord)
      modifies this
      ensures rows == PgPrepare(old(rows), id, intent)
      ensures id in rows && r == RecordFromRow(rows[id])
    {
      if id !in rows {
        rows := rows[id := Row(intent.caseId, intent.nodeId, intent.inputDigest, intent.status, NO_OUTPUT)];
      } else if rows[id].status != Completed {
        rows := rows[id := rows[id].(caseId := intent.caseId, nodeId := intent.nodeId,
                                     inputDigest := intent.inputDigest, status := intent.status)];
      }
      r := RecordFromRow(rows[id]);
    }

    method Get(id: IntentId) returns (r: Option<IntentRecord>)
      ensures r == PgGet(rows, id)
      ensures OutputsMatchStatus(rows) && r.Some? ==> (r.value.output.Some? <==> r.value.status == Completed)
    {
      if id in rows {
        r := Some(RecordFromRow(rows[id]));
      } else {
        r := None;
      }
    }

    method Complete(id: IntentId, ref: OutputRef) returns (r: Outcome<IntentRecord>)
      modifies this
      ensures r.Raised? <==> PgComplete(old(rows), id, ref).Raised?
      ensures rows == if r.Raised? then old(rows) else PgComplete(old(rows), id, ref).value
      ensures r.Ok? ==> r.value.output == Some(ref) && r.value.status == Completed
    {
      if id !in rows {
        return Raised;
      }
      rows := rows[id := rows[id].(status := Completed, columns := Flatten(ref))];
      r := Ok(RecordFromRow(rows[id]));
    }

    method MarkUnknown(id: IntentId) returns (r: Outcome<IntentRecord>)
      modifies this
      ensures r.Raised? <==> PgMarkUnknown(old(rows), id).Raised?
      ensures rows == if r.Raised? then old(rows) else PgMarkUnknown(old(rows), id).value
    {
      if id !in rows || rows[id].status != Pending {
        return Raised;
      }
      rows := rows[id := rows[id].(status := Unknown)];
      r := Ok(RecordFromRow(rows[id]));
    }
  }

  class MemoryIntentLedger {
    var records: Records

    constructor ()
      ensures records == map[]
    {
      records := map[];
    }

    method Prepare(id: IntentId, intent: IntentRecord) returns (r: IntentRecord)
      modifies this
      ensures records == MemPrepare(old(records), id, intent)
      ensures id in records && r == records[id]
    {
      if id in records && records[id].status == Completed {
        return records[id];
      }
      records := records[id := intent];
      r := intent;
    }

    method Get(id: IntentId) returns (r: Option<IntentRecord>)
      ensures r == MemGet(records, id)
    {
      r := if id in records then Some(records[id]) else None;
    }

    method Complete(id: IntentId, ref: OutputRef) returns (r: Outcome<IntentRecord>)
      modifies this
      ensures r.Raised? <==> MemComplete(old(records), id, ref).Raised?
      ensures records == if r.Raised? then old(records) else MemComplete(old(records), id, ref).value
    {
      if id !in records {
        return Raised;
      }
      var updated := records[id].(status := Completed, output := Some(ref));
      records := records[id := updated];
      r := Ok(updated);
    }

    method MarkUnknown(id: IntentId) returns (r: Outcome<IntentRecord>)
      modifies this
      ensures r.Raised? <==> MemMarkUnknown(old(records), id).Raised?
      ensures records == if r.Raised? then old(records) else MemMarkUnknown(old(records), id).value
    {
      if id !in records {
        return Raised;
      }
      var updated := records[id].(status := Unknown);
      records := records[id := updated];
      r := Ok(updated);
    }
  }
}
