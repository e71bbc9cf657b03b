/**
 * The two HTTP endpoints of the ingestion service: `ingest`, which validates
 * a submission, creates its ingestion request and hands the ids to the batch
 * processor, and `get_status`, which reports a request's batches and the
 * status aggregated from them.
 */
module Views {
  import opened Results
  import opened Models
  import opened Serializers
  import opened Tasks

  /** Python's `all(status == name for status in statuses)` over stored status values. */
  function AllEqual(statuses: seq<string>, name: string): bool
  {
    if statuses == [] then true else statuses[0] == name && AllEqual(statuses[1..], name)
  }

  /** Python's `any(status == name for status in statuses)` over stored status values. */
  function AnyEqual(statuses: seq<string>, name: string): bool
  {
    if statuses == [] then false else statuses[0] == name || AnyEqual(statuses[1..], name)
  }

  /** The stored status values of a list of statuses. */
  function NamesOf(statuses: seq<BatchStatus>): (r: seq<string>)
    ensures |r| == |statuses| && forall i :: 0 <= i < |r| ==> r[i] == StatusName(statuses[i])
  {
    seq(|statuses|, i requires 0 <= i < |statuses| => StatusName(statuses[i]))
  }

  /**
   * The status computed inside `get_status` from the stored status values
   * of the request's batches, as a stored status value.
   */
  function AggregateStatus(statuses: seq<string>): string
  {
    if statuses == [] then "yet_to_start"
    else if AllEqual(statuses, "completed") then "completed"
    else if AnyEqual(statuses, "triggered") then "triggered"
    else "yet_to_start"
  }

  /** Comparing stored values with a status's value is comparing the statuses. */
  lemma {:induction false} AllEqualNames(statuses: seq<BatchStatus>, s: BatchStatus)
    ensures AllEqual(NamesOf(statuses), StatusName(s)) == AllAre(statuses, s)
  {
    if statuses != [] {
      StatusNameInjective(statuses[0], s);
      AllEqualNames(statuses[1..], s);
      assert NamesOf(statuses)[1..] == NamesOf(statuses[1..]);
    }
  }

  lemma {:induction false} AnyEqualNames(statuses: seq<BatchStatus>, s: BatchStatus)
    ensures AnyEqual(NamesOf(statuses), StatusName(s)) == AnyIs(statuses, s)
  {
    if statuses != [] {
      StatusNameInjective(statuses[0], s);
      AnyEqualNames(statuses[1..], s);
      assert NamesOf(statuses)[1..] == NamesOf(statuses[1..]);
    }
  }

  /**
   * The rule of the view and the `status` property of the ingestion request
   * agree on every list of batch statuses.
   */
  lemma ViewAgreesWithModel(statuses: seq<BatchStatus>)
    ensures AggregateStatus(NamesOf(statuses)) == StatusName(DerivedStatus(statuses))
  {
    AllEqualNames(statuses, Completed);
    AnyEqualNames(statuses, Triggered);
  }

  /** The view's rule on its own terms: completed when all are, else triggered when any is, else yet_to_start. */
  lemma AggregateStatusRule(statuses: seq<BatchStatus>)
    ensures statuses == [] ==> AggregateStatus(NamesOf(statuses)) == "yet_to_start"
    ensures AggregateStatus(NamesOf(statuses)) == "completed" <==>
      statuses != [] && forall i :: 0 <= i < |statuses| ==> statuses[i] == Completed
    ensures AggregateStatus(NamesOf(statuses)) == "triggered" <==>
      exists i :: 0 <= i < |statuses| && statuses[i] == Triggered
    ensures AggregateStatus(NamesOf(statuses)) == "yet_to_start" <==>
      (forall i :: 0 <= i < |statuses| ==> statuses[i] != Triggered) &&
      (statuses == [] || exists i :: 0 <= i < |statuses| && statuses[i] != Completed)
  {
    ViewAgreesWithModel(statuses);
    var d := DerivedStatus(statuses);
    StatusNameInjective(d, Completed);
    StatusNameInjective(d, Triggered);
    StatusNameInjective(d, YetToStart);
  }

  /** One element of the `batches` list of a status response (`BatchSerializer`). */
  datatype BatchEntry = BatchEntry(batchId: BatchId, ids: seq<int>, status: string)

  function EntryOf(b: Batch): (e: BatchEntry)
    ensures e.batchId == b.batchId && e.ids == b.ids && e.status == StatusName(b.status)
  {
    BatchEntry(b.batchId, b.ids, StatusName(b.status))
  }

  /** The serialized batches, in the order of the query. */
  function Entries(rows: seq<Batch>): (r: seq<BatchEntry>)
    ensures |r| == |rows| && forall i :: 0 <= i < |rows| ==> r[i] == EntryOf(rows[i])
  {
    seq(|rows|, i requires 0 <= i < |rows| => EntryOf(rows[i]))
  }

  /** The body of a successful status response. */
  datatype StatusResponse = StatusResponse(ingestionId: IngestionId, status: string, batches: seq<BatchEntry>)

  /** Why a status query fails: an unknown request, or the catch-all 500 response. */
  datatype StatusError = NotFound | InternalError

  /**
   * `get_status` as intended: an unknown request id is reported as not
   * found; otherwise the response carries the id, every batch of that
   * request once, in creation order (the order of the batch ids), and the
   * status aggregated from them, which is the request's own `status` property.
   */
  function GetStatus(db: Store, ingestionId: IngestionId): (r: Result<StatusResponse, StatusError>)
    reads db
    requires db.Valid()
    ensures r.Err? <==> ingestionId !in db.requests
    ensures r.Err? ==> r.error == NotFound
    ensures r.Ok? ==> r.value.ingestionId == ingestionId
    ensures r.Ok? ==> forall j :: 0 <= j < |r.value.batches| ==>
      r.value.batches[j].batchId in db.batches && db.batches[r.value.batches[j].batchId].ingestionId == ingestionId &&
      r.value.batches[j] == EntryOf(db.batches[r.value.batches[j].batchId])
    ensures r.Ok? ==> forall b :: b in db.batches && db.batches[b].ingestionId == ingestionId ==> EntryOf(db.batches[b]) in r.value.batches
    ensures r.Ok? ==> forall i, j :: 0 <= i < j < |r.value.batches| ==> r.value.batches[i].batchId < r.value.batches[j].batchId
    ensures r.Ok? ==> r.value.batches == Entries(db.BatchesOf(ingestionId))
    ensures r.Ok? ==> r.value.status == StatusName(db.RequestStatus(ingestionId))
  {
    if ingestionId !in db.requests then Err(NotFound)
    else
      var rows := db.BatchesOf(ingestionId);
      EntriesOfRows(db.batches, rows, ingestionId);
      ViewAgreesWithModel(StatusesOf(rows));
      Ok(StatusResponse(ingestionId, AggregateStatus(NamesOf(StatusesOf(rows))), Entries(rows)))
  }

  /** The serialized rows of one request are the stored rows of that request, all of them. */
  lemma EntriesOfRows(batches: map<BatchId, Batch>, rows: seq<Batch>, ingestionId: IngestionId)
    requires forall j :: 0 <= j < |rows| ==> rows[j].ingestionId == ingestionId && rows[j].batchId in batches && batches[rows[j].batchId] == rows[j]
    requires forall b :: b in batches && batches[b].ingestionId == ingestionId ==> batches[b] in rows
    ensures forall j :: 0 <= j < |Entries(rows)| ==>
      Entries(rows)[j].batchId in batches && batches[Entries(rows)[j].batchId].ingestionId == ingestionId &&
      Entries(rows)[j] == EntryOf(batches[Entries(rows)[j].batchId])
    ensures forall b :: b in batches && batches[b].ingestionId == ingestionId ==> EntryOf(batches[b]) in Entries(rows)
  {
    forall b | b in batches && batches[b].ingestionId == ingestionId
      ensures EntryOf(batches[b]) in Entries(rows)
    {
      var j :| 0 <= j < |rows| && rows[j] == batches[b];
      assert Entries(rows)[j] == EntryOf(batches[b]);
    }
  }

  /**
   * `get_status` as written: the `get_object_or_404` lookup raises its
   * not-found exception inside the `try` whose `except Exception` handler
   * turns every exception into the internal-error response.
   */
  function GetStatusAsWritten(db: Store, ingestionId: IngestionId): (r: Result<StatusResponse, StatusError>)
    reads db
    requires db.Valid()
    ensures r.Ok? <==> ingestionId in db.requests
    ensures r.Ok? ==> r == GetStatus(db, ingestionId)
  {
    match GetStatus(db, ingestionId)
    case Err(_) => Err(InternalError)
    case ok => ok
  }

  /** An unknown request id gets the internal-error response, never the not-found one. */
  lemma UnknownIdIsInternalError(db: Store, ingestionId: IngestionId)
    requires db.Valid() && ingestionId !in db.requests
    ensures GetStatusAsWritten(db, ingestionId) == Err(InternalError)
    ensures GetStatus(db, ingestionId) == Err(NotFound)
  {
  }

  /**
   * Selecting over the old creation order followed by the new ids, when
   * none of the old rows belongs to `ingestionId` and every new one does,
   * gives exactly the new rows.
   */
  lemma SelectAfterOld(order: seq<BatchId>, added: seq<BatchId>, rows: map<BatchId, Batch>, after: map<BatchId, Batch>, ingestionId: IngestionId)
    requires forall i :: 0 <= i < |order| ==> order[i] in rows && rows[order[i]].ingestionId != ingestionId
    requires forall i :: 0 <= i < |order| ==> order[i] in after && after[order[i]] == rows[order[i]]
    requires forall j :: 0 <= j < |added| ==> added[j] in after && after[added[j]].ingestionId == ingestionId
    ensures forall i :: 0 <= i < |order + added| ==> (order + added)[i] in after
    ensures |Select(order + added, after, ingestionId)| == |added|
    ensures forall j :: 0 <= j < |added| ==> Select(order + added, after, ingestionId)[j] == after[added[j]]
  {
    forall i | 0 <= i < |order + added| ensures (order + added)[i] in after {
      if i < |order| {
        assert (order + added)[i] == order[i];
      } else {
        assert (order + added)[i] == added[i - |order|];
      }
    }
    SelectAppend(order, added, after, ingestionId);
    SelectFrame(order, after, rows, ingestionId);
    SelectNone(order, rows, ingestionId);
    SelectAll(added, after, ingestionId);
  }

  /**
   * The batches recorded for a request created just before its rows: rows
   * added under fresh ids for `chunks` and appended to the creation order
   * are exactly that request's batches, in chunk order.
   */
  lemma FreshRequestRows(order: seq<BatchId>, rows: map<BatchId, Batch>, ingestionId: IngestionId, first: BatchId, chunks: seq<seq<int>>)
    requires forall i :: 0 <= i < |order| ==> order[i] in rows && rows[order[i]].ingestionId != ingestionId
    requires forall k :: k in rows ==> k < first
    ensures forall i :: 0 <= i < |order| + |chunks| ==> (order + IdRange(first, |chunks|))[i] in AddRows(rows, first, ingestionId, chunks)
    ensures |Select(order + IdRange(first, |chunks|), AddRows(rows, first, ingestionId, chunks), ingestionId)| == |chunks|
    ensures forall j :: 0 <= j < |chunks| ==>
      Select(order + IdRange(first, |chunks|), AddRows(rows, first, ingestionId, chunks), ingestionId)[j] == NewBatch(first + j, ingestionId, chunks[j])
  {
    var after := AddRows(rows, first, ingestionId, chunks);
    var added := IdRange(first, |chunks|);
    AddRowsContents(rows, first, ingestionId, chunks);
    assert forall i :: 0 <= i < |order| ==> order[i] in after && after[order[i]] == rows[order[i]];
    forall j | 0 <= j < |added| ensures added[j] in after && after[added[j]].ingestionId == ingestionId {
      assert added[j] == first + j;
      assert after[first + j] == NewBatch(first + j, ingestionId, chunks[j]);
    }
    SelectAfterOld(order, added, rows, after, ingestionId);
    var sel := Select(order + added, after, ingestionId);
    forall j | 0 <= j < |chunks| ensures sel[j] == NewBatch(first + j, ingestionId, chunks[j]) {
      var key := added[j];
      assert key == first + j;
      assert sel[j] == after[key];
    }
  }

  /**
   * The rows of a request after creating rows for `chunks` under fresh ids:
   * exactly one yet_to_start row per chunk, in chunk order.
   */
  lemma RequestRows(db: Store, ingestionId: IngestionId, order: seq<BatchId>, rows: map<BatchId, Batch>, first: BatchId, chunks: seq<seq<int>>)
    requires db.Valid()
    requires forall i :: 0 <= i < |order| ==> order[i] in rows && rows[order[i]].ingestionId != ingestionId
    requires forall k :: k in rows ==> k < first
    requires db.batchOrder == order + IdRange(first, |chunks|) && db.batches == AddRows(rows, first, ingestionId, chunks)
    ensures |db.BatchesOf(ingestionId)| == |chunks|
    ensures forall j :: 0 <= j < |chunks| ==> db.BatchesOf(ingestionId)[j] == NewBatch(first + j, ingestionId, chunks[j])
    ensures IdsOf(db.BatchesOf(ingestionId)) == chunks
    ensures forall j :: 0 <= j < |db.BatchesOf(ingestionId)| ==> db.BatchesOf(ingestionId)[j].status == YetToStart
  {
    FreshRequestRows(order, rows, ingestionId, first, chunks);
    NewRowsOf(db.BatchesOf(ingestionId), ingestionId, first, chunks);
  }

  /** Rows created one per chunk hold the chunks, in order, and are all yet_to_start. */
  lemma NewRowsOf(created: seq<Batch>, ingestionId: IngestionId, first: BatchId, chunks: seq<seq<int>>)
    requires |created| == |chunks| && forall j :: 0 <= j < |chunks| ==> created[j] == NewBatch(first + j, ingestionId, chunks[j])
    ensures IdsOf(created) == chunks
    ensures forall j :: 0 <= j < |created| ==> created[j].status == YetToStart
  {
  }

  /**
   * The part of `ingest` after validation: create the ingestion request and
   * hand its ids and priority to `add_batches`. The new request's batches
   * are the chunks of the ids, all yet_to_start, and one queue item is
   * pushed per chunk.
   */
  method Accept(processor: BatchProcessor, ids: seq<int>, priority: Priority, now: int) returns (ingestionId: IngestionId)
    requires processor.Valid() && ids != []
    modifies processor, processor.db
    ensures processor.Valid() && processor.processing
    ensures ingestionId !in old(processor.db.requests)
    ensures processor.db.requests == old(processor.db.requests)[ingestionId := IngestionRequest(priority, now)]
    ensures IdsOf(processor.db.BatchesOf(ingestionId)) == Chunks(ids)
    ensures forall j :: 0 <= j < |processor.db.BatchesOf(ingestionId)| ==> processor.db.BatchesOf(ingestionId)[j].status == YetToStart
    ensures processor.queue == old(processor.queue) +
      NewItems(PriorityValue(PriorityName(priority)), now, old(processor.db.nextBatchId), ingestionId, Chunks(ids))
    ensures forall b :: b in old(processor.db.batches) ==> b in processor.db.batches && processor.db.batches[b] == old(processor.db.batches)[b]
    ensures forall b :: b in processor.db.batches && b !in old(processor.db.batches) ==> processor.db.batches[b].ingestionId == ingestionId
    ensures processor.tasks == old(processor.tasks) && processor.lastProcessedTime == old(processor.lastProcessedTime)
  {
    var db := processor.db;
    ingestionId := db.CreateRequest(priority, now);
    ghost var order, rows, first := db.batchOrder, db.batches, db.nextBatchId;
    var ok := processor.AddBatches(ingestionId, ids, PriorityName(priority), now);
    RequestRows(db, ingestionId, order, rows, first, Chunks(ids));
  }

  /**
   * `ingest`: an invalid submission is answered with its field errors before
   * anything is created or queued; a valid one is accepted, and the answer
   * is the new request id, whose batches then hold the submitted ids in
   * chunks of three, all yet_to_start, so that its status is yet_to_start.
   */
  method Ingest(processor: BatchProcessor, raw: RawSubmission, now: int) returns (r: Result<IngestionId, set<Field>>)
    requires processor.Valid()
    modifies processor, processor.db
    ensures processor.Valid()
    ensures r.Err? <==> !ValidSubmission(raw)
    ensures r.Err? ==> r.error == Validate(raw).error
    ensures r.Err? ==> processor.db.requests == old(processor.db.requests) && processor.db.batches == old(processor.db.batches)
    ensures r.Err? ==> processor.db.batchOrder == old(processor.db.batchOrder)
    ensures r.Err? ==> processor.db.nextRequestId == old(processor.db.nextRequestId) && processor.db.nextBatchId == old(processor.db.nextBatchId)
    ensures r.Err? ==> processor.queue == old(processor.queue) && processor.processing == old(processor.processing)
    ensures r.Ok? ==> r.value !in old(processor.db.requests)
    ensures r.Ok? ==> processor.db.requests == old(processor.db.requests)[r.value := IngestionRequest(Validate(raw).value.priority, now)]
    ensures r.Ok? ==> IdsOf(processor.db.BatchesOf(r.value)) == Chunks(IntsOf(raw.ids.items))
    ensures r.Ok? ==> Flatten(IdsOf(processor.db.BatchesOf(r.value))) == IntsOf(raw.ids.items)
    ensures r.Ok? ==> processor.db.RequestStatus(r.value) == YetToStart
    ensures r.Ok? ==>
      processor.queue == old(processor.queue) + NewItems(PriorityValue(raw.priority.text), now, old(processor.db.nextBatchId), r.value, Chunks(IntsOf(raw.ids.items)))
    ensures r.Ok? ==> processor.processing
    ensures forall b :: b in old(processor.db.batches) ==> b in processor.db.batches && processor.db.batches[b] == old(processor.db.batches)[b]
    ensures r.Ok? ==> forall b :: b in processor.db.batches && b !in old(processor.db.batches) ==> processor.db.batches[b].ingestionId == r.value
    ensures processor.tasks == old(processor.tasks) && processor.lastProcessedTime == old(processor.lastProcessedTime)
  {
    var validated := Validate(raw);
    if validated.Err? {
      return Err(validated.error);
    }
    var ids := validated.value.ids;
    var ingestionId := Accept(processor, ids, validated.value.priority, now);
    ChunksFlatten(ids);
    ghost var statuses := StatusesOf(processor.db.BatchesOf(ingestionId));
    assert statuses != [] && statuses[0] == YetToStart;
    r := Ok(ingestionId);
  }
}
