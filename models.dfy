/**
 * The stored entities of the ingestion service: the priority and status
 * choices, ingestion requests, batches, the table store that holds them, and
 * the status an ingestion request derives from its batches.
 */
module Models {
  import opened Results

  /** Opaque identifiers handed out by the store (uuid strings in the service). */
  type IngestionId = nat
  type BatchId = nat

  datatype Priority = High | Medium | Low

  /** The stored value of each priority choice. */
  function PriorityName(p: Priority): string
  {
    match p
    case High => "HIGH"
    case Medium => "MEDIUM"
    case Low => "LOW"
  }

  /** Looks a stored value up among the priority choices. */
  function ParsePriority(s: string): (r: Option<Priority>)
    ensures forall p :: r == Some(p) <==> s == PriorityName(p)
  {
    if s == "HIGH" then Some(High)
    else if s == "MEDIUM" then Some(Medium)
    else if s == "LOW" then Some(Low)
    else None
  }

  datatype BatchStatus = YetToStart | Triggered | Completed

  /** Position of a status in the batch lifecycle yet_to_start, triggered, completed. */
  function Stage(s: BatchStatus): nat
  {
    match s
    case YetToStart => 0
    case Triggered => 1
    case Completed => 2
  }

  /** The stored value of each status choice. */
  function StatusName(s: BatchStatus): string
  {
    match s
    case YetToStart => "yet_to_start"
    case Triggered => "triggered"
    case Completed => "completed"
  }

  /** Distinct statuses are stored as distinct values. */
  lemma StatusNameInjective(s: BatchStatus, t: BatchStatus)
    ensures StatusName(s) == StatusName(t) <==> s == t
  {
    if s != t {
      assert StatusName(s)[0] != StatusName(t)[0] || |StatusName(s)| != |StatusName(t)|;
    }
  }

  datatype IngestionRequest = IngestionRequest(priority: Priority, createdAt: int)

  datatype Batch = Batch(batchId: BatchId, ingestionId: IngestionId, ids: seq<int>, status: BatchStatus)

  /** A batch row as the store creates it: the status column defaults to yet_to_start. */
  function NewBatch(batchId: BatchId, ingestionId: IngestionId, ids: seq<int>): (b: Batch)
    ensures b.status == YetToStart
    ensures b.batchId == batchId && b.ingestionId == ingestionId && b.ids == ids
  {
    Batch(batchId, ingestionId, ids, YetToStart)
  }

  /** Every batch present before is still present, at the same or a later lifecycle stage. */
  predicate Advances(before: map<BatchId, Batch>, after: map<BatchId, Batch>)
  {
    forall b :: b in before ==> b in after && Stage(before[b].status) <= Stage(after[b].status)
  }

  /** Python's `all(status == s for status in statuses)`. */
  function AllAre(statuses: seq<BatchStatus>, s: BatchStatus): (r: bool)
    ensures r <==> forall i :: 0 <= i < |statuses| ==> statuses[i] == s
  {
    if statuses == [] then true else statuses[0] == s && AllAre(statuses[1..], s)
  }

  /** Python's `any(status == s for status in statuses)`. */
  function AnyIs(statuses: seq<BatchStatus>, s: BatchStatus): (r: bool)
    ensures r <==> exists i :: 0 <= i < |statuses| && statuses[i] == s
  {
    if statuses == [] then false else statuses[0] == s || AnyIs(statuses[1..], s)
  }

  /**
   * The `status` property of an ingestion request, computed from the statuses
   * of its batches: completed when every batch is, otherwise triggered when
   * some batch is, otherwise yet_to_start (which includes having no batches).
   */
  function DerivedStatus(statuses: seq<BatchStatus>): (r: BatchStatus)
    ensures statuses == [] ==> r == YetToStart
    ensures r == Completed <==> statuses != [] && forall i :: 0 <= i < |statuses| ==> statuses[i] == Completed
    ensures r == Triggered <==> exists i :: 0 <= i < |statuses| && statuses[i] == Triggered
    ensures r == YetToStart <==>
      (forall i :: 0 <= i < |statuses| ==> statuses[i] != Triggered) &&
      (statuses == [] || exists i :: 0 <= i < |statuses| && statuses[i] != Completed)
  {
    if statuses == [] then YetToStart
    else if AllAre(statuses, Completed) then Completed
    else if AnyIs(statuses, Triggered) then Triggered
    else YetToStart
  }

  /** The statuses of a list of batches, in the same order. */
  function StatusesOf(batches: seq<Batch>): (r: seq<BatchStatus>)
    ensures |r| == |batches| && forall i :: 0 <= i < |r| ==> r[i] == batches[i].status
  {
    seq(|batches|, i requires 0 <= i < |batches| => batches[i].status)
  }

  /** The id lists of a list of batches, in the same order. */
  function IdsOf(batches: seq<Batch>): (r: seq<seq<int>>)
    ensures |r| == |batches| && forall i :: 0 <= i < |r| ==> r[i] == batches[i].ids
  {
    seq(|batches|, i requires 0 <= i < |batches| => batches[i].ids)
  }

  /**
   * The rows of `batches` listed in `order` that belong to `ingestionId`,
   * keeping the order (a filtered query over the batch table).
   */
  function Select(order: seq<BatchId>, batches: map<BatchId, Batch>, ingestionId: IngestionId): (r: seq<Batch>)
    requires forall i :: 0 <= i < |order| ==> order[i] in batches
    ensures forall j :: 0 <= j < |r| ==> r[j].ingestionId == ingestionId
    ensures forall i :: 0 <= i < |order| && batches[order[i]].ingestionId == ingestionId ==> batches[order[i]] in r
  {
    if order == [] then []
    else
      var head := batches[order[0]];
      var rest := Select(order[1..], batches, ingestionId);
      assert forall i :: 1 <= i < |order| ==> order[i] == order[1..][i - 1];
      if head.ingestionId == ingestionId then [head] + rest else rest
  }

  /** When every row listed is stored under its own id, each selected row is the stored row under its id. */
  lemma {:induction false} SelectRows(order: seq<BatchId>, batches: map<BatchId, Batch>, ingestionId: IngestionId)
    requires forall i :: 0 <= i < |order| ==> order[i] in batches && batches[order[i]].batchId == order[i]
    ensures forall j :: 0 <= j < |Select(order, batches, ingestionId)| ==>
      var b := Select(order, batches, ingestionId)[j]; b.batchId in batches && batches[b.batchId] == b
  {
    if order != [] {
      SelectRows(order[1..], batches, ingestionId);
    }
  }

  /**
   * Over an order that lists each row under its own id, in increasing id
   * order, the selection is in increasing id order too, none below the first listed.
   */
  lemma {:induction false} SelectSorted(order: seq<BatchId>, batches: map<BatchId, Batch>, ingestionId: IngestionId)
    requires forall i :: 0 <= i < |order| ==> order[i] in batches && batches[order[i]].batchId == order[i]
    requires forall i, j :: 0 <= i < j < |order| ==> order[i] < order[j]
    ensures forall j :: 0 <= j < |Select(order, batches, ingestionId)| ==> order[0] <= Select(order, batches, ingestionId)[j].batchId
    ensures forall i, j :: 0 <= i < j < |Select(order, batches, ingestionId)| ==>
      Select(order, batches, ingestionId)[i].batchId < Select(order, batches, ingestionId)[j].batchId
  {
    if order != [] {
      var rest := order[1..];
      SelectSorted(rest, batches, ingestionId);
      if rest != [] {
        assert order[0] < rest[0];
      }
    }
  }

  /** Selecting over a concatenated order is selecting over each part. */
  lemma {:induction false} SelectAppend(a: seq<BatchId>, b: seq<BatchId>, batches: map<BatchId, Batch>, ingestionId: IngestionId)
    requires forall i :: 0 <= i < |a| ==> a[i] in batches
    requires forall i :: 0 <= i < |b| ==> b[i] in batches
    ensures Select(a + b, batches, ingestionId) == Select(a, batches, ingestionId) + Select(b, batches, ingestionId)
  {
    if a != [] {
      assert (a + b)[1..] == a[1..] + b;
      SelectAppend(a[1..], b, batches, ingestionId);
    } else {
      assert a + b == b;
    }
  }

  /** Selection only depends on the rows it lists. */
  lemma {:induction false} SelectFrame(order: seq<BatchId>, m1: map<BatchId, Batch>, m2: map<BatchId, Batch>, ingestionId: IngestionId)
    requires forall i :: 0 <= i < |order| ==> order[i] in m1 && order[i] in m2 && m1[order[i]] == m2[order[i]]
    ensures Select(order, m1, ingestionId) == Select(order, m2, ingestionId)
  {
    if order != [] {
      SelectFrame(order[1..], m1, m2, ingestionId);
    }
  }

  /** No row listed belongs to `ingestionId`: the selection is empty. */
  lemma {:induction false} SelectNone(order: seq<BatchId>, batches: map<BatchId, Batch>, ingestionId: IngestionId)
    requires forall i :: 0 <= i < |order| ==> order[i] in batches && batches[order[i]].ingestionId != ingestionId
    ensures Select(order, batches, ingestionId) == []
  {
    if order != [] {
      SelectNone(order[1..], batches, ingestionId);
    }
  }

  /** Every row listed belongs to `ingestionId`: the selection is all of them, in order. */
  lemma {:induction false} SelectAll(order: seq<BatchId>, batches: map<BatchId, Batch>, ingestionId: IngestionId)
    requires forall i :: 0 <= i < |order| ==> order[i] in batches && batches[order[i]].ingestionId == ingestionId
    ensures |Select(order, batches, ingestionId)| == |order|
    ensures forall j :: 0 <= j < |order| ==> Select(order, batches, ingestionId)[j] == batches[order[j]]
  {
    if order != [] {
      SelectAll(order[1..], batches, ingestionId);
      assert forall j :: 1 <= j < |order| ==> order[1..][j - 1] == order[j];
    }
  }

  /**
   * The status derived from a list holding exactly the stored rows of a
   * request, read off the table itself.
   */
  lemma RowsStatus(batches: map<BatchId, Batch>, rows: seq<Batch>, ingestionId: IngestionId)
    requires forall j :: 0 <= j < |rows| ==> rows[j].ingestionId == ingestionId && rows[j].batchId in batches && batches[rows[j].batchId] == rows[j]
    requires forall b :: b in batches && batches[b].ingestionId == ingestionId ==> batches[b] in rows
    ensures DerivedStatus(StatusesOf(rows)) == Completed <==>
      (exists b :: b in batches && batches[b].ingestionId == ingestionId) &&
      (forall b :: b in batches && batches[b].ingestionId == ingestionId ==> batches[b].status == Completed)
    ensures DerivedStatus(StatusesOf(rows)) == Triggered <==>
      exists b :: b in batches && batches[b].ingestionId == ingestionId && batches[b].status == Triggered
  {
    var statuses := StatusesOf(rows);
    assert forall b :: b in batches && batches[b].ingestionId == ingestionId ==>
      exists i :: 0 <= i < |rows| && rows[i] == batches[b] && statuses[i] == batches[b].status;
    assert forall i :: 0 <= i < |rows| ==>
      rows[i].batchId in batches && batches[rows[i].batchId].ingestionId == ingestionId && batches[rows[i].batchId].status == statuses[i];
  }

  /**
   * The tables of the service: ingestion requests, batches, the batches'
   * creation order, and a supply of fresh identifiers.
   */
  class Store {
    var requests: map<IngestionId, IngestionRequest>
    var batches: map<BatchId, Batch>
    var batchOrder: seq<BatchId>
    var nextRequestId: nat
    var nextBatchId: nat

    ghost predicate Valid()
      reads this
    {
      && (forall r :: r in requests ==> r < nextRequestId)
      && (forall b :: b in batches ==> b < nextBatchId && batches[b].batchId == b && batches[b].ingestionId in requests)
      && (forall i :: 0 <= i < |batchOrder| ==> batchOrder[i] in batches)
      && (forall b :: b in batches ==> b in batchOrder)
      && (forall i, j :: 0 <= i < j < |batchOrder| ==> batchOrder[i] < batchOrder[j])
    }

    constructor ()
      ensures Valid()
      ensures requests == map[] && batches == map[] && batchOrder == []
    {
      requests, batches, batchOrder := map[], map[], [];
      nextRequestId, nextBatchId := 0, 0;
    }

    /** `IngestionRequest.objects.create`: a new row under an identifier never used before. */
    method CreateRequest(priority: Priority, now: int) returns (id: IngestionId)
      requires Valid()
      modifies this
      ensures Valid()
      ensures id == old(nextRequestId) && id !in old(requests)
      ensures requests == old(requests)[id := IngestionRequest(priority, now)]
      ensures nextRequestId == id + 1
      ensures batches == old(batches) && batchOrder == old(batchOrder) && nextBatchId == old(nextBatchId)
    {
      id := nextRequestId;
      requests := requests[id := IngestionRequest(priority, now)];
      nextRequestId := nextRequestId + 1;
    }

    /** `Batch.objects.create` with the default status, appended to the creation order. */
    method CreateBatch(ingestionId: IngestionId, ids: seq<int>) returns (id: BatchId)
      requires Valid() && ingestionId in requests
      modifies this
      ensures Valid()
      ensures id == old(nextBatchId) && id !in old(batches)
      ensures batches == old(batches)[id := NewBatch(id, ingestionId, ids)]
      ensures batchOrder == old(batchOrder) + [id]
      ensures nextBatchId == id + 1
      ensures requests == old(requests) && nextRequestId == old(nextRequestId)
    {
      id := nextBatchId;
      batches := batches[id := NewBatch(id, ingestionId, ids)];
      batchOrder := batchOrder + [id];
      nextBatchId := nextBatchId + 1;
    }

    /** `batch.status = status; batch.save()` on an existing row. */
    method SetStatus(id: BatchId, status: BatchStatus)
      requires Valid() && id in batches
      modifies this
      ensures Valid()
      ensures batches == old(batches)[id := old(batches)[id].(status := status)]
      ensures requests == old(requests) && batchOrder == old(batchOrder)
      ensures nextRequestId == old(nextRequestId) && nextBatchId == old(nextBatchId)
    {
      batches := batches[id := batches[id].(status := status)];
    }

    /**
     * The batches of one ingestion request (`request.batches`), each once and
     * in creation order, which is the order of their ids.
     */
    function BatchesOf(ingestionId: IngestionId): (r: seq<Batch>)
      reads this
      requires Valid()
      ensures forall j :: 0 <= j < |r| ==> r[j].ingestionId == ingestionId && r[j].batchId in batches && batches[r[j].batchId] == r[j]
      ensures forall b :: b in batches && batches[b].ingestionId == ingestionId ==> batches[b] in r
      ensures forall i, j :: 0 <= i < j < |r| ==> r[i].batchId < r[j].batchId
    {
      SelectRows(batchOrder, batches, ingestionId);
      SelectSorted(batchOrder, batches, ingestionId);
      Select(batchOrder, batches, ingestionId)
    }

    /**
     * The `status` property of the ingestion request `ingestionId`, read off
     * its stored rows: completed when it has rows and all are completed,
     * triggered when one of them is triggered, yet_to_start otherwise.
     */
    function RequestStatus(ingestionId: IngestionId): (r: BatchStatus)
      reads this
      requires Valid()
      ensures r == Completed <==>
        (exists b :: b in batches && batches[b].ingestionId == ingestionId) &&
        (forall b :: b in batches && batches[b].ingestionId == ingestionId ==> batches[b].status == Completed)
      ensures r == Triggered <==> exists b :: b in batches && batches[b].ingestionId == ingestionId && batches[b].status == Triggered
    {
      RowsStatus(batches, BatchesOf(ingestionId), ingestionId);
      DerivedStatus(StatusesOf(BatchesOf(ingestionId)))
    }
  }

  /** While some row of a request is saved as triggered, the request's status is triggered. */
  lemma TriggeredRowShows(db: Store, b: BatchId)
    requires db.Valid() && b in db.batches && db.batches[b].status == Triggered
    ensures db.RequestStatus(db.batches[b].ingestionId) == Triggered
  {
  }
}
