/**
 * The batch scheduler: the queue-item order, the priority ranks, the split of
 * a submission into batches of three, the rate limit between dispatch
 * starts, and the processor object whose worker drains the queue and whose
 * processing tasks move each batch through its lifecycle.
 */
module Tasks {
  import opened Results
  import opened Models

  /** Ids per batch. */
  const BatchSize := 3
  /** Minimum ticks between the starts of two dispatches. */
  const RateLimit := 5

  datatype QueueItem = QueueItem(priorityValue: int, createdTime: int, batchId: BatchId, ids: seq<int>, ingestionId: IngestionId)

  /** `QueueItem.__lt__`: lower priority value first, then earlier creation time. */
  predicate Less(a: QueueItem, b: QueueItem)
  {
    if a.priorityValue != b.priorityValue then a.priorityValue < b.priorityValue
    else a.createdTime < b.createdTime
  }

  /**
   * `Less` is a strict weak order: irreflexive and transitive, items with
   * equal keys are incomparable, and priority value dominates creation time.
   */
  lemma LessOrder(a: QueueItem, b: QueueItem, c: QueueItem)
    ensures !Less(a, a)
    ensures Less(a, b) ==> !Less(b, a)
    ensures Less(a, b) && Less(b, c) ==> Less(a, c)
    ensures !Less(a, b) && !Less(b, c) ==> !Less(a, c)
    ensures (!Less(a, b) && !Less(b, a)) <==> (a.priorityValue == b.priorityValue && a.createdTime == b.createdTime)
    ensures a.priorityValue < b.priorityValue ==> Less(a, b)
    ensures a.priorityValue == b.priorityValue ==> (Less(a, b) <==> a.createdTime < b.createdTime)
  {
  }

  /** The rank of each priority choice. */
  const PriorityMap: map<string, int> := map[PriorityName(High) := 1, PriorityName(Medium) := 2, PriorityName(Low) := 3]

  /** `get_priority_value`: the rank of a priority, where anything unknown ranks with LOW. */
  function PriorityValue(priority: string): (r: int)
    ensures 1 <= r <= 3
    ensures r == 1 <==> priority == PriorityName(High)
    ensures r == 2 <==> priority == PriorityName(Medium)
    ensures r == 3 <==> priority != PriorityName(High) && priority != PriorityName(Medium)
  {
    if priority in PriorityMap then PriorityMap[priority] else 3
  }

  /** The rate limit check: how long the worker waits before it may start the next dispatch. */
  function WaitTime(now: int, last: int): (w: int)
    ensures w >= 0
    ensures now + w - last >= RateLimit
    ensures w > 0 ==> now + w - last == RateLimit
    ensures w == 0 <==> now - last >= RateLimit
    ensures now >= last ==> w <= RateLimit
  {
    var since := now - last;
    if since < RateLimit then RateLimit - since else 0
  }

  /** The chunks `ids[i:i+3]` for `i` in `range(0, len(ids), 3)`. */
  function Chunks(ids: seq<int>): seq<seq<int>>
    decreases |ids|
  {
    if ids == [] then []
    else if |ids| <= BatchSize then [ids]
    else [ids[..BatchSize]] + Chunks(ids[BatchSize..])
  }

  function Flatten(chunks: seq<seq<int>>): seq<int>
  {
    if chunks == [] then [] else chunks[0] + Flatten(chunks[1..])
  }

  /** Every chunk holds between one and three ids. */
  lemma {:induction false} ChunksSizes(ids: seq<int>)
    ensures forall k :: 0 <= k < |Chunks(ids)| ==> 1 <= |Chunks(ids)[k]| <= BatchSize
    decreases |ids|
  {
    if |ids| > BatchSize {
      ChunksSizes(ids[BatchSize..]);
      var r := Chunks(ids);
      assert forall k :: 1 <= k < |r| ==> r[k] == Chunks(ids[BatchSize..])[k - 1];
    }
  }

  /** There are ceil(L / 3) chunks. */
  lemma {:induction false} ChunksCount(ids: seq<int>)
    ensures |Chunks(ids)| == (|ids| + BatchSize - 1) / BatchSize
    decreases |ids|
  {
    if |ids| > BatchSize {
      ChunksCount(ids[BatchSize..]);
    }
  }

  /** Every chunk but the last holds exactly three ids. */
  lemma {:induction false} ChunksFull(ids: seq<int>)
    ensures forall k :: 0 <= k < |Chunks(ids)| - 1 ==> |Chunks(ids)[k]| == BatchSize
    decreases |ids|
  {
    if |ids| > BatchSize {
      ChunksFull(ids[BatchSize..]);
      var r := Chunks(ids);
      assert forall k :: 1 <= k < |r| ==> r[k] == Chunks(ids[BatchSize..])[k - 1];
    }
  }

  /** Concatenating the chunks in order gives back the ids. */
  lemma {:induction false} ChunksFlatten(ids: seq<int>)
    ensures Flatten(Chunks(ids)) == ids
    decreases |ids|
  {
    if ids == [] {
    } else if |ids| <= BatchSize {
      assert Flatten([ids]) == ids + Flatten([]);
    } else {
      var r := Chunks(ids);
      ChunksFlatten(ids[BatchSize..]);
      assert r[1..] == Chunks(ids[BatchSize..]);
      assert ids == ids[..BatchSize] + ids[BatchSize..];
    }
  }

  /** The ids from position `i` on, and none once `i` has passed the end. */
  function Drop(ids: seq<int>, i: nat): seq<int>
  {
    if i <= |ids| then ids[i..] else []
  }

  /** One turn of the split loop: the chunk at `i` is followed by the chunks from `i + 3`. */
  lemma ChunksStep(ids: seq<int>, i: nat, done: seq<seq<int>>)
    requires i < |ids| && Chunks(ids) == done + Chunks(Drop(ids, i))
    ensures Chunks(ids) == (done + [ids[i..if i + BatchSize <= |ids| then i + BatchSize else |ids|]]) + Chunks(Drop(ids, i + BatchSize))
  {
    var rest := ids[i..];
    assert Drop(ids, i) == rest;
    if |rest| > BatchSize {
      assert rest[..BatchSize] == ids[i..i + BatchSize];
      assert rest[BatchSize..] == ids[i + BatchSize..] == Drop(ids, i + BatchSize);
    } else {
      assert rest == ids[i..|ids|];
      assert Drop(ids, i + BatchSize) == [];
    }
  }

  /** The position of an item that no other item of `q` is `Less` than: what `heappop` returns. */
  function MinIndex(q: seq<QueueItem>): (k: nat)
    requires q != []
    ensures k < |q|
    ensures forall j :: 0 <= j < |q| ==> !Less(q[j], q[k])
  {
    if |q| == 1 then 0
    else
      var m := MinIndex(q[1..]) + 1;
      assert forall j :: 1 <= j < |q| ==> q[j] == q[1..][j - 1];
      if Less(q[0], q[m]) then 0 else m
  }

  /** `q` without its element at `k`. */
  function RemoveAt<T>(q: seq<T>, k: nat): (r: seq<T>)
    requires k < |q|
    ensures |r| == |q| - 1
    ensures forall j :: 0 <= j < |r| ==> r[j] == q[if j < k then j else j + 1]
    ensures multiset(r) == multiset(q) - multiset{q[k]}
  {
    assert q == q[..k] + [q[k]] + q[k + 1..];
    q[..k] + q[k + 1..]
  }

  /** The queue items pushed for `chunks`, whose batches got the ids `first`, `first + 1`, ... */
  function NewItems(priorityValue: int, createdTime: int, first: BatchId, ingestionId: IngestionId, chunks: seq<seq<int>>): (r: seq<QueueItem>)
  {
    seq(|chunks|, k requires 0 <= k < |chunks| => QueueItem(priorityValue, createdTime, first + k, chunks[k], ingestionId))
  }

  /** The batch table `rows` after creating one row for each of `chunks`, under the ids `first`, `first + 1`, ... */
  function AddRows(rows: map<BatchId, Batch>, first: BatchId, ingestionId: IngestionId, chunks: seq<seq<int>>): map<BatchId, Batch>
  {
    if chunks == [] then rows
    else
      var n := |chunks| - 1;
      AddRows(rows, first, ingestionId, chunks[..n])[first + n := NewBatch(first + n, ingestionId, chunks[n])]
  }

  /** The rows added under fresh ids leave the old rows alone: the table gains exactly the new ids, each with its chunk. */
  lemma {:induction false} AddRowsContents(rows: map<BatchId, Batch>, first: BatchId, ingestionId: IngestionId, chunks: seq<seq<int>>)
    requires forall k :: k in rows ==> k < first
    ensures forall k :: k in AddRows(rows, first, ingestionId, chunks) <==> k in rows || first <= k < first + |chunks|
    ensures forall k :: k in rows ==> AddRows(rows, first, ingestionId, chunks)[k] == rows[k]
    ensures forall j :: 0 <= j < |chunks| ==> AddRows(rows, first, ingestionId, chunks)[first + j] == NewBatch(first + j, ingestionId, chunks[j])
    ensures forall k :: k in AddRows(rows, first, ingestionId, chunks) && k !in rows ==> AddRows(rows, first, ingestionId, chunks)[k].ingestionId == ingestionId
    ensures Advances(rows, AddRows(rows, first, ingestionId, chunks))
  {
    if chunks != [] {
      var n := |chunks| - 1;
      AddRowsContents(rows, first, ingestionId, chunks[..n]);
      assert forall j :: 0 <= j < n ==> chunks[..n][j] == chunks[j];
    }
  }

  /** The ids `first`, ..., `first + n - 1` in order. */
  function IdRange(first: BatchId, n: nat): (r: seq<BatchId>)
    ensures |r| == n && forall k :: 0 <= k < n ==> r[k] == first + k
  {
    seq(n, k requires 0 <= k < n => first + k)
  }

  lemma NewStep(rows: map<BatchId, Batch>, priorityValue: int, createdTime: int, first: BatchId, ingestionId: IngestionId, done: seq<seq<int>>, chunk: seq<int>)
    ensures NewItems(priorityValue, createdTime, first, ingestionId, done + [chunk]) ==
      NewItems(priorityValue, createdTime, first, ingestionId, done) + [QueueItem(priorityValue, createdTime, first + |done|, chunk, ingestionId)]
    ensures AddRows(rows, first, ingestionId, done + [chunk]) ==
      AddRows(rows, first, ingestionId, done)[first + |done| := NewBatch(first + |done|, ingestionId, chunk)]
    ensures IdRange(first, |done| + 1) == IdRange(first, |done|) + [first + |done|]
  {
    assert (done + [chunk])[..|done|] == done;
  }

  lemma AppendAssoc<T>(a: seq<T>, b: seq<T>, x: T)
    ensures a + (b + [x]) == (a + b) + [x]
  {
  }

  lemma NewEmpty(rows: map<BatchId, Batch>, priorityValue: int, createdTime: int, first: BatchId, ingestionId: IngestionId)
    ensures NewItems(priorityValue, createdTime, first, ingestionId, []) == []
    ensures AddRows(rows, first, ingestionId, []) == rows
    ensures IdRange(first, 0) == []
  {
  }

  /** Each item stands for a yet_to_start batch row that holds the same ids. */
  predicate Tracks(batches: map<BatchId, Batch>, items: seq<QueueItem>)
  {
    forall i :: 0 <= i < |items| ==>
      items[i].batchId in batches && batches[items[i].batchId] == NewBatch(items[i].batchId, items[i].ingestionId, items[i].ids)
  }

  /**
   * Each item stands for a batch row with the same request and ids that has
   * not completed yet: its processing task is still running.
   */
  predicate Runs(batches: map<BatchId, Batch>, items: seq<QueueItem>)
  {
    forall i :: 0 <= i < |items| ==>
      && items[i].batchId in batches
      && batches[items[i].batchId].batchId == items[i].batchId
      && batches[items[i].batchId].ingestionId == items[i].ingestionId
      && batches[items[i].batchId].ids == items[i].ids
      && batches[items[i].batchId].status != Completed
  }

  /** No two items stand for the same batch. */
  predicate DistinctBatches(items: seq<QueueItem>)
  {
    forall i, j :: 0 <= i < j < |items| ==> items[i].batchId != items[j].batchId
  }

  /** No item of `a` stands for the same batch as an item of `b`. */
  predicate Separate(a: seq<QueueItem>, b: seq<QueueItem>)
  {
    forall i, j :: 0 <= i < |a| && 0 <= j < |b| ==> a[i].batchId != b[j].batchId
  }

  /** Every batch row holds between one and three ids. */
  predicate BoundedChunks(batches: map<BatchId, Batch>)
  {
    forall b :: b in batches ==> 1 <= |batches[b].ids| <= BatchSize
  }

  /** A row added under a new key leaves the rows the items stand for as they were. */
  lemma ExtendPreserves(batches: map<BatchId, Batch>, key: BatchId, row: Batch, items: seq<QueueItem>)
    requires key !in batches && Tracks(batches, items)
    ensures Tracks(batches[key := row], items)
    ensures forall i :: 0 <= i < |items| ==> items[i].batchId != key
  {
  }

  /** Pushing an item for a row no other item stands for keeps the items apart. */
  lemma PushPreserves(queue: seq<QueueItem>, tasks: seq<QueueItem>, batches: map<BatchId, Batch>, item: QueueItem)
    requires Tracks(batches, queue) && Tracks(batches, [item])
    requires DistinctBatches(queue) && Separate(queue, tasks)
    requires forall i :: 0 <= i < |queue| ==> queue[i].batchId != item.batchId
    requires forall i :: 0 <= i < |tasks| ==> tasks[i].batchId != item.batchId
    ensures Tracks(batches, queue + [item]) && DistinctBatches(queue + [item]) && Separate(queue + [item], tasks)
  {
  }

  /** Creating the row for a new item under a fresh key and pushing the item keeps every item standing for its own row. */
  lemma AddPreserves(queue: seq<QueueItem>, tasks: seq<QueueItem>, batches: map<BatchId, Batch>, item: QueueItem)
    requires item.batchId !in batches && 1 <= |item.ids| <= BatchSize
    requires BoundedChunks(batches) && Tracks(batches, queue) && Runs(batches, tasks)
    requires DistinctBatches(queue) && DistinctBatches(tasks) && Separate(queue, tasks)
    ensures var after := batches[item.batchId := NewBatch(item.batchId, item.ingestionId, item.ids)];
      && BoundedChunks(after) && Tracks(after, queue + [item]) && Runs(after, tasks)
      && DistinctBatches(queue + [item]) && Separate(queue + [item], tasks)
  {
    var row := NewBatch(item.batchId, item.ingestionId, item.ids);
    ExtendPreserves(batches, item.batchId, row, queue);
    PushPreserves(queue, tasks, batches[item.batchId := row], item);
  }

  /** Moving the item at `k` of the queue to the end of the tasks keeps the items apart. */
  lemma MovePreserves(queue: seq<QueueItem>, tasks: seq<QueueItem>, batches: map<BatchId, Batch>, k: nat)
    requires k < |queue|
    requires Tracks(batches, queue) && Runs(batches, tasks)
    requires DistinctBatches(queue) && DistinctBatches(tasks) && Separate(queue, tasks)
    ensures Tracks(batches, RemoveAt(queue, k)) && Runs(batches, tasks + [queue[k]])
    ensures DistinctBatches(RemoveAt(queue, k)) && DistinctBatches(tasks + [queue[k]])
    ensures Separate(RemoveAt(queue, k), tasks + [queue[k]])
  {
    var q, t := RemoveAt(queue, k), tasks + [queue[k]];
    forall i, j | 0 <= i < |q| && 0 <= j < |t| ensures q[i].batchId != t[j].batchId {
      var i' := if i < k then i else i + 1;
      if j == |tasks| {
        assert q[i] == queue[i'] && i' != k;
      } else {
        assert q[i] == queue[i'] && t[j] == tasks[j];
      }
    }
    forall i, j | 0 <= i < j < |q| ensures q[i].batchId != q[j].batchId {
      assert q[i] == queue[if i < k then i else i + 1];
      assert q[j] == queue[if j < k then j else j + 1];
    }
  }

  /** Saving a new status for the row of task `k` leaves the other items standing for untouched rows. */
  lemma RestatusPreserves(queue: seq<QueueItem>, tasks: seq<QueueItem>, batches: map<BatchId, Batch>, k: nat, s: BatchStatus)
    requires k < |tasks|
    requires BoundedChunks(batches) && Tracks(batches, queue) && Runs(batches, tasks)
    requires DistinctBatches(tasks) && Separate(queue, tasks)
    ensures var b := tasks[k].batchId; var after := batches[b := batches[b].(status := s)];
      && BoundedChunks(after) && Tracks(after, queue)
      && forall i :: 0 <= i < |tasks| && i != k ==> tasks[i].batchId != b && after[tasks[i].batchId] == batches[tasks[i].batchId]
  {
  }

  /** Saving the row of task `k` as triggered keeps every running task standing for its row. */
  lemma TriggerPreserves(queue: seq<QueueItem>, tasks: seq<QueueItem>, batches: map<BatchId, Batch>, k: nat)
    requires k < |tasks|
    requires BoundedChunks(batches) && Tracks(batches, queue) && Runs(batches, tasks)
    requires DistinctBatches(tasks) && Separate(queue, tasks)
    ensures var b := tasks[k].batchId; var after := batches[b := batches[b].(status := Triggered)];
      && BoundedChunks(after) && Tracks(after, queue) && Runs(after, tasks)
  {
    RestatusPreserves(queue, tasks, batches, k, Triggered);
  }

  /** Saving the row of task `k` as completed and ending the task keeps the other items apart and standing for their rows. */
  lemma FinishPreserves(queue: seq<QueueItem>, tasks: seq<QueueItem>, batches: map<BatchId, Batch>, k: nat)
    requires k < |tasks|
    requires BoundedChunks(batches) && Tracks(batches, queue) && Runs(batches, tasks)
    requires DistinctBatches(queue) && DistinctBatches(tasks) && Separate(queue, tasks)
    ensures var b := tasks[k].batchId; var after := batches[b := batches[b].(status := Completed)];
      && BoundedChunks(after)
      && Tracks(after, queue) && Runs(after, RemoveAt(tasks, k))
      && DistinctBatches(RemoveAt(tasks, k)) && Separate(queue, RemoveAt(tasks, k))
  {
    RestatusPreserves(queue, tasks, batches, k, Completed);
    var t := RemoveAt(tasks, k);
    forall i, j | 0 <= i < j < |t| ensures t[i].batchId != t[j].batchId {
      assert t[i] == tasks[if i < k then i else i + 1];
      assert t[j] == tasks[if j < k then j else j + 1];
    }
    forall i | 0 <= i < |t| ensures t[i] == tasks[if i < k then i else i + 1] && (if i < k then i else i + 1) != k {
    }
    forall i, j | 0 <= i < |queue| && 0 <= j < |t| ensures queue[i].batchId != t[j].batchId {
      assert t[j] == tasks[if j < k then j else j + 1];
    }
  }

  /** `done` was dispatched in an order where nothing is `Less` than an item before it, and nothing in `rest` is `Less` than any of it. */
  predicate InOrder(done: seq<QueueItem>, rest: seq<QueueItem>)
  {
    && (forall i, j :: 0 <= i < j < |done| ==> !Less(done[j], done[i]))
    && (forall i, x :: 0 <= i < |done| && x in rest ==> !Less(x, done[i]))
  }

  /** Popping a minimal item of `before` keeps the dispatch order. */
  lemma InOrderStep(done: seq<QueueItem>, before: seq<QueueItem>, after: seq<QueueItem>, p: QueueItem)
    requires InOrder(done, before) && p in before
    requires forall x :: x in before ==> !Less(x, p)
    requires multiset(after) == multiset(before) - multiset{p}
    ensures InOrder(done + [p], after)
  {
    forall x | x in after ensures x in before {
      assert x in multiset(after);
    }
  }

  /**
   * The dispatch starts `starts` are at least `RateLimit` ticks apart and
   * after `last0`, and the latest of them (or `last0` when there is none) is `last`.
   */
  predicate Spaced(starts: seq<int>, last0: int, last: int)
  {
    && (|starts| == 0 ==> last == last0)
    && (|starts| > 0 ==> starts[0] - last0 >= RateLimit && starts[|starts| - 1] == last)
    && (forall i :: 0 < i < |starts| ==> starts[i] - starts[i - 1] >= RateLimit)
  }

  /** A dispatch at least `RateLimit` ticks after the latest keeps the starts spaced. */
  lemma SpacedStep(starts: seq<int>, last0: int, last: int, t: int)
    requires Spaced(starts, last0, last) && t - last >= RateLimit
    ensures Spaced(starts + [t], last0, t)
  {
  }

  /** Setting a row's status twice leaves the second status. */
  lemma RestatusTwice(rows: map<BatchId, Batch>, b: BatchId, s1: BatchStatus, s2: BatchStatus)
    requires b in rows
    ensures var mid := rows[b := rows[b].(status := s1)]; mid[b := mid[b].(status := s2)] == rows[b := rows[b].(status := s2)]
  {
  }

  /**
   * The scheduler: a priority queue of batches waiting for dispatch, the
   * start time of the last dispatch, whether a worker is running, and the
   * dispatched batches whose processing task has not finished yet. The batch
   * rows live in the store `db`.
   */
  class BatchProcessor {
    const db: Store
    var queue: seq<QueueItem>
    var lastProcessedTime: int
    var processing: bool
    var tasks: seq<QueueItem>

    /**
     * Everything but the worker flag: each queued item stands for its own
     * yet_to_start row, and each running task for its own row that has not
     * completed yet.
     */
    ghost predicate Consistent()
      reads this, db
    {
      && db.Valid()
      && BoundedChunks(db.batches)
      && Tracks(db.batches, queue) && Runs(db.batches, tasks)
      && DistinctBatches(queue) && DistinctBatches(tasks) && Separate(queue, tasks)
    }

    /** ... and a queue that holds items always has a worker to drain it. */
    ghost predicate Valid()
      reads this, db
    {
      Consistent() && (!processing ==> queue == [])
    }

    constructor (db: Store)
      requires db.Valid() && BoundedChunks(db.batches)
      ensures Valid() && this.db == db
      ensures queue == [] && tasks == [] && lastProcessedTime == 0 && !processing
    {
      this.db := db;
      queue, tasks := [], [];
      lastProcessedTime := 0;
      processing := false;
    }

    /**
     * The state after the split loop of `add_batches` has handled `done`:
     * one row and one queue item per chunk, under the ids from `first` on,
     * added to the queue `queue0`, the table `rows0` and the order `order0`.
     */
    ghost predicate Pushed(queue0: seq<QueueItem>, rows0: map<BatchId, Batch>, order0: seq<BatchId>,
                           requests0: map<IngestionId, IngestionRequest>, nextRequestId0: nat,
                           first: BatchId, ingestionId: IngestionId, priorityValue: int, createdTime: int, done: seq<seq<int>>)
      reads this, db
    {
      && db.requests == requests0 && db.nextRequestId == nextRequestId0
      && db.nextBatchId == first + |done|
      && queue == queue0 + NewItems(priorityValue, createdTime, first, ingestionId, done)
      && db.batches == AddRows(rows0, first, ingestionId, done)
      && db.batchOrder == order0 + IdRange(first, |done|)
    }

    /**
     * One turn of the split loop in `add_batches`: create the yet_to_start row
     * for `batchIds` and push its queue item.
     */
    method PushBatch(ingestionId: IngestionId, batchIds: seq<int>, priorityValue: int, createdTime: int,
                     ghost queue0: seq<QueueItem>, ghost rows0: map<BatchId, Batch>, ghost order0: seq<BatchId>,
                     ghost requests0: map<IngestionId, IngestionRequest>, ghost nextRequestId0: nat,
                     ghost first: BatchId, ghost done: seq<seq<int>>)
      requires Consistent() && ingestionId in db.requests && 1 <= |batchIds| <= BatchSize
      requires Pushed(queue0, rows0, order0, requests0, nextRequestId0, first, ingestionId, priorityValue, createdTime, done)
      modifies this`queue, db
      ensures Consistent()
      ensures Pushed(queue0, rows0, order0, requests0, nextRequestId0, first, ingestionId, priorityValue, createdTime, done + [batchIds])
    {
      AddPreserves(queue, tasks, db.batches, QueueItem(priorityValue, createdTime, db.nextBatchId, batchIds, ingestionId));
      var batchId := db.CreateBatch(ingestionId, batchIds);
      var item := QueueItem(priorityValue, createdTime, batchId, batchIds, ingestionId);
      queue := queue + [item];
      NewStep(rows0, priorityValue, createdTime, first, ingestionId, done, batchIds);
      AppendAssoc(queue0, NewItems(priorityValue, createdTime, first, ingestionId, done), item);
      AppendAssoc(order0, IdRange(first, |done|), batchId);
    }

    /**
     * The split loop of `add_batches`: for `i` in `range(0, len(ids), 3)`,
     * create the row for `ids[i:i+3]` and push its queue item.
     */
    method PushChunks(ingestionId: IngestionId, ids: seq<int>, priorityValue: int, createdTime: int)
      requires Consistent() && (ids != [] ==> ingestionId in db.requests)
      modifies this`queue, db
      ensures Consistent()
      ensures Pushed(old(queue), old(db.batches), old(db.batchOrder), old(db.requests), old(db.nextRequestId),
                     old(db.nextBatchId), ingestionId, priorityValue, createdTime, Chunks(ids))
    {
      ghost var first := db.nextBatchId;
      ghost var done: seq<seq<int>> := [];
      NewEmpty(db.batches, priorityValue, createdTime, first, ingestionId);
      var i: nat := 0;
      while i < |ids|
        invariant Chunks(ids) == done + Chunks(Drop(ids, i))
        invariant Consistent()
        invariant Pushed(old(queue), old(db.batches), old(db.batchOrder), old(db.requests), old(db.nextRequestId),
                         first, ingestionId, priorityValue, createdTime, done)
      {
        var end := if i + BatchSize <= |ids| then i + BatchSize else |ids|;
        var batchIds := ids[i..end];
        ChunksStep(ids, i, done);
        PushBatch(ingestionId, batchIds, priorityValue, createdTime,
          old(queue), old(db.batches), old(db.batchOrder), old(db.requests), old(db.nextRequestId), first, done);
        done := done + [batchIds];
        i := i + BatchSize;
      }
      assert Drop(ids, i) == [] && done == Chunks(ids);
    }

    /**
     * `add_batches`: one yet_to_start batch row and one queue item per chunk
     * of three ids, then the worker is started if it is not running. A missing
     * ingestion request makes the first row creation fail before anything
     * changes.
     */
    method AddBatches(ingestionId: IngestionId, ids: seq<int>, priority: string, createdTime: int) returns (ok: bool)
      requires Valid()
      modifies this, db
      ensures Valid()
      ensures ok <==> ids == [] || ingestionId in old(db.requests)
      ensures !ok ==> queue == old(queue) && db.batches == old(db.batches) && db.batchOrder == old(db.batchOrder)
      ensures !ok ==> db.nextBatchId == old(db.nextBatchId) && processing == old(processing)
      ensures ok ==> queue == old(queue) + NewItems(PriorityValue(priority), createdTime, old(db.nextBatchId), ingestionId, Chunks(ids))
      ensures ok ==> db.batches == AddRows(old(db.batches), old(db.nextBatchId), ingestionId, Chunks(ids))
      ensures ok ==> db.batchOrder == old(db.batchOrder) + IdRange(old(db.nextBatchId), |Chunks(ids)|)
      ensures ok ==> db.nextBatchId == old(db.nextBatchId) + |Chunks(ids)|
      ensures ok ==> processing
      ensures db.requests == old(db.requests) && db.nextRequestId == old(db.nextRequestId)
      ensures tasks == old(tasks) && lastProcessedTime == old(lastProcessedTime)
      ensures forall b :: b in old(db.batches) ==> b in db.batches && db.batches[b] == old(db.batches)[b]
      ensures forall b :: b in db.batches && b !in old(db.batches) ==> db.batches[b].ingestionId == ingestionId
    {
      if ids != [] && ingestionId !in db.requests {
        // the request lookup of the first turn fails before any row is created
        return false;
      }
      var priorityValue := PriorityValue(priority);
      PushChunks(ingestionId, ids, priorityValue, createdTime);
      AddRowsContents(old(db.batches), old(db.nextBatchId), ingestionId, Chunks(ids));
      // start_processing: sequentially, a worker is alive exactly while `processing` holds
      if !processing {
        processing := true;
      }
      ok := true;
    }

    /**
     * One turn of the worker loop `_process_queue`, with the clock reading
     * `now` ticks. On an empty queue the worker clears `processing` and stops.
     * Otherwise it waits out the rate limit (for `wait` ticks), pops an item
     * that no other queued item is `Less` than, records the time as the start
     * of the last dispatch, and launches the item's processing task.
     */
    method DispatchStep(now: int) returns (popped: Option<QueueItem>, wait: int)
      requires Valid()
      modifies this`queue, this`lastProcessedTime, this`processing, this`tasks
      ensures Valid()
      ensures popped.None? <==> old(queue) == []
      ensures popped.None? ==> !processing && queue == old(queue) && tasks == old(tasks) && lastProcessedTime == old(lastProcessedTime)
      ensures popped.Some? ==> processing == old(processing)
      ensures popped.Some? ==> popped.value in old(queue) && forall x :: x in old(queue) ==> !Less(x, popped.value)
      ensures popped.Some? ==> multiset(queue) == multiset(old(queue)) - multiset{popped.value} && |queue| == |old(queue)| - 1
      ensures popped.Some? ==> wait == WaitTime(now, old(lastProcessedTime)) && lastProcessedTime == now + wait
      ensures popped.Some? ==> lastProcessedTime - old(lastProcessedTime) >= RateLimit && lastProcessedTime >= now
      ensures popped.Some? ==> tasks == old(tasks) + [popped.value]
    {
      popped, wait := None, 0;
      if queue == [] {
        processing := false;
        return;
      }
      wait := WaitTime(now, lastProcessedTime);
      var woke := now + wait;
      if queue != [] {
        var k := MinIndex(queue);
        var item := queue[k];
        MovePreserves(queue, tasks, db.batches, k);
        queue := RemoveAt(queue, k);
        lastProcessedTime := woke;
        tasks := tasks + [item];
        popped := Some(item);
      }
    }

    /**
     * `_process_queue` as a whole, starting with the clock at `start` and
     * sleeping exactly as long as the rate limit asks: it dispatches every
     * queued item, in an order where no item is `Less` than one dispatched
     * before it, with dispatch starts at least `RateLimit` ticks apart, and
     * stops with `processing` cleared.
     */
    method RunWorker(start: int) returns (ghost dispatched: seq<QueueItem>, ghost starts: seq<int>)
      requires Valid()
      modifies this`queue, this`lastProcessedTime, this`processing, this`tasks
      ensures Valid()
      ensures queue == [] && !processing
      ensures multiset(dispatched) == multiset(old(queue))
      ensures tasks == old(tasks) + dispatched
      ensures forall i, j :: 0 <= i < j < |dispatched| ==> !Less(dispatched[j], dispatched[i])
      ensures |starts| == |dispatched|
      ensures forall i :: 0 < i < |starts| ==> starts[i] - starts[i - 1] >= RateLimit
      ensures |starts| > 0 ==> starts[0] - old(lastProcessedTime) >= RateLimit
      ensures Spaced(starts, old(lastProcessedTime), lastProcessedTime)
    {
      var now := start;
      dispatched, starts := [], [];
      while true
        invariant Valid()
        invariant Drained(old(queue), old(tasks), old(lastProcessedTime), dispatched, starts)
        decreases |queue|
      {
        var popped, wait;
        popped, wait, dispatched, starts := DispatchNext(now, old(queue), old(tasks), old(lastProcessedTime), dispatched, starts);
        if popped.None? {
          break;
        }
        now := now + wait;
      }
    }

    /**
     * The progress of `_process_queue` since it found the queue `queue0`, the
     * tasks `tasks0` and the last dispatch at `last0`: `dispatched` left the
     * queue for the tasks in an order where nothing is `Less` than an item
     * before it, at the spaced times `starts`.
     */
    ghost predicate Drained(queue0: seq<QueueItem>, tasks0: seq<QueueItem>, last0: int, dispatched: seq<QueueItem>, starts: seq<int>)
      reads this
    {
      && multiset(dispatched) + multiset(queue) == multiset(queue0)
      && tasks == tasks0 + dispatched
      && InOrder(dispatched, queue)
      && |starts| == |dispatched|
      && Spaced(starts, last0, lastProcessedTime)
    }

    /** One turn of `_process_queue`, with what it adds to the progress. */
    method DispatchNext(now: int, ghost queue0: seq<QueueItem>, ghost tasks0: seq<QueueItem>, ghost last0: int,
                        ghost dispatched: seq<QueueItem>, ghost starts: seq<int>)
      returns (popped: Option<QueueItem>, wait: int, ghost dispatched': seq<QueueItem>, ghost starts': seq<int>)
      requires Valid() && Drained(queue0, tasks0, last0, dispatched, starts)
      modifies this`queue, this`lastProcessedTime, this`processing, this`tasks
      ensures Valid() && Drained(queue0, tasks0, last0, dispatched', starts')
      ensures popped.None? ==> queue == [] && !processing
      ensures popped.Some? ==> |queue| < old(|queue|)
      ensures popped.Some? ==> dispatched' == dispatched + [popped.value] && starts' == starts + [lastProcessedTime]
      ensures popped.None? ==> dispatched' == dispatched && starts' == starts
    {
      ghost var before, last := queue, lastProcessedTime;
      popped, wait := DispatchStep(now);
      dispatched', starts' := dispatched, starts;
      if popped.Some? {
        InOrderStep(dispatched, before, queue, popped.value);
        SpacedStep(starts, last0, last, lastProcessedTime);
        AppendAssoc(tasks0, dispatched, popped.value);
        dispatched', starts' := dispatched + [popped.value], starts + [lastProcessedTime];
      }
    }

    /**
     * The first save of `_process_batch` for the running task `k`: its row is
     * saved as triggered. The task then works without holding the lock, so
     * other operations may run before it completes.
     */
    method TriggerBatch(k: nat)
      requires Valid() && k < |tasks|
      modifies db
      ensures Valid()
      ensures Stage(old(db.batches)[tasks[k].batchId].status) <= Stage(Triggered)
      ensures db.batches == old(db.batches)[tasks[k].batchId := old(db.batches)[tasks[k].batchId].(status := Triggered)]
      ensures Advances(old(db.batches), db.batches)
      ensures db.requests == old(db.requests) && db.batchOrder == old(db.batchOrder)
      ensures db.nextRequestId == old(db.nextRequestId) && db.nextBatchId == old(db.nextBatchId)
    {
      TriggerPreserves(queue, tasks, db.batches, k);
      db.SetStatus(tasks[k].batchId, Triggered);
    }

    /**
     * The end of `_process_batch` for the running task `k`, whose row the
     * task has already saved as triggered: the row is saved as completed and
     * the task ends. The normal path and the exception handler both save
     * completed, so whether the simulated work raised makes no difference to
     * the state.
     */
    method CompleteBatch(k: nat)
      requires Valid() && k < |tasks| && db.batches[tasks[k].batchId].status == Triggered
      modifies this`tasks, db
      ensures Valid()
      ensures old(db.batches)[old(tasks)[k].batchId].status == Triggered
      ensures tasks == RemoveAt(old(tasks), k)
      ensures db.batches == old(db.batches)[old(tasks)[k].batchId := old(db.batches)[old(tasks)[k].batchId].(status := Completed)]
      ensures Advances(old(db.batches), db.batches)
      ensures db.requests == old(db.requests) && db.batchOrder == old(db.batchOrder)
      ensures db.nextRequestId == old(db.nextRequestId) && db.nextBatchId == old(db.nextBatchId)
    {
      var batchId := tasks[k].batchId;
      FinishPreserves(queue, tasks, db.batches, k);
      tasks := RemoveAt(tasks, k);
      db.SetStatus(batchId, Completed);
    }

    /**
     * `_process_batch` for the running task `k` from start to end, with
     * nothing interleaved: the row goes through triggered (the table `mid`
     * between the two saves) to completed, and no other row changes.
     */
    method ProcessBatch(k: nat) returns (ghost mid: map<BatchId, Batch>)
      requires Valid() && k < |tasks|
      modifies this`tasks, db
      ensures Valid()
      ensures tasks == RemoveAt(old(tasks), k)
      ensures old(db.batches)[old(tasks)[k].batchId].status in {YetToStart, Triggered}
      ensures mid == old(db.batches)[old(tasks)[k].batchId := old(db.batches)[old(tasks)[k].batchId].(status := Triggered)]
      ensures db.batches == mid[old(tasks)[k].batchId := mid[old(tasks)[k].batchId].(status := Completed)]
      ensures db.batches == old(db.batches)[old(tasks)[k].batchId := old(db.batches)[old(tasks)[k].batchId].(status := Completed)]
      ensures Advances(old(db.batches), db.batches)
      ensures db.requests == old(db.requests) && db.batchOrder == old(db.batchOrder)
      ensures db.nextRequestId == old(db.nextRequestId) && db.nextBatchId == old(db.nextBatchId)
    {
      var batchId := tasks[k].batchId;
      RestatusTwice(db.batches, batchId, Triggered, Completed);
      TriggerBatch(k);
      mid := db.batches;
      CompleteBatch(k);
    }
  }
}
