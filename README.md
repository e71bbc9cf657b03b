# Ingestion scheduler model

A Dafny model of the ingestion service's batch scheduler. An ingest call
validates a list of ids and a priority, creates an ingestion request, splits
the ids into batches of three and pushes one queue item per batch. A single
worker takes queue items in priority order — lowest priority value first,
then earliest creation time. It starts at most one batch per rate-limit
interval. Each dispatched batch is then moved by its processing task from
`yet_to_start` to `triggered` to `completed`. A status query reports a
request's batches and the status aggregated from them.

Modules:

- `Results` (`results.dfy`): the `Option` and `Result` wrappers.
- `Models` (`models.dfy`): the priority and status choices; request and batch rows; the store holding the tables; the request's derived `status`.
- `Serializers` (`serializers.dfy`): the input validator of the ingest endpoint.
- `Tasks` (`tasks.dfy`): the queue-item order, the priority ranks, the split into chunks and the rate limit. It also holds `BatchProcessor`, a class whose fields are the queue, the start time of the last dispatch, the worker flag and the running processing tasks.
- `Views` (`views.dfy`): the `ingest` and `get_status` endpoints.

Modelling choices:

- The clock is an integer tick count, passed in as a parameter.
- Identifiers from `uuid4` are counters of the store, so they are fresh by construction.
- The database is the `Store` object: maps from id to row, plus the batches' creation order. Batch ids grow with creation, so the `created_at` ordering of batch queries is the order of their ids.
- The heap is a sequence. `heappush` appends; `heappop` removes an item that no other queued item is `Less` than.
- Threads are run one step at a time:
  - `DispatchStep` is one turn of the worker loop;
  - `RunWorker` is the whole loop, sleeping exactly as long as the rate limit asks;
  - a launched processing task takes two steps: `TriggerBatch` saves its row as triggered, and `CompleteBatch` later saves it as completed and ends the task. Any other operation may run between the two, as the task holds no lock while it works. `ProcessBatch` runs both steps back to back.

## Model

| member | source | states |
|---|---|---|
| Tasks.LessOrder | ingestion/tasks.py:20-25 | `__lt__`, modelled by `Tasks.Less`, is a strict weak order. The priority value decides first, then the creation time; items with equal keys are incomparable. |
| Tasks.PriorityValue | ingestion/tasks.py:36-43 | HIGH ranks 1, MEDIUM 2, and every other string 3. The rank is always between 1 and 3. |
| Tasks.WaitTime | ingestion/tasks.py:97-103 | The wait is never negative. After it, at least 5 ticks separate the next start from the last one, exactly 5 when there was a wait. There is no wait exactly when 5 ticks have already passed. |
| Tasks.ChunksSizes | ingestion/tasks.py:48-53 | Every chunk of `ids[i:i+3]`, as split by `Tasks.Chunks`, holds one to three ids. |
| Tasks.ChunksCount | ingestion/tasks.py:52-53 | There are ceil(L/3) chunks. |
| Tasks.ChunksFull | ingestion/tasks.py:52-53 | Every chunk but the last holds exactly three ids. |
| Tasks.ChunksFlatten | ingestion/tasks.py:52-53 | Concatenating the chunks in order gives back the ids. |
| Tasks.MinIndex | ingestion/tasks.py:113 | `heappop` takes an item that no other queued item is `Less` than. |
| Tasks.RemoveAt | ingestion/tasks.py:113 | Popping removes exactly that one item: the rest keeps its multiset and shrinks by one. |
| Tasks.AddRowsContents | ingestion/tasks.py:55-61 | Creating rows under fresh ids keeps every old row. Each new id holds the yet_to_start row of its chunk, which belongs to the request. |
| Tasks.BatchProcessor.constructor | ingestion/tasks.py:28-34 | The processor starts with an empty queue, no tasks, last dispatch at 0, and no worker. |
| Tasks.BatchProcessor.PushBatch | ingestion/tasks.py:53-72 | One loop turn creates the yet_to_start row for the chunk and pushes its queue item, under the next batch id. |
| Tasks.BatchProcessor.PushChunks | ingestion/tasks.py:52-73 | Over the whole loop, the queue gains one item per chunk, and the table and creation order gain one row per chunk, in chunk order. |
| Tasks.BatchProcessor.AddBatches | ingestion/tasks.py:45-77 | A missing request changes nothing and reports failure. Otherwise the queue, rows and creation order grow by one entry per chunk at the request's rank, and the worker flag is set. Every existing row stays as it was, every new row belongs to the request, and the running tasks and last dispatch time do not change. |
| Tasks.BatchProcessor.DispatchStep | ingestion/tasks.py:89-121 | An empty queue clears `processing`. Otherwise the worker waits out the rate limit and pops a minimal item. It records the start time, which is at least 5 ticks after the previous start, and moves the item to the running tasks. |
| Tasks.BatchProcessor.DispatchNext | ingestion/tasks.py:87-121 | One loop turn appends the popped item to the dispatch record and its start time to the spaced start times, keeping the loop invariant. On an empty queue it stops the worker and leaves both records as they were. |
| Tasks.BatchProcessor.RunWorker | ingestion/tasks.py:87-121 | The worker dispatches every queued item exactly once, as a permutation, and stops with `processing` cleared. No item is `Less` than one dispatched before it. Dispatch starts are at least 5 ticks apart, the first at least 5 after the previous one, and the last is the recorded `last_processed_time`. |
| Tasks.BatchProcessor.TriggerBatch | ingestion/tasks.py:125-129 | The running task's row, not yet completed, is saved as triggered, and no other row changes. Queued items keep standing for yet_to_start rows, running ones for rows not completed. |
| Tasks.BatchProcessor.CompleteBatch | ingestion/tasks.py:143-157 | The task, whose row it has saved as triggered, ends and its row is saved as completed, on the normal path and through the exception handler alike, and no other row changes. |
| Tasks.BatchProcessor.ProcessBatch | ingestion/tasks.py:123-157 | The task ends after its row, yet_to_start or triggered, was saved as triggered (the ghost table between the saves) and then as completed. No other row changes. |
| Models.ParsePriority | ingestion/models.py:9-12 | A string is a priority choice exactly when it is one of the three stored values. |
| Models.StatusNameInjective | ingestion/models.py:14-17 | The three status choices have distinct stored values. |
| Models.NewBatch | ingestion/models.py:63 | A new batch row starts as yet_to_start and holds the given request and ids. |
| Models.AllAre | ingestion/models.py:52 | `all(...)` holds exactly when every status is the given one. |
| Models.AnyIs | ingestion/models.py:54 | `any(...)` holds exactly when some status is the given one. |
| Models.DerivedStatus | ingestion/models.py:44-57 | No batches gives yet_to_start. The result is completed iff there are batches and all are completed, and triggered iff some batch is triggered. Otherwise it is yet_to_start. |
| Models.Select | ingestion/models.py:45 | Only rows of the request are selected, and every listed row of the request appears. |
| Models.SelectAppend | ingestion/views.py:81-83 | Selecting over a concatenated creation order is selecting over each part. |
| Models.SelectNone | ingestion/views.py:81-83 | With no listed row of the request, the selection is empty. |
| Models.SelectAll | ingestion/views.py:81-83 | When every listed row belongs to the request, the selection is all of them, in order. |
| Models.Store.CreateRequest | ingestion/views.py:41-45 | A request row is added under an id never used before. The batch tables do not change. |
| Models.Store.CreateBatch | ingestion/tasks.py:57-61 | A yet_to_start row is added under a fresh id and appended to the creation order. |
| Models.Store.SetStatus | ingestion/tasks.py:128-129 | Only that row's status changes. |
| Models.SelectSorted | ingestion/models.py:67-68 | Over a creation order of increasing ids, the selected rows come in increasing id order, so each appears once. |
| Models.Store.BatchesOf | ingestion/views.py:81-83 | The result holds stored rows of that request and every stored row of that request, each once and in creation order. |
| Models.RowsStatus | ingestion/models.py:44-57 | For a list holding exactly a request's stored rows, the derived status is completed iff the request has rows and all are completed, and triggered iff one is triggered. |
| Models.Store.RequestStatus | ingestion/models.py:35-57 | The request's `status`, stated over the table: completed iff it has rows and all are completed, triggered iff one of its rows is triggered, else yet_to_start. |
| Models.TriggeredRowShows | ingestion/models.py:54-55 | While a row of a request is triggered, the request's status is triggered. |
| Serializers.ConvertItems | ingestion/serializers.py:5-6 | The list converts exactly when every element is an integer in 1..10^9+7, and the result keeps the values. |
| Serializers.IdsFieldValue | ingestion/serializers.py:5-9 | `ids` is accepted exactly when it is a list of 1 to 1000 bounded integers, and it keeps the values. |
| Serializers.ValidateIdsHook | ingestion/serializers.py:12-15 | An empty list is an error. Any other list is returned unchanged. |
| Serializers.PriorityFieldValue | ingestion/serializers.py:10 | `priority` is accepted exactly when it is one of HIGH, MEDIUM, LOW, and the result is that choice. |
| Serializers.Validate | ingestion/serializers.py:4-15 | A submission is accepted iff both fields are valid. The cleaned ids then equal the submitted ones, within the length and value bounds. Otherwise the error set names exactly the invalid fields, and is not empty. |
| Serializers.RejectedPayloads | test_api.py:241-245 | The five test payloads are each rejected on the expected field: empty ids, missing priority, missing ids, unknown priority, non-numeric ids. |
| Serializers.BoundsRejected | ingestion/serializers.py:5-9 | An empty list, one over 1000 ids, or one with an id outside 1..10^9+7 fails on `ids`. |
| Views.ViewAgreesWithModel | ingestion/views.py:88-97 | The view's rule over stored status values gives the request's derived `status` (models.py:44-57) for every list of batch statuses. |
| Views.AggregateStatusRule | ingestion/views.py:88-97 | The view's result, computed by `Views.AggregateStatus`: yet_to_start with no batches; completed iff all are; triggered iff some batch is triggered; yet_to_start otherwise. |
| Views.EntryOf | ingestion/serializers.py:20-24 | A serialized batch carries the row's id, ids and stored status value. |
| Views.EntriesOfRows | ingestion/views.py:85 | The serialized batches are the stored rows of the request, all of them. |
| Views.GetStatus | ingestion/views.py:72-103 | An unknown id fails as not found. Otherwise the response echoes the id and lists the request's stored rows, each once, in creation order, with the status equal to the request's derived status. |
| Views.GetStatusAsWritten | ingestion/views.py:72-113 | A known id gets the same response as `GetStatus`. An unknown one gets an error. |
| Views.UnknownIdIsInternalError | ingestion/views.py:74-77 | The not-found exception of the lookup ends in the internal-error response. |
| Views.FreshRequestRows | ingestion/tasks.py:52-61 | Rows created for a request that had none are its only batches, one per chunk, in chunk order. |
| Views.RequestRows | ingestion/views.py:81-83 | The same, read through the store's batch query. |
| Views.Accept | ingestion/views.py:36-49 | The new request is stored under a fresh id. Its batches' ids are exactly the chunks of the validated ids, all yet_to_start, and one queue item per chunk is pushed at its rank. Existing rows, running tasks and the last dispatch time stay as they were. |
| Views.Ingest | ingestion/views.py:21-57 | Invalid input returns its field errors and changes no table, counter, queue or flag. Valid input creates one fresh request whose batches concatenate back to the submitted ids in chunks of three, pushes their items at the submitted priority's rank, and starts the worker. Its status is yet_to_start. Existing rows, running tasks and the last dispatch time never change. |

## Left out

- Threads and the lock: every operation, and each of the two steps of a processing task, runs atomically. In particular, `DispatchStep` computes the wait and pops the queue in one step, while the worker gives up the lock during its rate-limit sleep (tasks.py:104-111). So an `add_batches` that pushes during that sleep, whose item the following `heappop` may then take, is not modelled. The race between a worker that has just found the queue empty and an `add_batches` that sees `processing` still set is not modelled; `worker_thread` is folded into `processing`.
- Wall-clock time and floats: `time.time()` and float timestamps are integer ticks passed in. The request's `created_at` and the queue items' `created_time` are the same tick. The `time.sleep` calls are not modelled: the per-id sleep of a processing task is not modelled at all, and the worker's sleep is exactly the computed wait.
- The ORM: `transaction.atomic`, `select_for_update`, cascades, `updated_at` and all database failures. The store never fails, and the only failure of `add_batches` modelled is a missing request.
- HTTP, status codes, logging, the health check and `urls.py`: responses are `Result` values.
- The internal-error path of `ingest`, which in the model could only be reached through a database failure.
- Input coercion by the serializer fields (a numeric string accepted as an integer, booleans): a list element is either an integer or not one.
- The heap's internal layout and the order among items with equal keys; dispatch order is stated only through `Less`.
- Tasks.BatchProcessor.RunWorker: the start times are returned as a ghost sequence. Only the last of them is tied to a field the program keeps (`lastProcessedTime`); the spacing of earlier starts is a property of that record.

## Findings

| source | as written | input that shows it | evidently intended | confidence | as-written member | corrected member |
|---|---|---|---|---|---|---|
| ingestion/views.py:72-113 | `get_object_or_404` raises its not-found exception inside the `try`. The `except Exception` catches it, so the response is the internal-error one. | `GET /status/<any id never returned by ingest>` | An unknown request id is answered as not found. | high (not executed) | Views.GetStatusAsWritten, Views.UnknownIdIsInternalError | Views.GetStatus |
