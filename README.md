# com-modbus request scheduler, modelled in Dafny

`ModbusHandler` (index.js) queues Modbus requests and sends them over one
serial channel, one per timer tick. A request whose size exceeds
`chunkSizeWord` is split into chunks, and a failed chunk is retried. The
results of the chunks are flattened into the one answer that the caller's
`modbusCallback` receives. `ModbusDevice` binds a device id to a shared
handler.

The model has five modules:

- `ModbusCommand` (modbus_command.dfy): the frozen `ModbusCommand` enum of
  eight function codes, FC1-FC6, FC15 and FC16. These codes are defined in
  sections 6.1-6.6, 6.11 and 6.12 of the Modbus Application Protocol
  Specification V1.1b3.
- `Requests` (requests.dfy): the values the scheduler handles.
  - A queue `Entry` holds the fields of the `messageBuffer` objects.
  - The `_chunkCallback` closure becomes a tagged `Continuation`: a read
    chunk, a write chunk, or the finalize closure, with the variables the
    closure captured.
  - A transport call is a `Dispatch`.
  - A callback invocation is a `Notification`.
- `Chunking` (chunking.dfy): the pure parts, as functions with lemmas.
  - `_modbusChunking` (`Chunk`, `MakeEntry`).
  - The argument capping of `_modbusSendCommand` (`Capped`).
  - What each continuation queues next (`FollowUp`, `Successor`) and what it
    reports (`Report`).
  - The `reduce` flattening (`Flatten`) and the one-element unwrap (`Unwrap`).
- `QueueOrder` (queue_order.dfy): `messageBuffer.sort(...)` followed by
  `shift()`. The sort is stable, as JavaScript guarantees. It is defined as an
  insertion sort and related to `FirstMinimum`, a linear scan.
- `Handler` (handler.dfy): the classes.
  - `ModbusHandler` has the source's fields `messageBuffer` and `isOpen`, and
    the constants `retryCount` and `chunkSizeWord`.
  - The `_chunkBuffer` arrays that all chunks of one request share by
    reference become the map `chunkBuffers`. It is keyed by the logical
    request that the public `send` creates.
  - The transport is recorded, not run. `Tick` (`_modbusSend`) appends the
    call it makes to `dispatched` and keeps the entry in `inFlight`.
    `Complete(i, outcome)` runs `_handleChunkCallback` for the `i`-th
    outstanding call, with any error or result.
  - Every callback invocation is appended to `notifications`.
  - `Valid()` is the invariant every method keeps. Every queued or
    outstanding entry carries the continuation chunking builds from its own
    fields. No two queued entries are similar. Each logical request has at
    most one entry queued or outstanding, and none once its caller has been
    notified.

A sixth module, `Scenarios` (scenarios.dfy), drives the class through whole
runs: a read that always fails, a ten-register read in three chunks, a
repeated poll, an urgent write that overtakes a queued read, and a retry that
`send` drops.

Three behaviours of the code are kept as written:

- The code cuts multi-write values by a literal 4 in two places: the
  dispatch (`slice(0, 4)`) and the follow-up (`slice(4)`). The follow-up
  address still advances by `chunkSizeWord`. So written chunks tile the
  request only when `chunkSizeWord` is 4 (`WritePlanTiles`). With
  `chunkSizeWord` 2, six values go out as 4 values at address 0 and 2 values
  at address 2 (`WritePlanMisplaced`).
- Each read result is flattened through `data.slice(0, 4)`, whatever the
  chunk size.
- A follow-up chunk gets the handler's default retry budget, not what is
  left of the entry's budget.

Nothing in the code keeps one transaction in flight, and a completion that
arrives after `close` is not a no-op: `_modbusSend` (index.js:92-107) never
waits for a completion, and `_handleChunkCallback` (index.js:265-271) does not
read `isOpen`. The model follows the code: `Tick` may run with calls
outstanding, and `Complete` is not guarded.

The de-duplication filter of `send` also applies to the retries and
follow-up chunks a completion sends. A retry or follow-up that is similar to
an entry another request has queued is dropped. Its request then never
finishes, and its caller's callback is never called (`LostRetry`).

## Model

| member | source | states |
|---|---|---|
| ModbusCommand.FunctionCode | index.js:322-331 | each command names one of the function codes 1-6, 15, 16; reads are exactly the codes up to 4, single writes 5 and 6, multi-writes 15 and 16 |
| ModbusCommand.Label | index.js:322-331 | each command is frozen to the string "FC" followed by its function code in decimal |
| ModbusCommand.LabelInjective | index.js:322-331 | two commands have the same frozen label exactly when they are the same command, so comparing labels (`==` in the de-duplication filter) is comparing commands |
| Chunking.Chunk | index.js:163-260 | the continuation is a read chunk exactly for a read whose quantity exceeds `chunkSizeWord`, a write chunk exactly for a multi-write whose value array is longer than `chunkSizeWord`, and otherwise the finalize closure; the captured address, quantity, values and budget are those of the request |
| Chunking.Capped | index.js:111-145 | a read is sent with its quantity capped to `min(q, chunkSizeWord)` and unchanged when it does not exceed it; a single write is unchanged; a multi-write sends its first `min(4, n)` values whatever `chunkSizeWord` is; a multi-write with a numeric argument throws |
| Chunking.Quantity | index.js:169-178 | the number JavaScript coerces the argument to exists exactly for a number or an array of at most one element, and a number coerces to itself |
| Chunking.Exceeds | index.js:169 | `arg > chunkSizeWord` holds for a number exactly when it is larger, and never for an array of two or more values (NaN) |
| Chunking.MakeEntry | index.js:187-260 | the queue entry carries the request's id, command, arguments, priority, budget, callback and chunk buffer, and the closure chunking builds from them (`Tracked`) |
| Chunking.FollowUp | index.js:175-218 | only a read or write chunk has a next chunk; it starts `chunkSizeWord` further on, a read asks for what this chunk did not, and a write carries exactly the values after the four sent |
| Chunking.FollowUpEntry | index.js:175-218 | the next-chunk entry exists exactly for a read or write chunk, keeps the id, command, priority, callback and chunk buffer, and takes the handler's default budget |
| Chunking.RetryEntry | index.js:266-268 | the re-sent entry exists exactly when the decremented budget is not negative, and it keeps id, command, arguments, priority, callback and chunk buffer with one budget less |
| Chunking.Report | index.js:185-258 | a write chunk never notifies; on a success only the last chunk notifies; a notification goes to the request's callback with the error on a failure and, on a success, a payload standing for the flattened buffer |
| Chunking.Successor | index.js:175-218 | the entry a completion offers to `send` belongs to the same logical request, callback and device id; `SuccessorOrReport` states when there is one (the retry of index.js:268 on an error, the next chunk of index.js:175-183 and 210-218 on a success) |
| Chunking.Piece | index.js:250-251 | a data result contributes its first `min(4, n)` values, and a value result contributes that one value |
| Chunking.Flatten | index.js:249-253 | the flattened buffer has at most four values per buffered result; `FlattenData` and `FlattenAppend` prove it is the in-order concatenation of the pieces |
| Chunking.Unwrap | index.js:256 | the payload stands for exactly the flattened values, and it is a single value exactly when there is one value |
| Chunking.SuccessorOrReport | index.js:171-259 | no completion both offers a successor to `send` and notifies the caller; it notifies exactly on a success of the last chunk, or on an error with the budget at 0 outside a write chunk; it offers a successor exactly on an error with budget left, or on a success of a non-final chunk (`send` may still drop the offer, see `LostRetry`) |
| Chunking.AlwaysFailing | index.js:265-271 | an entry with stored budget `r` that fails every time is offered as a chain of `r + 1` copies, so it is dispatched `r + 1` times when no similar entry is queued meanwhile; each copy with one budget less and the same id, command, arguments, priority and caller; only the last failure reaches the caller, and never for a write chunk |
| Chunking.ReadPlan | index.js:169-183 | a read of `q` that always succeeds, with no similar entry queued meanwhile, goes out as `ceil(q / chunkSizeWord)` calls; call `k` asks for `min(c, q - k*c)` at `address + k*c` |
| Chunking.ZeroChunkRepeats | index.js:169-183 | with `chunkSizeWord` 0, a read of more than 0 items is chunked, and its follow-up asks for the same items at the same address, so it never finalizes |
| Chunking.FlattenData | index.js:245-253 | when no read chunk holds more than 4 items, the flattened buffer is the concatenation of the chunks' data, in order |
| Chunking.FlattenAppend | index.js:249-253 | flattening distributes over concatenation of chunk buffers |
| Chunking.WritePlanTiles | index.js:201-220 | with `chunkSizeWord` 4 and no similar entry queued meanwhile, the calls of a multi-write that always succeeds start at the request's address, each starts where the previous one's values end, and together they write exactly the requested values in order |
| Chunking.WritePlanMisplaced | index.js:213 | with `chunkSizeWord` 2, the six values 10..15 at address 0 go out as `[10..13]` at 0 and `[14, 15]` at 2 |
| QueueOrder.FirstMinimum | index.js:94-95 | the index is the first entry of lowest priority |
| QueueOrder.StableSort | index.js:94 | the sorted queue has the queue's length; `SortPermutes`, `SortOrders` and `SortKeepsOrder` prove it a stable ascending permutation |
| QueueOrder.SortPermutes | index.js:94 | sorting keeps exactly the queued entries |
| QueueOrder.SortOrders | index.js:94 | the sorted queue is in ascending priority |
| QueueOrder.SortKeepsOrder | index.js:94 | the sort is stable: for every priority, the entries of that priority keep their queue order |
| QueueOrder.SortKeepsCount | index.js:94 | sorting keeps the number of entries of each logical request |
| QueueOrder.StableSortDistinct | index.js:94 | sorting a queue with no two similar entries leaves no two similar entries |
| QueueOrder.DispatchHead | index.js:94-95 | the entry `shift()` takes is the first entry of lowest priority |
| QueueOrder.HeadPriority | index.js:94-95 | sorting keeps the length, and the head has the lowest priority |
| QueueOrder.DispatchRest | index.js:94-95 | the entries left are sorted, hold exactly the queue without the dispatched entry, and keep the queue order within each priority |
| Handler.SimilarEntries | index.js:76-80 | the filter returns only queued entries similar to the request, and it is empty exactly when no queued entry is similar |
| Requests.SimilarByLabel | index.js:77-79 | two entries are similar exactly when they have the same id, the same command label and structurally equal arguments (`JSON.stringify` of number and integer-array pairs) |
| Handler.Offer | index.js:83-85 | the queue after `send` is unchanged or has the offered entry appended; `OfferDeduplicates` says which |
| Handler.PriorityOrDefault | index.js:56 | a given priority is kept, and none means 1 |
| Handler.RetryOrDefault | index.js:57 | a given retry budget is kept, and none means the handler's stored budget |
| Handler.OfferDeduplicates | index.js:76-85 | a request similar to a queued one leaves the queue unchanged; any other is appended at the end with nothing else changed; the queue stays free of similar pairs |
| Handler.CallbackAtMostOnce | index.js:185-258 | under the invariant, no two callback invocations belong to the same logical request, and a notified request has nothing queued or outstanding |
| Handler.InvOffer | index.js:76-85 | queueing a well-formed entry of a request with nothing pending keeps the invariant |
| Handler.InvTick | index.js:92-107 | taking the head of the sorted queue, outstanding or thrown away, keeps the invariant |
| Handler.InvComplete | index.js:265-271 | taking a completed call out of the outstanding ones keeps the invariant and leaves its request with nothing pending |
| Handler.InvNotify | index.js:255-258 | notifying the caller of a request with nothing pending keeps the invariant |
| Handler.InvFresh | index.js:59 | a new logical request gets an empty chunk buffer and has nothing pending |
| Handler.ModbusHandler.constructor | index.js:8-21 | `retryCount` defaults to 3 and `chunkSizeWord` to 4; the stored budget is `retryCount - 1`, the queue is empty and the handler is closed |
| Handler.ModbusHandler.Open | index.js:32-40 | the handler is open; nothing else changes |
| Handler.ModbusHandler.Close | index.js:44-48 | the handler is closed; nothing else changes |
| Handler.ModbusHandler.Enqueue | index.js:52-88 | the queue becomes the de-duplicated offer of the chunked entry; the invariant is kept |
| Handler.ModbusHandler.Send | index.js:52-88 | a caller-given priority and retry budget are kept, and they default to 1 and to the handler's budget; a fresh chunk buffer is made, every existing buffer is kept, and the queue becomes the de-duplicated offer of the chunked entry |
| Handler.ModbusHandler.Tick | index.js:92-145 | a closed handler or an empty queue dispatches nothing; otherwise the first entry of lowest priority leaves the queue, the rest stays in stable order, and the transport receives its capped arguments, or nothing when capping throws |
| Handler.ModbusHandler.Complete | index.js:265-271 | the completed call leaves the outstanding ones; a success is pushed onto the request's chunk buffer; the queue receives the retry or the next chunk; the caller hears exactly what the continuation reports |
| Handler.ModbusHandler.Retry | index.js:266-269 | on an error the entry is re-chunked with one budget less and queued when that budget is not negative |
| Handler.ModbusHandler.Resume | index.js:270 | running the entry's continuation pushes a success onto the chunk buffer, queues the entry's next chunk after a success, and adds to the log exactly what the continuation reports |
| Handler.ModbusHandler.Collect | index.js:246-247 | a success is pushed onto the request's chunk buffer; nothing else changes |
| Handler.ModbusHandler.ReadContinuation | index.js:171-186 | a success is kept and the rest of the read is queued at `address + chunkSizeWord`; an error with the captured budget at 0 is reported |
| Handler.ModbusHandler.WriteContinuation | index.js:206-220 | a success is kept and the values after the first 4 are queued at `address + chunkSizeWord`; an error is never reported |
| Handler.ModbusHandler.FinalContinuation | index.js:245-259 | a success is kept and the flattened, unwrapped buffer is reported; an error with the captured budget at 0 is reported |
| Handler.ModbusHandler.Callback | index.js:257 | the invocation is appended to the log, and the invariant is kept for a request with nothing pending |
| Handler.ModbusDevice.constructor | index.js:285-294 | the device keeps its handler and id |
| Handler.ModbusDevice.Send | index.js:298-312 | the handler's `send` runs with the device id and the arguments `[address, length]`: a fresh empty chunk buffer is added for the new request, every existing buffer is kept, and the queue is the de-duplicated offer of the chunked entry |
| Scenarios.RetryExhaustion | index.js:265-271 | with `retryCount` 3, a read that always fails is dispatched three times, the caller hears the error once, and nothing stays queued |
| Scenarios.ChunkedRead | index.js:169-183 | a ten-register read with `chunkSizeWord` 4 goes out as 4, 4 and 2 at consecutive addresses, and the caller receives the ten values in order |
| Scenarios.RepeatedPoll | index.js:76-85 | a second identical poll queued before the first is sent is dropped |
| Scenarios.UrgentWrite | index.js:94-95 | a priority-0 write queued after a priority-1 read is dispatched first |
| Scenarios.LostRetry | index.js:76-85 | while a read is outstanding, the same read from another caller is queued; when the first read fails, `send` drops its retry as similar, so nothing of the first request is queued or outstanding and its caller is never called back |

## Left out

- The transport is not modelled: `modbus-serial`, `serialport`, `setConnection`, the `connection.open` / `setTimeout` calls and the `writeFCx` calls themselves. The model records each call as a `Dispatch`, and the outcome reaches `Complete` as a parameter. Modbus framing and CRC happen in that library.
- Timers are not modelled: the `setInterval` / `clearInterval` cadence, `msgSendInterval` and `timeout`. The dispatch tick is the method `Tick`, which does nothing while the handler is closed. `Open` stands for the open callback. The model has at most one timer: in the code a second `open` starts a second interval, `close` clears only the last one, and the first keeps calling `_modbusSend`, which never reads `isOpen`.
- The `value.state` branch of the flattening `reduce` is not modelled. It returns the new length from `push` as the accumulator. Results with neither `data` nor `value` are not modelled either (the shape of an FC15/FC16 write acknowledgement, on which the `reduce` yields `undefined`); a single-coil FC5 result carries `state` and goes to the left-out branch above. `SubResult` is restricted to `Data` and `Value`.
- Handler.ModbusHandler.Complete: only JavaScript truthiness is modelled, and only as present or absent. A `Failure` is always a truthy error, and a success never comes with an error. An error value of `0` or `""` would skip the retry in the code; the model does not represent it.
- Handler.ModbusHandler.Tick: when `.slice` of a number throws a `TypeError` (index.js:137, 141), nothing in the code catches it. It escapes the `setInterval` callback, and under Node's default handling the process ends. The model returns `Threw`, drops the entry and lets later ticks run.
- Chunk sizes that are not positive are not modelled as runs: `ReadCalls` requires `chunkSizeWord > 0` and `WriteCalls` requires `chunkSizeWord >= 0`. In the code, with `chunkSizeWord` 0 a read of more than 0 items queues the same `[address, q]` again after every success and never finalizes (`ZeroChunkRepeats`). With a negative `chunkSizeWord`, a multi-write never finalizes either. The single-step functions (`Chunk`, `FollowUp`, `Successor`) model these sizes as written.
- Commands outside the `ModbusCommand` enum are not modelled; `Command` is a closed datatype. The switch of `_modbusSendCommand` (index.js:113-144) has no default branch, so a tick takes such an entry out of the queue, and it is never sent or reported.
- Coil states are integers, and integer widths are not modelled; quantities, addresses and values are unbounded.
- `Chunking.Quantity` models JavaScript's coercion of an argument array only for arrays of integers: `[]` counts as 0, `[x]` as `x`, and any longer array is not a number.
- The module exports and `ModbusDevice.timeout` are not modelled. The timeout is stored but never read.
- Handler.ModbusHandler.Tick: the model does not enforce one transaction in flight, because the code does not.
- Handler.ModbusHandler.Complete: it is not guarded by `isOpen`, because the code does not check the flag.
- Handler.ModbusHandler.Enqueue: it requires that the request has nothing queued, outstanding or reported. This holds for a fresh request, a retry and a follow-up chunk. A caller who passes `send` a `_chunkBuffer` already in use is not modelled.
