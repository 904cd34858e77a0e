# Verified model of the bybit-smm trading core

This project models four small pieces of the market-making bot's core in Dafny and proves
properties of them:

- **Order gateway** (`Order` in `src/exchanges/bybit/post/order.py`). Five single-order
  calls (market, limit, amend, cancel, cancel all) submit one signed request each. They
  return the reply unchanged. They schedule an `API_ERROR` event for a reply whose `retCode`
  is not 0, and a `RUNTIME_ERROR` event plus a `None` result when the call raises. Three
  batch calls split their input into chunks of ten. Each chunk is submitted as one
  `{category: "linear", request: [...]}` payload. The calls then gather the results. Amend
  and cancel batches classify every result and log one `API_ERROR` per failed chunk.
  `order_limit_batch` lets an exception propagate.
- **Execution handler** (`BybitExecutionHandler`). It drops executions of other symbols. It
  schedules one `FILL` per trade and one `REJECTION` per rejection, with reason `"Unknown"`
  when none is given. It ignores everything else.
- **Event logger** (`log_event` in `src/utils/logmeister.py`, defined again with the same
  body in `src/strategy/core.py`). It maps the event kind to a level and prefix and writes
  nothing for unknown kinds. It prints its own failure instead of raising. It attaches a new
  file handler on every call.
- **Strategy startup** (`src/strategy/core.py`). It chooses which feeds start. The gate
  waits until the Bybit flag (and, with Binance as the primary feed, the Binance flag) is
  set. The primary loop runs the gate and then ticks: sleep, generate quotes, run the order
  manager.

Modules: `Maybe` (Option), `Seqs` (Python slicing, flattening and mapping), `Formats` (order fields and Python's `str` on them, payloads,
endpoints, replies), `Chunking` (chunks of ten), `Events` (event kinds, what
a message quotes, and `EventLog`, which holds the log tasks scheduled with
`asyncio.create_task`), `Gateway`, `Execution`, `LogMeister`, `Strategy`.

Things outside the process are parameters:
- The outcome of every submission: `Submission = Raised(reason) | Returned(reply or None)`.
  A batch gets one outcome per chunk.
- The flag snapshots the gate reads, one per check.
- The outcome of each tick's quote generation and order-manager run.
- The timestamp carried by a log record.
- The error, if any, raised when opening the log file.

## Model

| member | source | states |
|---|---|---|
| `Formats.ShowNumberRoundTrip` | src/exchanges/bybit/post/order.py:78 | `str` on an integer field yields text that reads back as that integer |
| `Gateway.OrderToStr` | src/exchanges/bybit/post/order.py:64-78 | `_order_to_str_` keeps the tuple's length and order and stringifies element by element |
| `Gateway.OrderToStrKeepsNumbers` | src/exchanges/bybit/post/order.py:78 | no numeric field of an order changes value when stringified |
| `Seqs.Slice` | src/exchanges/bybit/post/order.py:238 | Python slicing `s[lo:hi]` clamps both bounds to the length |
| `Chunking.Chunks` | src/exchanges/bybit/post/order.py:237-238 | N items give exactly ceil(N/10) chunks; every chunk has between 1 and 10 items; the chunks concatenated in order are the input; N = 0 gives no chunk |
| `Chunking.ChunkCountStep` | src/exchanges/bybit/post/order.py:237 | `range(0, n, 10)` runs iteration t exactly when t < ceil(n/10) |
| `Chunking.ChunkAt` | src/exchanges/bybit/post/order.py:237-238 | chunk k is `items[10k : min(10k+10, N)]` and starts inside the input |
| `Chunking.ItemPlacement` | src/exchanges/bybit/post/order.py:237-238 | item p is sent in chunk p / 10 at position p % 10: every item is in exactly one batch |
| `Chunking.FlattenMapChunks` | src/exchanges/bybit/post/order.py:238-244 | building each chunk's request list and concatenating gives one request per item in input order |
| `Gateway.BatchPayloadsShape` | src/exchanges/bybit/post/order.py:51 | every batch payload has category "linear" and at most ten entries; payload k has one entry per item of chunk k, in order; all entries together are one per item in input order |
| `Gateway.BatchPayloads` | src/exchanges/bybit/post/order.py:239-245 | one payload per chunk |
| `Gateway.CallEvents` | src/exchanges/bybit/post/order.py:146-153 | a single-order call logs exactly one event when it raised (RUNTIME_ERROR with the exception and payload) or got a rejected reply (API_ERROR with payload and reply); a `None` reply or `retCode == 0` logs nothing |
| `Gateway.CallResult` | src/exchanges/bybit/post/order.py:149-154 | a single-order call returns the reply unchanged, including `None`, and returns `None` when it raised |
| `Formats.VenueRejectionCases` | src/exchanges/bybit/post/order.py:146 | `response.get('retCode') != 0`: a reply with retCode 0 is accepted; any other code, and a reply without a retCode, counts as rejected |
| `Events.EventLog.Schedule` | src/exchanges/bybit/post/order.py:148 | `asyncio.create_task(log_event(...))` queues exactly that event after those already scheduled, without waiting for it |
| `Gateway.OrderGateway.constructor` | src/exchanges/bybit/post/order.py:53-62 | the gateway starts with an open session, nothing sent, and the trading symbol for its payloads |
| `Gateway.OrderGateway.Submit` | src/exchanges/bybit/post/order.py:96-97 | the shared single-call pattern: one request sent, the session closed on leaving `async with`, events per `CallEvents`, result per `CallResult` |
| `Gateway.OrderGateway.SessionlessSubmit` | src/exchanges/bybit/post/order.py:143-154 | the single-call try/except of order.py:143-154 with the send going through `_sessionless_submit_` (order.py:115) in place of `_submit_`: one request sent, the session left as it was, events per `CallEvents`, result per `CallResult`. `_sessionless_submit_` itself catches and logs nothing |
| `Gateway.OrderGateway.CloseSession` | src/exchanges/bybit/post/order.py:504-508 | `close_session` closes the session and sends nothing |
| `Gateway.SecondOrderAsWritten` | src/exchanges/bybit/post/order.py:96-97 | as written, the second single-order call on a gateway is sent after the first has closed the shared session |
| `Gateway.SecondOrderKeepingSession` | src/exchanges/bybit/post/order.py:99-115 | corrected: both calls are sent over the open session, and `close_session` closes it afterwards |
| `Gateway.OrderGateway.OrderMarket` | src/exchanges/bybit/post/order.py:135-154 | `order_market`: sends the market payload of the stringified order, returns and logs as the single-call pattern says |
| `Gateway.OrderGateway.OrderLimit` | src/exchanges/bybit/post/order.py:175-194 | `order_limit`, likewise with the limit payload |
| `Gateway.OrderGateway.Amend` | src/exchanges/bybit/post/order.py:276-294 | `amend`, likewise with the amend payload |
| `Gateway.OrderGateway.Cancel` | src/exchanges/bybit/post/order.py:383-400 | `cancel`, likewise with the cancel payload of the id |
| `Gateway.OrderGateway.CancelAll` | src/exchanges/bybit/post/order.py:483-500 | `cancel_all`, likewise with the cancel-all payload |
| `Gateway.OrderGateway.SubmitChunks` | src/exchanges/bybit/post/order.py:237-248 | the chunking loop sends exactly the batch payloads, one per chunk in chunk order, without closing the session |
| `Gateway.GatherStrict` | src/exchanges/bybit/post/order.py:253 | gather without `return_exceptions` raises when some chunk raised (the first such, in chunk order); otherwise it returns one reply per chunk, in chunk order |
| `Gateway.OrderGateway.OrderLimitBatch` | src/exchanges/bybit/post/order.py:230-255 | `order_limit_batch` sends every chunk, classifies nothing, logs nothing, closes the session only when gather returned, and lets an exception propagate |
| `Gateway.ResultEventsCases` | src/exchanges/bybit/post/order.py:357-362 | one batch result gives one API_ERROR when it raised (with the exception) or its reply was rejected (with the reply, and for a cancel batch the ids quoted), and none otherwise |
| `Gateway.BatchEventsInResultOrder` | src/exchanges/bybit/post/order.py:356 | the events of the first m results come first, followed by result m's own events, before any later result's |
| `Gateway.BatchEventsClassify` | src/exchanges/bybit/post/order.py:356-362 | classifying gathered results yields as many events as failed results; every event is an API_ERROR about a failed result; every failed result (exception, or non-`None` reply with `retCode != 0`) has its event |
| `Gateway.OrderGateway.ClassifyResults` | src/exchanges/bybit/post/order.py:460-466 | the `enumerate(results)` loop schedules exactly the classification events, in result order |
| `Gateway.OrderGateway.AmendBatch` | src/exchanges/bybit/post/order.py:330-364 | `amend_batch` sends every chunk, returns every outcome (exceptions included) one per chunk in chunk order, closes the session, and logs per `BatchEventsClassify` |
| `Gateway.OrderGateway.CancelBatch` | src/exchanges/bybit/post/order.py:435-468 | `cancel_batch`, likewise over order ids; a rejected result's event also quotes ids (see Findings) |
| `Gateway.QuotedIdsAreChunk` | src/exchanges/bybit/post/order.py:442-448 | the corrected quote for result i is exactly the ids of chunk i |
| `Gateway.QuotedIdsAsWrittenMisquotes` | src/exchanges/bybit/post/order.py:465 | as written, result 1 of a cancel of eleven ids quotes ids 1 to 10, not its own chunk (id 10 alone) |
| `Gateway.QuotedIdsAsWrittenDiffers` | src/exchanges/bybit/post/order.py:465 | for distinct ids, the as-written quote differs from the result's chunk for every result after the first |
| `Gateway.QuotedIdsAsWrittenAgreesOnFirst` | src/exchanges/bybit/post/order.py:465 | the as-written quote is right for result 0 |
| `Execution.ExecutionHandler.constructor` | src/exchanges/bybit/websockets/handlers/execution.py:10-12 | the handler keeps the symbol of the shared state it was built with |
| `Execution.ExecutionEvent` | src/exchanges/bybit/websockets/handlers/execution.py:16-29 | another symbol gives no event; `Trade` gives one FILL with order id, side, price and quantity; `Rejected` gives one REJECTION with the reason or "Unknown"; any other type gives none |
| `Maybe.Option.GetOr` | src/exchanges/bybit/websockets/handlers/execution.py:28 | `dict.get(key, default)`: the value when present, the default otherwise |
| `Execution.ExecutionEventsAppend` | src/exchanges/bybit/websockets/handlers/execution.py:15 | processing two lists in turn emits what processing their concatenation emits |
| `Execution.ExecutionEventsCount` | src/exchanges/bybit/websockets/handlers/execution.py:15-29 | exactly one event per trade or rejection of the symbol, so never more events than executions |
| `Execution.ExecutionEventsMembers` | src/exchanges/bybit/websockets/handlers/execution.py:20-29 | an event is emitted if and only if some execution of the list produces it |
| `Execution.OtherSymbolsIgnored` | src/exchanges/bybit/websockets/handlers/execution.py:16-17 | removing an execution of another symbol leaves the events unchanged |
| `Execution.ExecutionHandler.Process` | src/exchanges/bybit/websockets/handlers/execution.py:14-29 | `process` schedules the events of its executions in input order and changes nothing else |
| `LogMeister.Dispatch` | src/utils/logmeister.py:20-27 | FILL is info, REJECTION warning, RUNTIME_ERROR and API_ERROR error; a kind has a level if and only if it is one of these four |
| `LogMeister.Emitted` | src/utils/logmeister.py:20-27 | a call writes at most one record per handler, exactly one for a known kind, at its level; the record's text is `RecordText` of the kind, the time and the message, so it starts with "<kind> - <time> - " |
| `LogMeister.RecordText` | src/utils/logmeister.py:21-27 | the logged message starts with "<kind> - <time> - " and ends with the caller's message unchanged, with nothing else in between |
| `LogMeister.DispatchedLevelsPass` | src/utils/logmeister.py:10 | every chosen level passes the INFO threshold the call sets, so no known kind is filtered |
| `LogMeister.ScheduledKindsWritten` | src/strategy/core.py:31-38 | every kind the core schedules is written, at info, warning or error as its name says (the same dispatch is in the copy in core.py) |
| `LogMeister.PerHandlerLength` | src/utils/logmeister.py:18 | with n handlers attached, a record is written n times |
| `LogMeister.Logger.LogEvent` | src/utils/logmeister.py:6-30 | as written: sets INFO, attaches one more rotating handler ("hft_log.txt", 10 MiB, 5 backups) and writes the record once per attached handler; if the handler cannot be created, prints "Error during logging: ..." and changes nothing else |
| `LogMeister.TwoFillsAsWritten` | src/utils/logmeister.py:13-18 | two FILL events on a fresh logger leave three records in the file, the second one twice |
| `LogMeister.Logger.LogEventOnce` | src/utils/logmeister.py:13-18 | corrected: at most one handler, so each known event is written exactly once |
| `LogMeister.TwoFillsOnce` | src/utils/logmeister.py:13-18 | with the correction, two FILL events leave two records |
| `Strategy.StartFeeds` | src/strategy/core.py:63-69 | Bybit market and Bybit private always start, in that order; Binance market starts if and only if the primary feed is "BINANCE" |
| `Strategy.ReadyCondition` | src/strategy/core.py:97-101 | the gate needs `bybit_ws_connected`; it needs the Binance flag in addition exactly when Binance is the primary feed |
| `Strategy.RunningIsFinal` | src/strategy/core.py:94-103 | once the gate has opened it stays open |
| `Strategy.RunningIffSomeReady` | src/strategy/core.py:94-103 | the two-state machine reaches Running exactly when some observed snapshot satisfies the exit condition |
| `Strategy.BinanceFlagIgnored` | src/strategy/core.py:100-101 | with a primary other than BINANCE, the Binance flag changes neither whether the gate opens nor how many checks it makes |
| `Strategy.Checked` | src/strategy/core.py:94-103 | the gate makes checks up to and including the first one that passes, all earlier ones failing |
| `Strategy.CheckedStopsAtFirstReady` | src/strategy/core.py:97-103 | the last check passes exactly when some snapshot passes |
| `Strategy.GateOpensOnLastCheck` | src/strategy/core.py:94-103 | the gate opens exactly when its last check passes |
| `Strategy.CheckBlocksAt` | src/strategy/core.py:94-95 | iteration j of the gate is a one-second sleep followed by the check of snapshot j |
| `Strategy.GateTraceShape` | src/strategy/core.py:95-103 | every check comes right after a one-second sleep; only the last check can pass, and it passes exactly when the gate opened, so the gate never exits on a failing condition |
| `Strategy.WaitForConfirmation` | src/strategy/core.py:90-103 | `_wait_for_ws_confirmation_` returns if and only if some check passes, and its actions are the sleeps and checks up to the first passing one |
| `Strategy.Performed` | src/strategy/core.py:113-116 | the tick loop runs every tick up to and including the first that raises |
| `Strategy.TickBlock` | src/strategy/core.py:114-116 | one tick is a one-second sleep, quote generation, then OMS.run on exactly that tick's quotes and spread when generation returned |
| `Strategy.RunTicks` | src/strategy/core.py:113-116 | the tick loop's actions are, per tick performed, sleep, generate, then OMS.run on exactly that tick's quotes and spread; it ends with the first raised exception |
| `Strategy.TickTraceShape` | src/strategy/core.py:114-116 | in the tick loop every generation follows a sleep and every OMS run follows a generation |
| `Strategy.CrashIffSomeTickRaises` | src/strategy/core.py:113-116 | the loop ends with an exception exactly when some tick raises, and with the first such tick's exception |
| `Strategy.PrimaryLoop` | src/strategy/core.py:105-116 | `primary_loop` announces, waits at the gate, announces the start, then ticks; it never ticks while the gate is closed |
| `Strategy.NoTickBeforeGate` | src/strategy/core.py:109-116 | no quote generation or OMS run happens before a passing check and the "Starting strategy" announcement |

## Findings

| source | as written | input that shows it | evidently intended | confidence | as-written member | corrected member |
|---|---|---|---|---|---|---|
| src/exchanges/bybit/post/order.py:465 | the rejection message of cancel-batch result `i` quotes `order_ids[i:i+10]`, slicing at the result index | 11 ids with the reply to chunk 1 rejected: the message quotes ids 1 to 10, while chunk 1 held only id 10 | quote the ids of chunk `i`, `order_ids[10*i:10*i+10]` | high; not executed | `Gateway.QuotedIdsAsWrittenMisquotes` | `Gateway.QuotedIdsAreChunk` |
| src/utils/logmeister.py:13-18 | every call creates a new `RotatingFileHandler` on the same file and adds it to the same named logger | two FILL events on a fresh logger: the second record is written twice, three lines in all | attach the handler once, so each event is one line | high; not executed | `LogMeister.TwoFillsAsWritten` | `LogMeister.Logger.LogEventOnce` |
| src/exchanges/bybit/post/order.py:96-97 | `_submit_` wraps every single-order call in `async with self.session`, which closes the gateway's one shared session when the call returns | two `order_market` calls on one `Order`: the second is sent over the session the first closed, and so is every later batch through `_sessionless_submit_` (order.py:115) | open the session once and close it only in `close_session` (order.py:504-508), as `_sessionless_submit_` assumes | plausible; what aiohttp does with a closed session is outside the model; not executed | `Gateway.SecondOrderAsWritten` | `Gateway.SecondOrderKeepingSession` |

`Gateway.OrderGateway.CancelBatch` uses the corrected quote. The single-order calls keep the
as-written session handling (`Gateway.OrderGateway.Submit`), so the model's `sessionOpen`
flag shows the closed session the third finding is about. `LogMeister.Logger.LogEvent`
keeps the as-written behaviour, because the handler count it tracks is a visible effect of
the source.

## Left out

- The signing client (`BybitPrivatePostClient`), the `aiohttp` session and the endpoint
  URLs are foreign code. A submission's outcome is a parameter. The session is only an
  open/closed flag, and what the client does on a closed session is not modelled.
- The `BybitFormats` payload builders are not part of this model. Their payloads are
  opaque constructors carrying the symbol and the stringified fields.
- asyncio concurrency is modelled sequentially. Tasks run in creation order, gathered results
  come in chunk order, and log events are appended to `EventLog` in scheduling order.
  Interleavings are not modelled.
- `Gateway.OrderGateway.OrderLimitBatch`: when several chunks raise, which exception escapes
  depends on timing in the source; the model takes the first in chunk order.
- `Gateway.OrderGateway.CancelBatch`: quotes each rejected result's own chunk (the corrected
  form, see Findings), not `order_ids[i:i+10]` as written.
- The `except` branches around `asyncio.create_task` (order.py:249-251, 349-351, 453-455)
  can only run without a running event loop, which an `async` method always has. They are
  not modelled.
- Floating point is left out. Order prices and quantities are integers or strings before
  `str`. The spread is an integer.
- `Execution.ExecutionEvent`: `float(execution['execPrice'])` and `float(execution['execQty'])`
  (execution.py:22-23) are not applied; the raw price and quantity strings are kept. In the
  source a non-numeric string raises `ValueError` there. That ends the whole `process` call,
  so the later executions of the same batch schedule no event. The model does not capture
  that path.
- Message text (f-strings and Python `repr` of payloads and replies) is not reproduced. The
  events carry the values the messages quote.
- `Execution.ExecutionHandler.Process`: the execution record type always has every field, so
  a missing key is not modelled. In the source, `symbol` is read first (execution.py:16), then
  `orderId` for every execution of the handler's symbol (:18), then `execType` (:20). `side`,
  `execPrice` and `execQty` are read only for a `Trade` (:21-23), and `rejectReason` is
  optional (:28). A missing required key raises `KeyError` at that point. That ends the whole
  `process` call, so the later executions of the batch schedule no event.
- Order tuples of the wrong arity raise while unpacking in the source (order.py:140 and the
  other single-order calls). The order types here always have the right fields.
- Timestamps (`dt_now()`, the formatter's time and level name) and file rotation are library
  behaviour. The rotation parameters appear only as the handler's constants. The only failure
  inside `log_event` the model has is the file handler failing to open its file; errors while
  writing are handled inside Python's logging module.
- `src/strategy/core.py:14` imports `log_event` and line 17 redefines it with the same body.
  One logger models both.
- The loops `while True` are unbounded. The model runs them over finite sequences of
  snapshots and tick outcomes and reports whether it is still waiting, still ticking, or
  ended by an exception. The primary loop has no exception handling, so the model ends it
  at the first raising tick, as the code does.
- `Strategy.run` (gathering the feeds with the primary loop), the feeds' own loops
  (`start_feed`), quote generation (`MarketMaker`) and the order manager (`OMS`, whose source
  is not part of this model) are left out. Their outcomes per tick are parameters, and
  `start_feeds` is modelled as the list of feed tasks it creates.
- `Strategy.StartFeeds` models only the choice core.py:63-69 makes. It does not model that
  the chosen feeds can fail to start as the source stands:
  - `BinanceMarketData` (binancemarketdata.py:12-75) defines no `start_feed`. Its `_stream_`
    (line 77) is a module-level function, although the class docstring lists `start_feed`.
    So with `primary_data_feed == "BINANCE"`, core.py:69 raises `AttributeError` after the
    two Bybit tasks are created, and nothing sets the Binance flag that the gate waits for
    (core.py:100-101).
  - In bybitprivatedata.py, `start_feed` (line 118) is indented four spaces, under the
    module-level `_stream_` (line 85) whose body is at eight. Python rejects that with an
    `IndentationError`. core.py:4 imports binancemarketdata.py, whose line 11 imports from
    bybitprivatedata.py, so the import fails at core.py:4 at the latest, before any feed starts.
