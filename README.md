# P4Runtime switch connection, modelled in Dafny

This project models `topo/switch.py`, a small P4Runtime control-plane client.
A `SwitchConnection` is one session with one P4 device. It opens a
bidirectional `StreamChannel` fed by an `IterableQueue`, claims mastership
with a `MasterArbitrationUpdate` on that stream, then pushes a pipeline
config, writes table entries and reads table entries and counters through
unary calls. Every session is appended to the module-level `connections`
list, and `ShutdownAllSwitchConnections` shuts them all down. An optional
`GrpcRequestLogger` interceptor appends a text record per outbound call to a
log file.

The project has six modules:

- `Wrappers` (`wrappers.dfy`): `Option` and `Result`.
- `P4Runtime` (`p4_runtime.dfy`): the P4Runtime messages the session fills in, with their protobuf integer widths.
- `Requests` (`requests.dfy`): one builder per session operation, as a function of its parameters. The partner of the builders is `Interpret`, which reads back the operation a request asks for. It rejects every request not of the session's fixed shape: one update or one entity, election id high 0 / low 1, INSERT, VERIFY_AND_COMMIT.
- `Queues` (`iterable_queue.dfy`): `IterableQueue` as a class over a `seq` of slots, where a slot is an item or the sentinel. `Yielded` and `Remaining` say what an iteration produces and what it leaves behind.
- `RequestLogger` (`request_logger.dfy`): the text of a log record as a function of timestamp, method name and rendered body. `ParseRecord` and `OmittedLength` read a record back. The `GrpcRequestLogger` class holds the log file's text.
- `Switch` (`switch_connection.dfy`): `SwitchConnection` as a class, and `Runtime`, the module's global state. `Runtime` holds the `connections` list and the log of calls that sessions make on their queues, stubs and streams. Order is observable in that call log.

Where the source and its evident intent differ:

- `topo/switch.py:81` lacks the colon after `else`, so the file does not parse as written. The model takes the evident `else:`.
- `topo/switch.py:106` reads `table_id`, which is bound nowhere. See "## Findings".
- The log cap is strict: `len(msg) < 1024` (`topo/switch.py:156`). A body of exactly 1024 characters is therefore replaced by the omission notice. The model follows the code (`RequestLogger.LogThreshold`), not a reading in which 1024 characters would still be logged.
- `close` is not idempotent in the source: a second close puts a second sentinel, and so does the model.
- `ShutdownAllSwitchConnections` does not guard against one session's shutdown failing. In the model, shutdown cannot fail.

Two methods model no source lines of their own: `Queues.PutCloseIterate` and `Switch.ArbitrationScenario`. They are usage examples that exercise the queue and arbitration contracts on concrete values.

## Model

| member | source | states |
|---|---|---|
| `Requests.ArbitrationRequestShape` | topo/switch.py:55-58 | the arbitration request carries the session's device id and election id high 0, low 1, and reads back as a mastership claim for that device |
| `Requests.PipelineConfigRequestShape` | topo/switch.py:69-78 | the pipeline config request carries the device id, election id low 1, the given P4Info, the built device config and action VERIFY_AND_COMMIT |
| `Requests.WriteRequestShape` | topo/switch.py:86-92 | the write request has exactly one update, an INSERT wrapping the given table entry, with the device id and election id low 1 |
| `Requests.TableReadRequestShape` | topo/switch.py:101-109 | the table read request has exactly one entity, a table entry whose id is the supplied one or else the wildcard 0; it asks for table u exactly when no id, id 0 or u was supplied |
| `Requests.CounterReadRequestShape` | topo/switch.py:119-130 | the counter read request has exactly one entity; the counter id is the supplied one or else 0; the index is set exactly when supplied; it asks for a cell exactly when both filters let it through |
| `Requests.InterpretRequestFor` | topo/switch.py:53-130 | every operation's request reads back as that same operation |
| `Requests.RequestForInterpret` | topo/switch.py:53-130 | every request of the fixed shape is the request its operation builds, so the builders produce exactly the fixed-shape requests |
| `Requests.RequestForInjective` | topo/switch.py:53-130 | two different operations never build the same request |
| `Requests.TableIdDefect` | topo/switch.py:100-109 | as written, a table read raises NameError for every supplied id; the intended request reads exactly the supplied table |
| `Queues.YieldedAppend` | topo/switch.py:174-175 | iterating a concatenation reaches the second part only when the first has no sentinel; what remains after the first sentinel is kept |
| `Queues.YieldedItems` | topo/switch.py:171-175 | items put one by one contain no sentinel and are yielded back in put order |
| `Queues.PutThenCloseYields` | topo/switch.py:171-178 | after N puts and then a close, iteration yields exactly those N items in put order and stops; later puts are never yielded and stay queued |
| `Queues.IterableQueue.constructor` | topo/switch.py:171 | a new queue is empty |
| `Queues.IterableQueue.Put` | topo/switch.py:171 | put appends one item at the tail |
| `Queues.IterableQueue.Get` | topo/switch.py:175 | get takes the front slot; on an empty queue, where the real get blocks, it takes nothing |
| `Queues.IterableQueue.Close` | topo/switch.py:177-178 | close appends the sentinel |
| `Queues.IterableQueue.Iterate` | topo/switch.py:174-175 | iteration yields the items before the first sentinel, reports whether it met one, and leaves exactly what followed it |
| `RequestLogger.DecimalString` | topo/switch.py:159 | `%d` renders a non-empty string of digits with no leading zero except for 0 |
| `RequestLogger.ParseDecimalString` | topo/switch.py:159 | the decimal rendering reads back as the number |
| `RequestLogger.OmittedLengthNotice` | topo/switch.py:159 | the omission notice reports the length it was made for |
| `RequestLogger.LogRecordReadsBack` | topo/switch.py:151-160 | a record reads back as blank line, `[ts] method`, `---`, the content, `---`; the content is the body when shorter than 1024 characters, else a notice reporting its length |
| `RequestLogger.LogThreshold` | topo/switch.py:156-159 | 1023 characters are logged in full; 1024 give `Message too long (1024 bytes)! Skipping log...` |
| `RequestLogger.GrpcRequestLogger.constructor` | topo/switch.py:145-149 | creating the logger truncates its file |
| `RequestLogger.GrpcRequestLogger.LogMessage` | topo/switch.py:151-160 | log_message appends exactly one record to the file and never truncates |
| `RequestLogger.GrpcRequestLogger.InterceptUnaryUnary` | topo/switch.py:162-164 | logs the rendered request, then returns the continuation's result for the unchanged request |
| `RequestLogger.GrpcRequestLogger.InterceptUnaryStream` | topo/switch.py:166-168 | the same, for a call that returns a response stream |
| `Switch.Runtime.constructor` | topo/switch.py:13-14 | the process starts with no registered sessions and no calls, a state in which the registry invariant holds |
| `Switch.ShutdownCalls` | topo/switch.py:16-19 | shutting down n sessions makes 2n calls |
| `Switch.ShutdownCallsOrder` | topo/switch.py:16-19 | bulk shutdown visits sessions in registration order, and closes each queue before cancelling that session's stream |
| `Switch.YieldEach` | topo/switch.py:114-115 | a read generator yields the server's responses, all of them, in arrival order |
| `Switch.SwitchConnection.constructor` | topo/switch.py:23-40 | a new session has a fresh empty queue, opens its stream, has no P4Info, and is appended to `connections` |
| `Switch.SwitchConnection.Shutdown` | topo/switch.py:48-50 | shutdown puts the sentinel on the session's queue, then cancels its stream |
| `Switch.SwitchConnection.MasterArbitrationUpdate` | topo/switch.py:53-65 | without dry run: puts exactly one arbitration request and takes exactly one message off the stream, leaving later ones; with dry run: queue, stream and calls unchanged |
| `Switch.SwitchConnection.SetForwardingPipelineConfig` | topo/switch.py:68-82 | without dry run: exactly one unary call with the pipeline config request; with dry run: no call |
| `Switch.SwitchConnection.WriteTableEntry` | topo/switch.py:85-97 | without dry run: exactly one Write call with the write request; with dry run: no call |
| `Switch.SwitchConnection.ReadTableEntries` | topo/switch.py:100-115 | without dry run: one Read call with the intended table read request, yielding the responses in arrival order; with dry run: no call and nothing yielded |
| `Switch.SwitchConnection.ReadCounters` | topo/switch.py:118-136 | without dry run: one Read call with the counter read request, yielding the responses in arrival order; with dry run: no call and nothing yielded |
| `Switch.ShutdownAllSwitchConnections` | topo/switch.py:16-19 | every registered session is shut down: its queue gets its sentinel and its stream is cancelled, in registration order; no session's pending replies or P4Info change |

## Findings

| source | as written | input that shows it | evidently intended | confidence | as-written member | corrected member |
|---|---|---|---|---|---|---|
| topo/switch.py:106 | `ReadTableEntries` rebinds its parameter `table_entry` at line 104, then tests `table_id`, a name bound nowhere; once line 81's missing colon is fixed so the file parses, the generator raises NameError on its first step | any call, e.g. `ReadTableEntries(7)` iterated | use the supplied table id, else the wildcard 0 | high, not executed | `Requests.ReadTableEntriesRequestAsWritten` (discrepancy shown by `Requests.TableIdDefect`) | `Requests.ReadTableEntriesRequest` (proved by `Requests.TableReadRequestShape`), used by `Switch.SwitchConnection.ReadTableEntries` |

## Left out

- The gRPC channel, the stub and the `StreamChannel`, `Read` and `Write` RPCs are foreign calls. The model records each call in `Runtime.calls`, and its results are inputs. The stream's replies are given at construction. A Read call's responses are given per call.
- Transport errors raised by unary calls and by Read streams are not modelled: a call always completes. The one stream error modelled is iterating a cancelled stream (`StreamCancelled`).
- The StreamChannel consumer thread that drains the queue concurrently is left out, and so are blocking and thread safety in `Queue.get`/`put`. The queue keeps what was put; `Iterate` shows what that consumer would take.
- The wrapping of the channel by `GrpcRequestLogger` via `intercept_channel` (topo/switch.py:30-32) is left out. The logger is modelled on its own. `str()` of a protobuf request is the `render` parameter.
- Protobuf `CopyFrom` and `SerializeToString` are left out. The P4Info, the device config, the stream replies, the read responses and a table entry's fields other than its id are opaque bytes.
- Protobuf's range check on integer fields is not modelled. An out-of-range id raises ValueError in the source; here ids are typed to their field widths (uint32, uint64, int64).
- The abstract `buildDeviceConfig` (topo/switch.py:42-45) is left out: its serialized output is the `deviceConfig` parameter of `SetForwardingPipelineConfig`.
- `datetime.utcnow()` and its formatting are left out: the timestamp is the `ts` parameter. Opening and appending to the log file are left out: the file is the logger's `contents`.
- The `print` output of dry runs is left out. Only the absence of any queue, stub or stream effect is modelled.
- Read generators are lazy: in the source nothing, not even a dry-run print, happens before the first iteration. The read methods model one iteration run to the end. A partly consumed generator is not modelled.
- Default arguments are not modelled: `name=None`, `address='127.0.0.1:50051'` and `device_id=0` (topo/switch.py:23-24), and `dry_run=False` (lines 53, 68, 85, 100, 118). Callers pass every argument. The unused `**kwargs` of lines 53 and 68 are left out too.
- The logger measures a body by its number of characters (`|body|`), where Python 2's `len(msg)`, with `msg = str(body)` (topo/switch.py:153-159), counts bytes. The two agree on the ASCII text that protobuf's `str()` produces.
- `Switch.SwitchConnection.MasterArbitrationUpdate`: the blocking wait for a reply is modelled as reading the replies already delivered. `NoReply` stands for the stream ending with no reply.
