# gol core, modelled in Dafny

The repository `gol` runs a child process, captures its output line by line
and stores each line in a SurrealDB database. This project models four parts
of it:

- **the request-id allocator** (`serial.dfy`, module `Serial`): a `uint32`
  counter. `Next` increments it, wrapping at 2^32, and returns the new
  value. `Reset` puts it back to zero.
- **the wire records** (`model.dfy`, module `Model`):
  - the `use`, `signin` and `query` request and response envelopes;
  - a query batch's per-statement results;
  - the login record;
  - the CBOR datetime tag (tag 12 around `[seconds, nanoseconds]`) that
    `Datetime` builds from an optional instant.
- **the RPC client** (`surreal.dfy`, module `Surreal`):
  - `At`, which pulls one typed value out of a query batch;
  - the session lifecycle (`Connect`, `Close`);
  - the calls `UseNs`, `UseDb`, `Signin` and `Query`;
  - the call primitive `rpc`, with its correlation table (`setChan`,
    `getChan`, `delChan`);
  - the routing rule of the dispatch loop `listen`.

  The client is written twice:
  - as the value `Client`, with one transition function per operation;
    the properties are proved about these functions;
  - as the class `Surreal`, whose methods update its fields in place the way
    the Go code does. Each method is proved to make exactly the
    corresponding transition
    (`Step(View(), r) == XStep(old(View()), ...)`).
- **the output line buffer** (`out.dfy`, module `Out`). `Write` normalises
  CRLF and CR to LF and keeps a partial line until its newline arrives. It
  recognises the `::group::` and `::endgroup::` markers and emits records.
  `Consume` drains the buffer together with the datetime of its first
  write. The records sent on the unbuffered channel are the sequence
  `emitted`, in order. `WriteChunk` and `WriteChunkFixed` are the
  specifications of the methods `Out.Write` and `Out.WriteFixed`.

The transport is not modelled. Each outside result is a parameter instead:
- the dial error, the close-frame write error and the socket close error;
- each request's write error;
- whether the 5-second timer or the reply came first (`Wait`);
- the sequence of frames the dispatch loop reads;
- the clock reading `now`.

The CBOR library's decoding is a function parameter (`decode`, `asText`,
`asValue`).

Go runtime panics are explicit outcomes, so no precondition excludes them:
- `Surreal.Panic` covers a nil counter, a nil table, a nil result and
  closing a closed channel;
- `Out.Written.IndexOutOfRange` is the index panic in `Write`.

Where the code and the documented intent differ, the model follows the code:
- In `Write`'s newline branch, the `b` declared in the `if` header by
  `bytes.CutPrefix` stays in scope in the `else if` and `else` branches.
  So `"::endgroup::\n"` is recognised as the end marker, and a terminated
  plain line is appended without its newline (`Out.Dispatch`).
- `rpc`'s wait has no case for `CloseChan`. Only the timer or the reply ends
  it (`Surreal.Wait`).
- `rpc` on a closing client returns `(nil, CloseErr)`. When no error was
  recorded, that is a success with no result (`Surreal.OnClosed`).
- `Connect` does not reset the namespace. `Close` keeps `CloseErr`.
- Because of that success with no result, `UseDb` or `Signin` on a closing
  client with no recorded error succeed without sending anything
  (`Surreal.UseDbStep`).
- `Write` looks only at a chunk's last byte. A chunk of several lines ending
  in a newline is one record, with its inner newlines (`Out.TwoLinesOneRecord`).

## Model

| member | source | states |
|---|---|---|
| Serial.Succ | serial/serial.go:17 | the `uint32` increment: one more, except that 2^32-1 wraps to 0; never the same value |
| Serial.Advance | serial/serial.go:14-19 | n calls to Next from counter c leave it at (c + n) mod 2^32 |
| Serial.AdvanceFromZero | serial/serial.go:14-19 | from a fresh counter, n calls (n < 2^32) leave the counter at n, a corollary of the closed form of Advance |
| Serial.AdvanceDistinct | serial/serial.go:14-19 | before the counter wraps, no two calls issue the same id |
| Serial.AdvanceWraps | serial/serial.go:17 | after 2^32 calls the counter is back at 0 and the next id is 1 again |
| Serial.Serial.constructor | serial/serial.go:10-12 | a new counter is at zero |
| Serial.Serial.Next | serial/serial.go:14-19 | the counter becomes the wrapped successor of its old value, and that value is returned |
| Serial.Serial.Reset | serial/serial.go:21-25 | the counter is zero afterwards, whatever it was |
| Serial.FirstThree | serial/serial_test.go:12-18 | a fresh counter issues 1, 2, 3 |
| Serial.NextAfterReset | serial/serial_test.go:20-30 | after any number of calls, each moving the counter one step, Reset then Next returns 1 |
| Serial.NextAfter | serial/serial_test.go:32-54 | after k calls on a fresh counter (k < 2^32-1), the next call returns k+1 |
| Model.Datetime | surreal/model.go:21-30 | nil gives nil, never a tag around nil; an instant gives tag 12 with two integers whose value seconds*10^9+nanoseconds is the instant |
| Model.InstantOf | surreal/model.go:26-29 | a decoded instant comes from tag 12 around exactly [seconds, nanoseconds] |
| Model.DatetimeRoundTrip | surreal/model.go:21-30 | decoding the tag gives back the instant |
| Model.EpochNanosSplits | surreal/model.go:28 | the two tag entries are the quotient and remainder of the nanosecond count by 10^9 |
| Model.EpochNanosInjective | surreal/model.go:28 | equal nanosecond counts mean equal instants |
| Model.DatetimeInjective | surreal/model.go:21-30 | distinct instants give distinct tags and distinct nanosecond counts |
| Surreal.Failed | surreal/surreal.go:143-146 | a failure is passed on as the same error, or the same panic |
| Surreal.Discard | surreal/surreal.go:158-160 | an operation that drops the result succeeds exactly when the call succeeded, and otherwise fails with the call's own error or panic |
| Surreal.At | surreal/surreal.go:17-38 | out of range iff i < 0 or i > len-1; a non-"OK" entry gives its decoded text as the error or a decode error; an "OK" entry gives the decoded value or a decode error; a nil result panics |
| Surreal.AtRecoversValue | surreal/surreal.go:32-37 | a value stored under "OK" is returned by `At` |
| Surreal.AtReportsServerMessage | surreal/surreal.go:23-30 | an "ERR" entry fails with the message it carries |
| Surreal.ConnectStep | surreal/surreal.go:57-84 | Connect keeps the consistency of the fields; it succeeds iff connected to the same host, or disconnected and the dial succeeds; on failure nothing changes; namespace and requests sent are untouched |
| Surreal.KeptCloseErrors | surreal/surreal.go:104-129 | at most two errors are kept: the close-frame error always, the socket close error only when it is not an expected closure |
| Surreal.CloseResult | surreal/surreal.go:131-135 | Close never panics on the error path, and a failure is a join of one or two errors |
| Surreal.CloseStep | surreal/surreal.go:86-136 | after Close the client is consistent, disconnected and without namespace; CloseErr and the requests sent are kept; it panics iff CloseChan was already closed |
| Surreal.Reply | surreal/surreal.go:249-270 | the call succeeds iff a response without error arrived, and then returns its result; a timeout fails with the method name; a server error carries the method, the request id, and the server's code and message |
| Surreal.OnClosed | surreal/surreal.go:227-231 | on a closing client the call fails iff CloseErr is set, with that error, and otherwise succeeds with no result |
| Surreal.RpcStep | surreal/surreal.go:226-271 | rpc keeps consistency, changes only the counter and the requests sent, sends at most one request, and only succeeds on a connected client |
| Surreal.UseNsStep | surreal/surreal.go:138-151 | UseNs keeps consistency; the namespace becomes the new one iff the call succeeded, which needs a non-empty name |
| Surreal.UseDbStep | surreal/surreal.go:153-161 | UseDb keeps consistency and the namespace; success needs a namespace, and on a client that is not closing means the request `use [ns, db]` was sent |
| Surreal.SigninStep | surreal/surreal.go:163-175 | Signin keeps consistency and the namespace; success needs a namespace, and on a client that is not closing means the login record with that namespace was sent |
| Surreal.QueryStep | surreal/surreal.go:177-189 | Query keeps consistency and the namespace |
| Surreal.QueryDecodesResult | surreal/surreal.go:177-189 | Query changes the client as its one "query" call does; it succeeds iff the call returns a result that decodes, and returns that batch; call failures and panics pass unchanged; a missing result panics; an undecodable one is a decode error |
| Surreal.ListenStep | surreal/surreal.go:191-224 | the dispatch loop changes only CloseErr, keeps consistency, and delivers at most one response per frame, each to the entry registered for its id |
| Surreal.ConnectSameHost | surreal/surreal.go:58-61 | connecting again to the current host succeeds and changes nothing |
| Surreal.ConnectOtherHost | surreal/surreal.go:58-64 | connecting to another host while connected fails with a conflict naming both and changes nothing |
| Surreal.ConnectDialFails | surreal/surreal.go:70-73 | a failed dial returns its error and changes nothing |
| Surreal.ConnectStartsSession | surreal/surreal.go:75-83 | a successful dial records the host, clears CloseErr, opens CloseChan and an empty table, and starts a counter whose next id is 1; consistency is kept |
| Surreal.CloseWhenDisconnected | surreal/surreal.go:89-92 | Close on a disconnected client returns nil and changes nothing |
| Surreal.CloseDisconnects | surreal/surreal.go:94-135 | Close on a connected client always ends disconnected: namespace, host, signal and table cleared, counter at 0, CloseErr kept; otherwise the result is the joined kept errors |
| Surreal.CloseResultNil | surreal/surreal.go:104-135 | Close returns nil iff there is no close-frame error and the socket closed cleanly or with code 1000, 1001 or 1006 |
| Surreal.CloseErrorsJoined | surreal/surreal.go:109-133 | both errors are joined, the close-frame error first; neither masks the other |
| Surreal.ExpectedClosuresDropped | surreal/surreal.go:113-128 | a close error with code 1000, 1001 or 1006 counts as none, and any other code is reported |
| Surreal.CloseThenReconnect | surreal/surreal.go:86-102 | after Close, a second Close returns nil and Connect to any host succeeds when the dial does |
| Surreal.RpcWhenClosed | surreal/surreal.go:227-231 | a call on a closing client returns CloseErr at once: no id, no registration, nothing sent |
| Surreal.RpcAllocatesOneId | surreal/surreal.go:233-270 | a call allocates exactly one id, the counter's successor; it sends one request with that id iff the id was free and the write succeeded; the table comes out as it went in |
| Surreal.RpcOutcome | surreal/surreal.go:233-270 | once an id is allocated, the call fails as in use when the id is registered, fails with the write error when the write fails, and otherwise returns what the wait brought |
| Surreal.LateReplyDropped | surreal/surreal.go:249-251 | a call that times out has its id removed, so a response arriving for it later is dropped by the dispatch loop |
| Surreal.UseNsEmpty | surreal/surreal.go:139-141 | UseNs("") fails with "no namespace" before any call |
| Surreal.UseNsRecordsOnSuccess | surreal/surreal.go:143-150 | UseNs succeeds exactly when its "use" call does, passing on the call's error or panic; the namespace is recorded only after a successful call, and otherwise the client is as the call left it |
| Surreal.NamespaceRequired | surreal/surreal.go:153-175 | UseDb and Signin fail with "no namespace" before any call when no namespace is set |
| Surreal.DisconnectedHasNoNamespace | surreal/surreal.go:96-97 | a disconnected client has no namespace, so UseDb and Signin fail before any call |
| Surreal.SessionScenario | surreal/surreal.go:138-189 | connect, use "test", signin, query send ids 1, 2 and 3 with the expected params, the table is empty again, and `At` reads the statement's value |
| Surreal.Route | surreal/surreal.go:191-224 | no more deliveries than frames; each delivery goes to the entry registered for its id and carries a response decoded from a frame read |
| Surreal.RouteDropsUndecodable | surreal/surreal.go:210-215 | a frame that does not decode is skipped |
| Surreal.RouteDropsUnknownId | surreal/surreal.go:219-221 | a response whose id is not registered is skipped |
| Surreal.RouteDelivers | surreal/surreal.go:219-221 | a decodable response with a registered id, read before any read error, is delivered |
| Surreal.RouteStopsAtReadError | surreal/surreal.go:197-208 | the first read error is recorded and ends the loop: later frames are not read |
| Surreal.RouteAppend | surreal/surreal.go:192-223 | reading in two stretches, the first without a read error, gives the deliveries of the first followed by those of the second: order is kept and nothing is duplicated or lost |
| Surreal.RouteWithoutReadError | surreal/surreal.go:192-223 | without a read error the loop records no error |
| Surreal.ListenRecordsReadError | surreal/surreal.go:191-224 | the loop changes only CloseErr, to the first read error, and not at all when CloseChan is closed |
| Surreal.Surreal.constructor | surreal/surreal.go:53-55 | a new client has every field at its zero value |
| Surreal.Surreal.Connect | surreal/surreal.go:57-84 | makes exactly the ConnectStep transition; a fresh counter on success |
| Surreal.Surreal.Close | surreal/surreal.go:86-136 | makes exactly the CloseStep transition, the deferred teardown on every path |
| Surreal.Surreal.Write | surreal/surreal.go:273-282 | the request is sent unless the write fails, whose error is returned |
| Surreal.Surreal.SetChan | surreal/surreal.go:284-297 | a nil table panics, a taken id fails as in use, and a free id is registered |
| Surreal.Surreal.GetChan | surreal/surreal.go:299-305 | finds the registered entry iff the id is in the table |
| Surreal.Surreal.DelChan | surreal/surreal.go:307-311 | removes the id and nothing else |
| Surreal.Surreal.Rpc | surreal/surreal.go:226-271 | makes exactly the RpcStep transition; the table is left as it was |
| Surreal.Surreal.UseNs | surreal/surreal.go:138-151 | makes exactly the UseNsStep transition |
| Surreal.Surreal.UseDb | surreal/surreal.go:153-161 | makes exactly the UseDbStep transition |
| Surreal.Surreal.Signin | surreal/surreal.go:163-175 | makes exactly the SigninStep transition |
| Surreal.Surreal.Query | surreal/surreal.go:177-189 | makes exactly the QueryStep transition |
| Surreal.Surreal.Listen | surreal/surreal.go:191-224 | the loop over the frames delivers what Route delivers and records its read error, which is the ListenStep transition |
| Out.ReplaceCrLf | out/out.go:51 | one byte shorter per CRLF pair; the identity on text without CR |
| Out.ReplaceCrLfPair | out/out.go:51 | each CRLF pair becomes one LF in place, and the scan goes on after it |
| Out.ReplaceCrLfLoneCr | out/out.go:51 | a CR not followed by LF is left in place by the first replacement |
| Out.ReplaceCr | out/out.go:52 | same length; each CR becomes LF and every other byte is kept |
| Out.Normalize | out/out.go:51-52 | no CR in the result; one byte shorter per CRLF pair |
| Out.CrTerminated | out/out.go:51-54 | a chunk ending in a lone CR is a completed line, written exactly as the one ending in LF |
| Out.CountCrLfPositive | out/out.go:51 | a CRLF pair is counted iff the chunk contains one |
| Out.NormalizeShrinks | out/out.go:51-52 | normalising shortens a chunk exactly when it contains CRLF |
| Out.NormalizeIdempotent | out/out.go:51-52 | normalising twice is normalising once |
| Out.Consumed | out/out.go:94-98 | the record holds the buffered text, and a time iff one was buffered, which decodes back to the buffered instant |
| Out.Dispatch | out/out.go:54-89 | nothing is emitted iff the chunk is unterminated and neither marker; then the chunk is appended to the buffer; otherwise the buffer is drained and one or two records are emitted |
| Out.WriteChunk | out/out.go:39-92 | writing nothing changes nothing; a successful write returns the chunk's length; the index panic is at `len-1`, emits nothing and keeps the text; a non-empty write leaves the buffer drained or stamped with its first time |
| Out.WriteChunkFixed | out/out.go:39-92 | with the intended index, a non-empty write leaves the buffer drained or stamped with its first time, and at most two records are emitted |
| Out.WriteChunkPanicsIffCrLf | out/out.go:39-54 | as written, Write panics exactly on chunks containing CRLF and otherwise returns the chunk's length |
| Out.CrLfLinePanics | out/out.go:54 | "a\r\n" is normalised to two bytes and then indexed at 2 |
| Out.WriteChunkFixedReturnsLength | out/out.go:39-91 | with the intended index, Write never panics and returns the chunk's length |
| Out.WriteChunkFixedAgrees | out/out.go:39-91 | on chunks without CRLF the corrected Write is the original |
| Out.WriteChunkFixedCrLfLine | out/out.go:51-71 | with the intended index, a CRLF-terminated line buffers and emits as the LF-terminated one |
| Out.ReplaceCrLfAppend | out/out.go:51 | a prefix without CR passes through CRLF replacement unchanged |
| Out.WriteEmpty | out/out.go:42-44 | writing nothing returns 0, changes nothing and emits nothing |
| Out.WriteChunkNormalises | out/out.go:51-52 | a chunk without CRLF behaves as its normalised form |
| Out.WriteKeepsFirstTimestamp | out/out.go:46-49 | the timestamp is taken only when the buffer has none: every timed record carries the buffered instant and a partial buffer keeps it |
| Out.DispatchKeepsTime | out/out.go:54-89 | every branch attaches only the buffered time and keeps it while the buffer stays partial |
| Out.WriteChunkWithoutCr | out/out.go:54-89 | a chunk without CR is dispatched as a terminated line when it ends in LF, as a partial one otherwise |
| Out.GroupLine | out/out.go:55-61 | a chunk starting with `::group::` (any number of lines) adds the rest, without its final newline, to the buffer, then emits BEGIN and the drained buffer |
| Out.EndGroupLine | out/out.go:62-67 | `::endgroup::`, with or without its newline, emits the drained buffer then END and is not buffered |
| Out.PlainLine | out/out.go:68-88 | any other chunk, of any number of lines (a bare newline included), is buffered: emitted as one record without its final newline when it ends in LF, nothing emitted otherwise |
| Out.BareNewline | out/out.go:54-71 | a bare newline completes the buffered partial line, and on an empty buffer emits an empty record stamped with the current time |
| Out.TwoLinesOneRecord | out/out.go:54-71 | "a\nb\n" is emitted as the single record "a\nb" |
| Out.ConsumeDrains | out/out.go:94-102 | the record holds the buffered text and a time iff one was buffered; draining an empty buffer gives an empty record without time |
| Out.Out.constructor | out/out.go:33-37 | an empty buffer and no records |
| Out.Out.Reset | out/out.go:104-107 | the buffer is empty and has no timestamp |
| Out.Out.Consume | out/out.go:94-102 | returns the buffered text with its datetime tag and leaves the buffer drained |
| Out.Out.DispatchLine | out/out.go:54-89 | the buffer and the records appended are those of Dispatch; earlier records are kept |
| Out.Out.Write | out/out.go:39-92 | the result, the new buffer and the records appended are those of WriteChunk |
| Out.Out.WriteFixed | out/out.go:39-92 | the same with the intended index, and the result is always the chunk's length |

## Findings

| source | as written | input that shows it | evidently intended | confidence | as-written member | corrected member |
|---|---|---|---|---|---|---|
| out/out.go:54 | the last byte is read at `l-1`, where `l` is the chunk's length before CRLF is replaced by LF | `"a\r\n"`: normalised to `"a\n"` (length 2), indexed at 2, an index-out-of-range panic; every chunk containing CRLF panics | read the last byte of the normalised chunk (`len(b)-1`) | not executed | Out.CrLfLinePanics | Out.WriteChunkFixedReturnsLength |

`Out.WriteChunkPanicsIffCrLf` characterises the chunks that panic.
`Out.WriteChunkFixedAgrees` shows the correction changes nothing on the
other chunks. `Out.Out.WriteFixed` is the corrected method.

## Left out

- The WebSocket transport is a parameter: dialing, reading and writing frames, compression, the `cbor` subprotocol and the close handshake. So is the CBOR encoding and decoding of requests, responses and query results.
- Goroutines, mutexes and the blocking of unbuffered channels are not modelled. Every operation is atomic, and a send on `Ch` or on a reply channel is an append to a sequence.
- The 5-second timer in `rpc` is the `Wait.Timeout` alternative. `time.Now` is the parameter `now`.
- `Surreal.Surreal.Listen` starts with `CloseChan` open, or with it already closed. A `CloseChan` closed between two reads is not modelled.
- The dispatch loop's wait on `CloseChan` after a non-`net.ErrClosed` read error is not modelled. Both read-error paths record the error and stop.
- The decode-failure log line in `listen` is not modelled.
- `rpc`'s `!open` branch is not modelled. No code closes a reply channel, so it cannot be taken.
- Error messages built by string concatenation are kept as the parts of an `Error` constructor, not as text.
- `Model.Datetime`: seconds are unbounded integers, not `int64`.
- `main.go` (process spawning and the storage of records) is not part of this model.
- `Serial.Serial.Next`: the mutex that serialises concurrent callers is not modelled. `Serial.NextAfter` states the sequential content of the concurrency test.
