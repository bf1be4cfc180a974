/** The RPC client: typed extraction from a query batch, the connection
    lifecycle, the namespace operations, the request/response correlation
    table, the call primitive and the routing rule of the dispatch loop.

    The socket, the CBOR library and the background goroutine are outside
    the model: every transport result (dial, write, the reply or the timeout,
    the frames read, the socket close) is a parameter, and decoding is a
    function passed in. A Go panic is an explicit `Panicked` outcome.

    The client's state is given twice: as the value `Client` with one
    transition function per operation (`ConnectStep`, `CloseStep`, ...),
    about which the properties are proved, and as the class `Surreal`, whose
    methods update its fields in place the way the source does and are
    proved to make exactly those transitions. */
module Surreal {
  import opened Serial
  import opened Model

  /** The errors the client returns; messages the source builds by string
      concatenation are kept as their parts. */
  datatype Error =
    | OutOfRange                                  // `At`: index outside the batch
    | ServerMessage(text: string)                 // `At`: the statement's own error text
    | DecodeFailed                                // the CBOR library refused the bytes
    | Conflict(current: string, requested: string)
    | Io(reason: string)                          // dial, write, read or close failure
    | CloseCode(code: int)                        // a WebSocket close error carrying this code
    | NoNamespace
    | InUse(id: U32)
    | TimedOut(name: string)
    | RpcFailed(name: string, id: U32, code: int, message: string)
    | Joined(errors: seq<Error>)                  // `errors.Join`

  /** The Go runtime panics the source can reach. */
  datatype Panic =
    | NilCounter      // `s.id.Next()` before the first successful `Connect`
    | NilTable        // `setChan` assigning into the nil map of a closed client
    | NilResult       // dereferencing a missing raw result
    | ClosedTwice     // `close` of a channel that is already closed

  datatype Outcome<+T> = Ok(value: T) | Err(error: Error) | Panicked(cause: Panic)

  /** The same failure, for a caller with another result type. */
  function Failed<T, U>(o: Outcome<T>): (r: Outcome<U>)
    requires !o.Ok?
    ensures o.Err? ==> r == Err(o.error)
    ensures o.Panicked? ==> r == Panicked(o.cause)
  {
    if o.Err? then Err(o.error) else Panicked(o.cause)
  }

  /** The outcome of an operation that only reports whether it failed. */
  function Discard<T>(o: Outcome<T>): (r: Outcome<()>)
    ensures r.Ok? <==> o.Ok?
    ensures o.Err? ==> r == Err(o.error)
    ensures o.Panicked? ==> r == Panicked(o.cause)
  {
    if o.Ok? then Ok(()) else Failed(o)
  }

  // ---------------------------------------------------------------------
  // Typed extraction

  /** `At`: the `i`th result of a query batch. `asText` and `asValue` are the
      CBOR library decoding a raw result as a string and as the target type. */
  function At<T>(q: seq<QueryRes>, i: int, asText: Bytes -> Option<string>,
                 asValue: Bytes -> Option<T>): (r: Outcome<T>)
    ensures r == Err(OutOfRange) <==> i < 0 || i > |q| - 1
    ensures r.Ok? ==>
      0 <= i < |q| && q[i].status == "OK" && q[i].result.Some? &&
      asValue(q[i].result.value) == Some(r.value)
    ensures 0 <= i < |q| && q[i].status != "OK" && q[i].result.Some? ==>
      r == (match asText(q[i].result.value)
            case Some(text) => Err(ServerMessage(text))
            case None => Err(DecodeFailed))
    ensures 0 <= i < |q| && q[i].status == "OK" && q[i].result.Some? ==>
      r == (match asValue(q[i].result.value)
            case Some(v) => Ok(v)
            case None => Err(DecodeFailed))
    ensures 0 <= i < |q| && q[i].result.None? ==> r == Panicked(NilResult)
  {
    if i < 0 || i > |q| - 1 then Err(OutOfRange)
    else
      var v := q[i];
      if v.result.None? then Panicked(NilResult)
      else if v.status != "OK" then
        match asText(v.result.value)
        case None => Err(DecodeFailed)
        case Some(text) => Err(ServerMessage(text))
      else
        match asValue(v.result.value)
        case None => Err(DecodeFailed)
        case Some(t) => Ok(t)
  }

  /** A value the server sends back under "OK" is recovered by `At`. */
  lemma AtRecoversValue<T>(x: T, raw: Bytes, asText: Bytes -> Option<string>,
                           asValue: Bytes -> Option<T>)
    requires asValue(raw) == Some(x)
    ensures At([QueryRes("OK", Some(raw))], 0, asText, asValue) == Ok(x)
  {
  }

  /** An "ERR" result whose raw bytes are the message fails with that message. */
  lemma AtReportsServerMessage<T>(text: string, raw: Bytes, asText: Bytes -> Option<string>,
                                  asValue: Bytes -> Option<T>)
    requires asText(raw) == Some(text)
    ensures At([QueryRes("ERR", Some(raw))], 0, asText, asValue) == Err(ServerMessage(text))
  {
  }

  // ---------------------------------------------------------------------
  // The client as a value, and its transitions

  /** `CloseChan`: nil outside a session, open during one, closed by `Close`. */
  datatype Signal = Nil | Open | Closed

  /** The reply channel `setChan` makes for a request id. */
  datatype Slot = Slot(id: U32)

  /** The client's fields: `connected` stands for `ws != nil`; `table` is the
      map `respChans` (None for the nil map); `counter` is the allocator's
      value (None while `id` is nil); `sent` lists the requests written to
      the socket, oldest first. */
  datatype Client = Client(
    connected: bool,
    host: string,
    ns: string,
    closeErr: Option<Error>,
    closeChan: Signal,
    table: Option<map<U32, Slot>>,
    counter: Option<U32>,
    sent: seq<RpcReq>)

  /** The relations between the fields that every operation keeps. A
      connected client may have `closeChan == Closed`: that is the state other
      goroutines observe while `Close` runs. */
  predicate Consistent(c: Client)
  {
    && (c.connected <==> c.closeChan != Nil)
    && (c.connected <==> c.table.Some?)
    && (c.connected ==> c.counter.Some?)
    && (!c.connected ==> c.ns == "" && c.host == "")
    && (c.table.Some? ==> forall n :: n in c.table.value ==> c.table.value[n] == Slot(n))
  }

  /** `New()`: every field at its zero value. */
  const Fresh: Client := Client(false, "", "", None, Nil, None, None, [])

  datatype Step<+T> = Step(client: Client, out: Outcome<T>)

  /** `Connect(host)`, with `dial` the dialer's error, if any. */
  function ConnectStep(c: Client, h: string, dial: Option<Error>): (r: Step<()>)
    ensures Consistent(c) ==> Consistent(r.client)
    ensures r.out.Ok? <==> (if c.connected then c.host == h else dial.None?)
    ensures !r.out.Ok? ==> r.client == c
    ensures r.client.ns == c.ns && r.client.sent == c.sent
  {
    if c.connected then
      if c.host == h then Step(c, Ok(())) else Step(c, Err(Conflict(c.host, h)))
    else if dial.Some? then Step(c, Err(dial.value))
    else Step(c.(connected := true, host := h, closeErr := None, closeChan := Open,
                 table := Some(map[]), counter := Some(0)), Ok(()))
  }

  /** A socket close error that is a normal closure (1000), going away (1001)
      or an abnormal closure (1006), the codes of section 7.4.1 of RFC 6455
      that `Close` does not report. */
  predicate ExpectedClosure(e: Error)
  {
    e.CloseCode? && e.code in {1000, 1001, 1006}
  }

  /** The errors `Close` keeps: the close-frame write error, then the socket
      close error unless it is an expected closure. */
  function KeptCloseErrors(frameErr: Option<Error>, sockErr: Option<Error>): (r: seq<Error>)
    ensures |r| <= 2
    ensures forall e :: e in r ==> Some(e) == frameErr || (Some(e) == sockErr && !ExpectedClosure(e))
    ensures frameErr.Some? ==> frameErr.value in r
  {
    (if frameErr.Some? then [frameErr.value] else []) +
    (if sockErr.Some? && !ExpectedClosure(sockErr.value) then [sockErr.value] else [])
  }

  /** nil when no error is kept, otherwise the join of the kept ones. */
  function CloseResult(frameErr: Option<Error>, sockErr: Option<Error>): (r: Outcome<()>)
    ensures !r.Panicked?
    ensures r.Err? ==> r.error.Joined? && 0 < |r.error.errors| <= 2
  {
    var errs := KeptCloseErrors(frameErr, sockErr);
    if |errs| > 0 then Err(Joined(errs)) else Ok(())
  }

  /** `Close()`, with the close-frame write error and the socket close error
      as parameters. The deferred teardown runs on every path, the panic of
      closing `CloseChan` twice included. `closeErr` is kept. */
  function CloseStep(c: Client, frameErr: Option<Error>, sockErr: Option<Error>): (r: Step<()>)
    requires Consistent(c)
    ensures Consistent(r.client) && !r.client.connected && r.client.ns == ""
    ensures r.client.closeErr == c.closeErr && r.client.sent == c.sent
    ensures r.out.Panicked? <==> c.closeChan == Closed
  {
    if !c.connected then Step(c, Ok(()))
    else
      var torn := c.(connected := false, ns := "", host := "", closeChan := Nil,
                     table := None, counter := Some(0));
      if c.closeChan == Closed then Step(torn, Panicked(ClosedTwice))
      else Step(torn, CloseResult(frameErr, sockErr))
  }

  /** How the wait for the reply ended: the 5-second timer fired, or the
      dispatch loop delivered the response for this id. */
  datatype Wait = Timeout | Answer(error: Option<RpcErr>, result: Option<Bytes>)

  /** What `rpc` returns once the request is written. */
  function Reply(name: string, n: U32, w: Wait): (r: Outcome<Option<Bytes>>)
    ensures !r.Panicked?
    ensures r.Ok? <==> w.Answer? && w.error.None?
    ensures r.Ok? ==> r.value == w.result
    ensures w.Timeout? ==> r == Err(TimedOut(name))
    ensures w.Answer? && w.error.Some? ==>
      r == Err(RpcFailed(name, n, w.error.value.code, w.error.value.message))
  {
    match w
    case Timeout => Err(TimedOut(name))
    case Answer(e, res) =>
      if e.Some? then Err(RpcFailed(name, n, e.value.code, e.value.message)) else Ok(res)
  }

  /** What `rpc` returns when `CloseChan` is already closed: `(nil, CloseErr)`,
      which is a success with no result when no error was recorded. */
  function OnClosed(closeErr: Option<Error>): (r: Outcome<Option<Bytes>>)
    ensures !r.Panicked?
    ensures r.Err? <==> closeErr.Some?
    ensures r.Err? ==> Some(r.error) == closeErr
    ensures r.Ok? ==> r.value.None?
  {
    if closeErr.Some? then Err(closeErr.value) else Ok(None)
  }

  /** `rpc(name, params)`: closed check, id allocation, registration, write,
      wait. The id registered is removed again on every path, so the table
      comes out as it went in. */
  function RpcStep(c: Client, name: string, p: Params, writeErr: Option<Error>, w: Wait)
    : (r: Step<Option<Bytes>>)
    ensures Consistent(c) ==> Consistent(r.client)
    ensures r.client == c.(counter := r.client.counter, sent := r.client.sent)
    ensures |c.sent| <= |r.client.sent| <= |c.sent| + 1 && r.client.sent[..|c.sent|] == c.sent
    ensures Consistent(c) && r.out.Ok? ==> c.connected
  {
    if c.closeChan == Closed then Step(c, OnClosed(c.closeErr))
    else if c.counter.None? then Step(c, Panicked(NilCounter))
    else
      var n := Succ(c.counter.value);
      var c1 := c.(counter := Some(n));
      if c1.table.None? then Step(c1, Panicked(NilTable))
      else if n in c1.table.value then Step(c1, Err(InUse(n)))
      else if writeErr.Some? then Step(c1, Err(writeErr.value))
      else Step(c1.(sent := c1.sent + [RpcReq(n, name, p)]), Reply(name, n, w))
  }

  /** `UseNs(ns)`. */
  function UseNsStep(c: Client, ns: string, writeErr: Option<Error>, w: Wait): (r: Step<()>)
    ensures Consistent(c) ==> Consistent(r.client)
    ensures r.client.ns == (if r.out.Ok? then ns else c.ns)
    ensures r.out.Ok? ==> ns != ""
  {
    if ns == "" then Step(c, Err(NoNamespace))
    else
      var s := RpcStep(c, "use", Use(ns, None), writeErr, w);
      if s.out.Ok? then Step(s.client.(ns := ns), Ok(())) else Step(s.client, Failed(s.out))
  }

  /** `UseDb(db)`. */
  function UseDbStep(c: Client, db: string, writeErr: Option<Error>, w: Wait): (r: Step<()>)
    ensures Consistent(c) ==> Consistent(r.client)
    ensures r.client.ns == c.ns
    ensures r.out.Ok? ==> c.ns != ""
    ensures r.out.Ok? && c.closeChan != Closed ==>
      r.client.counter.Some? &&
      r.client.sent == c.sent + [RpcReq(r.client.counter.value, "use", Use(c.ns, Some(db)))]
  {
    if c.ns == "" then Step(c, Err(NoNamespace))
    else
      var s := RpcStep(c, "use", Use(c.ns, Some(db)), writeErr, w);
      Step(s.client, Discard(s.out))
  }

  /** `Signin(user, pass)`. */
  function SigninStep(c: Client, user: string, pass: string, writeErr: Option<Error>, w: Wait)
    : (r: Step<()>)
    ensures Consistent(c) ==> Consistent(r.client)
    ensures r.client.ns == c.ns
    ensures r.out.Ok? ==> c.ns != ""
    ensures r.out.Ok? && c.closeChan != Closed ==>
      r.client.counter.Some? &&
      r.client.sent == c.sent + [RpcReq(r.client.counter.value, "signin", Signin(NsUserAuth(c.ns, user, pass)))]
  {
    if c.ns == "" then Step(c, Err(NoNamespace))
    else
      var s := RpcStep(c, "signin", Signin(NsUserAuth(c.ns, user, pass)), writeErr, w);
      Step(s.client, Discard(s.out))
  }

  /** `Query(statement, vars)`; `decode` is the CBOR library reading the
      result as a batch. */
  function QueryStep(c: Client, statement: string, vars: Bytes, writeErr: Option<Error>,
                     w: Wait, decode: Bytes -> Option<seq<QueryRes>>): (r: Step<seq<QueryRes>>)
    ensures Consistent(c) ==> Consistent(r.client)
    ensures r.client.ns == c.ns
  {
    var s := RpcStep(c, "query", QueryParams(statement, vars), writeErr, w);
    if !s.out.Ok? then Step(s.client, Failed(s.out))
    else if s.out.value.None? then Step(s.client, Panicked(NilResult))
    else match decode(s.out.value.value)
      case None => Step(s.client, Err(DecodeFailed))
      case Some(res) => Step(s.client, Ok(res))
  }

  // ---------------------------------------------------------------------
  // Dispatch: what `listen` does with the frames it reads

  /** One read from the socket: a frame, or the error that ends the loop. */
  datatype Frame = Received(data: Bytes) | ReadFailed(error: Error)

  /** A response handed to the channel registered for its id. */
  datatype Delivery = Delivery(slot: Slot, resp: RpcResp)

  datatype Routing = Routing(delivered: seq<Delivery>, readErr: Option<Error>)

  /** The routing rule: undecodable frames and responses whose id has no
      entry are dropped, the others go to their entry's channel, and the
      first read error ends the loop. */
  function Route(frames: seq<Frame>, table: map<U32, Slot>, decode: Bytes -> Option<RpcResp>)
    : (r: Routing)
    ensures |r.delivered| <= |frames|
    ensures forall d :: d in r.delivered ==> d.resp.id in table && table[d.resp.id] == d.slot
    ensures forall d :: d in r.delivered ==>
      exists k :: 0 <= k < |frames| && frames[k].Received? && decode(frames[k].data) == Some(d.resp)
    decreases |frames|
  {
    if frames == [] then Routing([], None)
    else match frames[0]
      case ReadFailed(e) => Routing([], Some(e))
      case Received(data) =>
        var rest := Route(frames[1..], table, decode);
        assert forall d :: d in rest.delivered ==>
          exists k :: 0 <= k < |frames| && frames[k].Received? && decode(frames[k].data) == Some(d.resp) by {
          forall d | d in rest.delivered
            ensures exists k :: 0 <= k < |frames| && frames[k].Received? && decode(frames[k].data) == Some(d.resp)
          {
            var k :| 0 <= k < |frames[1..]| && frames[1..][k].Received? && decode(frames[1..][k].data) == Some(d.resp);
            assert frames[k + 1] == frames[1..][k];
          }
        }
        RouteData(data, rest, table, decode)
  }

  /** One frame read, in front of the routing of the frames after it: a
      decodable response whose id is registered goes first, anything else
      is dropped. */
  function RouteData(data: Bytes, rest: Routing, table: map<U32, Slot>,
                     decode: Bytes -> Option<RpcResp>): Routing
  {
    match decode(data)
    case None => rest
    case Some(resp) =>
      if resp.id in table then Routing([Delivery(table[resp.id], resp)] + rest.delivered, rest.readErr)
      else rest
  }

  /** `Route` from position `i` on: the frame at `i` in front of the
      routing of the frames after it. */
  lemma RouteAt(frames: seq<Frame>, i: nat, table: map<U32, Slot>, decode: Bytes -> Option<RpcResp>)
    requires i < |frames|
    ensures Route(frames[i..], table, decode) ==
      match frames[i]
      case ReadFailed(e) => Routing([], Some(e))
      case Received(data) => RouteData(data, Route(frames[i + 1..], table, decode), table, decode)
  {
    assert frames[i..][0] == frames[i] && frames[i..][1..] == frames[i + 1..];
  }

  /** A delivery moves from the front of what is left to the end of what
      has been delivered. */
  lemma ShiftDelivery(done: seq<Delivery>, d: Delivery, rest: seq<Delivery>)
    ensures done + ([d] + rest) == (done + [d]) + rest
  {
  }

  /** One pass of `listen` over the frames read while connected: nothing
      when `CloseChan` is already closed; otherwise the deliveries of `Route`,
      and a read error becomes `CloseErr`. */
  function ListenStep(c: Client, frames: seq<Frame>, decode: Bytes -> Option<RpcResp>)
    : (r: (Client, seq<Delivery>))
    requires c.table.Some?
    ensures r.0 == c.(closeErr := r.0.closeErr)
    ensures Consistent(c) ==> Consistent(r.0)
    ensures |r.1| <= |frames|
    ensures forall d :: d in r.1 ==> d.resp.id in c.table.value && c.table.value[d.resp.id] == d.slot
  {
    if c.closeChan == Closed then (c, [])
    else
      var r := Route(frames, c.table.value, decode);
      (if r.readErr.Some? then c.(closeErr := r.readErr) else c, r.delivered)
  }

  // ---------------------------------------------------------------------
  // Properties of the transitions

  /** `Connect` to the host of the current session succeeds and changes nothing. */
  lemma ConnectSameHost(c: Client, h: string, dial: Option<Error>)
    requires c.connected && c.host == h
    ensures ConnectStep(c, h, dial) == Step(c, Ok(()))
  {
  }

  /** `Connect` to another host while connected fails with the conflict
      error and changes nothing. */
  lemma ConnectOtherHost(c: Client, h: string, dial: Option<Error>)
    requires c.connected && c.host != h
    ensures ConnectStep(c, h, dial) == Step(c, Err(Conflict(c.host, h)))
  {
  }

  /** A failed dial returns its error and leaves the client disconnected and
      unchanged. */
  lemma ConnectDialFails(c: Client, h: string, e: Error)
    requires !c.connected
    ensures ConnectStep(c, h, Some(e)) == Step(c, Err(e))
  {
  }

  /** A successful dial starts a session: the host is recorded, `CloseErr` is
      cleared, the table is empty and a fresh counter will issue 1 next. */
  lemma ConnectStartsSession(c: Client, h: string)
    requires Consistent(c) && !c.connected
    ensures var s := ConnectStep(c, h, None);
      && s.out == Ok(())
      && s.client.connected && s.client.host == h && s.client.closeChan == Open
      && s.client.closeErr == None && s.client.table == Some(map[])
      && s.client.counter == Some(0) && Succ(s.client.counter.value) == 1
      && s.client.ns == "" && s.client.sent == c.sent
      && Consistent(s.client)
  {
  }

  /** `Close` on a disconnected client returns nil and has no effect. */
  lemma CloseWhenDisconnected(c: Client, frameErr: Option<Error>, sockErr: Option<Error>)
    requires Consistent(c) && !c.connected
    ensures CloseStep(c, frameErr, sockErr) == Step(c, Ok(()))
  {
  }

  /** `Close` on a connected client always ends disconnected, whatever it
      returns: socket, namespace, host, signal and table cleared, counter at
      zero, `CloseErr` and the requests sent untouched. */
  lemma CloseDisconnects(c: Client, frameErr: Option<Error>, sockErr: Option<Error>)
    requires Consistent(c) && c.connected
    ensures var s := CloseStep(c, frameErr, sockErr);
      && !s.client.connected && s.client.ns == "" && s.client.host == ""
      && s.client.closeChan == Nil && s.client.table == None && s.client.counter == Some(0)
      && s.client.closeErr == c.closeErr && s.client.sent == c.sent
      && Consistent(s.client)
      && (c.closeChan != Closed ==> s.out == CloseResult(frameErr, sockErr))
  {
  }

  /** `Close` returns nil exactly when there is no close-frame error and the
      socket closed cleanly or with an expected code. */
  lemma CloseResultNil(frameErr: Option<Error>, sockErr: Option<Error>)
    ensures CloseResult(frameErr, sockErr) == Ok(()) <==>
      frameErr.None? && (sockErr.None? || ExpectedClosure(sockErr.value))
    ensures !CloseResult(frameErr, sockErr).Ok? ==> CloseResult(frameErr, sockErr).Err?
  {
  }

  /** Neither error masks the other: both are joined, frame error first. */
  lemma CloseErrorsJoined(frameErr: Error, sockErr: Error)
    requires !ExpectedClosure(sockErr)
    ensures CloseResult(Some(frameErr), Some(sockErr)) == Err(Joined([frameErr, sockErr]))
    ensures CloseResult(None, Some(sockErr)) == Err(Joined([sockErr]))
    ensures CloseResult(Some(frameErr), None) == Err(Joined([frameErr]))
  {
    assert KeptCloseErrors(Some(frameErr), Some(sockErr)) == [frameErr, sockErr];
    assert KeptCloseErrors(None, Some(sockErr)) == [sockErr];
    assert KeptCloseErrors(Some(frameErr), None) == [frameErr];
  }

  /** A socket close error with code 1000, 1001 or 1006 counts as no error;
      any other code is reported. */
  lemma ExpectedClosuresDropped(frameErr: Option<Error>, code: int)
    ensures code in {1000, 1001, 1006} ==>
      CloseResult(frameErr, Some(CloseCode(code))) == CloseResult(frameErr, None)
    ensures code !in {1000, 1001, 1006} ==>
      CloseResult(frameErr, Some(CloseCode(code))) != CloseResult(frameErr, None)
  {
  }

  /** After `Close`, a second `Close` returns nil, and `Connect` to any host
      (the old one or another) succeeds when the dial does. */
  lemma CloseThenReconnect(c: Client, frameErr: Option<Error>, sockErr: Option<Error>,
                           again: Option<Error>, againSock: Option<Error>, h: string)
    requires Consistent(c)
    ensures var closed := CloseStep(c, frameErr, sockErr).client;
      && CloseStep(closed, again, againSock) == Step(closed, Ok(()))
      && ConnectStep(closed, h, None).out == Ok(())
      && ConnectStep(closed, h, None).client.host == h
  {
  }

  /** `rpc` on a closing client returns `CloseErr` at once: no id is
      allocated, nothing is registered and nothing is sent. */
  lemma RpcWhenClosed(c: Client, name: string, p: Params, writeErr: Option<Error>, w: Wait)
    requires c.closeChan == Closed
    ensures RpcStep(c, name, p, writeErr, w) == Step(c, OnClosed(c.closeErr))
  {
  }

  /** Otherwise `rpc` allocates exactly one id, the successor of the counter;
      sends at most one request, with that id, and only if the id was free and
      the write succeeded; and leaves the table as it found it. */
  lemma RpcAllocatesOneId(c: Client, name: string, p: Params, writeErr: Option<Error>, w: Wait)
    requires c.closeChan != Closed && c.counter.Some?
    ensures var s := RpcStep(c, name, p, writeErr, w);
      var n := Succ(c.counter.value);
      && s.client.counter == Some(n)
      && s.client.table == c.table
      && s.client == c.(counter := Some(n), sent := s.client.sent)
      && (s.client.sent == c.sent + [RpcReq(n, name, p)] <==>
           c.table.Some? && n !in c.table.value && writeErr.None?)
      && (s.client.sent != c.sent + [RpcReq(n, name, p)] ==> s.client.sent == c.sent)
      && (s.out.Ok? ==> s.client.sent == c.sent + [RpcReq(n, name, p)])
  {
  }

  /** Once an id is allocated, `rpc` fails with "in use" when the id is
      still registered, with the write error when the write fails, and
      otherwise returns what the wait brought. */
  lemma RpcOutcome(c: Client, name: string, p: Params, writeErr: Option<Error>, w: Wait)
    requires c.closeChan != Closed && c.counter.Some? && c.table.Some?
    ensures var n := Succ(c.counter.value);
      var out := RpcStep(c, name, p, writeErr, w).out;
      && (n in c.table.value ==> out == Err(InUse(n)))
      && (n !in c.table.value && writeErr.Some? ==> out == Err(writeErr.value))
      && (n !in c.table.value && writeErr.None? ==> out == Reply(name, n, w))
  {
  }

  /** A call whose reply never comes times out; its id is gone from the
      table, so a response that arrives for it later is dropped. */
  lemma LateReplyDropped(c: Client, name: string, p: Params, x: Bytes,
                         decode: Bytes -> Option<RpcResp>)
    requires Consistent(c) && c.connected && c.closeChan == Open
    requires Succ(c.counter.value) !in c.table.value
    requires decode(x).Some? && decode(x).value.id == Succ(c.counter.value)
    ensures var s := RpcStep(c, name, p, None, Timeout);
      && s.out == Err(TimedOut(name))
      && s.client.table == c.table
      && ListenStep(s.client, [Received(x)], decode).1 == []
  {
  }

  /** `UseNs("")` fails before any call is made. */
  lemma UseNsEmpty(c: Client, writeErr: Option<Error>, w: Wait)
    ensures UseNsStep(c, "", writeErr, w) == Step(c, Err(NoNamespace))
  {
  }

  /** `UseNs` records the namespace only when its call succeeds. */
  lemma UseNsRecordsOnSuccess(c: Client, ns: string, writeErr: Option<Error>, w: Wait)
    requires ns != ""
    ensures var s := UseNsStep(c, ns, writeErr, w);
      var call := RpcStep(c, "use", Use(ns, None), writeErr, w);
      && (s.out.Ok? <==> call.out.Ok?)
      && (call.out.Err? ==> s.out == Err(call.out.error))
      && (call.out.Panicked? ==> s.out == Panicked(call.out.cause))
      && s.client.ns == (if call.out.Ok? then ns else c.ns)
      && s.client.(ns := c.ns) == call.client
  {
  }

  /** `UseDb` and `Signin` fail before any call is made when no namespace is set. */
  lemma NamespaceRequired(c: Client, db: string, user: string, pass: string,
                          writeErr: Option<Error>, w: Wait)
    requires c.ns == ""
    ensures UseDbStep(c, db, writeErr, w) == Step(c, Err(NoNamespace))
    ensures SigninStep(c, user, pass, writeErr, w) == Step(c, Err(NoNamespace))
  {
  }

  /** A disconnected client never has a namespace, so `UseDb` and `Signin`
      on it fail before any call. */
  lemma DisconnectedHasNoNamespace(c: Client, db: string, user: string, pass: string,
                                   writeErr: Option<Error>, w: Wait)
    requires Consistent(c) && !c.connected
    ensures UseDbStep(c, db, writeErr, w) == Step(c, Err(NoNamespace))
    ensures SigninStep(c, user, pass, writeErr, w) == Step(c, Err(NoNamespace))
  {
    NamespaceRequired(c, db, user, pass, writeErr, w);
  }

  /** A session from a new client: connect, select namespace "test", sign
      in, run one statement. The three calls carry ids 1, 2 and 3, and the
      statement's value is read back from the batch. */
  lemma SessionScenario(h: string, vars: Bytes, raw: Bytes, two: Bytes,
                        decode: Bytes -> Option<seq<QueryRes>>,
                        asText: Bytes -> Option<string>, asInt: Bytes -> Option<int>)
    requires decode(raw) == Some([QueryRes("OK", Some(two))]) && asInt(two) == Some(2)
    ensures
      var c1 := ConnectStep(Fresh, h, None);
      var c2 := UseNsStep(c1.client, "test", None, Answer(None, None));
      var c3 := SigninStep(c2.client, "root", "root", None, Answer(None, None));
      var c4 := QueryStep(c3.client, "RETURN 1+1", vars, None, Answer(None, Some(raw)), decode);
      && c1.out == Ok(()) && c2.out == Ok(()) && c3.out == Ok(()) && c4.out.Ok?
      && c4.client.sent == [RpcReq(1, "use", Use("test", None)),
                            RpcReq(2, "signin", Signin(NsUserAuth("test", "root", "root"))),
                            RpcReq(3, "query", QueryParams("RETURN 1+1", vars))]
      && c4.client.table == Some(map[])
      && At(c4.out.value, 0, asText, asInt) == Ok(2)
  {
  }

  /** `Query` makes one "query" call and changes the client as that call
      does; it succeeds exactly when the call returns a raw result that
      decodes as a batch, and then returns that batch; a failed call is passed
      on unchanged, and a call that returns no result panics. */
  lemma QueryDecodesResult(c: Client, statement: string, vars: Bytes, writeErr: Option<Error>,
                           w: Wait, decode: Bytes -> Option<seq<QueryRes>>)
    ensures var call := RpcStep(c, "query", QueryParams(statement, vars), writeErr, w);
      var q := QueryStep(c, statement, vars, writeErr, w, decode);
      && q.client == call.client
      && (q.out.Ok? <==> call.out.Ok? && call.out.value.Some? && decode(call.out.value.value).Some?)
      && (q.out.Ok? ==> Some(q.out.value) == decode(call.out.value.value))
      && (call.out.Err? ==> q.out == Err(call.out.error))
      && (call.out.Panicked? ==> q.out == Panicked(call.out.cause))
      && (call.out == Ok(None) ==> q.out == Panicked(NilResult))
      && (call.out.Ok? && call.out.value.Some? && decode(call.out.value.value).None? ==>
            q.out == Err(DecodeFailed))
  {
  }

  /** A frame that does not decode is dropped. */
  lemma RouteDropsUndecodable(x: Bytes, frames: seq<Frame>, table: map<U32, Slot>,
                              decode: Bytes -> Option<RpcResp>)
    requires decode(x).None?
    ensures Route([Received(x)] + frames, table, decode) == Route(frames, table, decode)
  {
    assert ([Received(x)] + frames)[1..] == frames;
  }

  /** A response whose id has no entry in the table is dropped. */
  lemma RouteDropsUnknownId(x: Bytes, frames: seq<Frame>, table: map<U32, Slot>,
                            decode: Bytes -> Option<RpcResp>)
    requires decode(x).Some? && decode(x).value.id !in table
    ensures Route([Received(x)] + frames, table, decode) == Route(frames, table, decode)
  {
    assert ([Received(x)] + frames)[1..] == frames;
  }

  /** A response read before any read error, that decodes and whose id is
      registered, is delivered to that id's channel. */
  lemma {:induction false} RouteDelivers(frames: seq<Frame>, table: map<U32, Slot>,
                                         decode: Bytes -> Option<RpcResp>, k: nat)
    requires k < |frames| && frames[k].Received?
    requires decode(frames[k].data).Some? && decode(frames[k].data).value.id in table
    requires forall j :: 0 <= j < k ==> frames[j].Received?
    ensures var resp := decode(frames[k].data).value;
      Delivery(table[resp.id], resp) in Route(frames, table, decode).delivered
  {
    if k > 0 {
      RouteDelivers(frames[1..], table, decode, k - 1);
    }
  }

  /** A read error ends the loop: it is recorded, and no later frame is read. */
  lemma {:induction false} RouteStopsAtReadError(before: seq<Frame>, e: Error, after: seq<Frame>,
                                                 table: map<U32, Slot>,
                                                 decode: Bytes -> Option<RpcResp>)
    requires forall j :: 0 <= j < |before| ==> before[j].Received?
    ensures Route(before + [ReadFailed(e)] + after, table, decode) ==
            Route(before + [ReadFailed(e)], table, decode)
    ensures Route(before + [ReadFailed(e)], table, decode).readErr == Some(e)
  {
    if before == [] {
      assert (before + [ReadFailed(e)] + after)[0] == ReadFailed(e);
    } else {
      RouteStopsAtReadError(before[1..], e, after, table, decode);
      assert (before + [ReadFailed(e)] + after)[1..] == before[1..] + [ReadFailed(e)] + after;
      assert (before + [ReadFailed(e)])[1..] == before[1..] + [ReadFailed(e)];
    }
  }

  /** Reading in two stretches, the first without a read error, routes as
      reading everything at once: the deliveries keep the order of the
      frames, and nothing is delivered twice or dropped at the seam. */
  lemma {:induction false} RouteAppend(a: seq<Frame>, b: seq<Frame>, table: map<U32, Slot>,
                                       decode: Bytes -> Option<RpcResp>)
    requires forall j :: 0 <= j < |a| ==> a[j].Received?
    ensures Route(a + b, table, decode) ==
      Routing(Route(a, table, decode).delivered + Route(b, table, decode).delivered,
              Route(b, table, decode).readErr)
  {
    if a == [] {
      assert a + b == b;
    } else {
      var front := Route(a[1..], table, decode);
      var back := Route(b, table, decode);
      assert Route(a[1..] + b, table, decode) == Routing(front.delivered + back.delivered, back.readErr) by {
        RouteAppend(a[1..], b, table, decode);
      }
      assert (a + b)[0] == a[0] && (a + b)[1..] == a[1..] + b;
      assert Route(a + b, table, decode) ==
             RouteData(a[0].data, Route(a[1..] + b, table, decode), table, decode);
      assert Route(a, table, decode) == RouteData(a[0].data, front, table, decode);
      RouteDataAppend(a[0].data, front.delivered, back, table, decode);
    }
  }

  /** Routing one more frame in front only ever adds at the front. */
  lemma RouteDataAppend(data: Bytes, front: seq<Delivery>, back: Routing, table: map<U32, Slot>,
                        decode: Bytes -> Option<RpcResp>)
    ensures forall e: Option<Error> ::
      RouteData(data, Routing(front + back.delivered, back.readErr), table, decode) ==
      Routing(RouteData(data, Routing(front, e), table, decode).delivered + back.delivered, back.readErr)
  {
    match decode(data)
    case None =>
    case Some(resp) =>
      if resp.id in table {
        var x := Delivery(table[resp.id], resp);
        assert [x] + (front + back.delivered) == ([x] + front) + back.delivered;
      }
  }

  /** Without a read error every frame is read: the loop records nothing. */
  lemma {:induction false} RouteWithoutReadError(frames: seq<Frame>, table: map<U32, Slot>,
                                                 decode: Bytes -> Option<RpcResp>)
    requires forall j :: 0 <= j < |frames| ==> frames[j].Received?
    ensures Route(frames, table, decode).readErr == None
  {
    if frames != [] {
      RouteWithoutReadError(frames[1..], table, decode);
    }
  }

  /** The dispatch loop changes only `CloseErr`, and only to the first read
      error; a client whose `CloseChan` is closed is left as it was. */
  lemma ListenRecordsReadError(c: Client, before: seq<Frame>, e: Error, after: seq<Frame>,
                               decode: Bytes -> Option<RpcResp>)
    requires Consistent(c) && c.connected
    requires forall j :: 0 <= j < |before| ==> before[j].Received?
    ensures var l := ListenStep(c, before + [ReadFailed(e)] + after, decode).0;
      && l == (if c.closeChan == Closed then c else c.(closeErr := Some(e)))
      && Consistent(l)
    ensures ListenStep(c, before, decode).0 == c
  {
    RouteStopsAtReadError(before, e, after, c.table.value, decode);
    RouteWithoutReadError(before, c.table.value, decode);
  }

  // ---------------------------------------------------------------------
  // The client object

  class Surreal {
    var id: Serial?
    var connected: bool
    var ns: string
    var host: string
    var closeErr: Option<Error>
    var closeChan: Signal
    var respChans: Option<map<U32, Slot>>
    var sent: seq<RpcReq>

    ghost function View(): Client
      reads this, id
    {
      Client(connected, host, ns, closeErr, closeChan, respChans,
             if id == null then None else Some(id.cntr), sent)
    }

    ghost predicate Valid()
      reads this, id
    {
      Consistent(View())
    }

    /** `New()`. */
    constructor ()
      ensures Valid() && View() == Fresh && id == null
    {
      id := null;
      connected := false;
      ns := "";
      host := "";
      closeErr := None;
      closeChan := Nil;
      respChans := None;
      sent := [];
    }

    method Connect(h: string, dial: Option<Error>) returns (r: Outcome<()>)
      requires Valid()
      modifies this
      ensures Valid()
      ensures Step(View(), r) == ConnectStep(old(View()), h, dial)
      ensures old(connected) || dial.Some? ==> id == old(id)
      ensures !old(connected) && dial.None? ==> fresh(id)
    {
      if connected {
        if host == h {
          return Ok(());
        }
        return Err(Conflict(host, h));
      }
      if dial.Some? {
        return Err(dial.value);
      }
      id := new Serial();
      connected := true;
      host := h;
      closeErr := None;
      closeChan := Open;
      respChans := Some(map[]);
      r := Ok(());
    }

    method Close(frameErr: Option<Error>, sockErr: Option<Error>) returns (r: Outcome<()>)
      requires Valid()
      modifies this, id
      ensures Valid()
      ensures Step(View(), r) == CloseStep(old(View()), frameErr, sockErr)
      ensures id == old(id)
    {
      if !connected {
        return Ok(());
      }
      if closeChan == Closed {
        r := Panicked(ClosedTwice);
      } else {
        closeChan := Closed;
        var errs: seq<Error> := [];
        if frameErr.Some? {
          errs := errs + [frameErr.value];
        }
        if sockErr.Some? && !ExpectedClosure(sockErr.value) {
          errs := errs + [sockErr.value];
        }
        assert errs == KeptCloseErrors(frameErr, sockErr);
        r := if |errs| > 0 then Err(Joined(errs)) else Ok(());
      }
      // the deferred teardown
      id.Reset();
      connected := false;
      ns := "";
      host := "";
      closeChan := Nil;
      respChans := None;
    }

    /** `write`: a request reaches the socket unless the write fails. */
    method Write(req: RpcReq, failure: Option<Error>) returns (err: Option<Error>)
      modifies this`sent
      ensures err == failure
      ensures sent == old(sent) + (if failure.None? then [req] else [])
    {
      err := failure;
      if failure.None? {
        sent := sent + [req];
      }
    }

    method SetChan(n: U32) returns (r: Outcome<Slot>)
      modifies this`respChans
      ensures old(respChans).None? ==> r == Panicked(NilTable) && respChans == None
      ensures old(respChans).Some? && n in old(respChans).value ==>
        r == Err(InUse(n)) && respChans == old(respChans)
      ensures old(respChans).Some? && n !in old(respChans).value ==>
        r == Ok(Slot(n)) && respChans == Some(old(respChans).value[n := Slot(n)])
    {
      if respChans.None? {
        return Panicked(NilTable);
      }
      if n in respChans.value {
        return Err(InUse(n));
      }
      respChans := Some(respChans.value[n := Slot(n)]);
      r := Ok(Slot(n));
    }

    method GetChan(n: U32) returns (slot: Option<Slot>)
      ensures slot.Some? <==> respChans.Some? && n in respChans.value
      ensures slot.Some? ==> slot.value == respChans.value[n]
    {
      if respChans.Some? && n in respChans.value {
        slot := Some(respChans.value[n]);
      } else {
        slot := None;
      }
    }

    method DelChan(n: U32)
      modifies this`respChans
      ensures respChans.Some? <==> old(respChans).Some?
      ensures respChans.Some? ==> respChans.value == old(respChans).value - {n}
    {
      if respChans.Some? {
        respChans := Some(respChans.value - {n});
      }
    }

    method Rpc(name: string, params: Params, writeErr: Option<Error>, wait: Wait)
      returns (r: Outcome<Option<Bytes>>)
      requires Valid()
      modifies this, id
      ensures Valid()
      ensures Step(View(), r) == RpcStep(old(View()), name, params, writeErr, wait)
      ensures id == old(id)
      ensures respChans == old(respChans)
    {
      if closeChan == Closed {
        return OnClosed(closeErr);
      }
      if id == null {
        return Panicked(NilCounter);
      }
      var n := id.Next();
      var reg := SetChan(n);
      if !reg.Ok? {
        return Failed(reg);
      }
      ghost var registered := respChans.value;
      // from here on the deferred `delChan(n)` runs on every return
      var err := Write(RpcReq(n, name, params), writeErr);
      if err.Some? {
        r := Err(err.value);
      } else {
        r := Reply(name, n, wait);
      }
      DelChan(n);
      assert respChans.value == registered - {n};
      assert respChans.value == old(respChans).value;
    }

    method UseNs(newNs: string, writeErr: Option<Error>, wait: Wait) returns (r: Outcome<()>)
      requires Valid()
      modifies this, id
      ensures Valid()
      ensures Step(View(), r) == UseNsStep(old(View()), newNs, writeErr, wait)
      ensures id == old(id)
    {
      if newNs == "" {
        return Err(NoNamespace);
      }
      var res := Rpc("use", Use(newNs, None), writeErr, wait);
      if !res.Ok? {
        return Failed(res);
      }
      ns := newNs;
      r := Ok(());
    }

    method UseDb(db: string, writeErr: Option<Error>, wait: Wait) returns (r: Outcome<()>)
      requires Valid()
      modifies this, id
      ensures Valid()
      ensures Step(View(), r) == UseDbStep(old(View()), db, writeErr, wait)
      ensures id == old(id)
    {
      if ns == "" {
        return Err(NoNamespace);
      }
      var res := Rpc("use", Use(ns, Some(db)), writeErr, wait);
      r := Discard(res);
    }

    method Signin(user: string, pass: string, writeErr: Option<Error>, wait: Wait)
      returns (r: Outcome<()>)
      requires Valid()
      modifies this, id
      ensures Valid()
      ensures Step(View(), r) == SigninStep(old(View()), user, pass, writeErr, wait)
      ensures id == old(id)
    {
      if ns == "" {
        return Err(NoNamespace);
      }
      var res := Rpc("signin", Model.Signin(NsUserAuth(ns, user, pass)), writeErr, wait);
      r := Discard(res);
    }

    method Query(statement: string, vars: Bytes, writeErr: Option<Error>, wait: Wait,
                 decode: Bytes -> Option<seq<QueryRes>>)
      returns (r: Outcome<seq<QueryRes>>)
      requires Valid()
      modifies this, id
      ensures Valid()
      ensures Step(View(), r) == QueryStep(old(View()), statement, vars, writeErr, wait, decode)
      ensures id == old(id)
    {
      var msg := Rpc("query", QueryParams(statement, vars), writeErr, wait);
      if !msg.Ok? {
        return Failed(msg);
      }
      if msg.value.None? {
        return Panicked(NilResult);
      }
      var res := decode(msg.value.value);
      if res.None? {
        return Err(DecodeFailed);
      }
      r := Ok(res.value);
    }

    /** The dispatch loop over the frames it reads during a session. */
    method Listen(frames: seq<Frame>, decode: Bytes -> Option<RpcResp>)
      returns (delivered: seq<Delivery>)
      requires Valid() && connected
      modifies this`closeErr
      ensures Valid()
      ensures (View(), delivered) == ListenStep(old(View()), frames, decode)
    {
      delivered := [];
      var i := 0;
      while i < |frames|
        invariant 0 <= i <= |frames|
        invariant closeErr == old(closeErr)
        invariant closeChan == Closed ==> i == 0 && delivered == []
        invariant Route(frames, respChans.value, decode) ==
          Routing(delivered + Route(frames[i..], respChans.value, decode).delivered,
                  Route(frames[i..], respChans.value, decode).readErr)
      {
        if closeChan == Closed {
          return;
        }
        RouteAt(frames, i, respChans.value, decode);
        match frames[i]
        case ReadFailed(e) =>
          assert delivered + [] == delivered;
          closeErr := Some(e);
          return;
        case Received(data) =>
          var resp := decode(data);
          if resp.Some? {
            var slot := GetChan(resp.value.id);
            if slot.Some? {
              var d := Delivery(slot.value, resp.value);
              ShiftDelivery(delivered, d, Route(frames[i + 1..], respChans.value, decode).delivered);
              delivered := delivered + [d];
            }
          }
        i := i + 1;
      }
      assert frames[i..] == [] && delivered + [] == delivered;
    }
  }
}
