/** The wire model: the envelope records exchanged with the database and the
    datetime tag. Values are kept abstract where the CBOR library would
    encode them: a raw message is its bytes, a tag is its number and its
    content. */
module Model {
  import opened Serial

  datatype Option<+T> = None | Some(value: T)

  newtype Byte = x: int | 0 <= x < 256
  type Bytes = seq<Byte>

  /** The CBOR tag number for a datetime (RFC 8949, section 3.4, as the
      database uses it). */
  const TAG_DATETIME: nat := 12

  const NANOS_PER_SECOND: int := 1_000_000_000

  type Nanos = x: int | 0 <= x < NANOS_PER_SECOND

  /** An instant: whole seconds since the Unix epoch and the nanosecond
      remainder within that second, as Go's `t.Unix()` and `t.Nanosecond()`
      give them. */
  datatype Instant = Instant(sec: int, nsec: Nanos)

  /** A CBOR tag: its number and the content it wraps. */
  datatype Tag = Tag(number: nat, content: seq<int>)

  /** Nanoseconds since the epoch. */
  function EpochNanos(t: Instant): int
  {
    t.sec * NANOS_PER_SECOND + t.nsec
  }

  /** `Datetime`: no instant gives no tag (never a tag wrapping nil); an
      instant gives tag 12 wrapping `[seconds, nanoseconds]`. */
  function Datetime(t: Option<Instant>): (r: Option<Tag>)
    ensures r.None? <==> t.None?
    ensures r.Some? ==> r.value.number == TAG_DATETIME && |r.value.content| == 2
    ensures r.Some? ==>
      r.value.content[0] * NANOS_PER_SECOND + r.value.content[1] == EpochNanos(t.value)
  {
    match t
    case None => None
    case Some(i) => Some(Tag(TAG_DATETIME, [i.sec, i.nsec]))
  }

  /** Reading a datetime tag back: tag 12 around two integers whose second
      is a valid nanosecond remainder. */
  function InstantOf(tag: Tag): (r: Option<Instant>)
    ensures r.Some? ==> tag.number == TAG_DATETIME && tag.content == [r.value.sec, r.value.nsec]
  {
    if tag.number == TAG_DATETIME && |tag.content| == 2 && 0 <= tag.content[1] < NANOS_PER_SECOND
    then Some(Instant(tag.content[0], tag.content[1]))
    else None
  }

  /** Decoding undoes `Datetime`: the instant comes back exactly. */
  lemma DatetimeRoundTrip(t: Instant)
    ensures Datetime(Some(t)).Some? && InstantOf(Datetime(Some(t)).value) == Some(t)
  {
  }

  /** The seconds and the remainder are the quotient and the remainder of the
      nanosecond count divided by 10^9. */
  lemma EpochNanosSplits(t: Instant)
    ensures EpochNanos(t) / NANOS_PER_SECOND == t.sec
    ensures EpochNanos(t) % NANOS_PER_SECOND == t.nsec
  {
  }

  /** Two instants with the same nanosecond count since the epoch are equal. */
  lemma EpochNanosInjective(a: Instant, b: Instant)
    requires EpochNanos(a) == EpochNanos(b)
    ensures a == b
  {
    EpochNanosSplits(a);
    EpochNanosSplits(b);
  }

  /** Distinct instants give distinct tag contents. */
  lemma DatetimeInjective(a: Instant, b: Instant)
    requires a != b
    ensures Datetime(Some(a)) != Datetime(Some(b))
    ensures EpochNanos(a) != EpochNanos(b)
  {
    if EpochNanos(a) == EpochNanos(b) {
      EpochNanosInjective(a, b);
    }
  }

  /** A server-reported failure. */
  datatype RpcErr = RpcErr(code: int, message: string)

  /** The login record `signin` sends. */
  datatype NsUserAuth = NsUserAuth(ns: string, user: string, pass: string)

  /** The parameters of the calls the client makes: `use` with a namespace and
      no database (`[ns, nil]`) or with both, `signin` with one login record,
      and `query` with the statement and its variables (kept encoded). */
  datatype Params =
    | Use(ns: string, db: Option<string>)
    | Signin(auth: NsUserAuth)
    | QueryParams(statement: string, vars: Bytes)

  /** A request envelope; `name` is the wire field `method`. */
  datatype RpcReq = RpcReq(id: U32, name: string, params: Params)

  /** A response envelope: an optional error and an optional raw result. */
  datatype RpcResp = RpcResp(id: U32, error: Option<RpcErr>, result: Option<Bytes>)

  /** One statement's outcome in a query batch: "OK" or "ERR", and the raw result. */
  datatype QueryRes = QueryRes(status: string, result: Option<Bytes>)
}
