/** The output line buffer: `Write` receives chunks of a child process's
    output, normalises line endings, keeps a partial line until its newline
    arrives, recognises the `::group::` and `::endgroup::` markers and emits
    records; `Consume` drains the buffer together with the time of its first
    write.

    The unbuffered channel `Ch` is modelled by the sequence `emitted` of the
    records sent on it, in order; the clock is the parameter `now`. */
module Out {
  import opened Model

  const LF: Byte := 10
  const CR: Byte := 13

  /** "::group::" */
  const GROUP: Bytes := [58, 58, 103, 114, 111, 117, 112, 58, 58]
  /** "::endgroup::" */
  const GROUP_END: Bytes := [58, 58, 101, 110, 100, 103, 114, 111, 117, 112, 58, 58]
  /** "BEGIN" */
  const BEGIN: Bytes := [66, 69, 71, 73, 78]
  /** "END" */
  const END: Bytes := [69, 78, 68]

  /** A record sent on the channel: the text and its optional datetime tag. */
  datatype OutData = OutData(message: Bytes, time: Option<Tag>)

  // ---------------------------------------------------------------------
  // Line-ending normalisation

  predicate CrLfAt(b: Bytes, k: int)
  {
    0 <= k < |b| - 1 && b[k] == CR && b[k + 1] == LF
  }

  predicate ContainsCrLf(b: Bytes)
  {
    exists k :: 0 <= k < |b| && CrLfAt(b, k)
  }

  /** The number of CRLF pairs in `b`. */
  function CountCrLf(b: Bytes): nat
  {
    if |b| < 2 then 0
    else if b[0] == CR && b[1] == LF then 1 + CountCrLf(b[2..])
    else CountCrLf(b[1..])
  }

  /** `bytes.ReplaceAll(b, CRLF, LF)`: scanning left to right, each CRLF
      pair becomes one LF. */
  function ReplaceCrLf(b: Bytes): (r: Bytes)
    ensures |r| == |b| - CountCrLf(b)
    ensures CR !in b ==> r == b
  {
    if |b| < 2 then b
    else if b[0] == CR && b[1] == LF then [LF] + ReplaceCrLf(b[2..])
    else [b[0]] + ReplaceCrLf(b[1..])
  }

  /** `bytes.ReplaceAll(b, CR, LF)`: every remaining CR becomes LF. */
  function ReplaceCr(b: Bytes): (r: Bytes)
    ensures |r| == |b|
    ensures CR !in r
    ensures forall k :: 0 <= k < |b| && b[k] != CR ==> r[k] == b[k]
    ensures forall k :: 0 <= k < |b| && b[k] == CR ==> r[k] == LF
  {
    if b == [] then []
    else [if b[0] == CR then LF else b[0]] + ReplaceCr(b[1..])
  }

  /** The two replacements of `Write`, in their order. */
  function Normalize(b: Bytes): (r: Bytes)
    ensures CR !in r
    ensures |r| == |b| - CountCrLf(b)
    ensures CR !in b ==> r == b
  {
    ReplaceCr(ReplaceCrLf(b))
  }

  /** A chunk has a CRLF pair exactly when it has a pair to count. */
  lemma {:induction false} CountCrLfPositive(b: Bytes)
    ensures CountCrLf(b) > 0 <==> ContainsCrLf(b)
  {
    if |b| < 2 {
      assert !CrLfAt(b, 0);
    } else if b[0] == CR && b[1] == LF {
      assert CrLfAt(b, 0);
    } else {
      CountCrLfPositive(b[1..]);
      if ContainsCrLf(b) {
        var k :| 0 <= k < |b| && CrLfAt(b, k);
        assert k != 0;
        assert b[1..][k - 1] == b[k] && b[1..][k] == b[k + 1];
        assert CrLfAt(b[1..], k - 1);
      }
      if ContainsCrLf(b[1..]) {
        var k :| 0 <= k < |b[1..]| && CrLfAt(b[1..], k);
        assert b[1..][k] == b[k + 1] && b[1..][k + 1] == b[k + 2];
        assert CrLfAt(b, k + 1);
      }
    }
  }

  /** Normalisation shortens a chunk exactly when the chunk has a CRLF pair. */
  lemma NormalizeShrinks(b: Bytes)
    ensures |Normalize(b)| <= |b|
    ensures |Normalize(b)| < |b| <==> ContainsCrLf(b)
  {
    CountCrLfPositive(b);
  }

  /** Normalising twice is normalising once. */
  lemma NormalizeIdempotent(b: Bytes)
    ensures Normalize(Normalize(b)) == Normalize(b)
  {
  }

  // ---------------------------------------------------------------------
  // The buffer as a value, and what `Write` does to it

  /** The buffered partial text and the time of the first write into it. */
  datatype OutState = OutState(msg: Bytes, time: Option<Instant>)

  const Drained: OutState := OutState([], None)

  /** What `Consume` returns for a state. */
  function Consumed(s: OutState): (r: OutData)
    ensures r.message == s.msg
    ensures r.time.None? <==> s.time.None?
    ensures r.time.Some? ==> InstantOf(r.time.value) == s.time
  {
    OutData(s.msg, Datetime(s.time))
  }

  /** What `Write` returns: the byte count, or the Go panic of indexing past
      the end of the normalised chunk. */
  datatype Written = Wrote(n: nat) | IndexOutOfRange(index: int, length: nat)

  datatype WriteStep = WriteStep(result: Written, state: OutState, records: seq<OutData>)

  predicate HasPrefix(b: Bytes, p: Bytes)
  {
    |p| <= |b| && b[..|p|] == p
  }

  /** The branches of `Write` once the chunk is normalised. `line` is the
      chunk without its trailing newline when `terminated`, the whole chunk
      otherwise: the `b` declared by `CutPrefix` in the `if` header is in
      scope in the `else if` and `else` branches too, so the END test and the
      plain append also see the chunk without its newline. */
  function Dispatch(s: OutState, line: Bytes, terminated: bool): (r: (OutState, seq<OutData>))
    ensures r.1 == [] <==> !terminated && !HasPrefix(line, GROUP) && line != GROUP_END
    ensures r.1 == [] ==> r.0 == s.(msg := s.msg + line)
    ensures r.1 != [] ==> r.0 == Drained && 1 <= |r.1| <= 2
  {
    if HasPrefix(line, GROUP) then
      (Drained, [OutData(BEGIN, None), Consumed(s.(msg := s.msg + line[|GROUP|..]))])
    else if line == GROUP_END then
      (Drained, [Consumed(s), OutData(END, None)])
    else if terminated then
      (Drained, [Consumed(s.(msg := s.msg + line))])
    else
      (s.(msg := s.msg + line), [])
  }

  /** `Write(b)` as the source has it: the last byte is looked up at the
      length the chunk had before normalisation. */
  function WriteChunk(s: OutState, b: Bytes, now: Instant): (r: WriteStep)
    ensures b == [] ==> r == WriteStep(Wrote(0), s, [])
    ensures r.result.Wrote? ==> r.result.n == |b|
    ensures r.result.IndexOutOfRange? ==>
      r.result.index == |b| - 1 && r.records == [] && r.state.msg == s.msg
    ensures b != [] ==> r.state == Drained || r.state.time == Some(Stamp(s, now))
  {
    if |b| == 0 then WriteStep(Wrote(0), s, [])
    else
      var s1 := if s.time.None? then s.(time := Some(now)) else s;
      var nb := Normalize(b);
      var l := |b|;
      if l - 1 >= |nb| then WriteStep(IndexOutOfRange(l - 1, |nb|), s1, [])
      else
        var d := if nb[l - 1] == LF then Dispatch(s1, nb[..l - 1], true) else Dispatch(s1, nb, false);
        WriteStep(Wrote(l), d.0, d.1)
  }

  /** `Write(b)` looking up the last byte of the normalised chunk, as evidently
      intended. */
  function WriteChunkFixed(s: OutState, b: Bytes, now: Instant): (r: WriteStep)
    ensures b != [] ==> r.state == Drained || r.state.time == Some(Stamp(s, now))
    ensures |r.records| <= 2
  {
    if |b| == 0 then WriteStep(Wrote(0), s, [])
    else
      var s1 := if s.time.None? then s.(time := Some(now)) else s;
      var nb := Normalize(b);
      var last := |nb| - 1;
      var d := if nb[last] == LF then Dispatch(s1, nb[..last], true) else Dispatch(s1, nb, false);
      WriteStep(Wrote(|b|), d.0, d.1)
  }

  /** As written, `Write` panics exactly on the chunks that contain CRLF, and
      otherwise returns the chunk's length. */
  lemma WriteChunkPanicsIffCrLf(s: OutState, b: Bytes, now: Instant)
    ensures WriteChunk(s, b, now).result.IndexOutOfRange? <==> ContainsCrLf(b)
    ensures WriteChunk(s, b, now).result.Wrote? ==> WriteChunk(s, b, now).result.n == |b|
  {
    NormalizeShrinks(b);
  }

  /** The smallest CRLF-terminated line, "a\r\n", is normalised to two bytes
      and then indexed at 2. */
  lemma CrLfLinePanics(s: OutState, now: Instant)
    ensures WriteChunk(s, [97, CR, LF], now).result == IndexOutOfRange(2, 2)
  {
    assert ReplaceCrLf([97, CR, LF]) == [97, LF] by {
      assert [97, CR, LF][1..] == [CR, LF];
      assert ReplaceCrLf([CR, LF]) == [LF] + ReplaceCrLf([]);
    }
  }

  /** The corrected `Write` never panics and always returns the chunk's length. */
  lemma WriteChunkFixedReturnsLength(s: OutState, b: Bytes, now: Instant)
    ensures WriteChunkFixed(s, b, now).result == Wrote(|b|)
  {
  }

  /** On chunks without CRLF the corrected `Write` is the source's. */
  lemma WriteChunkFixedAgrees(s: OutState, b: Bytes, now: Instant)
    requires !ContainsCrLf(b)
    ensures WriteChunkFixed(s, b, now) == WriteChunk(s, b, now)
  {
    NormalizeShrinks(b);
  }

  /** A "\r\n"-terminated line, written through the corrected `Write`,
      changes the buffer and emits records exactly as the "\n"-terminated
      line, and counts the bytes it was given. */
  lemma {:induction false} WriteChunkFixedCrLfLine(s: OutState, x: Bytes, now: Instant)
    requires CR !in x
    ensures var crlf := WriteChunkFixed(s, x + [CR, LF], now);
      var lf := WriteChunkFixed(s, x + [LF], now);
      crlf.state == lf.state && crlf.records == lf.records && crlf.result == Wrote(|x| + 2)
  {
    ReplaceCrLfAppend(x, [CR, LF]);
    ReplaceCrLfAppend(x, [LF]);
    assert ReplaceCrLf([CR, LF]) == [LF] + ReplaceCrLf([]);
    assert CR !in x + [LF];
    assert Normalize(x + [CR, LF]) == x + [LF];
  }

  /** Each CRLF pair becomes one LF, in place: text before the first CR is
      kept, the pair is replaced and the scan goes on after it. */
  lemma {:induction false} ReplaceCrLfPair(x: Bytes, y: Bytes)
    requires CR !in x
    ensures ReplaceCrLf(x + [CR, LF] + y) == x + [LF] + ReplaceCrLf(y)
  {
    ReplaceCrLfAppend(x, [CR, LF] + y);
    assert x + [CR, LF] + y == x + ([CR, LF] + y);
    assert ([CR, LF] + y)[2..] == y;
  }

  /** A CR that does not start a CRLF pair is left for the second
      replacement. */
  lemma {:induction false} ReplaceCrLfLoneCr(x: Bytes, y: Bytes)
    requires CR !in x && (y == [] || y[0] != LF)
    ensures ReplaceCrLf(x + [CR] + y) == x + [CR] + ReplaceCrLf(y)
  {
    ReplaceCrLfCrFirst(y);
    ReplaceCrLfAppend(x, [CR] + y);
    Regroup(x, CR, y);
    Regroup(x, CR, ReplaceCrLf(y));
  }

  /** Concatenation around one byte regroups freely. */
  lemma Regroup(x: Bytes, c: Byte, y: Bytes)
    ensures x + [c] + y == x + ([c] + y)
  {
  }

  lemma {:induction false} ReplaceCrLfCrFirst(y: Bytes)
    requires y == [] || y[0] != LF
    ensures ReplaceCrLf([CR] + y) == [CR] + ReplaceCrLf(y)
  {
    var z := [CR] + y;
    assert z[0] == CR && z[1..] == y;
    if y == [] {
      assert z == [CR];
    } else {
      assert z[1] == y[0];
    }
  }

  /** A chunk ending in a lone CR, as progress output does, is a completed
      line: it is written exactly as the chunk ending in LF. */
  lemma {:induction false} CrTerminated(s: OutState, x: Bytes, now: Instant)
    requires CR !in x
    ensures WriteChunk(s, x + [CR], now) == WriteChunk(s, x + [LF], now)
  {
    NormalizeCrEnd(x);
    assert Normalize(x + [LF]) == x + [LF] by {
      assert CR !in x + [LF];
    }
  }

  lemma {:induction false} NormalizeCrEnd(x: Bytes)
    requires CR !in x
    ensures Normalize(x + [CR]) == x + [LF]
  {
    ReplaceCrLfLoneCr(x, []);
    assert x + [CR] + [] == x + [CR];
    var n := ReplaceCr(x + [CR]);
    assert |n| == |x| + 1;
    assert forall k :: 0 <= k < |x| ==> n[k] == (x + [CR])[k] == x[k];
    assert n[|x|] == LF;
    assert n == x + [LF];
  }

  /** A prefix without CR passes through `ReplaceCrLf` unchanged. */
  lemma {:induction false} ReplaceCrLfAppend(x: Bytes, y: Bytes)
    requires CR !in x
    ensures ReplaceCrLf(x + y) == x + ReplaceCrLf(y)
  {
    if x == [] {
      assert x + y == y;
    } else {
      ReplaceCrLfAppend(x[1..], y);
      ReplaceCrLfAppendStep(x, y, ReplaceCrLf(y));
    }
  }

  /** One step of `ReplaceCrLfAppend`: a leading byte other than CR is
      copied in front of the rest. */
  lemma ReplaceCrLfAppendStep(x: Bytes, y: Bytes, r: Bytes)
    requires x != [] && x[0] != CR
    requires ReplaceCrLf(x[1..] + y) == x[1..] + r
    ensures ReplaceCrLf(x + y) == x + r
  {
    SplitHead(x, y);
    SplitHead(x, r);
    ReplaceCrLfHead(x + y);
  }

  /** The first byte of a non-empty prefix, and what follows it. */
  lemma SplitHead(x: Bytes, y: Bytes)
    requires x != []
    ensures (x + y)[0] == x[0] && (x + y)[1..] == x[1..] + y
    ensures x + y == [x[0]] + (x[1..] + y)
  {
    assert x == [x[0]] + x[1..];
  }

  /** A first byte other than CR is copied as it is. */
  lemma ReplaceCrLfHead(z: Bytes)
    requires z != [] && z[0] != CR
    ensures ReplaceCrLf(z) == [z[0]] + ReplaceCrLf(z[1..])
  {
    if |z| < 2 {
      assert z == [z[0]] && z[1..] == [];
    }
  }


  /** Writing nothing returns 0, changes nothing and emits nothing. */
  lemma WriteEmpty(s: OutState, now: Instant)
    ensures WriteChunk(s, [], now) == WriteStep(Wrote(0), s, [])
  {
  }

  /** A chunk without CRLF behaves as its normalised form: line endings are
      LF from here on. */
  lemma WriteChunkNormalises(s: OutState, b: Bytes, now: Instant)
    requires !ContainsCrLf(b)
    ensures WriteChunk(s, b, now) == WriteChunk(s, Normalize(b), now)
  {
    NormalizeShrinks(b);
    NormalizeShrinks(Normalize(b));
    NormalizeIdempotent(b);
  }

  /** The instant of a non-empty write: the one already buffered, or `now`
      when the buffer had none. */
  function Stamp(s: OutState, now: Instant): Instant
  {
    if s.time.Some? then s.time.value else now
  }

  /** The timestamp is taken only when the buffer has none: every record
      that carries a time carries the buffered instant (or `now` for the first
      write after a drain), and a buffer left partial keeps it. */
  lemma {:induction false} WriteKeepsFirstTimestamp(s: OutState, b: Bytes, now: Instant)
    requires |b| > 0
    ensures var w := WriteChunk(s, b, now);
      && (forall d :: d in w.records && d.time.Some? ==> d.time == Datetime(Some(Stamp(s, now))))
      && (w.state.time.Some? ==> w.state.time == Some(Stamp(s, now)))
  {
    var s1 := if s.time.None? then s.(time := Some(now)) else s;
    assert s1.time == Some(Stamp(s, now));
    var nb := Normalize(b);
    if |b| - 1 < |nb| {
      if nb[|b| - 1] == LF {
        DispatchKeepsTime(s1, nb[..|b| - 1], true);
      } else {
        DispatchKeepsTime(s1, nb, false);
      }
    }
  }

  /** The branches only ever attach the buffered time, and keep it while the
      buffer stays partial. */
  lemma DispatchKeepsTime(s: OutState, line: Bytes, terminated: bool)
    ensures var d := Dispatch(s, line, terminated);
      && (forall r :: r in d.1 && r.time.Some? ==> r.time == Datetime(s.time))
      && (d.0.time.Some? ==> d.0.time == s.time)
  {
  }

  /** A non-empty chunk without CR is its own normal form: it is dispatched
      as a terminated line when it ends in LF, as a partial one otherwise. */
  lemma {:induction false} WriteChunkWithoutCr(s: OutState, b: Bytes, now: Instant)
    requires CR !in b && |b| > 0
    ensures var s1 := s.(time := Some(Stamp(s, now)));
      var d := if b[|b| - 1] == LF then Dispatch(s1, b[..|b| - 1], true) else Dispatch(s1, b, false);
      WriteChunk(s, b, now) == WriteStep(Wrote(|b|), d.0, d.1)
  {
    var s1 := s.(time := Some(Stamp(s, now)));
    assert (if s.time.None? then s.(time := Some(now)) else s) == s1;
    assert Normalize(b) == b;
    if b[|b| - 1] == LF {
      var d := Dispatch(s1, b[..|b| - 1], true);
      assert WriteChunk(s, b, now) == WriteStep(Wrote(|b|), d.0, d.1);
    } else {
      var d := Dispatch(s1, b, false);
      assert WriteChunk(s, b, now) == WriteStep(Wrote(|b|), d.0, d.1);
    }
  }

  /** A chunk starting with `::group::` adds the rest of the chunk (without
      its final newline; earlier newlines included) to the buffer, then emits
      BEGIN and the drained buffer. */
  lemma {:induction false} GroupLine(s: OutState, rest: Bytes, terminated: bool, now: Instant)
    requires CR !in rest
    requires !terminated && rest != [] ==> rest[|rest| - 1] != LF
    ensures var b := GROUP + rest + (if terminated then [LF] else []);
      var s1 := s.(time := Some(Stamp(s, now)));
      WriteChunk(s, b, now) ==
        WriteStep(Wrote(|b|), Drained,
                  [OutData(BEGIN, None), Consumed(s1.(msg := s.msg + rest))])
  {
    var b := GROUP + rest + (if terminated then [LF] else []);
    var line := GROUP + rest;
    var s1 := s.(time := Some(Stamp(s, now)));
    assert CR !in b;
    WriteChunkWithoutCr(s, b, now);
    GroupDispatch(s1, rest, terminated);
    if terminated {
      assert b[|b| - 1] == LF && b[..|b| - 1] == line;
    } else {
      assert b == line;
      if rest == [] {
        assert b[|b| - 1] == GROUP[8];
      } else {
        assert b[|b| - 1] == rest[|rest| - 1];
      }
    }
  }

  lemma {:induction false} GroupDispatch(s: OutState, rest: Bytes, terminated: bool)
    ensures Dispatch(s, GROUP + rest, terminated) ==
      (Drained, [OutData(BEGIN, None), Consumed(s.(msg := s.msg + rest))])
  {
    var line := GROUP + rest;
    assert line[..|GROUP|] == GROUP && line[|GROUP|..] == rest;
  }

  /** `::endgroup::`, with or without its newline, emits the drained buffer
      and then END, and is not itself buffered. */
  lemma {:induction false} EndGroupLine(s: OutState, terminated: bool, now: Instant)
    ensures var b := GROUP_END + (if terminated then [LF] else []);
      var s1 := s.(time := Some(Stamp(s, now)));
      WriteChunk(s, b, now) == WriteStep(Wrote(|b|), Drained, [Consumed(s1), OutData(END, None)])
  {
    var b := GROUP_END + (if terminated then [LF] else []);
    var s1 := s.(time := Some(Stamp(s, now)));
    assert CR !in b;
    WriteChunkWithoutCr(s, b, now);
    EndGroupDispatch(s1, terminated);
    if terminated {
      assert b[|b| - 1] == LF && b[..|b| - 1] == GROUP_END;
    } else {
      assert b == GROUP_END && b[|b| - 1] != LF;
    }
  }

  lemma EndGroupDispatch(s: OutState, terminated: bool)
    ensures Dispatch(s, GROUP_END, terminated) == (Drained, [Consumed(s), OutData(END, None)])
  {
    assert !HasPrefix(GROUP_END, GROUP) by {
      assert GROUP_END[2] != GROUP[2];
    }
  }

  /** Any other chunk is buffered: without a trailing newline nothing is
      emitted; with one, the chunk (without its final newline) completes the
      buffer, which is emitted as one record. Only the last byte is looked
      at, so a chunk of several lines is one record. */
  lemma {:induction false} PlainLine(s: OutState, line: Bytes, terminated: bool, now: Instant)
    requires CR !in line && (terminated || line != [])
    requires !terminated ==> line[|line| - 1] != LF
    requires !HasPrefix(line, GROUP) && line != GROUP_END
    ensures var b := line + (if terminated then [LF] else []);
      var s1 := s.(time := Some(Stamp(s, now)), msg := s.msg + line);
      WriteChunk(s, b, now) ==
        if terminated then WriteStep(Wrote(|b|), Drained, [Consumed(s1)])
        else WriteStep(Wrote(|b|), s1, [])
  {
    var b := line + (if terminated then [LF] else []);
    assert CR !in b;
    if terminated {
      assert b[..|b| - 1] == line;
    } else {
      assert b == line && b[|b| - 1] in line;
    }
  }

  /** Draining twice: the second record is empty and carries no time. */
  lemma ConsumeDrains(s: OutState)
    ensures Consumed(s).message == s.msg
    ensures Consumed(s).time.None? <==> s.time.None?
    ensures Consumed(Drained) == OutData([], None)
  {
  }

  /** "a\nb\n" written to an empty buffer is the single record "a\nb". */
  lemma TwoLinesOneRecord(now: Instant)
    ensures WriteChunk(Drained, [97, LF, 98, LF], now) ==
      WriteStep(Wrote(4), Drained, [OutData([97, LF, 98], Datetime(Some(now)))])
  {
    var line: Bytes := [97, LF, 98];
    assert !HasPrefix(line, GROUP) by {
      assert line[0] != GROUP[0];
    }
    assert line != GROUP_END;
    PlainLine(Drained, line, true, now);
    assert line + [LF] == [97, LF, 98, LF];
    assert Drained.msg + line == line;
  }

  /** A bare newline completes the buffered partial line; on an empty
      buffer it emits an empty record stamped with `now`. */
  lemma {:induction false} BareNewline(s: OutState, now: Instant)
    ensures WriteChunk(s, [LF], now) ==
      WriteStep(Wrote(1), Drained, [Consumed(s.(time := Some(Stamp(s, now))))])
  {
    assert !HasPrefix([], GROUP);
    assert [] != GROUP_END;
    PlainLine(s, [], true, now);
    assert [] + [LF] == [LF];
    assert s.msg + [] == s.msg;
  }

  // ---------------------------------------------------------------------
  // The writer object

  class Out {
    var msg: Bytes
    var time: Option<Instant>
    /** The records sent on `Ch`, oldest first. */
    var emitted: seq<OutData>

    ghost function State(): OutState
      reads this
    {
      OutState(msg, time)
    }

    /** `New()`: an empty buffer and no records. */
    constructor ()
      ensures State() == Drained && emitted == []
    {
      msg := [];
      time := None;
      emitted := [];
    }

    /** `reset`: empties the buffer and forgets its timestamp. */
    method Reset()
      modifies this`msg, this`time
      ensures State() == Drained
    {
      msg := [];
      time := None;
    }

    /** `Consume`: the buffered text with the datetime tag of its first write;
        the buffer is left empty and without a timestamp. */
    method Consume() returns (d: OutData)
      modifies this`msg, this`time
      ensures d == Consumed(old(State()))
      ensures d.message == old(msg) && (d.time.None? <==> old(time).None?)
      ensures State() == Drained
    {
      d := OutData(msg, Datetime(time));
      Reset();
    }

    /** The branches shared by the two halves of `Write`. */
    method DispatchLine(line: Bytes, terminated: bool)
      modifies this
      ensures |emitted| >= |old(emitted)| && emitted[..|old(emitted)|] == old(emitted)
      ensures (State(), emitted[|old(emitted)|..]) == Dispatch(old(State()), line, terminated)
    {
      if HasPrefix(line, GROUP) {
        msg := msg + line[|GROUP|..];
        emitted := emitted + [OutData(BEGIN, None)];
        var d := Consume();
        emitted := emitted + [d];
        assert emitted[|old(emitted)|..] == [OutData(BEGIN, None), d];
      } else if line == GROUP_END {
        var d := Consume();
        emitted := emitted + [d, OutData(END, None)];
        assert emitted[|old(emitted)|..] == [d, OutData(END, None)];
      } else {
        msg := msg + line;
        if terminated {
          var d := Consume();
          emitted := emitted + [d];
          assert emitted[|old(emitted)|..] == [d];
        } else {
          assert emitted[|old(emitted)|..] == [];
        }
      }
    }

    /** `Write(b)` as the source has it. */
    method Write(b: Bytes, now: Instant) returns (r: Written)
      modifies this
      ensures var w := WriteChunk(old(State()), b, now);
        r == w.result && State() == w.state && emitted == old(emitted) + w.records
    {
      var l := |b|;
      if l == 0 {
        return Wrote(0);
      }
      if time.None? {
        time := Some(now);
      }
      var nb := Normalize(b);
      if l - 1 >= |nb| {
        return IndexOutOfRange(l - 1, |nb|);
      }
      if nb[l - 1] == LF {
        DispatchLine(nb[..l - 1], true);
      } else {
        DispatchLine(nb, false);
      }
      r := Wrote(l);
    }

    /** `Write(b)` with the last byte looked up in the normalised chunk. */
    method WriteFixed(b: Bytes, now: Instant) returns (r: Written)
      modifies this
      ensures var w := WriteChunkFixed(old(State()), b, now);
        r == w.result && State() == w.state && emitted == old(emitted) + w.records
      ensures r == Wrote(|b|)
    {
      var l := |b|;
      if l == 0 {
        return Wrote(0);
      }
      if time.None? {
        time := Some(now);
      }
      var nb := Normalize(b);
      var last := |nb| - 1;
      if nb[last] == LF {
        DispatchLine(nb[..last], true);
      } else {
        DispatchLine(nb, false);
      }
      r := Wrote(l);
    }
  }
}
