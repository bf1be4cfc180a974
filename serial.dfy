/** The request-id allocator: a `uint32` counter whose `Next` increments it
    and returns the new value and whose `Reset` puts it back to zero. The
    mutex that serialises callers is not modelled: every call here is atomic. */
module Serial {

  /** 2^32: the number of values of Go's `uint32`. */
  const U32_LIMIT: int := 0x1_0000_0000

  /** Go's `uint32`. */
  type U32 = x: int | 0 <= x < U32_LIMIT

  /** `cntr++` on a `uint32`: one more, except that the largest value wraps to 0. */
  function Succ(c: U32): (r: U32)
    ensures c < U32_LIMIT - 1 ==> r == c + 1
    ensures c == U32_LIMIT - 1 ==> r == 0
    ensures r != c
  {
    (c + 1) % U32_LIMIT
  }

  /** The counter after `n` calls to `Next`, starting from `c`: `c + n`
      taken modulo 2^32. */
  function Advance(c: U32, n: nat): (r: U32)
    ensures r == (c + n) % U32_LIMIT
  {
    if n == 0 then c else Succ(Advance(c, n - 1))
  }

  /** From a fresh counter, `n` calls leave the counter at `n`, as long as no
      call has wrapped around: a corollary of the closed form of `Advance`. */
  lemma AdvanceFromZero(n: nat)
    requires n < U32_LIMIT
    ensures Advance(0, n) == n
  {
  }

  /** Before the counter wraps, no id is issued twice: the values reached
      after `i` and after `j` calls differ. */
  lemma AdvanceDistinct(i: nat, j: nat)
    requires i < j < U32_LIMIT
    ensures Advance(0, i) != Advance(0, j)
  {
    AdvanceFromZero(i);
    AdvanceFromZero(j);
  }

  /** The increment is unguarded: after 2^32 calls the counter is back at 0,
      so the next id issued is 1 again. */
  lemma AdvanceWraps()
    ensures Advance(0, U32_LIMIT) == 0
    ensures Succ(Advance(0, U32_LIMIT)) == 1
  {
    AdvanceFromZero(U32_LIMIT - 1);
  }

  class Serial {
    var cntr: U32

    /** `New`: a counter at zero, whose first `Next` returns 1. */
    constructor ()
      ensures cntr == 0
    {
      cntr := 0;
    }

    /** Increments the counter (wrapping at 2^32) and returns the new value. */
    method Next() returns (n: U32)
      modifies this
      ensures cntr == Succ(old(cntr))
      ensures n == cntr
    {
      cntr := (cntr + 1) % U32_LIMIT;
      n := cntr;
    }

    /** Puts the counter back to zero, whatever it was; a second reset leaves
        the same state as one. */
    method Reset()
      modifies this
      ensures cntr == 0
    {
      cntr := 0;
    }
  }

  /** A fresh counter issues 1, 2, 3. */
  method FirstThree() returns (a: U32, b: U32, c: U32)
    ensures a == 1 && b == 2 && c == 3
  {
    var s := new Serial();
    a := s.Next();
    b := s.Next();
    c := s.Next();
  }

  /** After any number of calls, `Reset` makes the next id 1 again. */
  method NextAfterReset(s: Serial, calls: nat) returns (n: U32)
    modifies s
    ensures n == 1 && s.cntr == 1
  {
    var i := 0;
    while i < calls
      invariant 0 <= i <= calls
      invariant s.cntr == Advance(old(s.cntr), i)
    {
      var _ := s.Next();
      i := i + 1;
    }
    s.Reset();
    n := s.Next();
  }

  /** The sequential content of the concurrency test: after `k` calls on a
      fresh counter, the next call returns `k + 1`. */
  method NextAfter(k: nat) returns (n: U32)
    requires k < U32_LIMIT - 1
    ensures n == k + 1
  {
    var s := new Serial();
    var i := 0;
    while i < k
      invariant 0 <= i <= k
      invariant s.cntr == i
    {
      var _ := s.Next();
      i := i + 1;
    }
    n := s.Next();
  }
}
