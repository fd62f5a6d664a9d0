/** Authentication sequence numbers (auth_common.c): 32 bits of network-id hash, 8 bits of time stamp and a 24-bit
    counter whose lowest bit tells the side. Words are naturals below 2^64, and shifting left by k bits is
    multiplication by 2^k modulo 2^64. */
module SeqNumbers {
  import opened Common

  const SEQ_INTEGER_MAX := 0xFF_FFFF
  const SEQ_INTERVAL := 2
  const TWO_24 := 0x100_0000
  const TWO_32 := 0x1_0000_0000
  const TWO_40 := 0x100_0000_0000
  const TWO_63 := 0x8000_0000_0000_0000
  const TWO_64 := 0x1_0000_0000_0000_0000

  type Byte = b: int | 0 <= b < 256

  /** The first four bytes of the network id's hash and the current time. */
  datatype Stamp = Stamp(h0: Byte, h1: Byte, h2: Byte, h3: Byte, time: nat)

  /** The static counter and g_uniqueId. */
  datatype Gen = Gen(integer: nat, uniqueId: nat)

  /** One call of GenSeq; the stamp is None when the local network id cannot be read or hashed. */
  datatype Call = Call(isServer: bool, stamp: Option<Stamp>)

  /** (u << 8) | b. */
  function Push(u: nat, b: Byte): nat {
    (u * 256 + b) % TWO_64
  }

  /** UpdateUniqueId. */
  function Refresh(u: nat, stamp: Option<Stamp>): nat {
    if stamp.None? then u
    else
      var s := stamp.value;
      Push(Push(Push(Push(Push(u, s.h0), s.h1), s.h2), s.h3), s.time % 256)
  }

  /** The counter has run through its 2^23 values, or has not started. */
  predicate Exhausted(g: Gen) {
    g.integer >= SEQ_INTEGER_MAX || g.integer == 0
  }

  /** GenSeq: the state after one call. */
  function Next(g: Gen, c: Call): Gen {
    if Exhausted(g) then Gen(SEQ_INTERVAL, Refresh(g.uniqueId, c.stamp))
    else Gen(g.integer + SEQ_INTERVAL, g.uniqueId)
  }

  /** GenSeq: the number returned, as an unsigned word. */
  function Seq(g: Gen, c: Call): nat {
    var g1 := Next(g, c);
    g1.uniqueId % TWO_40 * TWO_24 + (g1.integer + if c.isServer then 1 else 0) % TWO_24
  }

  function AsInt64(w: nat): int {
    if w < TWO_63 then w else w - TWO_64
  }

  /** The remainder C computes, of the sign of the dividend. */
  function CRemainder(a: int, b: nat): int
    requires b > 0
  {
    if a >= 0 then a % b else -((-a) % b)
  }

  /** TO_INT32. */
  function ToInt32(w: nat): int {
    if w % TWO_32 < TWO_32 / 2 then w % TWO_32 else w % TWO_32 - TWO_32
  }

  // ----- runs -----

  function After(g: Gen, calls: seq<Call>): Gen {
    if calls == [] then g else Next(After(g, calls[..|calls| - 1]), calls[|calls| - 1])
  }

  /** The number the k-th call returns, counting from 0. */
  function Nth(g: Gen, calls: seq<Call>, k: nat): nat
    requires k < |calls|
  {
    Seq(After(g, calls[..k]), calls[k])
  }

  const EPOCH := TWO_24 / SEQ_INTERVAL

  /** Within an epoch the counter is twice the number of calls and the unique id does not change. */
  lemma {:induction false} EpochState(g: Gen, calls: seq<Call>)
    requires Exhausted(g) && 1 <= |calls| <= EPOCH
    ensures After(g, calls) == Gen(SEQ_INTERVAL * |calls|, Refresh(g.uniqueId, calls[0].stamp))
  {
    var before := calls[..|calls| - 1];
    if |calls| == 1 {
      assert before == [];
    } else {
      EpochState(g, before);
      assert before[0] == calls[0];
    }
  }

  lemma {:induction false} EpochNth(g: Gen, calls: seq<Call>, k: nat)
    requires Exhausted(g) && k < |calls| <= EPOCH
    ensures Nth(g, calls, k) == Refresh(g.uniqueId, calls[0].stamp) % TWO_40 * TWO_24
                                + (SEQ_INTERVAL * (k + 1) + if calls[k].isServer then 1 else 0) % TWO_24
  {
    EpochState(g, calls[..k + 1]);
    assert calls[..k + 1][..k] == calls[..k];
  }

  /** The 2^23 numbers of an epoch are pairwise distinct, also through the wrap of the counter and after
      truncation to the 32-bit key index. */
  lemma {:induction false} EpochDistinct(g: Gen, calls: seq<Call>, i: nat, j: nat)
    requires Exhausted(g) && i < j < |calls| <= EPOCH
    ensures Nth(g, calls, i) != Nth(g, calls, j)
    ensures ToInt32(Nth(g, calls, i)) != ToInt32(Nth(g, calls, j))
  {
    EpochNth(g, calls, i);
    EpochNth(g, calls, j);
    var id := Refresh(g.uniqueId, calls[0].stamp) % TWO_40;
    var a := (SEQ_INTERVAL * (i + 1) + if calls[i].isServer then 1 else 0) % TWO_24;
    var b := (SEQ_INTERVAL * (j + 1) + if calls[j].isServer then 1 else 0) % TWO_24;
    CountersDiffer(i, j, calls[i].isServer, calls[j].isServer);
    Low32(id, a);
    Low32(id, b);
  }

  /** Two counts of one epoch differ in their low 24 bits, whichever sides asked. */
  lemma {:induction false} CountersDiffer(i: nat, j: nat, iServer: bool, jServer: bool)
    requires i < j < EPOCH
    ensures (SEQ_INTERVAL * (i + 1) + if iServer then 1 else 0) % TWO_24
         != (SEQ_INTERVAL * (j + 1) + if jServer then 1 else 0) % TWO_24
  {
    var x := SEQ_INTERVAL * (i + 1) + if iServer then 1 else 0;
    var y := SEQ_INTERVAL * (j + 1) + if jServer then 1 else 0;
    assert x < y < x + TWO_24;
  }

  lemma {:induction false} Low32(id: nat, low: nat)
    requires low < TWO_24
    ensures (id * TWO_24 + low) % TWO_32 == id % 256 * TWO_24 + low
  {
    assert id == id / 256 * 256 + id % 256;
    assert id * TWO_24 + low == id / 256 * TWO_32 + (id % 256 * TWO_24 + low);
  }

  /** After exactly 2^23 calls the next one starts a new epoch, and not before. */
  lemma {:induction false} EpochLength(g: Gen, calls: seq<Call>)
    requires Exhausted(g) && 1 <= |calls| <= EPOCH
    ensures Exhausted(After(g, calls)) <==> |calls| == EPOCH
  {
    EpochState(g, calls);
  }

  // ----- what the bits mean -----

  /** Forty bits of identity. */
  function Identity(s: Stamp): nat {
    (((s.h0 * 256 + s.h1) * 256 + s.h2) * 256 + s.h3) * 256 + s.time % 256
  }

  /** The remainder is the one number below the divisor that is a multiple of it away. */
  lemma {:induction false} Remainder(x: nat, a: nat, q: int, r: nat)
    requires r < a && x == a * q + r
    ensures x % a == r
  {
    var d := q - x / a;
    assert a * d == x % a - r;
  }

  /** Pushing a byte keeps the low bits below it: m is a power of two whose 256-fold divides the word size. */
  lemma {:induction false} PushLow(u: nat, b: Byte, m: nat, k: nat)
    requires m > 0 && 256 * m * k == TWO_64
    ensures Push(u, b) % (256 * m) == u % m * 256 + b
  {
    var q, r := u / m, u % m;
    var low := r * 256 + b;
    var x := u * 256 + b;
    assert x == 256 * m * q + low by {
      assert u == m * q + r;
    }
    var wraps := x / TWO_64;
    var y := Push(u, b);
    assert y == x - TWO_64 * wraps;
    assert TWO_64 * wraps == 256 * m * (k * wraps);
    assert y == 256 * m * (q - k * wraps) + low;
    Remainder(y, 256 * m, q - k * wraps, low);
  }

  /** A refresh determines the low forty bits of the unique id, whatever was there before. */
  lemma {:induction false} RefreshForgets(u: nat, s: Stamp)
    ensures Refresh(u, Some(s)) % TWO_40 == Identity(s)
  {
    var u0 := Push(u, s.h0);
    var u1 := Push(u0, s.h1);
    var u2 := Push(u1, s.h2);
    var u3 := Push(u2, s.h3);
    PushLow(u, s.h0, 1, 0x100_0000_0000_0000);
    PushLow(u0, s.h1, 0x100, 0x1_0000_0000_0000);
    PushLow(u1, s.h2, 0x1_0000, 0x100_0000_0000);
    PushLow(u2, s.h3, 0x100_0000, 0x1_0000_0000);
    PushLow(u3, s.time % 256, 0x1_0000_0000, 0x100_0000);
  }

  /** The stamp of the last successful refresh in a run. */
  function LastStamp(g: Gen, calls: seq<Call>): Option<Stamp> {
    if calls == [] then None
    else
      var before, c := calls[..|calls| - 1], calls[|calls| - 1];
      if Exhausted(After(g, before)) && c.stamp.Some? then c.stamp else LastStamp(g, before)
  }

  lemma {:induction false} IdentityAfter(g: Gen, calls: seq<Call>)
    ensures LastStamp(g, calls).Some? ==> After(g, calls).uniqueId % TWO_40 == Identity(LastStamp(g, calls).value)
  {
    if calls != [] {
      var before, c := calls[..|calls| - 1], calls[|calls| - 1];
      IdentityAfter(g, before);
      if c.stamp.Some? {
        RefreshForgets(After(g, before).uniqueId, c.stamp.value);
      }
    }
  }

  /** After any number of epochs and refreshes, the top forty bits of a number are the identity and time of
      the latest successful refresh. */
  lemma {:induction false} TopBits(g: Gen, calls: seq<Call>, k: nat)
    requires k < |calls| && LastStamp(g, calls[..k + 1]).Some?
    ensures Nth(g, calls, k) / TWO_24 == Identity(LastStamp(g, calls[..k + 1]).value)
  {
    IdentityAfter(g, calls[..k + 1]);
    assert calls[..k + 1][..k] == calls[..k];
  }

  predicate EvenCounter(g: Gen) {
    g.integer % SEQ_INTERVAL == 0
  }

  lemma {:induction false} CounterStaysEven(g: Gen, calls: seq<Call>)
    requires EvenCounter(g)
    ensures EvenCounter(After(g, calls))
  {
    if calls != [] {
      CounterStaysEven(g, calls[..|calls| - 1]);
    }
  }

  lemma {:induction false} LowBit(id: nat, x: nat)
    ensures (id * 0x100_0000 + x % 0x100_0000) % 2 == x % 2
  {
    assert x == x / 0x100_0000 * 0x100_0000 + x % 0x100_0000;
  }

  lemma {:induction false} SignKeepsParity(w: nat)
    requires w < TWO_64
    ensures CRemainder(AsInt64(w), SEQ_INTERVAL) != 0 <==> w % 2 == 1
  {
  }

  /** The receiver's parity test on the signed number recovers the sender's side. */
  lemma {:induction false} ParityTellsSide(g: Gen, calls: seq<Call>, k: nat)
    requires EvenCounter(g) && k < |calls|
    ensures CRemainder(AsInt64(Nth(g, calls, k)), SEQ_INTERVAL) != 0 <==> calls[k].isServer
  {
    CounterStaysEven(g, calls[..k + 1]);
    assert calls[..k + 1][..k] == calls[..k];
    var g1 := After(g, calls[..k + 1]);
    SidedParity(g1.integer, g1.uniqueId % TWO_40, calls[k].isServer);
  }

  lemma {:induction false} SidedParity(integer: nat, id: nat, isServer: bool)
    requires integer % 2 == 0 && id < TWO_40
    ensures var low := (integer + if isServer then 1 else 0) % TWO_24;
            CRemainder(AsInt64(id * TWO_24 + low), SEQ_INTERVAL) != 0 <==> isServer
  {
    var x := integer + if isServer then 1 else 0;
    LowBit(id, x);
    SignKeepsParity(id * TWO_24 + x % TWO_24);
  }

  // ----- the bit operations are what the arithmetic says -----

  lemma {:induction false} ByteIn(low: bv56, b: bv8)
    ensures (((low as bv64) << 8) | (b as bv64)) as int == low as int * 0x100 + b as int
  {
  }

  lemma {:induction false} ByteOut(top: bv8, low: bv56)
    ensures (((top as bv64) << 56) | (low as bv64)) as int == top as int * 0x100_0000_0000_0000 + low as int
  {
  }

  lemma {:induction false} CounterIn(id: bv40, low: bv24)
    ensures (((id as bv64) << 24) | (low as bv64)) as int == id as int * 0x100_0000 + low as int
  {
  }

  lemma {:induction false} StampOut(top: bv24, id: bv40)
    ensures (((top as bv64) << 40) | (id as bv64)) as int == top as int * 0x100_0000_0000 + id as int
  {
  }

  /** A word is its top byte and the other seven, and its top three bytes and the other five. */
  function Byte7(u: bv64): bv8 {
    (u >> 56) as bv8
  }

  function Bytes0To6(u: bv64): bv56 {
    (u & 0xFF_FFFF_FFFF_FFFF) as bv56
  }

  function Bytes5To7(u: bv64): bv24 {
    (u >> 40) as bv24
  }

  function Bytes0To4(u: bv64): bv40 {
    (u & 0xFF_FFFF_FFFF) as bv40
  }

  lemma {:induction false} SplitTop(u: bv64)
    ensures u == ((Byte7(u) as bv64) << 56) | (Bytes0To6(u) as bv64) && u << 8 == (Bytes0To6(u) as bv64) << 8
  {
  }

  lemma {:induction false} SplitMiddle(u: bv64)
    ensures u == ((Bytes5To7(u) as bv64) << 40) | (Bytes0To4(u) as bv64) && u << 24 == (Bytes0To4(u) as bv64) << 24
  {
  }

  /** Bits above the word are lost. */
  lemma {:induction false} PushWraps(top: int, low: int, b: Byte, u: int, shifted: int)
    requires top >= 0 && 0 <= low < 0x100_0000_0000_0000
    requires u == top * 0x100_0000_0000_0000 + low && shifted == low * 0x100 + b
    ensures shifted == Push(u, b)
  {
    assert u * 256 + b == top * TWO_64 + shifted;
  }

  lemma {:induction false} JoinedPush(top: bv8, low: bv56, b: bv8, u: bv64, shifted: bv64)
    requires u == ((top as bv64) << 56) | (low as bv64) && shifted == ((low as bv64) << 8) | (b as bv64)
    ensures shifted as int == Push(u as int, b as int)
  {
    ByteOut(top, low);
    ByteIn(low, b);
    PushWraps(top as int, low as int, b as int, u as int, shifted as int);
  }

  /** Shifting a byte in is Push, on every word. */
  lemma {:induction false} ShiftIsPush(u: bv64, b: bv8, shifted: bv64)
    requires shifted == (u << 8) | (b as bv64)
    ensures shifted as int == Push(u as int, b as int)
  {
    SplitTop(u);
    JoinedPush(Byte7(u), Bytes0To6(u), b, u, shifted);
  }

  lemma {:induction false} SumWraps(top: int, id: int, low: int, u: int, sum: int)
    requires 0 <= id < TWO_40 && u == top * 0x100_0000_0000 + id && sum == id * 0x100_0000 + low
    ensures sum == u % TWO_40 * TWO_24 + low
  {
  }

  lemma {:induction false} JoinedSum(top: bv24, id: bv40, low: bv24, u: bv64, sum: bv64)
    requires u == ((top as bv64) << 40) | (id as bv64) && sum == ((id as bv64) << 24) | (low as bv64)
    ensures sum as int == u as int % TWO_40 * TWO_24 + low as int
  {
    StampOut(top, id);
    CounterIn(id, low);
    SumWraps(top as int, id as int, low as int, u as int, sum as int);
  }

  /** Composing the number by shift and or is the sum in Seq, on every word. */
  lemma {:induction false} OrIsPlus(u: bv64, low: bv24, sum: bv64)
    requires sum == (u << 24) | (low as bv64)
    ensures sum as int == u as int % TWO_40 * TWO_24 + low as int
  {
    SplitMiddle(u);
    JoinedSum(Bytes5To7(u), Bytes0To4(u), low, u, sum);
  }

  /** GenSeq's two static variables. */
  class Generator {
    var integer: nat
    var uniqueId: nat

    function View(): Gen
      reads this
    {
      Gen(integer, uniqueId)
    }

    constructor ()
      ensures View() == Gen(0, 0)
    {
      integer, uniqueId := 0, 0;
    }

    /** UpdateUniqueId: shifts in the hash byte by byte, then the time stamp. */
    method UpdateUniqueId(stamp: Option<Stamp>)
      modifies `uniqueId
      ensures uniqueId == Refresh(old(uniqueId), stamp)
    {
      if stamp.None? {
        return;
      }
      var s := stamp.value;
      var hash: seq<Byte> := [s.h0, s.h1, s.h2, s.h3];
      var i := 0;
      while i < 4
        invariant 0 <= i <= 4
        invariant uniqueId == PushAll(old(uniqueId), hash[..i])
      {
        assert hash[..i + 1][..i] == hash[..i];
        uniqueId := Push(uniqueId, hash[i]);
        i := i + 1;
      }
      PushFour(old(uniqueId), s);
      assert hash[..4] == hash;
      uniqueId := Push(uniqueId, s.time % 256);
    }

    method GenSeq(c: Call) returns (n: nat)
      modifies this
      ensures View() == Next(old(View()), c) && n == Seq(old(View()), c)
    {
      if integer >= SEQ_INTEGER_MAX {
        integer := 0;
      }
      if integer == 0 {
        UpdateUniqueId(c.stamp);
      }
      integer := integer + SEQ_INTERVAL;
      n := if c.isServer then integer + 1 else integer;
      n := uniqueId % TWO_40 * TWO_24 + n % TWO_24;
    }
  }

  function PushAll(u: nat, bytes: seq<Byte>): nat {
    if bytes == [] then u else Push(PushAll(u, bytes[..|bytes| - 1]), bytes[|bytes| - 1])
  }

  lemma {:induction false} PushFour(u: nat, s: Stamp)
    ensures PushAll(u, [s.h0, s.h1, s.h2, s.h3]) == Push(Push(Push(Push(u, s.h0), s.h1), s.h2), s.h3)
  {
    assert [s.h0, s.h1, s.h2, s.h3][..3] == [s.h0, s.h1, s.h2];
    assert [s.h0, s.h1, s.h2][..2] == [s.h0, s.h1];
    assert [s.h0, s.h1][..1] == [s.h0];
    assert [s.h0][..0] == [];
    assert PushAll(u, [s.h0]) == Push(u, s.h0);
    assert PushAll(u, [s.h0, s.h1]) == Push(Push(u, s.h0), s.h1);
    assert PushAll(u, [s.h0, s.h1, s.h2]) == Push(Push(Push(u, s.h0), s.h1), s.h2);
  }
}
