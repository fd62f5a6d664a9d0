/** Packed connection ids (auth_connection.c): the link type in the high half of a 64-bit word, the connection id or
    socket in the low half. The properties are about the numbers; GenIsNumbers, GetIsNumbers and UpdateIsNumbers show
    that they are what the shifts and masks compute. */
module ConnIds {
  const TWO_31 := 0x8000_0000
  const TWO_32 := 0x1_0000_0000
  const TWO_64 := 0x1_0000_0000_0000_0000
  const INVALID_FD := -1

  type Int32 = x: int | -TWO_31 <= x < TWO_31
  type Word64 = w: int | 0 <= w < TWO_64 witness 0

  /** (int32_t) of a word below 2^32. */
  function Narrow(w: int): Int32
    requires 0 <= w < TWO_32
  {
    if w < TWO_31 then w else w - TWO_32
  }

  function GenConnId(connType: Int32, id: Int32): Word64 {
    connType % TWO_32 * TWO_32 + id % TWO_32
  }

  function GetConnType(connId: Word64): Int32 {
    Narrow(connId / TWO_32)
  }

  /** GetFd; GetConnId is the same half unsigned. */
  function GetFd(connId: Word64): Int32 {
    Narrow(connId % TWO_32)
  }

  /** Type and id come back, for every pair of int32_t values, negative ones included. */
  lemma {:induction false} ConnIdRoundTrip(connType: Int32, id: Int32)
    ensures GetConnType(GenConnId(connType, id)) == connType && GetFd(GenConnId(connType, id)) == id
  {
  }

  /** And every word is the packing of its halves, so packing is one-to-one and onto. */
  lemma {:induction false} ConnIdIsItsHalves(connId: Word64)
    ensures GenConnId(GetConnType(connId), GetFd(connId)) == connId
  {
    assert connId == connId / TWO_32 * TWO_32 + connId % TWO_32;
  }

  lemma {:induction false} ConnIdInjective(t1: Int32, id1: Int32, t2: Int32, id2: Int32)
    requires GenConnId(t1, id1) == GenConnId(t2, id2)
    ensures t1 == t2 && id1 == id2
  {
    ConnIdRoundTrip(t1, id1);
    ConnIdRoundTrip(t2, id2);
  }

  /** A packed connection of a real link type is never mistaken for no connection. */
  lemma {:induction false} TypedIsNotZero(connType: Int32, id: Int32)
    requires connType != 0
    ensures GenConnId(connType, id) != 0
  {
    ConnIdRoundTrip(connType, id);
  }

  /** UpdateFd on its in-out argument: only the id half changes, so a connection of a real link type, whose
      number is not 0, stays non-zero even with its socket invalidated. */
  method UpdateFd(connId: Word64, id: Int32) returns (updated: Word64)
    ensures updated == GenConnId(GetConnType(connId), id)
    ensures GetConnType(updated) == GetConnType(connId) && GetFd(updated) == id
    ensures GetConnType(connId) != 0 ==> updated != 0
  {
    updated := connId - connId % TWO_32;
    updated := updated + id % TWO_32;
  }

  // ----- shifts and masks -----

  /** The int32_t a bit pattern stands for. */
  function Signed(x: bv32): Int32 {
    Narrow(x as int)
  }

  /** (uint64_t) of an int32_t, which fills the high half with the sign. */
  function Widen(x: bv32): bv64 {
    if x < 0x8000_0000 then x as bv64 else 0xFFFF_FFFF_0000_0000 | (x as bv64)
  }

  /** GenConnId as written. */
  function GenBits(connType: bv32, id: bv32): bv64 {
    ((Widen(connType) << 32) & 0xFFFF_FFFF_0000_0000) | (Widen(id) & 0xFFFF_FFFF)
  }

  /** GetConnType and GetFd as written. */
  function TypeBits(connId: bv64): bv32 {
    ((connId >> 32) & 0xFFFF_FFFF) as bv32
  }

  function FdBits(connId: bv64): bv32 {
    (connId & 0xFFFF_FFFF) as bv32
  }

  lemma {:induction false} JoinedIsSum(high: bv32, low: bv32)
    ensures (((high as bv64) << 32) | (low as bv64)) as int == high as int * 0x1_0000_0000 + low as int
  {
  }

  lemma {:induction false} Halves(x: bv32)
    ensures (x as bv64) & 0xFFFF_FFFF == x as bv64
    ensures (0xFFFF_FFFF_0000_0000 | (x as bv64)) & 0xFFFF_FFFF == x as bv64
    ensures ((x as bv64) << 32) & 0xFFFF_FFFF_0000_0000 == (x as bv64) << 32
    ensures ((0xFFFF_FFFF_0000_0000 | (x as bv64)) << 32) & 0xFFFF_FFFF_0000_0000 == (x as bv64) << 32
  {
  }

  /** The masks undo the sign extension. */
  lemma {:induction false} Masked(x: bv32)
    ensures Widen(x) & 0xFFFF_FFFF == x as bv64
    ensures (Widen(x) << 32) & 0xFFFF_FFFF_0000_0000 == (x as bv64) << 32
  {
    if x < 0x8000_0000 {
      Halves(x);
    } else {
      Halves(x);
    }
  }

  lemma {:induction false} Split(connId: bv64)
    ensures connId & 0xFFFF_FFFF_0000_0000 == (TypeBits(connId) as bv64) << 32
    ensures connId == ((TypeBits(connId) as bv64) << 32) | (FdBits(connId) as bv64)
  {
  }

  /** Two halves below 2^32 and their signed readings. */
  lemma {:induction false} Numbers(high: int, low: int, w: int)
    requires 0 <= high < TWO_32 && 0 <= low < TWO_32 && w == high * TWO_32 + low
    ensures 0 <= w < TWO_64 && w == GenConnId(Narrow(high), Narrow(low))
    ensures GetConnType(w) == Narrow(high) && GetFd(w) == Narrow(low)
  {
  }

  lemma {:induction false} JoinedNumbers(high: bv32, low: bv32, w: bv64)
    requires w == ((high as bv64) << 32) | (low as bv64)
    ensures w as int == GenConnId(Signed(high), Signed(low))
    ensures GetConnType(w as int) == Signed(high) && GetFd(w as int) == Signed(low)
  {
    JoinedIsSum(high, low);
    Numbers(high as int, low as int, w as int);
  }

  /** Packing by shifts, masks and sign extension is the arithmetic above, on every bit pattern. */
  lemma {:induction false} GenIsNumbers(connType: bv32, id: bv32)
    ensures GenBits(connType, id) as int == GenConnId(Signed(connType), Signed(id))
  {
    Masked(connType);
    Masked(id);
    JoinedNumbers(connType, id, GenBits(connType, id));
  }

  /** And so is unpacking. */
  lemma {:induction false} GetIsNumbers(connId: bv64)
    ensures Signed(TypeBits(connId)) == GetConnType(connId as int) && Signed(FdBits(connId)) == GetFd(connId as int)
  {
    Split(connId);
    JoinedNumbers(TypeBits(connId), FdBits(connId), connId);
  }

  /** What UpdateFd does with masks is what it does with numbers. */
  lemma {:induction false} UpdateIsNumbers(connId: bv64, id: bv32, updated: bv64)
    requires updated == (connId & 0xFFFF_FFFF_0000_0000) | (Widen(id) & 0xFFFF_FFFF)
    ensures updated as int == GenConnId(GetConnType(connId as int), Signed(id))
  {
    Split(connId);
    Masked(id);
    GetIsNumbers(connId);
    JoinedNumbers(TypeBits(connId), id, updated);
  }
}
