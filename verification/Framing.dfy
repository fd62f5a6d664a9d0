/** The 24-byte frame header in front of authentication data (auth_connection.c), little endian, with uint32_t
    length arithmetic. Signed fields are carried as their words. */
module Framing {
  import opened Common

  const HEAD_SIZE := 24
  const TWO_32 := 0x1_0000_0000
  const TWO_64 := 0x1_0000_0000_0000_0000
  const NO_ENOUGH_DATA := -426442732
  const MEM_ERR := -426442748

  type Byte = b: int | 0 <= b < 256
  type Word32 = w: int | 0 <= w < TWO_32
  type Word64 = w: int | 0 <= w < TWO_64

  datatype Head = Head(dataType: Word32, module_: Word32, seqNo: Word64, flag: Word32, len: Word32)

  /** GetAuthDataSize, in uint32_t. */
  function DataSize(len: Word32): Word32 {
    (HEAD_SIZE + len) % TWO_32
  }

  /** The k low bytes of n, lowest first. */
  function Le(n: nat, k: nat): (bytes: seq<Byte>)
    ensures |bytes| == k
  {
    if k == 0 then [] else [n % 256] + Le(n / 256, k - 1)
  }

  function UnLe(bytes: seq<Byte>): nat {
    if bytes == [] then 0 else bytes[0] + 256 * UnLe(bytes[1..])
  }

  function Pow256(k: nat): nat {
    if k == 0 then 1 else 256 * Pow256(k - 1)
  }

  lemma {:induction false} LeRoundTrip(n: nat, k: nat)
    requires n < Pow256(k)
    ensures UnLe(Le(n, k)) == n
  {
    if k > 0 {
      LeRoundTrip(n / 256, k - 1);
      assert Le(n, k)[1..] == Le(n / 256, k - 1);
    }
  }

  lemma {:induction false} UnLeBound(bytes: seq<Byte>)
    ensures UnLe(bytes) < Pow256(|bytes|)
  {
    if bytes != [] {
      UnLeBound(bytes[1..]);
    }
  }

  lemma {:induction false} Powers()
    ensures Pow256(4) == TWO_32 && Pow256(8) == TWO_64
  {
    assert Pow256(2) == 0x1_0000;
    assert Pow256(6) == 0x1_0000_0000_0000 by {
      assert Pow256(4) == TWO_32;
    }
  }

  /** The header on the wire. */
  function Encode(h: Head): (bytes: seq<Byte>)
    ensures |bytes| == HEAD_SIZE
  {
    Le(h.dataType, 4) + Le(h.module_, 4) + Le(h.seqNo, 8) + Le(h.flag, 4) + Le(h.len, 4)
  }

  function Decode(data: seq<Byte>): Head
    requires |data| >= HEAD_SIZE
  {
    Powers();
    UnLeBound(data[..4]);
    UnLeBound(data[4..8]);
    UnLeBound(data[8..16]);
    UnLeBound(data[16..20]);
    UnLeBound(data[20..24]);
    Head(UnLe(data[..4]), UnLe(data[4..8]), UnLe(data[8..16]), UnLe(data[16..20]), UnLe(data[20..24]))
  }

  lemma {:induction false} HeadRoundTrip(h: Head, rest: seq<Byte>)
    ensures Decode(Encode(h) + rest) == h
  {
    var data := Encode(h) + rest;
    Powers();
    LeRoundTrip(h.dataType, 4);
    LeRoundTrip(h.module_, 4);
    LeRoundTrip(h.seqNo, 8);
    LeRoundTrip(h.flag, 4);
    LeRoundTrip(h.len, 4);
    assert data[..4] == Le(h.dataType, 4);
    assert data[4..8] == Le(h.module_, 4);
    assert data[8..16] == Le(h.seqNo, 8);
    assert data[16..20] == Le(h.flag, 4);
    assert data[20..24] == Le(h.len, 4);
  }

  /** The four bytes from an offset as a little-endian word. */
  function Word(bytes: seq<Byte>, at: nat): int
    requires at + 4 <= |bytes|
  {
    var b0: int, b1: int, b2: int, b3: int := bytes[at], bytes[at + 1], bytes[at + 2], bytes[at + 3];
    b0 + 0x100 * b1 + 0x1_0000 * b2 + 0x100_0000 * b3
  }

  lemma {:induction false} FourBytes(b: seq<Byte>)
    requires |b| == 4
    ensures UnLe(b) == Word(b, 0)
  {
    assert b[1..][1..] == b[2..] && b[2..][1..] == b[3..] && b[3..][1..] == [];
    assert UnLe(b[3..]) == b[3];
    assert UnLe(b[2..]) == b[2] + 0x100 * UnLe(b[3..]);
    assert UnLe(b[1..]) == b[1] + 0x100 * UnLe(b[2..]);
  }

  lemma {:induction false} EightBytes(b: seq<Byte>)
    requires |b| == 8
    ensures UnLe(b) == Word(b, 0) + TWO_32 * Word(b, 4)
  {
    UnLeSplit(b, 4);
    Powers();
    FourBytes(b[..4]);
    FourBytes(b[4..]);
  }

  lemma {:induction false} UnLeSplit(b: seq<Byte>, k: nat)
    requires k <= |b|
    ensures UnLe(b) == UnLe(b[..k]) + Pow256(k) * UnLe(b[k..])
  {
    if k == 0 {
      assert b[..0] == [] && b[0..] == b;
    } else {
      UnLeSplit(b[1..], k - 1);
      assert b[..k][1..] == b[1..][..k - 1] && b[1..][k - 1..] == b[k..];
      assert UnLe(b) == b[0] + 256 * (UnLe(b[1..][..k - 1]) + Pow256(k - 1) * UnLe(b[k..]));
      Spread(Pow256(k - 1), UnLe(b[k..]));
    }
  }

  lemma {:induction false} Spread(x: int, y: int)
    ensures 256 * (x * y) == (256 * x) * y
  {
  }

  /** Where each field of the header is, and in which byte order: type, module, a 64-bit sequence number, flag,
      length. */
  lemma {:induction false} DecodeBytes(data: seq<Byte>)
    requires |data| >= HEAD_SIZE
    ensures var h := Decode(data);
            && h.dataType == Word(data, 0) && h.module_ == Word(data, 4)
            && h.seqNo == Word(data, 8) + TWO_32 * Word(data, 12)
            && h.flag == Word(data, 16) && h.len == Word(data, 20)
  {
    FourBytes(data[..4]);
    FourBytes(data[4..8]);
    EightBytes(data[8..16]);
    FourBytes(data[16..20]);
    FourBytes(data[20..24]);
  }

  /** And the same for the header that is written. */
  lemma {:induction false} EncodeBytes(h: Head)
    ensures var bytes := Encode(h);
            && Word(bytes, 0) == h.dataType && Word(bytes, 4) == h.module_
            && Word(bytes, 8) + TWO_32 * Word(bytes, 12) == h.seqNo
            && Word(bytes, 16) == h.flag && Word(bytes, 20) == h.len
  {
    HeadRoundTrip(h, []);
    assert Encode(h) + [] == Encode(h);
    DecodeBytes(Encode(h));
  }

  /** The uint32_t comparison of UnpackAuthData, wrap check included, is the comparison of the true sizes. */
  lemma {:induction false} WrapCheckIsComplete(size: Word32, len: Word32)
    ensures !(size < DataSize(len) || DataSize(len) < DataSize(0)) <==> HEAD_SIZE + len <= size
  {
  }

  /** That of PackAuthData, which has no wrap check, is not exactly when the size wraps below the buffer's. */
  lemma {:induction false} PackCheckExactly(size: Word32, len: Word32)
    ensures size >= DataSize(len) && HEAD_SIZE + len > size <==>
            len >= TWO_32 - HEAD_SIZE && size >= len + HEAD_SIZE - TWO_32
  {
  }

  // ----- the two procedures -----

  /** Writes the k low bytes of n at an offset. */
  method Put(buf: array<Byte>, offset: nat, n: nat, k: nat)
    requires offset + k <= buf.Length
    modifies buf
    ensures buf[..] == old(buf[..offset]) + Le(n, k) + old(buf[offset + k..])
  {
    var i, rest := 0, n;
    while i < k
      invariant 0 <= i <= k
      invariant buf[..offset] == old(buf[..offset]) && buf[offset + k..] == old(buf[offset + k..])
      invariant buf[offset..offset + i] + Le(rest, k - i) == Le(n, k)
    {
      buf[offset + i] := rest % 256;
      rest := rest / 256;
      i := i + 1;
    }
    assert buf[..] == buf[..offset] + buf[offset..offset + k] + buf[offset + k..];
  }

  /** PackAuthData. A payload within 24 bytes of 2^32 makes the size it computes wrap; its check then compares with a
      number below 24, and only the bounded copy notices. The requirement is that the header has room whenever the check
      lets it be written, which the check itself ensures for every shorter payload. */
  method Pack(h: Head, data: array<Byte>, buf: array<Byte>) returns (code: int)
    requires data != buf && data.Length >= h.len && buf.Length < TWO_32
    requires buf.Length >= DataSize(h.len) ==> buf.Length >= HEAD_SIZE
    modifies buf
    ensures code == SOFTBUS_OK <==> HEAD_SIZE + h.len <= buf.Length
    ensures code == SOFTBUS_OK ==> buf[..] == Encode(h) + data[..h.len] + old(buf[HEAD_SIZE + h.len..])
    ensures code == MEM_ERR <==> HEAD_SIZE + h.len >= TWO_32 && buf.Length >= DataSize(h.len)
    ensures code == MEM_ERR ==> buf[..HEAD_SIZE] == Encode(h)
    ensures code != SOFTBUS_OK && code != MEM_ERR ==> code == NO_ENOUGH_DATA && buf[..] == old(buf[..])
  {
    PackCheckExactly(buf.Length, h.len);
    if buf.Length < DataSize(h.len) {
      return NO_ENOUGH_DATA;
    }
    PutHead(h, buf);
    if h.len > buf.Length - HEAD_SIZE {
      return MEM_ERR;
    }
    CopyBody(h.len, data, buf);
    return SOFTBUS_OK;
  }

  /** The header fields, each at its moving offset. */
  method PutHead(h: Head, buf: array<Byte>)
    requires buf.Length >= HEAD_SIZE
    modifies buf
    ensures buf[..] == Encode(h) + old(buf[HEAD_SIZE..])
  {
    var offset := 0;
    Put(buf, offset, h.dataType, 4);
    assert buf[..] == Le(h.dataType, 4) + old(buf[4..]);
    offset := offset + 4;
    Put(buf, offset, h.module_, 4);
    assert buf[..] == Le(h.dataType, 4) + Le(h.module_, 4) + old(buf[8..]);
    offset := offset + 4;
    Put(buf, offset, h.seqNo, 8);
    assert buf[..] == Le(h.dataType, 4) + Le(h.module_, 4) + Le(h.seqNo, 8) + old(buf[16..]);
    offset := offset + 8;
    Put(buf, offset, h.flag, 4);
    assert buf[..] == Le(h.dataType, 4) + Le(h.module_, 4) + Le(h.seqNo, 8) + Le(h.flag, 4) + old(buf[20..]);
    offset := offset + 4;
    Put(buf, offset, h.len, 4);
  }

  /** memcpy_s of the payload behind the header. */
  method CopyBody(len: nat, data: array<Byte>, buf: array<Byte>)
    requires data != buf && len <= data.Length && HEAD_SIZE + len <= buf.Length
    modifies buf
    ensures buf[..] == old(buf[..HEAD_SIZE]) + data[..len] + old(buf[HEAD_SIZE + len..])
  {
    var i := 0;
    while i < len
      invariant 0 <= i <= len
      invariant buf[..] == old(buf[..HEAD_SIZE]) + data[..i] + old(buf[HEAD_SIZE + i..])
    {
      buf[HEAD_SIZE + i] := data[i];
      i := i + 1;
    }
  }

  /** Reads k bytes at an offset. */
  method Get(data: array<Byte>, offset: nat, k: nat) returns (n: nat)
    requires offset + k <= data.Length
    ensures n == UnLe(data[offset..offset + k])
  {
    n := 0;
    var i := k;
    while i > 0
      invariant 0 <= i <= k
      invariant n == UnLe(data[offset + i..offset + k])
    {
      i := i - 1;
      n := data[offset + i] + 256 * n;
      assert data[offset + i..offset + k][1..] == data[offset + i + 1..offset + k];
    }
  }

  /** UnpackAuthData; the body, when there is one, starts right after the header. */
  method Unpack(data: array<Byte>) returns (head: Option<Head>)
    requires data.Length < TWO_32
    ensures head.Some? <==> data.Length >= HEAD_SIZE && HEAD_SIZE + Decode(data[..]).len <= data.Length
    ensures head.Some? ==> head.value == Decode(data[..])
  {
    if data.Length < DataSize(0) {
      return None;
    }
    var h := ReadHead(data);
    var dataLen := DataSize(h.len);
    WrapCheckIsComplete(data.Length, h.len);
    if data.Length < dataLen || dataLen < DataSize(0) {
      return None;
    }
    return Some(h);
  }

  method ReadHead(data: array<Byte>) returns (h: Head)
    requires data.Length >= HEAD_SIZE
    ensures h == Decode(data[..])
  {
    var all := data[..];
    Powers();
    UnLeBound(all[..4]);
    UnLeBound(all[4..8]);
    UnLeBound(all[8..16]);
    UnLeBound(all[16..20]);
    UnLeBound(all[20..24]);
    assert data[0..4] == all[..4] && data[4..8] == all[4..8] && data[8..16] == all[8..16];
    assert data[16..20] == all[16..20] && data[20..24] == all[20..24];
    var dataType := Get(data, 0, 4);
    var module_ := Get(data, 4, 4);
    var seqNo := Get(data, 8, 8);
    var flag := Get(data, 16, 4);
    var len := Get(data, 20, 4);
    h := Head(dataType, module_, seqNo, flag, len);
  }

  /** The body UnpackAuthData points at. */
  function Body(data: seq<Byte>): Option<seq<Byte>> {
    if |data| >= HEAD_SIZE && HEAD_SIZE + Decode(data).len <= |data|
    then Some(data[HEAD_SIZE..HEAD_SIZE + Decode(data).len])
    else None
  }

  /** What PackAuthData writes, UnpackAuthData reads back: the same header and the same body, whatever follows
      the frame in the buffer. */
  lemma {:induction false} FrameRoundTrip(h: Head, body: seq<Byte>, rest: seq<Byte>)
    requires |body| == h.len
    ensures Decode(Encode(h) + body + rest) == h && Body(Encode(h) + body + rest) == Some(body)
  {
    assert Encode(h) + body + rest == Encode(h) + (body + rest);
    HeadRoundTrip(h, body + rest);
  }
}
