// The frame layout of sections 5.2 and 5.3 of RFC 6455, as both hand-written
// codecs (websocket.go and loadtest/main.go) read and write it.
module Frames {
  import opened Prelude

  type nibble = x: int | 0 <= x < 16

  const OP_CONTINUATION: nibble := 0
  const OP_TEXT: nibble := 1
  const OP_BINARY: nibble := 2
  const OP_CLOSE: nibble := 8
  const OP_PING: nibble := 9
  const OP_PONG: nibble := 10

  const MAX_INT64: int := 0x7FFF_FFFF_FFFF_FFFF

  datatype Frame = Frame(fin: bool, opcode: nibble, payload: seq<byte>)

  // `Eof` stands for every error of the underlying reader; `Panic` for the
  // run-time panic of `make` with a negative length.
  datatype ReadError = Eof | CorruptFrame | MessageTooBig | ConnClosed | Panic

  type Mask = m: seq<byte> | |m| == 4 witness [0, 0, 0, 0]

  // binary.BigEndian.Uint16 and Uint64
  function BigEndian(bs: seq<byte>): nat {
    if bs == [] then 0 else 256 * BigEndian(bs[..|bs| - 1]) + bs[|bs| - 1]
  }

  // The `k` low-order bytes of `n`, most significant first (PutUint64 is k = 8).
  function ToBigEndian(n: nat, k: nat): (bs: seq<byte>)
    ensures |bs| == k
  {
    if k == 0 then [] else ToBigEndian(n / 256, k - 1) + [n % 256]
  }

  // 256 to the power `k`.
  function Range(k: nat): (r: nat)
    ensures r >= 1
  {
    if k == 0 then 1 else 256 * Range(k - 1)
  }

  lemma {:induction false} BigEndianInverse(n: nat, k: nat)
    requires n < Range(k)
    ensures BigEndian(ToBigEndian(n, k)) == n
  {
    if k > 0 {
      var high := ToBigEndian(n / 256, k - 1);
      var bs := ToBigEndian(n, k);
      assert bs[..k - 1] == high && bs[k - 1] == n % 256;
      BigEndianInverse(n / 256, k - 1);
    }
  }

  lemma {:induction false} BigEndianBound(bs: seq<byte>)
    ensures BigEndian(bs) < Range(|bs|)
  {
    if bs != [] {
      BigEndianBound(bs[..|bs| - 1]);
    }
  }

  // Go's conversion of an unsigned 64-bit value to int64.
  function ToInt64(n: nat): int {
    if n > MAX_INT64 then n - 0x1_0000_0000_0000_0000 else n
  }

  // The masking of section 5.3: byte i is combined with mask byte i mod 4.
  function Masked(mask: Mask, payload: seq<byte>): (r: seq<byte>)
    ensures |r| == |payload|
  {
    seq(|payload|, i requires 0 <= i < |payload| => Xor(payload[i], mask[i % 4]))
  }

  // Byte `i` has just the bits in which the payload differs from its mask byte.
  ghost predicate IsMasked(mask: Mask, payload: seq<byte>, r: seq<byte>) {
    |r| == |payload| && forall i | 0 <= i < |r| :: IsXor(r[i], payload[i], mask[i % 4])
  }

  lemma MaskedExactly(mask: Mask, payload: seq<byte>, r: seq<byte>)
    ensures IsMasked(mask, payload, r) <==> r == Masked(mask, payload)
  {
    hide Xor, IsXor;
    forall i | 0 <= i < |payload| && i < |r| ensures IsXor(r[i], payload[i], mask[i % 4]) <==> r[i] == Xor(payload[i], mask[i % 4]) {
      XorExactly(r[i], payload[i], mask[i % 4]);
    }
  }

  lemma MaskedTwice(mask: Mask, payload: seq<byte>)
    ensures Masked(mask, Masked(mask, payload)) == payload
  {
    forall i | 0 <= i < |payload|
      ensures Masked(mask, Masked(mask, payload))[i] == payload[i]
    {
      XorTwice(payload[i], mask[i % 4]);
    }
  }

  // Number of extended length bytes that the 7-bit length announces.
  function ExtSize(length7: int): nat {
    if length7 == 126 then 2 else if length7 == 127 then 8 else 0
  }

  function FieldLength(length7: nat, ext: seq<byte>): int {
    if length7 == 126 then BigEndian(ext)
    else if length7 == 127 then ToInt64(BigEndian(ext))
    else length7
  }

  // The length field a writer emits; `maskBit` is 0 or 128.
  function LengthField(n: nat, maskBit: byte): (h: seq<byte>)
    requires maskBit == 0 || maskBit == 128
  {
    if n < 126 then [maskBit + n]
    else if n <= 0xFFFF then [maskBit + 126, n / 256, n % 256]
    else [maskBit + 127] + ToBigEndian(n, 8)
  }

  function ExtBytes(n: nat): (e: seq<byte>) {
    if n < 126 then [] else if n <= 0xFFFF then [n / 256, n % 256] else ToBigEndian(n, 8)
  }

  function Length7(n: nat): (l: byte)
    ensures l < 128
  {
    if n < 126 then n else if n <= 0xFFFF then 126 else 127
  }

  lemma LengthFieldReads(n: nat, maskBit: byte)
    requires n <= MAX_INT64
    requires maskBit == 0 || maskBit == 128
    ensures LengthField(n, maskBit) == [maskBit + Length7(n)] + ExtBytes(n)
    ensures |ExtBytes(n)| == ExtSize(Length7(n))
    ensures FieldLength(Length7(n), ExtBytes(n)) == n
  {
    if n < 126 {
    } else if n <= 0xFFFF {
      var bs: seq<byte> := [n / 256, n % 256];
      assert bs[..1] == [n / 256] && bs[..1][..0] == [];
      assert BigEndian(bs[..1]) == n / 256;
    } else {
      RangeOf2And8();
      BigEndianInverse(n, 8);
    }
  }

  lemma RangeOf2And8()
    ensures Range(2) == 0x1_0000
    ensures Range(8) == 0x1_0000_0000_0000_0000
  {
    assert Range(1) == 256;
    assert Range(3) == 0x100_0000;
    assert Range(4) == 0x1_0000_0000;
    assert Range(6) == 0x1_0000_0000_0000;
  }

  // What the length bytes can say at most: the reason no shorter form exists.
  lemma FieldLengthBound(length7: nat, ext: seq<byte>)
    requires length7 < 128 && |ext| == ExtSize(length7)
    ensures length7 < 126 ==> FieldLength(length7, ext) < 126
    ensures length7 == 126 ==> FieldLength(length7, ext) <= 0xFFFF
  {
    BigEndianBound(ext);
    RangeOf2And8();
  }

  function FirstByte(fin: bool, opcode: nibble): byte
  {
    (if fin then 128 else 0) + opcode
  }

  lemma FirstByteReads(fin: bool, opcode: nibble, length7: nat)
    requires length7 < 128
    ensures
      var b := FirstByte(fin, opcode);
      (b >= 128) == fin && b / 16 % 8 == 0 && b % 16 == opcode && (128 + length7) % 128 == length7
  {
  }

  // A masked frame with the shortest length form, as loadtest/main.go writes it
  // (there always with fin set).
  function ClientFrame(f: Frame, mask: Mask): seq<byte>
  {
    [FirstByte(f.fin, f.opcode)] + LengthField(|f.payload|, 128) + mask + Masked(mask, f.payload)
  }

  // An unmasked frame, as websocket.go writes it.
  function ServerFrame(opcode: nibble, payload: seq<byte>): seq<byte>
  {
    [FirstByte(true, opcode)] + LengthField(|payload|, 0) + payload
  }

  // ---- the examples of section 5.7 of RFC 6455, but for the payload of masked frames

  const HELLO: seq<byte> := [0x48, 0x65, 0x6c, 0x6c, 0x6f]

  lemma Examples(long: seq<byte>, longer: seq<byte>, mask: Mask)
    requires |long| == 256 && |longer| == 65536
    ensures ServerFrame(OP_TEXT, HELLO) == [0x81, 0x05] + HELLO
    ensures ClientFrame(Frame(true, OP_TEXT, HELLO), mask) == [0x81, 0x85] + mask + Masked(mask, HELLO)
    ensures ServerFrame(OP_PING, HELLO) == [0x89, 0x05] + HELLO
    ensures ClientFrame(Frame(true, OP_PONG, HELLO), mask) == [0x8a, 0x85] + mask + Masked(mask, HELLO)
    ensures ServerFrame(OP_BINARY, long) == [0x82, 0x7e, 0x01, 0x00] + long
    ensures ServerFrame(OP_BINARY, longer) == [0x82, 0x7f, 0, 0, 0, 0, 0, 1, 0, 0] + longer
    ensures FirstByte(false, OP_TEXT) == 0x01 && FirstByte(true, OP_CONTINUATION) == 0x80 && FirstByte(true, OP_CLOSE) == 0x88
  {
    hide Masked;
    assert ToBigEndian(65536, 8) == [0, 0, 0, 0, 0, 1, 0, 0];
  }
}
