// loadtest/main.go: the independent client side of the frame codec.
module WsClient {
  import opened Prelude
  import opened Frames
  import WebSocket

  const CLIENT_LIMIT: int := 8 * 1024 * 1024

  datatype ParsedFrame =
    | GotFrame(frame: Frame, rest: seq<byte>)
    | BadFrame(error: ReadError, rest: seq<byte>)

  // One round of readMessage's loop up to the unmasked payload. Reserved bits are
  // not looked at and the mask bit is optional.
  function ParseFrame(input: seq<byte>): (r: ParsedFrame)
    ensures r.GotFrame? ==> |r.frame.payload| <= CLIENT_LIMIT && |r.rest| < |input|
  {
    if |input| < 2 then BadFrame(Eof, []) else
    var header, in1 := input[..2], input[2..];
    var length7 := header[1] % 128;
    if |in1| < ExtSize(length7) then BadFrame(Eof, []) else
    var ext, in2 := in1[..ExtSize(length7)], in1[ExtSize(length7)..];
    var length := FieldLength(length7, ext);
    if length > CLIENT_LIMIT then BadFrame(MessageTooBig, in2) else
    var masked := header[1] >= 128;
    if masked && |in2| < 4 then BadFrame(Eof, []) else
    var in3 := if masked then in2[4..] else in2;
    if length < 0 then BadFrame(Panic, in3) else
    if |in3| < length then BadFrame(Eof, []) else
    var body := in3[..length];
    GotFrame(Frame(header[0] >= 128, header[0] % 16, if masked then Masked(in2[..4], body) else body), in3[length..])
  }

  lemma {:induction false} TopByte(bs: seq<byte>)
    requires bs != []
    ensures bs[0] * Range(|bs| - 1) <= BigEndian(bs) < (bs[0] + 1) * Range(|bs| - 1)
  {
    var n := |bs| - 1;
    if n > 0 {
      TopByte(bs[..n]);
      NextByte(bs[0], Range(n - 1), BigEndian(bs[..n]), bs[n]);
    }
  }

  lemma NextByte(top: int, range: int, high: int, low: int)
    requires top * range <= high < (top + 1) * range && 0 <= low < 256
    ensures top * (256 * range) <= 256 * high + low < (top + 1) * (256 * range)
  {
    var a, b := top * range, (top + 1) * range;
    assert top * (256 * range) == 256 * a && (top + 1) * (256 * range) == 256 * b;
  }

  lemma NegativeLength(ext: seq<byte>)
    requires |ext| == 8
    ensures FieldLength(127, ext) < 0 <==> ext[0] >= 128
  {
    TopByte(ext);
    BigEndianBound(ext);
    RangeOf2And8();
    assert Range(8) == 256 * Range(7);
    hide BigEndian;
  }

  // This reader panics exactly on a frame with an 8-byte length whose top bit is set,
  // once the mask has arrived if there is one. The server's reader never does: to it
  // such a frame is too big.
  lemma PanicsExactly(input: seq<byte>, maxPayload: int)
    ensures
      var r := ParseFrame(input);
      r.BadFrame? && r.error == Panic <==>
        |input| >= 10 && input[1] % 128 == 127 && input[2] >= 128 && (input[1] >= 128 ==> |input| >= 14)
    ensures
      var r := WebSocket.ParseFrame(input, maxPayload);
      && !(r.BadFrame? && r.error == Panic)
      && (|input| >= 10 && input[0] / 16 % 8 == 0 && input[1] == 255 && input[2] >= 128 ==>
            r == WebSocket.BadFrame(MessageTooBig, input[10..]))
  {
    hide BigEndian, FieldLength, Masked;
    if |input| >= 2 {
      var length7 := input[1] % 128;
      var in1 := input[2..];
      if |in1| >= ExtSize(length7) {
        FieldLengthSmall(length7, in1[..ExtSize(length7)]);
        if length7 == 127 {
          NegativeLength(in1[..8]);
          assert in1[..8][0] == input[2] && in1[8..] == input[10..];
        }
      }
    }
  }

  lemma FieldLengthSmall(length7: nat, ext: seq<byte>)
    ensures length7 != 127 ==> FieldLength(length7, ext) >= 0
  {
  }

  // An unmasked server frame is read back as written and consumes its own bytes.
  lemma ParseServerFrame(opcode: nibble, payload: seq<byte>, tail: seq<byte>)
    requires |payload| <= CLIENT_LIMIT
    ensures ParseFrame(ServerFrame(opcode, payload) + tail) == GotFrame(Frame(true, opcode, payload), tail)
  {
    hide ToBigEndian, FieldLength, ExtBytes, Masked, LengthField, Length7;
    var n := |payload|;
    LengthFieldReads(n, 0);
    var header, ext := [FirstByte(true, opcode), Length7(n)], ExtBytes(n);
    assert ServerFrame(opcode, payload) + tail == header + (ext + (payload + tail));
    Append(header, ext + (payload + tail));
    Append(ext, payload + tail);
    Append(payload, tail);
  }

  // The server's length form is the shortest that the client reads the same way.
  lemma ServerFrameShortest(input: seq<byte>)
    requires ParseFrame(input).GotFrame? && ParseFrame(input).frame.fin
    ensures
      var r := ParseFrame(input);
      |ServerFrame(r.frame.opcode, r.frame.payload)| <= |input| - |r.rest|
  {
    var r := ParseFrame(input);
    var length7 := input[1] % 128;
    FieldLengthBound(length7, input[2..][..ExtSize(length7)]);
    LengthFieldReads(|r.frame.payload|, 0);
  }

  datatype Outcome = Outcome(result: WebSocket.MessageResult, rest: seq<byte>, sent: seq<byte>, masks: seq<Mask>)

  // readMessage. `masks` are the random masks the writer will draw; drawing from
  // an empty supply is the error of rand.Read.
  function Read(input: seq<byte>, closed: bool, masks: seq<Mask>): Outcome
    decreases |input|
  {
    match ParseFrame(input)
    case BadFrame(error, rest) => Outcome(WebSocket.Failed(error), rest, [], masks)
    case GotFrame(f, rest) =>
      if f.opcode == OP_CLOSE then Outcome(WebSocket.Failed(ConnClosed), rest, [], masks)
      else if f.opcode == OP_PING then
        if closed || masks == [] then Outcome(WebSocket.Failed(ConnClosed), rest, [], masks)
        else
          var o := Read(rest, closed, masks[1..]);
          o.(sent := ClientFrame(Frame(true, OP_PONG, f.payload), masks[0]) + o.sent)
      else if f.opcode == OP_PONG then Read(rest, closed, masks)
      else if f.fin then Outcome(WebSocket.Message(f.opcode, f.payload), rest, [], masks)
      else Outcome(WebSocket.Failed(CorruptFrame), rest, [], masks)
  }

  // What a server that is not closing writes: texts, and pongs in answer to pings.
  datatype Packet = Data(text: WebSocket.Text) | Pong(payload: seq<byte>)

  predicate Readable(p: Packet) {
    match p
    case Data(t) => WebSocket.Sendable(t, CLIENT_LIMIT)
    case Pong(payload) => |payload| <= 125
  }

  function ServerStream(ps: seq<Packet>): seq<byte> {
    if ps == [] then []
    else
      (match ps[0]
       case Data(t) => ServerFrame(t.opcode, t.payload)
       case Pong(payload) => ServerFrame(OP_PONG, payload)) + ServerStream(ps[1..])
  }

  function DataResults(ps: seq<Packet>): seq<WebSocket.MessageResult> {
    if ps == [] then []
    else if ps[0].Data? then [WebSocket.AsResult(ps[0].text)] + DataResults(ps[1..])
    else DataResults(ps[1..])
  }

  // `n` calls of readMessage in a row.
  function ReadMany(input: seq<byte>, closed: bool, masks: seq<Mask>, n: nat): WebSocket.Many
    decreases n
  {
    if n == 0 then WebSocket.Many([], input)
    else
      var o := Read(input, closed, masks);
      var m := ReadMany(o.rest, closed, o.masks, n - 1);
      WebSocket.Many([o.result] + m.results, m.rest)
  }

  // Pongs that nothing follows stay unread.
  function LastPongs(ps: seq<Packet>): seq<Packet> {
    if DataResults(ps) == [] then ps else LastPongs(ps[1..])
  }

  // Everything the server writes is read back by the client in order, and nothing
  // else is; what stays unread are the pongs behind the last text.
  lemma {:induction false} ServerToClient(ps: seq<Packet>, tail: seq<byte>, closed: bool, masks: seq<Mask>)
    requires forall i | 0 <= i < |ps| :: Readable(ps[i])
    ensures ReadMany(ServerStream(ps) + tail, closed, masks, |DataResults(ps)|)
         == WebSocket.Many(DataResults(ps), ServerStream(LastPongs(ps)) + tail)
  {
    hide ParseFrame, ServerFrame;
    if DataResults(ps) != [] {
      assert Readable(ps[0]);
      var after := ServerStream(ps[1..]) + tail;
      match ps[0]
      case Data(t) =>
        assert ServerStream(ps) + tail == ServerFrame(t.opcode, t.payload) + after;
        ParseServerFrame(t.opcode, t.payload, after);
        ServerToClient(ps[1..], tail, closed, masks);
        LastText(ps);
      case Pong(payload) =>
        assert ServerStream(ps) + tail == ServerFrame(OP_PONG, payload) + after;
        ParseServerFrame(OP_PONG, payload, after);
        ServerToClient(ps[1..], tail, closed, masks);
        SkipPong(ServerStream(ps) + tail, after, closed, masks, |DataResults(ps)|);
    }
  }

  lemma LastText(ps: seq<Packet>)
    requires ps != [] && ps[0].Data?
    ensures LastPongs(ps) == LastPongs(ps[1..])
  {
  }

  lemma SkipPong(input: seq<byte>, after: seq<byte>, closed: bool, masks: seq<Mask>, n: nat)
    requires ParseFrame(input).GotFrame? && ParseFrame(input).frame.opcode == OP_PONG && ParseFrame(input).rest == after && n > 0
    ensures ReadMany(input, closed, masks, n) == ReadMany(after, closed, masks, n)
  {
    hide ParseFrame;
    assert Read(input, closed, masks) == Read(after, closed, masks);
  }

  lemma MaskedLast(front: seq<byte>, mask: Mask, payload: seq<byte>)
    ensures
      var all := front + Masked(mask, payload);
      |all| >= |payload| && IsMasked(mask, payload, all[|all| - |payload|..])
  {
    MaskedExactly(mask, payload, Masked(mask, payload));
    hide IsMasked;
    Append(front, Masked(mask, payload));
  }

  class Client {
    var input: seq<byte>
    var output: seq<byte>
    var closed: bool

    constructor (input: seq<byte>)
      ensures this.input == input && output == [] && !closed
    {
      this.input, output, closed := input, [], false;
    }

    method ReadFull(n: nat) returns (ok: bool, bytes: seq<byte>)
      modifies this`input
      ensures ok == (|old(input)| >= n)
      ensures ok ==> bytes == old(input)[..n] && input == old(input)[n..]
      ensures !ok ==> input == []
    {
      if |input| >= n {
        ok, bytes, input := true, input[..n], input[n..];
      } else {
        ok, bytes, input := false, [], [];
      }
    }

    // The frame is built in one buffer and masked in place behind its header.
    method WriteFrameLocked(opcode: nibble, payload: seq<byte>, mask: Mask)
      requires |payload| <= MAX_INT64
      modifies this`output
      ensures output == old(output) + ClientFrame(Frame(true, opcode, payload), mask)
      ensures |output| >= |payload| && IsMasked(mask, payload, output[|output| - |payload|..])
    {
      hide Xor, LengthField, ToBigEndian, IsMasked;
      var n := |payload|;
      var header := [128 + opcode] + LengthField(n, 128) + mask;
      var offset := |header|;
      var frame := new byte[offset + n](i requires 0 <= i < offset + n => if i < offset then header[i] else payload[i - offset]);
      var i := 0;
      while i < n
        modifies frame
        invariant 0 <= i <= n
        invariant forall k | 0 <= k < offset :: frame[k] == header[k]
        invariant forall k | offset <= k < offset + i :: frame[k] == Xor(payload[k - offset], mask[(k - offset) % 4])
        invariant forall k | offset + i <= k < offset + n :: frame[k] == payload[k - offset]
      {
        frame[offset + i] := Xor(frame[offset + i], mask[i % 4]);
        i := i + 1;
      }
      assert frame[..] == header + Masked(mask, payload);
      output := output + frame[..];
      MaskedLast(old(output) + header, mask, payload);
      assert output == (old(output) + header) + Masked(mask, payload);
    }

    method ReadFrame() returns (r: ParsedFrame)
      modifies this`input
      ensures r == ParseFrame(old(input)) && input == r.rest
    {
      hide FieldLength, Masked;
      var ok, header := ReadFull(2);
      if !ok { return BadFrame(Eof, input); }
      var length7, masked := header[1] % 128, header[1] >= 128;
      var ext;
      ok, ext := ReadFull(ExtSize(length7));
      if !ok { return BadFrame(Eof, input); }
      var length := FieldLength(length7, ext);
      if length > CLIENT_LIMIT { return BadFrame(MessageTooBig, input); }
      var mask: seq<byte> := [0, 0, 0, 0];
      if masked {
        ok, mask := ReadFull(4);
        if !ok { return BadFrame(Eof, input); }
      }
      if length < 0 { return BadFrame(Panic, input); }
      var body;
      ok, body := ReadFull(length);
      if !ok { return BadFrame(Eof, input); }
      var payload := new byte[length](i requires 0 <= i < length => body[i]);
      assert payload[..] == body;
      if masked {
        WebSocket.UnmaskInPlace(payload, mask);
      }
      return GotFrame(Frame(header[0] >= 128, header[0] % 16, payload[..]), input);
    }

    method ReadMessage(masks: seq<Mask>) returns (r: WebSocket.MessageResult, unused: seq<Mask>)
      modifies this`input, this`output
      ensures
        var o := Read(old(input), closed, masks);
        r == o.result && input == o.rest && output == old(output) + o.sent && unused == o.masks
    {
      hide ParseFrame, IsMasked, ClientFrame;
      unused := masks;
      ghost var sent: seq<byte> := [];
      while true
        invariant output == old(output) + sent
        invariant
          var o := Read(input, closed, unused);
          Read(old(input), closed, masks) == o.(sent := sent + o.sent)
        decreases |input|
      {
        var frame := ReadFrame();
        if frame.BadFrame? {
          assert sent + [] == sent;
          return WebSocket.Failed(frame.error), unused;
        }
        var Frame(fin, opcode, payload) := frame.frame;
        if opcode == OP_PING && !closed && unused != [] {
          ghost var o := Read(input, closed, unused[1..]);
          ghost var pong := ClientFrame(Frame(true, OP_PONG, payload), unused[0]);
          assert sent + (pong + o.sent) == (sent + pong) + o.sent;
          WriteFrameLocked(OP_PONG, payload, unused[0]);
          sent, unused := sent + pong, unused[1..];
        } else if opcode != OP_PONG {
          assert sent + [] == sent;
          if opcode == OP_CLOSE || opcode == OP_PING { return WebSocket.Failed(ConnClosed), unused; }
          if fin { return WebSocket.Message(opcode, payload), unused; }
          return WebSocket.Failed(CorruptFrame), unused;
        }
      }
    }
  }
}
