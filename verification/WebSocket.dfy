// websocket.go: the server side of the frame codec and message assembly.
module WebSocket {
  import opened Prelude
  import opened Frames

  // ---- one frame -----------------------------------------------------------

  datatype FrameResult =
    | GotFrame(frame: Frame, rest: seq<byte>)
    | BadFrame(error: ReadError, rest: seq<byte>)

  // What readFrame makes of the bytes to come; `rest` is what it leaves unread.
  function ParseFrame(input: seq<byte>, maxPayload: int): (r: FrameResult)
    ensures r.GotFrame? ==> |r.frame.payload| <= maxPayload && |r.rest| < |input|
    ensures r.BadFrame? ==> |r.rest| < |input| || input == r.rest == []
    ensures r.GotFrame? && r.frame.opcode >= 8 ==> r.frame.fin && |r.frame.payload| <= 125
  {
    if |input| < 2 then BadFrame(Eof, []) else
    var header, in1 := input[..2], input[2..];
    var fin, opcode, length7 := header[0] >= 128, header[0] % 16, header[1] % 128;
    if header[0] / 16 % 8 != 0 || header[1] < 128 then BadFrame(CorruptFrame, in1) else
    if |in1| < ExtSize(length7) then BadFrame(Eof, []) else
    var ext, in2 := in1[..ExtSize(length7)], in1[ExtSize(length7)..];
    var length := FieldLength(length7, ext);
    if length < 0 || length > maxPayload then BadFrame(MessageTooBig, in2) else
    if opcode >= OP_CLOSE && (!fin || length > 125) then BadFrame(CorruptFrame, in2) else
    if |in2| < 4 then BadFrame(Eof, []) else
    var mask, in3 := in2[..4], in2[4..];
    if |in3| < length then BadFrame(Eof, []) else
    GotFrame(Frame(fin, opcode, Masked(mask, in3[..length])), in3[length..])
  }

  // Frames that the server accepts from a peer.
  predicate Acceptable(f: Frame, maxPayload: int) {
    && |f.payload| <= maxPayload <= MAX_INT64
    && (f.opcode >= OP_CLOSE ==> f.fin && |f.payload| <= 125)
  }

  lemma ClientFrameLayout(f: Frame, mask: Mask, tail: seq<byte>)
    requires |f.payload| <= MAX_INT64
    ensures
      var header := [FirstByte(f.fin, f.opcode), 128 + Length7(|f.payload|)];
      && |ClientFrame(f, mask)| == 2 + ExtSize(Length7(|f.payload|)) + 4 + |f.payload|
      && ClientFrame(f, mask) + tail
         == header + (ExtBytes(|f.payload|) + (mask + (Masked(mask, f.payload) + tail)))
  {
    hide ToBigEndian;
    LengthFieldReads(|f.payload|, 128);
  }

  // A client frame is read back as it was written and consumes exactly its own
  // bytes, whatever follows it.
  lemma ParseClientFrame(f: Frame, mask: Mask, tail: seq<byte>, maxPayload: int)
    requires Acceptable(f, maxPayload)
    ensures ParseFrame(ClientFrame(f, mask) + tail, maxPayload) == GotFrame(f, tail)
  {
    hide ClientFrame, LengthField, ExtBytes, FieldLength, BigEndian, Length7, Masked, FirstByte;
    FirstByteReads(f.fin, f.opcode, Length7(|f.payload|));
    ClientFrameLayout(f, mask, tail);
    LengthFieldReads(|f.payload|, 128);
    MaskedTwice(mask, f.payload);
    var header, body := [FirstByte(f.fin, f.opcode), 128 + Length7(|f.payload|)], Masked(mask, f.payload);
    Append(header, ExtBytes(|f.payload|) + (mask + (body + tail)));
    Append(ExtBytes(|f.payload|), mask + (body + tail));
    Append(mask, body + tail);
    Append(body, tail);
  }

  // The writer's length form is the shortest: any bytes that parse to the same
  // frame take at least as many bytes.
  lemma ClientFrameShortest(input: seq<byte>, mask: Mask, maxPayload: int)
    requires maxPayload <= MAX_INT64
    requires ParseFrame(input, maxPayload).GotFrame?
    ensures
      var r := ParseFrame(input, maxPayload);
      |ClientFrame(r.frame, mask)| <= |input| - |r.rest|
  {
    var r := ParseFrame(input, maxPayload);
    var length7 := input[1] % 128;
    FieldLengthBound(length7, input[2..][..ExtSize(length7)]);
    ClientFrameLayout(r.frame, mask, []);
    assert ClientFrame(r.frame, mask) + [] == ClientFrame(r.frame, mask);
  }

  // ---- one message ---------------------------------------------------------

  datatype MessageResult = Message(opcode: nibble, payload: seq<byte>) | Failed(error: ReadError)

  // The effect of ReadMessage: its result, the unread input, the bytes it wrote
  // in answer to control frames, and whether the connection is closed.
  datatype Outcome = Outcome(result: MessageResult, rest: seq<byte>, sent: seq<byte>, closed: bool)

  predicate IsData(f: Frame) {
    f.opcode == OP_TEXT || f.opcode == OP_BINARY || f.opcode == OP_CONTINUATION
  }

  const CLOSE_1000: seq<byte> := [3, 232]

  // What one frame makes of ReadMessage's three variables: the loop ends with a
  // result, or goes on after writing `sent`.
  datatype Next =
    | Done(result: MessageResult, sent: seq<byte>, closed: bool)
    | Continue(fragmented: bool, opcode: nibble, buf: seq<byte>, sent: seq<byte>)

  function Handle(f: Frame, maxPayload: int, closed: bool, fragmented: bool, opcode: nibble, buf: seq<byte>): Next {
    if f.opcode == OP_PING then
      if closed then Done(Failed(ConnClosed), [], closed)
      else Continue(fragmented, opcode, buf, ServerFrame(OP_PONG, f.payload))
    else if f.opcode == OP_PONG then Continue(fragmented, opcode, buf, [])
    else if f.opcode == OP_CLOSE then
      Done(Failed(ConnClosed), if closed then [] else ServerFrame(OP_CLOSE, CLOSE_1000), true)
    else if f.opcode == OP_CONTINUATION then
      if !fragmented then Done(Failed(CorruptFrame), [], closed)
      else if |buf| + |f.payload| > maxPayload then Done(Failed(MessageTooBig), [], closed)
      else if f.fin then Done(Message(opcode, buf + f.payload), [], closed)
      else Continue(true, opcode, buf + f.payload, [])
    else if f.opcode == OP_TEXT || f.opcode == OP_BINARY then
      if fragmented then Done(Failed(CorruptFrame), [], closed)
      else if f.fin then Done(Message(f.opcode, f.payload), [], closed)
      else Continue(true, f.opcode, buf + f.payload, [])
    else Done(Failed(CorruptFrame), [], closed)
  }

  // ReadMessage from the middle of its loop.
  function Assemble(input: seq<byte>, maxPayload: int, closed: bool,
                    fragmented: bool, opcode: nibble, buf: seq<byte>): Outcome
    decreases |input|
  {
    match ParseFrame(input, maxPayload)
    case BadFrame(error, rest) => Outcome(Failed(error), rest, [], closed)
    case GotFrame(f, rest) =>
      match Handle(f, maxPayload, closed, fragmented, opcode, buf)
      case Done(result, sent, closed') => Outcome(result, rest, sent, closed')
      case Continue(fragmented', opcode', buf', sent) =>
        After(sent, Assemble(rest, maxPayload, closed, fragmented', opcode', buf'))
  }

  // `o` when `sent` was written before it.
  function After(sent: seq<byte>, o: Outcome): (r: Outcome)
    ensures sent == [] ==> r == o
  {
    assert sent == [] ==> sent + o.sent == o.sent;
    o.(sent := sent + o.sent)
  }

  lemma AfterAfter(a: seq<byte>, b: seq<byte>, o: Outcome)
    ensures After(a, After(b, o)) == After(a + b, o)
  {
    assert a + (b + o.sent) == (a + b) + o.sent;
  }

  lemma AssembleStep(input: seq<byte>, maxPayload: int, closed: bool, fragmented: bool, opcode: nibble, buf: seq<byte>)
    requires ParseFrame(input, maxPayload).GotFrame?
    ensures
      var r := ParseFrame(input, maxPayload);
      var next := Handle(r.frame, maxPayload, closed, fragmented, opcode, buf);
      Assemble(input, maxPayload, closed, fragmented, opcode, buf) ==
        if next.Done? then Outcome(next.result, r.rest, next.sent, next.closed)
        else After(next.sent, Assemble(r.rest, maxPayload, closed, next.fragmented, next.opcode, next.buf))
  {
  }

  // maxPayload bounds what a message under assembly holds.
  lemma HandleBounds(f: Frame, maxPayload: int, closed: bool, fragmented: bool, opcode: nibble, buf: seq<byte>)
    requires |f.payload| <= maxPayload && |buf| <= maxPayload
    requires !fragmented ==> buf == []
    ensures
      var next := Handle(f, maxPayload, closed, fragmented, opcode, buf);
      && (next.Continue? ==> |next.buf| <= maxPayload && (!next.fragmented ==> next.buf == []))
      && (next.Done? && next.result.Message? ==> |next.result.payload| <= maxPayload)
  {
  }

  // The payload that the data frames of `fs` carry.
  function DataOf(fs: seq<Frame>): seq<byte> {
    if fs == [] then []
    else if IsData(fs[0]) then fs[0].payload + DataOf(fs[1..]) else DataOf(fs[1..])
  }

  // One pong per ping, with the ping's payload, in order.
  function PongsFor(fs: seq<Frame>): seq<byte>
  {
    if fs == [] then []
    else if fs[0].opcode == OP_PING then ServerFrame(OP_PONG, fs[0].payload) + PongsFor(fs[1..])
    else PongsFor(fs[1..])
  }

  // Opcode of the first data frame.
  function FirstOpcode(fs: seq<Frame>): nibble {
    if fs == [] then OP_CONTINUATION else if IsData(fs[0]) then fs[0].opcode else FirstOpcode(fs[1..])
  }

  ghost predicate NoDataBefore(fs: seq<Frame>, i: nat)
    requires i <= |fs|
  {
    forall j | 0 <= j < i :: !IsData(fs[j])
  }

  // Section 5.4 of RFC 6455: exactly the last data frame has fin set and nothing
  // follows it, exactly the first data frame names the type (none of them when
  // `started`), and pings and pongs may come anywhere in between.
  ghost predicate Fragments(fs: seq<Frame>, started: bool) {
    && fs != []
    && IsData(fs[|fs| - 1]) && fs[|fs| - 1].fin
    && (forall i | 0 <= i < |fs| - 1 && IsData(fs[i]) :: !fs[i].fin)
    && (forall i | 0 <= i < |fs| && !IsData(fs[i]) :: fs[i].opcode == OP_PING || fs[i].opcode == OP_PONG)
    && (forall i | 0 <= i < |fs| && IsData(fs[i]) ::
          fs[i].opcode != OP_CONTINUATION <==> !started && NoDataBefore(fs, i))
  }

  // `fs` are the frames that reading `input` yields up to `rest`.
  ghost predicate ParsesAs(input: seq<byte>, maxPayload: int, fs: seq<Frame>, rest: seq<byte>)
    decreases fs
  {
    if fs == [] then input == rest
    else
      var r := ParseFrame(input, maxPayload);
      r.GotFrame? && r.frame == fs[0] && ParsesAs(r.rest, maxPayload, fs[1..], rest)
  }

  lemma FragmentsTail(fs: seq<Frame>, started: bool)
    requires Fragments(fs, started) && |fs| > 1
    ensures Fragments(fs[1..], started || IsData(fs[0]))
    ensures IsData(fs[0]) ==> !fs[0].fin
  {
    var ts := fs[1..];
    forall i | 0 <= i < |ts| && IsData(ts[i])
      ensures ts[i].opcode != OP_CONTINUATION <==> !(started || IsData(fs[0])) && NoDataBefore(ts, i)
    {
      assert ts[i] == fs[i + 1];
      if NoDataBefore(fs, i + 1) {
        assert forall j | 0 <= j < i :: ts[j] == fs[j + 1];
      }
      if NoDataBefore(ts, i) && !IsData(fs[0]) {
        forall j | 0 <= j < i + 1 ensures !IsData(fs[j]) {
          if j > 0 { assert fs[j] == ts[j - 1]; }
        }
      }
    }
  }

  lemma FragmentsCons(f: Frame, ts: seq<Frame>, started: bool)
    requires Fragments(ts, started || IsData(f))
    requires if IsData(f) then !f.fin && (f.opcode != OP_CONTINUATION <==> !started)
             else f.opcode == OP_PING || f.opcode == OP_PONG
    ensures Fragments([f] + ts, started)
  {
    var fs := [f] + ts;
    forall i | 0 <= i < |fs| && IsData(fs[i])
      ensures fs[i].opcode != OP_CONTINUATION <==> !started && NoDataBefore(fs, i)
    {
      if i > 0 {
        assert fs[i] == ts[i - 1];
        if NoDataBefore(fs, i) {
          assert fs[0] == f;
          assert forall j | 0 <= j < i - 1 :: ts[j] == fs[j + 1];
        }
        if NoDataBefore(ts, i - 1) && !IsData(f) {
          forall j | 0 <= j < i ensures !IsData(fs[j]) {
            if j > 0 { assert fs[j] == ts[j - 1]; }
          }
        }
      }
    }
  }

  // A fragmented message with pings and pongs in between is put together again,
  // and every ping is answered in order.
  lemma {:induction false} FragmentsAssemble(input: seq<byte>, maxPayload: int, closed: bool, fs: seq<Frame>,
                          rest: seq<byte>, started: bool, opcode: nibble, buf: seq<byte>)
    requires ParsesAs(input, maxPayload, fs, rest)
    requires Fragments(fs, started)
    requires |buf| + |DataOf(fs)| <= maxPayload
    requires closed ==> PongsFor(fs) == []
    requires !started ==> buf == []
    ensures Assemble(input, maxPayload, closed, started, opcode, buf)
         == Outcome(Message(if started then opcode else FirstOpcode(fs), buf + DataOf(fs)), rest, PongsFor(fs), closed)
    decreases |fs|
  {
    hide ParseFrame;
    var f, ts := fs[0], fs[1..];
    var mid := ParseFrame(input, maxPayload).rest;
    assert IsData(f) ==> (f.opcode != OP_CONTINUATION <==> !started && NoDataBefore(fs, 0));
    if |fs| == 1 {
      assert !started ==> buf + f.payload == f.payload;
      assert DataOf(ts) == [] && f.payload + DataOf(ts) == f.payload;
    } else {
      FragmentsTail(fs, started);
      if IsData(f) {
        assert buf + (f.payload + DataOf(ts)) == (buf + f.payload) + DataOf(ts);
        FragmentsAssemble(mid, maxPayload, closed, ts, rest, true, if started then opcode else f.opcode, buf + f.payload);
      } else {
        assert f.opcode == OP_PING || f.opcode == OP_PONG;
        FragmentsAssemble(mid, maxPayload, closed, ts, rest, started, opcode, buf);
      }
    }
  }

  // The converse: whenever a message is returned, the bytes consumed were such a
  // fragmentation within the bound, and the pongs written are those of its pings.
  lemma {:induction false} AssembledFragments(input: seq<byte>, maxPayload: int, closed: bool,
                           started: bool, opcode: nibble, buf: seq<byte>) returns (fs: seq<Frame>)
    requires Assemble(input, maxPayload, closed, started, opcode, buf).result.Message?
    requires !started ==> buf == []
    ensures
      var o := Assemble(input, maxPayload, closed, started, opcode, buf);
      && ParsesAs(input, maxPayload, fs, o.rest)
      && Fragments(fs, started)
      && o.result == Message(if started then opcode else FirstOpcode(fs), buf + DataOf(fs))
      && |buf| + |DataOf(fs)| <= maxPayload
      && o.sent == PongsFor(fs) && o.closed == closed
    decreases |input|
  {
    hide ParseFrame;
    var r := ParseFrame(input, maxPayload);
    var f := r.frame;
    var o := Assemble(input, maxPayload, closed, started, opcode, buf);
    if IsData(f) && f.fin {
      fs := [f];
      assert fs[1..] == [] && f.payload + DataOf([]) == f.payload;
      assert NoDataBefore(fs, 0);
      assert ParsesAs(r.rest, maxPayload, fs[1..], o.rest);
    } else {
      var ts;
      if IsData(f) {
        ts := AssembledFragments(r.rest, maxPayload, closed, true, if started then opcode else f.opcode, buf + f.payload);
        assert (buf + f.payload) + DataOf(ts) == buf + (f.payload + DataOf(ts));
      } else {
        ts := AssembledFragments(r.rest, maxPayload, closed, started, opcode, buf);
      }
      fs := [f] + ts;
      assert fs[1..] == ts;
      FragmentsCons(f, ts, started);
    }
  }

  // Frames on the wire, each with its own mask.
  function Wire(fs: seq<Frame>, masks: seq<Mask>): seq<byte>
    requires |masks| == |fs|
  {
    if fs == [] then [] else ClientFrame(fs[0], masks[0]) + Wire(fs[1..], masks[1..])
  }

  lemma {:induction false} WireParses(fs: seq<Frame>, masks: seq<Mask>, tail: seq<byte>, maxPayload: int)
    requires |masks| == |fs| && forall i | 0 <= i < |fs| :: Acceptable(fs[i], maxPayload)
    ensures ParsesAs(Wire(fs, masks) + tail, maxPayload, fs, tail)
  {
    if fs == [] {
      assert Wire(fs, masks) + tail == tail;
    } else {
      var after := Wire(fs[1..], masks[1..]) + tail;
      assert Wire(fs, masks) + tail == ClientFrame(fs[0], masks[0]) + after;
      ParseClientFrame(fs[0], masks[0], after, maxPayload);
      WireParses(fs[1..], masks[1..], tail, maxPayload);
    }
  }

  // Fragment reassembly over bytes: any split of a message into frames, any
  // interleaved pings and pongs, any masks.
  lemma Reassembly(fs: seq<Frame>, masks: seq<Mask>, tail: seq<byte>, maxPayload: int)
    requires |masks| == |fs| && forall i | 0 <= i < |fs| :: Acceptable(fs[i], maxPayload)
    requires Fragments(fs, false)
    requires |DataOf(fs)| <= maxPayload
    ensures Assemble(Wire(fs, masks) + tail, maxPayload, false, false, 0, [])
         == Outcome(Message(FirstOpcode(fs), DataOf(fs)), tail, PongsFor(fs), false)
  {
    WireParses(fs, masks, tail, maxPayload);
    FragmentsAssemble(Wire(fs, masks) + tail, maxPayload, false, fs, tail, false, 0, []);
    assert [] + DataOf(fs) == DataOf(fs);
  }

  // ReadMessage succeeds on an open connection exactly on such inputs.
  lemma AcceptsExactlyFragments(input: seq<byte>, maxPayload: int)
    ensures Assemble(input, maxPayload, false, false, 0, []).result.Message?
       <==> exists fs, rest :: ParsesAs(input, maxPayload, fs, rest) && Fragments(fs, false) && |DataOf(fs)| <= maxPayload
  {
    hide ParseFrame;
    if Assemble(input, maxPayload, false, false, 0, []).result.Message? {
      var fs := AssembledFragments(input, maxPayload, false, false, 0, []);
      assert ParsesAs(input, maxPayload, fs, Assemble(input, maxPayload, false, false, 0, []).rest);
    }
    if fs, rest :| ParsesAs(input, maxPayload, fs, rest) && Fragments(fs, false) && |DataOf(fs)| <= maxPayload {
      FragmentsAssemble(input, maxPayload, false, fs, rest, false, 0, []);
    }
  }

  // ---- many messages -------------------------------------------------------

  datatype Text = Text(opcode: nibble, payload: seq<byte>)

  predicate Sendable(m: Text, limit: int) {
    (m.opcode == OP_TEXT || m.opcode == OP_BINARY) && |m.payload| <= limit <= MAX_INT64
  }

  // What the client writes for a list of messages.
  function ClientStream(ms: seq<Text>, masks: seq<Mask>): seq<byte>
    requires |masks| == |ms|
  {
    if ms == [] then []
    else ClientFrame(Frame(true, ms[0].opcode, ms[0].payload), masks[0]) + ClientStream(ms[1..], masks[1..])
  }

  // What some calls of ReadMessage give, and the bytes they leave unread.
  datatype Many = Many(results: seq<MessageResult>, rest: seq<byte>)

  // `n` calls of ReadMessage in a row, on an open connection.
  function ReadMany(input: seq<byte>, maxPayload: int, n: nat): Many
    decreases n
  {
    if n == 0 then Many([], input)
    else
      var o := Assemble(input, maxPayload, false, false, 0, []);
      var m := ReadMany(o.rest, maxPayload, n - 1);
      Many([o.result] + m.results, m.rest)
  }

  function AsResult(m: Text): MessageResult {
    Message(m.opcode, m.payload)
  }

  // The server reads back what the client wrote, message by message, and not a byte
  // more.
  lemma {:induction false} ClientToServer(ms: seq<Text>, masks: seq<Mask>, tail: seq<byte>, maxPayload: int)
    requires |masks| == |ms| && forall i | 0 <= i < |ms| :: Sendable(ms[i], maxPayload)
    ensures ReadMany(ClientStream(ms, masks) + tail, maxPayload, |ms|)
         == Many(seq(|ms|, i requires 0 <= i < |ms| => AsResult(ms[i])), tail)
  {
    hide ParseFrame;
    if ms != [] {
      var m, after := ms[0], ClientStream(ms[1..], masks[1..]) + tail;
      var f := Frame(true, m.opcode, m.payload);
      assert ClientStream(ms, masks) + tail == ClientFrame(f, masks[0]) + after;
      ParseClientFrame(f, masks[0], after, maxPayload);
      ClientToServer(ms[1..], masks[1..], tail, maxPayload);
    } else {
      assert ClientStream(ms, masks) + tail == tail;
    }
  }

  // ---- the connection object -----------------------------------------------

  class WsConn {
    var input: seq<byte>      // bytes that the peer has sent and `br` has not delivered yet
    var output: seq<byte>     // bytes written to the connection
    var closed: bool
    const writeHeader: array<byte>
    const maxPayload: int

    constructor (input: seq<byte>, maxPayload: int)
      ensures this.input == input && output == [] && !closed && this.maxPayload == maxPayload
      ensures writeHeader.Length == 10 && fresh(writeHeader)
    {
      this.input, this.output, this.closed, this.maxPayload := input, [], false, maxPayload;
      writeHeader := new byte[10](_ => 0);
    }

    // io.ReadFull: all `n` bytes, or an error with whatever was left consumed.
    method ReadFull(n: nat) returns (ok: bool, bytes: seq<byte>)
      modifies this`input
      ensures ok == (|old(input)| >= n)
      ensures ok ==> bytes == old(input)[..n] && input == old(input)[n..]
      ensures !ok ==> input == []
    {
      if |input| >= n {
        ok, bytes, input := true, input[..n], input[n..];
      } else {
        ok, bytes, input := false, [], [];
      }
    }

    method ReadFrame() returns (r: FrameResult)
      modifies this`input
      ensures r == ParseFrame(old(input), maxPayload) && input == r.rest
    {
      hide FieldLength, Masked;
      var ok, header := ReadFull(2);
      if !ok { return BadFrame(Eof, input); }
      var fin := header[0] >= 128;
      if header[0] / 16 % 8 != 0 { return BadFrame(CorruptFrame, input); }
      var opcode: nibble := header[0] % 16;
      if header[1] < 128 { return BadFrame(CorruptFrame, input); }
      var length7 := header[1] % 128;
      var ext;
      ok, ext := ReadFull(ExtSize(length7));
      if !ok { return BadFrame(Eof, input); }
      var length := FieldLength(length7, ext);
      if length < 0 || length > maxPayload { return BadFrame(MessageTooBig, input); }
      if opcode >= OP_CLOSE && (!fin || length > 125) { return BadFrame(CorruptFrame, input); }
      var mask, body;
      ok, mask := ReadFull(4);
      if !ok { return BadFrame(Eof, input); }
      ok, body := ReadFull(length);
      if !ok { return BadFrame(Eof, input); }
      var payload := new byte[length](i requires 0 <= i < length => body[i]);
      assert payload[..] == body;
      UnmaskInPlace(payload, mask);
      return GotFrame(Frame(fin, opcode, payload[..]), input);
    }

    // The switch of ReadMessage over one frame; the caller's variables come back
    // in the result.
    method HandleFrame(f: Frame, fragmented: bool, messageOpcode: nibble, messageBuf: seq<byte>) returns (next: Next)
      requires writeHeader.Length == 10 && |f.payload| <= MAX_INT64
      modifies this`output, this`closed, writeHeader
      ensures next == Handle(f, maxPayload, old(closed), fragmented, messageOpcode, messageBuf)
      ensures output == old(output) + next.sent
      ensures closed == if next.Done? then next.closed else old(closed)
    {
      var Frame(fin, opcode, payload) := f;
      if opcode == OP_PING {
        var ok := WriteFrame(OP_PONG, payload);
        if !ok { return Done(Failed(ConnClosed), [], closed); }
        return Continue(fragmented, messageOpcode, messageBuf, ServerFrame(OP_PONG, payload));
      } else if opcode == OP_PONG {
        return Continue(fragmented, messageOpcode, messageBuf, []);
      } else if opcode == OP_CLOSE {
        assert [1000 / 256, 1000 % 256] + [] == CLOSE_1000;
        var ok := WriteClose(1000, []);
        return Done(Failed(ConnClosed), if ok then ServerFrame(OP_CLOSE, CLOSE_1000) else [], true);
      } else if opcode == OP_CONTINUATION {
        if !fragmented { return Done(Failed(CorruptFrame), [], closed); }
        if |messageBuf| + |payload| > maxPayload { return Done(Failed(MessageTooBig), [], closed); }
        if fin { return Done(Message(messageOpcode, messageBuf + payload), [], closed); }
        return Continue(true, messageOpcode, messageBuf + payload, []);
      } else if opcode == OP_TEXT || opcode == OP_BINARY {
        if fragmented { return Done(Failed(CorruptFrame), [], closed); }
        if fin { return Done(Message(opcode, payload), [], closed); }
        return Continue(true, opcode, messageBuf + payload, []);
      } else {
        return Done(Failed(CorruptFrame), [], closed);
      }
    }

    // ReadMessage. `peak` is the largest number of payload bytes that a message
    // under assembly ever held.
    method ReadMessage() returns (r: MessageResult, ghost peak: nat)
      requires writeHeader.Length == 10 && maxPayload <= MAX_INT64
      modifies this`input, this`output, this`closed, writeHeader
      ensures
        var o := Assemble(old(input), maxPayload, old(closed), false, 0, []);
        r == o.result && input == o.rest && output == old(output) + o.sent && closed == o.closed
      ensures r.Message? ==> |r.payload| <= peak
      ensures peak == 0 || peak <= maxPayload
    {
      hide ParseFrame, ServerFrame, Handle;
      var opcode: nibble, buf: seq<byte>, fragmented := 0, [], false;
      peak := 0;
      ghost var sent: seq<byte> := [];
      while true
        invariant closed == old(closed)
        invariant output == old(output) + sent
        invariant Assemble(old(input), maxPayload, old(closed), false, 0, [])
               == After(sent, Assemble(input, maxPayload, closed, fragmented, opcode, buf))
        invariant |buf| <= peak && (peak == 0 || peak <= maxPayload)
        invariant !fragmented ==> buf == []
        decreases |input|
      {
        ghost var here := input;
        var frame := ReadFrame();
        if frame.BadFrame? { return Failed(frame.error), peak; }
        AssembleStep(here, maxPayload, closed, fragmented, opcode, buf);
        HandleBounds(frame.frame, maxPayload, closed, fragmented, opcode, buf);
        hide Assemble;
        var next := HandleFrame(frame.frame, fragmented, opcode, buf);
        if next.Done? {
          if next.result.Message? && |next.result.payload| > peak { peak := |next.result.payload|; }
          return next.result, peak;
        }
        AfterAfter(sent, next.sent, Assemble(input, maxPayload, closed, next.fragmented, next.opcode, next.buf));
        sent := sent + next.sent;
        fragmented, opcode, buf := next.fragmented, next.opcode, next.buf;
        peak := if |buf| > peak then |buf| else peak;
      }
    }

    method WriteFrame(opcode: nibble, payload: seq<byte>) returns (ok: bool)
      requires writeHeader.Length == 10 && |payload| <= MAX_INT64
      modifies this`output, writeHeader
      ensures ok == !closed
      ensures output == if closed then old(output) else old(output) + ServerFrame(opcode, payload)
    {
      if closed { return false; }
      var n := |payload|;
      writeHeader[0] := 128 + opcode;
      var used;
      if n < 126 {
        writeHeader[1], used := n, 2;
      } else if n <= 0xFFFF {
        writeHeader[1], writeHeader[2], writeHeader[3], used := 126, n / 256, n % 256, 4;
      } else {
        writeHeader[1] := 127;
        var ext := ToBigEndian(n, 8);
        forall i | 0 <= i < 8 { writeHeader[2 + i] := ext[i]; }
        used := 10;
        assert writeHeader[2..10] == ext;
      }
      assert writeHeader[..used] == [128 + opcode] + LengthField(n, 0);
      output := output + writeHeader[..used] + payload;
      return true;
    }

    method WriteClose(code: nat, reason: seq<byte>) returns (ok: bool)
      requires code <= 0xFFFF && writeHeader.Length == 10 && |reason| + 2 <= MAX_INT64
      modifies this`output, this`closed, writeHeader
      ensures ok == !old(closed) && closed
      ensures output == if old(closed) then old(output)
                        else old(output) + ServerFrame(OP_CLOSE, [code / 256, code % 256] + reason)
    {
      ok := WriteFrame(OP_CLOSE, [code / 256, code % 256] + reason);
      closed := true;
    }

    method Close()
      modifies this`closed
      ensures closed
    {
      closed := true;
    }
  }

  method UnmaskInPlace(payload: array<byte>, mask: Mask)
    modifies payload
    ensures payload[..] == Masked(mask, old(payload[..])) && IsMasked(mask, old(payload[..]), payload[..])
  {
    MaskedExactly(mask, payload[..], Masked(mask, payload[..]));
    hide Xor, IsMasked;
    var i := 0;
    while i < payload.Length
      invariant 0 <= i <= payload.Length
      invariant forall k | 0 <= k < i :: payload[k] == Xor(old(payload[k]), mask[k % 4])
      invariant forall k | i <= k < payload.Length :: payload[k] == old(payload[k])
    {
      payload[i] := Xor(payload[i], mask[i % 4]);
      i := i + 1;
    }
  }
}
