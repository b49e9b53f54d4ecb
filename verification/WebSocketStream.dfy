// The data handler of gui/server/websocket.ts: chunks are appended to a buffer and
// complete frames are taken off its front.
module WebSocketStream {
  import opened WebSocketFrames

  const TEXT: nat := 1
  const CLOSE: nat := 8

  /** Why the read loop stopped: waiting for bytes, after a close frame, or on the thrown error. */
  datatype Stop = Waiting | Closed | Failed

  datatype Drained = Drained(delivered: seq<Bytes>, rest: Bytes, stop: Stop)

  /** One run of the read loop. */
  function Drain(buffer: Bytes): (d: Drained)
    ensures d.stop == Waiting ==> FrameAt(d.rest) == Incomplete
    ensures d.stop == Failed ==> FrameAt(d.rest) == TooLarge
    decreases |buffer|
  {
    match FrameAt(buffer)
    case Incomplete => Drained([], buffer, Waiting)
    case TooLarge => Drained([], buffer, Failed)
    case Frame(opcode, payload, n) =>
      if opcode == CLOSE then Drained([], buffer[n..], Closed)
      else
        var next := Drain(buffer[n..]);
        if opcode == TEXT then next.(delivered := [payload] + next.delivered) else next
  }

  class Connection {
    var buffer: Bytes
    var delivered: seq<Bytes>

    constructor ()
      ensures buffer == [] && delivered == []
    {
      buffer := [];
      delivered := [];
    }

    /** The `data` event. */
    method OnData(chunk: Bytes) returns (stop: Stop)
      modifies this
      ensures var d := Drain(old(buffer) + chunk);
              buffer == d.rest && delivered == old(delivered) + d.delivered && stop == d.stop
    {
      hide FrameAt;
      buffer := buffer + chunk;
      ghost var whole := Drain(buffer);
      while true
        invariant whole.rest == Drain(buffer).rest && whole.stop == Drain(buffer).stop
        invariant old(delivered) + whole.delivered == delivered + Drain(buffer).delivered
        decreases |buffer|
      {
        var frame := ReadFrame(buffer);
        if frame.Incomplete? {
          return Waiting;
        }
        if frame.TooLarge? {
          return Failed;
        }
        buffer := buffer[frame.bytesRead..];
        if frame.opcode == CLOSE {
          return Closed;
        }
        if frame.opcode == TEXT {
          delivered := delivered + [frame.payload];
        }
      }
    }
  }

  // ---------------------------------------------------------------- chunked streams

  function Concat(chunks: seq<Bytes>): Bytes {
    if chunks == [] then [] else chunks[0] + Concat(chunks[1..])
  }

  /** The payloads delivered for a run of `data` events, and the bytes left over at the end. */
  function Feed(buffer: Bytes, chunks: seq<Bytes>): (r: (seq<Bytes>, Bytes))
    decreases |chunks|
  {
    if chunks == [] then ([], buffer)
    else
      var d := Drain(buffer + chunks[0]);
      var (more, last) := Feed(d.rest, chunks[1..]);
      (d.delivered + more, last)
  }

  /** The text payloads of every complete frame of a stream, close frames or not. */
  function AllText(stream: Bytes): (texts: seq<Bytes>)
    decreases |stream|
  {
    match FrameAt(stream)
    case Incomplete => []
    case TooLarge => []
    case Frame(opcode, payload, n) =>
      (if opcode == TEXT then [payload] else []) + AllText(stream[n..])
  }

  /** The text payloads of complete frames that follow the first close frame. */
  function TextAfterClose(stream: Bytes): (texts: seq<Bytes>)
    decreases |stream|
  {
    match FrameAt(stream)
    case Incomplete => []
    case TooLarge => []
    case Frame(opcode, payload, n) =>
      if opcode == CLOSE then AllText(stream[n..]) else TextAfterClose(stream[n..])
  }

  /** Bytes that arrive later do not change a decision already taken. */
  lemma FrameIsStable(stream: Bytes, more: Bytes)
    requires !FrameAt(stream).Incomplete?
    ensures FrameAt(stream + more) == FrameAt(stream)
  {
    hide ReadHeader, Masked;
    HeaderIsStable(stream, more);
    var h := ReadHeader(stream);
    if h.Header? {
      PayloadIsStable(stream, more, h);
    }
  }

  lemma PayloadIsStable(stream: Bytes, more: Bytes, h: Header)
    requires h.Header? && h.offset <= |stream|
    requires |stream| >= (if h.masked then h.offset + 4 else h.offset) + h.length
    ensures var start := if h.masked then h.offset + 4 else h.offset;
            (stream + more)[start..start + h.length] == stream[start..start + h.length]
    ensures h.masked ==> (stream + more)[h.offset..h.offset + 4] == stream[h.offset..h.offset + 4]
  {
  }

  lemma HeaderIsStable(stream: Bytes, more: Bytes)
    requires !ReadHeader(stream).ShortHeader?
    ensures ReadHeader(stream + more) == ReadHeader(stream)
  {
    hide LengthBits, MaskBit, Opcode, BigEndian;
    assert (stream + more)[0] == stream[0] && (stream + more)[1] == stream[1];
    if |stream| >= 4 {
      assert (stream + more)[2..4] == stream[2..4];
    }
    if |stream| >= 10 {
      assert (stream + more)[2..10] == stream[2..10];
    }
  }

  /** A frame is decided by its own bytes alone. */
  lemma FrameNeedsItsBytes(stream: Bytes)
    requires FrameAt(stream).Frame?
    ensures FrameAt(stream[..FrameAt(stream).bytesRead]) == FrameAt(stream)
  {
    hide ReadHeader, Masked;
    var n := FrameAt(stream).bytesRead;
    var h := ReadHeader(stream);
    HeaderNeedsItsBytes(stream, n);
    PayloadNeedsItsBytes(stream, h, n);
  }

  lemma PayloadNeedsItsBytes(stream: Bytes, h: Header, n: nat)
    requires h.Header? && n <= |stream|
    requires n == (if h.masked then h.offset + 4 else h.offset) + h.length
    ensures var start := if h.masked then h.offset + 4 else h.offset;
            stream[..n][start..n] == stream[start..n]
    ensures h.masked ==> stream[..n][h.offset..h.offset + 4] == stream[h.offset..h.offset + 4]
  {
  }

  lemma HeaderNeedsItsBytes(stream: Bytes, n: nat)
    requires ReadHeader(stream).Header? && ReadHeader(stream).offset <= n <= |stream|
    ensures ReadHeader(stream[..n]) == ReadHeader(stream)
  {
    hide LengthBits, MaskBit, Opcode, BigEndian;
    var own := stream[..n];
    assert own[0] == stream[0] && own[1] == stream[1];
    if n >= 4 {
      assert own[2..4] == stream[2..4];
    }
    if n >= 10 {
      assert own[2..10] == stream[2..10];
    }
  }

  function TextOf(frame: ReadResult): seq<Bytes>
    requires frame.Frame?
  {
    if frame.opcode == TEXT then [frame.payload] else []
  }

  lemma TakeFrame(stream: Bytes)
    requires FrameAt(stream).Frame?
    ensures var f := FrameAt(stream);
            AllText(stream) == TextOf(f) + AllText(stream[f.bytesRead..]) &&
            TextAfterClose(stream)
            == if f.opcode == CLOSE then AllText(stream[f.bytesRead..]) else TextAfterClose(stream[f.bytesRead..])
  {
    hide FrameAt;
  }

  lemma DrainFrame(buffer: Bytes)
    requires FrameAt(buffer).Frame?
    ensures var f := FrameAt(buffer); var next := Drain(buffer[f.bytesRead..]);
            Drain(buffer) == if f.opcode == CLOSE then Drained([], buffer[f.bytesRead..], Closed)
                             else next.(delivered := TextOf(f) + next.delivered)
  {
    hide FrameAt;
    var next := Drain(buffer[FrameAt(buffer).bytesRead..]);
    assert [] + next.delivered == next.delivered;
  }

  lemma DrainNothing(buffer: Bytes)
    requires !FrameAt(buffer).Frame?
    ensures var d := Drain(buffer); d.delivered == [] && d.rest == buffer && d.stop != Closed
  {
    hide FrameAt;
  }

  /** What one run of the loop leaves behind continues the stream where it stopped. */
  lemma {:induction false} DrainThenContinue(buffer: Bytes, more: Bytes)
    ensures var d := Drain(buffer);
            AllText(buffer + more) == d.delivered + AllText(d.rest + more)
    ensures var d := Drain(buffer);
            TextAfterClose(buffer + more)
            == if d.stop == Closed then AllText(d.rest + more) else TextAfterClose(d.rest + more)
    decreases |buffer|
  {
    hide FrameAt, Drain, AllText, TextAfterClose;
    if FrameAt(buffer).Frame? {
      var n := FrameAt(buffer).bytesRead;
      FrameIsStable(buffer, more);
      assert (buffer + more)[n..] == buffer[n..] + more;
      DrainFrame(buffer);
      TakeFrame(buffer + more);
      if FrameAt(buffer).opcode != CLOSE {
        DrainThenContinue(buffer[n..], more);
      }
    } else {
      DrainNothing(buffer);
    }
  }

  /** Text frames decided by a prefix of the stream stay decided. */
  lemma {:induction false} AllTextGrows(stream: Bytes, more: Bytes)
    ensures AllText(stream) <= AllText(stream + more)
    decreases |stream|
  {
    hide FrameAt;
    if FrameAt(stream).Frame? {
      var n := FrameAt(stream).bytesRead;
      FrameIsStable(stream, more);
      assert (stream + more)[n..] == stream[n..] + more;
      TakeFrame(stream);
      TakeFrame(stream + more);
      AllTextGrows(stream[n..], more);
    }
  }

  lemma {:induction false} TextAfterCloseIsSuffix(stream: Bytes)
    ensures |TextAfterClose(stream)| <= |AllText(stream)|
    decreases |stream|
  {
    hide FrameAt;
    if FrameAt(stream).Frame? {
      TextAfterCloseIsSuffix(stream[FrameAt(stream).bytesRead..]);
    }
  }

  /** Nothing is lost or reordered: the delivered payloads and those still in the buffer make up
      the stream's text, for every split into chunks. */
  lemma {:induction false} Conservation(buffer: Bytes, chunks: seq<Bytes>)
    ensures var (delivered, last) := Feed(buffer, chunks);
            delivered + AllText(last) == AllText(buffer + Concat(chunks))
    decreases |chunks|
  {
    hide AllText, Drain, TextAfterClose;
    if chunks == [] {
      assert buffer + [] == buffer;
    } else {
      var d, texts := Drain(buffer + chunks[0]), Feed(Drain(buffer + chunks[0]).rest, chunks[1..]);
      var more := Concat(chunks[1..]);
      assert buffer + Concat(chunks) == (buffer + chunks[0]) + more;
      DrainThenContinue(buffer + chunks[0], more);
      Conservation(d.rest, chunks[1..]);
      assert (d.delivered + texts.0) + AllText(texts.1) == d.delivered + (texts.0 + AllText(texts.1));
    }
  }

  /** Without text behind a close frame no complete text frame is ever left in the buffer. */
  lemma {:induction false} NothingLeftOver(buffer: Bytes, chunks: seq<Bytes>)
    requires TextAfterClose(buffer + Concat(chunks)) == [] && AllText(buffer) == []
    ensures AllText(Feed(buffer, chunks).1) == []
    decreases |chunks|
  {
    if chunks != [] {
      hide FrameAt, Drain, AllText, TextAfterClose, Concat;
      var d := Drain(buffer + chunks[0]);
      var more := Concat(chunks[1..]);
      ConcatFirst(buffer, chunks);
      NothingLeftByDrain(buffer + chunks[0], more);
      NothingLeftOver(d.rest, chunks[1..]);
    }
  }

  lemma ConcatFirst(buffer: Bytes, chunks: seq<Bytes>)
    requires chunks != []
    ensures buffer + Concat(chunks) == (buffer + chunks[0]) + Concat(chunks[1..])
  {
  }

  lemma NothingLeftByDrain(buffer: Bytes, more: Bytes)
    requires TextAfterClose(buffer + more) == []
    ensures var d := Drain(buffer); TextAfterClose(d.rest + more) == [] && AllText(d.rest) == []
  {
    hide FrameAt, Drain, AllText, TextAfterClose;
    var d := Drain(buffer);
    DrainThenContinue(buffer, more);
    if d.stop == Closed {
      AllTextGrows(d.rest, more);
      TextAfterCloseIsSuffix(d.rest + more);
    } else {
      LeftoverHasNoText(buffer);
    }
  }

  lemma LeftoverHasNoText(buffer: Bytes)
    requires Drain(buffer).stop != Closed
    ensures AllText(Drain(buffer).rest) == []
  {
    hide FrameAt;
  }

  /** The split that hands over one frame at a time. */
  function FrameByFrame(stream: Bytes): (chunks: seq<Bytes>)
    ensures Concat(chunks) == stream
    decreases |stream|
  {
    if FrameAt(stream).Frame? then
      var n := FrameAt(stream).bytesRead;
      assert stream == stream[..n] + stream[n..];
      [stream[..n]] + FrameByFrame(stream[n..])
    else
      assert [stream][1..] == [];
      [stream]
  }

  lemma {:induction false} FrameByFrameDeliversAll(stream: Bytes)
    ensures Feed([], FrameByFrame(stream)).0 == AllText(stream)
    decreases |stream|
  {
    if FrameAt(stream).Frame? {
      var n := FrameAt(stream).bytesRead;
      var own := stream[..n];
      FrameNeedsItsBytes(stream);
      assert FrameAt([]) == Incomplete;
      assert FrameByFrame(stream)[1..] == FrameByFrame(stream[n..]);
      hide FrameAt;
      assert [] + own == own && own[n..] == [];
      assert Drain([]) == Drained([], [], Waiting);
      assert Drain(own).rest == [] && Drain(own).delivered == if FrameAt(own).opcode == TEXT then [FrameAt(own).payload]
          else [];
      FrameByFrameDeliversAll(stream[n..]);
    } else {
      assert FrameByFrame(stream) == [stream] && [stream][1..] == [];
      assert [] + stream == stream;
      hide FrameAt;
    }
  }

  ghost predicate SplitIndependent(stream: Bytes) {
    forall one, other :: Concat(one) == stream && Concat(other) == stream ==> Feed([], one).0 == Feed([], other).0
  }

  /** The delivered payloads are the same for every split exactly when no text frame follows a
      close frame: the loop leaves such frames in the buffer until the next `data` event. */
  lemma SplitIndependence(stream: Bytes)
    ensures SplitIndependent(stream) <==> TextAfterClose(stream) == []
    ensures TextAfterClose(stream) == [] ==>
              forall chunks :: Concat(chunks) == stream ==> Feed([], chunks).0 == AllText(stream)
  {
    assert FrameAt([]) == Incomplete && [] + stream == stream;
    hide FrameAt;
    if TextAfterClose(stream) == [] {
      forall chunks | Concat(chunks) == stream ensures Feed([], chunks).0 == AllText(stream) {
        Conservation([], chunks);
        NothingLeftOver([], chunks);
      }
    } else {
      var one, other := [stream], FrameByFrame(stream);
      assert one[1..] == [] && Concat(one) == stream;
      FrameByFrameDeliversAll(stream);
      DrainThenContinue(stream, []);
      var d := Drain(stream);
      assert stream + [] == stream && d.rest + [] == d.rest;
      assert Feed([], one).0 == d.delivered;
      if d.stop != Closed {
        assert false;
      }
    }
  }

  /** A stream of well-formed frames, each the encoding of what its sender put in. */
  datatype Sent = Sent(flags: nat, opcode: nat, extended: nat, mask: Bytes, payload: Bytes)

  ghost predicate WellFormed(sent: Sent) {
    sent.flags < 16 && sent.opcode < 16 && |sent.mask| in {0, 4} && LengthFits(sent.extended, |sent.payload|) &&
    |sent.payload| <= MAX_SAFE_INTEGER
  }

  ghost function Wire(f: Sent): Bytes
    requires WellFormed(f)
  {
    Encode(f.flags, f.opcode, f.extended, f.mask, f.payload)
  }

  ghost function OnTheWire(frames: seq<Sent>): Bytes
    requires forall f :: f in frames ==> WellFormed(f)
  {
    if frames == [] then []
    else
      assert WellFormed(frames[0]);
      Wire(frames[0]) + OnTheWire(frames[1..])
  }

  /** A text frame has opcode 1 in section 5.2. */
  ghost function OwnText(f: Sent): seq<Bytes> {
    if f.opcode == 1 then [f.payload] else []
  }

  /** The payloads of the text frames. */
  ghost function TextPayloads(frames: seq<Sent>): seq<Bytes> {
    if frames == [] then []
    else OwnText(frames[0]) + TextPayloads(frames[1..])
  }

  /** The frames in front of the first close frame: opcode 8 in section 5.2. */
  ghost function BeforeClose(frames: seq<Sent>): (n: nat)
    ensures n <= |frames| && (n < |frames| ==> frames[n].opcode == 8)
    ensures forall i :: 0 <= i < n ==> frames[i].opcode != 8
  {
    if frames == [] || frames[0].opcode == 8 then 0
    else
      var n := 1 + BeforeClose(frames[1..]);
      assert forall i :: 0 < i < |frames| ==> frames[i] == frames[1..][i - 1];
      n
  }

  lemma WireReadBack(f: Sent, rest: Bytes)
    requires WellFormed(f)
    ensures FrameAt(Wire(f) + rest) == Frame(f.opcode, f.payload, |Wire(f)|)
    ensures (Wire(f) + rest)[|Wire(f)|..] == rest
  {
    ReadBack(f.flags, f.opcode, f.extended, f.mask, f.payload, rest);
  }

  /** The handler receives exactly the text payloads the client sent, in order, however the
      network cuts the bytes, when the client sends no close frame. */
  lemma {:induction false} SentTextIsDelivered(frames: seq<Sent>)
    requires forall f :: f in frames ==> WellFormed(f)
    ensures AllText(OnTheWire(frames)) == TextPayloads(frames)
    ensures (forall f :: f in frames ==> f.opcode != 8) ==> TextAfterClose(OnTheWire(frames)) == []
    decreases |frames|
  {
    if frames == [] {
      assert FrameAt([]) == Incomplete;
    } else {
      var f := frames[0];
      assert f in frames;
      WireReadBack(f, OnTheWire(frames[1..]));
      hide Wire, FrameAt;
      SentTextIsDelivered(frames[1..]);
    }
  }

  lemma Delivery(frames: seq<Sent>, chunks: seq<Bytes>)
    requires forall f :: f in frames ==> WellFormed(f) && f.opcode != 8
    requires Concat(chunks) == OnTheWire(frames)
    ensures Feed([], chunks).0 == TextPayloads(frames)
  {
    SentTextIsDelivered(frames);
    SplitIndependence(OnTheWire(frames));
  }

  /** One run of the loop over frames that have all arrived delivers the text in front of the first
      close frame and stops behind it; without one it takes them all and waits. */
  lemma {:induction false} CloseStops(frames: seq<Sent>)
    requires forall f :: f in frames ==> WellFormed(f)
    ensures var n := BeforeClose(frames);
            Drain(OnTheWire(frames))
            == if n < |frames| then Drained(TextPayloads(frames[..n]), OnTheWire(frames[n + 1..]), Closed)
               else Drained(TextPayloads(frames), [], Waiting)
    decreases |frames|
  {
    if frames == [] {
      assert FrameAt([]) == Incomplete;
    } else {
      var f, n := frames[0], BeforeClose(frames);
      assert f in frames;
      DrainWire(f, OnTheWire(frames[1..]));
      hide Wire, FrameAt, Drain, TextPayloads, BeforeClose, OwnText;
      CloseFirst(frames);
      if f.opcode == 8 {
        NoText(frames);
      } else {
        CloseStops(frames[1..]);
        TextFirst(frames);
        TextOfPrefix(frames, if n == 0 then 1 else n);
        assert n < |frames| ==> frames[n + 1..] == frames[1..][n..];
      }
    }
  }

  lemma DrainWire(f: Sent, rest: Bytes)
    requires WellFormed(f)
    ensures var next := Drain(rest);
            Drain(Wire(f) + rest)
            == if f.opcode == 8 then Drained([], rest, Closed)
               else next.(delivered := OwnText(f) + next.delivered)
  {
    hide Wire, FrameAt, Drain;
    WireReadBack(f, rest);
    DrainFrame(Wire(f) + rest);
  }

  lemma NoText(frames: seq<Sent>)
    ensures TextPayloads(frames[..0]) == []
  {
  }

  lemma CloseFirst(frames: seq<Sent>)
    requires frames != []
    ensures BeforeClose(frames) == if frames[0].opcode == 8 then 0 else 1 + BeforeClose(frames[1..])
  {
  }

  lemma TextFirst(frames: seq<Sent>)
    requires frames != []
    ensures TextPayloads(frames) == OwnText(frames[0]) + TextPayloads(frames[1..])
  {
  }

  lemma TextOfPrefix(frames: seq<Sent>, n: nat)
    requires 0 < n <= |frames|
    ensures TextPayloads(frames[..n]) == OwnText(frames[0]) + TextPayloads(frames[1..][..n - 1])
  {
    hide TextPayloads, OwnText;
    TextFirst(frames[..n]);
    assert frames[..n][1..] == frames[1..][..n - 1];
  }

  /** A frame is not taken before its last byte has arrived. */
  lemma PartialFrameWaits(f: Sent, k: nat)
    requires WellFormed(f) && k < |Wire(f)|
    ensures FrameAt(Wire(f)[..k]) == Incomplete
  {
    var part, rest := Wire(f)[..k], Wire(f)[k..];
    WireReadBack(f, []);
    assert Wire(f) + [] == Wire(f) == part + rest;
    hide Wire, FrameAt;
    if !FrameAt(part).Incomplete? {
      FrameIsStable(part, rest);
    }
  }
}
