// The frame codec of gui/server/websocket.ts, after sections 5.2 and 5.3 of RFC 6455.
module WebSocketFrames {

  type byte = bv8

  type Bytes = seq<byte>

  const MAX_SAFE_INTEGER: int := 0x1F_FFFF_FFFF_FFFF

  datatype ReadResult =
    | Incomplete                                    // `null`: wait for more bytes
    | TooLarge                                      // the thrown "Frame too large"
    | Frame(opcode: int, payload: Bytes, bytesRead: nat)

  /** The payload with the mask applied octet by octet, section 5.3. */
  function Masked(payload: Bytes, mask: Bytes): (r: Bytes)
    requires |mask| == 4
    ensures |r| == |payload|
  {
    seq(|payload|, i requires 0 <= i < |payload| => payload[i] ^ mask[i % 4])
  }

  lemma XorTwice(a: byte, m: byte)
    ensures (a ^ m) ^ m == a
  {
  }

  lemma MaskTwice(payload: Bytes, mask: Bytes)
    requires |mask| == 4
    ensures Masked(Masked(payload, mask), mask) == payload
  {
    forall i | 0 <= i < |payload| ensures Masked(Masked(payload, mask), mask)[i] == payload[i] {
      XorTwice(payload[i], mask[i % 4]);
    }
  }

  /** Network byte order, most significant octet first. */
  function BigEndian(bytes: Bytes): (n: nat) {
    if bytes == [] then 0 else 256 * BigEndian(bytes[..|bytes| - 1]) + bytes[|bytes| - 1] as int
  }

  function ToBigEndian(n: nat, width: nat): (bytes: Bytes)
    ensures |bytes| == width
  {
    if width == 0 then [] else ToBigEndian(n / 256, width - 1) + [(n % 256) as byte]
  }

  function Pow256(width: nat): (p: nat)
    ensures p > 0
  {
    if width == 0 then 1 else 256 * Pow256(width - 1)
  }

  lemma {:induction false} BigEndianRoundTrip(n: nat, width: nat)
    requires n < Pow256(width)
    ensures BigEndian(ToBigEndian(n, width)) == n
  {
    if width > 0 {
      var bytes := ToBigEndian(n, width);
      assert bytes[..width - 1] == ToBigEndian(n / 256, width - 1);
      BigEndianRoundTrip(n / 256, width - 1);
      OctetRoundTrip(n % 256);
    }
  }

  // ---------------------------------------------------------------- reading one frame

  function Opcode(octet: byte): nat {
    (octet & 0x0F) as int
  }

  function LengthBits(octet: byte): nat {
    (octet & 0x7F) as int
  }

  predicate MaskBit(octet: byte) {
    octet & 0x80 != 0
  }

  /** The octets in front of the payload: two, the extended length, and the masking key. */
  datatype Header = ShortHeader | HugeHeader | Header(opcode: nat, masked: bool, length: nat, offset: nat)

  function ReadHeader(buffer: Bytes): (h: Header)
    ensures h.Header? ==> 2 <= h.offset <= 10 && h.offset <= |buffer|
  {
    if |buffer| < 2 then ShortHeader
    else
      var length := LengthBits(buffer[1]);
      if length == 126 then
        if |buffer| < 4 then ShortHeader
        else Header(Opcode(buffer[0]), MaskBit(buffer[1]), BigEndian(buffer[2..4]), 4)
      else if length == 127 then
        if |buffer| < 10 then ShortHeader
        else if BigEndian(buffer[2..10]) > MAX_SAFE_INTEGER then HugeHeader
        else Header(Opcode(buffer[0]), MaskBit(buffer[1]), BigEndian(buffer[2..10]), 10)
      else Header(Opcode(buffer[0]), MaskBit(buffer[1]), length, 2)
  }

  /** What `readFrame` makes of a buffer. */
  function FrameAt(buffer: Bytes): (r: ReadResult)
    ensures r.Frame? ==> 2 <= r.bytesRead <= |buffer|
  {
    match ReadHeader(buffer)
    case ShortHeader => Incomplete
    case HugeHeader => TooLarge
    case Header(opcode, masked, length, offset) =>
      var start := if masked then offset + 4 else offset;
      if |buffer| < start + length then Incomplete
      else
        var raw := buffer[start..start + length];
        Frame(opcode, if masked then Masked(raw, buffer[offset..offset + 4]) else raw, start + length)
  }

  method Unmask(payload: array<byte>, mask: Bytes)
    requires |mask| == 4
    modifies payload
    ensures payload[..] == Masked(old(payload[..]), mask)
  {
    var i := 0;
    while i < payload.Length
      invariant 0 <= i <= payload.Length
      invariant forall j :: 0 <= j < i ==> payload[j] == old(payload[j]) ^ mask[j % 4]
      invariant forall j :: i <= j < payload.Length ==> payload[j] == old(payload[j])
    {
      payload[i] := payload[i] ^ mask[i % 4];
      i := i + 1;
    }
  }

  method ReadFrame(buffer: Bytes) returns (r: ReadResult)
    ensures r == FrameAt(buffer)
  {
    hide BigEndian, Opcode, LengthBits, MaskBit, Masked;
    if |buffer| < 2 {
      return Incomplete;
    }
    var opcode := Opcode(buffer[0]);
    var length := LengthBits(buffer[1]);
    var offset := 2;
    if length == 126 {
      if |buffer| < offset + 2 {
        return Incomplete;
      }
      length := BigEndian(buffer[offset..offset + 2]);
      offset := offset + 2;
    } else if length == 127 {
      if |buffer| < offset + 8 {
        return Incomplete;
      }
      var big := BigEndian(buffer[offset..offset + 8]);
      if big > MAX_SAFE_INTEGER {
        return TooLarge;
      }
      length := big;
      offset := offset + 8;
    }
    var masked := MaskBit(buffer[1]);
    var mask := if masked && offset + 4 <= |buffer| then buffer[offset..offset + 4] else [];
    if masked {
      offset := offset + 4;
    }
    if |buffer| < offset + length {
      return Incomplete;
    }
    var payload := new byte[length](i requires 0 <= i < length => buffer[offset + i]);
    assert payload[..] == buffer[offset..offset + length];
    if masked {
      Unmask(payload, mask);
    }
    return Frame(opcode, payload[..], offset + length);
  }

  // ---------------------------------------------------------------- writing one frame

  /** The first octet of section 5.2: the final and reserved bits, then four bits of opcode. */
  function FirstOctet(flags: nat, opcode: nat): byte
    requires flags < 16 && opcode < 16
  {
    (16 * flags + opcode) as byte
  }

  /** The second octet: the mask bit and seven bits of length. */
  function LengthOctet(masked: bool, length: nat): byte
    requires length < 128
  {
    ((if masked then 128 else 0) + length) as byte
  }

  lemma LowBits(b: byte)
    ensures Opcode(b) == b as int % 16
    ensures LengthBits(b) == b as int % 128
    ensures MaskBit(b) <==> b as int >= 128
  {
  }

  lemma OctetValues(flags: nat, opcode: nat, masked: bool, length: nat)
    requires flags < 16 && opcode < 16 && length < 128
    ensures FirstOctet(flags, opcode) as int == 16 * flags + opcode
    ensures LengthOctet(masked, length) as int == (if masked then 128 else 0) + length
  {
    OctetRoundTrip(16 * flags + opcode);
    OctetRoundTrip((if masked then 128 else 0) + length);
  }

  lemma LowNibble(high: nat, low: nat)
    requires low < 16
    ensures (16 * high + low) % 16 == low
  {
  }

  lemma LengthOctetBits(masked: bool, length: nat)
    requires length < 128
    ensures LengthBits(LengthOctet(masked, length)) == length
    ensures MaskBit(LengthOctet(masked, length)) == masked
  {
    hide LengthOctet, LengthBits, MaskBit;
    OctetValues(0, 0, masked, length);
    LowBits(LengthOctet(masked, length));
  }

  /** Whatever the other bits, the opcode is the one sent. */
  lemma OpcodeReadBack(flags: nat, opcode: nat)
    requires flags < 16 && opcode < 16
    ensures Opcode(FirstOctet(flags, opcode)) == opcode
  {
    hide FirstOctet, Opcode;
    OctetValues(flags, opcode, false, 0);
    LowBits(FirstOctet(flags, opcode));
    LowNibble(flags, opcode);
  }

  lemma OctetRoundTrip(n: nat)
    requires n < 256
    ensures (n as byte) as int == n
  {
    var x := OctetOf(n);
    OctetAsByte(x);
  }

  lemma OctetAsByte(x: byte)
    ensures (x as int) as byte == x
  {
  }

  lemma {:induction false} OctetOf(n: nat) returns (x: byte)
    requires n < 256
    ensures x as int == n
  {
    if n == 0 {
      x := 0;
    } else {
      var y := OctetOf(n - 1);
      NextOctet(y);
      x := y + 1;
    }
  }

  lemma NextOctet(y: byte)
    requires y as int < 255
    ensures (y + 1) as int == y as int + 1
  {
  }

  /** The frame format of section 5.2: flags and opcode, mask bit and length, masking key, payload. */
  function Encode(flags: nat, opcode: nat, extended: nat, mask: Bytes, payload: Bytes): Bytes
    requires flags < 16 && opcode < 16 && |mask| in {0, 4} && LengthFits(extended, |payload|)
  {
    [FirstOctet(flags, opcode), LengthOctet(|mask| == 4, FirstLength(extended, |payload|))]
    + ToBigEndian(|payload|, extended)
    + mask
    + (if |mask| == 4 then Masked(payload, mask) else payload)
  }

  /** A length field that can hold the payload length; section 5.2 asks senders for the shortest. */
  predicate LengthFits(extended: nat, length: nat) {
    (extended == 0 && length < 126) || (extended == 2 && length < 0x1_0000) ||
      (extended == 8 && length < 0x1_0000_0000_0000_0000)
  }

  function Shortest(length: nat): nat {
    if length < 126 then 0 else if length <= 65535 then 2 else 8
  }

  /** `writeUInt16BE` and `writeBigUInt64BE`: the last octets first, each the remainder of 256. */
  method WriteBigEndian(header: array<byte>, n: nat, offset: nat)
    requires offset <= header.Length && n < Pow256(header.Length - offset)
    modifies header
    ensures header[..] == old(header[..offset]) + ToBigEndian(n, header.Length - offset)
  {
    var i := header.Length;
    var rest: nat := n;
    while i > offset
      invariant offset <= i <= header.Length
      invariant rest < Pow256(i - offset)
      invariant header[..offset] == old(header[..offset])
      invariant ToBigEndian(n, header.Length - offset) == ToBigEndian(rest, i - offset) + header[i..]
    {
      i := i - 1;
      header[i] := (rest % 256) as byte;
      ghost var tail := header[i + 1..];
      assert header[i..] == [header[i]] + tail;
      rest := rest / 256;
    }
  }

  method WriteFrame(payload: Bytes) returns (frame: Bytes)
    requires |payload| < 0x1_0000_0000_0000_0000
    ensures frame == Encode(8, 1, Shortest(|payload|), [], payload)
  {
    PowerValues();
    TextHeader();
    hide ToBigEndian, Pow256, FirstOctet, LengthOctet;
    if |payload| < 126 {
      NoExtendedLength(|payload|);
      return [0x81, |payload| as byte] + payload;
    }
    if |payload| <= 65535 {
      var header := new byte[4](_ => 0);
      header[0] := 0x81;
      header[1] := 126;
      WriteBigEndian(header, |payload|, 2);
      return header[..] + payload;
    }
    frame := WriteLong(payload);
  }

  /** The branch with the 64-bit length. */
  method WriteLong(payload: Bytes) returns (frame: Bytes)
    requires 65535 < |payload| < 0x1_0000_0000_0000_0000
    ensures frame == Encode(8, 1, 8, [], payload)
  {
    PowerValues();
    TextHeader();
    hide ToBigEndian, Pow256, FirstOctet, LengthOctet;
    var header := new byte[10](_ => 0);
    header[0] := 0x81;
    header[1] := 127;
    WriteBigEndian(header, |payload|, 2);
    frame := header[..] + payload;
  }

  /** The two octets of an unmasked final text frame. */
  lemma TextHeader()
    ensures FirstOctet(8, 1) == 0x81 && LengthOctet(false, 126) == 126 && LengthOctet(false, 127) == 127
    ensures forall n: nat :: n < 126 ==> LengthOctet(false, n) == n as byte
  {
  }

  lemma NoExtendedLength(n: nat)
    ensures ToBigEndian(n, 0) == []
  {
  }

  lemma PowerValues()
    ensures Pow256(2) == 0x1_0000 && Pow256(8) == 0x1_0000_0000_0000_0000
  {
    assert Pow256(4) == 0x1_0000_0000;
  }

  function FirstLength(extended: nat, length: nat): nat
    requires LengthFits(extended, length)
  {
    if extended == 0 then length else if extended == 2 then 126 else 127
  }

  /** Where the parts of a frame stand in a stream that starts with it. */
  lemma Layout(flags: nat, opcode: nat, extended: nat, mask: Bytes, payload: Bytes, rest: Bytes)
    requires flags < 16 && opcode < 16 && |mask| in {0, 4} && LengthFits(extended, |payload|)
    ensures var buffer := Encode(flags, opcode, extended, mask, payload) + rest;
            var key := 2 + extended; var start := key + |mask|;
            |buffer| == start + |payload| + |rest| &&
            buffer[0] == FirstOctet(flags, opcode) &&
            buffer[1] == LengthOctet(|mask| == 4, FirstLength(extended, |payload|)) &&
            buffer[2..key] == ToBigEndian(|payload|, extended) &&
            buffer[key..start] == mask &&
            buffer[start..start + |payload|] == if |mask| == 4 then Masked(payload, mask) else payload
  {
    hide FirstOctet, LengthOctet, ToBigEndian, Masked;
  }

  /** The header of a written frame is read back field by field. */
  lemma HeaderReadBack(flags: nat, opcode: nat, extended: nat, mask: Bytes, payload: Bytes, rest: Bytes)
    requires flags < 16 && opcode < 16 && |mask| in {0, 4} && LengthFits(extended, |payload|)
    ensures ReadHeader(Encode(flags, opcode, extended, mask, payload) + rest)
            == if |payload| > MAX_SAFE_INTEGER then HugeHeader
               else Header(opcode, |mask| == 4, |payload|, 2 + extended)
  {
    hide Encode, FirstOctet, LengthOctet, LengthBits, MaskBit, Opcode, BigEndian, ToBigEndian, Pow256, Masked;
    Layout(flags, opcode, extended, mask, payload, rest);
    OpcodeReadBack(flags, opcode);
    LengthOctetBits(|mask| == 4, FirstLength(extended, |payload|));
    if extended != 0 {
      PowerValues();
      BigEndianRoundTrip(|payload|, extended);
    }
  }

  /** A frame of the format, read from the front of a stream, gives back what its sender put in. */
  lemma ReadBack(flags: nat, opcode: nat, extended: nat, mask: Bytes, payload: Bytes, rest: Bytes)
    requires flags < 16 && opcode < 16 && |mask| in {0, 4} && LengthFits(extended, |payload|)
    ensures var frame := Encode(flags, opcode, extended, mask, payload);
            FrameAt(frame + rest)
            == if |payload| > MAX_SAFE_INTEGER then TooLarge
               else Frame(opcode, payload, |frame|)
  {
    hide ReadHeader, Encode, FirstOctet, LengthOctet, Opcode, ToBigEndian, Masked, FrameAt;
    HeaderReadBack(flags, opcode, extended, mask, payload, rest);
    Layout(flags, opcode, extended, mask, payload, rest);
    EncodeLength(flags, opcode, extended, mask, payload);
    if |mask| == 4 {
      MaskTwice(payload, mask);
    }
    FrameFollowsHeader(Encode(flags, opcode, extended, mask, payload) + rest);
  }

  lemma EncodeLength(flags: nat, opcode: nat, extended: nat, mask: Bytes, payload: Bytes)
    requires flags < 16 && opcode < 16 && |mask| in {0, 4} && LengthFits(extended, |payload|)
    ensures |Encode(flags, opcode, extended, mask, payload)| == 2 + extended + |mask| + |payload|
  {
    hide FirstOctet, LengthOctet, ToBigEndian, Masked;
  }

  lemma FrameFollowsHeader(buffer: Bytes)
    ensures ReadHeader(buffer).HugeHeader? ==> FrameAt(buffer) == TooLarge
    ensures var h := ReadHeader(buffer);
            h.Header? && !h.masked && h.offset + h.length <= |buffer| ==>
              FrameAt(buffer) == Frame(h.opcode, buffer[h.offset..h.offset + h.length], h.offset + h.length)
    ensures var h := ReadHeader(buffer);
            h.Header? && h.masked && h.offset + 4 + h.length <= |buffer| ==>
              var start := h.offset + 4;
              FrameAt(buffer)
              == Frame(h.opcode, Masked(buffer[start..start + h.length], buffer[h.offset..start]), start + h.length)
  {
    hide ReadHeader, Masked;
  }

  /** `readFrame(writeFrame(p) + rest)`: the payload and its exact byte count, up to the size limit. */
  lemma WriteThenRead(payload: Bytes, rest: Bytes)
    requires |payload| < 0x1_0000_0000_0000_0000
    ensures var frame := Encode(8, 1, Shortest(|payload|), [], payload);
            FrameAt(frame + rest)
            == if |payload| > MAX_SAFE_INTEGER then TooLarge else Frame(1, payload, |frame|)
  {
    ReadBack(8, 1, Shortest(|payload|), [], payload, rest);
  }

  // ---------------------------------------------------------------- known frames

  /** The most significant octet comes first. */
  lemma {:induction false} FirstIsMostSignificant(a: byte, rest: Bytes)
    ensures BigEndian([a] + rest) == a as int * Pow256(|rest|) + BigEndian(rest)
    decreases |rest|
  {
    var all := [a] + rest;
    if rest == [] {
      assert all[..|all| - 1] == [];
    } else {
      var front := rest[..|rest| - 1];
      assert all[..|all| - 1] == [a] + front;
      FirstIsMostSignificant(a, front);
      Distribute(a as int, Pow256(|front|), BigEndian(front));
    }
  }

  lemma Distribute(a: int, p: int, n: int)
    ensures 256 * (a * p + n) == a * (256 * p) + 256 * n
  {
  }

  /** The largest length is the largest integer that a double holds with all smaller ones. */
  lemma SizeLimit()
    ensures MAX_SAFE_INTEGER == 32 * Pow256(6) - 1
  {
    assert Pow256(3) == 0x100_0000;
    assert Pow256(6) == 0x1_0000_0000_0000;
  }

  const HELLO: Bytes := [0x48, 0x65, 0x6C, 0x6C, 0x6F]

  /** The examples of section 5.7: a text in one frame, unmasked and masked, and a ping. */
  lemma KnownFrames()
    ensures FrameAt([0x81, 0x05, 0x48, 0x65, 0x6C, 0x6C, 0x6F]) == Frame(1, HELLO, 7)
    ensures FrameAt([0x81, 0x85, 0x37, 0xFA, 0x21, 0x3D, 0x7F, 0x9F, 0x4D, 0x51, 0x58]) == Frame(1, HELLO, 11)
    ensures FrameAt([0x89, 0x05, 0x48, 0x65, 0x6C, 0x6C, 0x6F]) == Frame(9, HELLO, 7)
    ensures FrameAt([0x88, 0x00]) == Frame(8, [], 2)
  {
    KnownOctets();
    hide Opcode, LengthBits, MaskBit, Masked;
    KnownMask();
    var plain: Bytes := [0x81, 0x05, 0x48, 0x65, 0x6C, 0x6C, 0x6F];
    var masked: Bytes := [0x81, 0x85, 0x37, 0xFA, 0x21, 0x3D, 0x7F, 0x9F, 0x4D, 0x51, 0x58];
    var ping: Bytes := [0x89, 0x05, 0x48, 0x65, 0x6C, 0x6C, 0x6F];
    assert plain[2..7] == HELLO && ping[2..7] == HELLO;
    assert masked[2..6] == [0x37, 0xFA, 0x21, 0x3D] && masked[6..11] == [0x7F, 0x9F, 0x4D, 0x51, 0x58];
    var close: Bytes := [0x88, 0x00];
    assert close[2..2] == [];
  }

  lemma KnownOctets()
    ensures Opcode(0x81) == 1 && Opcode(0x88) == 8 && Opcode(0x89) == 9
    ensures LengthBits(0x05) == 5 == LengthBits(0x85) && LengthBits(0x00) == 0
    ensures MaskBit(0x85) && !MaskBit(0x05) && !MaskBit(0x00)
  {
  }

  lemma KnownMask()
    ensures Masked([0x7F, 0x9F, 0x4D, 0x51, 0x58], [0x37, 0xFA, 0x21, 0x3D]) == HELLO
  {
  }
}
