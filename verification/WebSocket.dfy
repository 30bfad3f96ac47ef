/** WebSocket framing over a stream that arrives in arbitrary chunks (RFC 6455 sections 5.2 and 5.3). */
module WebSocket {
  import opened Octets
  import opened Wrappers

  // Numbers in network byte order.

  function Pow256(k: nat): (p: nat)
    ensures p > 0
  {
    if k == 0 then 1 else 256 * Pow256(k - 1)
  }

  function Encoded(n: nat, width: nat): (bs: Bytes)
    ensures |bs| == width
  {
    if width == 0 then [] else Encoded(n / 256, width - 1) + [(n % 256) as bv8]
  }

  function Decoded(bs: Bytes): nat {
    if bs == [] then 0 else 256 * Decoded(bs[..|bs| - 1]) + bs[|bs| - 1] as nat
  }

  lemma {:induction false} EncodedRoundTrip(n: nat, width: nat)
    requires n < Pow256(width)
    ensures Decoded(Encoded(n, width)) == n
  {
    if width > 0 {
      var bs := Encoded(n, width);
      assert bs[..width - 1] == Encoded(n / 256, width - 1);
      EncodedRoundTrip(n / 256, width - 1);
      OctetRoundTrip(n % 256);
    }
  }

  lemma {:induction false} DecodedBound(bs: Bytes)
    ensures Decoded(bs) < Pow256(|bs|)
  {
    if bs != [] { DecodedBound(bs[..|bs| - 1]); }
  }

  lemma Pow256Values()
    ensures Pow256(2) == 0x1_0000 && Pow256(8) == 0x1_0000_0000_0000_0000
  {
    assert Pow256(1) == 256;
    assert Pow256(4) == 0x1_0000_0000;
    assert Pow256(6) == 0x1_0000_0000_0000;
  }

  // Frames.

  const MAX_LENGTH: nat := 0x1_0000_0000_0000_0000

  /** The seven-bit length and the bytes that extend it. */
  function LengthCode(n: nat): nat { if n < 126 then n else if n < 65536 then 126 else 127 }

  function ExtensionWidth(code: nat): nat { if code == 126 then 2 else if code == 127 then 8 else 0 }

  function Extension(n: nat): Bytes { Encoded(n, ExtensionWidth(LengthCode(n))) }

  function SecondByte(masked: bool, code: nat): bv8
    requires code < 128
  {
    if masked then (code as bv8) | 0x80 else (code as bv8)
  }

  function Header(first: bv8, masked: bool, n: nat): Bytes
    requires n < MAX_LENGTH
  {
    [first, SecondByte(masked, LengthCode(n))] + Extension(n)
  }

  /** Masking and unmasking are the same operation. */
  function Masked(data: Bytes, mask: Bytes): (r: Bytes)
    requires |mask| == 4
    ensures |r| == |data|
  {
    seq(|data|, i requires 0 <= i < |data| => data[i] ^ mask[i % 4])
  }

  /** What a client sends: any first byte, the same length ladder, a mask. */
  function ClientFrame(first: bv8, payload: Bytes, mask: Bytes): Bytes
    requires |payload| < MAX_LENGTH && |mask| == 4
  {
    Header(first, true, |payload|) + mask + Masked(payload, mask)
  }

  /** What `_ws_send` writes. */
  function ServerFrame(payload: Bytes): Bytes
    requires |payload| < MAX_LENGTH
  {
    Header(0x81, false, |payload|) + payload
  }

  function Opcode(first: bv8): bv8 { first & 0x0F }

  function CodeOf(second: bv8): nat { (second & 0x7F) as nat }

  // What `_ws_recv` makes of a stream: the message, if any, and what is left unread.

  function ReceivedBody(rest: Bytes, length: nat): (Option<Bytes>, Bytes) {
    if |rest| < 4 then (None, [])
    else if |rest| - 4 < length then (None, [])
    else (Some(Masked(rest[4..4 + length], rest[..4])), rest[4 + length..])
  }

  function Received(stream: Bytes): (Option<Bytes>, Bytes) {
    if |stream| < 2 then (None, [])
    else if Opcode(stream[0]) == 8 then (None, stream[2..])
    else
      var code := CodeOf(stream[1]);
      var width := ExtensionWidth(code);
      if |stream| - 2 < width then (None, [])
      else ReceivedBody(stream[2 + width..], if width == 0 then code else Decoded(stream[2..2 + width]))
  }

  /** A connected socket: the bytes still to come, and how the network cuts them up. */
  class Socket {
    var unread: Bytes
    var written: Bytes
    var calls: nat
    const cut: nat -> nat

    constructor (data: Bytes, cut: nat -> nat)
      ensures unread == data && written == [] && this.cut == cut
    {
      unread, written, calls, this.cut := data, [], 0, cut;
    }

    /** At least one byte and at most `n` while there are any; nothing at the end of the stream. */
    method Recv(n: nat) returns (chunk: Bytes)
      requires n > 0
      modifies this`unread, this`calls
      ensures |chunk| <= n && old(unread) == chunk + unread
      ensures chunk == [] <==> old(unread) == []
    {
      if unread == [] { return []; }
      var most := if |unread| < n then |unread| else n;
      var size := 1 + cut(calls) % most;
      chunk, unread := unread[..size], unread[size..];
      calls := calls + 1;
    }

    method SendAll(data: Bytes)
      modifies this`written
      ensures written == old(written) + data
    {
      written := written + data;
    }
  }

  /** `_recv_exact`: exactly the next bytes, however they were cut; None and an empty stream otherwise. */
  method RecvExact(sock: Socket, length: nat) returns (r: Option<Bytes>)
    modifies sock`unread, sock`calls
    ensures length <= |old(sock.unread)| ==>
              r == Some(old(sock.unread)[..length]) && sock.unread == old(sock.unread)[length..]
    ensures length > |old(sock.unread)| ==> r == None && sock.unread == []
  {
    var chunks: Bytes := [];
    while |chunks| < length
      invariant |chunks| <= length && chunks + sock.unread == old(sock.unread)
    {
      var chunk := sock.Recv(length - |chunks|);
      if chunk == [] { return None; }
      chunks := chunks + chunk;
    }
    assert old(sock.unread)[..length] == chunks && old(sock.unread)[length..] == sock.unread;
    r := Some(chunks);
  }

  /** The unmasking loop, in place. */
  method Unmask(data: array<bv8>, mask: Bytes)
    requires |mask| == 4
    modifies data
    ensures data[..] == Masked(old(data[..]), mask)
  {
    for i := 0 to data.Length
      invariant forall j :: 0 <= j < i ==> data[j] == old(data[j]) ^ mask[j % 4]
      invariant forall j :: i <= j < data.Length ==> data[j] == old(data[j])
    {
      data[i] := data[i] ^ mask[i % 4];
    }
  }

  /** The mask and the payload of a frame. */
  method RecvBody(sock: Socket, length: nat) returns (r: Option<Bytes>)
    modifies sock`unread, sock`calls
    ensures (r, sock.unread) == ReceivedBody(old(sock.unread), length)
  {
    ghost var rest := sock.unread;
    var mask := RecvExact(sock, 4);
    var payload := RecvExact(sock, length);
    if mask.None? || payload.None? { return None; }
    assert rest[4..][..length] == rest[4..4 + length] && rest[4..][length..] == rest[4 + length..];
    var data := new bv8[length](i requires 0 <= i < length => payload.value[i]);
    assert data[..] == payload.value;
    Unmask(data, mask.value);
    r := Some(data[..]);
  }

  /** `_ws_recv` up to decoding the text, on any chunking. */
  method WsRecv(sock: Socket) returns (r: Option<Bytes>)
    modifies sock`unread, sock`calls
    ensures (r, sock.unread) == Received(old(sock.unread))
  {
    ghost var stream := sock.unread;
    var header := RecvExact(sock, 2);
    if header.None? { return None; }
    var opcode, length := Opcode(header.value[0]), CodeOf(header.value[1]);
    if opcode == 8 { return None; }
    ghost var width := ExtensionWidth(length);
    if length == 126 {
      var extended := RecvExact(sock, 2);
      if extended.None? { return None; }
      assert extended.value == stream[2..2 + width];
      length := Decoded(extended.value);
    } else if length == 127 {
      var extended := RecvExact(sock, 8);
      if extended.None? { return None; }
      assert extended.value == stream[2..2 + width];
      length := Decoded(extended.value);
    }
    assert sock.unread == stream[2 + width..];
    r := RecvBody(sock, length);
  }

  /** `_ws_send` on encoded text. */
  method WsSend(sock: Socket, payload: Bytes)
    requires |payload| < MAX_LENGTH
    modifies sock`written
    ensures sock.written == old(sock.written) + ServerFrame(payload)
  {
    var header: Bytes;
    if |payload| < 126 {
      header := [0x81, |payload| as bv8];
    } else if |payload| < 65536 {
      header := [0x81, 126] + Encoded(|payload|, 2);
    } else {
      header := [0x81, 127] + Encoded(|payload|, 8);
    }
    assert header == Header(0x81, false, |payload|);
    sock.SendAll(header + payload);
  }

  // Round trips.

  lemma MaskTwice(data: Bytes, mask: Bytes)
    requires |mask| == 4
    ensures Masked(Masked(data, mask), mask) == data
  {
    forall i | 0 <= i < |data| ensures (data[i] ^ mask[i % 4]) ^ mask[i % 4] == data[i] {
      XorTwice(data[i], mask[i % 4]);
    }
  }

  lemma XorTwice(a: bv8, m: bv8)
    ensures (a ^ m) ^ m == a
  {
  }

  lemma CodeRoundTrip(masked: bool, code: nat)
    requires code < 128
    ensures CodeOf(SecondByte(masked, code)) == code
  {
    OctetRoundTrip(code);
    LowBits((code as bv8));
  }

  lemma LowBits(b: bv8)
    ensures b < 128 ==> b & 0x7F == b && (b | 0x80) & 0x7F == b
  {
  }

  /** The length of a frame is read back from its ladder. */
  lemma LengthRoundTrip(n: nat)
    requires n < MAX_LENGTH
    ensures var width := ExtensionWidth(LengthCode(n));
            |Extension(n)| == width && (if width == 0 then LengthCode(n) else Decoded(Extension(n))) == n
  {
    Pow256Values();
    if n >= 126 { EncodedRoundTrip(n, ExtensionWidth(LengthCode(n))); }
  }

  /** The parts of a stream that starts with a header. */
  lemma HeaderParts(first: bv8, masked: bool, n: nat, rest: Bytes)
    requires n < MAX_LENGTH && Opcode(first) != 8
    ensures Received(Header(first, masked, n) + rest) == ReceivedBody(rest, n)
  {
    var stream := Header(first, masked, n) + rest;
    CodeRoundTrip(masked, LengthCode(n));
    LengthRoundTrip(n);
    var width := ExtensionWidth(LengthCode(n));
    assert stream[0] == first && stream[1] == SecondByte(masked, LengthCode(n));
    assert stream[2..2 + width] == Extension(n) && stream[2 + width..] == rest;
  }

  /** A masked frame is decoded to its payload, and exactly that frame is consumed. */
  lemma ClientFrameDecodes(first: bv8, payload: Bytes, mask: Bytes, tail: Bytes)
    requires |payload| < MAX_LENGTH && |mask| == 4 && Opcode(first) != 8
    ensures Received(ClientFrame(first, payload, mask) + tail) == (Some(payload), tail)
  {
    var body := Masked(payload, mask);
    var rest := mask + body + tail;
    assert ClientFrame(first, payload, mask) + tail == Header(first, true, |payload|) + rest;
    HeaderParts(first, true, |payload|, rest);
    assert rest[..4] == mask && rest[4..4 + |payload|] == body && rest[4 + |payload|..] == tail;
    MaskTwice(payload, mask);
  }

  /** A frame that was cut short is never taken for a message. */
  lemma PrefixYieldsNothing(first: bv8, payload: Bytes, mask: Bytes, k: nat)
    requires |payload| < MAX_LENGTH && |mask| == 4 && k < |ClientFrame(first, payload, mask)|
    ensures Received(ClientFrame(first, payload, mask)[..k]).0 == None
  {
    var frame := ClientFrame(first, payload, mask);
    var header := Header(first, true, |payload|);
    if k >= |header| && Opcode(first) != 8 {
      var rest := (mask + Masked(payload, mask))[..k - |header|];
      assert frame == header + (mask + Masked(payload, mask));
      assert frame[..k] == header + rest;
      HeaderParts(first, true, |payload|, rest);
    } else if k >= 2 && Opcode(first) != 8 {
      CodeRoundTrip(true, LengthCode(|payload|));
      assert frame[..k][0] == first && frame[..k][1] == SecondByte(true, LengthCode(|payload|));
    }
  }

  /** One message: its first byte, payload and mask. */
  datatype Message = Message(first: bv8, payload: Bytes, mask: Bytes)

  predicate Sendable(m: Message) { |m.payload| < MAX_LENGTH && |m.mask| == 4 && Opcode(m.first) != 8 }

  predicate AllSendable(ms: seq<Message>) { forall i :: 0 <= i < |ms| ==> Sendable(ms[i]) }

  function Stream(ms: seq<Message>): Bytes
    requires AllSendable(ms)
  {
    if ms == [] then [] else ClientFrame(ms[0].first, ms[0].payload, ms[0].mask) + Stream(ms[1..])
  }

  /** Receiving `n` messages, one call after another. */
  function ReceivedAll(stream: Bytes, n: nat): (seq<Option<Bytes>>, Bytes)
    decreases n
  {
    if n == 0 then ([], stream)
    else
      var (message, rest) := Received(stream);
      var (others, left) := ReceivedAll(rest, n - 1);
      ([message] + others, left)
  }

  function Payloads(ms: seq<Message>): seq<Option<Bytes>> {
    if ms == [] then [] else [Some(ms[0].payload)] + Payloads(ms[1..])
  }

  /** A stream of messages is received message by message, in order, and then ends. */
  lemma {:induction false} StreamDecodes(ms: seq<Message>, tail: Bytes)
    requires AllSendable(ms)
    ensures ReceivedAll(Stream(ms) + tail, |ms|) == (Payloads(ms), tail)
  {
    if ms == [] {
      assert Stream(ms) + tail == tail;
    } else {
      var m := ms[0];
      var rest := Stream(ms[1..]) + tail;
      assert Sendable(m);
      assert Stream(ms) + tail == ClientFrame(m.first, m.payload, m.mask) + rest;
      ClientFrameDecodes(m.first, m.payload, m.mask, rest);
      StreamDecodes(ms[1..], tail);
    }
  }

  /** The length a header of this shape stands for; RFC 6455 section 5.2. */
  function StatedLength(code: nat, extension: Bytes): nat { if extension == [] then code else Decoded(extension) }

  predicate LegalLength(code: nat, extension: Bytes) { code < 128 && |extension| == ExtensionWidth(code) }

  /** Nothing shorter states the same length. */
  lemma LengthIsMinimal(n: nat, code: nat, extension: Bytes)
    requires n < MAX_LENGTH && LegalLength(code, extension) && StatedLength(code, extension) == n
    ensures LegalLength(LengthCode(n), Extension(n)) && StatedLength(LengthCode(n), Extension(n)) == n
    ensures |Extension(n)| <= |extension|
  {
    LengthRoundTrip(n);
    Pow256Values();
    DecodedBound(extension);
  }

  // A peer that honours the mask bit, as RFC 6455 sections 5.1 and 5.2 ask of a client.

  function PeerReceived(stream: Bytes): (Option<Bytes>, Bytes) {
    if |stream| < 2 then (None, [])
    else
      var code, masked := CodeOf(stream[1]), stream[1] & 0x80 != 0;
      var width := ExtensionWidth(code);
      if masked || |stream| - 2 < width then (None, [])
      else
        var length := if width == 0 then code else Decoded(stream[2..2 + width]);
        var rest := stream[2 + width..];
        if |rest| < length then (None, []) else (Some(rest[..length]), rest[length..])
  }

  lemma HighBit(b: bv8)
    ensures b < 128 ==> b & 0x80 == 0
  {
  }

  /** Where the second byte of a server frame stands, and what it says. */
  lemma ServerHeader(n: nat)
    requires n < MAX_LENGTH
    ensures CodeOf(SecondByte(false, LengthCode(n))) == LengthCode(n) && SecondByte(false, LengthCode(n)) & 0x80 == 0
  {
    CodeRoundTrip(false, LengthCode(n));
    OctetRoundTrip(LengthCode(n));
    HighBit(LengthCode(n) as bv8);
  }

  /** What the server sends, a client reads back as one final unmasked frame. */
  lemma ServerFrameDecodes(payload: Bytes, tail: Bytes)
    requires |payload| < MAX_LENGTH
    ensures PeerReceived(ServerFrame(payload) + tail) == (Some(payload), tail)
  {
    var n, rest := |payload|, payload + tail;
    var stream := ServerFrame(payload) + tail;
    var width := ExtensionWidth(LengthCode(n));
    ServerHeader(n);
    LengthRoundTrip(n);
    assert stream == Header(0x81, false, n) + rest;
    assert stream[1] == SecondByte(false, LengthCode(n));
    assert stream[2..2 + width] == Extension(n) && stream[2 + width..] == rest;
    assert rest[..n] == payload && rest[n..] == tail;
  }

  // The bytes themselves, as RFC 6455 sections 5.2 and 5.3 number them.

  /** Bytes `k` to `k + width - 1` as one number, the first byte the most significant. */
  predicate BigEndian(bs: Bytes, k: nat, width: nat, n: nat)
    requires width == 2 || width == 8
  {
    k + width <= |bs|
    && n == if width == 2 then 256 * bs[k] as nat + bs[k + 1] as nat
            else 0x100_0000_0000_0000 * bs[k] as nat + 0x1_0000_0000_0000 * bs[k + 1] as nat
                 + 0x100_0000_0000 * bs[k + 2] as nat + 0x1_0000_0000 * bs[k + 3] as nat
                 + 0x100_0000 * bs[k + 4] as nat + 0x1_0000 * bs[k + 5] as nat
                 + 0x100 * bs[k + 6] as nat + bs[k + 7] as nat
  }

  /** A header that states length `n` and ends before byte `h`. */
  predicate States(bs: Bytes, h: nat, n: nat) {
    |bs| >= 2
    && var code := (bs[1] & 0x7F) as nat;
       if code == 126 then h == 4 && BigEndian(bs, 2, 2, n)
       else if code == 127 then h == 10 && BigEndian(bs, 2, 8, n)
       else h == 2 && n == code
  }

  lemma DecodedLast(bs: Bytes)
    requires bs != []
    ensures Decoded(bs) == 256 * Decoded(bs[..|bs| - 1]) + bs[|bs| - 1] as nat
  {
  }

  lemma DecodedTwo(bs: Bytes)
    requires |bs| == 2
    ensures Decoded(bs) == 256 * bs[0] as nat + bs[1] as nat
  {
    DecodedLast(bs);
    DecodedLast(bs[..1]);
    assert bs[..1][..0] == [];
  }

  lemma DecodedFour(bs: Bytes)
    requires |bs| == 4
    ensures Decoded(bs) == 0x100_0000 * bs[0] as nat + 0x1_0000 * bs[1] as nat + 0x100 * bs[2] as nat + bs[3] as nat
  {
    DecodedLast(bs);
    assert bs[..3][..2] == bs[..2];
    DecodedLast(bs[..3]);
    DecodedTwo(bs[..2]);
  }

  lemma DecodedSix(bs: Bytes)
    requires |bs| == 6
    ensures Decoded(bs) == 0x100_0000_0000 * bs[0] as nat + 0x1_0000_0000 * bs[1] as nat + 0x100_0000 * bs[2] as nat
                           + 0x1_0000 * bs[3] as nat + 0x100 * bs[4] as nat + bs[5] as nat
  {
    DecodedLast(bs);
    assert bs[..5][..4] == bs[..4];
    DecodedLast(bs[..5]);
    DecodedFour(bs[..4]);
  }

  lemma DecodedEight(bs: Bytes)
    requires |bs| == 8
    ensures BigEndian(bs, 0, 8, Decoded(bs))
  {
    DecodedLast(bs);
    assert bs[..7][..6] == bs[..6];
    DecodedLast(bs[..7]);
    DecodedSix(bs[..6]);
  }

  lemma StatedIs(bs: Bytes, h: nat, n: nat)
    requires States(bs, h, n)
    ensures h == 2 + ExtensionWidth(CodeOf(bs[1])) <= |bs|
    ensures n == if h == 2 then CodeOf(bs[1]) else Decoded(bs[2..h])
  {
    if h == 4 {
      DecodedTwo(bs[2..4]);
    } else if h == 10 {
      DecodedEight(bs[2..10]);
    }
  }

  lemma HeaderStates(bs: Bytes) returns (h: nat, n: nat)
    requires |bs| >= 2 && |bs| - 2 >= ExtensionWidth(CodeOf(bs[1]))
    ensures States(bs, h, n)
  {
    h := 2 + ExtensionWidth(CodeOf(bs[1]));
    n := if h == 2 then CodeOf(bs[1]) else Decoded(bs[2..h]);
    if h == 4 {
      DecodedTwo(bs[2..4]);
    } else if h == 10 {
      DecodedEight(bs[2..10]);
    }
  }

  /** A stream whose first frame is complete and no close: `h` bytes of header, a mask, `n` bytes. */
  predicate Complete(stream: Bytes, h: nat, n: nat) {
    States(stream, h, n) && stream[0] & 0x0F != 8 && h + 4 + n <= |stream|
  }

  /**
   * A message is received exactly when the stream starts with a complete frame. Its bytes are those
   * behind the mask, each against the mask byte of its place modulo four, and what follows stays unread.
   */
  lemma ReceivedBytes(stream: Bytes)
    ensures Received(stream).0.Some? <==> exists h, n :: Complete(stream, h, n)
    ensures forall h, n | Complete(stream, h, n) ::
              var (message, rest) := Received(stream);
              message.Some? && |message.value| == n && rest == stream[h + 4 + n..]
              && forall i :: 0 <= i < n ==> message.value[i] == stream[h + 4 + i] ^ stream[h + i % 4]
  {
    forall h, n | Complete(stream, h, n)
      ensures var (message, rest) := Received(stream);
              message.Some? && |message.value| == n && rest == stream[h + 4 + n..]
              && forall i :: 0 <= i < n ==> message.value[i] == stream[h + 4 + i] ^ stream[h + i % 4]
    {
      CompleteIsReceived(stream, h, n);
    }
    if Received(stream).0.Some? {
      var h, n := HeaderStates(stream);
      StatedIs(stream, h, n);
      assert Complete(stream, h, n);
    }
  }

  lemma ReceivedFrom(stream: Bytes, h: nat, n: nat)
    requires |stream| >= 2 && stream[0] & 0x0F != 8 && h == 2 + ExtensionWidth(CodeOf(stream[1])) <= |stream|
    requires n == if h == 2 then CodeOf(stream[1]) else Decoded(stream[2..h])
    ensures Received(stream) == ReceivedBody(stream[h..], n)
  {
  }

  lemma BodyBytes(rest: Bytes, n: nat)
    requires 4 + n <= |rest|
    ensures var (message, after) := ReceivedBody(rest, n);
            message.Some? && |message.value| == n && after == rest[4 + n..]
            && forall i :: 0 <= i < n ==> message.value[i] == rest[4 + i] ^ rest[i % 4]
  {
  }

  lemma CompleteIsReceived(stream: Bytes, h: nat, n: nat)
    requires Complete(stream, h, n)
    ensures var (message, rest) := Received(stream);
            message.Some? && |message.value| == n && rest == stream[h + 4 + n..]
            && forall i :: 0 <= i < n ==> message.value[i] == stream[h + 4 + i] ^ stream[h + i % 4]
  {
    StatedIs(stream, h, n);
    var rest := stream[h..];
    ReceivedFrom(stream, h, n);
    BodyBytes(rest, n);
    assert rest[4 + n..] == stream[h + 4 + n..];
    var message := ReceivedBody(rest, n).0.value;
    forall i | 0 <= i < n ensures message[i] == stream[h + 4 + i] ^ stream[h + i % 4] {
      assert message[i] == rest[4 + i] ^ rest[i % 4];
    }
  }

  /**
   * What is written for a payload: a final text frame without a mask, the shortest of the three lengths, and
   * the payload.
   */
  lemma SentBytes(payload: Bytes)
    requires |payload| < MAX_LENGTH
    ensures var frame, n := ServerFrame(payload), |payload|;
            var h := if n < 126 then 2 else if n < 65536 then 4 else 10;
            frame[0] == 0x81 && frame[1] & 0x80 == 0 && States(frame, h, n)
            && |frame| == h + n && frame[h..] == payload
  {
    var n := |payload|;
    var frame, header := ServerFrame(payload), Header(0x81, false, n);
    var h := |header|;
    ServerHeader(n);
    LengthRoundTrip(n);
    assert frame[1] == SecondByte(false, LengthCode(n));
    assert frame[2..h] == Extension(n) && frame[h..] == payload;
    var at, m := HeaderStates(frame);
    StatedIs(frame, at, m);
  }
}
