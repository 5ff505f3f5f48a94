// The 16-byte radio packet: its layout in memory, the frame sent over the air, and
// the XOR checksum (libradio.h, lib/packet.c).

module Packets {
  import opened Bytes

  const HEADER_LEN := 6
  const MAX_PAYLOAD := 10
  const FRAME_LEN := 16

  const CMD_NOOP: byte := 0
  const CMD_FIRMWARE: byte := 1
  const CMD_STATUS: byte := 2
  const CMD_ACTIVATE: byte := 3
  const CMD_DEACTIVATE: byte := 4
  const CMD_SET_TIME: byte := 5
  const CMD_SET_DATE: byte := 6
  const CMD_READ_EEPROM: byte := 7
  const CMD_WRITE_EEPROM: byte := 8
  const STATUS_RESPONSE: byte := 9
  const EEPROM_RESPONSE: byte := 10
  const CMD_SET_CHANNEL: byte := 16

  type Payload = d: seq<byte> | |d| == MAX_PAYLOAD witness [0, 0, 0, 0, 0, 0, 0, 0, 0, 0]

  datatype Packet = Packet(ticks: word, node: byte, cmd: byte, len: byte, csum: byte, data: Payload)

  const BLANK := Packet(0, 0, 0, 0, 0, [0, 0, 0, 0, 0, 0, 0, 0, 0, 0])

  // A transmission slot. The firmware keeps these structs by value in an array; an
  // index into the array stands for a `struct channel *`.
  datatype Channel = Channel(state: byte, priority: byte, packet: Packet)

  // What the sender asked to be delivered.
  datatype Message = Message(node: byte, cmd: byte, payload: seq<byte>)

  function MessageOf(p: Packet): Message
    requires p.len <= MAX_PAYLOAD
  {
    Message(p.node, p.cmd, p.data[..p.len])
  }

  // The bytes of the struct in memory; the processor is little-endian.
  function Image(p: Packet): (b: seq<byte>)
    ensures |b| == FRAME_LEN
  {
    [p.ticks % 0x100, p.ticks / 0x100, p.node, p.cmd, p.len, p.csum] + p.data
  }

  function FromImage(b: seq<byte>): (p: Packet)
    requires |b| == FRAME_LEN
    ensures Image(p) == b
  {
    assert b == [b[0], b[1], b[2], b[3], b[4], b[5]] + b[6..];
    Packet(Join(b[1], b[0]), b[2], b[3], b[4], b[5], b[6..])
  }

  lemma FromImageOfImage(p: Packet)
    ensures FromImage(Image(p)) == p
  {
    assert Image(p)[6..] == p.data;
  }

  // Checksum over the header and the payload actually in use.
  function Sum(p: Packet): byte
    requires p.len <= MAX_PAYLOAD
  {
    XorAll(Image(p)[..HEADER_LEN + p.len])
  }

  // Transmission

  function Stamped(p: Packet, clock: word): Packet
    requires p.len <= MAX_PAYLOAD
  {
    var q := p.(ticks := clock, csum := 0);
    q.(csum := Sum(q))
  }

  function Padding(n: nat): (b: seq<byte>)
    ensures |b| == n
  {
    seq(n, _ => 0xff)
  }

  function Frame(p: Packet): (b: seq<byte>)
    requires p.len <= MAX_PAYLOAD
    ensures |b| == FRAME_LEN
  {
    Image(p)[..HEADER_LEN + p.len] + Padding(MAX_PAYLOAD - p.len)
  }

  // Reception into a slot that already holds some packet: at most one frame is read
  // over the old bytes, and an over-long length byte is clamped.

  function Overlay(slot: Packet, fifo: seq<byte>): Packet
  {
    var n := if |fifo| > FRAME_LEN then FRAME_LEN else |fifo|;
    FromImage(fifo[..n] + Image(slot)[n..])
  }

  function Received(slot: Packet, fifo: seq<byte>): (p: Packet)
    ensures p.len <= MAX_PAYLOAD
  {
    var p := Overlay(slot, fifo);
    if p.len > MAX_PAYLOAD then p.(len := MAX_PAYLOAD) else p
  }

  predicate Accepted(slot: Packet, fifo: seq<byte>)
  {
    Sum(Received(slot, fifo)) == 0
  }

  // Only packets below RADIO_STATUS_RESPONSE carry the controller's time.
  function ClockAfter(clock: word, p: Packet): word
  {
    if p.cmd < STATUS_RESPONSE then p.ticks else clock
  }

  // The checksum of a stamped packet cancels.
  lemma StampedSumIsZero(p: Packet, clock: word)
    requires p.len <= MAX_PAYLOAD
    ensures Sum(Stamped(p, clock)) == 0
  {
    var q := p.(ticks := clock, csum := 0);
    var n := HEADER_LEN + p.len;
    assert Image(Stamped(p, clock))[..n] == Image(q)[..n][5 := Sum(q)];
    XorAllUpdate(Image(q)[..n], 5, Sum(q));
    XorLaws(0, Sum(q), 0);
  }

  // What arrives when the frame of a sent packet is altered by the error pattern e,
  // the length byte staying intact.
  lemma AlteredFrame(slot: Packet, p: Packet, e: seq<byte>)
    requires p.len <= MAX_PAYLOAD && |e| == FRAME_LEN && e[4] == 0
    ensures var r := Received(slot, XorEach(Frame(p), e));
            var n := HEADER_LEN + p.len;
            r.len == p.len && Image(r)[..n] == XorEach(Image(p)[..n], e[..n])
  {
    var b := XorEach(Frame(p), e);
    assert b[..FRAME_LEN] + Image(slot)[FRAME_LEN..] == b;
    assert Image(Received(slot, b)) == b;
  }

  /** A sent packet that is altered in flight without touching its length byte is
      accepted exactly when the error bytes over header and payload cancel. */
  lemma ChecksumDetects(slot: Packet, p: Packet, clock: word, e: seq<byte>)
    requires p.len <= MAX_PAYLOAD && |e| == FRAME_LEN && e[4] == 0
    ensures Accepted(slot, XorEach(Frame(Stamped(p, clock)), e))
            <==> XorAll(e[..HEADER_LEN + p.len]) == 0
  {
    var q := Stamped(p, clock);
    var n := HEADER_LEN + p.len;
    AlteredFrame(slot, q, e);
    XorAllOfXorEach(Image(q)[..n], e[..n]);
    StampedSumIsZero(p, clock);
    XorLaws(0, XorAll(e[..n]), 0);
  }

  ghost predicate OnlyErrorAt(e: seq<byte>, k: nat)
  {
    k < |e| && e[k] != 0 && forall j :: 0 <= j < |e| && j != k ==> e[j] == 0
  }

  lemma {:induction false} SumOfZeros(e: seq<byte>)
    requires forall j :: 0 <= j < |e| ==> e[j] == 0
    ensures XorAll(e) == 0
  {
    if e != [] {
      SumOfZeros(e[..|e| - 1]);
    }
  }

  lemma {:induction false} SumOfSingleError(e: seq<byte>, k: nat)
    requires OnlyErrorAt(e, k)
    ensures XorAll(e) != 0
  {
    var n := |e| - 1;
    if k == n {
      SumOfZeros(e[..n]);
    } else {
      SumOfSingleError(e[..n], k);
    }
  }

  /** Any single corrupted byte of header or payload, the length byte aside, is caught. */
  lemma SingleByteErrorRejected(slot: Packet, p: Packet, clock: word, e: seq<byte>, k: nat)
    requires p.len <= MAX_PAYLOAD && |e| == FRAME_LEN
    requires OnlyErrorAt(e, k) && k != 4 && k < HEADER_LEN + p.len
    ensures !Accepted(slot, XorEach(Frame(Stamped(p, clock)), e))
  {
    ChecksumDetects(slot, p, clock, e);
    SumOfSingleError(e[..HEADER_LEN + p.len], k);
  }

  // Corruption of the length byte

  // The frame of a sent packet with another byte in place of its length.
  function Mislabelled(p: Packet, clock: word, wrong: byte): (b: seq<byte>)
    requires p.len <= MAX_PAYLOAD
    ensures |b| == FRAME_LEN
  {
    Frame(Stamped(p, clock))[4 := wrong]
  }

  // What the checksum is taken over when the wrong length is believed.
  lemma MislabelledImage(slot: Packet, p: Packet, clock: word, wrong: byte)
    requires p.len <= MAX_PAYLOAD
    ensures var r := Received(slot, Mislabelled(p, clock, wrong));
            var n := if wrong > MAX_PAYLOAD then MAX_PAYLOAD else wrong;
            r.len == n && Image(r) == Frame(Stamped(p, clock))[4 := n]
  {
    var b := Mislabelled(p, clock, wrong);
    assert b[..FRAME_LEN] + Image(slot)[FRAME_LEN..] == b;
    var r := Received(slot, b);
    assert Image(Overlay(slot, b)) == b;
    assert Image(r) == b[4 := r.len];
    assert b[4 := r.len] == Frame(Stamped(p, clock))[4 := r.len];
  }

  lemma {:induction false} XorAllAppend(s: seq<byte>, t: seq<byte>)
    ensures XorAll(s + t) == Xor(XorAll(s), XorAll(t))
  {
    if t == [] {
      assert s + t == s;
    } else {
      var n := |t| - 1;
      XorAllAppend(s, t[..n]);
      assert (s + t)[..|s| + n] == s + t[..n];
      XorLaws(XorAll(s), XorAll(t[..n]), t[n]);
    }
  }

  // A stamped packet cut short at a smaller length.
  lemma ShortenedSum(p: Packet, clock: word, wrong: byte)
    requires wrong < p.len <= MAX_PAYLOAD
    ensures XorAll(Frame(Stamped(p, clock))[4 := wrong][..HEADER_LEN + wrong])
            == Xor(XorAll(p.data[wrong..p.len]), Xor(p.len, wrong))
  {
    var q := Stamped(p, clock);
    var n, m := HEADER_LEN + p.len, HEADER_LEN + wrong;
    var full := Image(q)[..n];
    assert full == full[..m] + p.data[wrong..p.len];
    StampedSumIsZero(p, clock);
    XorAllAppend(full[..m], p.data[wrong..p.len]);
    assert Frame(q)[4 := wrong][..m] == full[..m][4 := wrong];
    XorAllUpdate(full[..m], 4, wrong);
    assert full[4] == p.len;
  }

  lemma PaddingSnoc(n: nat)
    requires n > 0
    ensures Padding(n) == Padding(n - 1) + [0xff]
  {
  }

  // Padding bytes cancel in pairs.
  lemma {:induction false} PaddingSum(n: nat)
    ensures XorAll(Padding(n)) == if n % 2 == 0 then 0 else 0xff
  {
    if n > 0 {
      PaddingSum(n - 1);
      PaddingSnoc(n);
      hide Padding;
      assert (Padding(n - 1) + [0xff])[..n - 1] == Padding(n - 1);
    }
  }

  // A stamped packet read on into its padding at a greater length.
  lemma LengthenedImage(q: Packet, wrong: byte)
    requires q.len < wrong <= MAX_PAYLOAD
    ensures Frame(q)[4 := wrong][..HEADER_LEN + wrong]
            == Image(q)[..HEADER_LEN + q.len][4 := wrong] + Padding(wrong - q.len)
    ensures Image(q)[4] == q.len
  {
    hide Sum;
  }

  // Raising a small byte of a cancelling sequence and padding it behind never cancels.
  lemma RaisedSum(full: seq<byte>, wrong: byte, n: nat)
    requires |full| > 4 && full[4] < wrong <= MAX_PAYLOAD && XorAll(full) == 0
    ensures XorAll(full[4 := wrong] + Padding(n)) != 0
  {
    var d := Xor(full[4], wrong);
    XorAllUpdate(full, 4, wrong);
    XorLaws(0, d, 0);
    assert XorAll(full[4 := wrong]) == d;
    XorAllAppend(full[4 := wrong], Padding(n));
    PaddingSum(n);
    SmallDifference(full[4], wrong);
  }

  lemma LengthenedSum(p: Packet, clock: word, wrong: byte)
    requires p.len < wrong <= MAX_PAYLOAD
    ensures XorAll(Frame(Stamped(p, clock))[4 := wrong][..HEADER_LEN + wrong]) != 0
  {
    var q := Stamped(p, clock);
    assert q.len == p.len;
    StampedSumIsZero(p, clock);
    LengthenedImage(q, wrong);
    var full := Image(q)[..HEADER_LEN + p.len];
    assert full[4] == p.len && XorAll(full) == 0;
    hide *;
    RaisedSum(full, wrong, wrong - p.len);
  }

  lemma SmallDifference(a: byte, b: byte)
    requires a <= MAX_PAYLOAD && b <= MAX_PAYLOAD
    ensures Xor(a, b) < 16
  {
    BitXorRange(4, a, b);
    BitXorNarrow(4, 8, a, b);
  }

  lemma {:induction false} BitXorNarrow(j: nat, k: nat, a: nat, b: nat)
    requires j <= k && a < Pow2(j) && b < Pow2(j)
    ensures BitXor(k, a, b) == BitXor(j, a, b)
  {
    if j > 0 {
      BitXorNarrow(j - 1, k - 1, a / 2, b / 2);
    } else if k > 0 {
      BitXorNarrow(0, k - 1, 0, 0);
    }
  }

  /** A wrong length byte is accepted exactly when it is smaller and the payload bytes it
      cuts off cancel against the difference of the lengths, or when the payload is full
      and the clamp restores the length. */
  lemma WrongLengthByte(slot: Packet, p: Packet, clock: word, wrong: byte)
    requires p.len <= MAX_PAYLOAD && wrong != p.len
    ensures Accepted(slot, Mislabelled(p, clock, wrong))
            <==> if wrong < p.len then XorAll(p.data[wrong..p.len]) == Xor(p.len, wrong) else p.len == MAX_PAYLOAD
  {
    var b := Mislabelled(p, clock, wrong);
    var r := Received(slot, b);
    MislabelledImage(slot, p, clock, wrong);
    assert Sum(r) == XorAll(Image(r)[..HEADER_LEN + r.len]);
    hide XorAll, Image, Frame, Stamped, Received;
    if wrong < p.len {
      ShortenedSum(p, clock, wrong);
    } else if p.len == MAX_PAYLOAD {
      RestoredLength(p, clock);
    } else {
      LengthenedSum(p, clock, r.len);
    }
  }

  lemma RestoredLength(p: Packet, clock: word)
    requires p.len == MAX_PAYLOAD
    ensures Frame(Stamped(p, clock))[4 := MAX_PAYLOAD] == Image(Stamped(p, clock))
    ensures XorAll(Image(Stamped(p, clock))[..FRAME_LEN]) == 0
  {
    StampedSumIsZero(p, clock);
    hide XorAll;
    assert Image(Stamped(p, clock))[4] == MAX_PAYLOAD;
  }

  lemma ImageAt(p: Packet, i: nat)
    requires i < MAX_PAYLOAD
    ensures Image(p)[HEADER_LEN + i] == p.data[i]
  {
  }

  lemma FrameAt(p: Packet, k: nat)
    requires p.len <= MAX_PAYLOAD && k < HEADER_LEN + p.len
    ensures Frame(p)[k] == Image(p)[k]
  {
  }

  // A packet that reads like the head of a frame, its length aside.
  lemma ReadsAsHead(r: Packet, q: Packet)
    requires r.len <= q.len <= MAX_PAYLOAD && Image(r) == Frame(q)[4 := r.len]
    ensures r.ticks == q.ticks && MessageOf(r) == Message(q.node, q.cmd, q.data[..r.len])
  {
    forall k | 0 <= k < 4 ensures Image(r)[k] == Image(q)[k] {
      FrameAt(q, k);
    }
    forall i | 0 <= i < r.len ensures r.data[i] == q.data[i] {
      ImageAt(r, i);
      ImageAt(q, i);
      FrameAt(q, HEADER_LEN + i);
    }
    hide Frame;
    SameHead(r, q);
  }

  lemma SameHead(r: Packet, q: Packet)
    requires forall k :: 0 <= k < 4 ==> Image(r)[k] == Image(q)[k]
    ensures r.ticks == q.ticks && r.node == q.node && r.cmd == q.cmd
  {
    assert Image(r)[0] == Image(q)[0] && Image(r)[1] == Image(q)[1];
    assert Image(r)[2] == Image(q)[2] && Image(r)[3] == Image(q)[3];
  }

  /** What an accepted packet with a wrong length byte delivers: its payload cut short, or
      the whole of a full one. */
  lemma WrongLengthDelivers(slot: Packet, p: Packet, clock: word, wrong: byte)
    requires p.len <= MAX_PAYLOAD && wrong != p.len
    requires Accepted(slot, Mislabelled(p, clock, wrong))
    ensures var r := Received(slot, Mislabelled(p, clock, wrong));
            && r.ticks == clock
            && MessageOf(r) == Message(p.node, p.cmd, if wrong < p.len then p.data[..wrong] else p.data)
  {
    WrongLengthByte(slot, p, clock, wrong);
    MislabelledImage(slot, p, clock, wrong);
    hide XorAll, Accepted, Received, Mislabelled, Image, Frame;
    ReadsAsHead(Received(slot, Mislabelled(p, clock, wrong)), Stamped(p, clock));
    assert p.data[..MAX_PAYLOAD] == p.data;
  }

  // A time setting for index 1 with one bit of its length byte flipped.
  lemma TimeLosesItsIndex(slot: Packet, p: Packet, clock: word)
    requires p.cmd == CMD_SET_TIME && p.len == 1 && p.data[0] == 1
    ensures Accepted(slot, Mislabelled(p, clock, 0))
    ensures MessageOf(Received(slot, Mislabelled(p, clock, 0))) == Message(p.node, CMD_SET_TIME, [])
  {
    assert p.data[0..1] == [1] && [1 as byte][..0] == [];
    assert XorAll([1]) == Xor(0, 1);
    XorLaws(0, 1, 0);
    WrongLengthByte(slot, p, clock, 0);
    WrongLengthDelivers(slot, p, clock, 0);
  }

  // With a full payload every value above the limit is clamped back before the checksum
  // is taken, so the very packet sent arrives.
  lemma LongLengthByteEscapes(slot: Packet, p: Packet, clock: word, wrong: byte)
    requires p.len == MAX_PAYLOAD && wrong > MAX_PAYLOAD
    ensures var b := Frame(Stamped(p, clock))[4 := wrong];
            Accepted(slot, b) && Received(slot, b) == Stamped(p, clock)
  {
    var q := Stamped(p, clock);
    var b := Frame(q)[4 := wrong];
    assert b[..FRAME_LEN] + Image(slot)[FRAME_LEN..] == b;
    FromImageOfImage(q);
    assert Image(Received(slot, b)) == Image(q);
    FromImageOfImage(Received(slot, b));
    StampedSumIsZero(p, clock);
  }

  /** Single-byte detection in full: a frame with one byte changed is accepted exactly
      when that byte is padding, or is the length byte in the case above. */
  lemma SingleByteErrorAccepted(slot: Packet, p: Packet, clock: word, k: nat, x: byte)
    requires p.len <= MAX_PAYLOAD && k < FRAME_LEN && x != Frame(Stamped(p, clock))[k]
    ensures Accepted(slot, Frame(Stamped(p, clock))[k := x])
            <==> || k >= HEADER_LEN + p.len
                 || (k == 4 && if x < p.len then XorAll(p.data[x..p.len]) == Xor(p.len, x) else p.len == MAX_PAYLOAD)
  {
    if k == 4 {
      FrameAt(Stamped(p, clock), 4);
      WrongLengthByte(slot, p, clock, x);
    } else {
      OtherByteAccepted(slot, p, clock, k, x);
    }
    hide Accepted, Frame, Stamped, XorAll;
  }

  // One byte changed, as an error pattern.
  lemma OneChange(f: seq<byte>, k: nat, x: byte) returns (e: seq<byte>)
    requires k < |f| && x != f[k]
    ensures |e| == |f| && OnlyErrorAt(e, k) && XorEach(f, e) == f[k := x]
  {
    e := seq<byte>(|f|, i requires 0 <= i < |f| => if i == k then Xor(f[k], x) else 0);
    XorLaws(f[k], f[k], x);
    XorLaws(x, 0, 0);
    forall i | 0 <= i < |f| ensures XorEach(f, e)[i] == f[k := x][i] {
    }
  }

  lemma OtherByteAccepted(slot: Packet, p: Packet, clock: word, k: nat, x: byte)
    requires p.len <= MAX_PAYLOAD && k < FRAME_LEN && k != 4 && x != Frame(Stamped(p, clock))[k]
    ensures Accepted(slot, Frame(Stamped(p, clock))[k := x]) <==> k >= HEADER_LEN + p.len
  {
    var e := OneChange(Frame(Stamped(p, clock)), k, x);
    hide Accepted, Stamped, Frame, XorEach;
    if k < HEADER_LEN + p.len {
      SingleByteErrorRejected(slot, p, clock, e, k);
    } else {
      ChecksumDetects(slot, p, clock, e);
      SumOfZeros(e[..HEADER_LEN + p.len]);
    }
  }

  ghost predicate Delivers(p: Packet, clock: word, r: Packet)
    requires p.len <= MAX_PAYLOAD
  {
    r.len <= MAX_PAYLOAD && r.ticks == clock && MessageOf(r) == MessageOf(p)
  }

  // A frame whose padding bytes are altered in any way.
  lemma PaddingErrorsHarmless(slot: Packet, p: Packet, clock: word, e: seq<byte>)
    requires p.len <= MAX_PAYLOAD && |e| == FRAME_LEN
    requires forall j :: 0 <= j < HEADER_LEN + p.len ==> e[j] == 0
    ensures var b := XorEach(Frame(Stamped(p, clock)), e);
            Accepted(slot, b) && Delivers(p, clock, Received(slot, b))
  {
    var q := Stamped(p, clock);
    var n := HEADER_LEN + p.len;
    ChecksumDetects(slot, p, clock, e);
    SumOfZeros(e[..n]);
    AlteredFrame(slot, q, e);
    var r := Received(slot, XorEach(Frame(q), e));
    assert XorEach(Image(q)[..n], e[..n]) == Image(q)[..n];
    SameImagePrefix(r, q);
  }

  // Packets that agree on the bytes in use carry the same stamp and message.
  lemma SameImagePrefix(r: Packet, q: Packet)
    requires r.len == q.len <= MAX_PAYLOAD
    requires Image(r)[..HEADER_LEN + q.len] == Image(q)[..HEADER_LEN + q.len]
    ensures r.ticks == q.ticks && MessageOf(r) == MessageOf(q)
  {
    var a, b := Image(r)[..HEADER_LEN + q.len], Image(q)[..HEADER_LEN + q.len];
    assert a[0] == b[0] && a[1] == b[1] && a[2] == b[2] && a[3] == b[3];
    assert r.data[..q.len] == a[HEADER_LEN..] && q.data[..q.len] == b[HEADER_LEN..];
  }

  /** Codec round trip for one packet, whatever the receiving slot held before. */
  lemma FrameRoundTrip(slot: Packet, p: Packet, clock: word, more: seq<byte>)
    requires p.len <= MAX_PAYLOAD
    ensures var b := Frame(Stamped(p, clock)) + more;
            Accepted(slot, b) && Delivers(p, clock, Received(slot, b))
  {
    var b, e := Frame(Stamped(p, clock)), seq<byte>(FRAME_LEN, _ => 0);
    assert XorEach(b, e) == b;
    PaddingErrorsHarmless(slot, p, clock, e);
    assert (b + more)[..FRAME_LEN] == b[..FRAME_LEN];
  }

  // Streams of frames

  datatype Sending = Sending(packet: Packet, clock: word)

  ghost predicate Sendable(out: seq<Sending>)
  {
    forall i :: 0 <= i < |out| ==> out[i].packet.len <= MAX_PAYLOAD
  }

  function Frames(out: seq<Sending>): seq<byte>
    requires Sendable(out)
  {
    if out == [] then [] else Frame(Stamped(out[0].packet, out[0].clock)) + Frames(out[1..])
  }

  // The last clock broadcast by a packet that may set the receiver's clock.
  function LastClock(clock: word, out: seq<Sending>): word
    decreases |out|
  {
    if out == [] then clock
    else LastClock(if out[0].packet.cmd < STATUS_RESPONSE then out[0].clock else clock, out[1..])
  }

  datatype Reception = Reception(clock: word, slot: Packet, got: seq<Packet>, left: seq<byte>)

  // Receiving over and over into the same slot; a bad checksum flushes the queue.
  function ReceiveAll(clock: word, slot: Packet, fifo: seq<byte>): Reception
    decreases |fifo|
  {
    if |fifo| < FRAME_LEN then Reception(clock, slot, [], fifo)
    else
      var p := Received(slot, fifo);
      if !Accepted(slot, fifo) then Reception(clock, p, [], [])
      else
        var r := ReceiveAll(ClockAfter(clock, p), p, fifo[FRAME_LEN..]);
        r.(got := [p] + r.got)
  }

  /** Framing round trip: a stream of any sent packets is received whole, in order,
      each with its stamp and message, and the clock follows the controller's packets. */
  lemma {:induction false} FramingRoundTrip(clock: word, slot: Packet, out: seq<Sending>)
    requires Sendable(out)
    ensures var r := ReceiveAll(clock, slot, Frames(out));
            && |r.got| == |out|
            && r.left == []
            && r.clock == LastClock(clock, out)
            && forall i :: 0 <= i < |out| ==> Delivers(out[i].packet, out[i].clock, r.got[i])
    decreases |out|
  {
    if out != [] {
      var fifo := Frames(out);
      FrameRoundTrip(slot, out[0].packet, out[0].clock, Frames(out[1..]));
      assert fifo[FRAME_LEN..] == Frames(out[1..]);
      var p := Received(slot, fifo);
      FramingRoundTrip(ClockAfter(clock, p), p, out[1..]);
    }
  }
}
