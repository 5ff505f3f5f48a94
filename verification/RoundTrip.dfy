// The round trip from the host's printer to the controller's parser.

module RoundTrip {
  import opened Bytes
  import opened Text
  import opened Packets
  import opened Radios
  import opened Devices
  import opened Controllers
  import opened Exclusivity
  import opened Printer
  import opened Lines

  // How far a line for one channel has been read, and the packet as it stands.
  datatype View =
    | Idle(packet: Packet)                              // before the line
    | Letter(packet: Packet)                            // '>' seen
    | Reading(io: byte, value: byte, packet: Packet)
    | Done(packet: Packet, closed: bool)                // handed to enqueue
    | Lost                                              // no longer followed

  function ReadByte(v: View, k: nat, c: char): View
    requires k < CHANNELS
  {
    match v
    case Idle(p) => if c == '>' then Letter(p) else Lost
    case Letter(p) => if c as int == 'A' as int + k then Reading(WAITNODE, 0, p) else Lost
    case Reading(io, value, p) =>
      if IsDigit(c) then Reading(io, NextDigit(value, c), p)
      else if io == WAITNODE && c == ':' then Reading(WAITCMD, 0, p.(node := value))
      else if io == WAITCMD && c == ':' then Reading(WAITDATA, 0, p.(cmd := value, len := 0))
      else if io == WAITCMD && c == '.' then Done(p.(cmd := value, len := 0), false)
      else if io == WAITDATA && (c == ',' || c == '.') && p.len < MAX_PAYLOAD then
        var q := p.(data := p.data[p.len := value], len := p.len + 1);
        if c == ',' then Reading(WAITDATA, 0, q) else Done(q, false)
      else Lost
    case Done(p, _) => if IsNewline(c) then Done(p, true) else Lost
    case Lost => Lost
  }

  function Read(v: View, k: nat, text: string): View
    requires k < CHANNELS
    decreases |text|
  {
    if text == "" then v else Read(ReadByte(v, k, text[0]), k, text[1..])
  }

  lemma {:induction false} ReadAppend(v: View, k: nat, a: string, b: string)
    requires k < CHANNELS
    ensures Read(v, k, a + b) == Read(Read(v, k, a), k, b)
    decreases |a|
  {
    hide ReadByte;
    if a == "" {
      assert a + b == b;
    } else {
      ReadAppend(ReadByte(v, k, a[0]), k, a[1..], b);
      assert (a + b)[1..] == a[1..] + b;
    }
  }

  lemma ReadOne(v: View, k: nat, c: char)
    requires k < CHANNELS
    ensures Read(v, k, [c]) == ReadByte(v, k, c)
  {
    hide ReadByte;
    assert [c][1..] == "";
  }

  // Printed text as read back

  // A printed number arrives modulo 256.
  lemma {:induction false} ReadNumber(io: byte, p: Packet, k: nat, n: nat)
    requires k < CHANNELS
    ensures Read(Reading(io, 0, p), k, DecNat(n)) == Reading(io, n % 0x100, p)
  {
    if n < 10 {
      ReadOne(Reading(io, 0, p), k, Digit(n));
    } else {
      ReadNumber(io, p, k, n / 10);
      ReadAppend(Reading(io, 0, p), k, DecNat(n / 10), [Digit(n % 10)]);
      ReadOne(Reading(io, n / 10 % 0x100, p), k, Digit(n % 10));
      DigitModulo(n);
    }
  }

  lemma {:induction false} DropMultiple(a: nat, m: nat)
    ensures (a + 0x100 * m) % 0x100 == a % 0x100
  {
    if m > 0 {
      DropMultiple(a, m - 1);
    }
  }

  lemma DigitModulo(n: nat)
    ensures (n / 10 % 0x100 * 10 + n % 10) % 0x100 == n % 0x100
  {
    DropMultiple(n / 10 % 0x100 * 10 + n % 10, 10 * (n / 10 / 0x100));
  }

  function Filled(p: Packet, data: seq<nat>): Packet
    requires p.len + |data| <= MAX_PAYLOAD
    decreases |data|
  {
    if data == [] then p
    else Filled(p.(data := p.data[p.len := data[0] % 0x100], len := p.len + 1), data[1..])
  }

  lemma {:induction false} FilledHolds(p: Packet, data: seq<nat>)
    requires p.len + |data| <= MAX_PAYLOAD
    ensures var q := Filled(p, data);
            && q.node == p.node && q.cmd == p.cmd && q.len == p.len + |data|
            && (forall i :: 0 <= i < p.len ==> q.data[i] == p.data[i])
            && (forall i :: 0 <= i < |data| ==> q.data[p.len + i] == data[i] % 0x100)
    decreases |data|
  {
    if data != [] {
      var r := p.(data := p.data[p.len := data[0] % 0x100], len := p.len + 1);
      FilledHolds(r, data[1..]);
      var q := Filled(p, data);
      assert q.data[p.len] == r.data[p.len];
      forall i | 1 <= i < |data| ensures q.data[p.len + i] == data[i] % 0x100 {
        assert q.data[r.len + (i - 1)] == data[1..][i - 1] % 0x100;
      }
    }
  }

  // A printed list up to its last number, which is still in the accumulator.
  lemma {:induction false} ReadList(p: Packet, k: nat, data: seq<nat>)
    requires k < CHANNELS && data != [] && p.len + |data| <= MAX_PAYLOAD
    ensures var n := |data| - 1;
            Read(Reading(WAITDATA, 0, p), k, DecList(data)) == Reading(WAITDATA, data[n] % 0x100, Filled(p, data[..n]))
    decreases |data|
  {
    var v := Reading(WAITDATA, 0, p);
    ReadNumber(WAITDATA, p, k, data[0]);
    if |data| > 1 {
      var rest := DecList(data[1..]);
      var w := Reading(WAITDATA, data[0] % 0x100, p);
      var q := p.(data := p.data[p.len := data[0] % 0x100], len := p.len + 1);
      assert DecList(data) == Dec(data[0]) + ("," + rest);
      ReadAppend(v, k, Dec(data[0]), "," + rest);
      ReadAppend(w, k, ",", rest);
      ReadOne(w, k, ',');
      ReadList(q, k, data[1..]);
      var n := |data| - 1;
      assert data[..n][1..] == data[1..][..n - 1];
      assert Filled(p, data[..n]) == Filled(q, data[1..][..n - 1]);
    }
  }

  lemma {:induction false} FilledSnoc(p: Packet, data: seq<nat>)
    requires data != [] && p.len + |data| <= MAX_PAYLOAD
    ensures var n := |data| - 1;
            var q := Filled(p, data[..n]);
            q.len == p.len + n && Filled(p, data) == q.(data := q.data[q.len := data[n] % 0x100], len := q.len + 1)
    decreases |data|
  {
    var q := p.(data := p.data[p.len := data[0] % 0x100], len := p.len + 1);
    if |data| == 1 {
      assert Filled(q, data[1..]) == q;
    } else {
      var n := |data| - 1;
      assert data[..n][1..] == data[1..][..n - 1];
      FilledSnoc(q, data[1..]);
    }
  }

  lemma ReadData(p: Packet, k: nat, data: seq<nat>)
    requires k < CHANNELS && data != [] && p.len + |data| <= MAX_PAYLOAD
    ensures Read(Reading(WAITDATA, 0, p), k, DecList(data) + ".") == Done(Filled(p, data), false)
  {
    var n := |data| - 1;
    ReadList(p, k, data);
    FilledSnoc(p, data);
    hide DecList, Filled;
    ReadAppend(Reading(WAITDATA, 0, p), k, DecList(data), ".");
    ReadOne(Reading(WAITDATA, data[n] % 0x100, Filled(p, data[..n])), k, '.');
  }

  // The packet a printed command stands for, over the bytes the slot held before.
  function Commanded(p: Packet, node: nat, cmd: nat, data: seq<nat>): Packet
    requires |data| <= MAX_PAYLOAD
  {
    Filled(p.(node := node % 0x100, cmd := cmd % 0x100, len := 0), data)
  }

  lemma ReadHead(p: Packet, k: nat, node: nat)
    requires k < CHANNELS
    ensures Read(Idle(p), k, ['>', ((k + 'A' as int) % 0x100) as char] + Dec(node) + ":")
            == Reading(WAITCMD, 0, p.(node := node % 0x100))
  {
    var letter := ((k + 'A' as int) % 0x100) as char;
    ReadAppend(Idle(p), k, ['>', letter] + Dec(node), ":");
    ReadAppend(Idle(p), k, ['>', letter], Dec(node));
    ReadAppend(Idle(p), k, [">"[0]], [letter]);
    assert ['>', letter] == [">"[0]] + [letter];
    ReadOne(Idle(p), k, '>');
    ReadOne(Letter(p), k, letter);
    ReadNumber(WAITNODE, p, k, node);
    ReadOne(Reading(WAITNODE, node % 0x100, p), k, ':');
  }

  lemma ReadTail(p: Packet, k: nat, cmd: nat, data: seq<nat>)
    requires k < CHANNELS && |data| <= MAX_PAYLOAD
    ensures Read(Reading(WAITCMD, 0, p), k, Dec(cmd) + (if data == [] then "" else ":" + DecList(data)) + ".")
            == Done(Filled(p.(cmd := cmd % 0x100, len := 0), data), false)
  {
    var v, w := Reading(WAITCMD, 0, p), Reading(WAITCMD, cmd % 0x100, p);
    ReadNumber(WAITCMD, p, k, cmd);
    if data == [] {
      assert Dec(cmd) + "" + "." == Dec(cmd) + ".";
      ReadAppend(v, k, Dec(cmd), ".");
      ReadOne(w, k, '.');
    } else {
      var rest := DecList(data) + ".";
      assert Dec(cmd) + (":" + DecList(data)) + "." == Dec(cmd) + (":" + rest);
      ReadAppend(v, k, Dec(cmd), ":" + rest);
      ReadAppend(w, k, ":", rest);
      ReadOne(w, k, ':');
      ReadData(p.(cmd := cmd % 0x100, len := 0), k, data);
    }
  }

  lemma ReadLine(p: Packet, k: nat, node: nat, cmd: nat, data: seq<nat>)
    requires k < CHANNELS && |data| <= MAX_PAYLOAD
    ensures Read(Idle(p), k, Sent(CommandLine(k, node, cmd, data))) == Done(Commanded(p, node, cmd, data), true)
  {
    hide Dec, DecList, ReadByte, Filled;
    var head := ['>', ((k + 'A' as int) % 0x100) as char] + Dec(node) + ":";
    var tail := Dec(cmd) + (if data == [] then "" else ":" + DecList(data)) + ".";
    assert Sent(CommandLine(k, node, cmd, data)) == head + (tail + CRLF);
    ReadHead(p, k, node);
    ReadTail(p.(node := node % 0x100), k, cmd, data);
    ReadAppend(Idle(p), k, head, tail + CRLF);
    ReadAppend(Reading(WAITCMD, 0, p.(node := node % 0x100)), k, tail, CRLF);
    ReadNewlines(Commanded(p, node, cmd, data), k);
  }

  lemma ReadNewlines(p: Packet, k: nat)
    requires k < CHANNELS
    ensures Read(Done(p, false), k, CRLF) == Done(p, true)
  {
    assert CRLF[1..] == ['\n'];
    ReadOne(Done(p, true), k, '\n');
  }

  // The controller follows the view

  // What the parser has filled in so far of p is there in q.
  ghost predicate Agrees(io: byte, p: Packet, q: Packet)
  {
    && (io >= WAITCMD ==> q.node == p.node)
    && (io >= WAITDATA ==>
          q.cmd == p.cmd && q.len == p.len <= MAX_PAYLOAD && forall i :: 0 <= i < p.len ==> q.data[i] == p.data[i])
  }

  ghost predicate Follows(s: Ctl, k: nat, v: View, replies: nat, queued: seq<Entry>)
  {
    && Wf(s) && k < CHANNELS
    && (match v
        case Idle(_) =>
          Sound(s) && s.parser.io == NEWLINE && s.ch[k].state <= EMPTY &&
          |s.log.replies| == replies && s.log.queued == queued
        case Letter(_) =>
          Sound(s) && s.parser.io == WAITCHAN && s.ch[k].state <= EMPTY &&
          |s.log.replies| == replies && s.log.queued == queued
        case Reading(io, value, p) =>
          Sound(s) && WAITNODE <= io <= WAITDATA && s.parser == Parser(io, value, k) &&
          s.ch[k].state <= TRANSMIT && Agrees(io, p, s.ch[k].packet) &&
          |s.log.replies| == replies && s.log.queued == queued
        case Done(p, closed) =>
          s.parser.io == (if closed then NEWLINE else WAITNL) &&
          |s.log.replies| == replies + 1 && Gains(queued, s.log.queued, k, p)
        case Lost => true)
  }

  ghost predicate Gains(before: seq<Entry>, after: seq<Entry>, k: nat, p: Packet)
  {
    && |after| == |before| + 1 && before <= after
    && after[|before|].channel == k && Agrees(WAITDATA, p, after[|before|].packet)
  }

  // A time broadcast that finds channel k EMPTY and fills its slot.
  predicate Overwrites(s: Ctl, k: nat, e: Step)
    requires Wf(s) && k < CHANNELS
  {
    e.Scheduler? && SchedulerRuns(s) && Wraps(s) && SyncSlot(s.radio.ms) == k && s.ch[k].state == EMPTY
  }

  // Such a broadcast comes in the way of a line for that channel only if the node has been
  // read, which is then lost, or if the chip refuses it before the channel's letter, which
  // then meets a queued slot.
  predicate Spoils(s: Ctl, k: nat, e: Step)
    requires Wf(s) && k < CHANNELS
  {
    && Overwrites(s, k, e)
    && if s.parser.io >= WAITCMD then s.parser.curr == k else s.parser.io <= WAITCHAN && !Accepts(s.radio, e.chip)
  }

  ghost predicate NeverSpoils(s: Ctl, k: nat, es: seq<Step>)
    requires Wf(s) && k < CHANNELS
    decreases |es|
  {
    es == [] || (!Spoils(s, k, es[0]) && NeverSpoils(Next(s, es[0]), k, es[1..]))
  }

  // The same packet but for stamp and checksum.
  ghost predicate SameBody(p: Packet, q: Packet)
  {
    q.node == p.node && q.cmd == p.cmd && q.len == p.len && q.data == p.data
  }

  lemma TransmitSlot(s: Ctl, c: nat, chip: Chip, k: nat)
    requires Wf(s) && c < CHANNELS && k < CHANNELS && s.ch[k].state <= TRANSMIT
    ensures var t := Transmit(s, c, chip).ch[k];
            && SameBody(s.ch[k].packet, t.packet)
            && t.state == if k == c && Accepts(s.radio, chip) then EMPTY else s.ch[k].state
  {
    hide AfterSend, Sum;
  }

  // All that happens to the slot of a line short of the parser: it is sent as it stands,
  // unless a broadcast fills it first.
  lemma OtherStepSlot(s: Ctl, e: Step, k: nat)
    requires Sound(s) && k < CHANNELS && s.ch[k].state <= TRANSMIT && !e.Serial?
    ensures Sound(Next(s, e))
    ensures var t := Next(s, e).ch[k];
            if Overwrites(s, k, e) then
              && t.packet.node == 0 && t.packet.cmd == CMD_SET_TIME && t.packet.len == 1
              && t.state == if Accepts(s.radio, e.chip) then EMPTY else TRANSMIT
            else
              && SameBody(s.ch[k].packet, t.packet) && (t.state == s.ch[k].state || t.state == EMPTY)
              && (s.ch[k].state <= EMPTY ==> t.state == s.ch[k].state)
  {
    StepKeepsSound(s, e);
    match e {
      case Interrupt =>
      case Wake =>
      case Wait(_, _) => hide Receive, ResponseLine, Hears, SlotAfter;
      case Scheduler(chip) =>
        if SchedulerRuns(s) {
          var m := s.(lastModulo := s.radio.ms % MODULO);
          var c := if Wraps(s) then SyncSlot(s.radio.ms) else Pick(s.ch, CHANNELS);
          if c >= 0 {
            PickIsBest(s.ch, CHANNELS);
            TransmitSlot(if Wraps(s) then InstallSync(m, c) else m, c, chip, k);
          }
          hide Transmit, SyncSlot, Accepts;
        }
    }
  }

  lemma OtherStepFollows(s: Ctl, e: Step, k: nat, v: View, replies: nat, queued: seq<Entry>)
    requires Follows(s, k, v, replies, queued) && !e.Serial? && !Spoils(s, k, e)
    ensures Follows(Next(s, e), k, v, replies, queued)
  {
    OtherStepKeepsParser(s, e);
    if v.Idle? || v.Letter? || v.Reading? {
      OtherStepSlot(s, e, k);
    }
    hide Next, Sound, SyncSlot, Accepts;
  }

  lemma ReadingFollows(s: Ctl, c: char, w: World, k: nat, v: View, replies: nat, queued: seq<Entry>)
    requires Follows(s, k, v, replies, queued) && v.Reading?
    ensures Follows(ParseByte(s, c, w), k, ReadByte(v, k, c), replies, queued)
  {
    if ReadByte(v, k, c).Reading? {
      GoesOnFollowing(s, c, w, k, v, replies, queued);
    } else if ReadByte(v, k, c).Done? {
      FinishesFollowing(s, c, w, k, v, replies, queued);
    }
    hide ParseByte, ReadByte;
  }

  lemma GoesOnFollowing(s: Ctl, c: char, w: World, k: nat, v: View, replies: nat, queued: seq<Entry>)
    requires Follows(s, k, v, replies, queued) && v.Reading? && ReadByte(v, k, c).Reading?
    ensures Follows(ParseByte(s, c, w), k, ReadByte(v, k, c), replies, queued)
  {
    ParseExclusive(s, c, w);
    hide Enqueue, Exclusive, ParserSafe, StatusLine, Boot;
  }

  lemma FinishesFollowing(s: Ctl, c: char, w: World, k: nat, v: View, replies: nat, queued: seq<Entry>)
    requires Follows(s, k, v, replies, queued) && v.Reading? && ReadByte(v, k, c).Done?
    ensures Follows(ParseByte(s, c, w), k, ReadByte(v, k, c), replies, queued)
  {
    var t := if v.io == WAITCMD then PutCommand(s) else PutData(s);
    assert Agrees(WAITDATA, ReadByte(v, k, c).packet, t.ch[k].packet);
    EnqueueChannels(t, k, w);
    hide Enqueue, Sound, StatusLine, Boot;
    assert ParseByte(s, c, w) == WithIo(Enqueue(t, k, w), WAITNL);
  }

  lemma ByteFollows(s: Ctl, c: char, w: World, k: nat, v: View, replies: nat, queued: seq<Entry>)
    requires Follows(s, k, v, replies, queued)
    ensures Follows(ParseByte(s, c, w), k, ReadByte(v, k, c), replies, queued)
  {
    if v.Reading? {
      ReadingFollows(s, c, w, k, v, replies, queued);
      hide ParseByte, ReadByte;
    } else if v.Idle? || v.Letter? {
      ParseExclusive(s, c, w);
      hide Enqueue, Exclusive, StatusLine, Boot;
    } else {
      hide Enqueue, StatusLine, Boot;
    }
  }

  lemma {:induction false} RunFollows(s: Ctl, es: seq<Step>, k: nat, v: View, replies: nat, queued: seq<Entry>)
    requires Follows(s, k, v, replies, queued) && NeverSpoils(s, k, es)
    ensures Follows(Run(s, es), k, Read(v, k, SerialText(es)), replies, queued)
    decreases |es|
  {
    assert Wf(s);
    hide Next, ParseByte, ReadByte, Follows, Spoils, SerialText;
    if es == [] {
      EmptyText();
    } else {
      if es[0].Serial? {
        SerialHead(es);
        ByteFollows(s, es[0].c, es[0].world, k, v, replies, queued);
        SerialStep(s, es[0]);
        RunFollows(Next(s, es[0]), es[1..], k, ReadByte(v, k, es[0].c), replies, queued);
      } else {
        SerialSkip(es);
        OtherStepFollows(s, es[0], k, v, replies, queued);
        RunFollows(Next(s, es[0]), es[1..], k, v, replies, queued);
      }
    }
  }

  lemma EmptyText()
    ensures SerialText([]) == ""
  {
  }

  lemma SerialStep(s: Ctl, e: Step)
    requires Wf(s) && e.Serial?
    ensures Next(s, e) == ParseByte(s, e.c, e.world)
  {
    hide ParseByte;
  }

  /** Printer/parser round trip: the text the daemon sends for a free channel makes the
      controller enqueue exactly the packet that was meant, once, with each number taken
      modulo 256, answer once and return to the start of a line, whatever clock
      interrupts, waits and scheduler passes fall between the bytes, as long as no time
      broadcast fills that channel's slot once the node has been read, or is refused there
      before the line has named the channel. */
  lemma PrinterParserRoundTrip(s: Ctl, es: seq<Step>, k: nat, node: nat, cmd: nat, data: seq<nat>)
    requires Sound(s) && s.parser.io == NEWLINE
    requires k < CHANNELS && s.ch[k].state <= EMPTY && |data| <= MAX_PAYLOAD
    requires SerialText(es) == Sent(CommandLine(k, node, cmd, data))
    requires NeverSpoils(s, k, es)
    ensures var t := Run(s, es);
            && t.parser.io == NEWLINE
            && |t.log.replies| == |s.log.replies| + 1
            && |t.log.queued| == |s.log.queued| + 1
            && s.log.queued <= t.log.queued
            && var e := t.log.queued[|s.log.queued|];
               && e.channel == k && e.packet.len <= MAX_PAYLOAD
               && MessageOf(e.packet)
                  == Message(node % 0x100, cmd % 0x100, seq(|data|, i requires 0 <= i < |data| => data[i] % 0x100))
  {
    var p := s.ch[k].packet;
    ReadLine(p, k, node, cmd, data);
    RunFollows(s, es, k, Idle(p), |s.log.replies|, s.log.queued);
    FilledHolds(p.(node := node % 0x100, cmd := cmd % 0x100, len := 0), data);
    hide Run, Read, NeverSpoils, Sound;
    var q := Run(s, es).log.queued[|s.log.queued|].packet;
    assert MessageOf(q).payload == seq(|data|, i requires 0 <= i < |data| => data[i] % 0x100);
  }
}
