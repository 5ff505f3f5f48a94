// What the controller tells the host: which reply a command gets, what the controller's
// own commands do, and what becomes of a client's response.

module Answers {
  import opened Bytes
  import opened Text
  import opened Packets
  import opened Radios
  import opened Devices
  import opened Controllers
  import opened Exclusivity
  import opened Status

  // Responses

  // What the daemon reads a response as.
  ghost predicate ReadsAs(m: Meaning, channel: byte, node: byte, clock: word, payload: seq<byte>)
  {
    && m.Report? && m.chan == channel && m.node == node && m.ticks == clock
    && Numbers(Fields(m.args, 16, ',')) == if payload == [] then [0] else payload
  }

  ghost predicate OneMore(before: seq<string>, after: seq<string>)
  {
    |after| == |before| + 1 && before <= after
  }

  lemma ResponseArrives(slot: Packet, p: Packet, clock: word)
    requires p.len <= MAX_PAYLOAD
    ensures var q := SlotAfter(slot, Frame(Stamped(p, clock)));
            && Hears(slot, Frame(Stamped(p, clock)))
            && q.len == p.len && q.cmd == p.cmd && q.ticks == clock && q.data[..q.len] == p.data[..p.len]
  {
    var fifo := Frame(Stamped(p, clock));
    FrameRoundTrip(slot, p, clock, []);
    assert fifo + [] == fifo;
    var q := Received(slot, fifo);
    assert |MessageOf(q).payload| == q.len;
    hide Accepted, Received, Frame, Stamped;
  }

  /** A response that arrives during a wait is printed as one line and ends the wait. The
      daemon reads that line as a report if and only if it is a status response and the
      chip's channel is one of the sixteen; then with that channel, the node that was asked,
      the client's ticks and its payload. */
  lemma ResponseIsForwarded(s: Ctl, p: Packet, clock: word)
    requires Wf(s) && s.resp >= 0 && p.len <= MAX_PAYLOAD
    ensures var t := Next(s, Wait(true, Frame(Stamped(p, clock))));
            && OneMore(s.log.lines, t.log.lines) && t.resp < 0 && t.ch[s.resp].state == EMPTY
            && t.log == s.log.(lines := t.log.lines, ended := s.log.ended + [s.resp])
            && t.radio == s.radio.(received := (s.radio.received + 1) % 0x1_0000, sawRx := true,
                                   ms := if p.cmd < STATUS_RESPONSE then clock else s.radio.ms)
            && var m := ParseLine(t.log.lines[|s.log.lines|]);
               if p.cmd == STATUS_RESPONSE && s.radio.currChannel <= 15
               then ReadsAs(m, s.radio.currChannel, s.ch[s.resp].packet.node, clock, p.data[..p.len])
               else !m.Report?
  {
    hide ParseLine, ReportLine, Fields, Numbers, DecList, Frame, Sum, Hears, SlotAfter;
    var slot := s.ch[s.resp].packet;
    var q := SlotAfter(slot, Frame(Stamped(p, clock)));
    ResponseArrives(slot, p, clock);
    ResponsePrinted(s, Frame(Stamped(p, clock)));
    ReportRoundTrip(s.radio.currChannel, slot.node, clock, p.cmd, p.data[..p.len]);
    DataRoundTrip(p.data[..p.len]);
  }

  lemma ResponsePrinted(s: Ctl, fifo: seq<byte>)
    requires Wf(s) && s.resp >= 0 && Hears(s.ch[s.resp].packet, fifo)
    ensures var t := Next(s, Wait(true, fifo));
            var slot := s.ch[s.resp].packet;
            var q := SlotAfter(slot, fifo);
            && t.resp < 0 && t.ch[s.resp].state == EMPTY && q.len <= MAX_PAYLOAD
            && t.log.ended == s.log.ended + [s.resp]
            && t.radio == s.radio.(received := (s.radio.received + 1) % 0x1_0000, sawRx := true,
                                   ms := if q.cmd < STATUS_RESPONSE then q.ticks else s.radio.ms)
            && t.log.lines
               == s.log.lines + [ReportLine(s.radio.currChannel, slot.node, q.ticks, q.cmd, q.data[..q.len])]
            && t.log == s.log.(lines := t.log.lines, ended := t.log.ended)
  {
    hide ReportLine, Accepted, Received;
  }

  /** A reception that is not a good frame prints nothing, but ends the wait too; a wait
      that times out prints nothing. */
  lemma NothingForwarded(s: Ctl, ready: bool, fifo: seq<byte>)
    requires Wf(s) && s.resp >= 0
    requires ready ==> !(|fifo| >= FRAME_LEN && Accepted(s.ch[s.resp].packet, fifo))
    ensures var t := Next(s, Wait(ready, fifo));
            && t.log.lines == s.log.lines && t.log.replies == s.log.replies && t.log.queued == s.log.queued
            && (ready ==> t.resp < 0 && t.ch[s.resp].state == EMPTY && t.log.ended == s.log.ended + [s.resp])
            && t.radio == s.radio
  {
    hide Accepted, Received;
  }

  // Replies

  // For this board rather than for a client.
  predicate OwnPacket(s: Ctl, p: Packet)
  {
    p.node == s.radio.myNode || (p.cmd == CMD_ACTIVATE && s.radio.state < ACTIVE)
  }

  predicate Known(cmd: byte) { cmd <= CMD_WRITE_EEPROM || cmd == CMD_SET_CHANNEL }

  // An activation for which there is no power.
  predicate Powerless(s: Ctl, p: Packet, w: World)
  {
    p.cmd == CMD_ACTIVATE && p.len == 3 && !s.radio.powered && !w.powersUp
  }

  // The packet waits on its channel to be sent.
  predicate HeldOn(c: Channel, p: Packet)
  {
    c.state == (if p.cmd == CMD_STATUS then TXRESPOND else TRANSMIT) && c.packet == p
  }

  ghost predicate OneReply(s: Ctl, t: Ctl, code: byte)
  {
    && |t.log.replies| == |s.log.replies| + 1 && s.log.replies <= t.log.replies
    && t.log.replies[|s.log.replies|].code == code
  }

  lemma EnqueueReplies(s: Ctl, k: nat, w: World)
    requires Wf(s) && k < CHANNELS
    ensures var t := Enqueue(s, k, w);
            var p := s.ch[k].packet;
            && OneReply(s, t, if OwnPacket(s, p) then (if !Known(p.cmd) then 8 else if Powerless(s, p, w) then 7 else 0)
                              else if s.radio.state != ACTIVE then 6 else 0)
            && (if !OwnPacket(s, p) && s.radio.state == ACTIVE then HeldOn(t.ch[k], p)
                else t.ch[k].state == EMPTY && t.ch[k].packet == p)
            && t.log.replies[|s.log.replies|].state == t.radio.state
  {
    var p := s.ch[k].packet;
    var noted := WithState(s, k, TRANSMIT).(log := s.log.(queued := s.log.queued + [Entry(k, p)]));
    MyCommandChannels(noted, p, w);
    hide MyCommand;
  }

  // The slot a completed packet is in when it is handed over.
  lemma CompletedIn(s: Ctl, c: char, w: World) returns (u: Ctl)
    requires Wf(s) && Completed(s, c).Some?
    ensures var k := s.parser.curr;
            && Wf(u) && u == s.(ch := s.ch[k := s.ch[k].(packet := Completed(s, c).value)], parser := u.parser)
            && Next(s, Serial(c, w)) == WithIo(Enqueue(u, k, w), if IsNewline(c) then NEWLINE else WAITNL)
  {
    u := if IsNewline(c) then s else if s.parser.io == WAITCMD then PutCommand(s) else PutData(s);
    hide Enqueue;
  }

  /** The reply to a packet, exactly. Success means that it now waits on its channel, or was
      a command this board knows and had the power for; 6 that it was for the radio and the
      board is not active, and nothing is queued; 7 that there was no power; 8 that the
      board does not know the command. */
  lemma ReplyTellsOutcome(s: Ctl, c: char, w: World)
    requires Wf(s) && Completed(s, c).Some?
    ensures var t := Next(s, Serial(c, w));
            var p := Completed(s, c).value;
            && |t.log.replies| == |s.log.replies| + 1 && s.log.replies <= t.log.replies
            && var slot, code := t.ch[s.parser.curr], t.log.replies[|s.log.replies|].code;
               && (code == 0 <==> HeldOn(slot, p) || (OwnPacket(s, p) && Known(p.cmd) && !Powerless(s, p, w)))
               && (HeldOn(slot, p) <==> !OwnPacket(s, p) && s.radio.state == ACTIVE)
               && (code == 6 <==> !OwnPacket(s, p) && s.radio.state != ACTIVE)
               && (code == 7 <==> OwnPacket(s, p) && Powerless(s, p, w))
               && (code == 8 <==> OwnPacket(s, p) && !Known(p.cmd))
               && (!HeldOn(slot, p) ==> slot.state == EMPTY)
               && t.log.replies[|s.log.replies|].state == t.radio.state
  {
    var u := CompletedIn(s, c, w);
    EnqueueReplies(u, s.parser.curr, w);
    hide Enqueue, Completed, Next;
  }

  // Bytes that complete no packet

  // The code a byte is refused with, or 0.
  function Refusal(s: Ctl, c: char): byte
    requires Wf(s)
  {
    var io := s.parser.io;
    if c in "\n\r" || io == WAITNL then 0
    else if io == NEWLINE then (if c == '>' then 0 else 5)
    else if io == WAITCHAN then
      if 'A' <= c <= 'F' then (if s.ch[c as int - 'A' as int].state <= EMPTY then 0 else 2)
      else if c in "GH" then 1
      else if c in "RST" then 0
      else 5
    else if '0' <= c <= '9' then 0
    else if io == WAITNODE then (if c == ':' then 0 else 5)
    else if io == WAITCMD then (if c in ":." then 0 else 5)
    else if c in ",." then (if s.ch[s.parser.curr].packet.len == MAX_PAYLOAD then 4 else 0)
    else 5
  }

  /** A byte that completes no packet is answered exactly if it is refused: an unknown
      channel with 1, a busy one with 2, an eleventh number with 4, and whatever has no
      place in a line with 5. */
  lemma RefusalsExactly(s: Ctl, c: char, w: World)
    requires Wf(s) && Completed(s, c).None?
    ensures var t := Next(s, Serial(c, w));
            if Refusal(s, c) == 0 then t.log.replies == s.log.replies
            else t.log.replies == s.log.replies + [Answer(Refusal(s, c), s.radio.state)] && t.parser.io == WAITNL
  {
    hide Enqueue, StatusLine, SetState;
  }

  // The controller's own commands

  // A command of this length for this board.
  predicate Commands(s: Ctl, p: Packet, cmd: byte, len: byte)
  {
    OwnPacket(s, p) && p.cmd == cmd && p.len == len
  }

  // The same, but obeyed by an active board only.
  predicate CommandsActive(s: Ctl, p: Packet, cmd: byte, len: byte)
  {
    Commands(s, p, cmd, len) && s.radio.state >= ACTIVE
  }

  // What is left of the board's radio after a packet has been handed over.
  ghost predicate Obeyed(s: Ctl, p: Packet, w: World, t: Radio)
    requires Wf(s) && p.len <= MAX_PAYLOAD
  {
    var r := s.radio;
    && (t.myChannel, t.myNode) == (if Commands(s, p, CMD_ACTIVATE, 3) then (p.data[0], p.data[1])
                                   else if CommandsActive(s, p, CMD_DEACTIVATE, 0) then (0, 0)
                                   else (r.myChannel, r.myNode))
    && t.state == (if Commands(s, p, CMD_ACTIVATE, 3) then (if Powerless(s, p, w) then ERROR else ACTIVE)
                   else if CommandsActive(s, p, CMD_DEACTIVATE, 0) then WARM else r.state)
    && t.powered == (r.powered || (Commands(s, p, CMD_ACTIVATE, 3) && w.powersUp))
    && t.ms == (if Commands(s, p, CMD_SET_TIME, 3) then 256 * p.data[0] as int + p.data[1] as int else r.ms)
    && t.tens == (if Commands(s, p, CMD_SET_TIME, 3) then p.data[2]
                  else if CommandsActive(s, p, CMD_DEACTIVATE, 0) then UNKNOWN_TIME else r.tens)
    && t.date == (if CommandsActive(s, p, CMD_SET_DATE, 2) then 256 * p.data[0] as int + p.data[1] as int else r.date)
    && t.period == (if Commands(s, p, CMD_ACTIVATE, 3) && !Powerless(s, p, w) then r.fast
                    else if CommandsActive(s, p, CMD_DEACTIVATE, 0) then r.slow else r.period)
    && (Commands(s, p, CMD_ACTIVATE, 3) && !Powerless(s, p, w) ==> t.tickCount == 1)
    && (!Commands(s, p, CMD_ACTIVATE, 3) && !CommandsActive(s, p, CMD_DEACTIVATE, 0) ==>
          t == r.(ms := t.ms, tens := t.tens, date := t.date))
    && t.received == r.received && t.transmitted == r.transmitted && t.handed == r.handed
    && t.currChannel == r.currChannel && t.id == r.id
  }

  lemma ActivateObeyed(s: Ctl, p: Packet, w: World)
    requires Wf(s) && p.len <= MAX_PAYLOAD && OwnPacket(s, p) && p.cmd == CMD_ACTIVATE
    ensures Obeyed(s, p, w, MyCommand(s, p, w).radio)
  {
    hide Interrupts;
  }

  lemma OtherObeyed(s: Ctl, p: Packet, w: World)
    requires Wf(s) && p.len <= MAX_PAYLOAD && OwnPacket(s, p) && p.cmd != CMD_ACTIVATE
    ensures Obeyed(s, p, w, MyCommand(s, p, w).radio)
  {
    hide Interrupts, StatusLine, Activate;
  }

  lemma MyCommandObeys(s: Ctl, p: Packet, w: World)
    requires Wf(s) && p.len <= MAX_PAYLOAD && OwnPacket(s, p)
    ensures Obeyed(s, p, w, MyCommand(s, p, w).radio)
  {
    if p.cmd == CMD_ACTIVATE {
      ActivateObeyed(s, p, w);
    } else {
      OtherObeyed(s, p, w);
    }
    hide *;
  }

  lemma EnqueueObeys(s: Ctl, k: nat, w: World)
    requires Wf(s) && k < CHANNELS
    ensures Obeyed(s, s.ch[k].packet, w, Enqueue(s, k, w).radio)
  {
    hide Obeyed;
    var p := s.ch[k].packet;
    var noted := WithState(s, k, TRANSMIT).(log := s.log.(queued := s.log.queued + [Entry(k, p)]));
    if OwnPacket(s, p) {
      MyCommandObeys(noted, p, w);
      hide MyCommand, MyCommandCode;
      assert Enqueue(s, k, w).radio == MyCommand(noted, p, w).radio;
    } else {
      assert Enqueue(s, k, w).radio == s.radio;
    }
    SameObedience(noted, s, p, w, Enqueue(s, k, w).radio);
  }

  /** What the board does with a packet of its own: an activation gives it channel and node
      in that order, and makes it active if there is power; a time is taken high byte first;
      a date, or a deactivation, only by an active board. Any other packet leaves the radio
      as it is. */
  lemma BoardObeys(s: Ctl, c: char, w: World)
    requires Wf(s) && Completed(s, c).Some?
    ensures Obeyed(s, Completed(s, c).value, w, Next(s, Serial(c, w)).radio)
  {
    hide Completed, Next, Obeyed, Enqueue;
    var u := CompletedIn(s, c, w);
    EnqueueObeys(u, s.parser.curr, w);
    SameObedience(u, s, Completed(s, c).value, w, Enqueue(u, s.parser.curr, w).radio);
  }

  lemma SameObedience(s: Ctl, u: Ctl, p: Packet, w: World, t: Radio)
    requires Wf(s) && Wf(u) && s.radio == u.radio && p.len <= MAX_PAYLOAD
    ensures Obeyed(s, p, w, t) <==> Obeyed(u, p, w, t)
    ensures !OwnPacket(s, p) ==> Obeyed(s, p, w, s.radio)
  {
  }

  // The numbers of a status report: type and version, or type, state, index, battery,
  // packets received and packets sent, high bytes first.
  function StatusNumbers(r: Radio, stype: byte, battery: word): seq<int>
  {
    if stype == 0 then [0, 1, 1, 1, 1, 3, 1]
    else if stype == 1 then
      [1, r.state as int, r.tens as int, battery / 256, battery % 256,
       r.received / 256, r.received % 256, r.transmitted / 256, r.transmitted % 256]
    else [stype]
  }

  ghost predicate Reports(m: Meaning, r: Radio, stype: byte, battery: word)
  {
    && m.Report? && m.chan == r.myChannel && m.node == r.myNode && m.ticks == r.ms
    && Numbers(Fields(m.args, 16, ',')) == StatusNumbers(r, stype, battery)
  }

  lemma StatusReports(r: Radio, stype: byte, battery: word)
    requires r.myChannel <= 15
    ensures Reports(ParseLine(StatusLine(r, stype, battery)), r, stype, battery)
  {
    hide ParseLine, ReportLine, Fields, Numbers, DecList;
    var data := [stype] + StatusBytes(r, stype, battery);
    ReportRoundTrip(r.myChannel, r.myNode, r.ms, STATUS_RESPONSE, data);
    DataRoundTrip(data);
  }

  lemma MyCommandPrints(s: Ctl, p: Packet, w: World)
    requires Wf(s) && p.len <= MAX_PAYLOAD
    ensures MyCommand(s, p, w).log.lines
            == if p.cmd == CMD_STATUS && p.len == 3 then s.log.lines + [StatusLine(s.radio, p.data[2], w.battery)]
               else s.log.lines
  {
    hide StatusLine, Command, Activate;
  }

  /** A status command for the board prints one line, which the daemon reads as a report on
      the board of the kind that the third argument asks for; no other command prints one. */
  lemma BoardReports(s: Ctl, c: char, w: World)
    requires Wf(s) && Completed(s, c).Some? && s.radio.myChannel <= 15
    ensures var t := Next(s, Serial(c, w));
            var p := Completed(s, c).value;
            if Commands(s, p, CMD_STATUS, 3) then
              && OneMore(s.log.lines, t.log.lines)
              && Reports(ParseLine(t.log.lines[|s.log.lines|]), s.radio, p.data[2], w.battery)
            else t.log.lines == s.log.lines
  {
    hide Completed, Next, ParseLine, Reports, StatusLine;
    var u := CompletedIn(s, c, w);
    var p := Completed(s, c).value;
    var k := s.parser.curr;
    var noted := WithState(u, k, TRANSMIT).(log := u.log.(queued := u.log.queued + [Entry(k, p)]));
    MyCommandPrints(noted, p, w);
    if p.cmd == CMD_STATUS && p.len == 3 {
      StatusReports(s.radio, p.data[2], w.battery);
    }
    hide MyCommand, MyCommandCode;
  }

  /** The letters S and T print the board's identity and its state. */
  lemma LetterReports(s: Ctl, c: char, w: World)
    requires Wf(s) && s.parser.io == WAITCHAN && (c == 'S' || c == 'T') && s.radio.myChannel <= 15
    ensures var t := Next(s, Serial(c, w));
            && OneMore(s.log.lines, t.log.lines) && t.parser.io == NEWLINE
            && Reports(ParseLine(t.log.lines[|s.log.lines|]), s.radio, if c == 'S' then 0 else 1, w.battery)
            && t == s.(log := s.log.(lines := t.log.lines), parser := s.parser.(io := NEWLINE))
  {
    hide ParseLine, Reports, StatusLine, Enqueue;
    StatusReports(s.radio, if c == 'S' then 0 else 1, w.battery);
  }

  // A channel after SET_CHANNEL; other configurations than 0 to 2 only zero the priority.
  function ConfiguredTo(c: Channel, config: byte): Channel
  {
    Channel(if config <= 2 then config else c.state, 0, c.packet)
  }

  lemma MyCommandConfigures(s: Ctl, p: Packet, w: World)
    requires Wf(s) && p.len <= MAX_PAYLOAD
    ensures var t := MyCommand(s, p, w);
            forall j :: 0 <= j < CHANNELS ==>
              t.ch[j] == (if p.cmd == CMD_SET_CHANNEL && p.len == 2 && p.data[0] == j
                          then ConfiguredTo(s.ch[j], p.data[1]) else s.ch[j])
  {
    hide StatusLine, Command, Activate;
  }

  /** The channels after a completed packet: a SET_CHANNEL for the board configures the
      channel it names; the packet's own channel is free again if the packet was for the
      board or the board is not active, and otherwise holds it, to be answered if it asks
      for a status, at the entry priority of the channel or one above the priority it has. */
  lemma ChannelsAfterPacket(s: Ctl, c: char, w: World)
    requires Wf(s) && Completed(s, c).Some?
    ensures var t := Next(s, Serial(c, w));
            var k, p := s.parser.curr, Completed(s, c).value;
            var config := Commands(s, p, CMD_SET_CHANNEL, 2);
            && (forall j :: 0 <= j < CHANNELS && j != k ==>
                  t.ch[j] == if config && p.data[0] == j then ConfiguredTo(s.ch[j], p.data[1]) else s.ch[j])
            && t.ch[k]
               == (if OwnPacket(s, p) then Channel(EMPTY, if config && p.data[0] == k then 0 else s.ch[k].priority, p)
                   else if s.radio.state != ACTIVE then Channel(EMPTY, s.ch[k].priority, p)
                   else Channel(if p.cmd == CMD_STATUS then TXRESPOND else TRANSMIT,
                                if s.ch[k].priority == 0 then 48 - 8 * k
                                else if s.ch[k].priority < 252 then s.ch[k].priority + 1 else s.ch[k].priority,
                                p))
  {
    hide Completed, Next;
    var u := CompletedIn(s, c, w);
    var p := Completed(s, c).value;
    var k := s.parser.curr;
    var noted := WithState(u, k, TRANSMIT).(log := u.log.(queued := u.log.queued + [Entry(k, p)]));
    MyCommandConfigures(noted, p, w);
    hide MyCommand, MyCommandCode;
  }

  /** The letter R restarts the board: asleep, at no address, its clock parked, all channels
      disabled, nothing awaited. What it has put out before stays out. */
  lemma BoardRestarts(s: Ctl, w: World)
    requires Wf(s) && s.parser.io == WAITCHAN
    ensures var t := Next(s, Serial('R', w));
            && t.radio.state == WARM && t.radio.myChannel == 0 && t.radio.myNode == 0 && !t.radio.powered
            && t.radio.tens == UNKNOWN_TIME && t.radio.ms == 0 && t.radio.date == 0
            && t.radio.received == 0 && t.radio.transmitted == 0
            && (forall c :: 0 <= c < CHANNELS ==> t.ch[c].state == DISABLED && t.ch[c].priority == 0)
            && t.resp == -1 && t.lastModulo == 0 && t.parser.io == NEWLINE && t.log == s.log
  {
    hide Enqueue, StatusLine;
  }
}
