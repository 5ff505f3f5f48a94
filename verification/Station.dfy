// What each message of the daemon does to the controller, whatever state it is in.

module Station {
  import opened Bytes
  import opened Text
  import opened Packets
  import opened Radios
  import opened Devices
  import opened Controllers
  import opened Exclusivity
  import opened Printer
  import opened Lines
  import opened RoundTrip
  import opened Script
  import opened BrokenWait

  // Active at node 1, as the daemon wants it.
  predicate Up(r: Radio) { r.state == ACTIVE && r.powered && r.myNode == 1 }

  // The controller between two messages of a host that asks no client for anything.
  ghost predicate StationOk(s: Ctl)
  {
    && Wf(s) && s.resp < 0 && s.parser.io == NEWLINE
    && (forall c :: 0 <= c < CHANNELS ==> s.ch[c].state <= TRANSMIT)
    && s.radio.myChannel == 0 && s.radio.myNode <= 1 && (Up(s.radio) || s.radio.state < LISTEN)
  }

  lemma BootIsOk(log: Log)
    ensures StationOk(Boot(log)) && Boot(log).radio.myNode == 0
  {
    hide Interrupts;
  }

  // Steps of the controller that are no serial input

  ghost predicate SameStanding(r: Radio, q: Radio)
  {
    q.state == r.state && q.powered == r.powered && q.myNode == r.myNode && q.myChannel == r.myChannel
  }

  // Configured for sending: free, or holding a time broadcast that the chip has refused.
  ghost predicate Open(c: Channel)
  {
    c.state == EMPTY || (c.state == TRANSMIT && c.packet.node == 0 && c.packet.cmd == CMD_SET_TIME)
  }

  lemma OwnStep(s: Ctl, e: Step)
    requires StationOk(s) && !e.Serial?
    ensures var t := Next(s, e);
            && StationOk(t) && SameStanding(s.radio, t.radio)
            && t.log.replies == s.log.replies && t.log.lines == s.log.lines
            && forall c :: 0 <= c < CHANNELS && Open(s.ch[c]) ==> Open(t.ch[c])
  {
    assert Sound(s);
    OtherStepKeepsParser(s, e);
    OwnStepRest(s, e);
    var t := Next(s, e);
    hide Sound, Next, Wf, Overwrites;
    forall c | 0 <= c < CHANNELS ensures t.ch[c].state <= TRANSMIT && (Open(s.ch[c]) ==> Open(t.ch[c])) {
      OtherStepSlot(s, e, c);
    }
  }

  lemma TransmitRest(s: Ctl, c: nat, chip: Chip)
    requires Wf(s) && c < CHANNELS && s.resp < 0 && s.ch[c].state <= TRANSMIT && Up(s.radio)
    ensures var t := Transmit(s, c, chip);
            t.resp < 0 && SameStanding(s.radio, t.radio) && t.log.lines == s.log.lines
  {
    hide PacketAfterSend;
  }

  lemma OwnStepRest(s: Ctl, e: Step)
    requires StationOk(s) && !e.Serial?
    ensures var t := Next(s, e);
            Wf(t) && t.resp < 0 && SameStanding(s.radio, t.radio) && t.log.lines == s.log.lines
  {
    if e.Scheduler? && SchedulerRuns(s) {
      var m := s.(lastModulo := s.radio.ms % MODULO);
      var c := if Wraps(s) then SyncSlot(s.radio.ms) else Pick(s.ch, CHANNELS);
      if c >= 0 {
        TransmitRest(if Wraps(s) then InstallSync(m, c) else m, c, e.chip);
      }
    }
    hide Transmit, SyncSlot, Pick;
  }

  // Messages

  lemma TypeOne(s: Ctl, text: string, w: World)
    requires Wf(s) && text != ""
    ensures Run(s, Typed(text, w)) == Run(ParseByte(s, text[0], w), Typed(text[1..], w))
  {
    hide ParseByte;
    assert Next(s, Serial(text[0], w)) == ParseByte(s, text[0], w);
  }

  lemma TypeCrlf(s: Ctl, w: World)
    requires Wf(s) && s.parser.io < WAITCMD
    ensures Run(s, Typed(CRLF, w)) == WithIo(s, NEWLINE)
  {
    TypeOne(s, CRLF, w);
    var t := WithIo(s, NEWLINE);
    assert CRLF[1..] == "\n";
    TypeOne(t, "\n", w);
    hide Typed;
    NothingTyped(t, w);
  }

  lemma NothingTyped(s: Ctl, w: World)
    requires Wf(s)
    ensures Run(s, Typed("", w)) == s
  {
  }

  lemma TypeTwo(s: Ctl, a: string, b: string, w: World)
    requires Wf(s)
    ensures Run(s, Typed(a + b, w)) == Run(Run(s, Typed(a, w)), Typed(b, w))
  {
    hide Run, Wf;
    TypedAppend(a, b, w);
    RunAppend(s, Typed(a, w), Typed(b, w));
  }

  lemma {:induction false} TypedAppend(a: string, b: string, w: World)
    ensures Typed(a + b, w) == Typed(a, w) + Typed(b, w)
    decreases |a|
  {
    if a == "" {
      assert a + b == b;
    } else {
      TypedAppend(a[1..], b, w);
      assert (a + b)[1..] == a[1..] + b;
    }
  }

  // The daemon's own requests are two letters long.
  function Letters(c: char): string { ['>', c] }

  lemma LettersTyped(s: Ctl, c: char, w: World)
    requires Wf(s) && s.parser.io == NEWLINE
    ensures var t := ParseByte(WithIo(s, WAITCHAN), c, w);
            t.parser.io < WAITCMD ==> Run(s, Typed(Sent(Letters(c)), w)) == WithIo(t, NEWLINE)
  {
    hide Typed, ParseByte;
    var text := Letters(c);
    TypeTwo(s, text, CRLF, w);
    TypeOne(s, text, w);
    ArrowByte(s, w);
    TypeOne(WithIo(s, WAITCHAN), [c], w);
    assert text[1..] == [c] && [c][1..] == "";
    var t := ParseByte(WithIo(s, WAITCHAN), c, w);
    NothingTyped(t, w);
    if t.parser.io < WAITCMD {
      TypeCrlf(t, w);
    }
    hide Run;
  }

  /** A status request prints the station's report and changes nothing. */
  lemma StatusTyped(s: Ctl, stype: byte, w: World)
    requires StationOk(s) && stype < 2
    ensures Run(s, Typed(Sent(Letters(if stype == 0 then 'S' else 'T')), w))
            == Print(s, StatusLine(s.radio, stype, w.battery))
  {
    LettersTyped(s, if stype == 0 then 'S' else 'T', w);
    hide Run, Typed, StatusLine, Enqueue;
    assert s.parser == s.parser.(io := NEWLINE);
  }

  /** A reset boots the board. */
  lemma ResetTyped(s: Ctl, w: World)
    requires StationOk(s)
    ensures Run(s, Typed(Sent(Letters('R')), w)) == Boot(s.log)
  {
    LettersTyped(s, 'R', w);
    hide Run, Typed, SetState, Enqueue;
  }

  // A line for a channel that is not free is refused.
  lemma {:induction false} RestIgnored(s: Ctl, text: string, w: World)
    requires Wf(s) && s.parser.io == WAITNL && NoNewline(text)
    ensures Run(s, Typed(text, w)) == s
    decreases |text|
  {
    hide Enqueue, StatusLine, Wf;
    if text != "" {
      assert text[0] in text;
      TypeOne(s, text, w);
      hide Run, Typed;
      RestIgnored(s, text[1..], w);
    }
  }

  ghost predicate Refused(s: Ctl, t: Ctl)
  {
    && t == s.(parser := t.parser, log := s.log.(replies := s.log.replies + [Answer(ERR_BUSY, s.radio.state)]))
    && t.parser.io == NEWLINE
  }

  lemma LetterRefused(s: Ctl, w: World)
    requires Wf(s) && s.parser.io == WAITCHAN && s.ch[0].state > EMPTY
    ensures var t := ParseByte(s, 'A', w);
            t.parser.io == WAITNL && Refused(s, WithIo(t, NEWLINE))
  {
    hide Enqueue, StatusLine;
  }

  lemma BusyTyped(s: Ctl, text: string, w: World)
    requires StationOk(s) && s.ch[0].state > EMPTY && NoNewline(text)
    ensures Refused(s, Run(s, Typed(Sent(Letters('A') + text), w)))
  {
    hide Typed, ParseByte, Refused, NoNewline;
    var u := WithIo(s, WAITCHAN);
    var t := ParseByte(u, 'A', w);
    LetterRefused(u, w);
    var all := Letters('A') + (text + CRLF);
    assert Sent(Letters('A') + text) == all;
    TypeOne(s, all, w);
    ArrowByte(s, w);
    TypeOne(u, all[1..], w);
    assert all[1..][1..] == text + CRLF;
    hide Run;
    TypeTwo(t, text, CRLF, w);
    RestIgnored(t, text, w);
    TypeCrlf(t, w);
    RefusedFrom(s, WithIo(t, NEWLINE));
  }

  lemma RefusedFrom(s: Ctl, t: Ctl)
    requires Refused(WithIo(s, WAITCHAN), t)
    ensures Refused(s, t)
  {
  }

  function Rest(node: nat, cmd: nat, data: seq<nat>): string
  {
    Dec(node) + ":" + Dec(cmd) + (if data == [] then "" else ":" + DecList(data)) + "."
  }

  lemma LineParts(node: nat, cmd: nat, data: seq<nat>)
    ensures CommandLine(0, node, cmd, data) == Letters('A') + Rest(node, cmd, data)
    ensures NoNewline(Rest(node, cmd, data))
  {
    DecNoNewline(node);
    DecNoNewline(cmd);
    DecListNoNewline(data);
    hide Dec, DecList;
  }

  /** A command line on channel 0 is refused if the channel is not free; otherwise its
      packet is executed or queued. */
  lemma CommandTyped(s: Ctl, node: byte, cmd: byte, data: seq<byte>, w: World) returns (p: Packet)
    requires StationOk(s) && |data| <= MAX_PAYLOAD
    ensures p.node == node && p.cmd == cmd && p.len == |data| && forall i :: 0 <= i < |data| ==> p.data[i] == data[i]
    ensures var t := Run(s, Typed(Sent(CommandLine(0, node, cmd, data)), w));
            if s.ch[0].state > EMPTY then Refused(s, t) else t == Executed(s, 0, p, w)
  {
    p := Commanded(s.ch[0].packet, node, cmd, data);
    CommandedIs(s.ch[0].packet, node, cmd, data);
    LineParts(node, cmd, data);
    hide Commanded, Run, Typed, CommandLine, Rest, Executed;
    if s.ch[0].state > EMPTY {
      BusyTyped(s, Rest(node, cmd, data), w);
    } else {
      TypedCommand(s, 0, node, cmd, data, w);
    }
  }

  // What the commands of the daemon do

  predicate Setting(cmd: byte, data: seq<byte>)
  {
    || (cmd == CMD_SET_TIME && |data| == 3)
    || (cmd == CMD_SET_DATE && |data| == 2)
    || (cmd == CMD_SET_CHANNEL && |data| == 2 && data[0] <= 3 && READ <= data[1] <= EMPTY)
  }

  // One reply with this code, and nothing else printed.
  ghost predicate Replied(s: Ctl, t: Ctl, code: byte)
  {
    && t.log.lines == s.log.lines && |t.log.replies| == |s.log.replies| + 1 && s.log.replies <= t.log.replies
    && t.log.replies[|s.log.replies|].code == code
  }

  // Channels open for sending stay so, unless the command is to make one of them a reader.
  ghost predicate StayOpen(s: Ctl, t: Ctl, cmd: byte, data: seq<byte>)
    requires Wf(s) && Wf(t) && Setting(cmd, data)
  {
    forall c :: 0 <= c < CHANNELS && Open(s.ch[c]) && (cmd == CMD_SET_CHANNEL ==> data[0] != c || data[1] == EMPTY) ==>
      Open(t.ch[c])
  }

  lemma SettingExecuted(s: Ctl, p: Packet, data: seq<byte>, w: World)
    requires StationOk(s) && s.radio.myNode == 1 && s.ch[0].state <= EMPTY && Setting(p.cmd, data)
    requires p.node == 1 && p.len == |data| && forall i :: 0 <= i < |data| ==> p.data[i] == data[i]
    ensures var t := Executed(s, 0, p, w);
            && StationOk(t) && SameStanding(s.radio, t.radio) && Replied(s, t, 0) && StayOpen(s, t, p.cmd, data)
            && (p.cmd == CMD_SET_CHANNEL && data[1] == EMPTY ==> Open(t.ch[data[0]])) && t.ch[0].state <= EMPTY
  {
  }

  /** A setting for node 1 on such a board is done and answered, or refused for a busy
      channel 0. */
  lemma SettingTyped(s: Ctl, cmd: byte, data: seq<byte>, w: World)
    requires StationOk(s) && s.radio.myNode == 1 && Setting(cmd, data)
    ensures var t := Run(s, Typed(Sent(CommandLine(0, 1, cmd, data)), w));
            && StationOk(t) && SameStanding(s.radio, t.radio) && StayOpen(s, t, cmd, data)
            && Replied(s, t, if s.ch[0].state > EMPTY then ERR_BUSY else 0)
            && (s.ch[0].state <= EMPTY && cmd == CMD_SET_CHANNEL && data[1] == EMPTY ==> Open(t.ch[data[0]]))
            && (s.ch[0].state <= EMPTY ==> t.ch[0].state <= EMPTY)
  {
    var p := CommandTyped(s, 1, cmd, data, w);
    if s.ch[0].state <= EMPTY {
      SettingExecuted(s, p, data, w);
    }
    hide Run, Typed, CommandLine, Executed;
  }

  lemma SelfActivated(s: Ctl, p: Packet, w: World)
    requires StationOk(s) && s.ch[0].state <= EMPTY && p.node == 0 && p.cmd == CMD_ACTIVATE && p.len == 3
    requires p.data[0] == 0 && p.data[1] == 1
    ensures var t := Executed(s, 0, p, w);
            var done := s.radio.powered || w.powersUp;
            && StationOk(t) && (if done then Up(t.radio) else t.radio.state == ERROR && t.radio.myNode == 1)
            && Replied(s, t, if done then 0 else ERR_POWER) && (!done ==> t.ch[0].state == EMPTY)
  {
    hide Interrupts;
  }

  /** The activation of the controller itself is answered with success only if it is then
      active at node 1; if the radio does not power up it keeps the node number, and the
      ERROR state. */
  lemma ActivationTyped(s: Ctl, w: World)
    requires StationOk(s)
    ensures var t := Run(s, Typed(Sent(CommandLine(0, 0, CMD_ACTIVATE as nat, [0, 1, 0])), w));
            var done := s.radio.powered || w.powersUp;
            && StationOk(t)
            && if s.ch[0].state > EMPTY then SameStanding(s.radio, t.radio) && Replied(s, t, ERR_BUSY)
               else
                 && (if done then Up(t.radio) else t.radio.state == ERROR && t.radio.myNode == 1)
                 && Replied(s, t, if done then 0 else ERR_POWER) && (!done ==> t.ch[0].state == EMPTY)
  {
    var data: seq<byte> := [0, 1, 0];
    var p := CommandTyped(s, 0, CMD_ACTIVATE, data, w);
    assert p.data[0] == data[0] && p.data[1] == data[1];
    if s.ch[0].state <= EMPTY {
      SelfActivated(s, p, w);
    }
    hide Run, Typed, CommandLine, Executed;
  }
}
