// From the host's wall clock to a client's day clock: text line, controller clock,
// broadcast packet, client clock.

module EndToEnd {
  import opened Bytes
  import opened Text
  import opened Packets
  import opened Radios
  import opened Devices
  import opened Clock
  import opened Controllers
  import opened Exclusivity
  import opened Starvation
  import opened Printer
  import opened Lines
  import opened RoundTrip
  import opened TimeSync

  // The time message up to, but not including, its full stop.
  function TimeText(seconds: nat, micros: nat): string
    requires micros < 1000000
  {
    Prefix() + DecList(TimeFields(seconds, micros))
  }

  // Channel 0, node 1, the time command.
  function Prefix(): string { ">A1:5:" }

  lemma TimeTextIsPrinted(seconds: nat, micros: nat)
    requires micros < 1000000
    ensures Sent(CommandLine(0, 1, 5, TimeFields(seconds, micros))) == TimeText(seconds, micros) + ("." + CRLF)
  {
    assert Dec(1) == "1" && Dec(5) == "5";
    assert (0 + 'A' as int) % 0x100 == 'A' as int;
    hide DecList, TimeFields, Dec;
  }

  lemma ReadTimeText(p: Packet, f: seq<nat>)
    requires |f| == 3 && forall k :: 0 <= k < 3 ==> f[k] < 0x100
    ensures Read(Idle(p), 0, Prefix() + DecList(f))
            == Reading(WAITDATA, f[2], Filled(p.(node := 1, cmd := CMD_SET_TIME, len := 0), f[..2]))
  {
    hide Read, DecList, Filled, Prefix;
    ReadPrefix(p);
    ReadList(p.(node := 1, cmd := CMD_SET_TIME, len := 0), 0, f);
    ReadAppend(Idle(p), 0, Prefix(), DecList(f));
  }

  lemma ReadPrefix(p: Packet)
    ensures Read(Idle(p), 0, Prefix()) == Reading(WAITDATA, 0, p.(node := 1, cmd := CMD_SET_TIME, len := 0))
  {
    assert Dec(1) == "1";
    assert (0 + 'A' as int) % 0x100 == 'A' as int;
    ReadHead(p, 0, 1);
    assert ['>', 'A'] + "1" + ":" == ">A1:";
    var q := p.(node := 1);
    assert ">A1:5:" == ">A1:" + ("5" + ":");
    ReadAppend(Idle(p), 0, ">A1:", "5" + ":");
    ReadAppend(Reading(WAITCMD, 0, q), 0, "5", ":");
    ReadOne(Reading(WAITCMD, 0, q), 0, '5');
    ReadOne(Reading(WAITCMD, 5, q), 0, ':');
  }

  // The full stop of a time message sets the clock.
  lemma FullStopSetsClock(s: Ctl, w: World)
    requires Wf(s) && s.parser.io == WAITDATA && s.radio.myNode == 1
    requires var p := s.ch[s.parser.curr].packet; p.node == 1 && p.cmd == CMD_SET_TIME && p.len == 2
    ensures var t := ParseByte(s, '.', w);
            var p := s.ch[s.parser.curr].packet;
            t.radio == s.radio.(ms := Join(p.data[0], p.data[1]), tens := s.parser.value)
  {
  }

  /** Wall clock to controller: once the full stop of the time message has arrived, the
      controller's clock is the host's time of day in 10 ms units, whatever steps were
      interleaved with the text. */
  lemma ControllerTakesWallClock(s: Ctl, reading: seq<Step>, w: World, seconds: nat, micros: nat)
    requires Sound(s) && s.parser.io == NEWLINE && s.ch[0].state <= EMPTY && micros < 1000000
    requires SerialText(reading) == TimeText(seconds, micros) && NeverSpoils(s, 0, reading)
    requires Run(s, reading).radio.myNode == 1
    ensures var u := Run(s, reading);
            var t := Next(u, Serial('.', w));
            && t.radio == u.radio.(ms := t.radio.ms, tens := t.radio.tens)
            && InRange(t.radio) && t.radio.tens != UNKNOWN_TIME
            && DayTime(t.radio) == WallClock(seconds, micros)
  {
    BeforeFullStop(s, reading, seconds, micros);
    var u := Run(s, reading);
    SerialStep(u, Serial('.', w));
    FullStopSetsClock(u, w);
    var f: seq<byte> := TimeFields(seconds, micros);
    var t := ParseByte(u, '.', w).radio;
    hide ParseByte, Run, WallClock, TimeFields, Sound, NeverSpoils;
    FieldsAreTheTime(t, f, WallClock(seconds, micros));
  }

  lemma BeforeFullStop(s: Ctl, reading: seq<Step>, seconds: nat, micros: nat)
    requires Sound(s) && s.parser.io == NEWLINE && s.ch[0].state <= EMPTY && micros < 1000000
    requires SerialText(reading) == TimeText(seconds, micros) && NeverSpoils(s, 0, reading)
    ensures var u := Run(s, reading);
            var f := TimeFields(seconds, micros);
            && u.parser == Parser(WAITDATA, f[2], 0)
            && var q := u.ch[0].packet;
               q.node == 1 && q.cmd == CMD_SET_TIME && q.len == 2 && q.data[0] == f[0] && q.data[1] == f[1]
  {
    var p := s.ch[0].packet;
    var f: seq<nat> := TimeFields(seconds, micros);
    var q := p.(node := 1, cmd := CMD_SET_TIME, len := 0);
    RunFollows(s, reading, 0, Idle(p), |s.log.replies|, s.log.queued);
    ReadTimeText(p, f);
    hide Run, Read, Sound, NeverSpoils, TimeText, SerialText;
    FollowsReading(Run(s, reading), 0, f[2], Filled(q, f[..2]), |s.log.replies|, s.log.queued);
    TwoFields(q, f);
    hide *;
  }

  lemma TwoFields(q: Packet, f: seq<nat>)
    requires |f| == 3 && q.len == 0 && f[0] < 0x100 && f[1] < 0x100
    ensures var r := Filled(q, f[..2]);
            r.node == q.node && r.cmd == q.cmd && r.len == 2 && r.data[0] == f[0] && r.data[1] == f[1]
  {
    FilledHolds(q, f[..2]);
    var r := Filled(q, f[..2]);
    hide Filled;
    assert r.data[q.len + 0] == f[..2][0] % 0x100 && r.data[q.len + 1] == f[..2][1] % 0x100;
  }

  lemma FollowsReading(u: Ctl, k: nat, value: byte, p: Packet, replies: nat, queued: seq<Entry>)
    requires Follows(u, k, Reading(WAITDATA, value, p), replies, queued)
    ensures Wf(u) && u.parser == Parser(WAITDATA, value, k) && Agrees(WAITDATA, p, u.ch[k].packet)
  {
  }

  lemma FieldsAreTheTime(r: Radio, f: seq<byte>, time: nat)
    requires |f| == 3 && Join(f[0], f[1]) < TEN_MINUTES && f[2] < 144
    requires time == f[2] as int * TEN_MINUTES + Join(f[0], f[1])
    requires r.ms == Join(f[0], f[1]) && r.tens == f[2]
    ensures InRange(r) && r.tens != UNKNOWN_TIME && DayTime(r) == time
  {
  }

  /** Controller to client: a received time packet makes an active client's clock the
      packet's stamp and index. */
  lemma ClientTakesTime(r: Radio, slot: Packet, p: Packet, clock: word, tens: byte)
    requires Tuned(r) && r.state >= ACTIVE && p.len <= MAX_PAYLOAD
    requires MessageOf(p) == Message(0, CMD_SET_TIME, [tens])
    ensures var t := HandlePacket(r, slot, Frame(Stamped(p, clock)));
            t.tens == tens && t.ms == clock && t.state == r.state
  {
    var fifo := Frame(Stamped(p, clock));
    FrameRoundTrip(slot, p, clock, []);
    assert fifo + [] == fifo;
    var q := Received(slot, fifo);
    assert |MessageOf(q).payload| == q.len == 1;
    assert q.data[0] == MessageOf(q).payload[0];
    hide Accepted, Received, Frame, Stamped, SetState;
  }

  // A broadcast that the chip refuses stays queued with the index it was filled with.
  lemma RefusedBroadcast(s: Ctl, chip: Chip)
    requires Calm(s) && SchedulerRuns(s) && Wraps(s) && s.ch[SyncSlot(s.radio.ms)].state == EMPTY
    requires !Accepts(s.radio, chip) && !Clobbers(s, Scheduler(chip))
    ensures var t := Schedule(s, chip);
            var c := SyncSlot(s.radio.ms);
            && Calm(t) && Queued(t.ch[c]) && MessageOf(t.ch[c].packet) == Message(0, CMD_SET_TIME, [s.radio.tens])
  {
    ScheduleKeepsCalm(s, chip);
    var c := SyncSlot(s.radio.ms);
    var p := SyncPacket(s.ch[c].packet, s.radio.tens);
    PacketAfterSendSame(s.radio, p, chip);
    assert p.data[..1] == [s.radio.tens];
    hide Calm, AfterSend, PacketAfterSend, SyncSlot, Clobbers;
  }

  // A queued packet that is sent keeps its message and is stamped then.
  lemma SentWithStamp(s: Ctl, chip: Chip, c: nat)
    requires Wf(s) && c < CHANNELS && Queued(s.ch[c])
    requires var t := Schedule(s, chip); |t.log.sent| == |s.log.sent| + 1 && t.log.sent[|s.log.sent|].channel == c
    ensures var p := Schedule(s, chip).log.sent[|s.log.sent|].packet;
            && p.len <= MAX_PAYLOAD && MessageOf(p) == MessageOf(s.ch[c].packet) && p == Stamped(p, s.radio.ms)
  {
    var k := if Wraps(s) then SyncSlot(s.radio.ms) else Pick(s.ch, CHANNELS);
    StampedTwice(s.ch[c].packet, s.radio.ms);
    hide Stamped, AfterSend, SyncSlot, Pick, SyncPacket;
    assert k == c;
  }

  /** Stale time: a broadcast is filled in, refused by the chip and sent later, after any
      run. What it then gives an active client agrees with the controller's clock exactly
      when the ten-minute index is still the one it was filled in with. */
  lemma StaleTimePacket(s: Ctl, refusing: Chip, es: seq<Step>, chip: Chip, client: Radio, slot: Packet)
    requires Calm(s) && SchedulerRuns(s) && Wraps(s) && s.ch[SyncSlot(s.radio.ms)].state == EMPTY
    requires !Accepts(s.radio, refusing) && !Clobbers(s, Scheduler(refusing))
    requires var c := SyncSlot(s.radio.ms);
             var filled := Schedule(s, refusing);
             && SafeRun(filled, c, es)
             && var t := Run(filled, es);
                && !SentOn(filled, t, c, Message(0, CMD_SET_TIME, [s.radio.tens]))
                && var u := Schedule(t, chip);
                   |u.log.sent| == |t.log.sent| + 1 && u.log.sent[|t.log.sent|].channel == c
    requires Tuned(client) && client.state >= ACTIVE
    ensures var t := Run(Schedule(s, refusing), es);
            var air := Frame(Schedule(t, chip).log.sent[|t.log.sent|].packet);
            DayTime(HandlePacket(client, slot, air)) == DayTime(t.radio) <==> t.radio.tens == s.radio.tens
  {
    var c := SyncSlot(s.radio.ms);
    var filled := Schedule(s, refusing);
    var t := Run(filled, es);
    RefusedBroadcast(s, refusing);
    StillWaiting(filled, c, es);
    hide Run, SafeRun, SentOn, SyncSlot, Clobbers, Accepts, HandlePacket;
    KeptVictim(filled, t, c);
    SentWithStamp(t, chip, c);
    hide Schedule, Calm, Frame, Stamped;
    ClientTakesTime(client, slot, Schedule(t, chip).log.sent[|t.log.sent|].packet, t.radio.ms, s.radio.tens);
  }

  // Once the controller has read the time line, a broadcast after any number of ticks.
  lemma BroadcastAfterReading(
    s: Ctl, reading: seq<Step>, w: World, seconds: nat, micros: nat,
    running: seq<Step>, chip: Chip, client: Radio, slot: Packet)
    requires Sound(s) && s.parser.io == NEWLINE && s.ch[0].state <= EMPTY && micros < 1000000
    requires SerialText(reading) == TimeText(seconds, micros) && NeverSpoils(s, 0, reading)
    requires Run(s, reading).radio.myNode == 1
    requires var t := Next(Run(s, reading), Serial('.', w));
             var v := Run(t, running);
             && TicksOnly(t, running)
             && SchedulerRuns(v) && Wraps(v) && v.ch[SyncSlot(v.radio.ms)].state == EMPTY && Accepts(v.radio, chip)
    requires Tuned(client) && client.state >= ACTIVE
    ensures var v := Run(Next(Run(s, reading), Serial('.', w)), running);
            var sent := Schedule(v, chip).log.sent;
            && |sent| == |v.log.sent| + 1
            && var air := Frame(sent[|v.log.sent|].packet);
               DayTime(HandlePacket(client, slot, air)) == WallClock(seconds, micros) + Elapsed(running)
  {
    ControllerTakesWallClock(s, reading, w, seconds, micros);
    var t := Next(Run(s, reading), Serial('.', w));
    TimePasses(t, running);
    var v := Run(t, running);
    TurnBroadcastsTime(v, chip);
    hide Run, Next, Schedule, SyncSlot, Wraps, Sound, TicksOnly, NeverSpoils, SerialText, HandlePacket, WallClock;
    var e := Schedule(v, chip).log.sent[|v.log.sent|];
    ClientTakesTime(client, slot, e.packet, v.radio.ms, v.radio.tens);
  }

  // The number of steps up to the n-th serial byte.
  function After(es: seq<Step>, n: nat): (i: nat)
    ensures i <= |es|
    decreases |es|
  {
    if n == 0 || es == [] then 0 else 1 + After(es[1..], if es[0].Serial? then n - 1 else n)
  }

  lemma {:induction false} AfterTakes(es: seq<Step>, n: nat)
    requires 0 < n <= |SerialText(es)|
    ensures var i := After(es, n);
            && i > 0 && es[i - 1].Serial? && es[i - 1].c == SerialText(es)[n - 1]
            && SerialText(es[..i - 1]) == SerialText(es)[..n - 1]
    decreases |es|
  {
    var m := if es[0].Serial? then n - 1 else n;
    if es[0].Serial? {
      SerialHead(es);
    } else {
      SerialSkip(es);
    }
    if m == 0 {
      assert es[..0] == [];
    } else {
      AfterTakes(es[1..], m);
      var i := After(es, n);
      assert es[..i - 1][1..] == es[1..][..i - 2] && es[..i - 1][0] == es[0];
      hide After;
      if es[0].Serial? {
        SerialHead(es[..i - 1]);
        assert SerialText(es)[..n - 1] == [es[0].c] + SerialText(es)[1..][..n - 2];
      } else {
        SerialSkip(es[..i - 1]);
      }
    }
  }

  // The full stop of the time line in a run that begins with it.
  function StopIndex(es: seq<Step>, seconds: nat, micros: nat): nat
    requires micros < 1000000
  {
    var i := After(es, |TimeText(seconds, micros)| + 1);
    if i == 0 then 0 else i - 1
  }

  lemma StopIsFound(es: seq<Step>, seconds: nat, micros: nat)
    requires micros < 1000000 && Sent(CommandLine(0, 1, 5, TimeFields(seconds, micros))) <= SerialText(es)
    ensures var i := StopIndex(es, seconds, micros);
            && i < |es| && es[i].Serial? && es[i].c == '.'
            && SerialText(es[..i]) == TimeText(seconds, micros)
  {
    TimeTextIsPrinted(seconds, micros);
    var text := TimeText(seconds, micros);
    hide TimeText, TimeFields, CommandLine, Sent, After, SerialText, CRLF;
    BeginsWith(text, CRLF, SerialText(es));
    AfterTakes(es, |text| + 1);
  }

  lemma BeginsWith(text: string, more: string, all: string)
    requires text + ("." + more) <= all
    ensures |text| < |all| && all[|text|] == '.' && all[..|text|] == text
  {
    assert all[|text|] == (text + ("." + more))[|text|];
  }

  /** End to end: in a run whose serial input begins with the line by which the host sets
      the time, and that otherwise moves the clock by its ticks alone, every time
      broadcast gives every active client that hears it the host's wall clock plus the
      ticks since the line's full stop. */
  lemma WallClockReachesClients(
    s: Ctl, es: seq<Step>, seconds: nat, micros: nat, chip: Chip, client: Radio, slot: Packet)
    requires Sound(s) && s.parser.io == NEWLINE && s.ch[0].state <= EMPTY && micros < 1000000
    requires Sent(CommandLine(0, 1, 5, TimeFields(seconds, micros))) <= SerialText(es)
    requires var i := StopIndex(es, seconds, micros);
             i < |es| ==>
               && NeverSpoils(s, 0, es[..i]) && Run(s, es[..i]).radio.myNode == 1
               && TicksOnly(Next(Run(s, es[..i]), es[i]), es[i + 1..])
    requires var v := Run(s, es);
             SchedulerRuns(v) && Wraps(v) && v.ch[SyncSlot(v.radio.ms)].state == EMPTY && Accepts(v.radio, chip)
    requires Tuned(client) && client.state >= ACTIVE
    ensures var i := StopIndex(es, seconds, micros);
            var v := Run(s, es);
            var sent := Schedule(v, chip).log.sent;
            && i < |es| && |sent| == |v.log.sent| + 1
            && var air := Frame(sent[|v.log.sent|].packet);
               DayTime(HandlePacket(client, slot, air)) == WallClock(seconds, micros) + Elapsed(es[i + 1..])
  {
    StopIsFound(es, seconds, micros);
    var i := StopIndex(es, seconds, micros);
    hide StopIndex, CommandLine, TimeFields, TimeText, Sent, SerialText, Schedule, HandlePacket, Frame, WallClock;
    var u := Run(s, es[..i]);
    RunAt(s, es, i);
    BroadcastAfterReading(s, es[..i], es[i].world, seconds, micros, es[i + 1..], chip, client, slot);
  }

  lemma RunAt(s: Ctl, es: seq<Step>, i: nat)
    requires Wf(s) && i < |es|
    ensures Run(s, es) == Run(Next(Run(s, es[..i]), es[i]), es[i + 1..])
  {
    hide Run, Next, Wf;
    assert es == es[..i] + [es[i]] + es[i + 1..];
    RunAppend(s, es[..i] + [es[i]], es[i + 1..]);
    RunAppend(s, es[..i], [es[i]]);
    RunOne(Run(s, es[..i]), es[i]);
  }
}
