// One pass of the scheduler, exactly: which channel it turns to, what it sends, and what is
// left of the channels, the wait and the radio.

module Scheduling {
  import opened Bytes
  import opened Packets
  import opened Radios
  import opened Devices
  import opened Clock
  import opened Controllers

  // Waiting to be sent, or to be answered; 0 is no priority.
  predicate Urgent(c: Channel) { c.state >= TRANSMIT && c.priority > 0 }

  // The most urgent channel, and of those the lowest.
  ghost predicate MostUrgent(ch: seq<Channel>, c: nat)
  {
    && c < |ch| && Urgent(ch[c])
    && forall j :: 0 <= j < |ch| && j != c && Urgent(ch[j]) ==>
         if j < c then ch[j].priority < ch[c].priority else ch[j].priority <= ch[c].priority
  }

  // The chip can be brought up, answers, has room and starts.
  predicate Takes(r: Radio, chip: Chip)
  {
    (r.powered || chip.powersUp) && chip.ready && chip.hasSpace && chip.starts
  }

  // Two points of priority for all that is queued or waits, up to 252 or 253.
  predicate AgedFrom(c: Channel, d: Channel)
  {
    && d.state == c.state && d.packet == c.packet
    && d.priority == if c.state >= TRANSMIT && c.priority <= 251 then c.priority + 2 else c.priority
  }

  // What has become of the channel that had its turn with packet p.
  predicate TurnTaken(c: Channel, d: Channel, r: Radio, p: Packet, chip: Chip)
    requires p.len <= MAX_PAYLOAD
  {
    if Takes(r, chip) then
      && d.packet == Stamped(p, r.ms)
      && (if c.state == TXRESPOND then d.state == RXRESPONSE1 && d.priority == 2
          else d.state == EMPTY && d.priority == 0)
    else
      && d.packet.len == p.len && MessageOf(d.packet) == MessageOf(p) && d.state == c.state
      && d.priority == if c.state >= TRANSMIT && c.priority <= 251 then c.priority + 2 else c.priority
  }

  // The radio after it has been asked to send.
  predicate RadioAsked(r: Radio, t: Radio, chip: Chip)
  {
    if !r.powered && !chip.powersUp then t.state == ERROR && !t.powered && t.transmitted == r.transmitted
    else
      t == r.(powered := true, currChannel := chip.channel,
              transmitted := if Takes(r, chip) then (r.transmitted + 1) % 0x1_0000 else r.transmitted)
  }

  // Channel c, which holds p in state and priority of `slot`, has had its turn.
  ghost predicate Turned(s: Ctl, t: Ctl, c: nat, slot: Channel, chip: Chip)
    requires Wf(s) && Wf(t) && c < CHANNELS && slot.packet.len <= MAX_PAYLOAD
  {
    && TurnTaken(slot, t.ch[c], s.radio, slot.packet, chip)
    && (forall j :: 0 <= j < CHANNELS && j != c ==> AgedFrom(s.ch[j], t.ch[j]))
    && t.resp == (if Takes(s.radio, chip) && slot.state == TXRESPOND then c else -1)
    && t.log == s.log.(sent := if Takes(s.radio, chip) then s.log.sent + [Entry(c, Stamped(slot.packet, s.radio.ms))]
                               else s.log.sent)
    && RadioAsked(s.radio, t.radio, chip) && t.parser == s.parser
  }

  // The slot of a free channel filled with the time.
  predicate TimeSlot(s: Ctl, c: nat, slot: Channel)
    requires c < |s.ch|
  {
    slot.state == TRANSMIT && slot.priority == 255 && slot.packet.len == 1 &&
    MessageOf(slot.packet) == Message(0, CMD_SET_TIME, [s.radio.tens])
  }

  lemma TransmitTurns(s: Ctl, c: nat, chip: Chip)
    requires Wf(s) && s.resp == -1 && c < CHANNELS
    ensures Turned(s, Transmit(s, c, chip), c, s.ch[c], chip)
  {
    StampedKeeps(s.ch[c].packet, s.radio.ms);
    hide Stamped, Interrupts;
  }

  lemma StampedKeeps(p: Packet, clock: word)
    requires p.len <= MAX_PAYLOAD
    ensures Stamped(p, clock).len == p.len && MessageOf(Stamped(p, clock)) == MessageOf(p)
  {
    hide Sum;
  }

  lemma SyncTurns(s: Ctl, c: nat, chip: Chip) returns (slot: Channel)
    requires Wf(s) && s.resp == -1 && c < CHANNELS && s.ch[c].state == EMPTY
    ensures slot.packet.len <= MAX_PAYLOAD && TimeSlot(s, c, slot)
    ensures Turned(s, Transmit(InstallSync(s, c), c, chip), c, slot, chip)
  {
    var u := InstallSync(s, c);
    slot := u.ch[c];
    assert slot.packet.data[..1] == [s.radio.tens];
    TransmitTurns(u, c, chip);
    hide Transmit, TurnTaken, RadioAsked, SyncPacket;
  }

  /** One pass of the scheduler while no response is awaited. If the ticks have wrapped past
      a multiple of 500 it is the turn of the channel that the boundary names: a channel for
      sending sends the time if it is free and what it holds if not; any other sends
      nothing. Otherwise the most urgent channel sends what it holds, if there is one. The
      packet is stamped with the ticks, the channel freed or made to wait, and all others
      age, whether the chip takes the packet or not. */
  lemma PassExactly(s: Ctl, chip: Chip)
    requires Wf(s) && s.resp == -1 && s.radio.state >= LISTEN
    ensures var t := Next(s, Scheduler(chip));
            var u := s.(lastModulo := s.radio.ms % 500);
            && t.lastModulo == s.radio.ms % 500
            && if s.radio.ms % 500 < s.lastModulo then
                 var c := s.radio.ms / 500 % 6;
                 if s.ch[c].state < EMPTY then t == u
                 else if s.ch[c].state > EMPTY then Turned(u, t, c, s.ch[c], chip)
                 else
                   exists slot: Channel ::
                     slot.packet.len <= MAX_PAYLOAD && TimeSlot(u, c, slot) && Turned(u, t, c, slot, chip)
               else if exists c: nat :: MostUrgent(s.ch, c) then
                 exists c: nat :: MostUrgent(s.ch, c) && Turned(u, t, c, s.ch[c], chip)
               else t == u
  {
    var u := s.(lastModulo := s.radio.ms % 500);
    hide Transmit, TurnTaken, RadioAsked, AgedFrom, TimeSlot;
    if s.radio.ms % 500 < s.lastModulo {
      var c := s.radio.ms / 500 % 6;
      if s.ch[c].state == EMPTY {
        var slot := SyncTurns(u, c, chip);
      } else if s.ch[c].state > EMPTY {
        TransmitTurns(u, c, chip);
      }
    } else {
      MostUrgentIsPicked(s.ch);
      if Pick(s.ch, CHANNELS) >= 0 {
        TransmitTurns(u, Pick(s.ch, CHANNELS), chip);
      }
    }
  }

  lemma MostUrgentIsPicked(ch: seq<Channel>)
    requires |ch| == CHANNELS
    ensures var k := Pick(ch, CHANNELS);
            if k >= 0 then MostUrgent(ch, k) else forall c: nat :: !MostUrgent(ch, c)
  {
    PickIsBest(ch, CHANNELS);
    forall j | 0 <= j < CHANNELS ensures Eligible(ch[j]) <==> Urgent(ch[j]) {
    }
  }

  /** The scheduler does nothing while a response is awaited or the radio is not up. */
  lemma NoPass(s: Ctl, chip: Chip)
    requires Wf(s) && (s.resp >= 0 || s.radio.state < LISTEN)
    ensures Next(s, Scheduler(chip)) == s
  {
  }

  /** The main loop sleeps until the wait that is under way has run out, tick by tick. */
  lemma SleepsBetweenTurns(s: Ctl, n: nat)
    requires Wf(s) && 0 < s.radio.mainTicks && n <= s.radio.mainTicks
    ensures var t := Next(s, Wake);
            && t == s.(radio := t.radio)
            && Ticks(t.radio, n).threadOk == (n == s.radio.mainTicks)
  {
    WakesOnTime(Next(s, Wake).radio, n);
  }
}
