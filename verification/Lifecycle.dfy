// The life of a client, pass by pass: which state it is in, where it sits, and what a
// packet it obeys does to it.

module Lifecycle {
  import opened Bytes
  import opened Packets
  import opened Radios
  import opened Clients
  import opened Clock

  // What a pass may meet

  // The pass hears a good packet, which it finds in the slot.
  predicate HearsPacket(c: Client, e: Event) { e.Pass? && e.woken && Hears(c.slot, e.fifo) }

  function Delivered(c: Client, e: Event): Packet
    requires e.Pass?
  {
    Received(c.slot, e.fifo)
  }

  // The packet is broadcast, or for this client's node.
  predicate Reaches(r: Radio, p: Packet) { p.node == 0 || p.node == r.myNode }

  predicate ActivationFor(r: Radio, p: Packet)
  {
    && Reaches(r, p) && p.cmd == CMD_ACTIVATE && p.len == 6
    && p.data[2] == r.id.cat1 && p.data[3] == r.id.cat2 && p.data[4] == r.id.num1 && p.data[5] == r.id.num2
  }

  // A command of this length that the client obeys, being active.
  predicate Orders(r: Radio, p: Packet, cmd: byte, len: byte)
  {
    r.state >= ACTIVE && Reaches(r, p) && p.cmd == cmd && p.len == len
  }

  predicate IsActivated(c: Client, e: Event)
  {
    HearsPacket(c, e) && ActivationFor(c.radio, Delivered(c, e))
  }

  predicate Ordered(c: Client, e: Event, cmd: byte, len: byte)
  {
    HearsPacket(c, e) && Orders(c.radio, Delivered(c, e), cmd, len)
  }

  predicate Asleep(state: byte) { state == STARTUP || state == COLD || state == WARM }

  // States

  // The states a pass leads to.
  function NextState(c: Client, e: Event): byte
  {
    var r := c.radio;
    if IsActivated(c, e) then ACTIVE
    else if Asleep(r.state) || Ordered(c, e, CMD_DEACTIVATE, 0) then LISTEN
    else if r.state == ERROR then WARM
    else if r.state == LISTEN || HearsPacket(c, e) || r.sawRx || r.timeout != 1 then r.state
    else WARM
  }

  // What the commands a client obeys set, field by field

  // Falls asleep for want of anything heard, or recovers from an error.
  predicate FallsAsleep(c: Client, e: Event)
  {
    NextState(c, e) == WARM && c.radio.state != WARM
  }

  predicate StartsListening(c: Client, e: Event)
  {
    NextState(c, e) == LISTEN && c.radio.state != LISTEN
  }

  // Handed to the application, or answered by it: status requests, EEPROM reads and
  // whatever is not a command of the library.
  predicate ForApplication(r: Radio, p: Packet)
  {
    && r.state >= ACTIVE && Reaches(r, p)
    && ((p.cmd == CMD_STATUS && p.len == 3) || (p.cmd == CMD_READ_EEPROM && p.len == 4) || p.cmd > EEPROM_RESPONSE)
  }

  predicate HandsOn(c: Client, e: Event) { HearsPacket(c, e) && ForApplication(c.radio, Delivered(c, e)) }

  // What handling a packet does, before the changes of state of the pass itself.
  ghost predicate Handled(r: Radio, s: Radio, p: Packet, heard: bool)
    requires Tuned(r) && p.len <= MAX_PAYLOAD
  {
    && s.state == (if heard && ActivationFor(r, p) then ACTIVE
                   else if heard && Orders(r, p, CMD_DEACTIVATE, 0) then WARM else r.state)
    && (s.myChannel, s.myNode) == (if heard && ActivationFor(r, p) then (p.data[0], p.data[1])
                                   else if heard && Orders(r, p, CMD_DEACTIVATE, 0) then (0, 0)
                                   else (r.myChannel, r.myNode))
    && s.date == (if heard && Orders(r, p, CMD_SET_DATE, 2) then 256 * p.data[0] as int + p.data[1] as int else r.date)
    && s.tens == (if heard && Orders(r, p, CMD_SET_TIME, 1) then p.data[0]
                  else if heard && Orders(r, p, CMD_DEACTIVATE, 0) then UNKNOWN_TIME else r.tens)
    && s.handed == (if heard && ForApplication(r, p) then r.handed + [MessageOf(p)] else r.handed)
    && s.ms == (if heard && p.cmd < STATUS_RESPONSE then p.ticks else r.ms)
    && s.received == (if heard then (r.received + 1) % 0x1_0000 else r.received)
    && s.sawRx == (heard || r.sawRx)
    && s.period == (if heard && Orders(r, p, CMD_DEACTIVATE, 0) then r.slow
                    else if heard && ActivationFor(r, p) && r.state != ACTIVE then r.fast else r.period)
    && s.timeout == (if heard && ActivationFor(r, p) && r.state != ACTIVE then 6000 else r.timeout)
    && s.tickCount == (if heard && Orders(r, p, CMD_DEACTIVATE, 0) then 30000 / r.slow else r.tickCount)
    && s.mainTicks == (if heard && Orders(r, p, CMD_DEACTIVATE, 0) && r.mainTicks == 0 then s.tickCount
                       else r.mainTicks)
    && s.id == r.id && s.slow == r.slow && s.fast == r.fast
    && s.powered == r.powered && s.transmitted == r.transmitted && s.threadOk == r.threadOk
  }

  lemma Commanding(r: Radio, s: Radio, p: Packet)
    requires Tuned(r) && p.len <= MAX_PAYLOAD && Reaches(r, p)
    requires s == r.(ms := s.ms, received := s.received, sawRx := true, currChannel := s.currChannel)
    requires s.ms == (if p.cmd < STATUS_RESPONSE then p.ticks else r.ms) && s.received == (r.received + 1) % 0x1_0000
    ensures Handled(r, Command(s, p), p, true)
  {
    hide Interrupts;
  }

  lemma Handling(r: Radio, slot: Packet, fifo: seq<byte>)
    requires Tuned(r)
    ensures var s := HandlePacket(r, slot, fifo);
            Handled(r, s, Received(slot, fifo), Hears(slot, fifo)) && s.currChannel == r.myChannel
  {
    var p := Received(slot, fifo);
    var s := Receive(r, slot, fifo, r.myChannel);
    if Hears(slot, fifo) && Reaches(r, p) {
      Commanding(r, s, p);
      CommandTunes(s, p);
    }
    hide Accepted, Received, Command;
  }

  lemma CommandTunes(r: Radio, p: Packet)
    requires Tuned(r) && p.len <= MAX_PAYLOAD
    ensures Command(r, p).currChannel == r.currChannel
  {
    hide Interrupts;
  }

  // What the switch of the pass does after that.
  ghost predicate Switched(r: Radio, s: Radio)
    requires Tuned(r)
  {
    var wakes := Asleep(r.state);
    var sleeps := r.state == ERROR || (!wakes && r.state != LISTEN && !r.sawRx && r.timeout == 1);
    && s.state == (if wakes then LISTEN else if sleeps then WARM else r.state)
    && s.myChannel == (if wakes then 0 else r.myChannel)
    && s.tens == (if sleeps then UNKNOWN_TIME else r.tens)
    && s.period == (if r.state == COLD || r.state == WARM then r.fast else if sleeps then r.slow else r.period)
    && s.sawRx == (r.sawRx && (r.state == ERROR || r.state == LISTEN))
    && s.tickCount == (if wakes then 500 else if sleeps then 30000 / r.slow else r.tickCount)
    && s.mainTicks == (if r.mainTicks == 0 && (wakes || sleeps) then s.tickCount else r.mainTicks)
    && s.timeout == (if wakes then (if r.state == COLD then 6000 else 12000) / r.fast
                     else if r.state == ERROR || r.state == LISTEN then r.timeout
                     else if r.sawRx then 59999 else (r.timeout + 0xffff) % 0x1_0000)
    && s == r.(state := s.state, myChannel := s.myChannel, tens := s.tens, period := s.period, sawRx := s.sawRx,
               tickCount := s.tickCount, mainTicks := s.mainTicks, timeout := s.timeout)
  }

  lemma Switching(r: Radio)
    requires Tuned(r)
    ensures Switched(r, AfterWait(r))
  {
  }

  // A pass as a whole

  // What the client's main loop has when the switch is reached.
  function AtSwitch(c: Client, e: Event): Radio
    requires Tuned(c.radio) && e.Pass?
  {
    var woken := c.radio.(threadOk := false);
    if e.woken then HandlePacket(SetDelay(woken, 5), c.slot, e.fifo) else woken
  }

  lemma PassParts(c: Client, e: Event)
    requires Tuned(c.radio) && e.Pass?
    ensures var r := c.radio.(threadOk := false);
            var s := AtSwitch(c, e);
            && Tuned(s) && Switched(s, Step(c, e).radio)
            && (if !e.woken then s == r
                else Handled(SetDelay(r, 5), s, Delivered(c, e), HearsPacket(c, e)) && s.currChannel == r.myChannel)
  {
    hide Handled, Switched, HandlePacket, AfterWait, Hears, Received;
    if e.woken {
      Handling(SetDelay(c.radio.(threadOk := false), 5), c.slot, e.fifo);
    }
    Switching(AtSwitch(c, e));
  }

  /** The state after a pass, exactly: sleep ends in LISTEN with the next pass, and so does
      the pass that obeys a DEACTIVATE; LISTEN is left only by an ACTIVATE for this client;
      an error ends in WARM; an active client falls asleep only for want of anything
      heard. */
  lemma StateAfterPass(c: Client, e: Event)
    requires Tuned(c.radio) && e.Pass?
    ensures Step(c, e).radio.state == NextState(c, e)
  {
    hide Delivered, Hears, Step, AtSwitch;
    PassParts(c, e);
  }

  /** Where a pass leaves a client: at the address an ACTIVATE assigns it; at channel and
      node 0 after a DEACTIVATE; on channel 0 when it starts to listen; else where it was.
      The radio is tuned to the channel it had, if it was woken by the chip. */
  lemma PlaceAfterPass(c: Client, e: Event)
    requires Tuned(c.radio) && e.Pass?
    ensures var r, d := c.radio, Step(c, e).radio;
            && (d.myChannel, d.myNode)
               == (if IsActivated(c, e) then (Delivered(c, e).data[0], Delivered(c, e).data[1])
                   else if Ordered(c, e, CMD_DEACTIVATE, 0) then (0, 0)
                   else if Asleep(r.state) then (0, r.myNode)
                   else (r.myChannel, r.myNode))
            && d.currChannel == (if e.woken then r.myChannel else r.currChannel)
  {
    hide Delivered, Hears, Step, AtSwitch;
    PassParts(c, e);
  }

  /** The slot keeps what was last read from a full frame, good or bad. */
  lemma SlotAfterPass(c: Client, e: Event)
    requires Tuned(c.radio) && e.Pass?
    ensures Step(c, e).slot == if e.woken && |e.fifo| >= 16 then Delivered(c, e) else c.slot
  {
    hide Received, AfterWait, HandlePacket;
  }

  /** What a pass takes from a packet: the sender's ticks from any command of the controller
      that is heard, the ten-minute index and the date from the commands that set them, and
      for the application exactly what is meant for it. The index is lost in sleep. */
  lemma TakenFromPacket(c: Client, e: Event)
    requires Tuned(c.radio) && e.Pass?
    ensures var r, d := c.radio, Step(c, e).radio;
            && d.ms == (if HearsPacket(c, e) && Delivered(c, e).cmd < STATUS_RESPONSE then Delivered(c, e).ticks
                        else r.ms)
            && d.date == (if Ordered(c, e, CMD_SET_DATE, 2)
                          then 256 * Delivered(c, e).data[0] as int + Delivered(c, e).data[1] as int else r.date)
            && d.tens == (if FallsAsleep(c, e) || Ordered(c, e, CMD_DEACTIVATE, 0) then UNKNOWN_TIME
                          else if Ordered(c, e, CMD_SET_TIME, 1) then Delivered(c, e).data[0] else r.tens)
            && d.handed == (if HandsOn(c, e) then r.handed + [MessageOf(Delivered(c, e))] else r.handed)
            && d.received == (if HearsPacket(c, e) then (r.received + 1) % 0x1_0000 else r.received)
            && d.transmitted == r.transmitted && d.id == r.id && d.powered == r.powered
  {
    hide Delivered, Hears, Step, AtSwitch, MessageOf;
    PassParts(c, e);
  }

  // Which of its changes the switch makes.
  lemma SwitchedWhen(c: Client, e: Event)
    requires Tuned(c.radio) && e.Pass?
    ensures var s := AtSwitch(c, e);
            && (Asleep(s.state) <==> StartsListening(c, e))
            && (s.state == ERROR || (!Asleep(s.state) && s.state != LISTEN && !s.sawRx && s.timeout == 1)
                <==> FallsAsleep(c, e))
            && s.slow == c.radio.slow && s.fast == c.radio.fast && !s.threadOk
            && s.mainTicks == (if c.radio.mainTicks == 0 && e.woken then 5 else c.radio.mainTicks)
            && (!StartsListening(c, e) ==> s.tickCount == if e.woken then 5 else c.radio.tickCount)
  {
    hide Delivered, Hears, Step, AtSwitch, Switched;
    PassParts(c, e);
  }

  /** How long it then waits: 5 ticks after a reception, 500 when it starts to listen, five
      minutes at the slow period when it falls asleep. A wait already running is not cut
      short. */
  lemma DelayAfterPass(c: Client, e: Event)
    requires Tuned(c.radio) && e.Pass?
    ensures var r, d := c.radio, Step(c, e).radio;
            && d.tickCount == (if StartsListening(c, e) then 500 else if FallsAsleep(c, e) then 5 * 60 * 100 / r.slow
                               else if e.woken then 5 else r.tickCount)
            && d.mainTicks == (if r.mainTicks != 0 then r.mainTicks else if e.woken then 5
                               else if StartsListening(c, e) || FallsAsleep(c, e) then d.tickCount else 0)
            && !d.threadOk
  {
    hide Delivered, Step, AtSwitch, NextState, IsActivated, Ordered, Handled, StartsListening, FallsAsleep, HearsPacket;
    PassParts(c, e);
    SwitchedWhen(c, e);
  }

  /** The pace of the clock: slow when it falls asleep, fast from the next pass on, and when
      it is activated. */
  lemma PaceAfterPass(c: Client, e: Event)
    requires Tuned(c.radio) && e.Pass?
    ensures var r, d := c.radio, Step(c, e).radio;
            && d.slow == r.slow && d.fast == r.fast
            && d.period == (if FallsAsleep(c, e) then r.slow
                            else if IsActivated(c, e) && r.state != ACTIVE then r.fast
                            else if Ordered(c, e, CMD_DEACTIVATE, 0) || r.state == COLD || r.state == WARM then r.fast
                            else r.period)
  {
    hide Delivered, Hears, Step, AtSwitch;
    PassParts(c, e);
  }

  // Over the air

  // A packet sent with the ticks of the sender's clock wakes the client.
  function OnAir(p: Packet, clock: word): Event
    requires p.len <= MAX_PAYLOAD
  {
    Pass(true, Frame(Stamped(p, clock)))
  }

  lemma Arrives(c: Client, p: Packet, clock: word)
    requires p.len <= MAX_PAYLOAD
    ensures var e := OnAir(p, clock);
            && HearsPacket(c, e)
            && var q := Delivered(c, e);
               && q.node == p.node && q.cmd == p.cmd && q.len == p.len && q.ticks == clock
               && MessageOf(q) == MessageOf(p)
               && forall i :: 0 <= i < p.len ==> q.data[i] == p.data[i]
  {
    FrameRoundTrip(c.slot, p, clock, []);
    hide Accepted, Received, Frame, Stamped;
    assert Frame(Stamped(p, clock)) + [] == Frame(Stamped(p, clock));
    var q := Received(c.slot, Frame(Stamped(p, clock)));
    assert q.len == |MessageOf(q).payload| == p.len;
    forall i | 0 <= i < p.len ensures q.data[i] == p.data[i] {
      assert MessageOf(q).payload[i] == MessageOf(p).payload[i];
    }
  }

  /** A DEACTIVATE sent to an active client leaves it listening, at channel and node 0, its
      clock parked. */
  lemma DeactivationIsObeyed(c: Client, p: Packet, clock: word)
    requires Tuned(c.radio) && Orders(c.radio, p, CMD_DEACTIVATE, 0)
    ensures var d := Step(c, OnAir(p, clock)).radio;
            d.state == LISTEN && d.myChannel == 0 && d.myNode == 0 && d.tens == UNKNOWN_TIME
            && d.date == c.radio.date && d.handed == c.radio.handed
  {
    var e := OnAir(p, clock);
    hide Step, HearsPacket, Delivered, MessageOf;
    Arrives(c, p, clock);
    StateAfterPass(c, e);
    PlaceAfterPass(c, e);
    TakenFromPacket(c, e);
  }

  // The client is not activated, and its application, which runs only in the active
  // states, does not change its state.
  ghost predicate NeverActivated(c: Client, es: seq<Event>)
    requires Tuned(c.radio)
    decreases |es|
  {
    es == [] || (!es[0].Application? && !IsActivated(c, es[0]) && NeverActivated(Step(c, es[0]), es[1..]))
  }

  // A listening client as it was, but for what it hears of the time.
  ghost predicate StillListening(r: Radio, s: Radio)
  {
    && r.state == LISTEN && s.state == LISTEN && s.myChannel == r.myChannel && s.myNode == r.myNode
    && s.date == r.date && s.handed == r.handed
  }

  lemma ListeningPass(c: Client, e: Event)
    requires Tuned(c.radio) && c.radio.state == LISTEN && e.Pass? && !IsActivated(c, e)
    ensures StillListening(c.radio, Step(c, e).radio)
  {
    hide Step, HearsPacket, Delivered, MessageOf;
    StateAfterPass(c, e);
    PlaceAfterPass(c, e);
    TakenFromPacket(c, e);
  }

  lemma ListeningStep(c: Client, e: Event)
    requires Tuned(c.radio) && c.radio.state == LISTEN && !e.Application? && !IsActivated(c, e)
    ensures StillListening(c.radio, Step(c, e).radio)
  {
    match e {
      case Interrupt =>
      case Pass(_, _) =>
        ListeningPass(c, e);
        hide *;
      case Retune => hide Interrupts;
    }
  }

  /** A client that listens obeys nothing until an ACTIVATE for it, over any run: it goes on
      listening where it is, takes no date, and hands nothing to its application. */
  lemma {:induction false} ListensUntilActivated(c: Client, es: seq<Event>)
    requires Tuned(c.radio) && c.radio.state == LISTEN && NeverActivated(c, es)
    ensures StillListening(c.radio, Run(c, es).radio)
    decreases |es|
  {
    if es != [] {
      ListeningStep(c, es[0]);
      hide Step, IsActivated;
      ListensUntilActivated(Step(c, es[0]), es[1..]);
    }
  }

  /** So a client that has obeyed a DEACTIVATE obeys no command, to whatever node, until it
      is activated again. */
  lemma DeactivatedObeysNothing(c: Client, p: Packet, clock: word, es: seq<Event>)
    requires Tuned(c.radio) && Orders(c.radio, p, CMD_DEACTIVATE, 0)
    requires NeverActivated(Step(c, OnAir(p, clock)), es)
    ensures var d := Run(Step(c, OnAir(p, clock)), es).radio;
            && d.state == LISTEN && d.myChannel == 0 && d.myNode == 0
            && d.date == c.radio.date && d.handed == c.radio.handed
  {
    DeactivationIsObeyed(c, p, clock);
    hide Step, Run, NeverActivated, OnAir;
    ListensUntilActivated(Step(c, OnAir(p, clock)), es);
  }

  /** A date sent to an active client arrives as it was, high byte first. */
  lemma DateIsTaken(c: Client, p: Packet, clock: word)
    requires Tuned(c.radio) && Orders(c.radio, p, CMD_SET_DATE, 2)
    ensures var d := Step(c, OnAir(p, clock)).radio;
            d.date == 256 * p.data[0] as int + p.data[1] as int && d.handed == c.radio.handed
  {
    hide Step, HearsPacket, Delivered, MessageOf;
    Arrives(c, p, clock);
    TakenFromPacket(c, OnAir(p, clock));
  }

  /** What is sent to a client is handed on, as the very message sent, exactly if it is
      active, addressed, and asked for its status, for EEPROM bytes or by a command of the
      application. */
  lemma HandedOnExactly(c: Client, p: Packet, clock: word)
    requires Tuned(c.radio) && p.len <= MAX_PAYLOAD
    ensures var d := Step(c, OnAir(p, clock)).radio;
            d.handed == c.radio.handed + if ForApplication(c.radio, p) then [MessageOf(p)] else []
  {
    hide Step, HearsPacket, Delivered, MessageOf;
    Arrives(c, p, clock);
    TakenFromPacket(c, OnAir(p, clock));
  }

  // The application changes the state

  /** A change of state by the application keeps the client active, fast and where it is. */
  lemma ApplicationState(c: Client, n: byte)
    requires Tuned(c.radio) && n > ACTIVE && c.radio.state != n
    ensures var r, d := c.radio, Step(c, Application(n)).radio;
            d.state == n && d.period == r.fast && d.timeout == 60 * 100
            && d == r.(state := n, period := d.period, timeout := d.timeout)
  {
  }

  // Sleep

  /** Sleep lasts an hour from COLD and five minutes from WARM, at the slow period and with
      the day clock parked: unless a wait is under way, the first wake-up comes after that
      many clock interrupts, or after 65535 if that is fewer. */
  lemma SleepLasts(r: Radio, newState: byte, n: nat)
    requires Tuned(r) && r.state != newState && r.mainTicks == 0 && !r.threadOk
    requires newState == COLD || newState == WARM
    ensures var s := SetState(r, newState);
            var units := if newState == COLD then 60 * 60 * 100 else 5 * 60 * 100;
            var sleep := if units / r.slow > 65535 then 65535 else units / r.slow;
            && s.period == r.slow && s.tens == UNKNOWN_TIME && s.mainTicks == sleep
            && (0 < n < sleep ==> !Ticks(s, n).threadOk) && (n == sleep > 0 ==> Ticks(s, n).threadOk)
  {
    var s := SetState(r, newState);
    if n <= s.mainTicks && 0 < s.mainTicks {
      WakesOnTime(s, n);
    }
  }

  /** Power-on: the main loop is first woken by the fifth clock interrupt, and its pass
      leaves any client listening on channel 0, fast, its time and date unknown. */
  lemma PowerOn(id: Identity, n: nat, slot: Packet)
    requires n <= 5
    ensures var r := Initial(id);
            && r.state == STARTUP && r.timeout == 60 * 100 && r.tickCount == 5 && r.myChannel == 0 && !r.sawRx
            && Ticks(r, n).threadOk == (n == 5)
            && var c := Client(Ticks(r, n), slot);
               && Tuned(c.radio)
               && var d := Step(c, Pass(false, [])).radio;
                  && d.state == LISTEN && d.myChannel == 0 && d.myNode == 0 && d.currChannel == 0
                  && d.period == d.fast == 1 && d.slow == 16 && d.tens == UNKNOWN_TIME && d.ms == 0 && d.date == 0
                  && d.id == id && d.received == d.transmitted == 0 && !d.powered && d.handed == []
  {
    WakesOnTime(Initial(id), n);
    StartupTicks(Initial(id), n);
    hide Ticks;
  }

  // A parked clock only counts the wait down.
  lemma StartupTick(r: Radio)
    requires r.tens == UNKNOWN_TIME
    ensures var t := Tick(r);
            t == r.(mainTicks := t.mainTicks, threadOk := t.threadOk)
  {
  }

  lemma {:induction false} StartupTicks(r: Radio, n: nat)
    requires r.tens == UNKNOWN_TIME
    ensures var t := Ticks(r, n);
            t == r.(mainTicks := t.mainTicks, threadOk := t.threadOk)
  {
    hide Tick;
    if n > 0 {
      StartupTicks(r, n - 1);
      StartupTick(Ticks(r, n - 1));
    }
  }

  // Between passes

  function InterruptsOnly(n: nat): seq<Event> { if n == 0 then [] else InterruptsOnly(n - 1) + [Interrupt] }

  lemma {:induction false} RunOneMore(c: Client, es: seq<Event>, e: Event)
    requires Tuned(c.radio)
    ensures Run(c, es + [e]) == Step(Run(c, es), e)
    decreases |es|
  {
    hide Step;
    if es == [] {
      assert es + [e] == [e] && [e][1..] == [];
    } else {
      RunOneMore(Step(c, es[0]), es[1..], e);
      assert (es + [e])[1..] == es[1..] + [e];
    }
  }

  /** Between passes a client's clock and its wait run on with the interrupts, and nothing
      else changes: at one unit per interrupt its time of day grows by their number until it
      parks, and its main loop is woken by exactly the interrupt that ends the wait. */
  lemma {:induction false} RunsOn(c: Client, n: nat)
    requires Tuned(c.radio)
    ensures var d := Run(c, InterruptsOnly(n));
            && d == c.(radio := Ticks(c.radio, n))
            && (InRange(c.radio) && c.radio.period == 1 && ParkedAtZero(c.radio) ==>
                  DayTime(d.radio) == if DayTime(c.radio) + n < PARKED then DayTime(c.radio) + n else PARKED)
            && (0 < c.radio.mainTicks && n <= c.radio.mainTicks ==>
                  d.radio.threadOk == (c.radio.threadOk || n == c.radio.mainTicks))
  {
    hide Tick, DayTime;
    if n > 0 {
      RunsOn(c, n - 1);
      RunOneMore(c, InterruptsOnly(n - 1), Interrupt);
    }
    if InRange(c.radio) && c.radio.period == 1 && ParkedAtZero(c.radio) {
      TimeAdvancesExactly(c.radio, n);
    }
    if 0 < c.radio.mainTicks && n <= c.radio.mainTicks {
      WakesOnTime(c.radio, n);
    }
  }

  // Restarting the receiver

  /** The receiver restarts on the channel assigned if the chip is up or comes up, and
      otherwise leaves the ERROR state, for a minute; nothing else changes. */
  lemma ReceiverRestarts(r: Radio, powersUp: bool)
    requires Tuned(r) && r.state != ERROR && r.mainTicks == 0
    ensures var s := RecvStart(r, powersUp);
            if r.powered || powersUp then s == r.(powered := true, currChannel := r.myChannel)
            else s == r.(state := ERROR, tickCount := 60 * 100 / r.period, mainTicks := 60 * 100 / r.period)
    ensures Step(Client(r, BLANK), Retune).radio == r.(powered := true, currChannel := r.myChannel)
  {
  }
}
