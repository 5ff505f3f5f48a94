// Runs of one client: what every sequence of clock interrupts, loop passes and
// received frames keeps true, and how long silence is tolerated.

module Clients {
  import opened Bytes
  import opened Packets
  import opened Radios

  datatype Client = Client(radio: Radio, slot: Packet)

  // Application states are those from 7 up.
  datatype Event =
    | Interrupt
    | Pass(woken: bool, fifo: seq<byte>)
    | Application(newState: byte)
    | Retune                            // libradio_recv_start

  function Step(c: Client, e: Event): (d: Client)
    requires Tuned(c.radio)
    ensures Tuned(d.radio)
  {
    match e
    case Interrupt => c.(radio := Tick(c.radio))
    case Pass(woken, fifo) =>
      Client(LoopPass(c.radio, c.slot, woken, fifo), LoopSlot(c.slot, woken, fifo))
    case Application(n) =>
      if n > ACTIVE then c.(radio := SetState(c.radio, n)) else c
    case Retune => c.(radio := RecvStart(c.radio, true))
  }

  function Run(c: Client, es: seq<Event>): (d: Client)
    requires Tuned(c.radio)
    ensures Tuned(d.radio)
    decreases |es|
  {
    if es == [] then c else Run(Step(c, es[0]), es[1..])
  }

  /** What holds between any two steps of a client. */
  ghost predicate Steady(r: Radio)
  {
    && Tuned(r)
    && r.state != ERROR && r.state != LOW_BATTERY
    && ((r.state == COLD || r.state == WARM) ==> r.period == r.slow)
    && (!(r.state == COLD || r.state == WARM) ==> r.period == r.fast)
    && (r.tens != UNKNOWN_TIME ==> r.state >= ACTIVE)
    && (r.state >= ACTIVE ==> 1 <= r.timeout <= 60000)
  }

  lemma InitialIsSteady(id: Identity)
    ensures Steady(Initial(id))
  {
  }

  lemma SetStateKeepsSteady(r: Radio, n: byte)
    requires Steady(r) && n != ERROR && n != LOW_BATTERY
    requires (n == STARTUP || n == LISTEN) ==> r.tens == UNKNOWN_TIME
    ensures Steady(SetState(r, n)) && SetState(r, n).state == n
  {
  }

  lemma CommandKeepsSteady(r: Radio, p: Packet)
    requires Steady(r) && p.len <= MAX_PAYLOAD
    ensures Steady(Command(r, p))
  {
    if p.cmd == CMD_ACTIVATE {
      SetStateKeepsSteady(r.(myChannel := p.data[0], myNode := p.data[1]), ACTIVE);
    } else if p.cmd == CMD_DEACTIVATE {
      SetStateKeepsSteady(r.(myChannel := 0, myNode := 0), WARM);
    }
  }

  lemma HandlingKeepsSteady(r: Radio, slot: Packet, fifo: seq<byte>)
    requires Steady(r)
    ensures Steady(HandlePacket(r, slot, fifo))
  {
    var s := Receive(r, slot, fifo, r.myChannel);
    assert Steady(s);
    if Hears(slot, fifo) {
      CommandKeepsSteady(s, Received(slot, fifo));
    }
  }

  lemma AfterWaitKeepsSteady(r: Radio)
    requires Steady(r)
    ensures Steady(AfterWait(r))
    ensures AfterWait(r).state >= ACTIVE ==> !AfterWait(r).sawRx
  {
    if r.state >= ACTIVE {
      var s := if r.sawRx then r.(timeout := TEN_MINUTES, sawRx := false) else r;
      if s.timeout == 1 {
        SetStateKeepsSteady(s, WARM);
      }
    } else if r.state != LISTEN {
      SetStateKeepsSteady(r, LISTEN);
    }
  }

  lemma PassKeepsSteady(r: Radio, slot: Packet, woken: bool, fifo: seq<byte>)
    requires Steady(r)
    ensures Steady(LoopPass(r, slot, woken, fifo))
  {
    var s := r.(threadOk := false);
    if woken {
      HandlingKeepsSteady(SetDelay(s, 5), slot, fifo);
      AfterWaitKeepsSteady(HandlePacket(SetDelay(s, 5), slot, fifo));
    } else {
      AfterWaitKeepsSteady(s);
    }
  }

  /** COLD and WARM run slowly with the day clock parked, every other state runs fast,
      the day clock runs only once activated, and the silence timeout stays in range:
      over every run. */
  lemma {:induction false} RunKeepsSteady(c: Client, es: seq<Event>)
    requires Steady(c.radio)
    ensures Steady(Run(c, es).radio)
    decreases |es|
  {
    if es != [] {
      match es[0] {
        case Interrupt =>
        case Pass(woken, fifo) => PassKeepsSteady(c.radio, c.slot, woken, fifo);
        case Application(n) => if n > ACTIVE { SetStateKeepsSteady(c.radio, n); }
        case Retune =>
      }
      RunKeepsSteady(Step(c, es[0]), es[1..]);
    }
  }

  // Silence

  predicate Silent(e: Event, slot: Packet)
  {
    e.Interrupt? || e.Retune? || (e.Pass? && (e.woken ==> !Hears(slot, e.fifo)))
  }

  ghost predicate AllSilent(c: Client, es: seq<Event>)
    requires Tuned(c.radio)
    decreases |es|
  {
    es == [] || (Silent(es[0], c.slot) && AllSilent(Step(c, es[0]), es[1..]))
  }

  function Passes(es: seq<Event>): nat
    decreases |es|
  {
    if es == [] then 0 else (if es[0].Pass? then 1 else 0) + Passes(es[1..])
  }

  // Hearing nothing changes neither the state nor the timeout.
  lemma SilentHandling(r: Radio, slot: Packet, fifo: seq<byte>)
    requires Tuned(r) && !Hears(slot, fifo)
    ensures var s := HandlePacket(SetDelay(r.(threadOk := false), 5), slot, fifo);
            s.state == r.state && s.timeout == r.timeout && s.sawRx == r.sawRx
  {
  }

  lemma SilentStep(c: Client, e: Event)
    requires Steady(c.radio) && c.radio.state >= ACTIVE && !c.radio.sawRx && Silent(e, c.slot)
    ensures var d := Step(c, e).radio;
            && Steady(d)
            && (if e.Pass? && c.radio.timeout == 1 then d.state == WARM
                else && !d.sawRx && d.state == c.radio.state
                     && d.timeout == c.radio.timeout - (if e.Pass? then 1 else 0))
  {
    if e.Pass? {
      PassKeepsSteady(c.radio, c.slot, e.woken, e.fifo);
      if e.woken {
        SilentHandling(c.radio, c.slot, e.fifo);
      }
    }
  }

  lemma {:induction false} SilenceCountsDown(c: Client, es: seq<Event>)
    requires Steady(c.radio) && c.radio.state >= ACTIVE && !c.radio.sawRx
    requires AllSilent(c, es) && Passes(es) < c.radio.timeout
    ensures var d := Run(c, es).radio;
            && Steady(d) && !d.sawRx
            && d.state == c.radio.state && d.timeout == c.radio.timeout - Passes(es)
    decreases |es|
  {
    if es != [] {
      SilentStep(c, es[0]);
      SilenceCountsDown(Step(c, es[0]), es[1..]);
    }
  }

  // The pass that hears a packet rewinds the timeout, counting itself.
  lemma HearingRewinds(r: Radio, slot: Packet, fifo: seq<byte>)
    requires Steady(r) && Hears(slot, fifo) && LoopPass(r, slot, true, fifo).state >= ACTIVE
    ensures var s := LoopPass(r, slot, true, fifo);
            Steady(s) && !s.sawRx && s.timeout == 59999
  {
    var s := SetDelay(r.(threadOk := false), 5);
    HandlingKeepsSteady(s, slot, fifo);
    var t := HandlePacket(s, slot, fifo);
    AfterWaitKeepsSteady(t);
    HandlingNotesReception(s, slot, fifo);
    assert t.state >= ACTIVE;
  }

  lemma HandlingNotesReception(r: Radio, slot: Packet, fifo: seq<byte>)
    requires Tuned(r) && Hears(slot, fifo)
    ensures HandlePacket(r, slot, fifo).sawRx
  {
  }

  /** After the pass that hears a good packet an active client survives 59998 further
      silent passes, whatever ticks fall between, and the next one sends it to WARM:
      60000 passes, counting the one that heard the packet. */
  lemma SilenceTimeout(c: Client, fifo: seq<byte>, es: seq<Event>, last: Event)
    requires Steady(c.radio) && Hears(c.slot, fifo)
    requires var d := Step(c, Pass(true, fifo));
             && d.radio.state >= ACTIVE
             && AllSilent(d, es) && Passes(es) == 59998
             && last.Pass? && Silent(last, Run(d, es).slot)
    ensures var d := Step(c, Pass(true, fifo));
            && Run(d, es).radio.state == d.radio.state
            && Step(Run(d, es), last).radio.state == WARM
  {
    HearingRewinds(c.radio, c.slot, fifo);
    var d := Step(c, Pass(true, fifo));
    SilenceCountsDown(d, es);
    SilentStep(Run(d, es), last);
  }
}
