// The periodic time broadcast: which scheduler passes make one, and on which channel.

module TimeSync {
  import opened Bytes
  import opened Packets
  import opened Radios
  import opened Devices
  import opened Clock
  import opened Controllers
  import opened Exclusivity

  // The clock runs, one unit per interrupt.
  predicate Ticking(r: Radio) { InRange(r) && r.period == 1 && r.tens != UNKNOWN_TIME }

  predicate SameTime(r: Radio, q: Radio) { q.tens == r.tens && q.ms == r.ms && q.period == r.period }

  // Throughout the run the clock ticks and only clock interrupts move it.
  ghost predicate TicksOnly(s: Ctl, es: seq<Step>)
    requires Wf(s)
    decreases |es|
  {
    && Ticking(s.radio)
    && (es != [] ==>
          && (es[0].Interrupt? || SameTime(s.radio, Next(s, es[0]).radio))
          && TicksOnly(Next(s, es[0]), es[1..]))
  }

  function Elapsed(es: seq<Step>): nat
    decreases |es|
  {
    if es == [] then 0 else (if es[0].Interrupt? then 1 else 0) + Elapsed(es[1..])
  }

  predicate Checks(s: Ctl, e: Step) { e.Scheduler? && SchedulerRuns(s) }

  // When the queues were last checked, given that it was at `last` before the run.
  function LastCheck(s: Ctl, es: seq<Step>, last: nat): nat
    requires Wf(s)
    decreases |es|
  {
    if es == [] then last
    else LastCheck(Next(s, es[0]), es[1..], if Checks(s, es[0]) then DayTime(s.radio) else last)
  }

  // Fewer than 500 ticks fall between two checks.
  ghost predicate Punctual(s: Ctl, es: seq<Step>, last: nat)
    requires Wf(s)
    decreases |es|
  {
    es == [] ||
    (if Checks(s, es[0]) then
       DayTime(s.radio) < last + MODULO && Punctual(Next(s, es[0]), es[1..], DayTime(s.radio))
     else Punctual(Next(s, es[0]), es[1..], last))
  }

  // The channels whose turn came, in order.
  function Broadcasts(s: Ctl, es: seq<Step>): seq<nat>
    requires Wf(s)
    decreases |es|
  {
    if es == [] then []
    else (if Checks(s, es[0]) && Wraps(s) then [SyncSlot(s.radio.ms)] else []) + Broadcasts(Next(s, es[0]), es[1..])
  }

  // The turns of the 500-tick boundaries after the a-th up to the b-th.
  function Turns(a: nat, b: nat): seq<nat>
    requires a <= b
  {
    seq(b - a, i requires 0 <= i < b - a => (a + 1 + i) % CHANNELS)
  }

  lemma ClockOfDay(r: Radio)
    ensures DayTime(r) % MODULO == r.ms % MODULO
    ensures (DayTime(r) / MODULO) % CHANNELS == SyncSlot(r.ms)
  {
    var t := r.tens as int;
    assert DayTime(r) == MODULO * (120 * t + r.ms / MODULO) + r.ms % MODULO;
    assert DayTime(r) / MODULO == 120 * t + r.ms / MODULO;
    assert 120 * t + r.ms / MODULO == CHANNELS * (20 * t) + r.ms / MODULO;
  }

  lemma Boundary(last: nat, now: nat)
    requires last <= now < last + MODULO
    ensures if now % MODULO < last % MODULO then now / MODULO == last / MODULO + 1
            else now / MODULO == last / MODULO
  {
  }

  lemma StepKeepsModulo(s: Ctl, e: Step)
    requires Wf(s) && Ticking(s.radio) && (e.Interrupt? || SameTime(s.radio, Next(s, e).radio))
    ensures Next(s, e).lastModulo == if Checks(s, e) then s.radio.ms % MODULO else s.lastModulo
  {
    match e {
      case Interrupt => hide Tick;
      case Wake =>
      case Wait(_, _) => hide Receive, ResponseLine, Hears, SlotAfter;
      case Scheduler(_) => hide AfterSend, PacketAfterSend, SendSucceeds;
      case Serial(c, w) =>
        hide StatusLine;
        if Completed(s, c).Some? {
          EnqueueChannels(s, s.parser.curr, w);
          if s.parser.io == WAITCMD {
            EnqueueChannels(PutCommand(s), s.parser.curr, w);
          } else if s.ch[s.parser.curr].packet.len < MAX_PAYLOAD {
            EnqueueChannels(PutData(s), s.parser.curr, w);
          }
        }
        hide Enqueue;
    }
  }

  lemma {:induction false} TimePasses(s: Ctl, es: seq<Step>)
    requires Wf(s) && TicksOnly(s, es)
    ensures Ticking(Run(s, es).radio)
    ensures DayTime(Run(s, es).radio) == DayTime(s.radio) + Elapsed(es)
    decreases |es|
  {
    if es != [] {
      var t := Next(s, es[0]);
      if es[0].Interrupt? {
        TickAdvances(s.radio);
      }
      hide Tick, ParseByte, Await, Schedule;
      assert DayTime(t.radio) == DayTime(s.radio) + if es[0].Interrupt? then 1 else 0;
      hide Next, Wf;
      TimePasses(t, es[1..]);
    }
  }

  lemma TurnsHead(a: nat, b: nat)
    requires a < b
    ensures Turns(a, b) == [(a + 1) % CHANNELS] + Turns(a + 1, b)
  {
  }

  lemma OneCheck(s: Ctl, last: nat)
    requires Wf(s) && s.lastModulo == last % MODULO && last <= DayTime(s.radio) < last + MODULO
    ensures var n := DayTime(s.radio) / MODULO;
            if Wraps(s) then n == last / MODULO + 1 && SyncSlot(s.radio.ms) == (last / MODULO + 1) % CHANNELS
            else n == last / MODULO
  {
    ClockOfDay(s.radio);
    Boundary(last, DayTime(s.radio));
    hide DayTime, SyncSlot;
  }

  /** Time-sync exactness: while the clock runs and the queues are checked at least once
      in every 500 ticks, exactly one check falls due for each 500-tick boundary, and
      successive ones take the channels in turn, across ten-minute rollovers too. */
  lemma {:induction false} OneBroadcastPerBoundary(s: Ctl, es: seq<Step>, last: nat)
    requires Wf(s) && TicksOnly(s, es) && Punctual(s, es, last)
    requires s.lastModulo == last % MODULO && last <= DayTime(s.radio)
    ensures LastCheck(s, es, last) >= last
    ensures Broadcasts(s, es) == Turns(last / MODULO, LastCheck(s, es, last) / MODULO)
    decreases |es|
  {
    if es != [] {
      var e, t := es[0], Next(s, es[0]);
      var now := if Checks(s, e) then DayTime(s.radio) else last;
      CheckStep(s, e, last);
      hide Next, Wf, Wraps, SyncSlot, DayTime, Turns, Checks, Ticking, SameTime;
      OneBroadcastPerBoundary(t, es[1..], now);
      var end := LastCheck(t, es[1..], now);
      BoundariesGrow(now, end);
      if now / MODULO > last / MODULO {
        TurnsHead(last / MODULO, end / MODULO);
      }
    } else {
      assert Turns(last / MODULO, last / MODULO) == [];
    }
  }

  // One step, between two checks or at one.
  lemma CheckStep(s: Ctl, e: Step, last: nat)
    requires Wf(s) && Ticking(s.radio) && (e.Interrupt? || SameTime(s.radio, Next(s, e).radio))
    requires s.lastModulo == last % MODULO && last <= DayTime(s.radio)
    requires Checks(s, e) ==> DayTime(s.radio) < last + MODULO
    ensures var t := Next(s, e);
            var now := if Checks(s, e) then DayTime(s.radio) else last;
            && t.lastModulo == now % MODULO && last <= now <= DayTime(t.radio)
            && (if Checks(s, e) && Wraps(s) then
                  now / MODULO == last / MODULO + 1 && SyncSlot(s.radio.ms) == (last / MODULO + 1) % CHANNELS
                else now / MODULO == last / MODULO)
  {
    StepKeepsModulo(s, e);
    if e.Interrupt? {
      TickAdvances(s.radio);
    }
    ClockOfDay(s.radio);
    if Checks(s, e) {
      OneCheck(s, last);
    }
    hide Next, Wraps, SyncSlot, InRange;
    if !e.Interrupt? {
      SameDayTime(s.radio, Next(s, e).radio);
    }
    hide DayTime;
  }

  lemma SameDayTime(r: Radio, q: Radio)
    requires SameTime(r, q)
    ensures DayTime(q) == DayTime(r)
  {
  }

  lemma BoundariesGrow(a: nat, b: nat)
    requires a <= b
    ensures a / MODULO <= b / MODULO
  {
  }

  /** Six boundaries, 3000 ticks, give every channel exactly one turn. */
  lemma EveryChannelEvery3000(s: Ctl, es: seq<Step>, last: nat, c: nat)
    requires Wf(s) && TicksOnly(s, es) && Punctual(s, es, last)
    requires s.lastModulo == last % MODULO && last <= DayTime(s.radio)
    requires LastCheck(s, es, last) / MODULO == last / MODULO + CHANNELS && c < CHANNELS
    ensures var b := Broadcasts(s, es);
            && |b| == CHANNELS && c in b
            && forall i, j :: 0 <= i < |b| && 0 <= j < |b| && b[i] == b[j] ==> i == j
  {
    OneBroadcastPerBoundary(s, es, last);
    TurnsVisitAll(last / MODULO, c);
    hide *;
  }

  lemma TurnsVisitAll(a: nat, c: nat)
    requires c < CHANNELS
    ensures var b := Turns(a, a + CHANNELS);
            && |b| == CHANNELS && c in b
            && forall i, j :: 0 <= i < |b| && 0 <= j < |b| && b[i] == b[j] ==> i == j
  {
    TurnIndex(a, c);
    var b := Turns(a, a + CHANNELS);
    assert b[(c + 5 * (a + 1)) % CHANNELS] == c;
    forall i, j | 0 <= i < CHANNELS && 0 <= j < CHANNELS && b[i] == b[j] ensures i == j {
      SameTurn(a + 1, i, j);
    }
  }

  lemma SameTurn(x: nat, i: nat, j: nat)
    requires i < CHANNELS && j < CHANNELS && (x + i) % CHANNELS == (x + j) % CHANNELS
    ensures i == j
  {
    assert i - j == CHANNELS * ((x + i) / CHANNELS - (x + j) / CHANNELS);
  }

  lemma TurnIndex(a: nat, c: nat)
    requires c < CHANNELS
    ensures (a + 1 + (c + 5 * (a + 1)) % CHANNELS) % CHANNELS == c
  {
    var n := c + 5 * (a + 1);
    assert n == CHANNELS * (n / CHANNELS) + n % CHANNELS;
    assert a + 1 + n % CHANNELS == c + CHANNELS * (a + 1 - n / CHANNELS);
  }

  // What a turn puts on the air: the time on a free channel, else what is in the slot.
  function TurnMessage(s: Ctl): Message
    requires Wf(s)
  {
    var ch := s.ch[SyncSlot(s.radio.ms)];
    if ch.state == EMPTY then Message(0, CMD_SET_TIME, [s.radio.tens]) else MessageOf(ch.packet)
  }

  /** A turn with the chip willing: a DISABLED or READ channel is passed over and nothing
      ages; any other is sent in the same pass, the controller's time if it is free, its
      own packet, queued or half built, if it is not, stamped with the ticks. */
  lemma TurnOutcome(s: Ctl, chip: Chip)
    requires Wf(s) && SchedulerRuns(s) && Wraps(s) && Accepts(s.radio, chip)
    ensures var t := Schedule(s, chip);
            var c := SyncSlot(s.radio.ms);
            if s.ch[c].state < EMPTY then t.log.sent == s.log.sent && t.ch == s.ch
            else
              && |t.log.sent| == |s.log.sent| + 1
              && var e := t.log.sent[|s.log.sent|];
                 && e.channel == c && e.packet.len <= MAX_PAYLOAD
                 && MessageOf(e.packet) == TurnMessage(s)
                 && e.packet == Stamped(e.packet, s.radio.ms)
  {
    var c := SyncSlot(s.radio.ms);
    if s.ch[c].state >= EMPTY {
      var p := if s.ch[c].state == EMPTY then SyncPacket(s.ch[c].packet, s.radio.tens) else s.ch[c].packet;
      StampedTwice(p, s.radio.ms);
      hide Stamped, AfterSend, SyncSlot;
      assert s.ch[c].state == EMPTY ==> p.data[..1] == [s.radio.tens];
      var t := Schedule(s, chip);
      assert t.log.sent == s.log.sent + [Entry(c, Stamped(p, s.radio.ms))];
    }
  }

  /** In particular a turn that finds its channel free broadcasts the time: the ten-minute
      index as data, the ticks as stamp. */
  lemma TurnBroadcastsTime(s: Ctl, chip: Chip)
    requires Wf(s) && SchedulerRuns(s) && Wraps(s) && Accepts(s.radio, chip)
    requires s.ch[SyncSlot(s.radio.ms)].state == EMPTY
    ensures var t := Schedule(s, chip);
            && |t.log.sent| == |s.log.sent| + 1
            && var e := t.log.sent[|s.log.sent|];
               && e.channel == SyncSlot(s.radio.ms)
               && e.packet.len <= MAX_PAYLOAD
               && MessageOf(e.packet) == Message(0, CMD_SET_TIME, [s.radio.tens])
               && e.packet == Stamped(e.packet, s.radio.ms)
  {
    TurnOutcome(s, chip);
    hide Schedule, Stamped;
  }

  lemma StampedTwice(p: Packet, clock: word)
    requires p.len <= MAX_PAYLOAD
    ensures var q := Stamped(p, clock);
            q.len == p.len && q.ticks == clock && Stamped(q, clock) == q && MessageOf(q) == MessageOf(p)
  {
    hide Sum;
  }
}
