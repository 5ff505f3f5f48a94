// Response exclusivity: over every run at most one channel awaits a response, it is the
// one resp_chp names, nothing is transmitted meanwhile, and every wait ends.

module Exclusivity {
  import opened Bytes
  import opened Packets
  import opened Radios
  import opened Devices
  import opened Controllers

  predicate Awaiting(st: byte) { RXRESPONSE1 <= st <= RXRESPONSE4 }

  ghost predicate Exclusive(s: Ctl)
    requires Wf(s)
  {
    forall c :: 0 <= c < CHANNELS ==>
      if c == s.resp then Awaiting(s.ch[c].state) else s.ch[c].state <= TXRESPOND
  }

  // While a line is being read its channel is never waiting to be answered.
  ghost predicate ParserSafe(s: Ctl)
    requires Wf(s)
  {
    s.parser.io >= WAITNODE ==> s.ch[s.parser.curr].state <= TRANSMIT
  }

  ghost predicate Sound(s: Ctl)
  {
    Wf(s) && Exclusive(s) && ParserSafe(s)
  }

  lemma BootIsSound(log: Log)
    ensures Sound(Boot(log))
  {
  }

  datatype Option<T> = None | Some(value: T)

  // The packet a byte would hand to enqueue, if any.
  function Completed(s: Ctl, c: char): (p: Option<Packet>)
    requires Wf(s)
    ensures p.Some? ==> s.parser.io >= WAITCMD && p.value.len <= MAX_PAYLOAD
  {
    var io := s.parser.io;
    if IsNewline(c) && io >= WAITCMD then Some(s.ch[s.parser.curr].packet)
    else if c == '.' && io == WAITCMD then Some(PutCommand(s).ch[s.parser.curr].packet)
    else if c == '.' && io == WAITDATA && s.ch[s.parser.curr].packet.len < MAX_PAYLOAD then
      Some(PutData(s).ch[s.parser.curr].packet)
    else None
  }

  // A SET_CHANNEL command addressed to the controller.
  predicate Configures(r: Radio, p: Packet)
  {
    p.node == r.myNode && p.cmd == CMD_SET_CHANNEL && p.len == 2
  }

  // A packet that takes the awaiting channel out of its wait behind resp_chp's back.
  predicate Breaks(r: Radio, p: Packet, resp: int)
  {
    resp >= 0 && Configures(r, p) && p.data[0] == resp && p.data[1] < 3
  }

  predicate Hits(s: Ctl, e: Step)
    requires Wf(s)
  {
    e.Serial? && Completed(s, e.c).Some? && Breaks(s.radio, Completed(s, e.c).value, s.resp)
  }

  lemma MyCommandExclusive(s: Ctl, p: Packet, w: World)
    requires Wf(s) && Exclusive(s) && p.len <= MAX_PAYLOAD && p.node == s.radio.myNode
    ensures Exclusive(MyCommand(s, p, w)) <==> !Breaks(s.radio, p, s.resp)
  {
    hide Command, Activate, StatusLine;
    if Configures(s.radio, p) && p.data[0] < CHANNELS {
      var t := SetChannel(s, p.data[0], p.data[1]);
      assert forall c :: 0 <= c < CHANNELS && c != p.data[0] ==> t.ch[c] == s.ch[c];
      if Breaks(s.radio, p, s.resp) {
        assert !Awaiting(t.ch[s.resp].state);
      }
    }
  }

  lemma ActivationExclusive(s: Ctl, p: Packet, w: World)
    requires Wf(s) && Exclusive(s) && p.len <= MAX_PAYLOAD && p.cmd == CMD_ACTIVATE
    ensures Exclusive(MyCommand(s, p, w))
  {
    hide Activate;
  }

  // Only SET_CHANNEL touches the channels.
  lemma MyCommandChannels(s: Ctl, p: Packet, w: World)
    requires Wf(s) && p.len <= MAX_PAYLOAD
    ensures var t := MyCommand(s, p, w);
            && t.resp == s.resp && t.parser == s.parser && t.lastModulo == s.lastModulo
            && t.log == s.log.(lines := t.log.lines)
            && (|| t.ch == s.ch
                || (p.cmd == CMD_SET_CHANNEL && p.len == 2 && t.ch == SetChannel(s, p.data[0], p.data[1]).ch))
  {
    hide Command, Activate, StatusLine;
  }

  // What enqueue may do to the channels: SET_CHANNEL may configure one of them, the
  // channel enqueued ends EMPTY or queued, every other one is left alone.
  ghost predicate EnqueuedOn(s: Ctl, k: nat, t: Ctl)
    requires Wf(s) && Wf(t) && k < CHANNELS
  {
    && (forall j :: 0 <= j < CHANNELS && j != k && t.ch[j] != s.ch[j] ==>
          && Configures(s.radio, s.ch[k].packet) && s.ch[k].packet.data[0] == j
          && t.ch[j].priority == 0 && t.ch[j].packet == s.ch[j].packet
          && t.ch[j].state == (if s.ch[k].packet.data[1] < 3 then s.ch[k].packet.data[1] else s.ch[j].state))
    && t.ch[k].packet == s.ch[k].packet
    && (|| (t.ch[k].state == EMPTY && (t.ch[k].priority == s.ch[k].priority || t.ch[k].priority == 0))
        || (Queued(t.ch[k]) && t.ch[k].priority == EntryPriority(s.ch[k].priority, k)))
  }

  lemma EnqueueChannels(s: Ctl, k: nat, w: World)
    requires Wf(s) && k < CHANNELS
    ensures var t := Enqueue(s, k, w);
            && EnqueuedOn(s, k, t)
            && t.resp == s.resp && t.log.ended == s.log.ended && t.log.sent == s.log.sent
            && t.lastModulo == s.lastModulo && t.parser == s.parser.(io := WAITNL)
            && t.log.queued == s.log.queued + [Entry(k, s.ch[k].packet)]
            && |t.log.replies| == |s.log.replies| + 1 && s.log.replies <= t.log.replies
  {
    var p := s.ch[k].packet;
    MyCommandChannels(WithState(s, k, TRANSMIT).(log := s.log.(queued := s.log.queued + [Entry(k, p)])), p, w);
    hide MyCommand, MyCommandCode;
  }

  lemma EnqueueExclusive(s: Ctl, c: nat, w: World)
    requires Wf(s) && Exclusive(s) && c < CHANNELS && s.ch[c].state <= TRANSMIT
    ensures Exclusive(Enqueue(s, c, w)) <==> !Breaks(s.radio, s.ch[c].packet, s.resp)
  {
    var p := s.ch[c].packet;
    var noted := WithState(s, c, TRANSMIT).(log := s.log.(queued := s.log.queued + [Entry(c, p)]));
    assert Exclusive(noted);
    MyCommandChannels(noted, p, w);
    if p.node == s.radio.myNode {
      MyCommandExclusive(noted, p, w);
      hide MyCommand, MyCommandCode;
      var m := MyCommand(noted, p, w);
      assert c != s.resp;
      assert forall k :: 0 <= k < CHANNELS && k != c ==> Enqueue(s, c, w).ch[k] == m.ch[k];
      assert m.ch[c].state <= TXRESPOND;
    } else if ForMe(s.radio, p) {
      ActivationExclusive(noted, p, w);
      hide MyCommand, MyCommandCode;
    }
  }

  lemma ParseExclusive(s: Ctl, c: char, w: World)
    requires Sound(s)
    ensures Sound(ParseByte(s, c, w)) <==> !Hits(s, Serial(c, w))
  {
    hide Enqueue, StatusLine;
    BootIsSound(s.log);
    hide Boot;
    if Completed(s, c).Some? {
      var k := s.parser.curr;
      var t := if IsNewline(c) then s else if s.parser.io == WAITCMD then PutCommand(s) else PutData(s);
      assert Exclusive(t) && t.ch[k].state <= TRANSMIT;
      EnqueueExclusive(t, k, w);
      assert ParseByte(s, c, w) == WithIo(Enqueue(t, k, w), if IsNewline(c) then NEWLINE else WAITNL);
    }
  }

  lemma AwaitKeepsSound(s: Ctl, ready: bool, fifo: seq<byte>)
    requires Sound(s)
    ensures Sound(Await(s, ready, fifo))
  {
    hide Receive, ResponseLine, Hears, SlotAfter;
  }

  lemma TransmitKeepsSound(s: Ctl, c: nat, chip: Chip)
    requires Sound(s) && c < CHANNELS && s.resp < 0
    ensures Sound(Transmit(s, c, chip))
  {
    hide AfterSend, PacketAfterSend, SendSucceeds;
  }

  lemma ScheduleKeepsSound(s: Ctl, chip: Chip)
    requires Sound(s)
    ensures Sound(Schedule(s, chip))
  {
    hide Transmit;
    if SchedulerRuns(s) {
      var m := s.(lastModulo := s.radio.ms % MODULO);
      var t := InstallSync(m, SyncSlot(s.radio.ms));
      assert Sound(m) && Sound(t);
      if Wraps(s) {
        TransmitKeepsSound(t, SyncSlot(s.radio.ms), chip);
      } else if Pick(s.ch, CHANNELS) >= 0 {
        TransmitKeepsSound(m, Pick(s.ch, CHANNELS), chip);
      }
    }
  }

  /** One step keeps exclusivity exactly when it is not a SET_CHANNEL on the channel
      that awaits its response. */
  lemma StepKeepsSound(s: Ctl, e: Step)
    requires Sound(s)
    ensures Sound(Next(s, e)) <==> !Hits(s, e)
  {
    match e {
      case Interrupt =>
      case Wake =>
      case Wait(ready, fifo) =>
        AwaitKeepsSound(s, ready, fifo);
        hide Await;
      case Serial(c, w) =>
        ParseExclusive(s, c, w);
        hide ParseByte;
      case Scheduler(chip) =>
        ScheduleKeepsSound(s, chip);
        hide Schedule;
    }
  }

  ghost predicate NeverHits(s: Ctl, es: seq<Step>)
    requires Wf(s)
    decreases |es|
  {
    es == [] || (!Hits(s, es[0]) && NeverHits(Next(s, es[0]), es[1..]))
  }

  /** Response exclusivity over every run. */
  lemma {:induction false} RunKeepsSound(s: Ctl, es: seq<Step>)
    requires Sound(s) && NeverHits(s, es)
    ensures Sound(Run(s, es))
    decreases |es|
  {
    hide Next, Hits, Exclusive, ParserSafe;
    if es != [] {
      StepKeepsSound(s, es[0]);
      RunKeepsSound(Next(s, es[0]), es[1..]);
    }
  }

  // Waits

  predicate Resets(s: Ctl, e: Step)
  {
    e.Serial? && s.parser.io == WAITCHAN && e.c == 'R'
  }

  ghost predicate NeverResets(s: Ctl, es: seq<Step>)
    requires Wf(s)
    decreases |es|
  {
    es == [] || (!Resets(s, es[0]) && NeverResets(Next(s, es[0]), es[1..]))
  }

  function Waits(es: seq<Step>): nat
    decreases |es|
  {
    if es == [] then 0 else (if es[0].Wait? then 1 else 0) + Waits(es[1..])
  }

  // No step forgets a wait that is over.
  lemma StepExtendsEnded(s: Ctl, e: Step)
    requires Wf(s)
    ensures s.log.ended <= Next(s, e).log.ended
  {
    match e {
      case Interrupt =>
      case Wake =>
      case Wait(_, _) => hide Receive, ResponseLine, Hears, SlotAfter;
      case Serial(c, w) =>
        if s.parser.io >= WAITNODE {
          ParseLeavesWait(s, c, w);
          hide ParseByte;
        }
      case Scheduler(_) => hide AfterSend, PacketAfterSend, SendSucceeds;
    }
  }

  // Serial input short of a reset never disturbs the wait or what has been sent, and
  // short of a completed command it leaves every channel but the line's own alone.
  lemma ParseLeavesWait(s: Ctl, c: char, w: World)
    requires Wf(s) && !Resets(s, Serial(c, w))
    ensures var t := ParseByte(s, c, w);
            t.resp == s.resp && t.log.ended == s.log.ended && t.log.sent == s.log.sent
  {
    hide StatusLine, MyCommand, MyCommandCode;
    forall u: Ctl, k: nat | Wf(u) && k < CHANNELS
      ensures Enqueue(u, k, w).resp == u.resp && Enqueue(u, k, w).log.ended == u.log.ended
      ensures Enqueue(u, k, w).log.sent == u.log.sent
    {
      EnqueueChannels(u, k, w);
    }
    hide Enqueue;
  }

  /** What one step does to a wait: it stays with its channel, nothing is sent, and each
      wait step brings it closer to its end. */
  lemma StepDuringWait(s: Ctl, e: Step)
    requires Sound(s) && s.resp >= 0 && !Hits(s, e) && !Resets(s, e)
    ensures var t := Next(s, e);
            && t.log.sent == s.log.sent
            && if t.log.ended == s.log.ended then
                 t.resp == s.resp && t.ch[s.resp].state == s.ch[s.resp].state + (if e.Wait? then 1 else 0)
               else
                 e.Wait? && t.log.ended == s.log.ended + [s.resp]
  {
    StepKeepsSound(s, e);
    match e {
      case Interrupt =>
      case Wake =>
      case Wait(_, _) => hide Receive, ResponseLine, Hears, SlotAfter;
      case Serial(c, w) =>
        ParseLeavesWait(s, c, w);
        ParseKeepsAwaiting(s, c, w);
        hide ParseByte;
      case Scheduler(_) =>
    }
  }

  lemma ParseKeepsAwaiting(s: Ctl, c: char, w: World)
    requires Sound(s) && s.resp >= 0 && !Hits(s, Serial(c, w)) && !Resets(s, Serial(c, w))
    ensures ParseByte(s, c, w).ch[s.resp].state == s.ch[s.resp].state
  {
    hide StatusLine, MyCommandCode, Boot;
    if Completed(s, c).Some? {
      var k := s.parser.curr;
      var t := if IsNewline(c) then s else if s.parser.io == WAITCMD then PutCommand(s) else PutData(s);
      assert k != s.resp && t.ch[s.resp] == s.ch[s.resp];
      EnqueueLeavesAwaiting(t, k, w);
      hide Enqueue;
      assert ParseByte(s, c, w) == WithIo(Enqueue(t, k, w), if IsNewline(c) then NEWLINE else WAITNL);
    } else {
      hide Enqueue;
    }
  }

  lemma EnqueueLeavesAwaiting(s: Ctl, k: nat, w: World)
    requires Wf(s) && k < CHANNELS && s.resp >= 0 && k != s.resp
    requires !Breaks(s.radio, s.ch[k].packet, s.resp)
    ensures Enqueue(s, k, w).ch[s.resp].state == s.ch[s.resp].state
  {
    EnqueueChannels(s, k, w);
    hide Enqueue;
  }

  /** While a response is awaited the scheduler sends nothing. */
  lemma {:induction false} NothingSentWhileWaiting(s: Ctl, es: seq<Step>)
    requires Sound(s) && s.resp >= 0 && NeverHits(s, es) && NeverResets(s, es)
    ensures s.log.ended <= Run(s, es).log.ended
    ensures var t := Run(s, es);
            t.log.ended == s.log.ended ==>
              t.log.sent == s.log.sent && t.resp == s.resp &&
              t.ch[s.resp].state == s.ch[s.resp].state + Waits(es)
    decreases |es|
  {
    hide Next, Hits, Resets, Exclusive, ParserSafe;
    if es != [] {
      var t := Next(s, es[0]);
      StepDuringWait(s, es[0]);
      StepKeepsSound(s, es[0]);
      RunExtendsEnded(t, es[1..]);
      if t.log.ended == s.log.ended {
        NothingSentWhileWaiting(t, es[1..]);
      }
    }
  }

  lemma {:induction false} RunExtendsEnded(s: Ctl, es: seq<Step>)
    requires Wf(s)
    ensures s.log.ended <= Run(s, es).log.ended
    decreases |es|
  {
    hide Next, Wf;
    if es != [] {
      StepExtendsEnded(s, es[0]);
      RunExtendsEnded(Next(s, es[0]), es[1..]);
    }
  }

  /** Every wait ends within four passes of the wait stage, counted from the moment the
      channel starts to wait, whatever else happens in between. */
  lemma {:induction false} WaitEnds(s: Ctl, es: seq<Step>)
    requires Sound(s) && s.resp >= 0 && NeverHits(s, es) && NeverResets(s, es)
    requires Waits(es) >= 4 - (s.ch[s.resp].state - RXRESPONSE1)
    ensures s.log.ended + [s.resp] <= Run(s, es).log.ended
    decreases |es|
  {
    hide Next, Hits, Resets, Exclusive, ParserSafe;
    assert Awaiting(s.ch[s.resp].state) by { SoundAwaits(s); }
    if es != [] {
      var t := Next(s, es[0]);
      StepDuringWait(s, es[0]);
      StepKeepsSound(s, es[0]);
      if t.log.ended == s.log.ended {
        WaitEnds(t, es[1..]);
      } else {
        RunExtendsEnded(t, es[1..]);
      }
    }
  }

  lemma SoundAwaits(s: Ctl)
    requires Sound(s) && s.resp >= 0
    ensures Awaiting(s.ch[s.resp].state)
  {
  }

  /** What goes wrong otherwise: once SET_CHANNEL has marked the awaiting channel EMPTY,
      two more passes without an answer make it look like a packet queued for sending. */
  lemma BrokenWaitFabricatesPacket(s: Ctl, fifo: seq<byte>)
    requires Wf(s) && s.resp >= 0 && s.ch[s.resp].state == EMPTY
    ensures var t := Await(Await(s, false, fifo), false, fifo);
            t.resp == s.resp && t.ch[s.resp].state == TRANSMIT && t.log.queued == s.log.queued
  {
  }
}
