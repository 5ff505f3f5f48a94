// Freedom from starvation: a queued packet is sent within a bounded number of scheduler
// passes however the host refills the other channels.

module Starvation {
  import opened Bytes
  import opened Packets
  import opened Radios
  import opened Devices
  import opened Controllers
  import opened Exclusivity

  // Channels with nothing queued carry priority 0, or 2 when the ageing loop caught
  // them just after they began to wait for a response.
  ghost predicate Calm(s: Ctl)
  {
    && Sound(s)
    && (s.parser.io >= WAITNODE ==> s.ch[s.parser.curr].state <= ADDING)
    && QuietPriorities(s.ch)
  }

  ghost predicate QuietPriorities(ch: seq<Channel>)
  {
    forall c :: 0 <= c < |ch| && !Queued(ch[c]) ==> ch[c].priority == 0 || ch[c].priority == 2
  }

  lemma BootIsCalm(log: Log)
    ensures Calm(Boot(log))
  {
  }

  lemma EnqueueKeepsQuiet(s: Ctl, k: nat, w: World)
    requires Wf(s) && k < CHANNELS && s.ch[k].state <= ADDING && QuietPriorities(s.ch)
    ensures QuietPriorities(Enqueue(s, k, w).ch)
  {
    EnqueueChannels(s, k, w);
    hide Enqueue;
  }

  lemma CompletionKeepsQuiet(s: Ctl, c: char, w: World)
    requires Calm(s) && Completed(s, c).Some?
    ensures var t := ParseByte(s, c, w);
            QuietPriorities(t.ch) && t.parser.io < WAITNODE
  {
    var k := s.parser.curr;
    var t := if IsNewline(c) then s else if s.parser.io == WAITCMD then PutCommand(s) else PutData(s);
    assert forall j :: 0 <= j < CHANNELS && j != k ==> t.ch[j] == s.ch[j];
    EnqueueKeepsQuiet(t, k, w);
    hide Enqueue, Sound;
    assert ParseByte(s, c, w) == WithIo(Enqueue(t, k, w), if IsNewline(c) then NEWLINE else WAITNL);
  }

  lemma IncompleteKeepsQuiet(s: Ctl, c: char, w: World)
    requires Calm(s) && Completed(s, c).None?
    ensures var t := ParseByte(s, c, w);
            QuietPriorities(t.ch) && (t.parser.io >= WAITNODE ==> t.ch[t.parser.curr].state <= ADDING)
  {
    BootIsCalm(s.log);
    hide StatusLine, Boot, Enqueue;
  }

  lemma ParseKeepsCalm(s: Ctl, c: char, w: World)
    requires Calm(s)
    ensures Calm(ParseByte(s, c, w)) <==> !Hits(s, Serial(c, w))
  {
    ParseExclusive(s, c, w);
    if Completed(s, c).Some? {
      CompletionKeepsQuiet(s, c, w);
    } else {
      IncompleteKeepsQuiet(s, c, w);
    }
    hide ParseByte, Hits, Sound, Completed, QuietPriorities;
  }

  lemma AwaitKeepsCalm(s: Ctl, ready: bool, fifo: seq<byte>)
    requires Calm(s)
    ensures Calm(Await(s, ready, fifo))
  {
    AwaitKeepsSound(s, ready, fifo);
    hide Receive, ResponseLine, Hears, SlotAfter;
    var t := Await(s, ready, fifo);
    assert forall c :: 0 <= c < CHANNELS && c != s.resp ==> t.ch[c] == s.ch[c];
    assert s.resp >= 0 ==> t.ch[s.resp].priority == s.ch[s.resp].priority && !Queued(s.ch[s.resp]);
    assert forall c :: 0 <= c < CHANNELS && !Queued(t.ch[c]) ==> !Queued(s.ch[c]);
  }

  lemma TransmitKeepsCalm(s: Ctl, c: nat, chip: Chip)
    requires Calm(s) && s.resp < 0 && c < CHANNELS
    ensures Calm(Transmit(s, c, chip))
  {
    TransmitKeepsSound(s, c, chip);
    hide AfterSend, PacketAfterSend, SendSucceeds, Sound;
  }

  // A time broadcast is refused on the very channel whose line is being read, after an
  // earlier one has sent what was there of it: the line goes on in a queued slot.
  predicate Clobbers(s: Ctl, e: Step)
    requires Wf(s)
  {
    && e.Scheduler? && SchedulerRuns(s) && Wraps(s) && !Accepts(s.radio, e.chip)
    && s.parser.io >= WAITNODE && s.parser.curr == SyncSlot(s.radio.ms) && s.ch[s.parser.curr].state == EMPTY
  }

  lemma InstalledSync(s: Ctl, c: nat, chip: Chip)
    requires Calm(s) && s.resp < 0 && c < CHANNELS && s.ch[c].state == EMPTY
    ensures var t := Transmit(InstallSync(s, c), c, chip);
            Calm(t) <==> Accepts(s.radio, chip) || s.parser.io < WAITNODE || s.parser.curr != c
  {
    TransmitKeepsSound(InstallSync(s, c), c, chip);
    hide AfterSend, PacketAfterSend, Sound;
    var t := Transmit(InstallSync(s, c), c, chip);
    assert t.ch[c].state == if Accepts(s.radio, chip) then EMPTY else TRANSMIT;
  }

  lemma ScheduleKeepsCalm(s: Ctl, chip: Chip)
    requires Calm(s)
    ensures Calm(Schedule(s, chip)) <==> !Clobbers(s, Scheduler(chip))
  {
    hide Transmit;
    if SchedulerRuns(s) {
      var m := s.(lastModulo := s.radio.ms % MODULO);
      assert Calm(m);
      if Wraps(s) {
        var c := SyncSlot(s.radio.ms);
        if s.ch[c].state == EMPTY {
          InstalledSync(m, c, chip);
        } else if s.ch[c].state > EMPTY {
          TransmitKeepsCalm(m, c, chip);
        }
      } else if Pick(s.ch, CHANNELS) >= 0 {
        TransmitKeepsCalm(m, Pick(s.ch, CHANNELS), chip);
      }
    }
  }

  predicate Disturbs(s: Ctl, e: Step)
    requires Wf(s)
  {
    Hits(s, e) || Clobbers(s, e)
  }

  /** One step keeps Calm exactly when it neither breaks a wait nor refuses a broadcast on
      the channel whose line is being read. */
  lemma StepKeepsCalm(s: Ctl, e: Step)
    requires Calm(s)
    ensures Calm(Next(s, e)) <==> !Disturbs(s, e)
  {
    match e {
      case Interrupt =>
      case Wake =>
      case Wait(ready, fifo) =>
        AwaitKeepsCalm(s, ready, fifo);
        hide Await;
      case Serial(c, w) =>
        ParseKeepsCalm(s, c, w);
        hide ParseByte;
      case Scheduler(chip) =>
        ScheduleKeepsCalm(s, chip);
        hide Schedule;
    }
  }

  ghost predicate NeverDisturbs(s: Ctl, es: seq<Step>)
    requires Wf(s)
    decreases |es|
  {
    es == [] || (!Disturbs(s, es[0]) && NeverDisturbs(Next(s, es[0]), es[1..]))
  }

  lemma {:induction false} RunKeepsCalm(s: Ctl, es: seq<Step>)
    requires Calm(s) && NeverDisturbs(s, es)
    ensures Calm(Run(s, es))
    decreases |es|
  {
    hide Next, Disturbs, Exclusive, ParserSafe, QuietPriorities;
    if es != [] {
      StepKeepsCalm(s, es[0]);
      RunKeepsCalm(Next(s, es[0]), es[1..]);
    }
  }

  lemma ReachableIsCalm(log: Log, es: seq<Step>)
    requires NeverDisturbs(Boot(log), es)
    ensures Calm(Run(Boot(log), es))
  {
    BootIsCalm(log);
    RunKeepsCalm(Boot(log), es);
  }

  // Steps that leave a packet queued on v to the scheduler: no reset, no SET_CHANNEL on v
  // or on the awaiting channel, no clobbered line.
  predicate Safe(s: Ctl, v: nat, e: Step)
    requires Wf(s)
  {
    && !Resets(s, e) && !Disturbs(s, e)
    && (e.Serial? && Completed(s, e.c).Some? && Configures(s.radio, Completed(s, e.c).value) ==>
          Completed(s, e.c).value.data[0] != v)
  }

  ghost predicate SafeRun(s: Ctl, v: nat, es: seq<Step>)
    requires Wf(s)
    decreases |es|
  {
    es == [] || (Safe(s, v, es[0]) && SafeRun(Next(s, es[0]), v, es[1..]))
  }

  // A pass that is not a time broadcast and whose packet the chip takes.
  predicate Productive(s: Ctl, e: Step)
  {
    e.Scheduler? && SchedulerRuns(s) && !Wraps(s) && Accepts(s.radio, e.chip)
  }

  function ProductivePasses(s: Ctl, es: seq<Step>): nat
    requires Wf(s)
    decreases |es|
  {
    if es == [] then 0
    else (if Productive(s, es[0]) then 1 else 0) + ProductivePasses(Next(s, es[0]), es[1..])
  }

  // Checks of the queues that are time broadcasts or failed sends: they age every
  // channel without emptying one.
  function Setbacks(s: Ctl, es: seq<Step>): nat
    requires Wf(s)
    decreases |es|
  {
    if es == [] then 0
    else (if es[0].Scheduler? && SchedulerRuns(s) && !Productive(s, es[0]) then 1 else 0) +
         Setbacks(Next(s, es[0]), es[1..])
  }

  // A time broadcast that finds its channel free but is refused by the chip: it stays
  // behind at priority 255.
  predicate Refuses(s: Ctl, e: Step)
    requires Wf(s)
  {
    && e.Scheduler? && SchedulerRuns(s) && Wraps(s) && !Accepts(s.radio, e.chip)
    && s.ch[SyncSlot(s.radio.ms)].state == EMPTY
  }

  function Refusals(s: Ctl, es: seq<Step>): nat
    requires Wf(s)
    decreases |es|
  {
    if es == [] then 0
    else (if Refuses(s, es[0]) then 1 else 0) + Refusals(Next(s, es[0]), es[1..])
  }

  lemma PacketAfterSendSame(r: Radio, p: Packet, chip: Chip)
    requires p.len <= MAX_PAYLOAD
    ensures var q := PacketAfterSend(r, p, chip);
            q.len == p.len && MessageOf(q) == MessageOf(p)
  {
    hide Sum;
  }

  // Steps other than scheduler passes

  ghost predicate Undisturbed(s: Ctl, t: Ctl, v: nat)
    requires Wf(s) && Wf(t) && v < CHANNELS
  {
    && t.ch[v] == s.ch[v]
    && t.log.sent == s.log.sent
    && forall j :: 0 <= j < CHANNELS && Queued(t.ch[j]) ==>
         t.ch[j].priority <= (CHANNELS - j) * 8 || (Queued(s.ch[j]) && s.ch[j].priority >= t.ch[j].priority)
  }

  lemma EnqueueUndisturbed(s: Ctl, k: nat, w: World, v: nat)
    requires Wf(s) && k < CHANNELS && v < CHANNELS && k != v
    requires s.ch[k].state <= ADDING && QuietPriorities(s.ch)
    requires Configures(s.radio, s.ch[k].packet) ==> s.ch[k].packet.data[0] != v
    ensures Undisturbed(s, Enqueue(s, k, w), v) && QuietPriorities(Enqueue(s, k, w).ch)
  {
    EnqueueChannels(s, k, w);
    hide Enqueue;
  }

  lemma CompletionUndisturbed(s: Ctl, c: char, w: World, v: nat)
    requires Calm(s) && v < CHANNELS && Queued(s.ch[v]) && Safe(s, v, Serial(c, w)) && Completed(s, c).Some?
    ensures var t := ParseByte(s, c, w);
            Undisturbed(s, t, v) && QuietPriorities(t.ch) && t.parser.io < WAITNODE
  {
    var k := s.parser.curr;
    var t := if IsNewline(c) then s else if s.parser.io == WAITCMD then PutCommand(s) else PutData(s);
    assert forall j :: 0 <= j < CHANNELS && j != k ==> t.ch[j] == s.ch[j];
    EnqueueUndisturbed(t, k, w, v);
    hide Enqueue, Hits, Sound;
    assert ParseByte(s, c, w) == WithIo(Enqueue(t, k, w), if IsNewline(c) then NEWLINE else WAITNL);
  }

  lemma IncompleteUndisturbed(s: Ctl, c: char, w: World, v: nat)
    requires Calm(s) && v < CHANNELS && Queued(s.ch[v]) && !Resets(s, Serial(c, w)) && Completed(s, c).None?
    ensures var t := ParseByte(s, c, w);
            && Undisturbed(s, t, v) && QuietPriorities(t.ch)
            && (t.parser.io >= WAITNODE ==> t.ch[t.parser.curr].state <= ADDING)
  {
    hide StatusLine, Boot, Enqueue;
  }

  lemma SerialUndisturbed(s: Ctl, c: char, w: World, v: nat)
    requires Calm(s) && v < CHANNELS && Queued(s.ch[v]) && Safe(s, v, Serial(c, w))
    ensures var t := ParseByte(s, c, w);
            Undisturbed(s, t, v) && Calm(t)
  {
    ParseExclusive(s, c, w);
    if Completed(s, c).Some? {
      CompletionUndisturbed(s, c, w, v);
    } else {
      IncompleteUndisturbed(s, c, w, v);
    }
    hide ParseByte, Hits, Sound, Completed, Undisturbed, QuietPriorities, Resets;
  }

  lemma AwaitUndisturbed(s: Ctl, v: nat, ready: bool, fifo: seq<byte>)
    requires Calm(s) && v < CHANNELS && Queued(s.ch[v])
    ensures Undisturbed(s, Await(s, ready, fifo), v) && Calm(Await(s, ready, fifo))
  {
    AwaitKeepsCalm(s, ready, fifo);
    hide Receive, ResponseLine, Hears, SlotAfter, Calm;
  }

  lemma OtherStepUndisturbed(s: Ctl, v: nat, e: Step)
    requires Calm(s) && v < CHANNELS && Queued(s.ch[v]) && Safe(s, v, e) && !e.Scheduler?
    ensures Undisturbed(s, Next(s, e), v) && Calm(Next(s, e))
  {
    match e {
      case Interrupt =>
      case Wake =>
      case Wait(ready, fifo) =>
        AwaitUndisturbed(s, v, ready, fifo);
        hide Await;
      case Serial(c, w) =>
        SerialUndisturbed(s, c, w, v);
        hide ParseByte, Hits, Completed;
    }
  }

  // Scheduler passes

  ghost predicate SentOn(s: Ctl, t: Ctl, v: nat, m: Message)
  {
    exists i :: |s.log.sent| <= i < |t.log.sent| && t.log.sent[i].channel == v &&
      t.log.sent[i].packet.len <= MAX_PAYLOAD && MessageOf(t.log.sent[i].packet) == m
  }

  // v is still queued with the same message and has aged.
  ghost predicate Waited(s: Ctl, t: Ctl, v: nat)
    requires Wf(s) && Wf(t) && v < CHANNELS
  {
    && t.ch[v].state == s.ch[v].state
    && t.ch[v].priority == Aged(s.ch[v]).priority
    && MessageOf(t.ch[v].packet) == MessageOf(s.ch[v].packet)
  }

  // Apart from v and x, what is queued was queued before and has aged.
  ghost predicate OnlyAged(s: Ctl, t: Ctl, v: nat, x: int)
    requires Wf(s) && Wf(t)
  {
    forall j :: 0 <= j < CHANNELS && j != v && j != x && Queued(t.ch[j]) ==>
      Queued(s.ch[j]) && t.ch[j].priority == Aged(s.ch[j]).priority
  }

  lemma TransmitWaits(s: Ctl, c: nat, chip: Chip, v: nat)
    requires Wf(s) && c < CHANNELS && v < CHANNELS && Queued(s.ch[v])
    ensures var t := Transmit(s, c, chip);
            if c == v && Accepts(s.radio, chip) then SentOn(s, t, v, MessageOf(s.ch[v].packet)) else Waited(s, t, v)
  {
    PacketAfterSendSame(s.radio, s.ch[c].packet, chip);
    hide AfterSend, PacketAfterSend;
    var t := Transmit(s, c, chip);
    if Accepts(s.radio, chip) {
      assert t.log.sent[|s.log.sent|] == Entry(c, PacketAfterSend(s.radio, s.ch[c].packet, chip));
    }
  }

  // A check that tries to send on some channel, successfully or not.
  predicate Attempts(s: Ctl, e: Step)
    requires Wf(s)
  {
    e.Scheduler? && SchedulerRuns(s) &&
    if Wraps(s) then s.ch[SyncSlot(s.radio.ms)].state >= EMPTY else Pick(s.ch, CHANNELS) >= 0
  }

  // What a check makes of a queued packet: it is left alone, sent, or aged.
  lemma CheckOfPacket(s: Ctl, v: nat, chip: Chip)
    requires Calm(s) && v < CHANNELS && Queued(s.ch[v])
    ensures var t := Schedule(s, chip);
            if !Attempts(s, Scheduler(chip)) then t.ch == s.ch && t.log == s.log
            else SentOn(s, t, v, MessageOf(s.ch[v].packet)) || Waited(s, t, v)
  {
    if Attempts(s, Scheduler(chip)) {
      var m := s.(lastModulo := s.radio.ms % MODULO);
      var u := if Wraps(s) then InstallSync(m, SyncSlot(s.radio.ms)) else m;
      TransmitWaits(u, if Wraps(s) then SyncSlot(s.radio.ms) else Pick(s.ch, CHANNELS), chip, v);
      assert u.ch[v] == s.ch[v] && u.log == s.log;
    }
    hide Transmit, Calm, SyncSlot, Accepts;
  }

  lemma TransmitStep(s: Ctl, c: nat, chip: Chip, v: nat)
    requires Wf(s) && s.resp < 0 && c < CHANNELS && v < CHANNELS
    ensures var t := Transmit(s, c, chip);
            OnlyAged(s, t, v, -1) && (Accepts(s.radio, chip) ==> !Queued(t.ch[c]))
  {
    hide AfterSend, PacketAfterSend;
  }

  // A broadcast on a free channel leaves its slot free again, or queued if refused.
  lemma SyncStep(s: Ctl, c: nat, chip: Chip, v: nat)
    requires Wf(s) && s.resp < 0 && c < CHANNELS && v < CHANNELS && s.ch[c].state == EMPTY
    ensures OnlyAged(s, Transmit(InstallSync(s, c), c, chip), v, if Accepts(s.radio, chip) then -1 else c)
  {
    hide AfterSend, PacketAfterSend;
  }

  // The channel a refused broadcast has filled.
  function RefusedSlot(s: Ctl, chip: Chip): int
    requires Wf(s)
  {
    if Refuses(s, Scheduler(chip)) then SyncSlot(s.radio.ms) else -1
  }

  // A check ages what is queued; only a refused broadcast queues anything.
  lemma CheckOnlyAges(s: Ctl, v: nat, chip: Chip)
    requires Wf(s) && v < CHANNELS && Attempts(s, Scheduler(chip))
    ensures OnlyAged(s, Schedule(s, chip), v, RefusedSlot(s, chip))
  {
    var m := s.(lastModulo := s.radio.ms % MODULO);
    var c := if Wraps(s) then SyncSlot(s.radio.ms) else Pick(s.ch, CHANNELS);
    if Wraps(s) && s.ch[c].state == EMPTY {
      SyncStep(m, c, chip, v);
    } else {
      TransmitStep(m, c, chip, v);
    }
    hide Transmit, SyncSlot, Accepts, Pick;
  }

  /** A productive pass sends the packet on v, or another at least as urgent. */
  lemma ProductiveStep(s: Ctl, v: nat, chip: Chip)
    requires Calm(s) && v < CHANNELS && Queued(s.ch[v]) && s.ch[v].priority > 0 && Productive(s, Scheduler(chip))
    ensures var t := Schedule(s, chip);
            || SentOn(s, t, v, MessageOf(s.ch[v].packet))
            || exists u :: 0 <= u < CHANNELS && Overtaken(s, t, v, u)
  {
    var m := s.(lastModulo := s.radio.ms % MODULO);
    var c := Pick(s.ch, CHANNELS);
    PickIsBest(s.ch, CHANNELS);
    assert Eligible(s.ch[v]) && Queued(s.ch[c]);
    TransmitWaits(m, c, chip, v);
    TransmitStep(m, c, chip, v);
    assert Schedule(s, chip) == Transmit(m, c, chip);
    hide Transmit, Schedule, Calm, Accepts;
    assert c != v ==> Overtaken(s, Transmit(m, c, chip), v, c);
  }

  ghost predicate Overtaken(s: Ctl, t: Ctl, v: nat, u: int)
    requires Wf(s) && Wf(t) && v < CHANNELS
  {
    0 <= u < CHANNELS && u != v && Queued(s.ch[u]) && !Queued(t.ch[u]) && s.ch[u].priority >= s.ch[v].priority
  }

  lemma ProductiveAttempts(s: Ctl, v: nat, e: Step)
    requires Calm(s) && v < CHANNELS && Queued(s.ch[v]) && s.ch[v].priority > 0 && Productive(s, e)
    ensures Attempts(s, e) && !Refuses(s, e)
  {
    PickIsBest(s.ch, CHANNELS);
    assert Eligible(s.ch[v]);
  }

  lemma SentLater(s: Ctl, t: Ctl, u: Ctl, v: nat, m: Message)
    requires t.log.sent <= u.log.sent && s.log.sent <= t.log.sent
    ensures SentOn(s, t, v, m) ==> SentOn(s, u, v, m)
    ensures SentOn(t, u, v, m) ==> SentOn(s, u, v, m)
  {
  }

  lemma StepExtendsSent(s: Ctl, e: Step)
    requires Wf(s)
    ensures s.log.sent <= Next(s, e).log.sent
  {
    match e {
      case Interrupt =>
      case Wake =>
      case Wait(_, _) => hide Receive, ResponseLine, Hears, SlotAfter;
      case Serial(c, w) =>
        if s.parser.io >= WAITNODE {
          ParseLeavesWait(s, c, w);
          hide ParseByte;
        }
      case Scheduler(_) => hide AfterSend, PacketAfterSend, SendSucceeds;
    }
  }

  lemma {:induction false} RunExtendsSent(s: Ctl, es: seq<Step>)
    requires Wf(s)
    ensures s.log.sent <= Run(s, es).log.sent
    decreases |es|
  {
    hide Next, Wf;
    if es != [] {
      StepExtendsSent(s, es[0]);
      RunExtendsSent(Next(s, es[0]), es[1..]);
    }
  }

  // A packet that is queued stays queued, with its message and no lower a priority, until
  // it is sent.
  ghost predicate StillQueued(s: Ctl, t: Ctl, v: nat)
    requires Wf(s) && Wf(t) && v < CHANNELS
  {
    && Queued(t.ch[v]) && t.ch[v].priority >= s.ch[v].priority
    && MessageOf(t.ch[v].packet) == MessageOf(s.ch[v].packet)
  }

  lemma StepKeepsPacket(s: Ctl, v: nat, e: Step)
    requires Calm(s) && v < CHANNELS && Queued(s.ch[v]) && Safe(s, v, e)
    ensures var t := Next(s, e);
            && Calm(t)
            && (if Attempts(s, e) then SentOn(s, t, v, MessageOf(s.ch[v].packet)) || Waited(s, t, v)
                else t.ch[v] == s.ch[v] && t.log.sent == s.log.sent)
  {
    StepKeepsCalm(s, e);
    if e.Scheduler? {
      CheckOfPacket(s, v, e.chip);
      hide Schedule, Calm, Safe, Attempts, SentOn, Waited;
    } else {
      OtherStepUndisturbed(s, v, e);
      hide Next, Calm, Safe;
    }
  }

  lemma {:induction false} StillWaiting(s: Ctl, v: nat, es: seq<Step>)
    requires Calm(s) && v < CHANNELS && Queued(s.ch[v]) && SafeRun(s, v, es)
    ensures var t := Run(s, es);
            SentOn(s, t, v, MessageOf(s.ch[v].packet)) || (Calm(t) && StillQueued(s, t, v))
    decreases |es|
  {
    assert Wf(s);
    if es != [] {
      var t, m := Next(s, es[0]), MessageOf(s.ch[v].packet);
      StepKeepsPacket(s, v, es[0]);
      StepExtendsSent(s, es[0]);
      RunExtendsSent(t, es[1..]);
      SentLater(s, t, Run(t, es[1..]), v, m);
      hide Next, Calm, Safe, Attempts, SentOn;
      if !SentOn(s, t, v, m) {
        StillWaiting(t, v, es[1..]);
      }
    }
  }

  // Runs in two parts
  lemma {:induction false} RunSplits(s: Ctl, v: nat, es: seq<Step>, n: nat)
    requires Wf(s) && n <= |es|
    ensures var t := Run(s, es[..n]);
            && Run(t, es[n..]) == Run(s, es)
            && ProductivePasses(s, es) == ProductivePasses(s, es[..n]) + ProductivePasses(t, es[n..])
            && Setbacks(s, es) == Setbacks(s, es[..n]) + Setbacks(t, es[n..])
            && Refusals(s, es) == Refusals(s, es[..n]) + Refusals(t, es[n..])
            && (SafeRun(s, v, es) <==> SafeRun(s, v, es[..n]) && SafeRun(t, v, es[n..]))
    decreases n
  {
    hide Next, Wf, Productive, SchedulerRuns, Refuses, Safe;
    if n == 0 {
      assert es[..0] == [] && es[0..] == es;
    } else {
      assert es[..n][1..] == es[1..][..n - 1] && es[..n][0] == es[0] && es[1..][n - 1..] == es[n..];
      RunSplits(Next(s, es[0]), v, es[1..], n - 1);
    }
  }

  // The first n productive passes of a run.
  lemma {:induction false} EnoughPasses(s: Ctl, es: seq<Step>, n: nat) returns (i: nat)
    requires Wf(s) && ProductivePasses(s, es) >= n
    ensures n <= i <= |es| && ProductivePasses(s, es[..i]) == n
    decreases |es|
  {
    hide Next, Wf, Productive;
    if n == 0 {
      i := 0;
      assert es[..0] == [];
    } else {
      var j := EnoughPasses(Next(s, es[0]), es[1..], if Productive(s, es[0]) then n - 1 else n);
      i := j + 1;
      assert es[..i][1..] == es[1..][..j] && es[..i][0] == es[0];
    }
  }

  lemma KeptVictim(s: Ctl, t: Ctl, v: nat)
    requires Wf(s) && v < CHANNELS && Calm(t) && StillQueued(s, t, v)
    ensures Wf(t) && Queued(t.ch[v]) && t.ch[v].priority >= s.ch[v].priority
    ensures MessageOf(t.ch[v].packet) == MessageOf(s.ch[v].packet)
  {
  }

  lemma PacketIsQueued(s: Ctl, c: char, w: World)
    requires Calm(s) && Completed(s, c).Some? && s.radio.state == ACTIVE && !ForMe(s.radio, Completed(s, c).value)
    ensures var t := Next(s, Serial(c, w));
            var k := s.parser.curr;
            && !Disturbs(s, Serial(c, w))
            && Queued(t.ch[k]) && 3 <= t.ch[k].priority <= 48 && t.ch[k].packet == Completed(s, c).value
            && t.log.queued == s.log.queued + [Entry(k, Completed(s, c).value)]
  {
    var k := s.parser.curr;
    var t := if IsNewline(c) then s else if s.parser.io == WAITCMD then PutCommand(s) else PutData(s);
    assert t.ch[k].packet == Completed(s, c).value && t.ch[k].priority == s.ch[k].priority && !Queued(s.ch[k]);
    Queueing(t, k, w);
    hide Enqueue, Sound;
    assert ParseByte(s, c, w) == WithIo(Enqueue(t, k, w), if IsNewline(c) then NEWLINE else WAITNL);
  }

  lemma Queueing(s: Ctl, k: nat, w: World)
    requires Wf(s) && k < CHANNELS && s.radio.state == ACTIVE && !ForMe(s.radio, s.ch[k].packet)
    ensures var t := Enqueue(s, k, w);
            && Queued(t.ch[k]) && t.ch[k].packet == s.ch[k].packet
            && t.ch[k].priority == EntryPriority(s.ch[k].priority, k)
            && t.log.queued == s.log.queued + [Entry(k, s.ch[k].packet)]
  {
  }

  /** Enqueue gives priorities from 3 to 48. */
  lemma EntryPriorityRange(s: Ctl, c: nat, w: World)
    requires Calm(s) && c < CHANNELS && s.ch[c].state <= ADDING
    requires !ForMe(s.radio, s.ch[c].packet) && s.radio.state == ACTIVE
    ensures var t := Enqueue(s, c, w);
            Queued(t.ch[c]) && 3 <= t.ch[c].priority <= 48 && t.ch[c].packet == s.ch[c].packet
  {
    assert !Queued(s.ch[c]);
  }

  // A priority zeroed by SET_CHANNEL

  // No check of the run tries to send anything.
  ghost predicate NothingTried(s: Ctl, es: seq<Step>)
    requires Wf(s)
    decreases |es|
  {
    es == [] || (!Attempts(s, es[0]) && NothingTried(Next(s, es[0]), es[1..]))
  }

  /** A packet whose priority is zero stays unsent, and its slot as it is, exactly as long
      as no check tries to send on any channel: the first that does ages it. */
  lemma {:induction false} ZeroPriorityWaits(s: Ctl, v: nat, es: seq<Step>)
    requires Calm(s) && v < CHANNELS && Queued(s.ch[v]) && s.ch[v].priority == 0 && SafeRun(s, v, es)
    ensures var t := Run(s, es);
            NothingTried(s, es) <==> t.ch[v] == s.ch[v] && !SentOn(s, t, v, MessageOf(s.ch[v].packet))
    ensures NothingTried(s, es) ==> Run(s, es).log.sent == s.log.sent
    ensures var t := Run(s, es);
            !NothingTried(s, es) ==> SentOn(s, t, v, MessageOf(s.ch[v].packet)) || t.ch[v].priority > 0
    decreases |es|
  {
    assert Wf(s);
    var m := MessageOf(s.ch[v].packet);
    if es != [] {
      var t := Next(s, es[0]);
      StepKeepsPacket(s, v, es[0]);
      hide Next, Safe, Attempts;
      if Attempts(s, es[0]) {
        StepExtendsSent(s, es[0]);
        RunExtendsSent(t, es[1..]);
        SentLater(s, t, Run(t, es[1..]), v, m);
        hide SentOn;
        if !SentOn(s, t, v, m) {
          StillWaiting(t, v, es[1..]);
        }
      } else {
        ZeroPriorityWaits(t, v, es[1..]);
      }
    }
  }

  /** Alone in the queue with a zero priority, no pass short of a time broadcast changes
      anything but the modulo. */
  lemma ZeroPriorityStarves(s: Ctl, v: nat, chip: Chip)
    requires Calm(s) && v < CHANNELS && Queued(s.ch[v]) && s.ch[v].priority == 0
    requires forall c :: 0 <= c < CHANNELS && c != v ==> s.ch[c].state <= ADDING
    requires SchedulerRuns(s) && !Wraps(s)
    ensures Schedule(s, chip) == s.(lastModulo := s.radio.ms % MODULO)
    ensures !Attempts(s, Scheduler(chip))
  {
    PickIsBest(s.ch, CHANNELS);
  }

  // Why failed sends must be bounded

  // Scheduler passes with the same answers of the chip.
  function Tries(chip: Chip, n: nat): (es: seq<Step>)
    ensures |es| == n
  {
    if n == 0 then [] else [Scheduler(chip)] + Tries(chip, n - 1)
  }

  // The radio is up but busy, and some channel is due.
  ghost predicate Stuck(s: Ctl, chip: Chip)
  {
    && Wf(s) && SchedulerRuns(s) && s.radio.powered && !chip.ready
    && !Wraps(s) && exists c :: 0 <= c < CHANNELS && Eligible(s.ch[c])
  }

  function AgedBy(priority: byte, n: nat): byte
    decreases n
  {
    if n == 0 then priority else AgedBy(if priority < 0xfc then priority + 2 else priority, n - 1)
  }

  // Queued channels keep state and packet and are n steps older.
  ghost predicate OlderBy(s: Ctl, t: Ctl, n: nat)
    requires Wf(s) && Wf(t)
  {
    && t.log.sent == s.log.sent && t.parser == s.parser
    && t.radio == s.radio.(currChannel := t.radio.currChannel)
    && forall c :: 0 <= c < CHANNELS ==>
         t.ch[c] == if s.ch[c].state >= TRANSMIT then s.ch[c].(priority := AgedBy(s.ch[c].priority, n)) else s.ch[c]
  }

  lemma FailedPass(s: Ctl, chip: Chip)
    requires Stuck(s, chip)
    ensures Stuck(Schedule(s, chip), chip) && OlderBy(s, Schedule(s, chip), 1)
  {
    PickIsBest(s.ch, CHANNELS);
    var t := Schedule(s, chip);
    var c := Pick(s.ch, CHANNELS);
    assert t.ch[c] == Aged(s.ch[c]);
    assert Eligible(t.ch[c]);
    forall p: byte ensures AgedBy(p, 1) == if p < 0xfc then p + 2 else p {
      var q: byte := if p < 0xfc then p + 2 else p;
      assert AgedBy(q, 0) == q;
    }
  }

  lemma {:induction false} FailedPasses(s: Ctl, chip: Chip, n: nat)
    requires Stuck(s, chip)
    ensures var t := Run(s, Tries(chip, n));
            Stuck(t, chip) && OlderBy(s, t, n)
    decreases n
  {
    if n > 0 {
      var t := Schedule(s, chip);
      FailedPass(s, chip);
      assert Tries(chip, n)[1..] == Tries(chip, n - 1) && Tries(chip, n)[0] == Scheduler(chip);
      FailedPasses(t, chip, n - 1);
      assert Run(s, Tries(chip, n)) == Run(t, Tries(chip, n - 1));
      hide Stuck, Schedule, Run, Tries;
      OlderTwice(s, t, Run(t, Tries(chip, n - 1)), n - 1);
    }
  }

  lemma OlderTwice(s: Ctl, t: Ctl, u: Ctl, n: nat)
    requires Wf(s) && Wf(t) && Wf(u) && OlderBy(s, t, 1) && OlderBy(t, u, n)
    ensures OlderBy(s, u, n + 1)
  {
    forall p: byte ensures AgedBy(p, n + 1) == AgedBy(AgedBy(p, 1), n) {
      var q: byte := if p < 0xfc then p + 2 else p;
      assert AgedBy(q, 0) == q && AgedBy(p, 1) == AgedBy(q, 0);
    }
  }

  // Where ageing stops.
  function Ceiling(priority: byte): int { if priority >= 0xfc then priority else 0xfc + priority % 2 }

  lemma {:induction false} AgedByIs(p: byte, n: nat)
    ensures AgedBy(p, n) == if p + 2 * n >= 0xfc then Ceiling(p) else p + 2 * n
    decreases n
  {
    if n > 0 {
      AgedByIs(if p < 0xfc then p + 2 else p, n - 1);
    }
  }

  /** Two packets wait behind n failed sends, the older on the higher channel. The newer
      one on the lower channel then goes first exactly when its priority has reached the
      ceiling and the other's ceiling is no higher; from the highest entry priority of 48
      that takes 102 failures. */
  lemma FailuresDefeatAgeing(s: Ctl, u: nat, v: nat, n: nat, busy: Chip, free: Chip)
    requires Stuck(s, busy) && u < v < CHANNELS && Accepts(s.radio, free)
    requires forall c :: 0 <= c < CHANNELS && c != u && c != v ==> s.ch[c].state <= ADDING
    requires Queued(s.ch[u]) && Queued(s.ch[v]) && 0 < s.ch[u].priority < s.ch[v].priority
    ensures var t := Run(s, Tries(busy, n));
            var w := Schedule(t, free);
            var overtakes := s.ch[u].priority + 2 * n >= 0xfc && Ceiling(s.ch[v].priority) <= Ceiling(s.ch[u].priority);
            && t.log.sent == s.log.sent && |w.log.sent| == |t.log.sent| + 1
            && w.log.sent[|t.log.sent|].channel == (if overtakes then u else v)
            && (overtakes ==> Queued(w.ch[v]))
  {
    FailedPasses(s, busy, n);
    AgedByIs(s.ch[u].priority, n);
    AgedByIs(s.ch[v].priority, n);
    var t := Run(s, Tries(busy, n));
    PickIsBest(t.ch, CHANNELS);
    hide Run, Tries, AgedBy;
    var overtakes := s.ch[u].priority + 2 * n >= 0xfc && Ceiling(s.ch[v].priority) <= Ceiling(s.ch[u].priority);
    assert Pick(t.ch, CHANNELS) == if overtakes then u else v;
  }
}
