// A wait that SET_CHANNEL breaks: how a run from power-on gets there, and what follows.

module BrokenWait {
  import opened Bytes
  import opened Text
  import opened Packets
  import opened Radios
  import opened Devices
  import opened Controllers
  import opened Exclusivity
  import opened Printer
  import opened RoundTrip
  import opened Script

  // The packet a printed command with byte arguments stands for.
  lemma CommandedIs(p: Packet, node: byte, cmd: byte, data: seq<byte>)
    requires |data| <= MAX_PAYLOAD
    ensures var q := Commanded(p, node, cmd, data);
            q.node == node && q.cmd == cmd && q.len == |data| && forall i :: 0 <= i < |data| ==> q.data[i] == data[i]
  {
    var r := p.(node := node, cmd := cmd, len := 0);
    FilledHolds(r, data);
    var q := Commanded(p, node, cmd, data);
    hide Filled;
    forall i | 0 <= i < |data| ensures q.data[i] == data[i] {
      assert q.data[r.len + i] == data[i] % 0x100;
    }
  }

  // The line that configures a channel of the controller.
  function ConfigureLine(r: Radio, through: nat, channel: nat, config: nat): string
  {
    Sent(CommandLine(through, r.myNode, 16, [channel, config]))
  }

  lemma ConfigureExecuted(s: Ctl, through: nat, p: Packet, w: World)
    requires Wf(s) && through < CHANNELS && p.len == 2 && p.node == s.radio.myNode && p.cmd == CMD_SET_CHANNEL
    requires p.data[0] < CHANNELS && p.data[0] != through && p.data[1] < 3
    ensures var t := Executed(s, through, p, w);
            && t.ch[p.data[0]].state == p.data[1] && t.resp == s.resp && t.parser.io == NEWLINE
            && t.log.queued == s.log.queued + [Entry(through, p)]
  {
  }

  /** During any wait, a SET_CHANNEL for the awaiting channel that is read on another one
      takes it out of its wait, and exclusivity with it. */
  lemma SetChannelDuringWait(s: Ctl, through: nat, config: nat, w: World)
    requires Sound(s) && s.resp >= 0 && s.parser.io == NEWLINE && config < 3
    requires through < CHANNELS && s.ch[through].state <= EMPTY
    ensures var es := Typed(ConfigureLine(s.radio, through, s.resp, config), w);
            var t := Run(s, es);
            && !NeverHits(s, es) && !Sound(t)
            && t.resp == s.resp && t.ch[s.resp].state == config && t.parser.io == NEWLINE
            && |t.log.queued| == |s.log.queued| + 1 && t.log.queued[|s.log.queued|].channel == through
  {
    var data := [s.resp as nat, config];
    var es := Typed(ConfigureLine(s.radio, through, s.resp, config), w);
    TypedCommand(s, through, s.radio.myNode, 16, data, w);
    CommandedIs(s.ch[through].packet, s.radio.myNode, 16, data);
    var p := Commanded(s.ch[through].packet, s.radio.myNode, 16, data);
    SoundAwaits(s);
    hide Commanded, Executed, Run, Typed, CommandLine;
    ConfigureExecuted(s, through, p, w);
    NotAwaitingIsUnsound(Run(s, es));
    if NeverHits(s, es) {
      RunKeepsSound(s, es);
    }
  }

  lemma NotAwaitingIsUnsound(t: Ctl)
    requires Wf(t) && t.resp >= 0 && t.ch[t.resp].state < 3
    ensures !Sound(t)
  {
  }

  // A run to a wait

  const POWERED := World(true, 0)
  const WILLING := Chip(true, true, 0, true, true)
  const SILENT := Wait(false, [])

  function ActivateLine(): string { Sent(CommandLine(0, 0, 3, [0, 1, 0])) }

  function StatusRequest(): string { Sent(CommandLine(0, 5, 2, [1, 1, 1])) }

  function ToWait(): seq<Step>
  {
    Typed(ActivateLine(), POWERED) + Typed(StatusRequest(), POWERED) + [Scheduler(WILLING)]
  }

  // Activated by the host, with the clock still unset.
  ghost predicate Activated(s: Ctl)
  {
    && Sound(s) && s.resp < 0 && s.parser.io == NEWLINE && s.lastModulo == 0
    && s.radio.state == ACTIVE && s.radio.powered && s.radio.myNode == 1 && s.radio.ms == 0 && s.radio.period == 1
    && s.ch[0].state == EMPTY && s.ch[0].priority == 0
    && (forall c :: 1 <= c < CHANNELS ==> s.ch[c].state == DISABLED && s.ch[c].priority == 0)
  }

  lemma ActivationExecuted(s: Ctl, p: Packet)
    requires s == Boot(NO_LOG)
    requires p.len == 3 && p.node == 0 && p.cmd == CMD_ACTIVATE && p.data[0] == 0 && p.data[1] == 1
    ensures Activated(Executed(s, 0, p, POWERED))
  {
    hide Interrupts;
  }

  lemma HostActivates()
    ensures Activated(Run(Boot(NO_LOG), Typed(ActivateLine(), POWERED)))
  {
    var s, data := Boot(NO_LOG), [0 as nat, 1, 0];
    TypedCommand(s, 0, 0, 3, data, POWERED);
    CommandedIs(s.ch[0].packet, 0, 3, data);
    ActivationExecuted(s, Commanded(s.ch[0].packet, 0, 3, data));
    hide *;
    assert ActivateLine() == Sent(CommandLine(0, 0, 3, data)) by { ActivateText(); }
  }

  lemma ActivateText()
    ensures ActivateLine() == Sent(CommandLine(0, 0, 3, [0, 1, 0]))
  {
  }

  lemma StatusExecuted(s: Ctl, p: Packet)
    requires Activated(s) && p.len == 3 && p.node == 5 && p.cmd == CMD_STATUS
    ensures var t := Executed(s, 0, p, POWERED);
            && t == s.(ch := s.ch[0 := Channel(TXRESPOND, 48, p)], parser := t.parser, log := t.log)
            && t.parser.io == NEWLINE && Sound(t)
  {
  }

  // A status request is queued.
  ghost predicate Asking(s: Ctl)
  {
    && Sound(s) && SchedulerRuns(s) && s.radio.powered && s.lastModulo == 0
    && s.ch[0].state == TXRESPOND && s.ch[0].priority == 48 && s.parser.io == NEWLINE
    && (forall c :: 1 <= c < CHANNELS ==> s.ch[c].state == DISABLED && s.ch[c].priority == 0)
  }

  lemma HostAsks(s: Ctl)
    requires Activated(s)
    ensures Asking(Run(s, Typed(StatusRequest(), POWERED)))
  {
    var data := [1 as nat, 1, 1];
    TypedCommand(s, 0, 5, 2, data, POWERED);
    CommandedIs(s.ch[0].packet, 5, 2, data);
    StatusExecuted(s, Commanded(s.ch[0].packet, 5, 2, data));
    hide Commanded, Executed, Typed, Sound, Run, CommandLine;
  }

  lemma RunParts(s: Ctl, es: seq<Step>, fs: seq<Step>, e: Step)
    requires Wf(s)
    ensures Run(s, es + fs + [e]) == Next(Run(Run(s, es), fs), e)
  {
    hide *;
    RunAppend(s, es, fs);
    RunAppend(s, es + fs, [e]);
    RunOne(Run(Run(s, es), fs), e);
  }

  // A response is awaited on channel 0, and channel 1 is free.
  ghost predicate Waiting(s: Ctl)
  {
    Sound(s) && s.resp == 0 && s.ch[0].state == RXRESPONSE1 && s.parser.io == NEWLINE && s.ch[1].state <= EMPTY
  }

  lemma AskingThenWaiting(s: Ctl)
    requires Asking(s)
    ensures Waiting(Next(s, Scheduler(WILLING)))
  {
    ScheduleKeepsSound(s, WILLING);
    PickIsBest(s.ch, CHANNELS);
    hide Stamped, Sound;
  }

  /** Waits do occur: the host activates the controller, asks a client for its status, and
      the request is sent. */
  lemma WaitIsReached()
    ensures Waiting(Run(Boot(NO_LOG), ToWait()))
  {
    HostActivates();
    var a := Run(Boot(NO_LOG), Typed(ActivateLine(), POWERED));
    HostAsks(a);
    AskingThenWaiting(Run(a, Typed(StatusRequest(), POWERED)));
    hide Waiting, Boot, Typed, Run, Next, ActivateLine, StatusRequest;
    RunParts(Boot(NO_LOG), Typed(ActivateLine(), POWERED), Typed(StatusRequest(), POWERED), Scheduler(WILLING));
  }

  lemma TwoSilentPasses(s: Ctl)
    requires Wf(s) && s.resp >= 0 && s.ch[s.resp].state == EMPTY
    ensures var t := Run(s, [SILENT, SILENT]);
            t.resp == s.resp && t.ch[s.resp].state == TRANSMIT && t.log.queued == s.log.queued
  {
    BrokenWaitFabricatesPacket(s, []);
    assert Next(Next(s, SILENT), SILENT) == Await(Await(s, false, []), false, []);
    hide Await, Next;
    RunParts(s, [], [SILENT], SILENT);
    RunOne(s, SILENT);
    assert [] + [SILENT] + [SILENT] == [SILENT, SILENT];
  }

  // The line that breaks such a wait.
  function Breaking(r: Radio): seq<Step> { Typed(ConfigureLine(r, 1, 0, 2), POWERED) }

  lemma WaitingBreaks(s: Ctl)
    requires Waiting(s)
    ensures !NeverHits(s, Breaking(s.radio))
    ensures var t := Run(s, Breaking(s.radio));
            && t.resp == 0 && t.ch[0].state == EMPTY
            && |t.log.queued| == |s.log.queued| + 1 && t.log.queued[|s.log.queued|].channel == 1
  {
    SetChannelDuringWait(s, 1, 2, POWERED);
    hide Run, Typed, ConfigureLine, NeverHits;
  }

  /** The failing run: a SET_CHANNEL for the channel that awaits its response, and two
      passes later that channel holds a packet nobody queued. */
  lemma BreakingRun()
    ensures var s := Run(Boot(NO_LOG), ToWait());
            var es := Breaking(s.radio);
            var t := Run(Run(s, es), [SILENT, SILENT]);
            && Waiting(s) && !NeverHits(s, es)
            && t.resp == 0 && t.ch[0].state == TRANSMIT
            && |t.log.queued| == |s.log.queued| + 1 && t.log.queued[|s.log.queued|].channel == 1
  {
    WaitIsReached();
    var s := Run(Boot(NO_LOG), ToWait());
    WaitingBreaks(s);
    hide Waiting, Run, Boot, ToWait, Breaking, NeverHits;
    TwoSilentPasses(Run(s, Breaking(s.radio)));
  }
}
