// Runs from power-on to three states in which a natural statement about the controller
// fails: a clobbered line, a packet without priority, a time packet gone stale.

module FailingRuns {
  import opened Bytes
  import opened Text
  import opened Packets
  import opened Radios
  import opened Devices
  import opened Clock
  import opened Controllers
  import opened Exclusivity
  import opened Starvation
  import opened Printer
  import opened Lines
  import opened RoundTrip
  import opened Script
  import opened BrokenWait
  import opened Outwaited
  import opened EndToEnd

  // The controller is up, all is in order, and its clock runs and shows `time`.
  ghost predicate At(s: Ctl, time: nat, last: nat)
  {
    && Calm(s) && s.resp < 0 && s.lastModulo == last
    && s.radio.state == ACTIVE && s.radio.powered && s.radio.myNode == 1
    && s.radio.period == 1 && InRange(s.radio) && s.radio.tens != UNKNOWN_TIME && DayTime(s.radio) == time
  }

  lemma AtIsWf(s: Ctl, time: nat, last: nat)
    requires At(s, time, last)
    ensures Wf(s)
  {
  }

  lemma ClockShows(r: Radio, time: nat)
    requires InRange(r) && DayTime(r) == time
    ensures r.ms == time % TEN_MINUTES && r.ms % MODULO == time % MODULO
  {
    var tens := r.tens as int;
    assert time == MODULO * (120 * tens + r.ms / MODULO) + r.ms % MODULO;
  }

  // Clock interrupts

  lemma TickAt(s: Ctl, time: nat, last: nat)
    requires At(s, time, last) && time + 1 < PARKED
    ensures var t := Next(s, Interrupt);
            At(t, time + 1, last) && t == s.(radio := t.radio)
  {
    StepKeepsCalm(s, Interrupt);
    TickAdvances(s.radio);
    hide Calm;
  }

  function Pulses(n: nat): seq<Step> { if n == 0 then [] else [Interrupt] + Pulses(n - 1) }

  lemma {:induction false} PulsesAt(s: Ctl, time: nat, last: nat, n: nat)
    requires At(s, time, last) && time + n < PARKED
    ensures var t := Run(s, Pulses(n));
            At(t, time + n, last) && t == s.(radio := t.radio)
    decreases n
  {
    hide At, Next;
    AtIsWf(s, time, last);
    if n > 0 {
      TickAt(s, time, last);
      PulsesAt(Next(s, Interrupt), time + 1, last, n - 1);
      assert Pulses(n)[1..] == Pulses(n - 1) && Pulses(n)[0] == Interrupt;
    }
  }

  // A check between boundaries with nothing to send.
  lemma QuietCheck(s: Ctl, time: nat, last: nat)
    requires At(s, time, last) && time % MODULO >= last && forall c :: 0 <= c < CHANNELS ==> s.ch[c].state <= ADDING
    ensures var t := Next(s, Scheduler(WILLING));
            At(t, time, time % MODULO) && t == s.(lastModulo := time % MODULO)
  {
    WillingKeepsCalm(s);
    ClockShows(s.radio, time);
    PickIsBest(s.ch, CHANNELS);
    hide Calm, Transmit;
  }

  // The host sets the controller's clock

  function TimeLine(k: nat, hi: byte, lo: byte, tens: byte): string { Sent(CommandLine(k, 1, 5, [hi, lo, tens])) }

  lemma TimeExecuted(s: Ctl, k: nat, p: Packet)
    requires Activated(s) && k < CHANNELS && p.len == 3 && p.node == 1 && p.cmd == CMD_SET_TIME
    requires Join(p.data[0], p.data[1]) < TEN_MINUTES && p.data[2] != UNKNOWN_TIME
    ensures var t := Executed(s, k, p, POWERED);
            && At(t, p.data[2] as nat * TEN_MINUTES + Join(p.data[0], p.data[1]), 0)
            && t.parser.io == NEWLINE && t.ch == s.ch[k := Channel(EMPTY, 0, p)]
  {
    assert forall c :: 0 <= c < CHANNELS ==> s.ch[c].state <= EMPTY && s.ch[c].priority == 0;
  }

  lemma TimeIsSet(s: Ctl, k: nat, hi: byte, lo: byte, tens: byte)
    requires Activated(s) && k < CHANNELS && Join(hi, lo) < TEN_MINUTES && tens != UNKNOWN_TIME
    ensures var t := Run(s, Typed(TimeLine(k, hi, lo, tens), POWERED));
            && At(t, tens as nat * TEN_MINUTES + Join(hi, lo), 0) && t.parser.io == NEWLINE
            && t.ch[k].state == EMPTY && (forall c :: 0 <= c < CHANNELS ==> t.ch[c].state <= EMPTY)
  {
    var data: seq<byte> := [hi, lo, tens];
    var p := Commanded(s.ch[k].packet, 1, 5, data);
    assert s.ch[k].state <= EMPTY;
    TypedCommand(s, k, 1, 5, data, POWERED);
    CommandedIs(s.ch[k].packet, 1, 5, data);
    TimeExecuted(s, k, p);
    hide Run, Typed, Commanded, CommandLine, Executed, Sound, Join;
  }

  // A clobbered line

  // A line for channel 1 has been read up to its command number.
  ghost predicate HalfRead(s: Ctl, time: nat, last: nat, st: byte)
  {
    && At(s, time, last) && s.parser == Parser(WAITCMD, 0, 1) && s.ch[1].state == st
    && forall c :: 0 <= c < CHANNELS ==> s.ch[c].state <= ADDING
  }

  function FirstHalf(): string { ">B5:" }

  function SecondHalf(): string { "2." + CRLF }

  lemma HalvesAreALine()
    ensures FirstHalf() + SecondHalf() == Sent(CommandLine(1, 5, 2, []))
    ensures FirstHalf() == ['>', ((1 + 'A' as int) % 0x100) as char] + Dec(5) + ":"
    ensures SecondHalf() == Dec(2) + "" + "." + CRLF
  {
    assert Dec(5) == "5" && Dec(2) == "2";
  }

  lemma FirstHalfTyped(s: Ctl, time: nat)
    requires At(s, time, 0) && s.parser.io == NEWLINE && forall c :: 0 <= c < CHANNELS ==> s.ch[c].state <= EMPTY
    ensures HalfRead(Run(s, Typed(FirstHalf(), POWERED)), time, 0, ADDING)
  {
    var p := s.ch[1].packet;
    HalvesAreALine();
    ReadHead(p, 1, 5);
    TextMirrors(s, 1, Idle(p), POWERED, s, FirstHalf());
    hide Run, Typed, Read, FirstHalf, SecondHalf, CommandLine, Dec;
    assert Run(s, Typed(FirstHalf(), POWERED)) == Loaded(s, 1, p.(node := 5), WAITCMD, 0);
  }

  // The first boundary: what has been read of the line is sent.
  lemma HalfTransmitted(s: Ctl)
    requires Wf(s) && s.resp < 0 && s.radio.powered && forall c :: 0 <= c < CHANNELS ==> s.ch[c].state <= ADDING
    ensures var t := Transmit(s, 1, WILLING);
            && t.ch[1].state == EMPTY && (forall c :: 0 <= c < CHANNELS ==> t.ch[c].state <= ADDING)
            && t.resp < 0 && t.parser == s.parser && t.lastModulo == s.lastModulo
            && t.radio == s.radio.(currChannel := t.radio.currChannel, transmitted := t.radio.transmitted)
  {
    hide PacketAfterSend;
  }

  lemma HalfIsSent(s: Ctl)
    requires HalfRead(s, 500, 499, ADDING)
    ensures HalfRead(Next(s, Scheduler(WILLING)), 500, 0, EMPTY)
  {
    hide Calm, Transmit;
    AtIsWf(s, 500, 499);
    WillingKeepsCalm(s);
    ClockShows(s.radio, 500);
    HalfTransmitted(s.(lastModulo := 0));
  }

  lemma WillingKeepsCalm(s: Ctl)
    requires Calm(s) && s.radio.powered
    ensures Calm(Next(s, Scheduler(WILLING)))
  {
    StepKeepsCalm(s, Scheduler(WILLING));
    hide Calm, Next;
  }

  // Half a line at 499 ticks, and the two boundaries that give channel 1 its turn.
  function AcrossBoundaries(): seq<Step>
  {
    [Scheduler(WILLING), Interrupt, Scheduler(WILLING)] + Pulses(2999) + [Scheduler(WILLING), Interrupt]
  }

  lemma RunTwo(s: Ctl, a: Step, b: Step)
    requires Wf(s)
    ensures Run(s, [a, b]) == Next(Next(s, a), b)
  {
    hide *;
    RunParts(s, [], [a], b);
    EmptyAnd([a], b);
    RunOne(s, a);
    NoSteps(s);
  }

  lemma EmptyAnd(es: seq<Step>, e: Step)
    requires |es| == 1
    ensures [] + es + [e] == [es[0], e]
  {
  }

  lemma AcrossIs(s: Ctl)
    requires Wf(s)
    ensures var t := Next(Next(Next(s, Scheduler(WILLING)), Interrupt), Scheduler(WILLING));
            Run(s, AcrossBoundaries()) == Next(Next(Run(t, Pulses(2999)), Scheduler(WILLING)), Interrupt)
  {
    hide Next, Run, Pulses, Wf;
    var a, b := Scheduler(WILLING), Interrupt;
    RunTwo(s, a, b);
    RunAppend(s, [a, b], [a]);
    RunOne(Next(Next(s, a), b), a);
    assert [a, b] + [a] == [a, b, a];
    RunAppend(s, [a, b, a], Pulses(2999));
    RunAppend(s, [a, b, a] + Pulses(2999), [a, b]);
    RunTwo(Run(s, [a, b, a] + Pulses(2999)), a, b);
  }

  lemma SecondBoundary(s: Ctl)
    requires HalfRead(s, 499, 0, ADDING)
    ensures HalfRead(Run(s, AcrossBoundaries()), 3500, 499, EMPTY)
  {
    hide Next, Run, Pulses, At, AcrossBoundaries;
    AtIsWf(s, 499, 0);
    QuietCheck(s, 499, 0);
    var a := Next(s, Scheduler(WILLING));
    TickAt(a, 499, 499);
    var b := Next(a, Interrupt);
    HalfIsSent(b);
    var c := Next(b, Scheduler(WILLING));
    PulsesAt(c, 500, 0, 2999);
    var d := Run(c, Pulses(2999));
    QuietCheck(d, 3499, 0);
    TickAt(Next(d, Scheduler(WILLING)), 3499, 499);
    AcrossIs(s);
  }

  // On the way to either failure.
  function ToBoundary(): seq<Step>
  {
    Typed(ActivateLine(), POWERED) + Typed(TimeLine(0, 1, 243, 0), POWERED)
  }

  lemma BoundaryNear()
    ensures var s := Run(Boot(NO_LOG), ToBoundary());
            At(s, 499, 0) && s.parser.io == NEWLINE && forall c :: 0 <= c < CHANNELS ==> s.ch[c].state <= EMPTY
  {
    hide Run, Boot, Typed, ActivateLine, TimeLine, Activated, At;
    HostActivates();
    TimeIsSet(Run(Boot(NO_LOG), Typed(ActivateLine(), POWERED)), 0, 1, 243, 0);
    RunAppend(Boot(NO_LOG), Typed(ActivateLine(), POWERED), Typed(TimeLine(0, 1, 243, 0), POWERED));
  }

  lemma BroadcastClobbers(s: Ctl)
    requires HalfRead(s, 3500, 499, EMPTY)
    ensures Calm(s) && Clobbers(s, Scheduler(BUSY))
  {
    ClockShows(s.radio, 3500);
  }

  lemma HalfReadOnward(s: Ctl)
    requires At(s, 499, 0) && s.parser.io == NEWLINE && forall c :: 0 <= c < CHANNELS ==> s.ch[c].state <= EMPTY
    ensures HalfRead(Run(s, Typed(FirstHalf(), POWERED) + AcrossBoundaries()), 3500, 499, EMPTY)
  {
    hide *;
    AtIsWf(s, 499, 0);
    FirstHalfTyped(s, 499);
    SecondBoundary(Run(s, Typed(FirstHalf(), POWERED)));
    RunAppend(s, Typed(FirstHalf(), POWERED), AcrossBoundaries());
  }

  /** Clobbering does occur: half a line, one broadcast that sends it as it stands, and half
      a minute later the next one on that channel, which the chip refuses. */
  lemma ClobberingIsReached()
    ensures var s := Run(Boot(NO_LOG), ToBoundary() + (Typed(FirstHalf(), POWERED) + AcrossBoundaries()));
            Calm(s) && Clobbers(s, Scheduler(BUSY)) && !Calm(Next(s, Scheduler(BUSY)))
  {
    hide *;
    BoundaryNear();
    var s := Run(Boot(NO_LOG), ToBoundary());
    HalfReadOnward(s);
    var es := Typed(FirstHalf(), POWERED) + AcrossBoundaries();
    RunAppend(Boot(NO_LOG), ToBoundary(), es);
    BroadcastClobbers(Run(s, es));
    ClobberingDisturbs(Run(s, es));
  }

  lemma ClobberingDisturbs(s: Ctl)
    requires Calm(s) && Clobbers(s, Scheduler(BUSY))
    ensures !Calm(Next(s, Scheduler(BUSY)))
  {
    StepKeepsCalm(s, Scheduler(BUSY));
    hide Calm, Next;
  }

  // The same line spoilt by a broadcast that the chip takes

  lemma {:induction false} TextOfTwo(es: seq<Step>, fs: seq<Step>)
    ensures SerialText(es + fs) == SerialText(es) + SerialText(fs)
    decreases |es|
  {
    hide SerialText;
    EmptyText();
    if es == [] {
      assert es + fs == fs;
    } else {
      TextFrom(es);
      TextFrom(es + fs);
      TextOfTwo(es[1..], fs);
      assert (es + fs)[1..] == es[1..] + fs;
    }
  }

  lemma TextFrom(es: seq<Step>)
    requires es != []
    ensures SerialText(es) == (if es[0].Serial? then [es[0].c] else "") + SerialText(es[1..])
  {
  }

  lemma {:induction false} TextOfTyped(text: string, w: World)
    ensures SerialText(Typed(text, w)) == text
    decreases |text|
  {
    if text != "" {
      TextOfTyped(text[1..], w);
    }
  }

  ghost predicate NoText(es: seq<Step>) { forall e :: e in es ==> !e.Serial? }

  lemma {:induction false} WithoutText(s: Ctl, es: seq<Step>)
    requires Wf(s) && NoText(es)
    ensures SerialText(es) == "" && Run(s, es).log.queued == s.log.queued
    decreases |es|
  {
    hide Next, Wf;
    if es != [] {
      assert es[0] in es;
      OtherStepKeepsParser(s, es[0]);
      WithoutText(Next(s, es[0]), es[1..]);
    }
  }

  lemma {:induction false} PulsesHaveNoText(n: nat)
    ensures NoText(Pulses(n))
  {
    if n > 0 {
      PulsesHaveNoText(n - 1);
    }
  }

  // The second broadcast, taken by the chip, makes the slot a time packet for everyone.
  lemma BroadcastSpoils(s: Ctl)
    requires HalfRead(s, 3500, 499, EMPTY)
    ensures Spoils(s, 1, Scheduler(WILLING))
    ensures var t := Next(s, Scheduler(WILLING));
            && Sound(t) && t.parser == Parser(WAITCMD, 0, 1) && t.ch[1].state <= TRANSMIT && t.ch[1].packet.node == 0
            && t.log.queued == s.log.queued
  {
    ClockShows(s.radio, 3500);
    OtherStepSlot(s, Scheduler(WILLING), 1);
    OtherStepKeepsParser(s, Scheduler(WILLING));
    hide Next;
  }

  lemma {:induction false} TypingSpoilsNothing(s: Ctl, k: nat, text: string, w: World)
    requires Wf(s) && k < CHANNELS
    ensures NeverSpoils(s, k, Typed(text, w))
    decreases |text|
  {
    hide Next, Wf;
    if text != "" {
      TypingSpoilsNothing(Next(s, Serial(text[0], w)), k, text[1..], w);
    }
  }

  lemma SecondHalfRead(q: Packet)
    ensures Read(Reading(WAITCMD, 0, q), 1, SecondHalf()) == Done(q.(cmd := 2, len := 0), true)
  {
    HalvesAreALine();
    ReadTail(q, 1, 2, []);
    var tail := Dec(2) + "" + ".";
    ReadAppend(Reading(WAITCMD, 0, q), 1, tail, CRLF);
    hide Dec, Read, SecondHalf;
    ReadNewlines(q.(cmd := 2, len := 0), 1);
  }

  lemma SecondHalfTyped(s: Ctl)
    requires Sound(s) && s.parser == Parser(WAITCMD, 0, 1) && s.ch[1].state <= TRANSMIT && s.ch[1].packet.node == 0
    ensures var t := Run(s, Typed(SecondHalf(), POWERED));
            && |t.log.queued| == |s.log.queued| + 1 && s.log.queued <= t.log.queued
            && var e := t.log.queued[|s.log.queued|]; e.channel == 1 && e.packet.node == 0 && e.packet.cmd == 2
  {
    var q, es := s.ch[1].packet, Typed(SecondHalf(), POWERED);
    SecondHalfRead(q);
    TypingSpoilsNothing(s, 1, SecondHalf(), POWERED);
    TextOfTyped(SecondHalf(), POWERED);
    RunFollows(s, es, 1, Reading(WAITCMD, 0, q), |s.log.replies|, s.log.queued);
    hide Run, Read, SecondHalf, Typed, NeverSpoils, SerialText;
  }

  lemma FirstHalfQueuesNothing(s: Ctl)
    requires Wf(s) && s.parser.io == NEWLINE && s.ch[1].state <= EMPTY
    ensures Run(s, Typed(FirstHalf(), POWERED)).log.queued == s.log.queued
  {
    var p := s.ch[1].packet;
    HalvesAreALine();
    ReadHead(p, 1, 5);
    TextMirrors(s, 1, Idle(p), POWERED, s, FirstHalf());
    hide Run, Typed, Read, FirstHalf, SecondHalf, CommandLine, Dec;
  }

  lemma AcrossHasNoText()
    ensures NoText(AcrossBoundaries() + [Scheduler(WILLING)])
  {
    PulsesHaveNoText(2999);
    hide Pulses;
  }

  function SpoiltRun(): seq<Step>
  {
    Typed(FirstHalf(), POWERED) + (AcrossBoundaries() + [Scheduler(WILLING)]) + Typed(SecondHalf(), POWERED)
  }

  /** The round trip does fail where a broadcast fills the slot of a line that is being read:
      the line names node 5, the packet queued is for every node. */
  lemma LineIsSpoilt()
    ensures var s := Run(Boot(NO_LOG), ToBoundary());
            && At(s, 499, 0) && s.parser.io == NEWLINE && s.ch[1].state <= EMPTY
            && SerialText(SpoiltRun()) == Sent(CommandLine(1, 5, 2, []))
            && var t := Run(s, SpoiltRun());
               && |t.log.queued| == |s.log.queued| + 1 && s.log.queued <= t.log.queued
               && var e := t.log.queued[|s.log.queued|]; e.channel == 1 && e.packet.node == 0 && e.packet.cmd == 2
  {
    BoundaryNear();
    hide Run, Boot, Typed, FirstHalf, SecondHalf, AcrossBoundaries, ToBoundary, At;
    hide CommandLine, Sent, SerialText, NoText;
    var s := Run(Boot(NO_LOG), ToBoundary());
    var first, across, second := Typed(FirstHalf(), POWERED), AcrossBoundaries(), Typed(SecondHalf(), POWERED);
    var last := [Scheduler(WILLING)];
    AtIsWf(s, 499, 0);
    HalfReadOnward(s);
    FirstHalfQueuesNothing(s);
    RunAppend(s, first, across);
    RunAppend(s, first, across + last);
    RunAppend(s, first + (across + last), second);
    var u := Run(s, first + across);
    RunAppend(Run(s, first), across, last);
    RunOne(u, Scheduler(WILLING));
    BroadcastSpoils(u);
    AcrossHasNoText();
    WithoutText(Run(s, first), across + last);
    SecondHalfTyped(Next(u, Scheduler(WILLING)));
    TextOfTyped(FirstHalf(), POWERED);
    TextOfTyped(SecondHalf(), POWERED);
    TextOfTwo(first, across + last);
    TextOfTwo(first + (across + last), second);
    HalvesAreALine();
  }

  // A packet without priority

  // The line that sets channel 1 to an unknown configuration.
  function SilencingLine(): string { Sent(CommandLine(0, 1, 16, [1, 3])) }

  lemma SilencingExecuted(s: Ctl, p: Packet)
    requires BetweenLines(s) && Free(s.ch[0]) && Holds(s.ch[1], 40) && forall c :: 2 <= c < CHANNELS ==> Free(s.ch[c])
    requires p.len == 2 && p.node == 1 && p.cmd == CMD_SET_CHANNEL && p.data[0] == 1 && p.data[1] == 3
    ensures var t := Executed(s, 0, p, POWERED);
            && Calm(t) && SchedulerRuns(t) && !Wraps(t) && Holds(t.ch[1], 0)
            && forall c :: 0 <= c < CHANNELS && c != 1 ==> t.ch[c].state <= ADDING
  {
  }

  /** A packet without priority does occur: a command is queued on channel 1 and a
      SET_CHANNEL for it with an unknown configuration follows on channel 0. No check short
      of a time broadcast then sends it. */
  lemma ZeroPriorityIsReached(chip: Chip)
    ensures var es := Typed(ActivateLine(), POWERED) + Typed(RefillLine(1), POWERED) + Typed(SilencingLine(), POWERED);
            var s := Run(Boot(NO_LOG), es);
            && Calm(s) && Queued(s.ch[1]) && s.ch[1].priority == 0 && SchedulerRuns(s) && !Wraps(s)
            && Schedule(s, chip).ch == s.ch && Schedule(s, chip).log == s.log
  {
    HostActivates();
    hide Boot, Run, Typed, ActivateLine, RefillLine, SilencingLine, Activated;
    var a := Run(Boot(NO_LOG), Typed(ActivateLine(), POWERED));
    ActivatedFree(a);
    Refills(a, 1);
    var b := Run(a, Typed(RefillLine(1), POWERED));
    Silences(b);
    var es := Typed(ActivateLine(), POWERED) + Typed(RefillLine(1), POWERED);
    RunAppend(Boot(NO_LOG), Typed(ActivateLine(), POWERED), Typed(RefillLine(1), POWERED));
    RunAppend(Boot(NO_LOG), es, Typed(SilencingLine(), POWERED));
    hide Calm, Schedule, Wraps, SchedulerRuns;
    ZeroPriorityStarves(Run(b, Typed(SilencingLine(), POWERED)), 1, chip);
  }

  lemma Silences(s: Ctl)
    requires BetweenLines(s) && Free(s.ch[0]) && Holds(s.ch[1], 40) && forall c :: 2 <= c < CHANNELS ==> Free(s.ch[c])
    ensures var t := Run(s, Typed(SilencingLine(), POWERED));
            && Calm(t) && SchedulerRuns(t) && !Wraps(t) && Holds(t.ch[1], 0)
            && forall c :: 0 <= c < CHANNELS && c != 1 ==> t.ch[c].state <= ADDING
  {
    var data: seq<byte> := [1, 3];
    TypedCommand(s, 0, 1, 16, data, POWERED);
    CommandedIs(s.ch[0].packet, 1, 16, data);
    SilencingExecuted(s, Commanded(s.ch[0].packet, 1, 16, data));
    hide Run, Typed, Commanded, CommandLine, Executed, BetweenLines, Calm;
  }

  // A time packet gone stale

  // A time packet filled in at 59500 ticks, refused, and waiting.
  lemma RefusedAt(s: Ctl)
    requires At(s, 359500, 499) && s.parser.io == NEWLINE && forall c :: 0 <= c < CHANNELS ==> s.ch[c].state <= EMPTY
    requires s.ch[5].state == EMPTY
    ensures var t := Next(s, Scheduler(BUSY));
            && At(t, 359500, 0) && Holds(t.ch[5], 0xff) && MessageOf(t.ch[5].packet) == Message(0, CMD_SET_TIME, [5])
            && forall c :: 0 <= c < 5 ==> t.ch[c].state <= EMPTY
  {
    ClockShows(s.radio, 359500);
    assert !Clobbers(s, Scheduler(BUSY));
    RefusedBroadcast(s, BUSY);
    hide Calm, Stamped;
  }

  lemma GoesStale(s: Ctl)
    requires At(s, 360000, 0) && Holds(s.ch[5], 0xff) && MessageOf(s.ch[5].packet) == Message(0, CMD_SET_TIME, [5])
    requires forall c :: 0 <= c < 5 ==> s.ch[c].state <= EMPTY
    ensures var sent := Schedule(s, WILLING).log.sent;
            && |sent| == |s.log.sent| + 1
            && var e := sent[|s.log.sent|];
               && e.channel == 5 && e.packet.len <= MAX_PAYLOAD && MessageOf(e.packet) == Message(0, CMD_SET_TIME, [5])
               && e.packet == Stamped(e.packet, s.radio.ms)
  {
    ClockShows(s.radio, 360000);
    PickIsBest(s.ch, CHANNELS);
    assert Eligible(s.ch[5]);
    SentNow(s);
    SentWithStamp(s, WILLING, 5);
    hide Schedule, Calm, Stamped;
  }

  lemma SentNow(s: Ctl)
    requires Wf(s) && SchedulerRuns(s) && !Wraps(s) && Pick(s.ch, CHANNELS) == 5 && s.radio.powered
    ensures var sent := Schedule(s, WILLING).log.sent; |sent| == |s.log.sent| + 1 && sent[|s.log.sent|].channel == 5
  {
    hide Stamped, Pick;
  }

  // Up to the last tick before the last boundary of the ten minutes, then the boundary.
  function ToStale(): seq<Step>
  {
    Typed(ActivateLine(), POWERED) + Typed(TimeLine(5, 232, 107, 5), POWERED) + [Scheduler(WILLING), Interrupt] +
    [Scheduler(BUSY)] + Pulses(500)
  }

  lemma StaleReached()
    ensures var s := Run(Boot(NO_LOG), ToStale());
            && At(s, 360000, 0) && Holds(s.ch[5], 0xff) && MessageOf(s.ch[5].packet) == Message(0, CMD_SET_TIME, [5])
            && forall c :: 0 <= c < 5 ==> s.ch[c].state <= EMPTY
  {
    hide Run, Boot, Typed, ActivateLine, TimeLine, Activated, At, Pulses, Next, MessageOf;
    HostActivates();
    var es, fs := Typed(ActivateLine(), POWERED), Typed(TimeLine(5, 232, 107, 5), POWERED);
    var a := Run(Boot(NO_LOG), es);
    TimeIsSet(a, 5, 232, 107, 5);
    var b := Run(a, fs);
    AtIsWf(b, 359499, 0);
    QuietCheck(b, 359499, 0);
    var c := Next(b, Scheduler(WILLING));
    TickAt(c, 359499, 499);
    var d := Next(c, Interrupt);
    RefusedAt(d);
    var e := Next(d, Scheduler(BUSY));
    PulsesAt(e, 359500, 0, 500);
    StaleParts(Boot(NO_LOG), es, fs);
  }

  lemma StaleParts(s: Ctl, es: seq<Step>, fs: seq<Step>)
    requires Wf(s)
    ensures var d := Next(Next(Run(Run(s, es), fs), Scheduler(WILLING)), Interrupt);
            Run(s, es + fs + [Scheduler(WILLING), Interrupt] + [Scheduler(BUSY)] + Pulses(500))
            == Run(Next(d, Scheduler(BUSY)), Pulses(500))
  {
    hide *;
    RunAppend(s, es, fs);
    RunAppend(s, es + fs, [Scheduler(WILLING), Interrupt]);
    RunTwo(Run(Run(s, es), fs), Scheduler(WILLING), Interrupt);
    RunAppend(s, es + fs + [Scheduler(WILLING), Interrupt], [Scheduler(BUSY)]);
    RunOne(Run(s, es + fs + [Scheduler(WILLING), Interrupt]), Scheduler(BUSY));
    RunAppend(s, es + fs + [Scheduler(WILLING), Interrupt] + [Scheduler(BUSY)], Pulses(500));
  }

  /** A broadcast does go out stale: refused at the last boundary of the ten minutes and
      taken five seconds later, it sets every active client back by ten minutes. */
  lemma StaleTimeIsSent(client: Radio, slot: Packet)
    requires Tuned(client) && client.state >= ACTIVE
    ensures var s := Run(Boot(NO_LOG), ToStale());
            var sent := Schedule(s, WILLING).log.sent;
            && |sent| == |s.log.sent| + 1
            && var p := sent[|s.log.sent|].packet;
               && p.len <= MAX_PAYLOAD
               && DayTime(HandlePacket(client, slot, Frame(p))) + TEN_MINUTES == DayTime(s.radio)
  {
    StaleReached();
    hide Run, Boot, ToStale, Schedule, HandlePacket, Frame, Stamped, MessageOf;
    var s := Run(Boot(NO_LOG), ToStale());
    GoesStale(s);
    ClientTakesTime(client, slot, Schedule(s, WILLING).log.sent[|s.log.sent|].packet, s.radio.ms, 5);
    hide Calm;
    ClockShows(s.radio, 360000);
  }
}
