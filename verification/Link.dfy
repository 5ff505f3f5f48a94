// The daemon and the controller together: what READY means for the board.

module Link {
  import opened Bytes
  import opened Text
  import opened Packets
  import opened Radios
  import opened Devices
  import opened Controllers
  import opened Printer
  import opened Script
  import opened Station
  import opened Status
  import Exclusivity
  import Answers
  import TimerQueue
  import Supervisor

  // What the messages need of the outside world: power and battery, time of day, date.
  datatype Env = Env(world: World, seconds: nat, micros: nat, days: nat)

  // The inbox holds the lines on their way to the daemon, as it will understand them.
  datatype Pair = Pair(d: Supervisor.State, s: Ctl, inbox: seq<Meaning>)

  datatype Happening =
    | Own(step: Step)           // a step of the controller that is no serial input
    | Timeout(env: Env)         // a timer of the daemon expires
    | Reads(env: Env)           // the daemon reads the next line
    | Loses                     // the next line is lost

  // Printed lines

  function ReplyLine(a: Answer): string
  {
    if a.code == 0 then "<+" else "<-" + Dec(a.code) + "/" + Dec(a.state)
  }

  lemma ReplyMeans(a: Answer)
    ensures ParseLine(ReplyLine(a)) == if a.code == 0 then Good else Bad(a.code)
  {
    if a.code != 0 {
      var code := Dec(a.code);
      var rest := code + ['/'] + Dec(a.state);
      assert ReplyLine(a)[1..][1..] == rest && ReplyLine(a)[1..][0] == '-';
      DecHasNo(a.code, '/');
      FindAt(code, '/', Dec(a.state));
      AtoiReadsDec(a.code);
      hide Dec, Find, Atoi, ParseFields, Fields;
      assert rest[..|code|] == code;
    }
  }

  /** What the host hears of a packet it has typed: success if and only if it now waits on
      its channel, or the board knew the command and had the power for it; else why not. */
  lemma OutcomeIsHeard(s: Ctl, c: char, w: World)
    requires Wf(s) && Exclusivity.Completed(s, c).Some?
    ensures var t := Next(s, Serial(c, w));
            var p := Exclusivity.Completed(s, c).value;
            && |t.log.replies| == |s.log.replies| + 1
            && var m := ParseLine(ReplyLine(t.log.replies[|s.log.replies|]));
               && (m.Good? <==> Answers.HeldOn(t.ch[s.parser.curr], p) ||
                                (Answers.OwnPacket(s, p) && Answers.Known(p.cmd) && !Answers.Powerless(s, p, w)))
               && (m == Bad(6) <==> !Answers.OwnPacket(s, p) && s.radio.state != ACTIVE)
               && (m == Bad(7) <==> Answers.OwnPacket(s, p) && Answers.Powerless(s, p, w))
               && (m == Bad(8) <==> Answers.OwnPacket(s, p) && !Answers.Known(p.cmd))
  {
    hide Next, Exclusivity.Completed, ParseLine, ReplyLine;
    Answers.ReplyTellsOutcome(s, c, w);
    ReplyMeans(Next(s, Serial(c, w)).log.replies[|s.log.replies|]);
  }

  function Understood(lines: seq<string>): (ms: seq<Meaning>)
    ensures |ms| == |lines|
  {
    seq(|lines|, i requires 0 <= i < |lines| => ParseLine(lines[i]))
  }

  function ReplyLines(replies: seq<Answer>): (lines: seq<string>)
    ensures |lines| == |replies|
  {
    seq(|replies|, i requires 0 <= i < |replies| => ReplyLine(replies[i]))
  }

  // What has been printed between two points of a run.
  function Printed(before: Log, after: Log): seq<string>
  {
    if |before.lines| <= |after.lines| && |before.replies| <= |after.replies| then
      after.lines[|before.lines|..] + ReplyLines(after.replies[|before.replies|..])
    else []
  }

  // The two status lines of a board that has just been reset, before its radio is set up.
  function Banner(battery: word): seq<string>
  {
    var r := Initial(Identity(0, 0, 0, 0)).(tens := 0);
    [StatusLine(r, 1, battery), StatusLine(r, 0, battery)]
  }

  // Messages

  function DateFields(days: nat): (data: seq<byte>) { [days / 0x100 % 0x100, days % 0x100] }

  function TimeBytes(env: Env): (data: seq<byte>)
    ensures |data| == 3
  {
    TimeFields(env.seconds, env.micros % 1000000)
  }

  predicate Proper(m: Supervisor.Msg)
  {
    && (m.SetChannel? ==>
          0 <= m.chan <= 3 && READ as int <= m.config <= EMPTY as int && (m.chan < 3 ==> m.config == EMPTY as int))
    && (m.AskStatus? ==> 0 <= m.stype < 2)
  }

  function MsgText(m: Supervisor.Msg, env: Env): string
    requires Proper(m)
  {
    match m
    case AskStatus(stype) => Sent(Letters(if stype == 0 then 'S' else 'T'))
    case LocalActivate => Sent(CommandLine(0, 0, 3, [0, 1, 0]))
    case SetTime => Sent(CommandLine(0, 1, 5, TimeBytes(env)))
    case SetDate => Sent(CommandLine(0, 1, 6, DateFields(env.days)))
    case SetChannel(chan, config) => Sent(CommandLine(0, 1, 16, [chan, config]))
    case ResetBoard => Sent(Letters('R'))
  }

  // The daemon has moved on to d; what it has sent meanwhile reaches the controller, whose
  // answer is on its way back.
  function Talk(l: Pair, d: Supervisor.State, env: Env): (r: Pair)
    requires Wf(l.s)
    ensures Wf(r.s)
  {
    if |d.sent| <= |l.d.sent| || !Proper(d.sent[|d.sent| - 1]) then l.(d := d)
    else
      var m := d.sent[|d.sent| - 1];
      var t := Run(l.s, Typed(MsgText(m, env), env.world));
      var lines := Printed(l.s.log, t.log) + if m.ResetBoard? then Banner(env.world.battery) else [];
      Pair(d, t, l.inbox + Understood(lines))
  }

  function Happens(l: Pair, e: Happening): (r: Pair)
    requires Wf(l.s)
    ensures Wf(r.s)
  {
    match e
    case Own(step) =>
      var t := Next(l.s, step);
      l.(s := t, inbox := l.inbox + Understood(Printed(l.s.log, t.log)))
    case Timeout(env) => Talk(l, Supervisor.Expiry(l.d), env)
    case Reads(env) =>
      if l.inbox == [] then l else Talk(l.(inbox := l.inbox[1..]), Supervisor.Take(l.d, l.inbox[0]), env)
    case Loses => if l.inbox == [] then l else l.(inbox := l.inbox[1..])
  }

  function Course(l: Pair, es: seq<Happening>): (r: Pair)
    requires Wf(l.s)
    ensures Wf(r.s)
    decreases |es|
  {
    if es == [] then l else Course(Happens(l, es[0]), es[1..])
  }

  // Serial input is what the daemon sends, and nothing is under way when the daemon acts:
  // an answer is lost or read before the next message, and before a timer expires.
  predicate Prompt(l: Pair, e: Happening)
  {
    match e
    case Own(step) => !step.Serial?
    case Timeout(_) => l.inbox == []
    case Reads(_) => |l.inbox| == 1
    case Loses => true
  }

  ghost predicate AlwaysPrompt(l: Pair, es: seq<Happening>)
    requires Wf(l.s)
    decreases |es|
  {
    es == [] || (Prompt(l, es[0]) && AlwaysPrompt(Happens(l, es[0]), es[1..]))
  }

  // The daemon is started on a controller in some state.
  function StartOn(s: Ctl): Pair { Pair(Supervisor.Start(), s, []) }

  // A controller that has node number 1 without being active, after a failed activation.
  predicate Misleading(r: Radio) { r.myNode == 1 && !Up(r) }

  // What the answers mean

  lemma RepliedMeans(s: Ctl, t: Ctl, code: byte)
    requires Replied(s, t, code)
    ensures Understood(Printed(s.log, t.log)) == [if code == 0 then Good else Bad(code)]
  {
    var a := t.log.replies[|s.log.replies|];
    ReplyMeans(a);
    assert t.log.replies[|s.log.replies|..] == [a];
    hide ParseLine, ReplyLine;
    assert Printed(s.log, t.log) == [ReplyLine(a)];
  }

  // A report on the station itself.
  predicate ReportsOn(m: Meaning, node: byte) { m.Report? && m.node == node }

  lemma StatusMeans(s: Ctl, stype: byte, battery: word)
    requires s.radio.myChannel == 0 && stype < 2
    ensures var ms := Understood(Printed(s.log, Print(s, StatusLine(s.radio, stype, battery)).log));
            |ms| == 1 && ReportsOn(ms[0], s.radio.myNode)
  {
    var line := StatusLine(s.radio, stype, battery);
    ReportMeans(s.radio, stype, battery);
    hide ParseLine, StatusLine;
    assert Printed(s.log, Print(s, line).log) == [line];
  }

  lemma ReportMeans(r: Radio, stype: byte, battery: word)
    requires r.myChannel == 0 && stype < 2
    ensures ReportsOn(ParseLine(StatusLine(r, stype, battery)), r.myNode)
  {
    ReportRoundTrip(r.myChannel, r.myNode, r.ms, STATUS_RESPONSE, [stype] + StatusBytes(r, stype, battery));
    hide ParseLine, ReportLine, DecList;
  }

  lemma ResetMeans(log: Log, battery: word)
    ensures var ms := Understood(Printed(log, log) + Banner(battery));
            |ms| == 2 && ReportsOn(ms[0], 0) && ReportsOn(ms[1], 0)
  {
    var r := Initial(Identity(0, 0, 0, 0)).(tens := 0);
    ReportMeans(r, 1, battery);
    ReportMeans(r, 0, battery);
    hide ParseLine, StatusLine;
    assert Printed(log, log) == [];
  }

  // The link's invariant

  // What holds of the board and of the answers under way when the supervisor is at a stage.
  ghost predicate Truthful(stage: int, s: Ctl, inbox: seq<Meaning>)
  {
    && StationOk(s)
    && (forall m :: m in inbox ==> Supervisor.Spoken(Supervisor.Hears(m)))
    && (stage <= Supervisor.DREQUEST ==>
          !Misleading(s.radio) && forall m :: m in inbox ==> m.Report? && (m.node == 1 ==> Up(s.radio)))
    && (stage == Supervisor.ACTIVATE ==> forall m :: m in inbox ==> !m.Report? && (m.Good? ==> Up(s.radio)))
    && (stage >= Supervisor.SET_TIME ==>
          && Up(s.radio)
          && (stage < Supervisor.READY ==> forall m :: m in inbox ==> !m.Report?)
          && Configured(stage, s)
          && (Supervisor.CH0 <= stage < Supervisor.CH3 && Good in inbox ==> Open(s.ch[stage - Supervisor.CH0])))
  }

  // The channels before the stage, of the three for sending, are open.
  ghost predicate Configured(stage: int, s: Ctl)
    requires Wf(s)
  {
    forall c :: 0 <= c < 3 && c < stage - Supervisor.CH0 ==> Open(s.ch[c])
  }

  // The request a stage makes, or the reset that leads to UNKNOWN.
  predicate Fits(stage: int, m: Supervisor.Msg)
  {
    && Proper(m)
    && match m
       case AskStatus(_) => stage in {Supervisor.SREQUEST, Supervisor.DREQUEST, Supervisor.READY}
       case LocalActivate => stage == Supervisor.ACTIVATE
       case SetTime => stage == Supervisor.SET_TIME
       case SetDate => stage == Supervisor.SET_DATE
       case SetChannel(chan, _) => stage == Supervisor.CH0 + chan
       case ResetBoard => stage == Supervisor.UNKNOWN
  }

  // What a message requires of the board for its stage.
  ghost predicate Timely(stage: int, s: Ctl, m: Supervisor.Msg)
  {
    && StationOk(s) && Fits(stage, m)
    && (stage <= Supervisor.DREQUEST && !m.ResetBoard? ==> !Misleading(s.radio))
    && (stage >= Supervisor.SET_TIME ==> Up(s.radio) && Configured(stage, s))
  }

  // The controller after a message, and the answers.
  function Exchanged(s: Ctl, m: Supervisor.Msg, env: Env): (r: (Ctl, seq<Meaning>))
    requires Wf(s) && Proper(m)
    ensures Wf(r.0)
  {
    var t := Run(s, Typed(MsgText(m, env), env.world));
    (t, Understood(Printed(s.log, t.log) + if m.ResetBoard? then Banner(env.world.battery) else []))
  }

  lemma HeardStatus(s: Ctl, m: Supervisor.Msg, env: Env)
    requires StationOk(s) && Proper(m) && m.AskStatus?
    ensures var (t, ms) := Exchanged(s, m, env);
            t == Print(s, StatusLine(s.radio, m.stype, env.world.battery)) && ms == Understood(Printed(s.log, t.log))
  {
    hide Run, Typed, StatusLine, Understood, Printed, StationOk;
    StatusTyped(s, m.stype, env.world);
    var t := Exchanged(s, m, env).0;
    assert Printed(s.log, t.log) + [] == Printed(s.log, t.log);
  }

  lemma StatusHeard(s: Ctl, stage: int, m: Supervisor.Msg, env: Env)
    requires Timely(stage, s, m) && m.AskStatus?
    ensures var (t, ms) := Exchanged(s, m, env); Truthful(stage, t, ms)
  {
    hide Exchanged, Run, Typed, StatusLine, Understood, Printed;
    HeardStatus(s, m, env);
    StatusMeans(s, m.stype, env.world.battery);
  }

  lemma HeardReset(s: Ctl, env: Env)
    requires StationOk(s)
    ensures var (t, ms) := Exchanged(s, Supervisor.ResetBoard, env);
            t == Boot(s.log) && ms == Understood(Printed(s.log, t.log) + Banner(env.world.battery))
  {
    hide Run, Typed, Banner, Boot, StationOk, Understood, Printed;
    ResetTyped(s, env.world);
  }

  lemma ResetHeard(s: Ctl, env: Env)
    requires StationOk(s)
    ensures var (t, ms) := Exchanged(s, Supervisor.ResetBoard, env); Truthful(Supervisor.UNKNOWN, t, ms)
  {
    hide Exchanged, Banner, Boot, StationOk, Understood, Printed;
    HeardReset(s, env);
    BootKeepsLog(s.log);
    ResetMeans(s.log, env.world.battery);
    BootIsOk(s.log);
  }

  lemma BootKeepsLog(log: Log)
    ensures Boot(log).log == log
  {
  }

  lemma ActivationHeard(s: Ctl, env: Env)
    requires StationOk(s)
    ensures var (t, ms) := Exchanged(s, Supervisor.LocalActivate, env); Truthful(Supervisor.ACTIVATE, t, ms)
  {
    hide Run, Typed, CommandLine, Understood, Printed, Banner;
    var t := Exchanged(s, Supervisor.LocalActivate, env).0;
    ActivationTyped(s, env.world);
    var code := t.log.replies[|s.log.replies|].code;
    RepliedMeans(s, t, code);
    assert Printed(s.log, t.log) + [] == Printed(s.log, t.log);
  }

  lemma SettingHeard(s: Ctl, stage: int, m: Supervisor.Msg, cmd: byte, data: seq<byte>, env: Env)
    requires Timely(stage, s, m) && (m.SetTime? || m.SetDate? || m.SetChannel?) && Setting(cmd, data)
    requires MsgText(m, env) == Sent(CommandLine(0, 1, cmd, data))
    requires m.SetChannel? <==> cmd == CMD_SET_CHANNEL
    requires m.SetChannel? ==> m.chan == data[0] as int && m.config == data[1] as int
    ensures var (t, ms) := Exchanged(s, m, env); Truthful(stage, t, ms)
  {
    var t := Exchanged(s, m, env).0;
    hide MsgText;
    SettingTyped(s, cmd, data, env.world);
    var code := if s.ch[0].state > EMPTY then ERR_BUSY else 0;
    RepliedMeans(s, t, code);
    hide Run, Typed, StationOk, CommandLine;
    assert Printed(s.log, t.log) + [] == Printed(s.log, t.log);
  }

  lemma MessageHeard(s: Ctl, stage: int, m: Supervisor.Msg, env: Env)
    requires Timely(stage, s, m)
    ensures var (t, ms) := Exchanged(s, m, env); Truthful(stage, t, ms)
  {
    hide Exchanged, Truthful, CommandLine, TimeBytes, DateFields;
    match m {
      case AskStatus(_) => StatusHeard(s, stage, m, env);
      case LocalActivate => ActivationHeard(s, env);
      case SetTime => SettingHeard(s, stage, m, CMD_SET_TIME, TimeBytes(env), env);
      case SetDate => DateLength(env.days); SettingHeard(s, stage, m, CMD_SET_DATE, DateFields(env.days), env);
      case SetChannel(chan, config) => SettingHeard(s, stage, m, CMD_SET_CHANNEL, [chan, config], env);
      case ResetBoard => ResetHeard(s, env);
    }
  }

  lemma DateLength(days: nat)
    ensures |DateFields(days)| == 2
  {
  }

  ghost predicate LinkOk(l: Pair)
  {
    Supervisor.Ok(l.d) && Truthful(l.d.sup.stage, l.s, l.inbox)
  }

  lemma StartIsOk(s: Ctl)
    requires StationOk(s) && !Misleading(s.radio)
    ensures LinkOk(StartOn(s))
  {
    Supervisor.StartIsOk();
    StartStage();
    hide Supervisor.Ok, Supervisor.Start, StationOk;
  }

  lemma StartStage()
    ensures var d := Supervisor.Start(); d.sup == Supervisor.Sup(Supervisor.UNKNOWN, 0, 0, 0, 0, 0) && d.sent == []
  {
  }

  // Every call outside READY sends the request of the stage it leads to, or a reset.
  lemma CallMessage(c: Supervisor.Sup)
    requires Supervisor.UNKNOWN <= c.stage < Supervisor.READY && c.stage != Supervisor.SEND_RESET && 0 <= c.retries
    ensures var o := Supervisor.Call(c);
            Fits(o.sup.stage, o.msg) && o.sup.retries <= if Supervisor.Satisfied(c) then 1 else c.retries + 1
  {
  }

  lemma StepMessage(d: Supervisor.State, e: Supervisor.Event)
    requires Supervisor.Ok(d) && Supervisor.Spoken(e) && Supervisor.Calls(e) && d.sup.stage < Supervisor.READY
    ensures var r := Supervisor.Step(d, e);
            && |r.sent| == |d.sent| + 1 && Fits(r.sup.stage, r.sent[|d.sent|])
            && r.sup.retries <= if Supervisor.Answers(d.sup.stage, e) then 1 else d.sup.retries + 1
  {
    hide TimerQueue.Insert, TimerQueue.Remove, Supervisor.Call, Fits;
    var c := match e
      case Expires => d.sup
      case Hears(Good) => d.sup.(failure := 0, credits := d.sup.credits + 1)
      case Hears(Bad(code)) => d.sup.(failure := code)
      case Hears(Report(_, node, _, _)) =>
        d.sup.(failure := 0, responses := d.sup.responses + 1, node := node, credits := d.sup.credits + 1)
      case _ => d.sup;
    CallMessage(c);
  }

  // A line may be under way; nothing else is when the daemon acts.
  lemma Acts(l: Pair, e: Supervisor.Event)
    requires LinkOk(l) && Supervisor.Spoken(e) && Supervisor.Calls(e) && l.d.sup.stage < Supervisor.READY
    requires e.Hears? ==> e.msg in l.inbox
    ensures var r := Supervisor.Step(l.d, e);
            |r.sent| == |l.d.sent| + 1 && Timely(r.sup.stage, l.s, r.sent[|l.d.sent|])
  {
    Supervisor.OneMessageOneStage(l.d, e);
    StepMessage(l.d, e);
    hide Supervisor.Step, Supervisor.Ok, StationOk, Open;
  }

  lemma TalkKeepsOk(l: Pair, d: Supervisor.State, env: Env)
    requires StationOk(l.s) && l.inbox == [] && Supervisor.Ok(d)
    requires |d.sent| == |l.d.sent| + 1 && Timely(d.sup.stage, l.s, d.sent[|l.d.sent|])
    ensures LinkOk(Talk(l, d, env))
  {
    hide Run, Typed, MsgText, Understood, Printed, Truthful, Supervisor.Ok, Banner, Configured, Open;
    var m := d.sent[|l.d.sent|];
    MessageHeard(l.s, d.sup.stage, m, env);
    var ms := Exchanged(l.s, m, env).1;
    assert [] + ms == ms;
  }

  lemma EventKeepsOk(l: Pair, e: Supervisor.Event, env: Env)
    requires LinkOk(l) && Supervisor.Spoken(e) && (if e.Hears? then l.inbox == [e.msg] else l.inbox == [])
    ensures LinkOk(Talk(l.(inbox := []), Supervisor.Step(l.d, e), env))
  {
    var r := Supervisor.Step(l.d, e);
    Supervisor.StepKeepsOk(l.d, e);
    hide Exchanged, Supervisor.Step, Supervisor.Ok, StationOk, Configured;
    if l.d.sup.stage == Supervisor.READY {
      Supervisor.ReadyStep(l.d, e);
      if r.sent == l.d.sent {
        hide Run, Typed, MsgText;
      } else {
        TalkKeepsOk(l.(inbox := []), r, env);
      }
    } else if Supervisor.Calls(e) {
      Acts(l, e);
      TalkKeepsOk(l.(inbox := []), r, env);
    } else {
      Supervisor.OneMessageOneStage(l.d, e);
    }
  }

  lemma OwnKeepsOk(l: Pair, step: Step)
    requires LinkOk(l) && !step.Serial?
    ensures LinkOk(Happens(l, Own(step)))
  {
    OwnStep(l.s, step);
    var t := Next(l.s, step);
    hide Next, Supervisor.Ok, Open, ParseLine;
    assert Printed(l.s.log, t.log) == [];
    assert l.inbox + [] == l.inbox;
  }

  /** Whatever happens, as long as no answer is late, the invariant is kept. */
  lemma HappensKeepsOk(l: Pair, e: Happening)
    requires LinkOk(l) && Prompt(l, e)
    ensures LinkOk(Happens(l, e))
  {
    match e {
      case Own(step) => OwnKeepsOk(l, step);
      case Timeout(env) =>
        EventKeepsOk(l, Supervisor.Expires, env);
        hide Talk, LinkOk;
        assert l.(inbox := []) == l;
      case Reads(env) =>
        var m := l.inbox[0];
        assert l.inbox == [m] && m in l.inbox && l.inbox[1..] == [];
        EventKeepsOk(l, Supervisor.Hears(m), env);
        hide Talk, Supervisor.Take;
      case Loses =>
        hide Supervisor.Ok, StationOk, Open;
        assert forall m :: m in Happens(l, e).inbox ==> m in l.inbox;
    }
  }

  lemma {:induction false} CourseKeepsOk(l: Pair, es: seq<Happening>)
    requires LinkOk(l) && AlwaysPrompt(l, es)
    ensures LinkOk(Course(l, es))
    decreases |es|
  {
    hide LinkOk, Happens, Prompt, Wf;
    LinkIsWf(l);
    if es != [] {
      HappensKeepsOk(l, es[0]);
      CourseKeepsOk(Happens(l, es[0]), es[1..]);
    }
  }

  lemma LinkIsWf(l: Pair)
    requires LinkOk(l)
    ensures Wf(l.s)
  {
  }

  ghost predicate TrueIfReady(l: Pair)
  {
    l.d.sup.stage == Supervisor.READY ==>
      Up(l.s.radio) && |l.s.ch| == CHANNELS && forall c :: 0 <= c < 3 ==> Open(l.s.ch[c])
  }

  /** READY is true of the board: in every run of the daemon with a controller that is not
      misleading at the start, with any failures to power up, any lines lost on the way
      back and any steps of the controller in between, but no answer late, a READY daemon
      has an active controller at node 1 with channels 0 to 2 open for sending. */
  lemma ReadyMeansUp(s: Ctl, es: seq<Happening>)
    requires StationOk(s) && !Misleading(s.radio) && AlwaysPrompt(StartOn(s), es)
    ensures TrueIfReady(Course(StartOn(s), es))
  {
    StartIsOk(s);
    CourseKeepsOk(StartOn(s), es);
    hide Course, StartOn, AlwaysPrompt, Supervisor.Ok, Open;
  }

  /** In particular when both are switched on together. */
  lemma ReadyMeansUpFromPowerOn(es: seq<Happening>)
    requires AlwaysPrompt(StartOn(Boot(NO_LOG)), es)
    ensures TrueIfReady(Course(StartOn(Boot(NO_LOG)), es))
  {
    BootIsOk(NO_LOG);
    hide Boot, StationOk, Course, StartOn, AlwaysPrompt;
    ReadyMeansUp(Boot(NO_LOG), es);
  }

  // What the settings leave on the board

  lemma CommandLeaves(s: Ctl, node: byte, cmd: byte, data: seq<byte>, w: World) returns (p: Packet)
    requires StationOk(s) && s.ch[0].state <= EMPTY && |data| <= MAX_PAYLOAD
    ensures p.node == node && p.cmd == cmd && p.len == |data| && forall i :: 0 <= i < |data| ==> p.data[i] == data[i]
    ensures Answers.Obeyed(s, p, w, Run(s, Typed(Sent(CommandLine(0, node, cmd, data)), w)).radio)
  {
    hide Run, Typed, CommandLine, Enqueue, Answers.Obeyed;
    p := CommandTyped(s, node, cmd, data, w);
    var u := Loaded(s, 0, p, WAITDATA, 0);
    Answers.EnqueueObeys(u, 0, w);
    Answers.SameObedience(u, s, p, w, Enqueue(u, 0, w).radio);
  }

  /** The settings of a stage, if they are not refused for a busy channel 0: the board's
      clock is the host's time of day, and the date of an active board the host's date. */
  lemma TimeIsLeft(s: Ctl, env: Env)
    requires StationOk(s) && s.radio.myNode == 1 && s.ch[0].state <= EMPTY
    ensures var r := Exchanged(s, Supervisor.SetTime, env).0.radio;
            r.tens as nat * TEN_MINUTES + r.ms == WallClock(env.seconds, env.micros % 1000000) && r.ms < TEN_MINUTES
  {
    hide Run, Typed, CommandLine, StationOk, WallClock, Understood;
    var f := TimeFields(env.seconds, env.micros % 1000000);
    var p := CommandLeaves(s, 1, CMD_SET_TIME, TimeBytes(env), env.world);
    assert p.data[0] == f[0] && p.data[1] == f[1] && p.data[2] == f[2];
    hide TimeFields;
  }

  lemma DateIsLeft(s: Ctl, env: Env)
    requires StationOk(s) && Up(s.radio) && s.ch[0].state <= EMPTY
    ensures Exchanged(s, Supervisor.SetDate, env).0.radio.date == env.days % 0x1_0000
  {
    hide Run, Typed, CommandLine, StationOk, Understood;
    var f := DateFields(env.days);
    var p := CommandLeaves(s, 1, CMD_SET_DATE, f, env.world);
    assert p.data[0] == f[0] && p.data[1] == f[1];
  }

  // When READY misleads

  const DEAD := Env(World(false, 0), 0, 0, 0)     // the radio does not power up

  // The board has a node number but is not active, and all answers under way are good.
  ghost predicate Misled(l: Pair, stage: int)
  {
    && Supervisor.Ok(l.d) && l.d.sup.stage == stage && l.d.sup.retries <= 3
    && StationOk(l.s) && Misleading(l.s.radio) && l.s.ch[0].state <= EMPTY
    && l.inbox != [] && forall m :: m in l.inbox ==> m.Good?
  }

  // The stage after a call that is no reset.
  function StageAfter(stage: int, e: Supervisor.Event): int
  {
    if stage == Supervisor.UNKNOWN then Supervisor.SREQUEST
    else if Supervisor.Answers(stage, e) then Supervisor.NextStage(stage, e)
    else stage
  }

  // What the daemon says when it reads a line, or when its timer expires.
  lemma Speaks(l: Pair, h: Happening, e: Supervisor.Event, env: Env) returns (m: Supervisor.Msg)
    requires Supervisor.Ok(l.d) && l.d.sup.stage < Supervisor.READY && l.d.sup.retries <= 10 && StationOk(l.s)
    requires if h.Reads? then h.env == env && l.inbox != [] && e == Supervisor.Hears(l.inbox[0])
             else h == Timeout(env) && e == Supervisor.Expires
    requires Supervisor.Spoken(e) && Supervisor.Calls(e)
    ensures var stage := StageAfter(l.d.sup.stage, e);
            var r := Happens(l, h);
            && Supervisor.Ok(r.d) && r.d.sup.stage == stage && Fits(stage, m)
            && r.d.sup.retries <= (if Supervisor.Answers(l.d.sup.stage, e) then 1 else l.d.sup.retries + 1)
            && var (t, ms) := Exchanged(l.s, m, env);
               r.s == t && r.inbox == (if h.Reads? then l.inbox[1..] else l.inbox) + ms
  {
    var d := Supervisor.Step(l.d, e);
    Supervisor.OneMessageOneStage(l.d, e);
    Supervisor.StepKeepsOk(l.d, e);
    StepMessage(l.d, e);
    m := d.sent[|l.d.sent|];
    hide Run, Typed, MsgText, Understood, Printed, StationOk, Supervisor.Ok, Banner, Supervisor.Take, Supervisor.Expiry;
    assert h.Reads? ==> d == Supervisor.Take(l.d, l.inbox[0]);
    assert h.Timeout? ==> d == Supervisor.Expiry(l.d);
  }

  // On such a board every setting is answered with success.
  lemma SettingMisleads(s: Ctl, m: Supervisor.Msg, env: Env)
    requires StationOk(s) && Misleading(s.radio) && s.ch[0].state <= EMPTY && Proper(m)
    requires m.SetTime? || m.SetDate? || m.SetChannel?
    ensures var (t, ms) := Exchanged(s, m, env);
            StationOk(t) && Misleading(t.radio) && t.ch[0].state <= EMPTY && ms == [Good]
  {
    var t := Exchanged(s, m, env).0;
    DateLength(env.days);
    var cmd: byte := if m.SetTime? then CMD_SET_TIME else if m.SetDate? then CMD_SET_DATE else CMD_SET_CHANNEL;
    var data: seq<byte> :=
      if m.SetTime? then TimeBytes(env) else if m.SetDate? then DateFields(env.days) else [m.chan, m.config];
    hide TimeBytes, DateFields, CommandLine, Run, Typed, StationOk;
    SettingTyped(s, cmd, data, env.world);
    RepliedMeans(s, t, 0);
    assert Printed(s.log, t.log) + [] == Printed(s.log, t.log);
  }

  lemma MisledReads(l: Pair, stage: int)
    requires Misled(l, stage) && Supervisor.SET_TIME <= stage < Supervisor.CH3
    ensures var r := Happens(l, Reads(DEAD));
            Misled(r, stage + 1) && r.inbox == l.inbox[1..] + [Good]
  {
    assert l.inbox[0] in l.inbox;
    var m := Speaks(l, Reads(DEAD), Supervisor.Hears(l.inbox[0]), DEAD);
    hide Exchanged, Happens, StationOk, Supervisor.Ok;
    SettingMisleads(l.s, m, DEAD);
  }

  lemma MisledIsReady(l: Pair)
    requires Misled(l, Supervisor.CH3)
    ensures var r := Happens(l, Reads(DEAD));
            r.d.sup.stage == Supervisor.READY && Misleading(r.s.radio)
  {
    assert l.inbox[0] in l.inbox;
    var m := Speaks(l, Reads(DEAD), Supervisor.Hears(l.inbox[0]), DEAD);
    hide Exchanged, Happens, StationOk, Supervisor.Ok;
    HeardStatus(l.s, m, DEAD);
  }

  function Reading(n: nat): seq<Happening> { if n == 0 then [] else [Reads(DEAD)] + Reading(n - 1) }

  /** From there the daemon becomes READY by reading good answers. */
  lemma {:induction false} MisledGoesOn(l: Pair, stage: int)
    requires Misled(l, stage) && Supervisor.SET_TIME <= stage <= Supervisor.CH3
    ensures var es := Reading(Supervisor.READY - stage);
            && (|l.inbox| == 1 ==> AlwaysPrompt(l, es))
            && var r := Course(l, es); r.d.sup.stage == Supervisor.READY && Misleading(r.s.radio)
    decreases Supervisor.READY - stage
  {
    var n := Supervisor.READY - stage;
    assert Reading(n)[0] == Reads(DEAD) && Reading(n)[1..] == Reading(n - 1);
    hide Happens, Misled, Wf, Misleading;
    MisledIsWf(l, stage);
    var r := Happens(l, Reads(DEAD));
    if stage < Supervisor.CH3 {
      MisledReads(l, stage);
      MisledGoesOn(r, stage + 1);
    } else {
      MisledIsReady(l);
      assert Reading(0) == [];
    }
  }

  lemma MisledIsWf(l: Pair, stage: int)
    requires Misled(l, stage)
    ensures Wf(l.s)
  {
  }

  // The daemon asks for the board's status and hears of node 1, or not.
  ghost predicate AsksStatus(l: Pair, stage: int, s: Ctl, inbox: nat, tries: int)
  {
    && Supervisor.Ok(l.d) && l.d.sup.stage == stage && l.d.sup.retries <= tries
    && StationOk(l.s) && l.s.ch == s.ch && l.s.radio == s.radio
    && |l.inbox| == inbox && forall m :: m in l.inbox ==> ReportsOn(m, s.radio.myNode)
  }

  lemma StartAsks(s: Ctl)
    requires StationOk(s)
    ensures AsksStatus(StartOn(s), Supervisor.UNKNOWN, s, 0, 0)
  {
    Supervisor.StartIsOk();
    StartStage();
    hide Supervisor.Ok, Supervisor.Start, StationOk;
  }

  lemma AskingTimesOut(l: Pair, stage: int, s: Ctl, n: nat, tries: int)
    requires AsksStatus(l, stage, s, n, tries) && tries <= 10 && stage <= Supervisor.SREQUEST
    ensures AsksStatus(Happens(l, Timeout(DEAD)), Supervisor.SREQUEST, s, n + 1, tries + 1)
  {
    hide Exchanged, Happens, Supervisor.Ok, StatusLine, Understood, Printed;
    var m := Speaks(l, Timeout(DEAD), Supervisor.Expires, DEAD);
    HeardStatus(l.s, m, DEAD);
    StatusMeans(l.s, m.stype, DEAD.world.battery);
  }

  lemma AskingReads(l: Pair, s: Ctl, n: nat, tries: int)
    requires AsksStatus(l, Supervisor.SREQUEST, s, n, tries) && tries <= 10 && n > 0
    ensures AsksStatus(Happens(l, Reads(DEAD)), Supervisor.DREQUEST, s, n, 1)
  {
    hide Exchanged, Happens, Supervisor.Ok, StatusLine, Understood, Printed;
    assert l.inbox[0] in l.inbox;
    var m := Speaks(l, Reads(DEAD), Supervisor.Hears(l.inbox[0]), DEAD);
    HeardStatus(l.s, m, DEAD);
    StatusMeans(l.s, m.stype, DEAD.world.battery);
  }

  // A board that reports node 1 is not activated.
  lemma SkipsActivation(l: Pair, s: Ctl)
    requires AsksStatus(l, Supervisor.DREQUEST, s, 1, 1) && Misleading(s.radio) && s.ch[0].state <= EMPTY
    ensures var r := Happens(l, Reads(DEAD));
            Misled(r, Supervisor.SET_TIME) && |r.inbox| == 1
  {
    assert l.inbox[0] in l.inbox && l.inbox[1..] == [];
    var m := Speaks(l, Reads(DEAD), Supervisor.Hears(l.inbox[0]), DEAD);
    hide Exchanged, Happens, Supervisor.Ok;
    SettingMisleads(l.s, m, DEAD);
  }

  /** READY does mislead if the daemon starts on a board whose activation has failed: it
      reports node 1, so that it is never activated, and answers every setting with
      success. */
  lemma MisleadingStart(s: Ctl)
    requires StationOk(s) && Misleading(s.radio) && s.ch[0].state <= EMPTY
    ensures var es := [Timeout(DEAD), Reads(DEAD), Reads(DEAD)] + Reading(6);
            && AlwaysPrompt(StartOn(s), es)
            && var l := Course(StartOn(s), es); l.d.sup.stage == Supervisor.READY && Misleading(l.s.radio)
  {
    var l0 := StartOn(s);
    StartAsks(s);
    AskingTimesOut(l0, Supervisor.UNKNOWN, s, 0, 0);
    var l1 := Happens(l0, Timeout(DEAD));
    AskingReads(l1, s, 1, 1);
    var l2 := Happens(l1, Reads(DEAD));
    SkipsActivation(l2, s);
    AskingInbox(l1, Supervisor.SREQUEST, s, 1, 1);
    AskingInbox(l2, Supervisor.DREQUEST, s, 1, 1);
    MisledGoesOn(Happens(l2, Reads(DEAD)), Supervisor.SET_TIME);
    hide Happens, StartOn, AsksStatus, Misled, Misleading, StationOk, Reading, Wf;
    FirstThree(l0, Timeout(DEAD), Reads(DEAD), Reads(DEAD), Reading(6));
  }

  lemma AskingInbox(l: Pair, stage: int, s: Ctl, n: nat, tries: int)
    requires AsksStatus(l, stage, s, n, tries)
    ensures |l.inbox| == n && Wf(l.s)
  {
  }

  lemma FirstThree(l: Pair, a: Happening, b: Happening, c: Happening, es: seq<Happening>)
    requires Wf(l.s)
    ensures var l1 := Happens(l, a);
            var l2 := Happens(l1, b);
            var l3 := Happens(l2, c);
            && Course(l, [a, b, c] + es) == Course(l3, es)
            && (AlwaysPrompt(l, [a, b, c] + es) <==>
                  Prompt(l, a) && Prompt(l1, b) && Prompt(l2, c) && AlwaysPrompt(l3, es))
  {
    hide *;
    var l1 := Happens(l, a);
    var l2 := Happens(l1, b);
    First(l, a, [b, c] + es);
    First(l1, b, [c] + es);
    First(l2, c, es);
    assert [a] + ([b, c] + es) == [a, b, c] + es && [b] + ([c] + es) == [b, c] + es;
  }

  lemma First(l: Pair, a: Happening, es: seq<Happening>)
    requires Wf(l.s)
    ensures Course(l, [a] + es) == Course(Happens(l, a), es)
    ensures AlwaysPrompt(l, [a] + es) <==> Prompt(l, a) && AlwaysPrompt(Happens(l, a), es)
  {
    hide Happens, Wf, Prompt;
    assert ([a] + es)[0] == a && ([a] + es)[1..] == es;
  }

  /** Starting on a board whose channel 0 is free, promptness is enough exactly when that
      board does not have node 1 without being active. */
  lemma ReadyIsTrueExactly(s: Ctl)
    requires StationOk(s) && s.ch[0].state <= EMPTY
    ensures !Misleading(s.radio) <==>
              forall es :: AlwaysPrompt(StartOn(s), es) ==> TrueIfReady(Course(StartOn(s), es))
  {
    hide Course, AlwaysPrompt, StationOk, StartOn, Open;
    StartIsWf(s);
    if Misleading(s.radio) {
      MisleadingStart(s);
      var es := [Timeout(DEAD), Reads(DEAD), Reads(DEAD)] + Reading(6);
      assert AlwaysPrompt(StartOn(s), es) && !TrueIfReady(Course(StartOn(s), es));
    } else {
      forall es | AlwaysPrompt(StartOn(s), es) ensures TrueIfReady(Course(StartOn(s), es)) {
        ReadyMeansUp(s, es);
      }
    }
  }

  lemma StartIsWf(s: Ctl)
    requires StationOk(s)
    ensures Wf(s) && StartOn(s).s == s
  {
  }

  // Late answers

  // The activation has failed; a status report that came late is read before the refusal.
  ghost predicate Belated(l: Pair, stage: int)
  {
    && Supervisor.Ok(l.d) && l.d.sup.stage == stage && l.d.sup.retries <= 1
    && StationOk(l.s) && Misleading(l.s.radio) && l.s.ch[0].state <= EMPTY
    && |l.inbox| == 2
    && if stage == Supervisor.ACTIVATE then l.inbox[0].Report? && l.inbox[1] == Bad(ERR_POWER as int)
       else l.inbox[0] == Bad(ERR_POWER as int) && l.inbox[1] == Good
  }

  lemma ActivationFails(l: Pair, s: Ctl)
    requires AsksStatus(l, Supervisor.DREQUEST, s, 2, 1) && s.ch[0].state <= EMPTY
    requires s.radio.myNode == 0 && !s.radio.powered
    ensures Belated(Happens(l, Reads(DEAD)), Supervisor.ACTIVATE)
  {
    hide Happens, Supervisor.Ok, Run, Typed, CommandLine;
    assert l.inbox[0] in l.inbox && l.inbox[1] in l.inbox;
    var m := Speaks(l, Reads(DEAD), Supervisor.Hears(l.inbox[0]), DEAD);
    ActivationTyped(l.s, DEAD.world);
    var t := Exchanged(l.s, m, DEAD).0;
    RepliedMeans(l.s, t, ERR_POWER);
    hide Understood;
    assert Printed(l.s.log, t.log) + [] == Printed(l.s.log, t.log);
  }

  lemma LateReportCounts(l: Pair)
    requires Belated(l, Supervisor.ACTIVATE)
    ensures Belated(Happens(l, Reads(DEAD)), Supervisor.SET_TIME)
  {
    var m := Speaks(l, Reads(DEAD), Supervisor.Hears(l.inbox[0]), DEAD);
    hide Exchanged, Happens, Supervisor.Ok, StationOk;
    SettingMisleads(l.s, m, DEAD);
  }

  lemma LateRefusalIsRetried(l: Pair)
    requires Belated(l, Supervisor.SET_TIME)
    ensures Misled(Happens(l, Reads(DEAD)), Supervisor.SET_TIME)
  {
    hide Exchanged, Happens, Supervisor.Ok, StationOk, Run;
    StartIsWf(l.s);
    var m := Speaks(l, Reads(DEAD), Supervisor.Hears(l.inbox[0]), DEAD);
    SettingMisleads(l.s, m, DEAD);
    var r := Happens(l, Reads(DEAD));
    assert l.inbox[1..] == [Good];
    assert r.inbox == [Good, Good];
  }

  // Two timeouts before the first answer is read; then it is answers only.
  function LateRun(): seq<Happening>
  {
    [Timeout(DEAD), Timeout(DEAD), Reads(DEAD)] + ([Reads(DEAD), Reads(DEAD), Reads(DEAD)] + Reading(6))
  }

  /** Nor may answers come late: with one status request repeated before its answer is read,
      every answer counts for the next request, and a daemon switched on together with a
      controller that never powers up becomes READY. */
  lemma LateAnswersMislead()
    ensures var l := Course(StartOn(Boot(NO_LOG)), LateRun());
            l.d.sup.stage == Supervisor.READY && Misleading(l.s.radio)
  {
    var s := Boot(NO_LOG);
    BootIsOk(NO_LOG);
    BootIsBare();
    hide Boot, Happens, StartOn, AsksStatus, Misled, Belated, Misleading, StationOk, Reading, Wf;
    var l0 := StartOn(s);
    StartAsks(s);
    AskingInbox(l0, Supervisor.UNKNOWN, s, 0, 0);
    AskingTimesOut(l0, Supervisor.UNKNOWN, s, 0, 0);
    var l1 := Happens(l0, Timeout(DEAD));
    AskingTimesOut(l1, Supervisor.SREQUEST, s, 1, 1);
    var l2 := Happens(l1, Timeout(DEAD));
    AskingReads(l2, s, 2, 2);
    var l3 := Happens(l2, Reads(DEAD));
    ActivationFails(l3, s);
    var l4 := Happens(l3, Reads(DEAD));
    LateReportCounts(l4);
    var l5 := Happens(l4, Reads(DEAD));
    LateRefusalIsRetried(l5);
    MisledGoesOn(Happens(l5, Reads(DEAD)), Supervisor.SET_TIME);
    AskingInbox(l3, Supervisor.DREQUEST, s, 2, 1);
    FirstThree(l0, Timeout(DEAD), Timeout(DEAD), Reads(DEAD), [Reads(DEAD), Reads(DEAD), Reads(DEAD)] + Reading(6));
    FirstThree(l3, Reads(DEAD), Reads(DEAD), Reads(DEAD), Reading(6));
  }

  lemma BootIsBare()
    ensures var s := Boot(NO_LOG); s.radio.myNode == 0 && !s.radio.powered && s.ch[0].state <= EMPTY
  {
    hide Interrupts;
  }
}
