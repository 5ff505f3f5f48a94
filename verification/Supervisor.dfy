// The daemon's supervisor: it brings the controller up stage by stage, driven by
// replies and timers (lrmon/state.c, the acting half of parse_data in lrmon/main.c).

module Supervisor {
  import opened TimerQueue
  import Controllers
  import Status
  import opened Text

  // Stages
  const UNKNOWN := 0
  const SREQUEST := 1
  const SEND_RESET := 2
  const DREQUEST := 3
  const ACTIVATE := 4
  const SET_TIME := 5
  const SET_DATE := 6
  const CH0 := 7
  const CH3 := 10
  const READY := 11

  // What is sent to the controller.
  datatype Msg =
    | AskStatus(stype: int)
    | LocalActivate
    | SetTime
    | SetDate
    | SetChannel(chan: int, config: int)
    | ResetBoard

  // `credits` counts the successes heard since the last reset was sent.
  datatype Sup = Sup(stage: int, retries: int, failure: int, responses: int, node: int, credits: nat)

  datatype State = State(sup: Sup, q: Queue, sent: seq<Msg>)

  const STATIC := 0
  const DYNAMIC := 1

  // The request that belongs to a stage.
  function Request(stage: int): Msg
  {
    if stage <= SREQUEST then AskStatus(STATIC)
    else if stage == DREQUEST then AskStatus(DYNAMIC)
    else if stage == ACTIVATE then LocalActivate
    else if stage == SET_TIME then SetTime
    else if stage == SET_DATE then SetDate
    else if stage < READY then SetChannel(stage - CH0, if stage == CH3 then Controllers.READ else Controllers.EMPTY)
    else AskStatus(DYNAMIC)
  }

  // The stage's request has been answered.
  predicate Satisfied(s: Sup)
  {
    if s.stage <= DREQUEST then s.stage != UNKNOWN && s.responses != 0 else s.failure == 0
  }

  function Follow(s: Sup): int
  {
    if s.stage == SREQUEST then DREQUEST
    else if s.stage == DREQUEST then (if s.node == 1 then SET_TIME else ACTIVATE)
    else s.stage + 1
  }

  // What one call outside READY leaves, sends, and waits for.
  datatype Outcome = Outcome(sup: Sup, msg: Msg, delay: int)

  function Call(s: Sup): Outcome
  {
    if s.retries > 10 || s.stage == SEND_RESET then
      Outcome(s.(stage := UNKNOWN, retries := 0, credits := 0), ResetBoard, 5)
    else if !Satisfied(s) then
      Outcome(
        (if s.stage == UNKNOWN then s.(stage := SREQUEST, retries := 1, responses := 0)
         else s.(retries := s.retries + 1)),
        Request(s.stage), if s.stage <= SREQUEST then 3 else 5)
    else
      var next := Follow(s);
      // some transitions count their own request as the first try
      var tried := s.stage < CH0 && !(s.stage == DREQUEST && s.node == 1);
      Outcome(
        s.(stage := next, retries := if tried then 1 else 0,
           responses := if s.stage == SREQUEST then 0 else s.responses,
           failure := if DREQUEST <= s.stage < CH3 then -1 else s.failure),
        // channel 3 is first configured with the mode of the channel before it
        (if next == CH3 then SetChannel(CH3 - CH0, Controllers.EMPTY) else Request(next)), 5)
  }

  function RunMachine(d: State): State
  {
    var q := Remove(d.q, StateMachine);
    if d.sup.stage == READY then d.(q := q)
    else
      var o := Call(d.sup);
      var p := if o.sup.stage == READY then Insert(q, DynamicStatus, 300) else q;
      State(o.sup, Insert(p, StateMachine, o.delay), d.sent + [o.msg])
  }

  function RunDynamic(d: State): State
  {
    d.(sent := d.sent + [AskStatus(DYNAMIC)], q := Insert(d.q, DynamicStatus, 300))
  }

  function Expiry(d: State): State
  {
    var e := d.(q := Expire(d.q));
    if d.q.timers == [] then e
    else
      var r := if Running(d.q).StateMachine? then RunMachine(e) else RunDynamic(e);
      if r.q.out > 0 then r.(q := Release(r.q)) else r
  }

  // A line from the controller has been read.
  function Take(d: State, m: Status.Meaning): State
  {
    match m
    case Ignored => d
    case Good => RunMachine(d.(sup := d.sup.(failure := 0, credits := d.sup.credits + 1)))
    case Bad(code) => RunMachine(d.(sup := d.sup.(failure := code)))
    case Report(_, node, _, _) =>
      RunMachine(d.(sup := d.sup.(failure := 0, responses := d.sup.responses + 1, node := node,
                                  credits := d.sup.credits + 1)))
  }

  datatype Event = Expires | Hears(msg: Status.Meaning)

  function Step(d: State, e: Event): State
  {
    if e.Expires? then Expiry(d) else Take(d, e.msg)
  }

  function Run(d: State, es: seq<Event>): State
    decreases |es|
  {
    if es == [] then d else Run(Step(d, es[0]), es[1..])
  }

  // state_init
  function Start(): State
  {
    State(Sup(UNKNOWN, 0, 0, 0, 0, 0), Insert(NO_TIMERS, StateMachine, 3), [])
  }

  // The code parse_data produces is positive.
  predicate Spoken(e: Event)
  {
    e.Hears? && e.msg.Bad? ==> e.msg.code >= 1
  }

  lemma ParsedCodesArePositive(line: string)
    ensures Spoken(Hears(Status.ParseLine(line)))
  {
    hide Fields, Atoi, Find;
  }

  ghost predicate AllSpoken(es: seq<Event>)
  {
    forall e :: e in es ==> Spoken(e)
  }

  // Invariants

  // The fewest successes that lead to a stage.
  function Rank(stage: int): int
  {
    if stage <= SEND_RESET then 0
    else if stage == DREQUEST then 1
    else if stage <= SET_TIME then 2
    else stage - 3
  }

  ghost predicate SupOk(s: Sup)
  {
    && UNKNOWN <= s.stage <= READY && s.stage != SEND_RESET
    && 0 <= s.retries <= 11
    && s.responses >= 0
    && (s.stage == UNKNOWN ==> s.retries == 0 && s.credits == 0)
    && (s.stage == SREQUEST || s.stage == DREQUEST ==> s.responses == 0)
    && (DREQUEST < s.stage < READY ==> s.failure != 0)
    && Rank(s.stage) <= s.credits
  }

  // Which timers can be pending, in which order: one for the supervisor until READY,
  // then the status timer and perhaps a last call of the supervisor.
  ghost predicate QueueOk(stage: int, q: Queue)
  {
    && q.out == 0 && Allocated(q) <= 3
    && var ts := q.timers;
       if stage < READY then |ts| == 1 && ts[0].func.StateMachine? && q.free <= 1
       else
         || (|ts| == 1 && ts[0].func.DynamicStatus?)
         || (|ts| == 2 && ts[0].func.DynamicStatus? && ts[1] == Timer(StateMachine, 5))
         || ts == [Timer(StateMachine, 0), Timer(DynamicStatus, 300)]
  }

  ghost predicate Ok(d: State) { SupOk(d.sup) && QueueOk(d.sup.stage, d.q) }

  lemma StartIsOk()
    ensures Ok(Start())
  {
  }

  // How many timers are pending for a callback.
  function Pending(q: Queue, func: Func): nat { Count(q.timers, func) }

  function Count(ts: seq<Timer>, func: Func): nat
  {
    if ts == [] then 0 else (if ts[0].func == func then 1 else 0) + Count(ts[1..], func)
  }

  ghost predicate OnlyPolls(ms: seq<Msg>)
  {
    forall m :: m in ms ==> m == AskStatus(DYNAMIC)
  }

  lemma ReadyStep(d: State, e: Event)
    requires Ok(d) && Spoken(e) && d.sup.stage == READY
    ensures var r := Step(d, e);
            r.sup.stage == READY && (r.sent == d.sent || r.sent == d.sent + [AskStatus(DYNAMIC)])
  {
  }

  // The supervisor as a call finds it: a line may just have been read.
  ghost predicate Heard(s: Sup)
  {
    || SupOk(s)
    || (&& UNKNOWN <= s.stage <= READY && s.stage != SEND_RESET && 0 <= s.retries <= 11 && s.responses >= 0
        && (s.stage == UNKNOWN ==> s.retries == 0)
        && Rank(s.stage) + 1 <= s.credits)
  }

  // Running the machine with no node on the run queue, or with its own.
  lemma MachineKeepsQueue(d: State)
    requires Heard(d.sup)
    requires d.q.out <= 1
    requires if d.q.out == 0 then QueueOk(d.sup.stage, d.q)
             else
               && Allocated(d.q) <= 3
               && (if d.sup.stage < READY then d.q.timers == [] && d.q.free <= 1
                   else |d.q.timers| == 1 && d.q.timers[0].func.DynamicStatus?)
    ensures var r := RunMachine(d);
            && SupOk(r.sup) && r.q.out == d.q.out
            && QueueOk(r.sup.stage, r.q.(out := 0)) && Allocated(r.q) <= 3
  {
  }

  lemma ExpiryKeepsOk(d: State)
    requires Ok(d)
    ensures Ok(Expiry(d))
  {
    var e := d.(q := Expire(d.q));
    if Running(d.q).StateMachine? {
      MachineKeepsQueue(e);
    }
  }

  lemma StepKeepsOk(d: State, e: Event)
    requires Ok(d) && Spoken(e)
    ensures Ok(Step(d, e))
  {
    if e.Expires? {
      ExpiryKeepsOk(d);
    } else if !e.msg.Ignored? {
      hide RunMachine, QueueOk;
      MachineKeepsQueue(match e.msg
        case Good => d.(sup := d.sup.(failure := 0, credits := d.sup.credits + 1))
        case Bad(code) => d.(sup := d.sup.(failure := code))
        case Report(_, node, _, _) =>
          d.(sup := d.sup.(failure := 0, responses := d.sup.responses + 1, node := node,
                           credits := d.sup.credits + 1)));
    }
  }

  lemma {:induction false} RunKeepsOk(d: State, es: seq<Event>)
    requires Ok(d) && AllSpoken(es)
    ensures Ok(Run(d, es))
    decreases |es|
  {
    hide Ok, Step, Spoken;
    if es != [] {
      StepKeepsOk(d, es[0]);
      RunKeepsOk(Step(d, es[0]), es[1..]);
    }
  }

  // What reaches the daemon: its timeout, or any line of text.
  datatype Input = Timeout | Line(text: string)

  function Events(inputs: seq<Input>): (es: seq<Event>)
    ensures |es| == |inputs|
  {
    seq(|inputs|, i requires 0 <= i < |inputs| =>
      if inputs[i].Timeout? then Expires else Hears(Status.ParseLine(inputs[i].text)))
  }

  lemma EventsAreSpoken(inputs: seq<Input>)
    ensures AllSpoken(Events(inputs))
  {
    hide Status.ParseLine;
    forall e | e in Events(inputs) ensures Spoken(e) {
      if e.Hears? {
        var i :| 0 <= i < |inputs| && Events(inputs)[i] == e;
        ParsedCodesArePositive(inputs[i].text);
      }
    }
  }

  /** The timer queue after any timeouts and any lines: one supervisor timer before READY;
      then one status timer and at most one supervisor timer; no node lost, at most three
      allocated. */
  lemma ReachableQueues(inputs: seq<Input>)
    ensures var d := Run(Start(), Events(inputs));
            && d.q.out == 0 && Allocated(d.q) <= 3
            && Pending(d.q, StateMachine) + Pending(d.q, DynamicStatus) == |d.q.timers|
            && (if d.sup.stage < READY then Pending(d.q, StateMachine) == 1 && Pending(d.q, DynamicStatus) == 0
                else Pending(d.q, StateMachine) <= 1 && Pending(d.q, DynamicStatus) == 1)
  {
    var es := Events(inputs);
    EventsAreSpoken(inputs);
    StartIsOk();
    RunKeepsOk(Start(), es);
    PendingTimers(Run(Start(), es).sup.stage, Run(Start(), es).q);
    hide Run, Start, Events;
  }

  lemma PendingTimers(stage: int, q: Queue)
    requires QueueOk(stage, q)
    ensures Pending(q, StateMachine) + Pending(q, DynamicStatus) == |q.timers|
    ensures if stage < READY then Pending(q, StateMachine) == 1 && Pending(q, DynamicStatus) == 0
            else Pending(q, StateMachine) <= 1 && Pending(q, DynamicStatus) == 1
  {
    var ts := q.timers;
    forall func
      ensures Count(ts, func)
              == (if ts[0].func == func then 1 else 0) + if |ts| == 2 && ts[1].func == func then 1 else 0
    {
      var rest := ts[1..];
      assert rest != [] ==> rest[0] == ts[1] && rest[1..] == [];
    }
  }

  // Progress

  // An event that runs the machine.
  predicate Calls(e: Event)
  {
    e.Expires? || !e.msg.Ignored?
  }

  predicate Succeeds(e: Event)
  {
    e.Hears? && (e.msg.Good? || e.msg.Report?)
  }

  // The event answers the request of the stage: a report for the two status stages, any
  // success for the others; nothing is asked in UNKNOWN.
  predicate Answers(stage: int, e: Event)
  {
    e.Hears? && stage != UNKNOWN && (e.msg.Report? || (stage > DREQUEST && e.msg.Good?))
  }

  // The stage after an answered request; which one follows the second status report
  // depends on the node it comes from.
  function NextStage(stage: int, e: Event): int
    requires Answers(stage, e)
  {
    if stage == SREQUEST then DREQUEST
    else if stage == DREQUEST then (if e.msg.node == 1 then SET_TIME else ACTIVATE)
    else stage + 1
  }

  /** Outside READY every timer and every understood line sends exactly one message; a
      reset is sent exactly when more than ten tries have been counted, and is the only
      way back. Otherwise UNKNOWN moves to the first request, an answer moves to the next
      stage, and anything else stays. Other lines change nothing. */
  lemma OneMessageOneStage(d: State, e: Event)
    requires Ok(d) && Spoken(e) && d.sup.stage < READY
    ensures var r := Step(d, e);
            if !Calls(e) then r == d
            else
              && |r.sent| == |d.sent| + 1 && d.sent <= r.sent
              && var reset := r.sent[|d.sent|].ResetBoard?;
                 && (reset <==> d.sup.retries > 10)
                 && r.sup.stage == (if reset then UNKNOWN
                                    else if d.sup.stage == UNKNOWN then SREQUEST
                                    else if Answers(d.sup.stage, e) then NextStage(d.sup.stage, e)
                                    else d.sup.stage)
                 && (reset ==> r.sup.retries == 0)
  {
    hide Insert, Remove;
  }

  /** READY is absorbing: whatever happens, nothing but status requests is sent. */
  lemma {:induction false} ReadyIsAbsorbing(d: State, es: seq<Event>)
    requires Ok(d) && AllSpoken(es) && d.sup.stage == READY
    ensures var r := Run(d, es);
            r.sup.stage == READY && d.sent <= r.sent && OnlyPolls(r.sent[|d.sent|..])
    decreases |es|
  {
    if es != [] {
      var s := Step(d, es[0]);
      ReadyStep(d, es[0]);
      StepKeepsOk(d, es[0]);
      hide Step, Ok, Spoken;
      ReadyIsAbsorbing(s, es[1..]);
      var r := Run(s, es[1..]);
      assert r.sent[|d.sent|..] == s.sent[|d.sent|..] + r.sent[|s.sent|..];
    }
  }

  // What is sent, and when the next call is due

  /** The first call comes three seconds after the start. */
  lemma FirstCall()
    ensures var q := Start().q; q.timers == [Timer(StateMachine, 0)] && q.timeout == 3
  {
  }

  /** Each call sends the request of the stage it leads to, or the reset, and is due again
      in three seconds if it asked for the static status, and else in five; on the way into
      READY the status timer comes first, in 300 seconds. */
  lemma MessageOfStage(d: State, e: Event)
    requires Ok(d) && Spoken(e) && Calls(e) && d.sup.stage < READY
    ensures var r := Step(d, e);
            var stage := r.sup.stage;
            && |r.sent| == |d.sent| + 1
            && var m := r.sent[|d.sent|];
               && m == (if stage == UNKNOWN then ResetBoard
                        else if stage == SREQUEST then AskStatus(0)
                        else if stage == DREQUEST || stage == READY then AskStatus(1)
                        else if stage == ACTIVATE then LocalActivate
                        else if stage == SET_TIME then SetTime
                        else if stage == SET_DATE then SetDate
                        else if stage < CH3 then SetChannel(stage - CH0, 2)
                        else SetChannel(3, if d.sup.stage == CH3 then 1 else 2))
               && (if stage == READY
                   then r.q.timers == [Timer(DynamicStatus, 0), Timer(StateMachine, 5)] && r.q.timeout == 300
                   else r.q.timers == [Timer(StateMachine, 0)] && r.q.timeout == if m == AskStatus(0) then 3 else 5)
  {
    OneMessageOneStage(d, e);
  }

  /** The tries counted after a call, from which ResetWithinTwelveCalls counts on: none
      after a reset, one more if the stage stays, and on entering a stage its first request
      as a rule, but not for the time if no activation went before it, nor for the channels
      after the first. */
  lemma TriesCounted(d: State, e: Event)
    requires Ok(d) && Spoken(e) && Calls(e) && d.sup.stage < READY
    ensures var r := Step(d, e).sup;
            r.retries == (if r.stage == UNKNOWN then 0
                          else if r.stage == d.sup.stage then d.sup.retries + 1
                          else if r.stage == SET_TIME then (if d.sup.stage == ACTIVATE then 1 else 0)
                          else if r.stage <= CH0 then 1 else 0)
  {
    OneMessageOneStage(d, e);
    hide Insert, Remove;
  }

  // The status poll

  /** A timeout in READY sends one status request if the status timer is at the head of the
      queue, and nothing otherwise; the status timer is then pending again, 300 seconds away
      unless a last call of the supervisor comes between. */
  lemma ReadyTimeout(d: State)
    requires Ok(d) && d.sup.stage == READY
    ensures var r := Step(d, Expires);
            var ts := d.q.timers;
            && ts != [] && r.sup == d.sup
            && r.sent == (if ts[0].func.DynamicStatus? then d.sent + [AskStatus(1)] else d.sent)
            && (if ts[0].func.DynamicStatus? && |ts| == 2
                then r.q.timers == [Timer(StateMachine, 0), Timer(DynamicStatus, 300)] && r.q.timeout == 5
                else r.q.timers == [Timer(DynamicStatus, 0)] && r.q.timeout == 300)
  {
    var ts := d.q.timers;
    if |ts| == 2 {
      assert ts[1..][1..] == [] && ts[1..][0] == ts[1];
      assert ts[2..] == [];
    }
    hide Call;
  }

  /** A line in READY sends nothing; if it is understood, a last call of the supervisor that
      is still pending is cancelled. */
  lemma ReadyLine(d: State, e: Event)
    requires Ok(d) && d.sup.stage == READY && e.Hears?
    ensures var r := Step(d, e);
            && r.sent == d.sent && r.sup.stage == READY && |r.q.timers| <= |d.q.timers|
            && (if Calls(e) then |r.q.timers| == 1 && r.q.timers[0].func.DynamicStatus? else r == d)
  {
    CallCancelled(d.q);
    hide Call, Remove;
  }

  lemma CallCancelled(q: Queue)
    requires QueueOk(READY, q)
    ensures var ts := Remove(q, StateMachine).timers; |ts| == 1 && ts[0].func.DynamicStatus?
  {
    var ts := q.timers;
    if |ts| == 1 {
      assert ts[1..] == [];
      assert Index(ts, StateMachine) == 1;
    } else if ts[0].func.StateMachine? {
      assert Index(ts, StateMachine) == 0;
      assert ts[..0] + ts[1..] == [ts[1]];
    } else {
      assert ts[1..][0] == ts[1];
      assert Index(ts[1..], StateMachine) == 0;
      assert ts[..1] + ts[2..] == [ts[0]];
    }
  }

  /** What a line leaves for others to see: the code of a failure, or none after a success;
      the node of a report, and from the third stage on one response more. */
  lemma LineIsNoted(d: State, e: Event)
    requires Ok(d) && Spoken(e) && e.Hears? && Calls(e)
    ensures var r := Step(d, e).sup;
            && (e.msg.Bad? ==> r.failure == e.msg.code && r.node == d.sup.node && r.responses <= d.sup.responses)
            && (e.msg.Report? ==> r.node == e.msg.node)
            && (!e.msg.Bad? && d.sup.stage in {CH3, READY} && r.stage == READY ==> r.failure == 0)
            && (e.msg.Report? && d.sup.stage >= DREQUEST ==> r.responses == d.sup.responses + 1)
  {
    hide Insert, Remove;
  }

  // Timeouts that find the status timer at the head of the queue.
  function Polls(d: State, es: seq<Event>): nat
    decreases |es|
  {
    if es == [] then 0
    else
      (if es[0].Expires? && d.q.timers != [] && d.q.timers[0].func.DynamicStatus? then 1 else 0) +
      Polls(Step(d, es[0]), es[1..])
  }

  function Timeouts(es: seq<Event>): nat
  {
    if es == [] then 0 else (if es[0].Expires? then 1 else 0) + Timeouts(es[1..])
  }

  /** Over any run in READY the requests sent are one for each timeout of the status timer,
      and all timeouts are, but for one at most. */
  lemma {:induction false} ReadyPolls(d: State, es: seq<Event>)
    requires Ok(d) && AllSpoken(es) && d.sup.stage == READY
    ensures var r := Run(d, es);
            && |r.sent| == |d.sent| + Polls(d, es) && d.sent <= r.sent && OnlyPolls(r.sent[|d.sent|..])
            && Timeouts(es) - (|d.q.timers| - 1) <= Polls(d, es) <= Timeouts(es)
    decreases |es|
  {
    if es != [] {
      var s := Step(d, es[0]);
      if es[0].Expires? {
        ReadyTimeout(d);
      } else {
        ReadyLine(d, es[0]);
      }
      StepKeepsOk(d, es[0]);
      QueueSize(d);
      QueueSize(s);
      hide Step, Ok, Spoken;
      ReadyPolls(s, es[1..]);
      var r := Run(s, es[1..]);
      assert r.sent[|d.sent|..] == s.sent[|d.sent|..] + r.sent[|s.sent|..];
    }
  }

  lemma QueueSize(d: State)
    requires Ok(d) && d.sup.stage == READY
    ensures 1 <= |d.q.timers| <= 2
    ensures |d.q.timers| == 1 ==> d.q.timers[0].func.DynamicStatus?
  {
  }

  // Runs without a success

  ghost predicate Fruitless(es: seq<Event>)
  {
    forall e :: e in es ==> Calls(e) && Spoken(e) && !Succeeds(e)
  }

  lemma FruitlessCall(d: State, e: Event)
    requires Ok(d) && d.sup.stage < READY && Calls(e) && Spoken(e) && !Succeeds(e)
    ensures var r := Step(d, e);
            if d.sup.retries > 10 then r.sup.retries == 0 && r.sent == d.sent + [ResetBoard]
            else
              && r.sup.retries == d.sup.retries + 1 && r.sup.stage < READY
              && |r.sent| == |d.sent| + 1 && d.sent <= r.sent && !r.sent[|d.sent|].ResetBoard?
  {
    hide Insert, Remove;
  }

  /** With no success the next reset comes after exactly 12 - retries calls. */
  lemma {:induction false} ResetWithinTwelveCalls(d: State, es: seq<Event>)
    requires Ok(d) && d.sup.stage < READY && Fruitless(es) && |es| <= 12 - d.sup.retries
    ensures var r := Run(d, es);
            d.sent <= r.sent && |r.sent| == |d.sent| + |es| && OnlyResetAt(r.sent[|d.sent|..], 11 - d.sup.retries)
    decreases |es|
  {
    if es != [] {
      var s := Step(d, es[0]);
      FruitlessCall(d, es[0]);
      StepKeepsOk(d, es[0]);
      var r := Run(s, es[1..]);
      assert Run(d, es) == r;
      hide Step, Spoken, Calls, Succeeds, Ok;
      if d.sup.retries > 10 {
        assert es[1..] == [];
        assert r == s;
      } else {
        ResetWithinTwelveCalls(s, es[1..]);
        hide Run, Fruitless;
        LaterReset(s.sent[|d.sent|], r.sent[|s.sent|..], 10 - d.sup.retries);
        assert r.sent[|d.sent|..] == [s.sent[|d.sent|]] + r.sent[|s.sent|..];
      }
    }
  }

  ghost predicate OnlyResetAt(ms: seq<Msg>, n: int)
  {
    forall k :: 0 <= k < |ms| ==> (ms[k].ResetBoard? <==> k == n)
  }

  lemma LaterReset(m: Msg, ms: seq<Msg>, n: nat)
    requires !m.ResetBoard? && OnlyResetAt(ms, n)
    ensures OnlyResetAt([m] + ms, n + 1)
  {
    forall k | 0 <= k < |ms| + 1 ensures ([m] + ms)[k].ResetBoard? <==> k == n + 1 {
      assert k > 0 ==> ([m] + ms)[k] == ms[k - 1];
    }
  }

  // What READY takes

  function Successes(es: seq<Event>): nat
  {
    if es == [] then 0 else (if Succeeds(es[0]) then 1 else 0) + Successes(es[1..])
  }

  lemma StepCredits(d: State, e: Event)
    ensures Step(d, e).sup.credits <= d.sup.credits + if Succeeds(e) then 1 else 0
  {
    hide Insert, Remove, Expire;
  }

  lemma {:induction false} RunCredits(d: State, es: seq<Event>)
    ensures Run(d, es).sup.credits <= d.sup.credits + Successes(es)
    decreases |es|
  {
    if es != [] {
      StepCredits(d, es[0]);
      hide Step, Succeeds;
      RunCredits(Step(d, es[0]), es[1..]);
    }
  }

  lemma {:induction false} RunAppend(d: State, a: seq<Event>, b: seq<Event>)
    ensures Run(d, a + b) == Run(Run(d, a), b)
    decreases |a|
  {
    hide Step;
    if a == [] {
      assert a + b == b;
    } else {
      assert (a + b)[1..] == a[1..] + b;
      RunAppend(Step(d, a[0]), a[1..], b);
    }
  }

  /** READY takes at least eight successes since the start or since any reset. */
  lemma ReadyNeedsEight(a: seq<Event>, b: seq<Event>)
    requires AllSpoken(a) && AllSpoken(b)
    requires Run(Start(), a).sup.stage == UNKNOWN && Run(Start(), a + b).sup.stage == READY
    ensures Successes(b) >= 8
  {
    StartIsOk();
    RunKeepsOk(Start(), a);
    RunKeepsOk(Run(Start(), a), b);
    RunAppend(Start(), a, b);
    RunCredits(Run(Start(), a), b);
    hide Run, Start, Successes;
  }

  // The first request of a stage.
  function Opening(stage: int): Msg
  {
    if CH0 <= stage <= CH3 then SetChannel(stage - CH0, Controllers.EMPTY) else Request(stage)
  }

  // Eight are enough when the board already is node 1; channel 3 is then never set to read.
  function QuickStart(): seq<Event>
  {
    [Hears(Status.Bad(1)), Hears(Status.Report(0, 0, 0, "")), Hears(Status.Report(0, 1, 0, ""))] + Goods(6)
  }

  function Goods(n: nat): (es: seq<Event>)
    ensures |es| == n
  {
    if n == 0 then [] else [Hears(Status.Good)] + Goods(n - 1)
  }

  lemma {:induction false} GoodRun(d: State, n: nat)
    requires d.sup.failure != 0 && SET_TIME <= d.sup.stage && d.sup.stage + n <= READY && d.sup.retries <= 10
    ensures var r := Run(d, Goods(n));
            && r.sup.stage == d.sup.stage + n && Successes(Goods(n)) == n
            && (SetChannel(3, Controllers.READ) in r.sent ==> SetChannel(3, Controllers.READ) in d.sent)
    decreases n
  {
    if n > 0 {
      var e := Hears(Status.Good);
      var s := Step(d, e);
      assert Goods(n)[1..] == Goods(n - 1) && Goods(n)[0] == e;
      hide Insert, Remove;
      assert s.sup.stage == d.sup.stage + 1 && s.sup.retries <= 10 && (s.sup.stage < READY ==> s.sup.failure != 0);
      assert s.sent == d.sent + [Opening(s.sup.stage)];
      hide Step;
      if n > 1 {
        GoodRun(s, n - 1);
      }
    }
  }

  lemma EightAreEnough()
    ensures Run(Start(), QuickStart()).sup.stage == READY && Successes(QuickStart()) == 8
    ensures SetChannel(3, Controllers.READ) !in Run(Start(), QuickStart()).sent
  {
    hide Insert, Remove, Goods;
    var e1, e2, e3 := Hears(Status.Bad(1)), Hears(Status.Report(0, 0, 0, "")), Hears(Status.Report(0, 1, 0, ""));
    var es := QuickStart();
    assert es[1..][1..][1..] == Goods(6) && es[0] == e1 && es[1..][0] == e2 && es[1..][1..][0] == e3;
    var d1 := Step(Start(), e1);
    assert d1.sup.stage == SREQUEST && d1.sup.retries == 1 && d1.sent == [AskStatus(STATIC)];
    var d2 := Step(d1, e2);
    assert d2.sup.stage == DREQUEST && d2.sup.retries == 1 && d2.sent == d1.sent + [AskStatus(DYNAMIC)];
    var d3 := Step(d2, e3);
    assert d3.sup.stage == SET_TIME && d3.sup.retries == 0 && d3.sup.failure == -1 && d3.sent == d2.sent + [SetTime];
    GoodRun(d3, 6);
    hide Step, Start, QuickStart;
  }

  /** On entering its stage channel 3 is set to EMPTY; READ is only sent when that stage
      is called again without a success. */
  lemma ChannelThreeStartsEmpty(d: State, e: Event)
    requires Ok(d) && Spoken(e) && Calls(e) && d.sup.stage < READY
    ensures var r := Step(d, e);
            && |r.sent| == |d.sent| + 1
            && (r.sup.stage == CH3 && d.sup.stage != CH3 ==> r.sent[|d.sent|] == SetChannel(3, Controllers.EMPTY))
            && (r.sent[|d.sent|] == SetChannel(3, Controllers.READ) <==> d.sup.stage == CH3 == r.sup.stage)
  {
    hide Insert, Remove;
  }

  // What was sent since the last reset.
  function SinceReset(ms: seq<Msg>): seq<Msg>
  {
    if ms == [] || ms[|ms| - 1].ResetBoard? then [] else SinceReset(ms[..|ms| - 1]) + [ms[|ms| - 1]]
  }

  lemma SinceResetAppend(ms: seq<Msg>, m: Msg)
    ensures SinceReset(ms + [m]) == if m.ResetBoard? then [] else SinceReset(ms) + [m]
  {
    assert (ms + [m])[..|ms|] == ms;
  }

  // Every setting up to the present stage has been sent since the last reset.
  ghost predicate BroughtUp(d: State)
  {
    forall stage :: SET_TIME <= stage <= d.sup.stage ==> Opening(stage) in SinceReset(d.sent)
  }

  lemma StepKeepsBroughtUp(d: State, e: Event)
    requires Ok(d) && Spoken(e) && BroughtUp(d)
    ensures BroughtUp(Step(d, e))
  {
    var r := Step(d, e);
    if d.sup.stage == READY {
      ReadyStep(d, e);
      SinceResetAppend(d.sent, AskStatus(DYNAMIC));
    } else if Calls(e) {
      StepSends(d, e);
      SinceResetAppend(d.sent, r.sent[|d.sent|]);
      hide Step, Ok, SinceReset, Spoken, Calls, Opening;
      forall stage | SET_TIME <= stage <= r.sup.stage ensures Opening(stage) in SinceReset(r.sent) {
      }
    }
  }

  lemma StepSends(d: State, e: Event)
    requires Ok(d) && Spoken(e) && Calls(e) && d.sup.stage < READY
    ensures var r := Step(d, e);
            && |r.sent| == |d.sent| + 1 && r.sent == d.sent + [r.sent[|d.sent|]]
            && (r.sup.stage == d.sup.stage || r.sup.stage < SET_TIME
                || (r.sup.stage == d.sup.stage + 1 && r.sent[|d.sent|] == Opening(r.sup.stage))
                || (r.sup.stage == SET_TIME && d.sup.stage < SET_TIME && r.sent[|d.sent|] == Opening(SET_TIME)))
            && (r.sent[|d.sent|].ResetBoard? ==> r.sup.stage == UNKNOWN)
  {
    hide Insert, Remove;
  }

  /** READY is reached only after time, date and all four channels have been set since
      the last reset. */
  lemma {:induction false} RunKeepsBroughtUp(d: State, es: seq<Event>)
    requires Ok(d) && AllSpoken(es) && BroughtUp(d)
    ensures BroughtUp(Run(d, es))
    decreases |es|
  {
    hide Ok, Step, Spoken, BroughtUp;
    if es != [] {
      StepKeepsOk(d, es[0]);
      StepKeepsBroughtUp(d, es[0]);
      RunKeepsBroughtUp(Step(d, es[0]), es[1..]);
    }
  }

  /** Whatever the daemon has been through, once it is READY the time, the date and all
      four channels have been set since the last reset. */
  lemma ReadyIsBroughtUp(inputs: seq<Input>, stage: int)
    requires SET_TIME <= stage <= CH3
    ensures var d := Run(Start(), Events(inputs));
            d.sup.stage == READY ==> Opening(stage) in SinceReset(d.sent)
  {
    EventsAreSpoken(inputs);
    StartIsOk();
    RunKeepsBroughtUp(Start(), Events(inputs));
    hide Run, Start, Events, Opening, SinceReset;
  }
}
