// Freedom from starvation counted in passes of the main loop, waits for responses
// included.

module MainLoop {
  import opened Bytes
  import opened Packets
  import opened Radios
  import opened Devices
  import opened Controllers
  import opened Exclusivity
  import opened Starvation
  import opened Rivalry
  import Board

  // Steps in the order in which the main loop takes them, with clock interrupts anywhere;
  // `phase` says how far into a pass the run starts.
  predicate Looping(es: seq<Step>, phase: nat)
    decreases |es|
  {
    es == [] ||
    match es[0] {
      case Interrupt => Looping(es[1..], phase)
      case Wake => phase == 0 && Looping(es[1..], 1)
      case Wait(_, _) => phase == 1 && Looping(es[1..], 2)
      case Serial(_, _) => phase == 2 && Looping(es[1..], 3)
      case Scheduler(_) => phase >= 2 && Looping(es[1..], 0)
    }
  }

  // The passes completed.
  function Iterations(es: seq<Step>): nat
    decreases |es|
  {
    if es == [] then 0 else (if es[0].Scheduler? then 1 else 0) + Iterations(es[1..])
  }

  function PhaseAfter(phase: nat, e: Step): nat
  {
    match e
    case Interrupt => phase
    case Wake => 1
    case Wait(_, _) => 2
    case Serial(_, _) => 3
    case Scheduler(_) => 0
  }

  /** The steps of one call of the loop body are one pass. */
  lemma PassLoops(ready: bool, fifo: seq<byte>, input: seq<char>, w: World, chip: Chip, es: seq<Step>)
    requires |input| <= 1
    ensures var fs := Board.LoopSteps(ready, fifo, input, w, chip) + es;
            (Looping(fs, 0) <==> Looping(es, 0)) && Iterations(fs) == 1 + Iterations(es)
  {
    var rest := [Scheduler(chip)] + es;
    var more := (if input == [] then [] else [Serial(input[0], w)]) + rest;
    OneStep(Scheduler(chip), es, 2);
    OneStep(Scheduler(chip), es, 3);
    if input == [] {
      assert more == rest;
    } else {
      OneStep(Serial(input[0], w), rest, 2);
    }
    OneStep(Wait(ready, fifo), more, 1);
    OneStep(Wake, [Wait(ready, fifo)] + more, 0);
    assert Board.LoopSteps(ready, fifo, input, w, chip) + es == [Wake] + ([Wait(ready, fifo)] + more);
    hide Looping, Iterations, Board.LoopSteps;
  }

  lemma OneStep(e: Step, es: seq<Step>, phase: nat)
    ensures Looping([e] + es, phase) <==> Looping([e], phase) && Looping(es, PhaseAfter(phase, e))
    ensures Looping([e], phase) == (match e
      case Interrupt => true
      case Wake => phase == 0
      case Wait(_, _) => phase == 1
      case Serial(_, _) => phase == 2
      case Scheduler(_) => phase >= 2)
    ensures Iterations([e] + es) == (if e.Scheduler? then 1 else 0) + Iterations(es)
  {
    assert [e][1..] == [];
    assert ([e] + es)[0] == e && ([e] + es)[1..] == es;
  }

  // The controller is awake whenever it comes to check its queues.
  ghost predicate Listening(s: Ctl, es: seq<Step>)
    requires Wf(s)
    decreases |es|
  {
    es == [] || ((es[0].Scheduler? ==> s.radio.state >= LISTEN) && Listening(Next(s, es[0]), es[1..]))
  }

  // Passes that may still go by without a check of the queues.
  function Left(s: Ctl, phase: nat): int
    requires Wf(s)
  {
    if s.resp < 0 then 0 else RXRESPONSE4 - s.ch[s.resp].state + if phase >= 2 then 1 else 0
  }

  // A check may start a wait of three more passes; otherwise the wait only gets shorter.
  lemma StepLeft(s: Ctl, e: Step, phase: nat)
    requires Sound(s) && !Hits(s, e) && !Resets(s, e)
    requires Looping([e], phase) && (e.Scheduler? ==> s.radio.state >= LISTEN)
    ensures var t := Next(s, e);
            && Sound(t)
            && (if e.Scheduler? && SchedulerRuns(s) then Left(s, phase) == 0 && Left(t, 0) <= 3
                else Left(t, PhaseAfter(phase, e)) + (if e.Scheduler? then 1 else 0) <= Left(s, phase))
  {
    StepKeepsSound(s, e);
    if s.resp >= 0 {
      StepDuringWait(s, e);
      SoundAwaits(s);
      WaitStepEnds(s, e);
    } else if e.Serial? {
      ParseLeavesWait(s, e.c, e.world);
    }
    if Next(s, e).resp >= 0 {
      SoundAwaits(Next(s, e));
    }
    if s.resp < 0 && !e.Serial? {
      NewWait(s, e);
    }
    hide Next, Sound, Hits, Resets;
  }

  // A step that ends a wait leaves none.
  lemma WaitStepEnds(s: Ctl, e: Step)
    requires Wf(s) && s.resp >= 0
    ensures e.Wait? && Next(s, e).log.ended != s.log.ended ==> Next(s, e).resp < 0
  {
    hide Receive, ResponseLine, Hears, SlotAfter;
  }

  // Only a check that sends starts a wait.
  lemma NewWait(s: Ctl, e: Step)
    requires Sound(s) && s.resp < 0 && !e.Serial?
    ensures Next(s, e).resp >= 0 ==> e.Scheduler? && SchedulerRuns(s)
  {
    hide AfterSend, PacketAfterSend, SendSucceeds;
  }

  lemma {:induction false} IterationsBound(s: Ctl, v: nat, es: seq<Step>, phase: nat)
    requires Sound(s) && SafeRun(s, v, es) && Looping(es, phase) && Listening(s, es)
    ensures Iterations(es) <= 4 * (ProductivePasses(s, es) + Setbacks(s, es)) + Left(s, phase)
    decreases |es|
  {
    SoundLeft(s, phase);
    if es != [] {
      var e := es[0];
      assert Looping([e], phase) by {
        assert [e][1..] == [];
      }
      StepLeft(s, e, phase);
      hide Next, Sound, Wf, Productive, SchedulerRuns, Left;
      IterationsBound(Next(s, e), v, es[1..], PhaseAfter(phase, e));
    }
  }

  lemma SoundLeft(s: Ctl, phase: nat)
    requires Sound(s)
    ensures 0 <= Left(s, phase) <= if phase >= 2 then 4 else 3
  {
  }

  /** No starvation in turns of the main loop, whether or not the packets before it wait for
      answers: with no setbacks a queued packet is sent within 116 turns; each setback costs
      four more, and every 98 of them twenty more. */
  lemma NoStarvationInLoop(s: Ctl, v: nat, es: seq<Step>)
    requires Calm(s) && v < CHANNELS && Queued(s.ch[v]) && s.ch[v].priority >= 3
    requires SafeRun(s, v, es) && Looping(es, 0) && Listening(s, es)
    requires Iterations(es) >= 4 * (Redeeming(Setbacks(s, es), Refusals(s, es)) + Setbacks(s, es))
    ensures SentOn(s, Run(s, es), v, MessageOf(s.ch[v].packet))
  {
    SoundLeft(s, 0);
    IterationsBound(s, v, es, 0);
    NoStarvation(s, v, es);
    hide *;
  }
}
