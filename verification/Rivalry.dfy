// How often a queued packet can be passed over: a bound on every run, however the host
// refills the other channels and however many sends fail.

module Rivalry {
  import opened Bytes
  import opened Packets
  import opened Radios
  import opened Devices
  import opened Controllers
  import opened Exclusivity
  import opened Starvation

  // Division

  lemma DivUnique(a: nat, b: nat, q: int, r: int)
    requires b > 0 && a == b * q + r && 0 <= r < b
    ensures a / b == q
  {
    var d := a / b - q;
    assert b * d == r - a % b by {
      assert a == b * (a / b) + a % b;
    }
    MultipleBound(b, d);
    MultipleBound(b, d - 1);
    assert b * d == b * (d - 1) + b;
  }

  lemma DivStep(a: nat, b: nat)
    requires 0 < b <= a
    ensures a / b == (a - b) / b + 1
  {
    var q, r := (a - b) / b, (a - b) % b;
    assert a == b * (q + 1) + r;
    DivUnique(a, b, q + 1, r);
  }

  lemma {:induction false} DivGrows(a: nat, c: nat, b: nat)
    requires b > 0 && a <= c
    ensures a / b <= c / b
    decreases a
  {
    if a >= b {
      DivStep(a, b);
      DivStep(c, b);
      DivGrows(a - b, c - b, b);
    } else {
      DivUnique(a, b, 0, a);
    }
  }

  // A smaller divisor gives no smaller a quotient.
  lemma {:induction false} DivShrinks(a: nat, b: nat, c: nat)
    requires 0 < b <= c
    ensures a / c <= a / b
    decreases a
  {
    if a >= c {
      DivStep(a, b);
      DivStep(a, c);
      DivShrinks(a - c, b, c);
      DivGrows(a - c, a - b, b);
    } else {
      DivUnique(a, c, 0, a);
    }
  }

  // Once a packet is above 48, the highest entry priority, a rival that enters later can
  // only draw level at the ceiling of 252. Its age counts the checks since it last lost
  // its turn.

  // Checks that take a rival from its entry priority to the ceiling.
  function Climb(j: nat): nat { 102 + 4 * j }

  // How many whole periods fit.
  function Periods(n: nat, period: nat): nat
    requires period > 0
  {
    n / period
  }

  lemma PeriodsGrow(m: nat, n: nat, period: nat)
    requires 0 < period && m <= n
    ensures Periods(m, period) <= Periods(n, period)
    ensures m < period ==> Periods(m, period) == 0
    ensures n >= period ==> Periods(n, period) == Periods(n - period, period) + 1
  {
    DivGrows(m, n, period);
    if n >= period {
      DivStep(n, period);
    }
    if m < period {
      DivUnique(m, period, 0, m);
    }
  }

  // Turns channel j can still take in the next n checks.
  function Chances(age: nat, j: nat, n: nat): nat
  {
    var wait := if age >= Climb(j) then 0 else Climb(j) - age;
    if n <= wait then 0 else 1 + Periods(n - wait - 1, Climb(j) + 1)
  }

  function Total(ages: seq<nat>, v: nat, n: nat, k: nat): nat
    requires k <= |ages|
  {
    if k == 0 then 0 else Total(ages, v, n, k - 1) + if k - 1 == v then 0 else Chances(ages[k - 1], k - 1, n)
  }

  // A rival that has not had the time to climb is below v.
  ghost predicate Below(ch: seq<Channel>, v: nat, ages: seq<nat>)
    requires |ch| == CHANNELS && v < CHANNELS
  {
    && |ages| == CHANNELS && ch[v].priority > 48
    && forall j :: 0 <= j < CHANNELS && j != v && Queued(ch[j]) && ages[j] < Climb(j) ==>
         ch[j].priority <= (CHANNELS - j) * 8 + 2 * ages[j] && ch[j].priority < ch[v].priority
  }

  function Older(ages: seq<nat>): (r: seq<nat>)
    ensures |r| == |ages|
  {
    seq(|ages|, i requires 0 <= i < |ages| => ages[i] + 1)
  }

  // Turns

  lemma FewerChances(age: nat, j: nat, n: nat)
    requires j < CHANNELS && n > 0
    ensures Chances(age, j, n - 1) <= Chances(age, j, n)
    ensures Chances(age + 1, j, n - 1) <= Chances(age, j, n)
    ensures Chances(Climb(j), j, n - 1) <= Chances(age, j, n) + 1
    ensures age >= Climb(j) ==> Chances(0, j, n - 1) + 1 <= Chances(age, j, n)
  {
    hide Periods, Climb;
    var period := Climb(j) + 1;
    var wait := if age >= Climb(j) then 0 else Climb(j) - age;
    PeriodsGrow(n - 1, n - 1, period);
    if n > wait {
      PeriodsGrow(n - wait - 1, n - 1, period);
      if n - 1 > wait {
        PeriodsGrow(n - wait - 2, n - wait - 1, period);
      }
      if n - 1 >= period {
        PeriodsGrow(n - 1 - period, n - wait - 1, period);
      }
    }
    if n > 1 {
      PeriodsGrow(n - 2, n - 1, period);
    }
  }

  // Totals compare channel by channel, with a difference on one of them.
  lemma {:induction false} TotalMoves(a: seq<nat>, b: seq<nat>, v: nat, n: nat, m: nat, k: nat, x: int, d: int)
    requires |a| == |b| && k <= |a| && x != v
    requires forall j | 0 <= j < |a| && j != v ::
               Chances(b[j], j, m) + (if j == x then d else 0) <= Chances(a[j], j, n)
    ensures Total(b, v, m, k) + (if 0 <= x < k then d else 0) <= Total(a, v, n, k)
  {
    hide Chances;
    if k > 0 {
      TotalMoves(a, b, v, n, m, k - 1, x, d);
    }
  }

  lemma CheckIdle(a: seq<nat>, v: nat, n: nat)
    requires |a| == CHANNELS && n > 0
    ensures Total(a, v, n - 1, CHANNELS) <= Total(a, v, n, CHANNELS)
  {
    forall j | 0 <= j < CHANNELS ensures Chances(a[j], j, n - 1) <= Chances(a[j], j, n) {
      FewerChances(a[j], j, n);
    }
    hide Chances, Climb;
    TotalMoves(a, a, v, n, n - 1, CHANNELS, -1, 0);
  }

  lemma CheckAges(a: seq<nat>, v: nat, n: nat)
    requires |a| == CHANNELS && n > 0
    ensures Total(Older(a), v, n - 1, CHANNELS) <= Total(a, v, n, CHANNELS)
  {
    forall j | 0 <= j < CHANNELS ensures Chances(Older(a)[j], j, n - 1) <= Chances(a[j], j, n) {
      FewerChances(a[j], j, n);
    }
    hide Chances, Climb;
    TotalMoves(a, Older(a), v, n, n - 1, CHANNELS, -1, 0);
  }

  lemma CheckRefuses(a: seq<nat>, v: nat, n: nat, x: nat)
    requires |a| == CHANNELS && n > 0 && x < CHANNELS && x != v
    ensures Total(Older(a)[x := Climb(x)], v, n - 1, CHANNELS) <= Total(a, v, n, CHANNELS) + 1
  {
    var b := Older(a)[x := Climb(x)];
    forall j | 0 <= j < CHANNELS ensures Chances(b[j], j, n - 1) + (if j == x then -1 else 0) <= Chances(a[j], j, n) {
      FewerChances(a[j], j, n);
    }
    hide Chances, Climb;
    TotalMoves(a, b, v, n, n - 1, CHANNELS, x, -1);
  }

  lemma CheckOvertakes(a: seq<nat>, v: nat, n: nat, u: nat)
    requires |a| == CHANNELS && n > 0 && u < CHANNELS && u != v && a[u] >= Climb(u)
    ensures Total(Older(a)[u := 0], v, n - 1, CHANNELS) + 1 <= Total(a, v, n, CHANNELS)
  {
    var b := Older(a)[u := 0];
    forall j | 0 <= j < CHANNELS ensures Chances(b[j], j, n - 1) + (if j == u then 1 else 0) <= Chances(a[j], j, n) {
      FewerChances(a[j], j, n);
    }
    hide Chances, Climb;
    TotalMoves(a, b, v, n, n - 1, CHANNELS, u, 1);
  }

  lemma CalmIsWf(s: Ctl)
    requires Calm(s)
    ensures Wf(s) && |s.ch| == CHANNELS && forall c :: 0 <= c < CHANNELS ==> s.ch[c].packet.len <= MAX_PAYLOAD
  {
  }

  // Steps

  lemma OtherStepBelow(s: Ctl, t: Ctl, v: nat, ages: seq<nat>)
    requires Wf(s) && Wf(t) && v < CHANNELS && Undisturbed(s, t, v) && Below(s.ch, v, ages)
    ensures Below(t.ch, v, ages)
  {
  }

  // A check that does not overtake; x is the channel it has filled, if any.
  lemma CheckBelow(s: Ctl, t: Ctl, v: nat, ages: seq<nat>, x: int)
    requires Wf(s) && Wf(t) && v < CHANNELS && x < CHANNELS && Below(s.ch, v, ages) && Queued(s.ch[v])
    requires Waited(s, t, v) && OnlyAged(s, t, v, x)
    ensures Below(t.ch, v, if x >= 0 then Older(ages)[x := Climb(x)] else Older(ages))
  {
    hide MessageOf;
  }

  lemma OvertakenBelow(s: Ctl, t: Ctl, v: nat, ages: seq<nat>, u: nat)
    requires Wf(s) && Wf(t) && v < CHANNELS && Below(s.ch, v, ages) && Queued(s.ch[v])
    requires Waited(s, t, v) && OnlyAged(s, t, v, -1) && Overtaken(s, t, v, u)
    ensures ages[u] >= Climb(u) && Below(t.ch, v, Older(ages)[u := 0])
  {
    hide MessageOf;
  }

  // Every check of the queues.
  function AllChecks(s: Ctl, es: seq<Step>): nat
    requires Wf(s)
  {
    ProductivePasses(s, es) + Setbacks(s, es)
  }

  // The ages after one step that leaves v waiting.
  lemma AgesAfter(s: Ctl, v: nat, e: Step, ages: seq<nat>, n: nat) returns (b: seq<nat>)
    requires Calm(s) && v < CHANNELS && Queued(s.ch[v]) && Below(s.ch, v, ages) && Safe(s, v, e)
    requires !SentOn(s, Next(s, e), v, MessageOf(s.ch[v].packet))
    requires n > 0 && e.Scheduler? && SchedulerRuns(s)
    ensures Below(Next(s, e).ch, v, b)
    ensures Total(b, v, n - 1, CHANNELS) + (if Productive(s, e) then 1 else 0)
            <= Total(ages, v, n, CHANNELS) + if Refuses(s, e) then 1 else 0
  {
    var t := Next(s, e);
    StepKeepsPacket(s, v, e);
    if Productive(s, e) {
      ProductiveAttempts(s, v, e);
      ProductiveStep(s, v, e.chip);
      CheckOnlyAges(s, v, e.chip);
      hide Schedule, Attempts, Calm, SentOn, Overtaken;
      var u :| 0 <= u < CHANNELS && Overtaken(s, t, v, u);
      OvertakenIsOther(s, t, v, u);
      OvertakenBelow(s, t, v, ages, u);
      CheckOvertakes(ages, v, n, u);
      b := Older(ages)[u := 0];
    } else if Attempts(s, e) {
      CheckOnlyAges(s, v, e.chip);
      RefusedIsOther(s, v, e.chip);
      hide Schedule, Attempts, Calm, SentOn;
      var x := RefusedSlot(s, e.chip);
      CheckBelow(s, t, v, ages, x);
      if x >= 0 {
        CheckRefuses(ages, v, n, x);
        b := Older(ages)[x := Climb(x)];
      } else {
        CheckAges(ages, v, n);
        b := Older(ages);
      }
    } else {
      IdleCheck(s, e);
      hide Schedule, Calm, SentOn;
      CheckIdle(ages, v, n);
      b := ages;
    }
  }

  lemma OvertakenIsOther(s: Ctl, t: Ctl, v: nat, u: int)
    requires Wf(s) && Wf(t) && v < CHANNELS && Overtaken(s, t, v, u)
    ensures u != v
  {
  }

  lemma RefusedIsOther(s: Ctl, v: nat, chip: Chip)
    requires Wf(s) && v < CHANNELS && Queued(s.ch[v])
    ensures RefusedSlot(s, chip) != v && RefusedSlot(s, chip) < CHANNELS
    ensures RefusedSlot(s, chip) >= 0 <==> Refuses(s, Scheduler(chip))
  {
    hide SyncSlot;
  }

  lemma IdleCheck(s: Ctl, e: Step)
    requires Wf(s) && e.Scheduler? && SchedulerRuns(s) && !Attempts(s, e)
    ensures Next(s, e).ch == s.ch && !Refuses(s, e)
  {
  }

  // One step of a run in which v keeps waiting.
  lemma StepOn(s: Ctl, v: nat, es: seq<Step>, ages: seq<nat>) returns (b: seq<nat>)
    requires Calm(s) && v < CHANNELS && Queued(s.ch[v]) && Below(s.ch, v, ages) && es != [] && Safe(s, v, es[0])
    requires ProductivePasses(s, es) > Total(ages, v, AllChecks(s, es), CHANNELS) + Refusals(s, es)
    requires !SentOn(s, Next(s, es[0]), v, MessageOf(s.ch[v].packet))
    ensures var t := Next(s, es[0]);
            && Below(t.ch, v, b)
            && ProductivePasses(t, es[1..]) > Total(b, v, AllChecks(t, es[1..]), CHANNELS) + Refusals(t, es[1..])
  {
    hide *;
    CalmIsWf(s);
    if es[0].Scheduler? && SchedulerRuns(s) {
      ChecksCount(s, es);
      b := AgesAfter(s, v, es[0], ages, AllChecks(s, es));
    } else {
      NoChecksCount(s, es);
      NoCheckBelow(s, v, es[0], ages);
      b := ages;
    }
  }

  /** From any point of a wait above the entry priorities: the packet is sent as soon as
      more productive passes have gone by than its rivals have turns, one more for each
      broadcast refused. */
  lemma {:induction false} SentWithinChances(s: Ctl, v: nat, es: seq<Step>, ages: seq<nat>)
    requires Calm(s) && v < CHANNELS && Queued(s.ch[v]) && Below(s.ch, v, ages) && SafeRun(s, v, es)
    requires ProductivePasses(s, es) > Total(ages, v, AllChecks(s, es), CHANNELS) + Refusals(s, es)
    ensures SentOn(s, Run(s, es), v, MessageOf(s.ch[v].packet))
    decreases |es|
  {
    assert Wf(s);
    hide Calm, Safe, SentOn, Below, Total, Queued, Waited, Next, MessageOf;
    hide ProductivePasses, Refusals, AllChecks, SafeRun, Run;
    RunHead(s, v, es);
    var t := Next(s, es[0]);
    var m := MessageOf(s.ch[v].packet);
    StepExtendsSent(s, es[0]);
    RunExtendsSent(t, es[1..]);
    SentLater(s, t, Run(t, es[1..]), v, m);
    if !SentOn(s, t, v, m) {
      StepKeepsPacket(s, v, es[0]);
      StepVictim(s, t, v, es[0]);
      var b := StepOn(s, v, es, ages);
      SentWithinChances(t, v, es[1..], b);
    }
  }

  lemma RunHead(s: Ctl, v: nat, es: seq<Step>)
    requires Wf(s) && SafeRun(s, v, es) && ProductivePasses(s, es) > 0
    ensures es != [] && Safe(s, v, es[0]) && SafeRun(Next(s, es[0]), v, es[1..])
    ensures Run(s, es) == Run(Next(s, es[0]), es[1..])
  {
    hide Next, Wf, Safe;
  }

  lemma StepVictim(s: Ctl, t: Ctl, v: nat, e: Step)
    requires Wf(s) && Wf(t) && v < CHANNELS && Queued(s.ch[v])
    requires Waited(s, t, v) || t.ch[v] == s.ch[v]
    ensures Queued(t.ch[v]) && MessageOf(t.ch[v].packet) == MessageOf(s.ch[v].packet)
  {
  }

  lemma ChecksCount(s: Ctl, es: seq<Step>)
    requires Wf(s) && es != [] && es[0].Scheduler? && SchedulerRuns(s)
    ensures var t := Next(s, es[0]);
            && AllChecks(s, es) == AllChecks(t, es[1..]) + 1
            && ProductivePasses(s, es) == ProductivePasses(t, es[1..]) + (if Productive(s, es[0]) then 1 else 0)
            && Refusals(s, es) == Refusals(t, es[1..]) + (if Refuses(s, es[0]) then 1 else 0)
  {
    hide Next, Wf;
  }

  lemma NoChecksCount(s: Ctl, es: seq<Step>)
    requires Wf(s) && es != [] && !(es[0].Scheduler? && SchedulerRuns(s))
    ensures var t := Next(s, es[0]);
            && AllChecks(s, es) == AllChecks(t, es[1..])
            && ProductivePasses(s, es) == ProductivePasses(t, es[1..])
            && Refusals(s, es) == Refusals(t, es[1..])
  {
    hide Next, Wf;
  }

  lemma NoCheckBelow(s: Ctl, v: nat, e: Step, ages: seq<nat>)
    requires Calm(s) && v < CHANNELS && Queued(s.ch[v]) && Below(s.ch, v, ages) && Safe(s, v, e)
    requires !(e.Scheduler? && SchedulerRuns(s))
    ensures Below(Next(s, e).ch, v, ages)
  {
    if e.Scheduler? {
      assert Next(s, e).ch == s.ch;
    } else {
      OtherStepUndisturbed(s, v, e);
      hide Next, Calm, Safe;
      OtherStepBelow(s, Next(s, e), v, ages);
    }
  }

  // A packet above the entry priorities

  // The most often that a packet can be passed over in n checks: each of five rivals once,
  // and again whenever it has climbed from its entry priority.
  function Overtakings(n: nat): nat
  {
    if n == 0 then 0 else 5 + (n - 1) / 103 + (n - 1) / 107 + (n - 1) / 111 + (n - 1) / 115 + (n - 1) / 119
  }

  function Ready(): (ages: seq<nat>)
    ensures |ages| == CHANNELS && forall j :: 0 <= j < CHANNELS ==> ages[j] == Climb(j)
  {
    [102, 106, 110, 114, 118, 122]
  }

  lemma ChancesReady(j: nat, n: nat)
    ensures Chances(Climb(j), j, n) == if n == 0 then 0 else 1 + Periods(n - 1, 103 + 4 * j)
  {
  }

  lemma TotalReady(v: nat, n: nat)
    requires v < CHANNELS
    ensures Total(Ready(), v, n, CHANNELS) <= Overtakings(n)
  {
    var a := Ready();
    ChancesReady(0, n);
    ChancesReady(1, n);
    ChancesReady(2, n);
    ChancesReady(3, n);
    ChancesReady(4, n);
    ChancesReady(5, n);
    if n > 0 && v < 5 {
      DivShrinks(n - 1, 103 + 4 * v, 123);
    }
    hide Chances, Ready, Total;
    TotalOfSix(a, v, n);
  }

  lemma TotalOfSix(a: seq<nat>, v: nat, n: nat)
    requires |a| == CHANNELS
    ensures Total(a, v, n, CHANNELS)
            == (if v == 0 then 0 else Chances(a[0], 0, n)) + (if v == 1 then 0 else Chances(a[1], 1, n))
             + (if v == 2 then 0 else Chances(a[2], 2, n)) + (if v == 3 then 0 else Chances(a[3], 3, n))
             + (if v == 4 then 0 else Chances(a[4], 4, n)) + (if v == 5 then 0 else Chances(a[5], 5, n))
  {
    hide Chances;
    TotalStep(a, v, n, 1);
    TotalStep(a, v, n, 2);
    TotalStep(a, v, n, 3);
    TotalStep(a, v, n, 4);
    TotalStep(a, v, n, 5);
    TotalStep(a, v, n, 6);
    assert Total(a, v, n, 0) == 0;
    hide Total;
  }

  lemma TotalStep(a: seq<nat>, v: nat, n: nat, k: nat)
    requires 0 < k <= |a|
    ensures Total(a, v, n, k) == Total(a, v, n, k - 1) + if k - 1 == v then 0 else Chances(a[k - 1], k - 1, n)
  {
  }

  lemma OvertakingsGrow(m: nat, n: nat)
    requires m <= n
    ensures Overtakings(m) <= Overtakings(n)
  {
    if m > 0 {
      DivGrows(m - 1, n - 1, 103);
      DivGrows(m - 1, n - 1, 107);
      DivGrows(m - 1, n - 1, 111);
      DivGrows(m - 1, n - 1, 115);
      DivGrows(m - 1, n - 1, 119);
    }
  }

  /** Above the entry priorities a packet is sent once the productive passes outnumber the
      turns of its rivals, one more for each broadcast refused. */
  lemma RipeIsSent(s: Ctl, v: nat, es: seq<Step>)
    requires Calm(s) && v < CHANNELS && Queued(s.ch[v]) && s.ch[v].priority > 48 && SafeRun(s, v, es)
    requires ProductivePasses(s, es) > Overtakings(AllChecks(s, es)) + Refusals(s, es)
    ensures SentOn(s, Run(s, es), v, MessageOf(s.ch[v].packet))
  {
    TotalReady(v, AllChecks(s, es));
    assert Below(s.ch, v, Ready());
    SentWithinChances(s, v, es, Ready());
    hide *;
  }

  // Ripening

  // Productive passes that age a packet past the entry priorities.
  function Ripening(priority: byte): nat { if priority > 48 then 0 else (50 - priority) / 2 }

  lemma NothingLeftToRipen(priority: byte)
    ensures Ripening(priority) == 0 ==> priority > 48
  {
  }

  lemma StepRipens(s: Ctl, v: nat, e: Step)
    requires Calm(s) && v < CHANNELS && Queued(s.ch[v]) && s.ch[v].priority > 0 && Safe(s, v, e)
    ensures var t := Next(s, e);
            || SentOn(s, t, v, MessageOf(s.ch[v].packet))
            || (&& Calm(t) && StillQueued(s, t, v)
                && (t.ch[v].priority > 48 ||
                    Ripening(t.ch[v].priority) + (if Productive(s, e) then 1 else 0) <= Ripening(s.ch[v].priority)))
  {
    StepKeepsPacket(s, v, e);
    if Productive(s, e) {
      ProductiveAttempts(s, v, e);
    }
    hide Next, Calm, Safe, Attempts, SentOn, Productive, MessageOf;
  }

  lemma {:induction false} Ripens(s: Ctl, v: nat, es: seq<Step>)
    requires Calm(s) && v < CHANNELS && Queued(s.ch[v]) && s.ch[v].priority > 0 && SafeRun(s, v, es)
    ensures var t := Run(s, es);
            || SentOn(s, t, v, MessageOf(s.ch[v].packet))
            || (&& Calm(t) && StillQueued(s, t, v)
                && (t.ch[v].priority > 48 ||
                    Ripening(t.ch[v].priority) + ProductivePasses(s, es) <= Ripening(s.ch[v].priority)))
    decreases |es|
  {
    assert Wf(s);
    if es != [] {
      var t, m := Next(s, es[0]), MessageOf(s.ch[v].packet);
      StepRipens(s, v, es[0]);
      StepExtendsSent(s, es[0]);
      RunExtendsSent(t, es[1..]);
      SentLater(s, t, Run(t, es[1..]), v, m);
      hide Next, Calm, Safe, SentOn, Productive, MessageOf, Ripening;
      if !SentOn(s, t, v, m) {
        KeptVictim(s, t, v);
        Ripens(t, v, es[1..]);
        RipeStaysRipe(s, t, Run(t, es[1..]), v);
      }
    }
  }

  lemma RipeStaysRipe(s: Ctl, t: Ctl, u: Ctl, v: nat)
    requires Wf(s) && Wf(t) && Wf(u) && v < CHANNELS && StillQueued(s, t, v)
    ensures StillQueued(t, u, v) ==> StillQueued(s, u, v) && (t.ch[v].priority > 48 ==> u.ch[v].priority > 48)
  {
    hide MessageOf;
  }

  // The run up to the last ripening pass.
  lemma RipeningPart(s: Ctl, v: nat, es: seq<Step>, n: nat) returns (i: nat)
    requires Wf(s) && SafeRun(s, v, es) && ProductivePasses(s, es) >= n
    ensures i <= |es|
    ensures var t := Run(s, es[..i]);
            && Run(t, es[i..]) == Run(s, es)
            && ProductivePasses(s, es[..i]) == n && ProductivePasses(s, es) == n + ProductivePasses(t, es[i..])
            && AllChecks(t, es[i..]) <= AllChecks(s, es) - n && Refusals(t, es[i..]) <= Refusals(s, es)
            && SafeRun(s, v, es[..i]) && SafeRun(t, v, es[i..])
  {
    hide SafeRun, Run, Wf, ProductivePasses, Setbacks, Refusals;
    i := EnoughPasses(s, es, n);
    RunSplits(s, v, es, i);
  }

  // By then the packet has been sent or is above the entry priorities.
  lemma RipePoint(s: Ctl, v: nat, es: seq<Step>) returns (i: nat)
    requires Calm(s) && v < CHANNELS && Queued(s.ch[v]) && s.ch[v].priority > 0 && SafeRun(s, v, es)
    requires ProductivePasses(s, es) >= Ripening(s.ch[v].priority)
    ensures i <= |es|
    ensures var t := Run(s, es[..i]);
            var n := Ripening(s.ch[v].priority);
            && Run(t, es[i..]) == Run(s, es) && SafeRun(t, v, es[i..])
            && ProductivePasses(s, es) == n + ProductivePasses(t, es[i..])
            && AllChecks(t, es[i..]) <= AllChecks(s, es) - n && Refusals(t, es[i..]) <= Refusals(s, es)
            && (|| SentOn(s, t, v, MessageOf(s.ch[v].packet))
                || (&& Calm(t) && Queued(t.ch[v]) && t.ch[v].priority > 48
                    && MessageOf(t.ch[v].packet) == MessageOf(s.ch[v].packet)))
  {
    assert Wf(s);
    hide Calm, Queued, SafeRun, SentOn, Run, StillQueued, AllChecks, ProductivePasses, Refusals, MessageOf, Ripening;
    i := RipeningPart(s, v, es, Ripening(s.ch[v].priority));
    var t := Run(s, es[..i]);
    Ripens(s, v, es[..i]);
    if !SentOn(s, t, v, MessageOf(s.ch[v].packet)) {
      KeptVictim(s, t, v);
      NothingLeftToRipen(t.ch[v].priority);
    }
  }

  /** No starvation: over any run, with any number of failed sends and time broadcasts, and
      however the host refills the other channels, a queued packet is sent once the
      productive passes outnumber those that ripen it and those that can overtake it, one
      more for each broadcast refused. */
  lemma NoStarvationEver(s: Ctl, v: nat, es: seq<Step>)
    requires Calm(s) && v < CHANNELS && Queued(s.ch[v]) && s.ch[v].priority > 0 && SafeRun(s, v, es)
    requires var ripening := Ripening(s.ch[v].priority);
             && ProductivePasses(s, es) >= ripening
             && ProductivePasses(s, es) > ripening + Overtakings(AllChecks(s, es) - ripening) + Refusals(s, es)
    ensures SentOn(s, Run(s, es), v, MessageOf(s.ch[v].packet))
  {
    hide *;
    CalmIsWf(s);
    var i := RipePoint(s, v, es);
    var t := Run(s, es[..i]);
    SentInParts(s, v, es[..i], es[i..]);
    if !SentOn(s, t, v, MessageOf(s.ch[v].packet)) {
      var ripening := Ripening(s.ch[v].priority);
      Outnumbered(AllChecks(s, es) - ripening, AllChecks(t, es[i..]), Refusals(s, es), Refusals(t, es[i..]));
      RipeIsSent(t, v, es[i..]);
    }
  }

  lemma Outnumbered(n: nat, m: nat, r: nat, q: nat)
    requires m <= n && q <= r
    ensures Overtakings(m) + q <= Overtakings(n) + r
  {
    OvertakingsGrow(m, n);
    hide *;
  }

  lemma SentInParts(s: Ctl, v: nat, es: seq<Step>, fs: seq<Step>)
    requires Wf(s) && v < CHANNELS
    ensures var t := Run(s, es);
            var m := MessageOf(s.ch[v].packet);
            SentOn(s, t, v, m) || SentOn(t, Run(t, fs), v, m) ==> SentOn(s, Run(t, fs), v, m)
  {
    var t := Run(s, es);
    RunExtendsSent(s, es);
    RunExtendsSent(t, fs);
    SentLater(s, t, Run(t, fs), v, MessageOf(s.ch[v].packet));
    hide SentOn, Run;
  }

  // In round numbers

  // Productive passes that make up for a number of setbacks and refusals.
  function Redeeming(setbacks: nat, refusals: nat): nat
  {
    29 + 5 * ((setbacks + refusals) / 98) + refusals
  }

  lemma DivShift(x: nat, b: nat, m: nat, y: nat)
    requires b > 0 && x <= b * m + y
    ensures x / b <= m + y / b
  {
    DivGrows(x, b * m + y, b);
    assert b * m + y == b * (m + y / b) + y % b;
    DivUnique(b * m + y, b, m + y / b, y % b);
  }

  lemma FewLater(d: nat)
    ensures (102 + d) / 103 + (102 + d) / 107 + (102 + d) / 111 + (102 + d) / 115 + (102 + d) / 119 <= d
  {
    var a, b, c, e, f := (102 + d) / 103, (102 + d) / 107, (102 + d) / 111, (102 + d) / 115, (102 + d) / 119;
    assert 103 * a <= 102 + d && 107 * b <= 102 + d && 111 * c <= 102 + d && 115 * e <= 102 + d && 119 * f <= 102 + d;
  }

  lemma RedeemingSuffices(passes: nat, setbacks: nat, refusals: nat, ripening: nat)
    requires passes >= Redeeming(setbacks, refusals) && ripening <= 23
    ensures passes > ripening + Overtakings(passes + setbacks - ripening) + refusals
  {
    var m := (setbacks + refusals) / 98;
    var d := passes - ripening - refusals - 6 - 5 * m;
    var x := passes + setbacks - ripening - 1;
    assert x <= 103 * m + 102 + d;
    DivShift(x, 103, m, 102 + d);
    DivShift(x, 107, m, 102 + d);
    DivShift(x, 111, m, 102 + d);
    DivShift(x, 115, m, 102 + d);
    DivShift(x, 119, m, 102 + d);
    FewLater(d);
  }

  /** No starvation in round numbers: a packet queued at any priority enqueue can give it is
      sent once 29 productive passes have gone by, five more for every 98 time broadcasts
      and failed sends, and one more for each broadcast refused, which also counts twice
      among those. Where all sends succeed and the time does not wrap it is 29. */
  lemma NoStarvation(s: Ctl, v: nat, es: seq<Step>)
    requires Calm(s) && v < CHANNELS && Queued(s.ch[v]) && s.ch[v].priority >= 3 && SafeRun(s, v, es)
    requires ProductivePasses(s, es) >= Redeeming(Setbacks(s, es), Refusals(s, es))
    ensures SentOn(s, Run(s, es), v, MessageOf(s.ch[v].packet))
  {
    hide *;
    CalmIsWf(s);
    ChecksAre(s, es);
    RipeningAtMost23(s.ch[v].priority);
    RedeemingSuffices(ProductivePasses(s, es), Setbacks(s, es), Refusals(s, es), Ripening(s.ch[v].priority));
    EnoughToRipen(ProductivePasses(s, es), Setbacks(s, es), Refusals(s, es));
    NoStarvationEver(s, v, es);
  }

  lemma ChecksAre(s: Ctl, es: seq<Step>)
    requires Wf(s)
    ensures AllChecks(s, es) == ProductivePasses(s, es) + Setbacks(s, es)
  {
  }

  lemma RipeningAtMost23(priority: byte)
    requires priority >= 3
    ensures Ripening(priority) <= 23
  {
  }

  lemma EnoughToRipen(passes: nat, setbacks: nat, refusals: nat)
    requires passes >= Redeeming(setbacks, refusals)
    ensures passes >= 23
  {
  }

  /** From power-on: after any run that disturbs no wait, a line that completes a packet
      for the radio queues it, and the packet goes out. */
  lemma AcceptedPacketIsSent(log: Log, before: seq<Step>, c: char, w: World, es: seq<Step>)
    requires NeverDisturbs(Boot(log), before)
    requires var s := Run(Boot(log), before);
             && Completed(s, c).Some? && s.radio.state == ACTIVE && !ForMe(s.radio, Completed(s, c).value)
             && var t := Next(s, Serial(c, w));
                && SafeRun(t, s.parser.curr, es)
                && ProductivePasses(t, es) >= Redeeming(Setbacks(t, es), Refusals(t, es))
    ensures var s := Run(Boot(log), before);
            var t := Next(s, Serial(c, w));
            && |t.log.queued| == |s.log.queued| + 1
            && t.log.queued[|s.log.queued|] == Entry(s.parser.curr, Completed(s, c).value)
            && SentOn(t, Run(t, es), s.parser.curr, MessageOf(Completed(s, c).value))
  {
    var s := Run(Boot(log), before);
    ReachableIsCalm(log, before);
    hide Run, NeverDisturbs, Boot;
    var t := Next(s, Serial(c, w));
    StepKeepsCalm(s, Serial(c, w));
    PacketIsQueued(s, c, w);
    NoStarvation(t, s.parser.curr, es);
  }

  /** A packet whose priority SET_CHANNEL has zeroed is sent like any other once a check has
      tried to send on some channel. */
  lemma ZeroPriorityIsServed(s: Ctl, v: nat, es: seq<Step>, fs: seq<Step>)
    requires Calm(s) && v < CHANNELS && Queued(s.ch[v]) && s.ch[v].priority == 0
    requires SafeRun(s, v, es) && !NothingTried(s, es)
    requires var t := Run(s, es);
             SafeRun(t, v, fs) && ProductivePasses(t, fs) >= Redeeming(Setbacks(t, fs), Refusals(t, fs)) + 1
    ensures SentOn(s, Run(Run(s, es), fs), v, MessageOf(s.ch[v].packet))
  {
    var t := Run(s, es);
    ZeroPriorityWaits(s, v, es);
    StillWaiting(s, v, es);
    SentInParts(s, v, es, fs);
    hide Run, NothingTried, SafeRun, SentOn, Calm, MessageOf, Redeeming, ProductivePasses, Setbacks, Refusals;
    if !SentOn(s, t, v, MessageOf(s.ch[v].packet)) {
      KeptVictim(s, t, v);
      AnyPriority(t, v, fs);
    }
  }

  // One pass more for a packet at the lowest priorities.
  lemma AnyPriority(s: Ctl, v: nat, es: seq<Step>)
    requires Calm(s) && v < CHANNELS && Queued(s.ch[v]) && s.ch[v].priority > 0 && SafeRun(s, v, es)
    requires ProductivePasses(s, es) >= Redeeming(Setbacks(s, es), Refusals(s, es)) + 1
    ensures SentOn(s, Run(s, es), v, MessageOf(s.ch[v].packet))
  {
    hide *;
    CalmIsWf(s);
    ChecksAre(s, es);
    RedeemingAndOne(ProductivePasses(s, es), Setbacks(s, es), Refusals(s, es), s.ch[v].priority);
    NoStarvationEver(s, v, es);
  }

  lemma RedeemingAndOne(passes: nat, setbacks: nat, refusals: nat, priority: byte)
    requires passes >= Redeeming(setbacks, refusals) + 1 && priority > 0
    ensures var ripening := Ripening(priority);
            passes >= ripening && passes > ripening + Overtakings(passes + setbacks - ripening) + refusals
  {
    EnoughToRipen(passes - 1, setbacks, refusals);
    var ripening := Ripening(priority);
    assert ripening <= 24;
    hide Ripening, Redeeming, Overtakings;
    if ripening > 0 {
      RedeemingSuffices(passes - 1, setbacks, refusals, ripening - 1);
    } else {
      RedeemingSuffices(passes, setbacks, refusals, 0);
    }
  }
}
