// The daemon's supervisor over its globals and the linked timer queue (lrmon/state.c,
// lrmon/main.c, lrmon/response.c), refining the steps of module Supervisor.

module Daemons {
  import opened Text
  import opened TimerQueue
  import opened Supervisor
  import Controllers
  import Status

  class Daemon {
    const timers: TimerList
    const host: Status.Host
    var state: int
    var retries: int
    var failureStatus: int
    var responseReceived: int
    var responseNode: int
    var sent: seq<Msg>          // what has gone to the controller
    var published: seq<string>  // what has gone to third parties
    ghost var credits: nat      // successes since the last reset

    ghost predicate Valid()
      reads this, timers, timers.queue, timers.free
    {
      timers.Valid() && UNKNOWN <= state <= READY
    }

    ghost function Model(): State
      reads this, timers, timers.queue
    {
      State(Local(), timers.Model(), sent)
    }

    ghost function Local(): Sup
      reads this
    {
      Sup(state, retries, failureStatus, responseReceived, responseNode, credits)
    }

    // timer_init and state_init
    constructor ()
      ensures Valid() && Model() == Start() && published == []
      ensures fresh(timers) && fresh(timers.Nodes()) && fresh(host)
    {
      timers := new TimerList();
      host := new Status.Host();
      state, retries := UNKNOWN, 0;
      failureStatus, responseReceived, responseNode := 0, 0, 0;
      sent, credits, published := [], 0, [];
      new;
      timers.TimerInsert(Func.StateMachine, 3);
    }

    // request_local_status, local_activate, set_time, set_date, set_channel, reset_controller
    method Send(m: Msg)
      modifies `sent
      ensures sent == old(sent) + [m]
    {
      sent := sent + [m];
    }

    method DynamicStatusTimer()
      requires Valid()
      modifies `sent, timers, timers.Nodes()
      ensures Valid() && Model() == RunDynamic(old(Model()))
      ensures old(timers.Nodes()) <= timers.Nodes() && fresh(timers.Nodes() - old(timers.Nodes()))
      ensures timers.out == old(timers.out)
    {
      Send(AskStatus(DYNAMIC));
      timers.TimerInsert(DynamicStatus, 300);
    }

    method StateMachine()
      requires Valid()
      modifies this, timers, timers.Nodes()
      ensures Valid() && Model() == RunMachine(old(Model())) && published == old(published)
      ensures old(timers.Nodes()) <= timers.Nodes() && fresh(timers.Nodes() - old(timers.Nodes()))
      ensures timers.out == old(timers.out)
    {
      hide Insert, Remove, Linked, Distinct;
      timers.TimerRemove(Func.StateMachine);
      if state == READY {
        return;
      }
      var ready, nextTimeout := Stages();
      Reschedule(ready, nextTimeout);
      assert sent == old(sent) + [Supervisor.Call(old(Local())).msg];
    }

    method Reschedule(ready: bool, nextTimeout: int)
      requires Valid()
      modifies `sent, timers, timers.Nodes()
      ensures Valid() && timers.out == old(timers.out)
      ensures old(timers.Nodes()) <= timers.Nodes() && fresh(timers.Nodes() - old(timers.Nodes()))
      ensures var q := old(timers.Model());
              var p := if ready then Insert(q, DynamicStatus, 300) else q;
              timers.Model() == Insert(p, Func.StateMachine, nextTimeout)
      ensures sent == old(sent) + if ready then [AskStatus(DYNAMIC)] else []
    {
      hide Insert;
      if ready {
        DynamicStatusTimer();
      }
      timers.TimerInsert(Func.StateMachine, nextTimeout);
    }

    // The switch with its fall-through: each stage either sends its request and leaves,
    // or finds it answered and goes on to the next.
    method Stages() returns (ready: bool, nextTimeout: int)
      requires UNKNOWN <= state < READY
      modifies `state, `retries, `failureStatus, `responseReceived, `sent, `credits
      ensures var o := Call(old(Local()));
              && Local() == o.sup && nextTimeout == o.delay
              && ready == (state == READY) && (ready ==> o.msg == AskStatus(DYNAMIC))
              && sent == old(sent) + if ready then [] else [o.msg]
      ensures UNKNOWN <= state <= READY
    {
      ready, nextTimeout := false, 5;
      if retries > 10 {
        state := SEND_RESET;
      }
      if state == SEND_RESET {
        Send(ResetBoard);
        state, retries, credits := UNKNOWN, 0, 0;
        return;
      }
      if state == UNKNOWN {
        responseReceived, retries := 0, 0;
        state := SREQUEST;
      }
      if state == SREQUEST {
        if responseReceived == 0 {
          nextTimeout := 3;
          Send(AskStatus(STATIC));
          retries := retries + 1;
          return;
        }
        state := DREQUEST;
        responseReceived, retries := 0, 0;
      }
      if state == DREQUEST {
        if responseReceived == 0 {
          Send(AskStatus(DYNAMIC));
          retries := retries + 1;
          return;
        }
        retries := 0;
        if responseNode == 1 {
          state := SET_TIME;
          failureStatus := -1;
          Send(SetTime);
          return;
        }
        state := ACTIVATE;
        failureStatus := -1;
      }
      ready := Settings();
    }

    // The stages from ACTIVATE on.
    method Settings() returns (ready: bool)
      requires ACTIVATE <= state < READY
      modifies `state, `retries, `failureStatus, `sent
      ensures var s := old(Local());
              if s.failure != 0 then
                && state == s.stage && retries == s.retries + 1 && failureStatus == s.failure
                && !ready && sent == old(sent) + [Request(s.stage)]
              else
                && state == s.stage + 1 && retries == (if s.stage < CH0 then 1 else 0)
                && failureStatus == (if s.stage == CH3 then 0 else -1)
                && ready == (s.stage == CH3)
                && sent == old(sent) + if ready then [] else [Opening(state)]
    {
      ready := false;
      if state == ACTIVATE {
        if failureStatus != 0 {
          Send(LocalActivate);
          retries := retries + 1;
          return;
        }
        failureStatus := -1;
        state := SET_TIME;
        retries := 0;
      }
      if state == SET_TIME {
        if failureStatus != 0 {
          Send(SetTime);
          retries := retries + 1;
          return;
        }
        failureStatus := -1;
        state := SET_DATE;
        retries := 0;
      }
      if state == SET_DATE {
        if failureStatus != 0 {
          Send(SetDate);
          retries := retries + 1;
          return;
        }
        failureStatus := -1;
        state := CH0;
        retries := 0;
      }
      var i := state - CH0;
      var chstate := if i == 3 then Controllers.READ else Controllers.EMPTY;
      if failureStatus != 0 {
        Send(SetChannel(i, chstate));
        retries := retries + 1;
        return;
      }
      retries := 0;
      if state == CH3 {
        state := READY;
        ready := true;
        return;
      }
      failureStatus := -1;
      state := state + 1;
      chstate := if i == 3 then Controllers.READ else Controllers.EMPTY;
      Send(SetChannel(state - CH0, chstate));
    }

    method TimerExpiry()
      requires Valid()
      modifies this, timers, timers.Nodes()
      ensures Valid() && Model() == Expiry(old(Model()))
      ensures old(timers.Nodes()) <= timers.Nodes() && fresh(timers.Nodes() - old(timers.Nodes()))
    {
      hide Insert, Remove, Call, Expire, RunMachine, RunDynamic, Linked, Distinct;
      var runq := timers.TakeExpired();
      if runq == null {
        return;
      }
      if runq.func.StateMachine? {
        StateMachine();
      } else {
        DynamicStatusTimer();
      }
      timers.ReleaseNode(runq);   // runq.next was null: nothing else is run
    }

    // The acting half of parse_data, with response().
    method TakeLine(line: array<char>, start: nat)
      requires Valid() && Status.Terminated(line[..], start)
      modifies this, timers, timers.Nodes(), host, line
      ensures var m := Status.ParseLine(old(Status.CStr(line[..], start)));
              && Valid() && Model() == Take(old(Model()), m)
              && (if m.Report? && m.node < 2 then
                    && host.dstatus == Status.DynamicAfter(old(host.dstatus), Reported(m.args))
                    && host.sstatus == Status.StaticAfter(old(host.sstatus), Reported(m.args))
                  else host.dstatus == old(host.dstatus) && host.sstatus == old(host.sstatus))
              && published == old(published) + if m.Report? then [Json(m.chan, m.node, m.ticks, m.args)] else []
      ensures old(timers.Nodes()) <= timers.Nodes() && fresh(timers.Nodes() - old(timers.Nodes()))
    {
      hide Insert, Remove, Call, RunMachine, Status.ParseLine, Reported, Json, Linked, Distinct;
      var m, argp := Status.Host.ParseData(line, start);
      match m {
        case Ignored =>
        case Good =>
          failureStatus, credits := 0, credits + 1;
          StateMachine();
        case Bad(code) =>
          failureStatus := code;
          StateMachine();
        case Report(chan, node, ticks, args) =>
          TakeReport(chan, node, ticks, line, argp);
      }
    }

    method TakeReport(chan: int, node: int, ticks: int, line: array<char>, argp: nat)
      requires Valid() && Status.Terminated(line[..], argp)
      modifies this, timers, timers.Nodes(), host, line
      ensures var args := old(Status.CStr(line[..], argp));
              && Valid() && Model() == Take(old(Model()), Status.Report(chan, node, ticks, args))
              && (if node < 2 then
                    && host.dstatus == Status.DynamicAfter(old(host.dstatus), Reported(args))
                    && host.sstatus == Status.StaticAfter(old(host.sstatus), Reported(args))
                  else host.dstatus == old(host.dstatus) && host.sstatus == old(host.sstatus))
              && published == old(published) + [Json(chan, node, ticks, args)]
      ensures old(timers.Nodes()) <= timers.Nodes() && fresh(timers.Nodes() - old(timers.Nodes()))
    {
      hide Insert, Remove, Call, RunMachine, Reported, Json, Linked, Distinct;
      failureStatus, credits := 0, credits + 1;
      Response(chan, node, ticks, line, argp);
      StateMachine();
    }

    method Response(chan: int, node: int, ticks: int, line: array<char>, argp: nat)
      requires Status.Terminated(line[..], argp)
      modifies `responseReceived, `responseNode, `published, host, line
      ensures responseReceived == old(responseReceived) + 1 && responseNode == node
      ensures published == old(published) + [Json(chan, node, ticks, old(Status.CStr(line[..], argp)))]
      ensures var ns := Reported(old(Status.CStr(line[..], argp)));
              && host.dstatus == (if node < 2 then Status.DynamicAfter(old(host.dstatus), ns) else old(host.dstatus))
              && host.sstatus == (if node < 2 then Status.StaticAfter(old(host.sstatus), ns) else old(host.sstatus))
    {
      hide Json, Status.CStr;
      responseReceived := responseReceived + 1;
      responseNode := node;
      published := published + [Json(chan, node, ticks, Status.CStr(line[..], argp))];
      if node < 2 {
        host.LocalResponse(line, argp);
      }
    }
  }

  // The numbers of a status report.
  function Reported(args: string): seq<int>
  {
    Status.Numbers(Fields(args, 16, ','))
  }

  // A status response as it is published.
  function NameAndNumber(name: string, value: int): string { name + ":" + Dec(value) }

  function Joined(a: string, b: string): string { a + ([','] + b) }

  function List(args: string): string { "\"data\":[" + args + "]}" }

  function Json(chan: int, node: int, ticks: int, args: string): string
  {
    Joined(NameAndNumber("{\"chan\"", chan),
      Joined(NameAndNumber("\"node\"", node),
        Joined(NameAndNumber("\"cmd\"", 9),
          Joined(NameAndNumber("\"ticks\"", ticks), List(args)))))
  }

  // A member of the published object: its name and its number.
  ghost predicate Member(text: string, name: string, value: int)
  {
    var f := Fields(text, 2, ':');
    |f| == 2 && f[0] == name && Atoi(f[1]) == value
  }

  lemma MemberOf(name: string, value: nat)
    requires ':' !in name && ',' !in name
    ensures Member(NameAndNumber(name, value), name, value) && ',' !in NameAndNumber(name, value)
  {
    DecHasNo(value, ':');
    DecHasNo(value, ',');
    AtoiReadsDec(value);
    hide Dec, Atoi;
    FieldsCons(name, 2, ':', Dec(value));
    FieldsOfOne(Dec(value), 1, ':');
    assert NameAndNumber(name, value) == name + ([':'] + Dec(value));
  }

  lemma FirstFour(a: string, b: string, c: string, d: string, rest: string)
    requires ',' !in a && ',' !in b && ',' !in c && ',' !in d
    ensures Fields(Joined(a, Joined(b, Joined(c, Joined(d, rest)))), 4, ',') == [a, b, c, d]
  {
    NoFields(rest);
    hide Fields;
    FieldsCons(a, 4, ',', Joined(b, Joined(c, Joined(d, rest))));
    FieldsCons(b, 3, ',', Joined(c, Joined(d, rest)));
    FieldsCons(c, 2, ',', Joined(d, rest));
    FieldsCons(d, 1, ',', rest);
    hide Joined;
  }

  lemma NoFields(text: string)
    ensures Fields(text, 0, ',') == []
  {
  }

  lemma EndsWith(a: string, b: string, text: string)
    requires |text| <= |b| && b[|b| - |text|..] == text
    ensures |text| <= |Joined(a, b)| && Joined(a, b)[|Joined(a, b)| - |text|..] == text
  {
  }

  /** What is published holds the response's channel, node, command and ticks under their
      names, and its list as it came. */
  lemma PublishedMembers(chan: nat, node: nat, ticks: nat, args: string)
    ensures var text := Json(chan, node, ticks, args);
            var f := Fields(text, 4, ',');
            var data := "\"data\":[" + args + "]}";
            && |f| == 4
            && Member(f[0], "{\"chan\"", chan) && Member(f[1], "\"node\"", node)
            && Member(f[2], "\"cmd\"", 9) && Member(f[3], "\"ticks\"", ticks)
            && |data| <= |text| && text[|text| - |data|..] == data
  {
    hide Dec, Member, Fields, NameAndNumber, Joined;
    var a, b := NameAndNumber("{\"chan\"", chan), NameAndNumber("\"node\"", node);
    var c, d := NameAndNumber("\"cmd\"", 9), NameAndNumber("\"ticks\"", ticks);
    var list := List(args);
    MemberOf("{\"chan\"", chan);
    MemberOf("\"node\"", node);
    MemberOf("\"cmd\"", 9);
    MemberOf("\"ticks\"", ticks);
    FirstFour(a, b, c, d, list);
    EndsWith(d, list, list);
    EndsWith(c, Joined(d, list), list);
    EndsWith(b, Joined(c, Joined(d, list)), list);
    EndsWith(a, Joined(b, Joined(c, Joined(d, list))), list);
  }

  function Power10(k: nat): nat { if k == 0 then 1 else 10 * Power10(k - 1) }

  lemma {:induction false} DigitsNeeded(n: nat, k: nat)
    requires k > 0 && n < Power10(k)
    ensures |DecNat(n)| <= k
    decreases k
  {
    if n >= 10 {
      DigitsNeeded(n / 10, k - 1);
    }
  }

  /** The text of any response that is understood fits the memory set aside for it, which
      is the length of its list and 64 bytes more. */
  lemma PublishedTextFits(line: string)
    requires var m := Status.ParseLine(line); m.Report? && m.ticks < 0x8000_0000
    ensures var m := Status.ParseLine(line);
            |Json(m.chan, m.node, m.ticks, m.args)| + 1 <= |m.args| + 64
  {
    var m := Status.ParseLine(line);
    assert 0 <= m.chan <= 15 && 0 <= m.node <= 255 && 0 <= m.ticks by { hide Atoi, Fields; }
    hide Status.ParseLine;
    assert Power10(2) == 100;
    assert Power10(3) == 1000;
    assert Power10(10) == 10_000_000_000;
    DigitsNeeded(m.chan, 2);
    DigitsNeeded(m.node, 3);
    DigitsNeeded(m.ticks, 10);
    hide Power10, DecNat;
  }
}
