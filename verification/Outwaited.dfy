// Starvation by failed sends: as long as the chip refuses 114 sends for every five it
// takes, the host can keep a packet waiting for ever.

module Outwaited {
  import opened Bytes
  import opened Text
  import opened Packets
  import opened Radios
  import opened Devices
  import opened Controllers
  import opened Starvation
  import opened Printer
  import opened RoundTrip
  import opened Script
  import opened BrokenWait

  const BUSY := Chip(true, false, 0, true, true)

  // A command for client 9.
  function RefillLine(k: nat): string { Sent(CommandLine(k, 9, 17, [])) }

  // The controller between two lines.
  ghost predicate BetweenLines(s: Ctl)
  {
    && Wf(s) && SchedulerRuns(s) && !Wraps(s) && s.parser.io == NEWLINE
    && s.radio.state == ACTIVE && s.radio.powered && s.radio.myNode == 1
  }

  ghost predicate Holds(c: Channel, priority: byte) { c.state == TRANSMIT && c.priority == priority }

  ghost predicate Free(c: Channel) { c.state <= EMPTY && c.priority == 0 }

  // A packet on channel 5 has waited to the ceiling.
  ghost predicate Victim(s: Ctl) { BetweenLines(s) && Holds(s.ch[5], 0xfc) }

  // The first k of its five rivals have been refilled.
  ghost predicate Filling(s: Ctl, k: nat)
  {
    && Victim(s)
    && (forall j :: 0 <= j < k && j < 5 ==> Holds(s.ch[j], EntryPriority(0, j)))
    && (forall j :: k <= j < 5 ==> Free(s.ch[j]))
  }

  ghost predicate Outwaiting(s: Ctl) { Filling(s, 0) }

  // The first k rivals have been sent, the others are at the ceiling or about to be.
  ghost predicate Ripe(s: Ctl, k: nat)
  {
    && Victim(s)
    && (forall j :: 0 <= j < k && j < 5 ==> Free(s.ch[j]))
    && (forall j :: k <= j < 4 ==> Holds(s.ch[j], 0xfc))
    && (k <= 4 ==> Holds(s.ch[4], 244 + 2 * k))
  }

  // A line queues its packet and touches no other channel.
  lemma Refills(s: Ctl, k: nat)
    requires BetweenLines(s) && k < CHANNELS && Free(s.ch[k])
    ensures var t := Run(s, Typed(RefillLine(k), POWERED));
            && BetweenLines(t) && t.log.sent == s.log.sent && Holds(t.ch[k], EntryPriority(0, k))
            && t.ch == s.ch[k := t.ch[k]] && t.radio == s.radio && t.lastModulo == s.lastModulo && t.resp == s.resp
  {
    TypedCommand(s, k, 9, 17, [], POWERED);
    CommandedIs(s.ch[k].packet, 9, 17, []);
    RefillExecuted(s, k, Commanded(s.ch[k].packet, 9, 17, []));
    hide Run, Typed, Commanded, CommandLine, Executed, Wf;
  }

  lemma RefillExecuted(s: Ctl, k: nat, p: Packet)
    requires BetweenLines(s) && k < CHANNELS && Free(s.ch[k]) && p.len == 0 && p.node == 9 && p.cmd == 17
    ensures var t := Executed(s, k, p, POWERED);
            && BetweenLines(t) && t.log.sent == s.log.sent && Holds(t.ch[k], EntryPriority(0, k))
            && t.ch == s.ch[k := t.ch[k]] && t.radio == s.radio && t.lastModulo == s.lastModulo && t.resp == s.resp
  {
    hide MyCommand, MyCommandCode;
  }

  function Refilling(k: nat): seq<Step>
  {
    if k == 0 then [] else Refilling(k - 1) + Typed(RefillLine(k - 1), POWERED)
  }

  lemma {:induction false} RivalsRefilled(s: Ctl, k: nat)
    requires Outwaiting(s) && k <= 5
    ensures var t := Run(s, Refilling(k));
            Filling(t, k) && t.ch[5] == s.ch[5] && t.log.sent == s.log.sent
  {
    hide Run, Typed, RefillLine, BetweenLines;
    FillingIsWf(s, 0);
    if k == 0 {
      NoSteps(s);
    } else {
      RivalsRefilled(s, k - 1);
      Refills(Run(s, Refilling(k - 1)), k - 1);
      RunAppend(s, Refilling(k - 1), Typed(RefillLine(k - 1), POWERED));
    }
  }

  lemma FillingIsWf(s: Ctl, k: nat)
    requires Filling(s, k)
    ensures Wf(s)
  {
  }

  // Failed sends age what is queued and change nothing else that matters here.
  lemma FailuresAge(s: Ctl, n: nat)
    requires BetweenLines(s) && exists c :: 0 <= c < CHANNELS && Eligible(s.ch[c])
    ensures var t := Run(s, Tries(BUSY, n));
            && BetweenLines(t) && t.log.sent == s.log.sent
            && forall c :: 0 <= c < CHANNELS ==>
                 t.ch[c] == (if s.ch[c].state < TRANSMIT then s.ch[c]
                             else s.ch[c].(priority := AgedBy(s.ch[c].priority, n)))
  {
    FailedPasses(s, BUSY, n);
    hide Run, Tries, AgedBy, Eligible;
  }

  lemma FailuresRipen(s: Ctl)
    requires Filling(s, 5)
    ensures var t := Run(s, Tries(BUSY, 114));
            Ripe(t, 0) && t.ch[5] == s.ch[5] && t.log.sent == s.log.sent
  {
    hide Run, Tries, AgedBy, BetweenLines;
    FillingIsWf(s, 5);
    assert Eligible(s.ch[5]);
    FailuresAge(s, 114);
    AgedByIs(48, 114);
    AgedByIs(40, 114);
    AgedByIs(32, 114);
    AgedByIs(24, 114);
    AgedByIs(16, 114);
    AgedByIs(0xfc, 114);
  }

  // The lowest rival at the ceiling goes before the victim.
  lemma RivalGoesFirst(s: Ctl, k: nat)
    requires Ripe(s, k) && k < 5
    ensures var t := Next(s, Scheduler(WILLING));
            && Ripe(t, k + 1) && t.ch[5] == s.ch[5]
            && |t.log.sent| == |s.log.sent| + 1 && s.log.sent <= t.log.sent && t.log.sent[|s.log.sent|].channel == k
  {
    PickIsBest(s.ch, CHANNELS);
    assert Eligible(s.ch[k]);
    assert Pick(s.ch, CHANNELS) == k;
    hide Stamped, Pick;
  }

  // n more packets have been sent, none of them the victim.
  ghost predicate RivalsSent(before: seq<Entry>, after: seq<Entry>, n: nat)
  {
    && |after| == |before| + n && before <= after
    && forall i :: |before| <= i < |after| ==> after[i].channel < 5
  }

  lemma RivalsSentAdds(a: seq<Entry>, b: seq<Entry>, c: seq<Entry>, m: nat, n: nat)
    requires RivalsSent(a, b, m) && RivalsSent(b, c, n)
    ensures RivalsSent(a, c, m + n)
  {
    forall i | |a| <= i < |c| ensures c[i].channel < 5 {
      if i < |b| {
        assert c[i] == b[i];
      }
    }
  }

  lemma {:induction false} RivalsGoFirst(s: Ctl, k: nat)
    requires Ripe(s, k) && k <= 5
    ensures var t := Run(s, Tries(WILLING, 5 - k));
            Ripe(t, 5) && t.ch[5] == s.ch[5] && RivalsSent(s.log.sent, t.log.sent, 5 - k)
    decreases 5 - k
  {
    hide Next, BetweenLines, Stuck;
    RipeIsWf(s, k);
    if k < 5 {
      var t := Next(s, Scheduler(WILLING));
      RivalGoesFirst(s, k);
      RivalsGoFirst(t, k + 1);
      assert RivalsSent(s.log.sent, t.log.sent, 1);
      RivalsSentAdds(s.log.sent, t.log.sent, Run(t, Tries(WILLING, 4 - k)).log.sent, 1, 4 - k);
      assert Tries(WILLING, 5 - k)[1..] == Tries(WILLING, 4 - k) && Tries(WILLING, 5 - k)[0] == Scheduler(WILLING);
    }
  }

  lemma RipeIsWf(s: Ctl, k: nat)
    requires Ripe(s, k)
    ensures Wf(s)
    ensures k == 5 ==> Outwaiting(s)
  {
  }

  function Round(): seq<Step> { Refilling(5) + Tries(BUSY, 114) + Tries(WILLING, 5) }

  lemma OneRound(s: Ctl)
    requires Outwaiting(s)
    ensures var t := Run(s, Round());
            Outwaiting(t) && t.ch[5] == s.ch[5] && RivalsSent(s.log.sent, t.log.sent, 5)
  {
    hide *;
    FillingIsWf(s, 0) by { OutwaitingIsFilling(s); }
    RivalsRefilled(s, 5);
    var t := Run(s, Refilling(5));
    FailuresRipen(t);
    RivalsGoFirst(Run(t, Tries(BUSY, 114)), 0);
    RipeIsWf(Run(Run(t, Tries(BUSY, 114)), Tries(WILLING, 5)), 5);
    RoundIs(s);
  }

  lemma OutwaitingIsFilling(s: Ctl)
    requires Outwaiting(s)
    ensures Filling(s, 0)
  {
  }

  lemma RoundIs(s: Ctl)
    requires Wf(s)
    ensures Run(s, Round()) == Run(Run(Run(s, Refilling(5)), Tries(BUSY, 114)), Tries(WILLING, 5))
  {
    hide Run, Refilling, Tries, Wf;
    RunAppend(s, Refilling(5), Tries(BUSY, 114));
    RunAppend(s, Refilling(5) + Tries(BUSY, 114), Tries(WILLING, 5));
  }

  function Rounds(n: nat): seq<Step> { if n == 0 then [] else Round() + Rounds(n - 1) }

  /** For every number of rounds, each with 114 failed sends and five successful ones, there
      is a run in which the packet on channel 5 is never sent. */
  lemma {:induction false} StarvesForEver(s: Ctl, n: nat)
    requires Outwaiting(s)
    ensures var t := Run(s, Rounds(n));
            Outwaiting(t) && t.ch[5] == s.ch[5] && RivalsSent(s.log.sent, t.log.sent, 5 * n)
    decreases n
  {
    hide Run, Round, Outwaiting, Wf;
    OutwaitingIsWf(s);
    NoSteps(s);
    if n > 0 {
      var t := Run(s, Round());
      OneRound(s);
      hide RivalsSent;
      StarvesForEver(t, n - 1);
      OutwaitingIsWf(t);
      RunAppend(s, Round(), Rounds(n - 1));
      RivalsSentAdds(s.log.sent, t.log.sent, Run(t, Rounds(n - 1)).log.sent, 5, 5 * (n - 1));
    }
  }

  lemma NoSteps(s: Ctl)
    requires Wf(s)
    ensures Run(s, []) == s
  {
  }

  lemma OutwaitingIsWf(s: Ctl)
    requires Outwaiting(s)
    ensures Wf(s) && s.log.sent == s.log.sent + []
  {
  }

  /** Such a state is reached from power-on: activation, one command on channel 5, and 122
      refused sends. */
  lemma OutwaitingIsReached()
    ensures var es := Typed(ActivateLine(), POWERED) + Typed(RefillLine(5), POWERED) + Tries(BUSY, 122);
            Outwaiting(Run(Boot(NO_LOG), es))
  {
    hide Run, Boot, Typed, Tries, ActivateLine, RefillLine, AgedBy, Activated;
    HostActivates();
    var a := Run(Boot(NO_LOG), Typed(ActivateLine(), POWERED));
    ActivatedFree(a);
    Refills(a, 5);
    hide BetweenLines;
    var t := Run(a, Typed(RefillLine(5), POWERED));
    assert Eligible(t.ch[5]);
    FailuresAge(t, 122);
    AgedByIs(8, 122);
    RunAppend(Boot(NO_LOG), Typed(ActivateLine(), POWERED), Typed(RefillLine(5), POWERED));
    RunAppend(Boot(NO_LOG), Typed(ActivateLine(), POWERED) + Typed(RefillLine(5), POWERED), Tries(BUSY, 122));
  }

  lemma ActivatedFree(s: Ctl)
    requires Activated(s)
    ensures BetweenLines(s) && forall c :: 0 <= c < CHANNELS ==> Free(s.ch[c])
  {
  }
}
