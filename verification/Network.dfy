// Any number of clients sharing the air: who acts on a packet.

module Network {
  import opened Bytes
  import opened Packets
  import opened Radios
  import opened Clients

  datatype Address = Address(channel: byte, node: byte)

  // The plan the activation broadcasts follow.
  type Plan = map<Identity, Address>

  ghost predicate Injective(plan: Plan)
  {
    && (forall i :: i in plan ==> plan[i].node != 0)
    && (forall i, j :: i in plan && j in plan && i != j ==> plan[i] != plan[j])
  }

  function Target(p: Packet): Identity
  {
    Identity(p.data[2], p.data[3], p.data[4], p.data[5])
  }

  ghost predicate AsPlanned(plan: Plan, p: Packet)
  {
    p.cmd == CMD_ACTIVATE && p.len == 6 ==>
      Target(p) in plan && plan[Target(p)] == Address(p.data[0], p.data[1])
  }

  // A packet on a channel reaches those listeners whose radio is tuned to it. That is not
  // always the channel they have been assigned: only a reception or a restart of the
  // receiver retunes the radio. Between packets clients take steps of their own, garbled
  // receptions included.
  datatype NetEvent =
    | Air(channel: byte, packet: Packet, clock: word, listeners: set<nat>)
    | Local(who: nat, event: Clients.Event)

  ghost predicate Allowed(plan: Plan, cs: seq<Client>, e: NetEvent)
  {
    match e
    case Air(_, p, _, _) => p.len <= MAX_PAYLOAD && AsPlanned(plan, p)
    case Local(i, ev) =>
      i < |cs| && (ev.Pass? ==> Silent(ev, cs[i].slot)) &&
      (ev.Application? ==> cs[i].radio.state >= ACTIVE)
  }

  ghost predicate AllTuned(cs: seq<Client>)
  {
    forall i :: 0 <= i < |cs| ==> Tuned(cs[i].radio)
  }

  predicate Reached(c: Client, i: nat, channel: byte, listeners: set<nat>)
  {
    i in listeners && c.radio.currChannel == channel
  }

  function Hear(c: Client, p: Packet, clock: word): (d: Client)
    requires Tuned(c.radio) && p.len <= MAX_PAYLOAD
    ensures Tuned(d.radio)
  {
    Step(c, Pass(true, Frame(Stamped(p, clock))))
  }

  ghost function NetStep(plan: Plan, cs: seq<Client>, e: NetEvent): (ds: seq<Client>)
    requires AllTuned(cs) && Allowed(plan, cs, e)
    ensures AllTuned(ds) && |ds| == |cs|
  {
    match e
    case Air(channel, p, clock, listeners) =>
      seq(|cs|, i requires 0 <= i < |cs| =>
        if Reached(cs[i], i, channel, listeners) then Hear(cs[i], p, clock) else cs[i])
    case Local(i, ev) => cs[i := Step(cs[i], ev)]
  }

  ghost predicate AllAllowed(plan: Plan, cs: seq<Client>, es: seq<NetEvent>)
    requires AllTuned(cs)
    decreases |es|
  {
    es == [] || (Allowed(plan, cs, es[0]) && AllAllowed(plan, NetStep(plan, cs, es[0]), es[1..]))
  }

  ghost function NetRun(plan: Plan, cs: seq<Client>, es: seq<NetEvent>): (ds: seq<Client>)
    requires AllTuned(cs) && AllAllowed(plan, cs, es)
    ensures AllTuned(ds) && |ds| == |cs|
    decreases |es|
  {
    if es == [] then cs else NetRun(plan, NetStep(plan, cs, es[0]), es[1..])
  }

  ghost predicate AtHome(plan: Plan, r: Radio)
  {
    r.state >= ACTIVE ==> r.id in plan && plan[r.id] == Address(r.myChannel, r.myNode)
  }

  ghost predicate DistinctIds(cs: seq<Client>)
  {
    forall i, j :: 0 <= i < |cs| && 0 <= j < |cs| && i != j ==> cs[i].radio.id != cs[j].radio.id
  }

  ghost predicate Orderly(plan: Plan, cs: seq<Client>)
  {
    && Injective(plan) && AllTuned(cs) && DistinctIds(cs)
    && forall i :: 0 <= i < |cs| ==> AtHome(plan, cs[i].radio)
  }

  // The packet is executed rather than merely heard.
  predicate Obeys(r: Radio, p: Packet)
  {
    Addressed(r, p) &&
    if p.cmd == CMD_ACTIVATE then p.len == 6 && Target(p) == r.id else r.state >= ACTIVE
  }

  /** A client that does not obey a packet is changed by nothing but its reception. */
  lemma OthersOnlyHear(r: Radio, slot: Packet, fifo: seq<byte>)
    requires Tuned(r) && Hears(slot, fifo)
    ensures !Obeys(r, Received(slot, fifo)) ==>
              HandlePacket(r, slot, fifo) == Receive(r, slot, fifo, r.myChannel)
  {
  }

  lemma LocalStaysAtHome(plan: Plan, c: Client, ev: Clients.Event)
    requires Tuned(c.radio) && AtHome(plan, c.radio) && (ev.Pass? ==> Silent(ev, c.slot))
    requires ev.Application? ==> c.radio.state >= ACTIVE
    ensures AtHome(plan, Step(c, ev).radio) && Step(c, ev).radio.id == c.radio.id
  {
    if ev.Pass? {
      hide AfterWait, Hears;
      var r := c.radio.(threadOk := false);
      AfterWaitStaysAtHome(plan, if ev.woken then HandlePacket(SetDelay(r, 5), c.slot, ev.fifo) else r);
    }
  }

  lemma AfterWaitStaysAtHome(plan: Plan, r: Radio)
    requires Tuned(r) && AtHome(plan, r)
    ensures AtHome(plan, AfterWait(r)) && AfterWait(r).id == r.id
  {
  }

  lemma CommandStaysAtHome(plan: Plan, r: Radio, p: Packet)
    requires Tuned(r) && AtHome(plan, r) && p.len <= MAX_PAYLOAD && AsPlanned(plan, p)
    ensures AtHome(plan, Command(r, p)) && Command(r, p).id == r.id
  {
  }

  lemma SameMessageAsPlanned(plan: Plan, p: Packet, q: Packet)
    requires p.len <= MAX_PAYLOAD && q.len <= MAX_PAYLOAD && MessageOf(p) == MessageOf(q)
    requires AsPlanned(plan, p)
    ensures AsPlanned(plan, q)
  {
    assert p.len == |MessageOf(p).payload| == |MessageOf(q).payload| == q.len;
    if p.len == 6 {
      assert forall k :: 0 <= k < 6 ==> q.data[k] == q.data[..6][k] == p.data[..6][k] == p.data[k];
    }
  }

  lemma HearStaysAtHome(plan: Plan, c: Client, p: Packet, clock: word)
    requires Tuned(c.radio) && AtHome(plan, c.radio)
    requires p.len <= MAX_PAYLOAD && AsPlanned(plan, p)
    ensures AtHome(plan, Hear(c, p, clock).radio) && Hear(c, p, clock).radio.id == c.radio.id
  {
    var fifo := Frame(Stamped(p, clock));
    FrameRoundTrip(c.slot, p, clock, []);
    assert fifo + [] == fifo;
    SameMessageAsPlanned(plan, p, Received(c.slot, fifo));
    var r := SetDelay(c.radio.(threadOk := false), 5);
    CommandStaysAtHome(plan, Receive(r, c.slot, fifo, r.myChannel), Received(c.slot, fifo));
    AfterWaitStaysAtHome(plan, HandlePacket(r, c.slot, fifo));
  }

  /** Over every run that follows the plan, each activated client sits at the address
      the plan gives its identity. */
  lemma {:induction false} RunStaysOrderly(plan: Plan, cs: seq<Client>, es: seq<NetEvent>)
    requires Orderly(plan, cs) && AllAllowed(plan, cs, es)
    ensures Orderly(plan, NetRun(plan, cs, es))
    decreases |es|
  {
    if es != [] {
      var ds := NetStep(plan, cs, es[0]);
      forall i | 0 <= i < |cs|
        ensures AtHome(plan, ds[i].radio) && ds[i].radio.id == cs[i].radio.id
      {
        match es[0] {
          case Air(channel, p, clock, _) => HearStaysAtHome(plan, cs[i], p, clock);
          case Local(j, ev) => if i == j { LocalStaysAtHome(plan, cs[i], ev); }
        }
      }
      RunStaysOrderly(plan, ds, es[1..]);
    }
  }

  // Tuned to the channel and executing the packet.
  predicate ActsOn(r: Radio, channel: byte, p: Packet)
  {
    r.currChannel == channel && Obeys(r, p)
  }

  /** An activation is obeyed by at most one client, on whatever channel it is heard. */
  lemma AtMostOneActivates(plan: Plan, cs: seq<Client>, es: seq<NetEvent>, channel: byte, p: Packet, i: nat, j: nat)
    requires Orderly(plan, cs) && AllAllowed(plan, cs, es) && p.cmd == CMD_ACTIVATE
    ensures var ds := NetRun(plan, cs, es);
            i < |ds| && j < |ds| && ActsOn(ds[i].radio, channel, p) && ActsOn(ds[j].radio, channel, p) ==> i == j
  {
    RunStaysOrderly(plan, cs, es);
    hide NetRun, AllAllowed;
  }

  // Unicasts

  ghost predicate Unicast(p: Packet) { p.cmd != CMD_ACTIVATE && p.node != 0 }

  // Active, and still tuned to a channel that is not its own.
  predicate Straggling(r: Radio) { r.state >= ACTIVE && r.currChannel != r.myChannel }

  predicate Straggler(r: Radio, channel: byte, node: byte)
  {
    Straggling(r) && r.currChannel == channel && r.myNode == node
  }

  ghost predicate NoStraggler(ds: seq<Client>, channel: byte, node: byte)
  {
    forall i :: 0 <= i < |ds| ==> !Straggler(ds[i].radio, channel, node)
  }

  // A straggler shares channel and node with another active client.
  ghost predicate Crowded(ds: seq<Client>, channel: byte, node: byte)
  {
    exists i, j :: 0 <= i < |ds| && 0 <= j < |ds| && i != j &&
      Straggler(ds[i].radio, channel, node) && Tenant(ds[j].radio, channel, node)
  }

  predicate Tenant(r: Radio, channel: byte, node: byte)
  {
    r.state >= ACTIVE && r.currChannel == channel && r.myNode == node
  }

  ghost predicate OnlyPlannedAct(plan: Plan, ds: seq<Client>, channel: byte, p: Packet)
  {
    forall i :: 0 <= i < |ds| && ActsOn(ds[i].radio, channel, p) ==>
      ds[i].radio.id in plan && plan[ds[i].radio.id] == Address(channel, p.node)
  }

  ghost predicate AtMostOneActs(ds: seq<Client>, channel: byte, p: Packet)
  {
    forall i, j | 0 <= i < |ds| && 0 <= j < |ds| ::
      ActsOn(ds[i].radio, channel, p) && ActsOn(ds[j].radio, channel, p) ==> i == j
  }

  lemma UnicastState(plan: Plan, ds: seq<Client>, channel: byte, p: Packet)
    requires Orderly(plan, ds) && Unicast(p)
    ensures OnlyPlannedAct(plan, ds, channel, p) <==> NoStraggler(ds, channel, p.node)
    ensures AtMostOneActs(ds, channel, p) <==> !Crowded(ds, channel, p.node)
  {
    forall i | 0 <= i < |ds|
      ensures ActsOn(ds[i].radio, channel, p) <==> Tenant(ds[i].radio, channel, p.node)
      ensures Tenant(ds[i].radio, channel, p.node) ==>
        Straggler(ds[i].radio, channel, p.node) || plan[ds[i].radio.id] == Address(channel, p.node)
    {
    }
    hide ActsOn;
  }

  /** Unicast uniqueness, exactly: at any point of any run that follows the plan, a unicast
      is obeyed by nobody but the client the plan put at that address if and only if no
      straggler shares the node, and by at most one client if and only if no straggler
      shares it with another active client on the channel. */
  lemma UnicastIsExclusive(plan: Plan, cs: seq<Client>, es: seq<NetEvent>, channel: byte, p: Packet)
    requires Orderly(plan, cs) && AllAllowed(plan, cs, es) && Unicast(p)
    ensures var ds := NetRun(plan, cs, es);
            && (OnlyPlannedAct(plan, ds, channel, p) <==> NoStraggler(ds, channel, p.node))
            && (AtMostOneActs(ds, channel, p) <==> !Crowded(ds, channel, p.node))
  {
    RunStaysOrderly(plan, cs, es);
    UnicastState(plan, NetRun(plan, cs, es), channel, p);
    hide *;
  }

  /** A plan that never uses a node twice is safe in any case. */
  lemma DistinctNodesSuffice(plan: Plan, cs: seq<Client>, es: seq<NetEvent>, channel: byte, p: Packet)
    requires Orderly(plan, cs) && AllAllowed(plan, cs, es) && Unicast(p)
    requires forall i, j :: i in plan && j in plan && i != j ==> plan[i].node != plan[j].node
    ensures AtMostOneActs(NetRun(plan, cs, es), channel, p)
  {
    RunStaysOrderly(plan, cs, es);
    hide NetRun, AllAllowed;
  }

  /** A straggler is one for a single reception at most: the next frame, good or bad,
      retunes the radio to the channel it was assigned. */
  lemma StragglerLeaves(r: Radio, slot: Packet, fifo: seq<byte>, channel: byte, node: byte)
    requires Tuned(r) && Straggler(r, channel, node)
    ensures HandlePacket(r, slot, fifo).currChannel == r.myChannel != channel
  {
    hide Hears, ClockAfter, ToWord, Interrupts;
  }

  // How a client comes to straggle, and how it stops

  // It obeys an ACTIVATE that assigns it another channel than the one it had.
  predicate Displaced(r: Radio, p: Packet)
  {
    p.cmd == CMD_ACTIVATE && Obeys(r, p) && p.data[0] != r.myChannel
  }

  predicate Displaces(c: Client, e: Clients.Event)
  {
    e.Pass? && e.woken && Hears(c.slot, e.fifo) && Displaced(c.radio, Received(c.slot, e.fifo))
  }

  // Any reception, good or bad, and any restart of the receiver.
  predicate Retunes(e: Clients.Event) { e.Retune? || (e.Pass? && e.woken) }

  lemma ReceptionStraggles(r: Radio, slot: Packet, fifo: seq<byte>)
    requires Tuned(r)
    ensures var s := HandlePacket(r, slot, fifo);
            && s.currChannel == r.myChannel
            && (Straggling(s) <==> Hears(slot, fifo) && Displaced(r, Received(slot, fifo)))
            && (Straggling(s) ==> s.sawRx)
  {
    hide Accepted, Received, ClockAfter, ToWord, Interrupts;
  }

  lemma WaitStraggles(r: Radio)
    requires Tuned(r)
    ensures Straggling(AfterWait(r)) <==> Straggling(r) && AfterWait(r).state >= ACTIVE
    ensures r.sawRx && r.state >= ACTIVE ==> AfterWait(r).state >= ACTIVE
  {
    hide Interrupts;
  }

  /** A client straggles after a step exactly when the step is an ACTIVATE that it obeys and
      that moves it to another channel, or it straggled before, stays active, and has
      neither received anything nor restarted its receiver. */
  lemma StragglesExactly(c: Client, e: Clients.Event)
    requires Tuned(c.radio) && (e.Application? ==> c.radio.state >= ACTIVE)
    ensures var d := Step(c, e);
            Straggling(d.radio) <==>
              Displaces(c, e) || (Straggling(c.radio) && !Retunes(e) && d.radio.state >= ACTIVE)
  {
    if e.Pass? {
      var r := SetDelay(c.radio.(threadOk := false), 5);
      ReceptionStraggles(r, c.slot, e.fifo);
      WaitStraggles(if e.woken then HandlePacket(r, c.slot, e.fifo) else c.radio.(threadOk := false));
      hide HandlePacket, AfterWait, Hears, Received;
    } else {
      hide Interrupts;
    }
  }

  ghost predicate DisplacedBy(cs: seq<Client>, i: nat, e: NetEvent)
    requires i < |cs|
  {
    e.Air? && Reached(cs[i], i, e.channel, e.listeners) && Displaced(cs[i].radio, e.packet)
  }

  lemma SameMessageDisplaces(r: Radio, p: Packet, q: Packet)
    requires p.len <= MAX_PAYLOAD && q.len <= MAX_PAYLOAD && MessageOf(p) == MessageOf(q)
    ensures Displaced(r, p) <==> Displaced(r, q)
  {
    assert p.len == |MessageOf(p).payload| == |MessageOf(q).payload| == q.len;
    if p.len == 6 {
      assert forall k :: 0 <= k < 6 ==> q.data[k] == q.data[..6][k] == p.data[..6][k] == p.data[k];
    }
  }

  lemma AirDisplaces(c: Client, p: Packet, clock: word)
    requires Tuned(c.radio) && p.len <= MAX_PAYLOAD
    ensures Straggling(Hear(c, p, clock).radio) <==> Displaced(c.radio, p)
  {
    var fifo := Frame(Stamped(p, clock));
    FrameRoundTrip(c.slot, p, clock, []);
    assert fifo + [] == fifo;
    StragglesExactly(c, Pass(true, fifo));
    SameMessageDisplaces(c.radio, p, Received(c.slot, fifo));
    hide Step, Hears, Received, Displaced, Stamped, Frame;
  }

  lemma NetStepDisplaces(plan: Plan, cs: seq<Client>, i: nat, e: NetEvent)
    requires AllTuned(cs) && Allowed(plan, cs, e) && i < |cs| && !Straggling(cs[i].radio)
    ensures Straggling(NetStep(plan, cs, e)[i].radio) <==> DisplacedBy(cs, i, e)
  {
    match e {
      case Air(_, p, clock, _) =>
        AirDisplaces(cs[i], p, clock);
        hide Hear, Displaced;
      case Local(j, ev) =>
        if i == j {
          StragglesExactly(cs[i], ev);
          hide Step, Displaced;
        }
    }
  }

  /** Over any run, whoever straggles at the end has obeyed an ACTIVATE to another channel. */
  lemma {:induction false} StragglersWereDisplaced(plan: Plan, cs: seq<Client>, es: seq<NetEvent>, i: nat)
    returns (j: nat)
    requires AllTuned(cs) && AllAllowed(plan, cs, es) && i < |cs| && !Straggling(cs[i].radio)
    requires Straggling(NetRun(plan, cs, es)[i].radio)
    ensures j < |es| && AllAllowed(plan, cs, es[..j])
    ensures DisplacedBy(NetRun(plan, cs, es[..j]), i, es[j])
    decreases |es|
  {
    var ds := NetStep(plan, cs, es[0]);
    NetStepDisplaces(plan, cs, i, es[0]);
    hide NetStep, Allowed, Straggling, DisplacedBy, AllTuned;
    if Straggling(ds[i].radio) {
      j := 0;
      assert es[..0] == [];
    } else {
      var k := StragglersWereDisplaced(plan, ds, es[1..], i);
      j := k + 1;
      assert es[..j][1..] == es[1..][..k] && es[..j][0] == es[0] && es[1..][k] == es[j];
    }
  }

  // Two clients that obey the same unicast

  function Activation(id: Identity, channel: byte, node: byte): Packet
  {
    Packet(0, 0, CMD_ACTIVATE, 6, 0, [channel, node, id.cat1, id.cat2, id.num1, id.num2, 0, 0, 0, 0])
  }

  predicate Awake(r: Radio) { r.state == LISTEN || (r.state == ACTIVE && r.timeout > 1) }

  // The packet is an activation of a client.
  predicate Activates(q: Packet, id: Identity, channel: byte, node: byte)
  {
    q.node == 0 && q.cmd == CMD_ACTIVATE && q.len == 6 && Target(q) == id && q.data[0] == channel && q.data[1] == node
  }

  lemma SameMessageActivates(p: Packet, q: Packet, id: Identity, channel: byte, node: byte)
    requires p.len <= MAX_PAYLOAD && q.len <= MAX_PAYLOAD && MessageOf(p) == MessageOf(q)
    requires Activates(p, id, channel, node)
    ensures Activates(q, id, channel, node)
  {
    assert p.len == |MessageOf(p).payload| == |MessageOf(q).payload| == q.len;
    assert forall k :: 0 <= k < 6 ==> q.data[k] == q.data[..6][k] == p.data[..6][k] == p.data[k];
  }

  lemma ActivationArrives(slot: Packet, id: Identity, channel: byte, node: byte)
    ensures var fifo := Frame(Stamped(Activation(id, channel, node), 0));
            Hears(slot, fifo) && Activates(Received(slot, fifo), id, channel, node)
  {
    var p := Activation(id, channel, node);
    var fifo := Frame(Stamped(p, 0));
    assert p.len == 6 && Activates(p, id, channel, node);
    hide Activation, Activates, Accepted, Received, Frame, Stamped, MessageOf;
    FrameRoundTrip(slot, p, 0, []);
    assert fifo + [] == fifo;
    SameMessageActivates(p, Received(slot, fifo), id, channel, node);
  }

  // What an activation makes of any client that is awake.
  ghost predicate Placed(r: Radio, s: Radio, id: Identity, channel: byte, node: byte)
  {
    && s.id == r.id && s.currChannel == r.myChannel
    && (if r.id == id then s.state == ACTIVE && s.myChannel == channel && s.myNode == node
        else s.state == r.state && s.myChannel == r.myChannel && s.myNode == r.myNode)
  }

  lemma HandlesActivation(r: Radio, slot: Packet, fifo: seq<byte>, id: Identity, channel: byte, node: byte)
    requires Tuned(r) && Hears(slot, fifo) && Activates(Received(slot, fifo), id, channel, node)
    ensures var s := HandlePacket(r, slot, fifo);
            Placed(r, s, id, channel, node) && s.sawRx
  {
    hide Accepted, Received, ClockAfter, ToWord, Interrupts;
  }

  lemma HearsActivation(c: Client, id: Identity, channel: byte, node: byte)
    requires Tuned(c.radio) && Awake(c.radio)
    ensures var r := Hear(c, Activation(id, channel, node), 0).radio;
            Awake(r) && Placed(c.radio, r, id, channel, node)
  {
    var fifo := Frame(Stamped(Activation(id, channel, node), 0));
    ActivationArrives(c.slot, id, channel, node);
    var r := SetDelay(c.radio.(threadOk := false), 5);
    HandlesActivation(r, c.slot, fifo, id, channel, node);
    hide HandlePacket, Frame, Stamped, Hears, Activation;
  }

  const FIRST := Identity(127, 1, 0, 1)
  const SECOND := Identity(127, 1, 0, 2)

  // The same node on two channels.
  function SharedPlan(): Plan { map[FIRST := Address(0, 5), SECOND := Address(3, 5)] }

  function Newcomer(id: Identity): (c: Client)
    ensures Tuned(c.radio)
  {
    Client(SetState(Initial(id), LISTEN), BLANK)
  }

  // Both activations go out on channel 0, where both clients listen.
  function Activations(): seq<NetEvent>
  {
    [Air(0, Activation(FIRST, 0, 5), 0, {0, 1}), Air(0, Activation(SECOND, 3, 5), 0, {0, 1})]
  }

  lemma NewcomersAreOrderly()
    ensures Orderly(SharedPlan(), [Newcomer(FIRST), Newcomer(SECOND)])
    ensures forall id {:trigger Newcomer(id)} :: var r := Newcomer(id).radio;
              r.id == id && r.state == LISTEN && r.currChannel == r.myChannel == 0
  {
    hide Interrupts;
  }

  // Both clients hear an activation on channel 0.
  lemma BothHear(plan: Plan, cs: seq<Client>, id: Identity, channel: byte, node: byte)
    requires AllTuned(cs) && |cs| == 2 && Awake(cs[0].radio) && Awake(cs[1].radio)
    requires cs[0].radio.currChannel == cs[1].radio.currChannel == 0
    requires id in plan && plan[id] == Address(channel, node)
    ensures var e := Air(0, Activation(id, channel, node), 0, {0, 1});
            && Allowed(plan, cs, e)
            && var ds := NetStep(plan, cs, e);
               && |ds| == 2 && Awake(ds[0].radio) && Awake(ds[1].radio)
               && Placed(cs[0].radio, ds[0].radio, id, channel, node)
               && Placed(cs[1].radio, ds[1].radio, id, channel, node)
  {
    HearsActivation(cs[0], id, channel, node);
    HearsActivation(cs[1], id, channel, node);
    hide Hear, Placed;
  }

  lemma RunTwo(plan: Plan, cs: seq<Client>, a: NetEvent, b: NetEvent)
    requires AllTuned(cs) && Allowed(plan, cs, a) && Allowed(plan, NetStep(plan, cs, a), b)
    ensures AllAllowed(plan, cs, [a, b]) && NetRun(plan, cs, [a, b]) == NetStep(plan, NetStep(plan, cs, a), b)
  {
    hide Allowed, NetStep, AllTuned;
    var ds := NetStep(plan, cs, a);
    var es := NetStep(plan, ds, b);
    assert [a, b][1..] == [b] && [b][1..] == [];
    assert AllAllowed(plan, es, []) && NetRun(plan, es, []) == es;
    assert AllAllowed(plan, ds, [b]) && NetRun(plan, ds, [b]) == es;
  }

  /** The failing run: both clients are activated on channel 0, the second for channel 3,
      and until its next reception both obey a unicast for node 5 there. */
  lemma TwoObey(p: Packet)
    requires Unicast(p) && p.node == 5 && p.len <= MAX_PAYLOAD
    ensures var cs := [Newcomer(FIRST), Newcomer(SECOND)];
            && Orderly(SharedPlan(), cs) && AllAllowed(SharedPlan(), cs, Activations())
            && var ds := NetRun(SharedPlan(), cs, Activations());
               |ds| == 2 && ActsOn(ds[0].radio, 0, p) && ActsOn(ds[1].radio, 0, p)
  {
    var cs, plan := [Newcomer(FIRST), Newcomer(SECOND)], SharedPlan();
    var a, b := Air(0, Activation(FIRST, 0, 5), 0, {0, 1}), Air(0, Activation(SECOND, 3, 5), 0, {0, 1});
    NewcomersAreOrderly();
    hide Newcomer, NetStep, Activation, Allowed;
    BothHear(plan, cs, FIRST, 0, 5);
    BothHear(plan, NetStep(plan, cs, a), SECOND, 3, 5);
    RunTwo(plan, cs, a, b);
    assert [a, b] == Activations();
    hide Orderly, AllAllowed, NetRun, Activations, SharedPlan;
    var ds := NetStep(plan, NetStep(plan, cs, a), b);
    assert ds[0].radio.currChannel == 0 && ds[0].radio.myNode == 5 && ds[0].radio.state == ACTIVE;
    assert ds[1].radio.currChannel == 0 && ds[1].radio.myNode == 5 && ds[1].radio.state == ACTIVE;
  }
}
