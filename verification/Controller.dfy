// The controller firmware as a step system over values (control/*.c). Every step of
// the main loop, and the clock interrupt, is one function; Board.dfy holds the code
// that updates the globals in place and is proved to take these steps.

module Controllers {
  import opened Bytes
  import opened Text
  import opened Packets
  import opened Radios
  import opened Devices

  const CHANNELS := 6
  const MODULO := 500               // clock ticks between time broadcasts

  // Channel states
  const DISABLED: byte := 0
  const READ: byte := 1
  const EMPTY: byte := 2
  const ADDING: byte := 3
  const TRANSMIT: byte := 4
  const TXRESPOND: byte := 5
  const RXRESPONSE1: byte := 6
  const RXRESPONSE4: byte := 9

  // Parser states
  const NEWLINE: byte := 0
  const WAITNL: byte := 1
  const WAITCHAN: byte := 2
  const WAITNODE: byte := 3
  const WAITCMD: byte := 4
  const WAITDATA: byte := 5

  const ERR_CHANNEL: byte := 1
  const ERR_BUSY: byte := 2
  const ERR_TOO_BIG: byte := 4
  const ERR_NEWLINE: byte := 5
  const ERR_NOT_ACTIVE: byte := 6
  const ERR_POWER: byte := 7
  const ERR_BAD_CMD: byte := 8

  datatype Parser = Parser(io: byte, value: byte, curr: int)

  // A packet on a channel, and a reply line: code 0 is "<+", others "<-code/state".
  datatype Entry = Entry(channel: nat, packet: Packet)
  datatype Answer = Answer(code: byte, state: byte)

  // Everything the board has put out or set in motion since power-on.
  datatype Log = Log(
    replies: seq<Answer>,    // reply lines
    lines: seq<string>,      // status and response lines
    queued: seq<Entry>,      // calls of enqueue
    sent: seq<Entry>,        // packets handed to the radio
    ended: seq<nat>)         // waits for a response that are over

  // resp and curr are channel indices; -1 stands for NULL.
  datatype Ctl = Ctl(radio: Radio, ch: seq<Channel>, resp: int, lastModulo: int, parser: Parser, log: Log)

  ghost predicate Wf(s: Ctl)
  {
    && |s.ch| == CHANNELS
    && -1 <= s.resp < CHANNELS
    && -1 <= s.parser.curr < CHANNELS
    && s.parser.io <= WAITDATA
    && (s.parser.io >= WAITNODE ==> s.parser.curr >= 0)
    && (forall c :: 0 <= c < CHANNELS ==> s.ch[c].packet.len <= MAX_PAYLOAD)
    && Tuned(s.radio)
  }

  const BLANK_CHANNEL := Channel(DISABLED, 0, BLANK)

  // Power-on: libradio_init, tx_init, then the WARM state.
  function Boot(log: Log): (s: Ctl)
    ensures Wf(s)
  {
    Ctl(SetState(Initial(Identity(1, 1, 1, 1)), WARM), seq(CHANNELS, _ => BLANK_CHANNEL), -1, 0,
        Parser(NEWLINE, 0, -1), log)
  }

  const NO_LOG := Log([], [], [], [], [])

  function WithState(s: Ctl, c: nat, st: byte): Ctl
    requires c < |s.ch|
  {
    s.(ch := s.ch[c := s.ch[c].(state := st)])
  }

  function WithPacket(s: Ctl, c: nat, p: Packet): Ctl
    requires c < |s.ch|
  {
    s.(ch := s.ch[c := s.ch[c].(packet := p)])
  }

  function WithIo(s: Ctl, io: byte): Ctl { s.(parser := s.parser.(io := io)) }

  function Print(s: Ctl, line: string): Ctl { s.(log := s.log.(lines := s.log.lines + [line])) }

  // Printed lines

  // "%c" of a channel number offset from 'A'; the byte wraps.
  function Letter(channel: byte): char { ((channel as int + 'A' as int) % 0x100) as char }

  function StatusBytes(r: Radio, stype: byte, battery: word): seq<byte>
  {
    if stype == 1 then
      [r.state, r.tens, battery / 0x100, battery % 0x100, r.received / 0x100, r.received % 0x100,
       r.transmitted / 0x100, r.transmitted % 0x100]
    else if stype == 0 then [1, 1, 1, 1, 3, 1]
    else []
  }

  function ReportLine(channel: byte, node: byte, ticks: word, cmd: byte, data: seq<byte>): string
  {
    ['<'] + (([Letter(channel)] + Dec(node)) + ([':'] + (Dec(ticks) + ([':'] + (Dec(cmd) + ([':'] + DecList(data)))))))
  }

  function StatusLine(r: Radio, stype: byte, battery: word): string
  {
    ReportLine(r.myChannel, r.myNode, r.ms, STATUS_RESPONSE, [stype] + StatusBytes(r, stype, battery))
  }

  function ResponseLine(channel: byte, node: byte, p: Packet): string
    requires p.len <= MAX_PAYLOAD
  {
    ReportLine(channel, node, p.ticks, p.cmd, p.data[..p.len])
  }

  // Waiting for a response (main.c)

  function EndWait(s: Ctl): Ctl
    requires Wf(s) && s.resp >= 0
  {
    WithState(s, s.resp, EMPTY).(resp := -1, log := s.log.(ended := s.log.ended + [s.resp]))
  }

  function TxResponse(s: Ctl, fifo: seq<byte>): (t: Ctl)
    requires Wf(s) && s.resp >= 0
    ensures Wf(t)
  {
    var slot := s.ch[s.resp].packet;
    var p := SlotAfter(slot, fifo);
    var t := WithPacket(s, s.resp, p).(radio := Receive(s.radio, slot, fifo, s.radio.currChannel));
    if Hears(slot, fifo) then Print(t, ResponseLine(s.radio.currChannel, slot.node, p)) else t
  }

  function Await(s: Ctl, ready: bool, fifo: seq<byte>): (t: Ctl)
    requires Wf(s)
    ensures Wf(t)
  {
    if s.resp < 0 then s
    else if ready then EndWait(TxResponse(s, fifo))
    else if s.ch[s.resp].state == RXRESPONSE4 then EndWait(s)
    else WithState(s, s.resp, ToByte(s.ch[s.resp].state + 1))
  }

  // Commands for the controller itself (command.c, enqueue.c)

  // What a command may ask of the world: does the radio power up, what is the battery at.
  datatype World = World(powersUp: bool, battery: word)

  function SetChannel(s: Ctl, c: byte, config: byte): (t: Ctl)
    requires Wf(s)
    ensures Wf(t)
  {
    if c >= CHANNELS then s
    else if config < 3 then s.(ch := s.ch[c := s.ch[c].(state := config, priority := 0)])
    else s.(ch := s.ch[c := s.ch[c].(priority := 0)])
  }

  function Activate(r: Radio, channel: byte, node: byte, powersUp: bool): (t: Radio)
    requires Tuned(r)
    ensures Tuned(t)
  {
    var named := r.(myChannel := channel, myNode := node);
    if r.powered || powersUp then
      PowerMode(SetDelay(SetState(named.(powered := true), ACTIVE), 1), true)
    else SetState(named, ERROR)
  }

  function MyCommand(s: Ctl, p: Packet, w: World): (t: Ctl)
    requires Wf(s) && p.len <= MAX_PAYLOAD
    ensures Wf(t)
  {
    match p.cmd
    case 0 => s.(radio := Command(s.radio, p))
    case 1 => s.(radio := Command(s.radio, p))
    case 4 => s.(radio := Command(s.radio, p))
    case 6 => s.(radio := Command(s.radio, p))
    case 8 => s.(radio := Command(s.radio, p))
    case 3 => if p.len != 3 then s else s.(radio := Activate(s.radio, p.data[0], p.data[1], w.powersUp))
    case 5 => if p.len != 3 then s else s.(radio := s.radio.(ms := Join(p.data[0], p.data[1]), tens := p.data[2]))
    case 2 => if p.len != 3 then s else Print(s, StatusLine(s.radio, p.data[2], w.battery))
    case 16 => if p.len != 2 || p.data[0] > CHANNELS then s else SetChannel(s, p.data[0], p.data[1])
    case _ => s
  }

  function MyCommandCode(s: Ctl, p: Packet, w: World): byte
  {
    if p.cmd in {0, 1, 2, 4, 5, 6, 7, 8, 16} then 0
    else if p.cmd == CMD_ACTIVATE then
      if p.len != 3 || s.radio.powered || w.powersUp then 0 else ERR_POWER
    else ERR_BAD_CMD
  }

  function Reply(s: Ctl, code: byte): Ctl
  {
    WithIo(s, WAITNL).(log := s.log.(replies := s.log.replies + [Answer(code, s.radio.state)]))
  }

  predicate ForMe(r: Radio, p: Packet)
  {
    p.node == r.myNode || (p.cmd == CMD_ACTIVATE && r.state < ACTIVE)
  }

  function EntryPriority(priority: byte, c: nat): byte
    requires c < CHANNELS
  {
    if priority == 0 then (CHANNELS - c) * 8 else if priority < 0xfc then priority + 1 else priority
  }

  function Enqueue(s: Ctl, c: nat, w: World): (t: Ctl)
    requires Wf(s) && c < CHANNELS
    ensures Wf(t)
  {
    var p := s.ch[c].packet;
    var noted := WithState(s, c, TRANSMIT).(log := s.log.(queued := s.log.queued + [Entry(c, p)]));
    if ForMe(s.radio, p) then
      WithState(Reply(MyCommand(noted, p, w), MyCommandCode(s, p, w)), c, EMPTY)
    else if s.radio.state != ACTIVE then
      Reply(WithState(noted, c, EMPTY), ERR_NOT_ACTIVE)
    else
      var st := if p.cmd == CMD_STATUS then TXRESPOND else TRANSMIT;
      Reply(noted.(ch := s.ch[c := Channel(st, EntryPriority(s.ch[c].priority, c), p)]), 0)
  }

  // The serial parser (input.c)

  predicate IsNewline(c: char) { c == '\n' || c == '\r' }

  function NextDigit(value: byte, c: char): byte
    requires IsDigit(c)
  {
    (value * 10 + DigitValue(c)) % 0x100
  }

  function ChooseChannel(s: Ctl, c: nat): (t: Ctl)
    requires Wf(s) && c < 8
    ensures Wf(t)
  {
    var noted := s.(parser := s.parser.(value := c));
    if c >= CHANNELS then Reply(noted, ERR_CHANNEL)
    else if s.ch[c].state > EMPTY then Reply(noted.(parser := noted.parser.(curr := c)), ERR_BUSY)
    else WithState(s, c, ADDING).(parser := Parser(WAITNODE, 0, c))
  }

  function PutNode(s: Ctl): (t: Ctl)
    requires Wf(s) && s.parser.io == WAITNODE
    ensures Wf(t)
  {
    var c := s.parser.curr;
    WithPacket(s, c, s.ch[c].packet.(node := s.parser.value)).(parser := Parser(WAITCMD, 0, c))
  }

  function PutCommand(s: Ctl): (t: Ctl)
    requires Wf(s) && s.parser.io == WAITCMD
    ensures Wf(t)
  {
    var c := s.parser.curr;
    WithPacket(s, c, s.ch[c].packet.(cmd := s.parser.value, len := 0)).(parser := Parser(WAITDATA, 0, c))
  }

  function PutData(s: Ctl): (t: Ctl)
    requires Wf(s) && s.parser.io == WAITDATA && s.ch[s.parser.curr].packet.len < MAX_PAYLOAD
    ensures Wf(t)
  {
    var c := s.parser.curr;
    var p := s.ch[c].packet;
    WithPacket(s, c, p.(data := p.data[p.len := s.parser.value], len := p.len + 1))
      .(parser := Parser(WAITDATA, 0, c))
  }

  function Finish(s: Ctl, w: World): (t: Ctl)
    requires Wf(s) && s.parser.io >= WAITCMD
    ensures Wf(t)
  {
    WithIo(Enqueue(s, s.parser.curr, w), WAITNL)
  }

  function ParseByte(s: Ctl, c: char, w: World): (t: Ctl)
    requires Wf(s)
    ensures Wf(t)
  {
    var io := s.parser.io;
    if IsNewline(c) then
      WithIo(if io >= WAITCMD then Enqueue(s, s.parser.curr, w) else s, NEWLINE)
    else if io == NEWLINE && c == '>' then WithIo(s, WAITCHAN)
    else if io == WAITCHAN && 'A' <= c <= 'H' then ChooseChannel(s, c as int - 'A' as int)
    else if io == WAITCHAN && c == 'R' then Boot(s.log)
    else if io == WAITCHAN && (c == 'S' || c == 'T') then
      WithIo(Print(s, StatusLine(s.radio, if c == 'S' then 0 else 1, w.battery)), NEWLINE)
    else if io >= WAITNODE && IsDigit(c) then
      s.(parser := s.parser.(value := NextDigit(s.parser.value, c)))
    else if io == WAITNODE && c == ':' then PutNode(s)
    else if io == WAITCMD && c == ':' then PutCommand(s)
    else if io == WAITCMD && c == '.' then Finish(PutCommand(s), w)
    else if io == WAITDATA && (c == ',' || c == '.') then
      if s.ch[s.parser.curr].packet.len >= MAX_PAYLOAD then Reply(s, ERR_TOO_BIG)
      else if c == ',' then PutData(s) else Finish(PutData(s), w)
    else if io == WAITNL then s
    else Reply(s, ERR_NEWLINE)
  }

  // The scheduler (transmit.c)

  predicate Queued(c: Channel) { c.state == TRANSMIT || c.state == TXRESPOND }

  predicate Eligible(c: Channel) { c.priority != 0 && c.state >= TRANSMIT }

  // Highest priority among the first n channels, the lowest index on a tie; -1 if none.
  function Pick(ch: seq<Channel>, n: nat): (k: int)
    requires n <= |ch|
    ensures -1 <= k < n
  {
    if n == 0 then -1
    else
      var k := Pick(ch, n - 1);
      if Eligible(ch[n - 1]) && (k < 0 || ch[n - 1].priority > ch[k].priority) then n - 1 else k
  }

  function Aged(c: Channel): Channel
  {
    if c.state >= TRANSMIT && c.priority < 0xfc then c.(priority := c.priority + 2) else c
  }

  function AgeAll(s: Ctl): Ctl
  {
    s.(ch := seq(|s.ch|, i requires 0 <= i < |s.ch| => Aged(s.ch[i])))
  }

  function Handover(s: Ctl, c: nat): Ctl
    requires c < |s.ch|
  {
    var sent := s.(log := s.log.(sent := s.log.sent + [Entry(c, s.ch[c].packet)]));
    if s.ch[c].state == TXRESPOND then
      sent.(ch := s.ch[c := s.ch[c].(state := RXRESPONSE1, priority := 0)], resp := c)
    else
      sent.(ch := s.ch[c := s.ch[c].(state := EMPTY, priority := 0)])
  }

  function Transmit(s: Ctl, c: nat, chip: Chip): (t: Ctl)
    requires Wf(s) && c < CHANNELS
    ensures Wf(t)
  {
    var p := s.ch[c].packet;
    var loaded := WithPacket(s, c, PacketAfterSend(s.radio, p, chip)).(radio := AfterSend(s.radio, p, chip));
    AgeAll(if SendSucceeds(s.radio, p, chip) then Handover(loaded, c) else loaded)
  }

  predicate Wraps(s: Ctl) { s.radio.ms % MODULO < s.lastModulo }

  function SyncSlot(ms: word): (c: nat)
    ensures c < CHANNELS
  {
    (ms / MODULO) % CHANNELS
  }

  function SyncPacket(p: Packet, tens: byte): Packet
  {
    p.(node := 0, len := 1, cmd := CMD_SET_TIME, data := p.data[0 := tens])
  }

  function InstallSync(s: Ctl, c: nat): (t: Ctl)
    requires Wf(s) && c < CHANNELS
    ensures Wf(t)
  {
    if s.ch[c].state == EMPTY then
      s.(ch := s.ch[c := Channel(TRANSMIT, 0xff, SyncPacket(s.ch[c].packet, s.radio.tens))])
    else s
  }

  function CheckQueues(s: Ctl, chip: Chip): (t: Ctl)
    requires Wf(s)
    ensures Wf(t)
  {
    if s.radio.state < LISTEN then s
    else
      var m := s.(lastModulo := s.radio.ms % MODULO);
      if Wraps(s) then
        var c := SyncSlot(s.radio.ms);
        var t := InstallSync(m, c);
        if t.ch[c].state < EMPTY then t else Transmit(t, c, chip)
      else
        var c := Pick(s.ch, CHANNELS);
        if c < 0 then m else Transmit(m, c, chip)
  }

  // The main loop never runs the scheduler while a response is awaited.
  predicate SchedulerRuns(s: Ctl) { s.resp < 0 && s.radio.state >= LISTEN }

  function Schedule(s: Ctl, chip: Chip): (t: Ctl)
    requires Wf(s)
    ensures Wf(t)
  {
    if s.resp < 0 then CheckQueues(s, chip) else s
  }

  // Steps and runs. A pass of the main loop is Wake, Wait, perhaps Serial, then
  // Scheduler; the theorems hold for every interleaving of the five.

  datatype Step =
    | Interrupt
    | Wake                    // libradio_wait returns; it clears the wake-up flag
    | Wait(ready: bool, fifo: seq<byte>)
    | Serial(c: char, world: World)
    | Scheduler(chip: Chip)

  function Next(s: Ctl, e: Step): (t: Ctl)
    requires Wf(s)
    ensures Wf(t)
  {
    match e
    case Interrupt => s.(radio := Tick(s.radio))
    case Wake => s.(radio := s.radio.(threadOk := false))
    case Wait(ready, fifo) => Await(s, ready, fifo)
    case Serial(c, w) => ParseByte(s, c, w)
    case Scheduler(chip) => Schedule(s, chip)
  }

  /** Every reachable state is well formed: a packet's length never passes the payload
      limit and the parser has a channel whenever it is past the channel letter. */
  function Run(s: Ctl, es: seq<Step>): (t: Ctl)
    requires Wf(s)
    ensures Wf(t)
    decreases |es|
  {
    if es == [] then s else Run(Next(s, es[0]), es[1..])
  }

  lemma RunOne(s: Ctl, e: Step)
    requires Wf(s)
    ensures Run(s, [e]) == Next(s, e)
  {
    hide Next, Wf;
    assert [e][1..] == [];
  }

  lemma {:induction false} RunAppend(s: Ctl, es: seq<Step>, fs: seq<Step>)
    requires Wf(s)
    ensures Run(s, es + fs) == Run(Run(s, es), fs)
    decreases |es|
  {
    hide Next, Wf;
    if es == [] {
      assert es + fs == fs;
    } else {
      RunAppend(Next(s, es[0]), es[1..], fs);
      assert (es + fs)[1..] == es[1..] + fs;
    }
  }

  ghost predicate Beats(ch: seq<Channel>, j: nat, k: nat)
    requires j < |ch| && k < |ch|
  {
    ch[j].priority > ch[k].priority || (ch[j].priority == ch[k].priority && j < k)
  }

  /** The scan picks an eligible channel whenever there is one, and no eligible channel
      among those scanned beats it. */
  lemma {:induction false} PickIsBest(ch: seq<Channel>, n: nat)
    requires n <= |ch|
    ensures var k := Pick(ch, n);
            && (k < 0 <==> forall j :: 0 <= j < n ==> !Eligible(ch[j]))
            && (k >= 0 ==> Eligible(ch[k]) && forall j :: 0 <= j < n && Eligible(ch[j]) ==> !Beats(ch, j, k))
  {
    if n > 0 {
      PickIsBest(ch, n - 1);
    }
  }
}
