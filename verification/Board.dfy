// The controller firmware itself: globals and the channel array, updated in place.
// Each routine is proved to take the step that Controller.dfy specifies.

module Board {
  import opened Bytes
  import opened Text
  import opened Packets
  import opened Radios
  import opened Devices
  import opened Controllers
  import Printer

  class Controller {
    const radio: Device
    const channels: array<Channel>
    var respChp: int
    var lastModulo: int
    var io: byte
    var value: byte
    var currChp: int
    ghost var replies: seq<Answer>
    ghost var lines: seq<string>
    ghost var queued: seq<Entry>
    ghost var sent: seq<Entry>
    ghost var ended: seq<nat>

    ghost function State(): Ctl
      reads this, radio, channels
    {
      Ctl(radio.Val(), channels[..], respChp, lastModulo, Parser(io, value, currChp),
          Log(replies, lines, queued, sent, ended))
    }

    ghost predicate Valid()
      reads this, radio, channels
    {
      Wf(State())
    }

    constructor ()
      ensures Valid() && State() == Boot(NO_LOG)
      ensures fresh(radio) && fresh(channels)
    {
      radio := new Device(Identity(1, 1, 1, 1));
      channels := new Channel[CHANNELS](_ => BLANK_CHANNEL);
      replies, lines, queued, sent, ended := [], [], [], [], [];
      new;
      Start();
    }

    // Power-on and _reset(): the runtime clears the globals, then main() initialises.
    method Start()
      requires channels.Length == CHANNELS
      modifies `respChp, `lastModulo, `io, `value, `currChp, radio, channels
      ensures Valid() && State() == Boot(old(Log(replies, lines, queued, sent, ended)))
    {
      ClearChannels();
      lastModulo, io, value, currChp := 0, NEWLINE, 0, -1;
      hide SetState, Initial;
      radio.PowerOn(Identity(1, 1, 1, 1));
      TxInit();
      InitialIsTuned(Identity(1, 1, 1, 1));
      radio.ChangeState(WARM);
    }

    method ClearChannels()
      requires channels.Length == CHANNELS
      modifies channels
      ensures channels[..] == seq(CHANNELS, _ => BLANK_CHANNEL)
    {
      forall i | 0 <= i < channels.Length {
        channels[i] := BLANK_CHANNEL;
      }
    }

    lemma InitialIsTuned(id: Identity)
      ensures Tuned(Initial(id))
    {
    }

    // The loop never advances chp, so it marks channel 0 six times; the
    // others are DISABLED because the array starts out zeroed.
    method TxInit()
      requires channels.Length == CHANNELS && channels[0].state == DISABLED && channels[0].priority == 0
      modifies `respChp, channels
      ensures channels[..] == old(channels[..]) && respChp == -1
    {
      var chp := 0;
      for i := 0 to CHANNELS
        invariant channels[..] == old(channels[..])
      {
        channels[chp] := channels[chp].(state := DISABLED);
        channels[chp] := channels[chp].(priority := 0);
      }
      respChp := -1;
    }

    method Respond(code: byte)
      modifies `io, `replies
      ensures State() == Reply(old(State()), code)
    {
      replies := replies + [Answer(code, radio.state)];
      io := WAITNL;
    }

    method ConfigureChannel(channo: byte, config: byte)
      requires Valid()
      modifies channels
      ensures State() == SetChannel(old(State()), channo, config)
    {
      if channo >= CHANNELS {
        return;
      }
      if config < 3 {
        channels[channo] := channels[channo].(state := config);
      }
      channels[channo] := channels[channo].(priority := 0);
    }

    // Builds the report in a buffer and prints it.
    method LocalStatus(stype: byte, battery: word)
      modifies `lines
      ensures State() == Print(old(State()), StatusLine(old(radio.Val()), stype, battery))
    {
      var status := [];
      if stype == 1 {
        status := [radio.state, radio.tens, battery / 0x100, battery % 0x100];
        status := status + [radio.received / 0x100, radio.received % 0x100];
        status := status + [radio.transmitted / 0x100, radio.transmitted % 0x100];
      } else if stype == 0 {
        status := [1, 1, 1, 1, 3, 1];
      }
      assert status == StatusBytes(radio.Val(), stype, battery);
      var list := PrintList([stype] + status);
      lines := lines + [PrintReport(radio.myChannel, radio.myNode, radio.ms, STATUS_RESPONSE, list)];
    }

    // "<%c%d:%u:%d:" and the list.
    static function PrintReport(channel: byte, node: byte, ticks: word, cmd: byte, list: string): string
    {
      ['<'] + (([Letter(channel)] + Dec(node)) + ([':'] + (Dec(ticks) + ([':'] + (Dec(cmd) + ([':'] + list))))))
    }

    // Numbers separated by commas, as the print loops write them.
    static method PrintList(data: seq<byte>) returns (text: string)
      ensures text == DecList(data)
    {
      text := "";
      for i := 0 to |data|
        invariant text == DecList(data[..i])
      {
        Printer.DecListSnoc(data[..i], data[i]);
        assert data[..i + 1] == data[..i] + [data[i]];
        if i > 0 {
          text := text + ",";
        }
        text := text + Dec(data[i]);
      }
      assert data[..|data|] == data;
    }

    method ActivateSelf(channel: byte, node: byte, powersUp: bool) returns (code: byte)
      requires Valid()
      modifies radio
      ensures State() == old(State()).(radio := Activate(old(radio.Val()), channel, node, powersUp))
      ensures code == if old(radio.powered) || powersUp then 0 else ERR_POWER
    {
      hide SetState;
      radio.myChannel := channel;
      radio.myNode := node;
      if radio.powered || powersUp {
        radio.powered := true;
        radio.ChangeState(ACTIVE);
        radio.Delay(1);
        radio.SetPower(true);
        code := 0;
      } else {
        radio.ChangeState(ERROR);
        code := ERR_POWER;
      }
    }

    method ExecuteOwn(p: Packet, w: World) returns (code: byte)
      requires Valid() && p.len <= MAX_PAYLOAD
      modifies `lines, radio, channels
      ensures State() == MyCommand(old(State()), p, w)
      ensures code == MyCommandCode(old(State()), p, w)
    {
      hide Command, Activate, SetChannel, StatusLine, ToByte, ToWord;
      code := 0;
      if p.cmd in {CMD_NOOP, CMD_FIRMWARE, CMD_DEACTIVATE, CMD_SET_DATE, CMD_WRITE_EEPROM} {
        radio.Execute(p);
      } else if p.cmd == CMD_ACTIVATE {
        if p.len == 3 {
          code := ActivateSelf(p.data[0], p.data[1], w.powersUp);
        }
      } else if p.cmd == CMD_SET_TIME {
        if p.len == 3 {
          radio.ms := Join(p.data[0], p.data[1]);
          radio.tens := p.data[2];
        }
      } else if p.cmd == CMD_STATUS {
        if p.len == 3 {
          LocalStatus(p.data[2], w.battery);
        }
      } else if p.cmd == CMD_READ_EEPROM {
        // prints EEPROM contents, which are not modelled
      } else if p.cmd == CMD_SET_CHANNEL {
        if p.len == 2 && p.data[0] <= CHANNELS {
          ConfigureChannel(p.data[0], p.data[1]);
        }
      } else {
        code := ERR_BAD_CMD;
      }
    }

    method EnqueueChannel(chp: nat, w: World)
      requires Valid() && chp < CHANNELS
      modifies this, radio, channels
      ensures State() == Enqueue(old(State()), chp, w)
    {
      hide MyCommand, MyCommandCode;
      var p := channels[chp].packet;
      queued := queued + [Entry(chp, p)];
      channels[chp] := channels[chp].(state := TRANSMIT);
      if p.node == radio.myNode || (p.cmd == CMD_ACTIVATE && radio.state < ACTIVE) {
        CodeIgnoresChannels(old(State()), State(), p, w);
        var code := ExecuteOwn(p, w);
        Respond(code);
        channels[chp] := channels[chp].(state := EMPTY);
        return;
      }
      if radio.state != ACTIVE {
        channels[chp] := channels[chp].(state := EMPTY);
        Respond(ERR_NOT_ACTIVE);
        return;
      }
      if p.cmd == CMD_STATUS {
        channels[chp] := channels[chp].(state := TXRESPOND);
      } else {
        channels[chp] := channels[chp].(state := TRANSMIT);
      }
      if channels[chp].priority == 0 {
        channels[chp] := channels[chp].(priority := (CHANNELS - chp) * 8);
      } else if channels[chp].priority < 0xfc {
        channels[chp] := channels[chp].(priority := channels[chp].priority + 1);
      }
      Respond(0);
    }

    lemma CodeIgnoresChannels(s: Ctl, t: Ctl, p: Packet, w: World)
      requires t.radio == s.radio
      ensures MyCommandCode(t, p, w) == MyCommandCode(s, p, w)
    {
    }

    method ReadLetter(c: char)
      requires Valid() && 'A' <= c <= 'H'
      modifies `io, `value, `currChp, `replies, channels
      ensures State() == ChooseChannel(old(State()), c as int - 'A' as int)
    {
      value := c as int - 'A' as int;
      if value >= CHANNELS {
        Respond(ERR_CHANNEL);
        return;
      }
      currChp := value;
      if channels[currChp].state > EMPTY {
        Respond(ERR_BUSY);
        return;
      }
      channels[currChp] := channels[currChp].(state := ADDING);
      io := WAITNODE;
      value := 0;
    }

    // The ':' or '.' after the command number.
    method EndCommand(c: char, w: World)
      requires Valid() && io == WAITCMD && (c == ':' || c == '.')
      modifies this, radio, channels
      ensures State() == ParseByte(old(State()), c, w)
    {
      hide Enqueue;
      var p := channels[currChp].packet;
      channels[currChp] := channels[currChp].(packet := p.(cmd := value, len := 0));
      value := 0;
      if c == '.' {
        StopIgnoresIo(State(), w);
        EnqueueChannel(currChp, w);
        io := WAITNL;
      } else {
        io := WAITDATA;
      }
    }

    // Enqueue does not look at the parser state, which is about to be replaced.
    lemma StopIgnoresIo(s: Ctl, w: World)
      requires Wf(s) && s.parser.io >= WAITCMD
      ensures WithIo(Enqueue(s, s.parser.curr, w), WAITNL)
              == WithIo(Enqueue(WithIo(s, WAITDATA), s.parser.curr, w), WAITNL)
    {
      hide Command, Activate, StatusLine;
    }

    // The ',' or '.' after a data number.
    method EndData(c: char, w: World)
      requires Valid() && io == WAITDATA && (c == ',' || c == '.')
      modifies this, radio, channels
      ensures State() == ParseByte(old(State()), c, w)
    {
      hide Enqueue;
      var p := channels[currChp].packet;
      if p.len >= MAX_PAYLOAD {
        Respond(ERR_TOO_BIG);
        return;
      }
      channels[currChp] := channels[currChp].(packet := p.(data := p.data[p.len := value], len := p.len + 1));
      value := 0;
      if c == '.' {
        EnqueueChannel(currChp, w);
        io := WAITNL;
      }
    }

    method ProcessInput(c: char, w: World)
      requires Valid()
      modifies this, radio, channels
      ensures State() == ParseByte(old(State()), c, w)
    {
      hide Enqueue, StatusLine, ChooseChannel, Boot;
      if IsNewline(c) {
        if io >= WAITCMD {
          EnqueueChannel(currChp, w);
        }
        io := NEWLINE;
        return;
      }
      if io == NEWLINE && c == '>' {
        io := WAITCHAN;
      } else if io == WAITCHAN && 'A' <= c <= 'H' {
        ReadLetter(c);
      } else if io == WAITCHAN && c == 'R' {
        Start();
      } else if io == WAITCHAN && (c == 'S' || c == 'T') {
        LocalStatus(if c == 'S' then 0 else 1, w.battery);
        io := NEWLINE;
      } else if io >= WAITNODE && '0' <= c <= '9' {
        value := (value * 10 + (c as int - '0' as int)) % 0x100;
      } else if io == WAITNODE && c == ':' {
        channels[currChp] := channels[currChp].(packet := channels[currChp].packet.(node := value));
        io := WAITCMD;
        value := 0;
      } else if io == WAITCMD && (c == ':' || c == '.') {
        EndCommand(c, w);
      } else if io == WAITDATA && (c == ',' || c == '.') {
        EndData(c, w);
      } else if io != WAITNL {
        Respond(ERR_NEWLINE);
      }
    }

    // Scan for the most urgent channel.
    method Choose() returns (nchp: int)
      requires Valid()
      ensures nchp == Pick(channels[..], CHANNELS)
    {
      nchp := -1;
      for channo := 0 to CHANNELS
        invariant nchp == Pick(channels[..], channo)
      {
        if channels[channo].priority == 0 || channels[channo].state < TRANSMIT {
          continue;
        }
        if nchp < 0 || channels[channo].priority > channels[nchp].priority {
          nchp := channo;
        }
      }
    }

    method AgeChannels()
      requires Valid()
      modifies channels
      ensures State() == AgeAll(old(State()))
    {
      for channo := 0 to CHANNELS
        invariant forall i :: 0 <= i < CHANNELS ==>
          channels[i] == if i < channo then Aged(old(channels[i])) else old(channels[i])
      {
        if channels[channo].state >= TRANSMIT && channels[channo].priority < 0xfc {
          channels[channo] := channels[channo].(priority := channels[channo].priority + 2);
        }
      }
      assert channels[..] == AgeAll(old(State())).ch;
    }

    method SendChannel(chp: nat, chip: Chip)
      requires Valid() && chp < CHANNELS
      modifies this, radio, channels
      ensures State() == Transmit(old(State()), chp, chip)
    {
      hide AfterSend, PacketAfterSend, SendSucceeds, AgeAll;
      var ok := radio.Send(channels, chp, chip);
      ghost var loaded := State();
      if ok {
        sent := sent + [Entry(chp, channels[chp].packet)];
        if channels[chp].state == TXRESPOND {
          channels[chp] := channels[chp].(state := RXRESPONSE1);
          respChp := chp;
        } else {
          channels[chp] := channels[chp].(state := EMPTY);
        }
        channels[chp] := channels[chp].(priority := 0);
        assert channels[..] == Handover(loaded, chp).ch;
      }
      AgeChannels();
    }

    method TxCheckQueues(chip: Chip)
      requires Valid()
      modifies this, radio, channels
      ensures State() == CheckQueues(old(State()), chip)
    {
      hide Transmit;
      if radio.state < LISTEN {
        return;
      }
      var modulo := radio.ms % MODULO;
      var chp := -1;
      if modulo < lastModulo {
        chp := (radio.ms / MODULO) % CHANNELS;
        if channels[chp].state == EMPTY {
          channels[chp] := channels[chp].(state := TRANSMIT, priority := 0xff);
          var p := channels[chp].packet;
          p := p.(node := 0, len := 1, cmd := CMD_SET_TIME, data := p.data[0 := radio.tens]);
          channels[chp] := channels[chp].(packet := p);
        }
      }
      lastModulo := modulo;
      if chp < 0 {
        chp := Choose();
      } else {
        assert channels[..] == InstallSync(old(State()).(lastModulo := modulo), chp).ch;
      }
      if chp < 0 || channels[chp].state < EMPTY {
        PickIsBest(channels[..], CHANNELS);
        return;
      }
      SendChannel(chp, chip);
    }

    method TakeResponse(fifo: seq<byte>)
      requires Valid() && respChp >= 0
      modifies `lines, radio, channels
      ensures State() == TxResponse(old(State()), fifo)
    {
      hide Receive, Hears, SlotAfter, Dec;
      var fromChan := radio.currChannel;
      var fromNode := channels[respChp].packet.node;
      var ok := radio.Recv(channels, respChp, fromChan, fifo);
      if ok {
        var p := channels[respChp].packet;
        var list := PrintList(p.data[..p.len]);
        lines := lines + [PrintReport(fromChan, fromNode, p.ticks, p.cmd, list)];
      }
    }

    method AwaitResponse(ready: bool, fifo: seq<byte>)
      requires Valid()
      modifies this, radio, channels
      ensures State() == Await(old(State()), ready, fifo)
    {
      hide TxResponse;
      if respChp >= 0 {
        if ready {
          TakeResponse(fifo);
          ended := ended + [respChp];
          channels[respChp] := channels[respChp].(state := EMPTY);
          respChp := -1;
        } else if channels[respChp].state == RXRESPONSE4 {
          ended := ended + [respChp];
          channels[respChp] := channels[respChp].(state := EMPTY);
          respChp := -1;
        } else {
          channels[respChp] := channels[respChp].(state := ToByte(channels[respChp].state + 1));
        }
      }
    }

    // The body of the main loop, from the moment libradio_wait has something to report.
    method MainPass(ready: bool, fifo: seq<byte>, input: seq<char>, w: World, chip: Chip)
      requires Valid() && |input| <= 1
      modifies this, radio, channels
      ensures Valid()
      ensures State() == Run(old(State()), LoopSteps(ready, fifo, input, w, chip))
    {
      ghost var s := State();
      var _ := radio.TickWait();
      assert State() == Next(s, Wake);
      AwaitResponse(ready, fifo);
      if input != [] {
        ProcessInput(input[0], w);
      }
      ghost var u := State();
      if respChp < 0 {
        TxCheckQueues(chip);
      }
      assert State() == Schedule(u, chip);
      hide Await, ParseByte, Schedule, Next;
      RunOfPass(s, ready, fifo, input, w, chip);
    }

    lemma RunOfPass(s: Ctl, ready: bool, fifo: seq<byte>, input: seq<char>, w: World, chip: Chip)
      requires Wf(s) && |input| <= 1
      ensures var t := Await(Next(s, Wake), ready, fifo);
              var u := if input == [] then t else ParseByte(t, input[0], w);
              Run(s, LoopSteps(ready, fifo, input, w, chip)) == Schedule(u, chip)
    {
      var t := Next(s, Wake);
      var middle := if input == [] then [] else [Serial(input[0], w)];
      NextIs(t, Wait(ready, fifo));
      var u := Next(t, Wait(ready, fifo));
      var last := Scheduler(chip);
      if input == [] {
        NextIs(u, last);
        assert LoopSteps(ready, fifo, input, w, chip) == [Wake, Wait(ready, fifo), last];
        RunThree(s, Wake, Wait(ready, fifo), last);
      } else {
        NextIs(u, Serial(input[0], w));
        NextIs(Next(u, Serial(input[0], w)), last);
        assert LoopSteps(ready, fifo, input, w, chip) == [Wake, Wait(ready, fifo), Serial(input[0], w)] + [last];
        RunThree(s, Wake, Wait(ready, fifo), Serial(input[0], w));
        RunAppend(s, [Wake, Wait(ready, fifo), Serial(input[0], w)], [last]);
        RunOne(Next(u, Serial(input[0], w)), last);
      }
    }

    lemma NextIs(s: Ctl, e: Step)
      requires Wf(s)
      ensures e.Wait? ==> Next(s, e) == Await(s, e.ready, e.fifo)
      ensures e.Serial? ==> Next(s, e) == ParseByte(s, e.c, e.world)
      ensures e.Scheduler? ==> Next(s, e) == Schedule(s, e.chip)
    {
    }

    lemma RunThree(s: Ctl, a: Step, b: Step, c: Step)
      requires Wf(s)
      ensures Run(s, [a, b, c]) == Next(Next(Next(s, a), b), c)
    {
      hide Next, Wf;
      RunOne(s, a);
      RunOne(Next(s, a), b);
      RunOne(Next(Next(s, a), b), c);
      RunAppend(s, [a], [b]);
      RunAppend(s, [a] + [b], [c]);
      assert [a] + [b] + [c] == [a, b, c];
    }
  }

  // One pass as steps.
  function LoopSteps(ready: bool, fifo: seq<byte>, input: seq<char>, w: World, chip: Chip): seq<Step>
  {
    [Wake, Wait(ready, fifo)] + (if input == [] then [] else [Serial(input[0], w)]) + [Scheduler(chip)]
  }
}
