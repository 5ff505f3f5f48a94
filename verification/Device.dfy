// The library's routines as they run on the board: a global record updated in place.

module Devices {
  import opened Bytes
  import opened Packets
  import opened Radios

  // What the radio chip answers while one packet is being sent.
  datatype Chip = Chip(powersUp: bool, ready: bool, channel: byte, hasSpace: bool, starts: bool)

  // The chip takes a packet of a proper length.
  predicate Accepts(r: Radio, chip: Chip)
  {
    (r.powered || chip.powersUp) && chip.ready && chip.hasSpace && chip.starts
  }

  predicate SendSucceeds(r: Radio, p: Packet, chip: Chip)
  {
    Accepts(r, chip) && p.len <= MAX_PAYLOAD
  }

  // A failed power-up leaves the ERROR state; otherwise the status query reports the
  // chip's channel and a packet started on its way is counted.
  function AfterSend(r: Radio, p: Packet, chip: Chip): (s: Radio)
    requires Tuned(r)
    ensures Tuned(s)
  {
    if !r.powered && !chip.powersUp then SetState(r, ERROR)
    else
      var s := r.(powered := true, currChannel := chip.channel);
      if SendSucceeds(r, p, chip) then s.(transmitted := ToWord(s.transmitted + 1)) else s
  }

  // The packet is stamped once it reaches the transmit queue, even if the start fails.
  predicate ReachesQueue(r: Radio, p: Packet, chip: Chip)
  {
    (r.powered || chip.powersUp) && chip.ready && chip.hasSpace && p.len <= MAX_PAYLOAD
  }

  function PacketAfterSend(r: Radio, p: Packet, chip: Chip): (q: Packet)
    ensures q.len == p.len
  {
    if ReachesQueue(r, p, chip) then Stamped(p, r.ms) else p
  }

  lemma OverlayByte(image: seq<byte>, fifo: seq<byte>, i: nat)
    requires i < |image| && i < |fifo|
    ensures (fifo[..i] + image[i..])[i := fifo[i]] == fifo[..i + 1] + image[i + 1..]
  {
  }

  class Device {
    var state: byte
    var tens: byte
    var ms: word
    var slow: byte
    var fast: byte
    var period: byte
    var date: word
    var timeout: word
    var mainTicks: word
    var tickCount: word
    var threadOk: bool
    var myChannel: byte
    var currChannel: byte
    var myNode: byte
    var id: Identity
    var received: word
    var transmitted: word
    var powered: bool
    var sawRx: bool
    ghost var handed: seq<Message>

    ghost function Val(): Radio
      reads this
    {
      Radio(state, tens, ms, slow, fast, period, date, timeout, mainTicks, tickCount, threadOk,
            myChannel, currChannel, myNode, id, received, transmitted, powered, sawRx, handed)
    }

    constructor (id: Identity)
      ensures Val() == Initial(id)
    {
      new;
      PowerOn(id);
    }

    // Clears the record, enters STARTUP while the periods are still zero, then sets them.
    method PowerOn(id: Identity)
      modifies this
      ensures Val() == Initial(id)
    {
      ClearTiming();
      ClearStation(id);
      timeout := 6000;
      fast, period, slow := 1, 1, 16;
      tens := UNKNOWN_TIME;
      mainTicks, tickCount := 5, 5;
    }

    method ClearTiming()
      modifies `state, `ms, `date, `threadOk
      ensures state == STARTUP && ms == 0 && date == 0 && !threadOk
    {
      state, ms, date, threadOk := STARTUP, 0, 0, false;
    }

    method ClearStation(id: Identity)
      modifies `myChannel, `currChannel, `myNode, `received, `transmitted, `powered, `sawRx, `handed, `id
      ensures myChannel == currChannel == myNode == 0 && received == transmitted == 0
      ensures !powered && !sawRx && handed == [] && this.id == id
    {
      myChannel, currChannel, myNode, received, transmitted := 0, 0, 0, 0, 0;
      powered, sawRx, handed := false, false, [];
      this.id := id;
    }

    method ClockTick()
      modifies `tens, `ms, `threadOk, `mainTicks
      ensures Val() == Tick(old(Val()))
    {
      if tens != UNKNOWN_TIME {
        ms := ToWord(ms + period);
        if ms >= TEN_MINUTES {
          ms := 0;
          tens := ToByte(tens + 1);
        }
      }
      if mainTicks != 0 {
        mainTicks := mainTicks - 1;
        if mainTicks == 0 {
          threadOk := true;
          mainTicks := tickCount;
        }
      }
    }

    method Delay(delay: word)
      modifies `tickCount, `mainTicks
      ensures Val() == SetDelay(old(Val()), delay)
    {
      tickCount := delay;
      if mainTicks == 0 {
        mainTicks := delay;
      }
    }

    method TickWait() returns (run: bool)
      modifies `threadOk
      ensures run == old(threadOk) && Val() == old(Val()).(threadOk := false)
    {
      run := threadOk;
      threadOk := false;
    }

    method SetPower(high: bool)
      modifies `period
      ensures Val() == PowerMode(old(Val()), high)
    {
      if high {
        period := fast;
      } else {
        period := slow;
      }
    }

    // The arms of the state switch.
    method EnterSleep(newState: byte)
      requires Tuned(Val())
      modifies `tens, `period, `mainTicks, `tickCount
      ensures Val() == SleepSettings(old(Val()), newState)
    {
      SetPower(false);
      tens := UNKNOWN_TIME;
      var ticks := Interrupts(if newState == WARM then 5 * 60 * 100 else 60 * 60 * 100, period);
      Delay(ticks);
    }

    method EnterListen()
      requires Tuned(Val())
      modifies `period, `timeout, `mainTicks, `tickCount, `myChannel, `sawRx
      ensures Val() == ListenSettings(old(Val()))
    {
      hide Interrupts;
      if state == COLD || state == WARM {
        SetPower(true);
      }
      myChannel := 0;
      sawRx := false;
      if state == COLD {
        timeout := Interrupts(6000, fast);
      } else {
        timeout := Interrupts(12000, fast);
      }
      Delay(500);
    }

    method ChangeState(newState: byte)
      requires Tuned(Val())
      modifies `state, `tens, `period, `timeout, `mainTicks, `tickCount, `myChannel, `sawRx
      ensures Val() == SetState(old(Val()), newState)
    {
      if newState != STARTUP && state == newState {
        return;
      }
      if newState == COLD || newState == WARM {
        EnterSleep(newState);
      } else if newState == LISTEN {
        EnterListen();
      } else if newState == ERROR {
        var ticks := Interrupts(60 * 100, period);
        Delay(ticks);
      } else {
        SetPower(true);
        timeout := 6000;
      }
      state := newState;
    }

    method Execute(p: Packet)
      requires Tuned(Val()) && p.len <= MAX_PAYLOAD
      modifies this
      ensures Val() == Command(old(Val()), p)
    {
      hide SetState, MessageOf;
      if p.cmd != CMD_ACTIVATE && state < ACTIVE {
        return;
      }
      if p.cmd in {CMD_NOOP, STATUS_RESPONSE, EEPROM_RESPONSE, CMD_FIRMWARE, CMD_WRITE_EEPROM} {
        return;
      } else if p.cmd == CMD_STATUS {
        if p.len == 3 {
          handed := handed + [MessageOf(p)];
        }
      } else if p.cmd == CMD_ACTIVATE {
        if p.len != 6 {
          return;
        }
        if p.data[2] != id.cat1 || p.data[3] != id.cat2 || p.data[4] != id.num1 || p.data[5] != id.num2 {
          return;
        }
        myChannel := p.data[0];
        myNode := p.data[1];
        ChangeState(ACTIVE);
      } else if p.cmd == CMD_DEACTIVATE {
        if p.len == 0 {
          myNode := 0;
          myChannel := 0;
          ChangeState(WARM);
        }
      } else if p.cmd == CMD_SET_TIME {
        if p.len == 1 {
          tens := p.data[0];
        }
      } else if p.cmd == CMD_SET_DATE {
        if p.len == 2 {
          date := Join(p.data[0], p.data[1]);
        }
      } else if p.cmd == CMD_READ_EEPROM {
        if p.len == 4 {
          handed := handed + [MessageOf(p)];
        }
      } else {
        handed := handed + [MessageOf(p)];
      }
    }

    // XOR of the header and payload bytes in use.
    method Checksum(chans: array<Channel>, k: nat) returns (csum: byte)
      requires k < chans.Length && chans[k].packet.len <= MAX_PAYLOAD
      ensures csum == Sum(chans[k].packet)
    {
      csum := 0;
      var image := Image(chans[k].packet);
      for i := 0 to HEADER_LEN + chans[k].packet.len
        invariant csum == XorAll(image[..i])
      {
        assert image[..i + 1][..i] == image[..i];
        csum := Xor(csum, image[i]);
      }
    }

    // Copy a packet to the transmit queue: stamp it, seal it with the checksum, pad it.
    method TxPacket(chans: array<Channel>, k: nat) returns (ok: bool, fifo: seq<byte>)
      requires k < chans.Length
      modifies chans
      ensures ok == (old(chans[k]).packet.len <= MAX_PAYLOAD)
      ensures chans[..] == if ok then old(chans[..])[k := old(chans[k]).(packet := Stamped(old(chans[k]).packet, ms))]
                           else old(chans[..])
      ensures fifo == if ok then Frame(chans[k].packet) else []
    {
      fifo := [];
      if chans[k].packet.len > MAX_PAYLOAD {
        return false, fifo;
      }
      var len := HEADER_LEN + chans[k].packet.len;
      chans[k] := chans[k].(packet := chans[k].packet.(ticks := ms));
      chans[k] := chans[k].(packet := chans[k].packet.(csum := 0));
      var csum := Checksum(chans, k);
      chans[k] := chans[k].(packet := chans[k].packet.(csum := csum));
      var image := Image(chans[k].packet);
      for i := 0 to FRAME_LEN
        invariant fifo == Frame(chans[k].packet)[..i]
      {
        if i < len {
          fifo := fifo + [image[i]];
        } else {
          fifo := fifo + [0xff];
        }
      }
      ok := true;
    }

    // Read at most one frame over the packet's bytes.
    method ReadFifo(chans: array<Channel>, k: nat, fifo: seq<byte>)
      requires k < chans.Length
      modifies chans
      ensures chans[..] == old(chans[..])[k := old(chans[k]).(packet := Overlay(old(chans[k]).packet, fifo))]
    {
      hide FromImage, Image;
      ghost var before := chans[..];
      ghost var image := Image(chans[k].packet);
      var len := |fifo|;
      if len > FRAME_LEN {
        len := FRAME_LEN;
      }
      FromImageOfImage(chans[k].packet);
      assert fifo[..0] + image[0..] == image;
      for i := 0 to len
        invariant chans[..] == before[k := before[k].(packet := FromImage(fifo[..i] + image[i..]))]
      {
        var b := Image(chans[k].packet)[i := fifo[i]];
        OverlayByte(image, fifo, i);
        chans[k] := chans[k].(packet := FromImage(b));
      }
    }

    // Pull one packet out of the receive queue and validate it.
    method RxPacket(chans: array<Channel>, k: nat, fifo: seq<byte>) returns (ok: bool)
      requires k < chans.Length
      modifies `ms, chans
      ensures chans[..] == old(chans[..])[k := old(chans[k]).(packet := Received(old(chans[k]).packet, fifo))]
      ensures ok == Accepted(old(chans[k]).packet, fifo)
      ensures ms == if ok then ClockAfter(old(ms), chans[k].packet) else old(ms)
    {
      ReadFifo(chans, k, fifo);
      if chans[k].packet.len > MAX_PAYLOAD {
        chans[k] := chans[k].(packet := chans[k].packet.(len := MAX_PAYLOAD));
      }
      var csum := Checksum(chans, k);
      if csum != 0 {
        return false;
      }
      if chans[k].packet.cmd < STATUS_RESPONSE {
        ms := chans[k].packet.ticks;
      }
      ok := true;
    }

    method Recv(chans: array<Channel>, k: nat, channel: byte, fifo: seq<byte>) returns (ok: bool)
      requires k < chans.Length
      modifies this, chans
      ensures ok == Hears(old(chans[k]).packet, fifo)
      ensures Val() == Receive(old(Val()), old(chans[k]).packet, fifo, channel)
      ensures chans[..] == old(chans[..])[k := old(chans[k]).(packet := SlotAfter(old(chans[k]).packet, fifo))]
    {
      hide Received, Accepted, ToWord;
      ok := false;
      if |fifo| >= FRAME_LEN {
        ok := RxPacket(chans, k, fifo);
        if ok {
          received := ToWord(received + 1);
          sawRx := true;
        }
      }
      currChannel := channel;
    }

    method StartReceiving(powersUp: bool) returns (ok: bool)
      requires Tuned(Val())
      modifies this
      ensures ok == (old(powered) || powersUp) && Val() == RecvStart(old(Val()), powersUp)
    {
      hide SetState;
      if !powered {
        if !powersUp {
          ChangeState(ERROR);
          return false;
        }
        powered := true;
      }
      currChannel := myChannel;
      ok := true;
    }

    method Send(chans: array<Channel>, k: nat, chip: Chip) returns (ok: bool)
      requires k < chans.Length && Tuned(Val())
      modifies this, chans
      ensures ok == SendSucceeds(old(Val()), old(chans[k]).packet, chip)
      ensures Val() == AfterSend(old(Val()), old(chans[k]).packet, chip)
      ensures var p := old(chans[k]).packet;
              chans[..] == old(chans[..])[k := old(chans[k]).(packet := PacketAfterSend(old(Val()), p, chip))]
    {
      hide SetState, Stamped, Frame, ToWord;
      if !powered {
        if !chip.powersUp {
          ChangeState(ERROR);
          return false;
        }
        powered := true;
      }
      currChannel := chip.channel;
      if !chip.ready || !chip.hasSpace {
        return false;
      }
      var loaded, fifo := TxPacket(chans, k);
      if !loaded || !chip.starts {
        return false;
      }
      transmitted := ToWord(transmitted + 1);
      ok := true;
    }

    // Receive one packet and execute it if it is addressed here.
    method HandleReception(slot: array<Channel>, fifo: seq<byte>)
      requires slot.Length == 1 && Tuned(Val())
      modifies this, slot
      ensures Val() == HandlePacket(old(Val()), old(slot[0]).packet, fifo)
      ensures slot[0].packet == SlotAfter(old(slot[0]).packet, fifo)
    {
      var ok := Recv(slot, 0, myChannel, fifo);
      if ok {
        if slot[0].packet.node == 0 || slot[0].packet.node == myNode {
          Execute(slot[0].packet);
        }
      }
    }

    // One pass of the client's loop; `slot` holds the single receive channel.
    method RxLoop(slot: array<Channel>, interrupt: bool, fifo: seq<byte>)
      requires slot.Length == 1 && Tuned(Val())
      modifies this, slot
      ensures Val() == LoopPass(old(Val()), old(slot[0]).packet, interrupt, fifo)
      ensures slot[0].packet == LoopSlot(old(slot[0]).packet, interrupt, fifo)
    {
      var _ := TickWait();
      if interrupt {
        Delay(5);
        HandleReception(slot, fifo);
      }
      StateStep();
    }

    method StateStep()
      requires Tuned(Val())
      modifies `state, `tens, `period, `timeout, `mainTicks, `tickCount, `myChannel, `sawRx
      ensures Val() == AfterWait(old(Val()))
    {
      if state == ERROR {
        ChangeState(WARM);
      } else if state == STARTUP || state == COLD || state == WARM {
        ChangeState(LISTEN);
      } else if state != LISTEN {
        if sawRx {
          timeout := TEN_MINUTES;
          sawRx := false;
        }
        timeout := ToWord(timeout - 1);
        if timeout == 0 {
          ChangeState(WARM);
        }
      }
    }
  }
}
