// The global `struct libradio` as a value, and what each library routine does to it
// (lib/clock.c, lib/state.c, lib/power_mode.c, lib/command.c, lib/handle.c,
// lib/rxtx.c, lib/loop.c). The class in Device.dfy updates the fields in place and is
// proved to do exactly this.

module Radios {
  import opened Bytes
  import opened Packets

  const STARTUP: byte := 0
  const ERROR: byte := 1
  const LOW_BATTERY: byte := 2
  const COLD: byte := 3
  const WARM: byte := 4
  const LISTEN: byte := 5
  const ACTIVE: byte := 6

  const UNKNOWN_TIME: byte := 0xff    // tens of minutes when the day clock is parked
  const TEN_MINUTES := 60000          // in 10 ms ticks

  datatype Identity = Identity(cat1: byte, cat2: byte, num1: byte, num2: byte)

  datatype Radio = Radio(
    state: byte, tens: byte, ms: word,
    slow: byte, fast: byte, period: byte,
    date: word, timeout: word,
    mainTicks: word, tickCount: word, threadOk: bool,
    myChannel: byte, currChannel: byte, myNode: byte, id: Identity,
    received: word, transmitted: word, powered: bool, sawRx: bool,
    handed: seq<Message>)   // commands passed to the application or answered by it

  // Clock periods are divisors in the state changes; initialisation sets them to 1 and 16.
  ghost predicate Tuned(r: Radio)
  {
    r.slow > 0 && r.fast > 0 && r.period > 0
  }

  function Initial(id: Identity): Radio
  {
    Radio(STARTUP, UNKNOWN_TIME, 0, 16, 1, 1, 0, 6000, 5, 5, false, 0, 0, 0, id, 0, 0, false, false, [])
  }

  // The clock

  function TickTime(r: Radio): Radio
  {
    if r.tens == UNKNOWN_TIME then r
    else
      var m := ToWord(r.ms + r.period);
      if m >= TEN_MINUTES then r.(ms := 0, tens := ToByte(r.tens + 1)) else r.(ms := m)
  }

  function TickThread(r: Radio): Radio
  {
    if r.mainTicks == 0 then r
    else if r.mainTicks == 1 then r.(threadOk := true, mainTicks := r.tickCount)
    else r.(mainTicks := r.mainTicks - 1)
  }

  function Tick(r: Radio): Radio { TickThread(TickTime(r)) }

  function SetDelay(r: Radio, delay: word): Radio
  {
    r.(tickCount := delay, mainTicks := if r.mainTicks == 0 then delay else r.mainTicks)
  }

  // States

  function PowerMode(r: Radio, high: bool): Radio
  {
    r.(period := if high then r.fast else r.slow)
  }

  // A duration in 10 ms units as a count of clock interrupts, saturating at 16 bits.
  function Interrupts(duration: nat, period: byte): (ticks: word)
    requires period > 0
    ensures duration < 0x1_0000 ==> ticks == duration / period
  {
    QuotientBound(duration, period);
    if duration / period > 65535 then 65535 else duration / period
  }

  lemma {:induction false} MultipleBound(b: nat, q: int)
    requires b > 0
    ensures if q >= 0 then b * q >= q else b * q + b <= 0
  {
    if b > 1 {
      MultipleBound(b - 1, q);
      assert b * q == (b - 1) * q + q;
    }
  }

  lemma QuotientBound(a: nat, b: nat)
    requires b > 0
    ensures 0 <= a / b <= a
  {
    assert a == b * (a / b) + a % b && 0 <= a % b < b;
    MultipleBound(b, a / b);
  }

  function SleepSettings(r: Radio, newState: byte): Radio
    requires Tuned(r)
  {
    var ticks := Interrupts(if newState == WARM then 5 * 60 * 100 else 60 * 60 * 100, r.slow);
    SetDelay(PowerMode(r, false).(tens := UNKNOWN_TIME), ticks)
  }

  function ListenSettings(r: Radio): Radio
    requires Tuned(r)
  {
    var awake := if r.state == COLD || r.state == WARM then PowerMode(r, true) else r;
    var limit := Interrupts(if r.state == COLD then 6000 else 12000, r.fast);
    SetDelay(awake.(myChannel := 0, sawRx := false, timeout := limit), 500)
  }

  function SetState(r: Radio, newState: byte): (s: Radio)
    requires Tuned(r)
    ensures Tuned(s)
  {
    if newState != STARTUP && r.state == newState then r
    else
      (if newState == COLD || newState == WARM then SleepSettings(r, newState)
       else if newState == LISTEN then ListenSettings(r)
       else if newState == ERROR then SetDelay(r, Interrupts(6000, r.period))
       else PowerMode(r, true).(timeout := 6000)).(state := newState)
  }

  // Commands

  function Command(r: Radio, p: Packet): (s: Radio)
    requires Tuned(r) && p.len <= MAX_PAYLOAD
    ensures Tuned(s)
  {
    if p.cmd != CMD_ACTIVATE && r.state < ACTIVE then r
    else match p.cmd {
      case 0 => r       // no-op
      case 1 => r       // firmware
      case 2 => if p.len == 3 then r.(handed := r.handed + [MessageOf(p)]) else r
      case 3 =>
        if p.len == 6 && Identity(p.data[2], p.data[3], p.data[4], p.data[5]) == r.id then
          SetState(r.(myChannel := p.data[0], myNode := p.data[1]), ACTIVE)
        else r
      case 4 => if p.len == 0 then SetState(r.(myChannel := 0, myNode := 0), WARM) else r
      case 5 => if p.len == 1 then r.(tens := p.data[0]) else r
      case 6 => if p.len == 2 then r.(date := Join(p.data[0], p.data[1])) else r
      case 7 => if p.len == 4 then r.(handed := r.handed + [MessageOf(p)]) else r
      case 8 => r       // EEPROM contents are not modelled
      case 9 => r
      case 10 => r
      case _ => r.(handed := r.handed + [MessageOf(p)])
    }
  }

  // Reception of whatever the chip's queue holds

  predicate Hears(slot: Packet, fifo: seq<byte>)
  {
    |fifo| >= FRAME_LEN && Accepted(slot, fifo)
  }

  function SlotAfter(slot: Packet, fifo: seq<byte>): (p: Packet)
    ensures slot.len <= MAX_PAYLOAD ==> p.len <= MAX_PAYLOAD
  {
    if |fifo| >= FRAME_LEN then Received(slot, fifo) else slot
  }

  function Receive(r: Radio, slot: Packet, fifo: seq<byte>, channel: byte): (s: Radio)
    ensures Tuned(r) ==> Tuned(s)
  {
    if Hears(slot, fifo) then
      r.(ms := ClockAfter(r.ms, Received(slot, fifo)), received := ToWord(r.received + 1),
         sawRx := true, currChannel := channel)
    else r.(currChannel := channel)
  }

  // The receiver started anew, on the channel assigned.
  function RecvStart(r: Radio, powersUp: bool): (s: Radio)
    requires Tuned(r)
    ensures Tuned(s)
  {
    if r.powered || powersUp then r.(powered := true, currChannel := r.myChannel) else SetState(r, ERROR)
  }

  predicate Addressed(r: Radio, p: Packet)
  {
    p.node == 0 || p.node == r.myNode
  }

  function HandlePacket(r: Radio, slot: Packet, fifo: seq<byte>): (s: Radio)
    requires Tuned(r)
    ensures Tuned(s)
  {
    var s := Receive(r, slot, fifo, r.myChannel);
    var p := SlotAfter(slot, fifo);
    if Hears(slot, fifo) && Addressed(s, p) then Command(s, p) else s
  }

  // One pass of the client's main loop

  function AfterWait(r: Radio): (s: Radio)
    requires Tuned(r)
    ensures Tuned(s)
  {
    if r.state == ERROR then SetState(r, WARM)
    else if r.state == STARTUP || r.state == COLD || r.state == WARM then SetState(r, LISTEN)
    else if r.state == LISTEN then r
    else
      var s := if r.sawRx then r.(timeout := TEN_MINUTES, sawRx := false) else r;
      var t := s.(timeout := ToWord(s.timeout - 1));
      if t.timeout == 0 then SetState(t, WARM) else t
  }

  // `interrupt` says whether the radio woke the loop; the wait itself clears threadOk.
  function LoopPass(r: Radio, slot: Packet, interrupt: bool, fifo: seq<byte>): (s: Radio)
    requires Tuned(r)
    ensures Tuned(s)
  {
    var woken := r.(threadOk := false);
    AfterWait(if interrupt then HandlePacket(SetDelay(woken, 5), slot, fifo) else woken)
  }

  function LoopSlot(slot: Packet, interrupt: bool, fifo: seq<byte>): Packet
  {
    if interrupt then SlotAfter(slot, fifo) else slot
  }
}
