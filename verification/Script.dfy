// Exactly what a printed command does to the controller when its bytes arrive with
// nothing else in between.

module Script {
  import opened Bytes
  import opened Text
  import opened Packets
  import opened Radios
  import opened Devices
  import opened Controllers
  import opened Printer
  import opened Lines
  import opened RoundTrip

  function Typed(text: string, w: World): (es: seq<Step>)
    ensures |es| == |text|
  {
    if text == "" then [] else [Serial(text[0], w)] + Typed(text[1..], w)
  }

  // The controller while it reads a line for channel k: only the slot and the parser differ.
  function Loaded(s: Ctl, k: nat, p: Packet, io: byte, value: byte): (t: Ctl)
    requires Wf(s) && k < CHANNELS && p.len <= MAX_PAYLOAD && io <= WAITDATA
    ensures Wf(t)
  {
    s.(ch := s.ch[k := s.ch[k].(state := ADDING, packet := p)], parser := Parser(io, value, k))
  }

  // The controller after the line.
  function Executed(s: Ctl, k: nat, p: Packet, w: World): (t: Ctl)
    requires Wf(s) && k < CHANNELS && p.len <= MAX_PAYLOAD
    ensures Wf(t)
  {
    WithIo(Enqueue(Loaded(s, k, p, WAITDATA, 0), k, w), NEWLINE)
  }

  ghost predicate Mirrors(s: Ctl, k: nat, v: View, w: World, t: Ctl)
    requires Wf(s) && k < CHANNELS
  {
    match v
    case Idle(p) => t == s && p == s.ch[k].packet
    case Letter(p) => t == WithIo(s, WAITCHAN) && p == s.ch[k].packet
    case Reading(io, value, p) => WAITNODE <= io <= WAITDATA && p.len <= MAX_PAYLOAD && t == Loaded(s, k, p, io, value)
    case Done(p, closed) =>
      p.len <= MAX_PAYLOAD && t == if closed then Executed(s, k, p, w) else WithIo(Executed(s, k, p, w), WAITNL)
    case Lost => true
  }

  lemma ByteMirrors(s: Ctl, k: nat, v: View, w: World, t: Ctl, c: char)
    requires Wf(s) && k < CHANNELS && s.parser.io == NEWLINE && s.ch[k].state <= EMPTY
    requires Wf(t) && Mirrors(s, k, v, w, t)
    ensures Mirrors(s, k, ReadByte(v, k, c), w, ParseByte(t, c, w))
  {
    hide StatusLine, Boot;
    if v.Reading? {
      ReadingMirrors(s, k, v, w, t, c);
    } else {
      hide Enqueue;
    }
  }

  lemma ReadingMirrors(s: Ctl, k: nat, v: View, w: World, t: Ctl, c: char)
    requires Wf(s) && k < CHANNELS && v.Reading?
    requires Wf(t) && Mirrors(s, k, v, w, t)
    ensures Mirrors(s, k, ReadByte(v, k, c), w, ParseByte(t, c, w))
  {
    if ReadByte(v, k, c).Reading? {
      GoesOnReading(s, k, v, w, t, c);
    } else if ReadByte(v, k, c).Done? {
      FinishesReading(s, k, v, w, t, c);
    }
    hide ParseByte, ReadByte, Executed, Loaded;
  }

  lemma GoesOnReading(s: Ctl, k: nat, v: View, w: World, t: Ctl, c: char)
    requires Wf(s) && k < CHANNELS && v.Reading? && ReadByte(v, k, c).Reading?
    requires Wf(t) && Mirrors(s, k, v, w, t)
    ensures Mirrors(s, k, ReadByte(v, k, c), w, ParseByte(t, c, w))
  {
    hide StatusLine, Boot, Enqueue;
  }

  lemma FinishesReading(s: Ctl, k: nat, v: View, w: World, t: Ctl, c: char)
    requires Wf(s) && k < CHANNELS && v.Reading? && ReadByte(v, k, c).Done?
    requires Wf(t) && Mirrors(s, k, v, w, t)
    ensures Mirrors(s, k, ReadByte(v, k, c), w, ParseByte(t, c, w))
  {
    var u := if v.io == WAITCMD then PutCommand(t) else PutData(t);
    hide StatusLine, Boot, Enqueue;
    assert u == Loaded(s, k, ReadByte(v, k, c).packet, WAITDATA, 0);
    assert ParseByte(t, c, w) == WithIo(Enqueue(u, k, w), WAITNL);
  }

  lemma {:induction false} TextMirrors(s: Ctl, k: nat, v: View, w: World, t: Ctl, text: string)
    requires Wf(s) && k < CHANNELS && s.parser.io == NEWLINE && s.ch[k].state <= EMPTY
    requires Wf(t) && Mirrors(s, k, v, w, t)
    ensures Mirrors(s, k, Read(v, k, text), w, Run(t, Typed(text, w)))
    decreases |text|
  {
    hide ReadByte, Mirrors, ParseByte, Wf;
    if text != "" {
      ByteMirrors(s, k, v, w, t, text[0]);
      var u := ParseByte(t, text[0], w);
      assert Next(t, Serial(text[0], w)) == u;
      TextMirrors(s, k, ReadByte(v, k, text[0]), w, u, text[1..]);
    }
  }

  /** A printed command for a free channel is executed or queued on exactly the packet
      meant, and nothing else of the controller changes. */
  lemma TypedCommand(s: Ctl, k: nat, node: nat, cmd: nat, data: seq<nat>, w: World)
    requires Wf(s) && k < CHANNELS && s.parser.io == NEWLINE && s.ch[k].state <= EMPTY && |data| <= MAX_PAYLOAD
    ensures var p := Commanded(s.ch[k].packet, node, cmd, data);
            && p.len == |data|
            && Run(s, Typed(Sent(CommandLine(k, node, cmd, data)), w)) == Executed(s, k, p, w)
  {
    var p := s.ch[k].packet;
    ReadLine(p, k, node, cmd, data);
    FilledHolds(p.(node := node % 0x100, cmd := cmd % 0x100, len := 0), data);
    TextMirrors(s, k, Idle(p), w, s, Sent(CommandLine(k, node, cmd, data)));
    hide Run, Typed, Read, Filled, CommandLine;
  }
}
