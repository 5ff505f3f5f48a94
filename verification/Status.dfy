// The host's reading of lines from the controller (parse_data and crack in lrmon/main.c,
// lrmon/response.c), and the round trip of status reports.

module Status {
  import opened Bytes
  import opened Text
  import opened Packets
  import opened Radios
  import opened Controllers
  import opened Reframer

  // What a line means to the daemon.
  datatype Meaning =
    | Ignored
    | Good
    | Bad(code: int)
    | Report(chan: int, node: int, ticks: int, args: string)

  function FailureCode(text: string): int
  {
    var code := Atoi(text[..Find(text, '/')]);
    if code < 1 then 99 else code
  }

  function ParseFields(f: seq<string>): Meaning
  {
    if |f| != 4 || f[0] == "" then Ignored
    else
      var chan := f[0][0] as int - 'A' as int;
      var node, ticks, cmd := Atoi(f[0][1..]), Atoi(f[1]), Atoi(f[2]);
      if chan < 0 || chan > 15 || node < 0 || node > 255 || ticks < 0 || cmd < 0 || cmd > 255 then Ignored
      else if cmd == STATUS_RESPONSE then Report(chan, node, ticks, f[3])
      else Ignored
  }

  function ParseLine(data: string): Meaning
  {
    if data == "" || data[0] != '<' then Ignored
    else
      var d := data[1..];
      if d != "" && d[0] == '+' then Good
      else if d != "" && d[0] == '-' then Bad(FailureCode(d[1..]))
      else ParseFields(Fields(d, 8, ':'))
  }

  // Records of the controller's own status; `char` members are signed bytes.
  datatype StaticStatus = StaticStatus(c1: int, c2: int, n1: int, n2: int, fwH: int, fwL: int)
  datatype DynamicStatus = DynamicStatus(radioState: int, tens: int, battery: int, received: int, transmitted: int)

  function Numbers(f: seq<string>): (ns: seq<int>)
    ensures |ns| == |f|
  {
    if f == [] then [] else [Atoi(f[0])] + Numbers(f[1..])
  }

  function StaticAfter(st: StaticStatus, ns: seq<int>): StaticStatus
  {
    if |ns| == 7 && ns[0] == 0 then
      StaticStatus(SignedChar(ns[1]), SignedChar(ns[2]), SignedChar(ns[3]),
                   SignedChar(ns[4]), SignedChar(ns[5]), SignedChar(ns[6]))
    else st
  }

  function DynamicAfter(st: DynamicStatus, ns: seq<int>): DynamicStatus
  {
    if |ns| == 9 && ns[0] == 1 then
      DynamicStatus(SignedChar(ns[1]), SignedChar(ns[2]), ShiftOr(ns[3], ns[4]),
                    ShiftOr(ns[5], ns[6]), ShiftOr(ns[7], ns[8]))
    else st
  }

  // Round trips

  lemma ReportFields(channel: byte, node: byte, ticks: word, cmd: byte, data: seq<byte>)
    requires Letter(channel) != ':'
    ensures Fields(ReportLine(channel, node, ticks, cmd, data)[1..], 8, ':')
            == [[Letter(channel)] + Dec(node), Dec(ticks), Dec(cmd), DecList(data)]
  {
    DecHasNo(node, ':');
    DecHasNo(ticks, ':');
    DecHasNo(cmd, ':');
    DecListHasNo(data, ':');
    hide Dec, DecList, Fields;
    ReportBody(channel, node, ticks, cmd, data);
    FourFields([Letter(channel)] + Dec(node), Dec(ticks), Dec(cmd), DecList(data), 8, ':');
  }

  lemma ReportBody(channel: byte, node: byte, ticks: word, cmd: byte, data: seq<byte>)
    ensures var line := ReportLine(channel, node, ticks, cmd, data);
            && line != "" && line[0] == '<' && line[1..] != "" && line[1..][0] == Letter(channel)
            && line[1..] == ([Letter(channel)] + Dec(node)) +
                            ([':'] + (Dec(ticks) + ([':'] + (Dec(cmd) + ([':'] + DecList(data))))))
  {
    hide Dec, DecList, Letter;
  }

  /** A printed report is understood exactly when its channel is one of the sixteen the
      daemon knows and it is a status response; then channel, node, ticks and the list
      come back unchanged. */
  lemma ReportRoundTrip(channel: byte, node: byte, ticks: word, cmd: byte, data: seq<byte>)
    ensures var m := ParseLine(ReportLine(channel, node, ticks, cmd, data));
            if channel <= 15 && cmd == STATUS_RESPONSE then m == Report(channel, node, ticks, DecList(data))
            else !m.Report?
  {
    hide Fields, Dec, DecList, ReportLine, FailureCode, ParseFields;
    var line := ReportLine(channel, node, ticks, cmd, data);
    ReportBody(channel, node, ticks, cmd, data);
    if Letter(channel) == ':' {
      ColonFirst(line[1..]);
    } else {
      ReportFields(channel, node, ticks, cmd, data);
      FieldsMean(channel, node, ticks, cmd, DecList(data));
    }
  }

  lemma FieldsMean(channel: byte, node: byte, ticks: word, cmd: byte, list: string)
    ensures ParseFields([[Letter(channel)] + Dec(node), Dec(ticks), Dec(cmd), list])
            == if channel <= 15 && cmd == STATUS_RESPONSE then Report(channel, node, ticks, list) else Ignored
  {
    AtoiReadsDec(node);
    AtoiReadsDec(ticks);
    AtoiReadsDec(cmd);
    hide Dec, Atoi, Letter, ParseFields;
    var first := [Letter(channel)] + Dec(node);
    assert first[1..] == Dec(node);
    ReadFields([first, Dec(ticks), Dec(cmd), list], channel, node, ticks, cmd);
  }

  lemma ReadFields(f: seq<string>, channel: byte, node: byte, ticks: word, cmd: byte)
    requires |f| == 4 && f[0] != "" && f[0][0] == Letter(channel) && Atoi(f[0][1..]) == node
    requires Atoi(f[1]) == ticks && Atoi(f[2]) == cmd
    ensures ParseFields(f)
            == if channel <= 15 && cmd == STATUS_RESPONSE then Report(channel, node, ticks, f[3]) else Ignored
  {
    LetterChannel(channel);
    hide Atoi, Letter;
  }

  lemma LetterChannel(channel: byte)
    ensures var chan := Letter(channel) as int - 'A' as int;
            if channel <= 15 then chan == channel else chan < 0 || chan > 15
  {
  }

  lemma ColonFirst(d: string)
    requires d != "" && d[0] == ':'
    ensures !ParseFields(Fields(d, 8, ':')).Report?
  {
    assert Fields(d, 8, ':')[0] == "";
  }

  lemma {:induction false} NumbersOfDecs(data: seq<byte>)
    ensures Numbers(Decs(data)) == data
  {
    if data != [] {
      AtoiReadsDec(data[0]);
      hide Dec, Atoi;
      NumbersOfDecs(data[1..]);
      assert Decs(data)[1..] == Decs(data[1..]);
    }
  }

  /** The data list of a report, read back by the field splitter; an empty list, which
      leaves nothing behind the last colon, reads as one zero. */
  lemma DataRoundTrip(data: seq<byte>)
    requires |data| <= 16
    ensures Numbers(Fields(DecList(data), 16, ',')) == if data == [] then [0] else data
  {
    if data == [] {
      FieldsOfOne("", 16, ',');
      OneNumber("");
    } else {
      DecListSplits(data, 16);
      NumbersOfDecs(data);
    }
  }

  lemma OneNumber(text: string)
    ensures Numbers([text]) == [Atoi(text)]
  {
    hide Atoi;
    assert [text][1..] == [];
  }

  /** What the other lines mean: nothing unless they begin with '<'; success if '+' follows;
      a failure if '-' does, with the number up to the slash as its code, or 99 for none. */
  lemma LinesMean(line: string, n: nat, rest: string)
    ensures line == "" || line[0] != '<' ==> ParseLine(line) == Ignored
    ensures ParseLine(['<', '+'] + line) == Good
    ensures ParseLine(['<', '-'] + (Dec(n) + (['/'] + rest))) == Bad(if n == 0 then 99 else n)
  {
    var text := Dec(n) + (['/'] + rest);
    var all := ['<', '-'] + text;
    assert all[1..][1..] == text && all[1..][0] == '-';
    assert (['<', '+'] + line)[1..][0] == '+';
    DecHasNo(n, '/');
    assert text == Dec(n) + ['/'] + rest;
    FindAt(Dec(n), '/', rest);
    AtoiReadsDec(n);
    hide Dec, Find, Atoi, ParseFields, Fields;
    assert text[..|Dec(n)|] == Dec(n);
  }

  /** Status round trip: the text the controller prints about itself gives the daemon its
      identity and version, or its state, time index and the 16-bit battery, receive and
      transmit words, for all values; bytes from 128 up arrive negative in the `char`
      members. */
  lemma StatusRoundTrip(r: Radio, stype: byte, battery: word, was: StaticStatus, wasDynamic: DynamicStatus)
    requires r.myChannel <= 15 && stype < 2
    ensures var m := ParseLine(StatusLine(r, stype, battery));
            && m.Report? && m.chan == r.myChannel && m.node == r.myNode && m.ticks == r.ms
            && var ns := Numbers(Fields(m.args, 16, ','));
               && StaticAfter(was, ns) == (if stype == 0 then StaticStatus(1, 1, 1, 1, 3, 1) else was)
               && DynamicAfter(wasDynamic, ns)
                  == (if stype == 1 then
                        DynamicStatus(SignedChar(r.state), SignedChar(r.tens), battery, r.received, r.transmitted)
                      else wasDynamic)
  {
    hide ParseLine, Fields, DecList, Numbers, ShiftOr, ReportLine, Letter;
    var data := [stype] + StatusBytes(r, stype, battery);
    ReportRoundTrip(r.myChannel, r.myNode, r.ms, STATUS_RESPONSE, data);
    DataRoundTrip(data);
    JoinedWord(battery);
    JoinedWord(r.received);
    JoinedWord(r.transmitted);
  }

  lemma JoinedWord(w: word)
    ensures ShiftOr(w / 0x100, w % 0x100) == w
  {
    ShiftOrJoins(w / 0x100, w % 0x100);
    hide ShiftOr;
  }

  /** The same for a client's response forwarded by the controller. */
  lemma ResponseRoundTrip(channel: byte, node: byte, p: Packet)
    requires channel <= 15 && p.cmd == STATUS_RESPONSE && p.len <= MAX_PAYLOAD
    ensures var m := ParseLine(ResponseLine(channel, node, p));
            && m.Report? && m.chan == channel && m.node == node && m.ticks == p.ticks
            && Numbers(Fields(m.args, 16, ',')) == if p.len == 0 then [0] else p.data[..p.len]
  {
    hide ParseLine, Fields, DecList, Numbers, ReportLine;
    ReportRoundTrip(channel, node, p.ticks, p.cmd, p.data[..p.len]);
    DataRoundTrip(p.data[..p.len]);
  }

  // A byte as a signed `char` holds it.
  ghost predicate Signed(value: int, b: byte) { -128 <= value < 128 && (value == b as int || value == b as int - 256) }

  /** Any report understood fills the records from its numbers in the order they are sent:
      seven of type 0 the identity and version, nine of type 1 the state, the index and
      three words, high bytes first; any other list leaves both records as they were. */
  lemma RecordsRoundTrip(
    channel: byte, node: byte, ticks: word, data: seq<byte>, was: StaticStatus, wasDynamic: DynamicStatus)
    requires channel <= 15 && 0 < |data| <= 16
    ensures var m := ParseLine(ReportLine(channel, node, ticks, STATUS_RESPONSE, data));
            && m.Report?
            && var ns := Numbers(Fields(m.args, 16, ','));
               var st, dyn := StaticAfter(was, ns), DynamicAfter(wasDynamic, ns);
            && (if |data| == 7 && data[0] == 0 then
                  && Signed(st.c1, data[1]) && Signed(st.c2, data[2])
                  && Signed(st.n1, data[3]) && Signed(st.n2, data[4])
                  && Signed(st.fwH, data[5]) && Signed(st.fwL, data[6])
                else st == was)
            && (if |data| == 9 && data[0] == 1 then
                  && Signed(dyn.radioState, data[1]) && Signed(dyn.tens, data[2])
                  && dyn.battery == 256 * data[3] as int + data[4] as int
                  && dyn.received == 256 * data[5] as int + data[6] as int
                  && dyn.transmitted == 256 * data[7] as int + data[8] as int
                else dyn == wasDynamic)
  {
    hide ParseLine, Fields, DecList, Numbers, ShiftOr, ReportLine, Letter;
    ReportRoundTrip(channel, node, ticks, STATUS_RESPONSE, data);
    DataRoundTrip(data);
    if |data| == 9 {
      ShiftOrJoins(data[3], data[4]);
      ShiftOrJoins(data[5], data[6]);
      ShiftOrJoins(data[7], data[8]);
    }
  }

  // The code that cuts lines in place

  // The C string at a position of a buffer.
  function CStr(b: seq<char>, p: nat): string
    requires p <= |b|
  {
    Cut(b[p..])
  }

  ghost predicate Terminated(b: seq<char>, p: nat)
  {
    p <= |b| && |CStr(b, p)| < |b| - p
  }

  lemma CStrIs(b: seq<char>, p: nat, e: nat)
    requires p <= e < |b| && b[e] == NUL && NulFree(b[p..e])
    ensures CStr(b, p) == b[p..e] && Terminated(b, p)
  {
    assert b[p..][..e - p] == b[p..e];
    CutAt(b[p..], e - p);
  }

  lemma CStrEnds(b: seq<char>, p: nat)
    requires Terminated(b, p)
    ensures var e := p + |CStr(b, p)|;
            e < |b| && b[e] == NUL && b[p..e] == CStr(b, p) && NulFree(b[p..e])
  {
    CutFinds(b[p..]);
    hide Cut;
    assert b[p..][..|CStr(b, p)|] == b[p..p + |CStr(b, p)|];
  }

  class Host {
    var sstatus: StaticStatus
    var dstatus: DynamicStatus

    constructor ()
      ensures sstatus == StaticStatus(0, 0, 0, 0, 0, 0) && dstatus == DynamicStatus(0, 0, 0, 0, 0)
    {
      sstatus, dstatus := StaticStatus(0, 0, 0, 0, 0, 0), DynamicStatus(0, 0, 0, 0, 0);
    }

    // strchr: position of the next delimiter in the string that ends at e, or e.
    static method StrChr(line: array<char>, start: nat, ghost e: nat, delim: char) returns (cp: nat)
      requires start <= e < line.Length && line[e] == NUL && NulFree(line[start..e]) && delim != NUL
      ensures cp == start + Find(line[start..e], delim) && cp <= e && (line[cp] == NUL <==> cp == e)
    {
      cp := start;
      while line[cp] != NUL && line[cp] != delim
        invariant start <= cp <= e
        invariant Find(line[start..e], delim) == cp - start + Find(line[cp..e], delim)
        decreases e - cp
      {
        assert line[cp..e][1..] == line[cp + 1..e];
        cp := cp + 1;
      }
      if cp < e {
        assert line[start..e][cp - start] == line[cp] && line[cp..e][0] == line[cp];
      }
    }

    // Cut a line into its fields; argv holds the positions of their first characters.
    static method Crack(line: array<char>, start: nat, nargs: nat, delim: char) returns (argv: seq<nat>)
      requires Terminated(line[..], start) && delim != NUL
      modifies line
      ensures Strings(line[..], argv, Fields(old(CStr(line[..], start)), nargs, delim))
    {
      ghost var text := CStr(line[..], start);
      ghost var e := start + |text|;
      CStrEnds(line[..], start);
      argv := [];
      ghost var done: seq<string> := [];
      ghost var rest := text;
      var p: nat := start;
      hide *;
      CutNone(line[..], text, nargs, delim, start, e);
      for i := 0 to nargs
        invariant |done| == i && p <= |line[..]|
        invariant Cutting(line[..], text, nargs, delim, argv, done, rest, p, e)
      {
        ghost var before := line[..];
        CuttingMeans(before, text, nargs, delim, argv, done, rest, p, e);
        var more, cp := CutField(line, p, e, rest, delim);
        if !more {
          CutLast(before, line[..], text, nargs, delim, argv, done, rest, p, e, cp);
          argv := argv + [p];
          return;
        }
        CutMore(before, line[..], text, nargs, delim, argv, done, rest, p, e, cp);
        argv, done := argv + [p], done + [rest[..cp - p]];
        rest := rest[cp - p + 1..];
        p := cp + 1;
      }
      CutFull(line[..], text, nargs, delim, argv, done, rest, p, e);
    }

    // One turn of the loop: find the delimiter and cut there, unless the string ends first.
    static method CutField(line: array<char>, p: nat, ghost e: nat, ghost rest: string, delim: char)
      returns (more: bool, cp: nat)
      requires p <= e < line.Length && line[e] == NUL && line[p..e] == rest && NulFree(rest) && delim != NUL
      modifies line
      ensures cp == p + Find(rest, delim) && more == (cp < e) && cp <= e
      ensures line[..] == old(line[..])[cp := NUL]
    {
      hide Find;
      cp := StrChr(line, p, e, delim);
      if line[cp] == NUL {
        return false, cp;
      }
      line[cp] := NUL;
      more := true;
    }

    // Read one line from the controller.
    static method ParseData(line: array<char>, start: nat) returns (m: Meaning, argp: nat)
      requires Terminated(line[..], start)
      modifies line
      ensures m == ParseLine(old(CStr(line[..], start)))
      ensures m.Report? ==> Terminated(line[..], argp) && CStr(line[..], argp) == m.args
    {
      argp := start;
      ghost var text := CStr(line[..], start);
      CStrEnds(line[..], start);
      if line[start] != '<' {
        return Ignored, argp;
      }
      var data := start + 1;
      CStrIs(line[..], data, start + |text|);
      assert CStr(line[..], data) == text[1..];
      hide CStr, Fields, Find;
      if line[data] == '+' {
        return Good, argp;
      }
      if line[data] == '-' {
        m := ReadFailure(line, data + 1, text[1..][1..], start + |text|);
        return;
      }
      var args := Crack(line, data, 8, ':');
      ghost var f := Fields(text[1..], 8, ':');
      if |args| != 4 {
        return Ignored, argp;
      }
      assert CStr(line[..], args[0]) == f[0] && CStr(line[..], args[1]) == f[1];
      assert CStr(line[..], args[2]) == f[2] && CStr(line[..], args[3]) == f[3];
      argp := args[3];
      m := ReadReport(line, args, f);
    }

    static method ReadFailure(line: array<char>, data: nat, ghost text: string, ghost e: nat) returns (m: Meaning)
      requires data <= e < line.Length && line[e] == NUL && line[data..e] == text && NulFree(text)
      modifies line
      ensures m == Bad(FailureCode(text))
    {
      var cp := StrChr(line, data, e, '/');
      ghost var k := cp - data;
      line[cp] := NUL;
      assert line[data..cp] == text[..k];
      PrefixNulFree(text, k);
      CStrIs(line[..], data, cp);
      var code := Atoi(CStr(line[..], data));
      if code < 1 {
        code := 99;
      }
      m := Bad(code);
    }

    static method ReadReport(line: array<char>, args: seq<nat>, ghost f: seq<string>) returns (m: Meaning)
      requires |args| == 4 && Strings(line[..], args, f)
      ensures m == ParseFields(f)
    {
      var a0 := args[0];
      assert CStr(line[..], a0) == f[0] && CStr(line[..], args[3]) == f[3];
      CStrEnds(line[..], a0);
      if line[a0] == NUL {
        return Ignored;
      }
      CStrIs(line[..], a0 + 1, a0 + |f[0]|);
      assert CStr(line[..], a0 + 1) == f[0][1..];
      hide CStr, Atoi;
      var chan := line[a0] as int - 'A' as int;
      if chan < 0 || chan > 15 {
        return Ignored;
      }
      var node := Atoi(CStr(line[..], a0 + 1));
      if node < 0 || node > 255 {
        return Ignored;
      }
      var ticks := Atoi(CStr(line[..], args[1]));
      if ticks < 0 {
        return Ignored;
      }
      var cmd := Atoi(CStr(line[..], args[2]));
      if cmd < 0 || cmd > 255 || cmd != STATUS_RESPONSE {
        return Ignored;
      }
      m := Report(chan, node, ticks, CStr(line[..], args[3]));
    }

    // Keep what the local controller says about itself.
    method LocalResponse(line: array<char>, argp: nat)
      requires Terminated(line[..], argp)
      modifies line, `sstatus, `dstatus
      ensures var ns := Numbers(Fields(old(CStr(line[..], argp)), 16, ','));
              sstatus == StaticAfter(old(sstatus), ns) && dstatus == DynamicAfter(old(dstatus), ns)
    {
      ghost var f := Fields(CStr(line[..], argp), 16, ',');
      SomeField(CStr(line[..], argp), 16, ',');
      hide CStr, Fields, Strings, Numbers, SignedChar, ShiftOr;
      var data := Crack(line, argp, 16, ',');
      var idata := ReadNumbers(line, data, f);
      var n := |idata|;
      if idata[0] == 0 && n == 7 {
        sstatus := StaticStatus(SignedChar(idata[1]), SignedChar(idata[2]), SignedChar(idata[3]),
                                SignedChar(idata[4]), SignedChar(idata[5]), SignedChar(idata[6]));
      }
      if idata[0] == 1 && n == 9 {
        dstatus := DynamicStatus(SignedChar(idata[1]), SignedChar(idata[2]), ShiftOr(idata[3], idata[4]),
                                 ShiftOr(idata[5], idata[6]), ShiftOr(idata[7], idata[8]));
      }
    }

    static method ReadNumbers(line: array<char>, data: seq<nat>, ghost f: seq<string>) returns (idata: seq<int>)
      requires Strings(line[..], data, f)
      ensures idata == Numbers(f)
    {
      StringsLength(line[..], data, f);
      idata := [];
      var n := |data|;
      for i := 0 to n
        invariant idata == Numbers(f[..i])
      {
        StringAt(line[..], data, f, i);
        NumbersNext(f, i);
        hide *;
        idata := idata + [Atoi(CStr(line[..], data[i]))];
      }
      assert f[..n] == f;
    }
  }

  lemma StringsLength(b: seq<char>, argv: seq<nat>, f: seq<string>)
    requires Strings(b, argv, f)
    ensures |argv| == |f|
  {
  }

  lemma StringAt(b: seq<char>, argv: seq<nat>, f: seq<string>, i: nat)
    requires Strings(b, argv, f) && i < |argv|
    ensures |argv| == |f| && argv[i] <= |b| && Terminated(b, argv[i]) && CStr(b, argv[i]) == f[i]
  {
    hide CStr;
  }

  lemma NumbersNext(f: seq<string>, i: nat)
    requires i < |f|
    ensures Numbers(f[..i + 1]) == Numbers(f[..i]) + [Atoi(f[i])]
  {
    NumbersSnoc(f[..i], f[i]);
    hide Numbers, Atoi;
    assert f[..i + 1] == f[..i] + [f[i]];
  }

  // The positions hold exactly these C strings.
  ghost predicate Strings(b: seq<char>, argv: seq<nat>, f: seq<string>)
  {
    |argv| == |f| && forall j :: 0 <= j < |argv| ==> Terminated(b, argv[j]) && CStr(b, argv[j]) == f[j]
  }

  // A field stands at p with its NUL, all before the limit.
  ghost predicate FieldAt(b: seq<char>, p: nat, field: string, limit: nat)
  {
    && p + |field| < limit <= |b| && b[p + |field|] == NUL && NulFree(field)
    && forall q :: 0 <= q < |field| ==> b[p + q] == field[q]
  }

  ghost predicate AllPlaced(b: seq<char>, argv: seq<nat>, f: seq<string>, limit: nat)
  {
    |argv| == |f| && forall j :: 0 <= j < |argv| ==> FieldAt(b, argv[j], f[j], limit)
  }

  // Where the splitter stands: the fields found so far are in place, the rest of the
  // text is still uncut from p on.
  ghost predicate Cutting(b: seq<char>, text: string, nargs: nat, delim: char,
                          argv: seq<nat>, done: seq<string>, rest: string, p: nat, e: nat)
  {
    && p <= e < |b| && |done| <= nargs && b[e] == NUL && b[p..e] == rest && NulFree(rest)
    && Fields(text, nargs, delim) == done + Fields(rest, nargs - |done|, delim)
    && AllPlaced(b, argv, done, p)
  }

  lemma CuttingMeans(b: seq<char>, text: string, nargs: nat, delim: char,
                     argv: seq<nat>, done: seq<string>, rest: string, p: nat, e: nat)
    requires Cutting(b, text, nargs, delim, argv, done, rest, p, e)
    ensures p <= e < |b| && b[e] == NUL && b[p..e] == rest && NulFree(rest) && |rest| == e - p
  {
    hide Fields, AllPlaced, NulFree;
  }

  lemma CutNone(b: seq<char>, text: string, nargs: nat, delim: char, p: nat, e: nat)
    requires p <= e < |b| && b[e] == NUL && b[p..e] == text && NulFree(text)
    ensures Cutting(b, text, nargs, delim, [], [], text, p, e)
  {
    hide Fields, NulFree;
    Associates(Fields(text, nargs, delim), [], []);
  }

  // Cutting at a delimiter, past everything placed so far, adds one more field.
  lemma CutMore(b: seq<char>, c: seq<char>, text: string, nargs: nat, delim: char,
                argv: seq<nat>, done: seq<string>, rest: string, p: nat, e: nat, cp: nat)
    requires Cutting(b, text, nargs, delim, argv, done, rest, p, e) && |done| < nargs
    requires cp == p + Find(rest, delim) < e && c == b[cp := NUL]
    ensures Cutting(c, text, nargs, delim, argv + [p], done + [rest[..cp - p]], rest[cp - p + 1..], cp + 1, e)
  {
    hide Find, Fields, AllPlaced, NulFree;
    PlaceNext(b, c, argv, done, rest, p, e, cp);
    FieldNext(text, nargs, delim, done, rest);
    RestNext(b, c, rest, p, e, cp);
  }

  lemma FieldNext(text: string, nargs: nat, delim: char, done: seq<string>, rest: string)
    requires |done| < nargs && Find(rest, delim) < |rest|
    requires Fields(text, nargs, delim) == done + Fields(rest, nargs - |done|, delim)
    ensures var k := Find(rest, delim);
            Fields(text, nargs, delim) == done + [rest[..k]] + Fields(rest[k + 1..], nargs - |done| - 1, delim)
  {
    var k := Find(rest, delim);
    OneField(rest, nargs - |done|, delim);
    hide *;
    Associates(done, [rest[..k]], Fields(rest[k + 1..], nargs - |done| - 1, delim));
  }

  lemma RestNext(b: seq<char>, c: seq<char>, rest: string, p: nat, e: nat, cp: nat)
    requires p <= cp < e < |b| && b[e] == NUL && b[p..e] == rest && NulFree(rest) && c == b[cp := NUL]
    ensures |c| == |b| && c[e] == NUL && c[cp + 1..e] == rest[cp - p + 1..] && NulFree(rest[cp - p + 1..])
  {
    var k := cp - p + 1;
    assert forall j :: 0 <= j < |rest| - k ==> rest[k..][j] == rest[k + j];
  }

  lemma CutLast(b: seq<char>, c: seq<char>, text: string, nargs: nat, delim: char,
                argv: seq<nat>, done: seq<string>, rest: string, p: nat, e: nat, cp: nat)
    requires Cutting(b, text, nargs, delim, argv, done, rest, p, e) && |done| < nargs
    requires cp == p + Find(rest, delim) == e && c == b[cp := NUL]
    ensures Strings(c, argv + [p], Fields(text, nargs, delim))
  {
    OneField(rest, nargs - |done|, delim);
    hide Find, Fields;
    PlaceNext(b, c, argv, done, rest, p, e, cp);
    assert rest[..e - p] == rest;
    hide AllPlaced, Strings;
    PlacedStrings(c, argv + [p], done + [rest], cp + 1);
  }

  lemma CutFull(b: seq<char>, text: string, nargs: nat, delim: char,
                argv: seq<nat>, done: seq<string>, rest: string, p: nat, e: nat)
    requires Cutting(b, text, nargs, delim, argv, done, rest, p, e) && |done| == nargs
    ensures Strings(b, argv, Fields(text, nargs, delim))
  {
    NoFields(rest, delim);
    hide Fields, AllPlaced, Strings;
    Associates(done, [], []);
    PlacedStrings(b, argv, done, p);
  }

  lemma PlaceNext(b: seq<char>, c: seq<char>, argv: seq<nat>, f: seq<string>, rest: string, p: nat, e: nat, cp: nat)
    requires AllPlaced(b, argv, f, p) && p <= cp <= e < |b| && c == b[cp := NUL]
    requires b[p..e] == rest && NulFree(rest)
    ensures AllPlaced(c, argv + [p], f + [rest[..cp - p]], cp + 1)
  {
    assert forall q :: 0 <= q < cp - p ==> c[p + q] == b[p..e][q];
    assert FieldAt(c, p, rest[..cp - p], cp + 1);
    forall j | 0 <= j < |argv| ensures FieldAt(c, argv[j], f[j], cp + 1) {
      assert FieldAt(b, argv[j], f[j], p);
    }
  }

  lemma PlacedStrings(b: seq<char>, argv: seq<nat>, f: seq<string>, limit: nat)
    requires AllPlaced(b, argv, f, limit)
    ensures Strings(b, argv, f)
  {
    forall j | 0 <= j < |argv| ensures Terminated(b, argv[j]) && CStr(b, argv[j]) == f[j] {
      assert FieldAt(b, argv[j], f[j], limit);
      var e := argv[j] + |f[j]|;
      assert b[argv[j]..e] == f[j];
      CStrIs(b, argv[j], e);
    }
  }

  lemma OneField(s: string, limit: nat, delim: char)
    requires limit > 0
    ensures var k := Find(s, delim);
            Fields(s, limit, delim) == if k == |s| then [s] else [s[..k]] + Fields(s[k + 1..], limit - 1, delim)
  {
  }

  lemma NoFields(s: string, delim: char)
    ensures Fields(s, 0, delim) == []
  {
  }

  lemma SomeField(s: string, limit: nat, delim: char)
    requires limit > 0
    ensures |Fields(s, limit, delim)| > 0
  {
  }

  lemma PrefixNulFree(s: string, k: nat)
    requires NulFree(s) && k <= |s|
    ensures NulFree(s[..k])
  {
  }

  lemma {:induction false} NumbersSnoc(f: seq<string>, x: string)
    ensures Numbers(f + [x]) == Numbers(f) + [Atoi(x)]
    decreases |f|
  {
    hide Atoi;
    if f != [] {
      NumbersSnoc(f[1..], x);
      assert (f + [x])[1..] == f[1..] + [x];
    }
  }
}
