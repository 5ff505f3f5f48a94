// The host's side of the serial protocol: the text of each message the daemon sends
// (lrmon/command.c).

module Printer {
  import opened Bytes
  import opened Text

  // ">%c%d:%d" and, if there is data, ":%d,%d,...", closed by a full stop.
  function CommandLine(chan: int, node: int, cmd: int, data: seq<int>): string
  {
    ['>', ((chan + 'A' as int) % 0x100) as char] + Dec(node) + ":" + Dec(cmd) +
    (if data == [] then "" else ":" + DecList(data)) + "."
  }

  const CRLF := "\r\n"

  // What sio_send writes to the device.
  function Sent(msg: string): string { msg + CRLF }

  lemma {:induction false} DecListSnoc(ns: seq<int>, x: int)
    ensures DecList(ns + [x]) == if ns == [] then Dec(x) else DecList(ns) + "," + Dec(x)
    decreases |ns|
  {
    hide Dec;
    if |ns| > 1 {
      DecListSnoc(ns[1..], x);
      assert (ns + [x])[1..] == ns[1..] + [x];
    } else if |ns| == 1 {
      assert (ns + [x])[1..] == [x];
    }
  }

  method SendCommand(chan: int, node: int, cmd: int, data: seq<int>) returns (out: string)
    ensures out == Sent(CommandLine(chan, node, cmd, data))
  {
    hide Dec;
    var head := ['>', ((chan + 'A' as int) % 0x100) as char] + Dec(node) + ":" + Dec(cmd);
    out := head;
    for i := 0 to |data|
      invariant out == head + if i == 0 then "" else ":" + DecList(data[..i])
    {
      DecListSnoc(data[..i], data[i]);
      assert data[..i + 1] == data[..i] + [data[i]];
      if i == 0 {
        out := out + ":";
      } else {
        out := out + ",";
      }
      out := out + Dec(data[i]);
    }
    assert data[..|data|] == data;
    out := out + ".";
    out := out + CRLF;
  }

  // Time of day in units of 10 ms.
  function WallClock(seconds: nat, micros: nat): nat
  {
    (seconds % 86400) * 100 + micros / 10000
  }

  /** It counts the whole hundredths of a second since midnight. */
  lemma WallClockCounts(seconds: nat, micros: nat)
    requires micros < 1000000
    ensures var sinceMidnight := seconds % (24 * 60 * 60) * 1000000 + micros;
            10000 * WallClock(seconds, micros) <= sinceMidnight < 10000 * (WallClock(seconds, micros) + 1)
  {
  }

  // The clock setting as it is sent: ticks within the ten minutes, high byte first, and
  // the ten-minute index of the day.
  function TimeFields(seconds: nat, micros: nat): (data: seq<nat>)
    requires micros < 1000000
    ensures |data| == 3 && forall k :: 0 <= k < 3 ==> data[k] < 0x100
    ensures data[2] * 60000 + data[0] * 0x100 + data[1] == WallClock(seconds, micros)
    ensures data[0] * 0x100 + data[1] < 60000 && data[2] < 144
  {
    var w := WallClock(seconds, micros);
    [w % 60000 / 0x100, w % 60000 % 0x100, w / 60000]
  }

  lemma DayParts(day: nat, cents: nat)
    requires cents < 100
    ensures (day * 100 + cents) / 60000 == day / 600
    ensures (day * 100 + cents) % 60000 == day % 600 * 100 + cents
  {
    var q, r := day / 600, day % 600;
    assert day * 100 + cents == 60000 * q + (r * 100 + cents);
  }

  method SetTime(seconds: nat, micros: nat) returns (out: string)
    requires micros < 1000000
    ensures out == Sent(CommandLine(0, 1, 5, TimeFields(seconds, micros)))
  {
    var ticks := seconds % (60 * 60 * 24);
    var tod := ticks / 600;
    ticks := (ticks % 600) * 100;
    ticks := ticks + micros / 10000;
    var data: seq<int> := [(ticks / 0x100) % 0x100, ticks % 0x100, tod];
    DayParts(seconds % 86400, micros / 10000);
    assert data == TimeFields(seconds, micros);
    hide TimeFields, CommandLine;
    out := SendCommand(0, 1, 5, data);
  }
}
