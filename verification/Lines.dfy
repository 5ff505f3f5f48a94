// What a line of serial input does: acknowledgement discipline over arbitrary input,
// and the round trip from the host's printer to the controller's parser, with clock
// interrupts, response waits and scheduler passes interleaved at will.

module Lines {
  import opened Bytes
  import opened Text
  import opened Packets
  import opened Radios
  import opened Devices
  import opened Controllers
  import opened Exclusivity
  import opened Printer

  function SerialText(es: seq<Step>): string
    decreases |es|
  {
    if es == [] then "" else (if es[0].Serial? then [es[0].c] else "") + SerialText(es[1..])
  }

  lemma SerialHead(es: seq<Step>)
    requires es != [] && es[0].Serial?
    ensures SerialText(es) != "" && SerialText(es)[0] == es[0].c && SerialText(es)[1..] == SerialText(es[1..])
  {
  }

  predicate NoNewline(text: string) { forall c :: c in text ==> !IsNewline(c) }

  // Acknowledgements

  // Steps other than serial input print no replies, queue nothing and leave the parser alone.
  lemma OtherStepKeepsParser(s: Ctl, e: Step)
    requires Wf(s) && !e.Serial?
    ensures var t := Next(s, e);
            t.parser == s.parser && t.log.replies == s.log.replies && t.log.queued == s.log.queued
  {
    hide Receive, ResponseLine, Hears, SlotAfter, AfterSend, PacketAfterSend, SendSucceeds;
  }

  // One byte: at most one reply, which always leaves the parser waiting for the newline,
  // and at most one packet queued, never without a reply.
  lemma ByteReplies(s: Ctl, c: char, w: World)
    requires Wf(s)
    ensures var t := ParseByte(s, c, w);
            var r := |t.log.replies| - |s.log.replies|;
            var q := |t.log.queued| - |s.log.queued|;
            && 0 <= q <= r <= 1
            && (IsNewline(c) ==> t.parser.io == NEWLINE)
            && (s.parser.io == WAITNL ==> r == 0)
            && (!IsNewline(c) && s.parser.io == WAITNL ==> t.parser.io == WAITNL)
            && (!IsNewline(c) && r == 1 ==> t.parser.io == WAITNL)
            && (!IsNewline(c) && s.parser.io >= WAITNODE && r == 0 ==> t.parser.io >= WAITNODE)
            && (c == '.' && s.parser.io >= WAITNODE ==> r == 1)
  {
    hide StatusLine;
    if s.parser.io >= WAITCMD {
      var k := s.parser.curr;
      EnqueueChannels(s, k, w);
      if s.parser.io == WAITCMD {
        EnqueueChannels(PutCommand(s), k, w);
      } else if s.ch[k].packet.len < MAX_PAYLOAD {
        EnqueueChannels(PutData(s), k, w);
      }
      hide Enqueue;
    }
  }

  // Either nothing has been said about the line yet, or one reply has been printed.
  ghost predicate Tally(s: Ctl, replies: nat, queued: nat)
  {
    || (|s.log.replies| == replies && |s.log.queued| == queued && s.parser.io != WAITNL)
    || (s.parser.io == WAITNL && |s.log.replies| <= replies + 1 && queued <= |s.log.queued| <= queued + 1)
  }

  lemma {:induction false} LineTally(s: Ctl, es: seq<Step>, replies: nat, queued: nat)
    requires Wf(s) && Tally(s, replies, queued) && NoNewline(SerialText(es))
    ensures Tally(Run(s, es), replies, queued)
    decreases |es|
  {
    hide ParseByte, Schedule, Await, Wf;
    if es != [] {
      match es[0] {
        case Serial(c, w) =>
          assert SerialText(es) == [c] + SerialText(es[1..]);
          ByteReplies(s, c, w);
        case Interrupt => OtherStepKeepsParser(s, es[0]);
        case Wake => OtherStepKeepsParser(s, es[0]);
        case Wait(_, _) => OtherStepKeepsParser(s, es[0]);
        case Scheduler(_) => OtherStepKeepsParser(s, es[0]);
      }
      LineTally(Next(s, es[0]), es[1..], replies, queued);
    }
  }

  /** Whatever a line holds and whatever else happens while it arrives, it causes at most
      one reply and queues at most one packet, and its newline returns the parser to the
      start of a line from any state. */
  lemma AtMostOneReplyPerLine(s: Ctl, es: seq<Step>, newline: char, w: World)
    requires Wf(s) && s.parser.io == NEWLINE
    requires NoNewline(SerialText(es)) && IsNewline(newline)
    ensures var t := Next(Run(s, es), Serial(newline, w));
            && t.parser.io == NEWLINE
            && |t.log.replies| <= |s.log.replies| + 1
            && |t.log.queued| <= |s.log.queued| + 1
  {
    LineTally(s, es, |s.log.replies|, |s.log.queued|);
    ByteReplies(Run(s, es), newline, w);
    hide ParseByte, Run;
  }

  // The line has named a channel, so a reply has been printed or is still due.
  ghost predicate Due(s: Ctl, replies: nat)
  {
    || (s.parser.io >= WAITNODE && |s.log.replies| == replies)
    || (s.parser.io == WAITNL && |s.log.replies| == replies + 1)
  }

  // The rest of a line: anything, a full stop, the newline pair.
  predicate Closing(text: string)
  {
    |text| >= 3 && (text == ['.', '\r', '\n'] || (!IsNewline(text[0]) && Closing(text[1..])))
  }

  lemma {:induction false} ClosingBody(body: string)
    requires NoNewline(body)
    ensures Closing(body + ['.', '\r', '\n'])
  {
    if body == "" {
      assert body + ['.', '\r', '\n'] == ['.', '\r', '\n'];
    } else {
      assert body[0] in body;
      ClosingBody(body[1..]);
      assert (body + ['.', '\r', '\n'])[1..] == body[1..] + ['.', '\r', '\n'];
    }
  }

  lemma {:induction false} NewlinesSettle(s: Ctl, es: seq<Step>)
    requires Wf(s) && (forall c :: c in SerialText(es) ==> IsNewline(c))
    requires s.parser.io == WAITNL || s.parser.io == NEWLINE
    ensures var t := Run(s, es);
            && t.parser.io == (if SerialText(es) == "" then s.parser.io else NEWLINE)
            && t.log.replies == s.log.replies && t.log.queued == s.log.queued
    decreases |es|
  {
    hide Schedule, Await, Wf, Enqueue, StatusLine;
    if es != [] {
      if es[0].Serial? {
        assert SerialText(es) == [es[0].c] + SerialText(es[1..]);
        assert es[0].c in SerialText(es);
      } else {
        OtherStepKeepsParser(s, es[0]);
      }
      NewlinesSettle(Next(s, es[0]), es[1..]);
    }
  }

  lemma {:induction false} DueIsPaid(s: Ctl, es: seq<Step>, replies: nat)
    requires Wf(s) && Due(s, replies) && Closing(SerialText(es))
    ensures var t := Run(s, es);
            t.parser.io == NEWLINE && |t.log.replies| == replies + 1
    decreases |es|
  {
    hide ParseByte, Schedule, Await, Wf, SerialText;
    NonemptyText(es);
    var t := Next(s, es[0]);
    if es[0].Serial? {
      SerialHead(es);
      ByteReplies(s, es[0].c, es[0].world);
      if SerialText(es) == ['.', '\r', '\n'] {
        assert SerialText(es[1..]) == ['\r', '\n'];
        NewlinesSettle(t, es[1..]);
      } else {
        DueIsPaid(t, es[1..], replies);
      }
    } else {
      SerialSkip(es);
      OtherStepKeepsParser(s, es[0]);
      DueIsPaid(t, es[1..], replies);
    }
  }

  lemma NonemptyText(es: seq<Step>)
    ensures SerialText(es) != "" ==> es != []
  {
  }

  lemma SerialSkip(es: seq<Step>)
    requires es != [] && !es[0].Serial?
    ensures SerialText(es) == SerialText(es[1..])
  {
  }

  // A complete line for channel letters A to H, from its letter on.
  predicate FromLetter(text: string)
  {
    text != "" && 'A' <= text[0] <= 'H' && Closing(text[1..])
  }

  lemma {:induction false} LetterIsAnswered(s: Ctl, es: seq<Step>)
    requires Wf(s) && s.parser.io == WAITCHAN && FromLetter(SerialText(es))
    ensures var t := Run(s, es);
            t.parser.io == NEWLINE && |t.log.replies| == |s.log.replies| + 1
    decreases |es|
  {
    hide ParseByte, Schedule, Await, Wf, SerialText, Closing;
    NonemptyText(es);
    var t := Next(s, es[0]);
    if es[0].Serial? {
      SerialHead(es);
      LetterByte(s, es[0].c, es[0].world);
      DueIsPaid(t, es[1..], |s.log.replies|);
    } else {
      SerialSkip(es);
      OtherStepKeepsParser(s, es[0]);
      LetterIsAnswered(t, es[1..]);
    }
  }

  lemma LetterByte(s: Ctl, c: char, w: World)
    requires Wf(s) && s.parser.io == WAITCHAN && 'A' <= c <= 'H'
    ensures Due(ParseByte(s, c, w), |s.log.replies|)
  {
    hide Enqueue, StatusLine, Boot;
  }

  /** Every complete line addressed to a channel letter is answered exactly once, however
      malformed it is in between. */
  lemma {:induction false} ExactlyOneReply(s: Ctl, es: seq<Step>)
    requires Wf(s) && s.parser.io == NEWLINE
    requires var text := SerialText(es); text != "" && text[0] == '>' && FromLetter(text[1..])
    ensures var t := Run(s, es);
            t.parser.io == NEWLINE && |t.log.replies| == |s.log.replies| + 1
    decreases |es|
  {
    hide ParseByte, Schedule, Await, Wf, SerialText, FromLetter;
    NonemptyText(es);
    var t := Next(s, es[0]);
    if es[0].Serial? {
      SerialHead(es);
      ArrowByte(s, es[0].world);
      LetterIsAnswered(t, es[1..]);
    } else {
      SerialSkip(es);
      OtherStepKeepsParser(s, es[0]);
      ExactlyOneReply(t, es[1..]);
    }
  }

  lemma ArrowByte(s: Ctl, w: World)
    requires Wf(s) && s.parser.io == NEWLINE
    ensures ParseByte(s, '>', w) == WithIo(s, WAITCHAN)
  {
    hide Enqueue, StatusLine, Boot;
  }

  lemma DecNoNewline(n: int)
    ensures NoNewline(Dec(n))
  {
    DecNatReads(if n < 0 then -n else n);
  }

  lemma {:induction false} DecListNoNewline(ns: seq<int>)
    ensures NoNewline(DecList(ns))
    decreases |ns|
  {
    if ns != [] {
      DecNoNewline(ns[0]);
      DecListNoNewline(ns[1..]);
      hide Dec;
    }
  }

  /** In particular every line the daemon prints for channels 0 to 7 is, whatever the
      numbers in it. */
  lemma PrintedLinesAreAnsweredOnce(s: Ctl, es: seq<Step>, chan: int, node: int, cmd: int, data: seq<int>)
    requires Wf(s) && s.parser.io == NEWLINE && 0 <= chan < 8
    requires SerialText(es) == Sent(CommandLine(chan, node, cmd, data))
    ensures var t := Run(s, es);
            t.parser.io == NEWLINE && |t.log.replies| == |s.log.replies| + 1
  {
    DecNoNewline(node);
    DecNoNewline(cmd);
    DecListNoNewline(data);
    hide Dec, DecList, Run, Wf;
    var body := Dec(node) + ":" + Dec(cmd) + (if data == [] then "" else ":" + DecList(data));
    ClosingBody(body);
    hide Closing;
    var text := SerialText(es);
    assert text[1..][1..] == body + ['.', '\r', '\n'];
    ExactlyOneReply(s, es);
  }
}
