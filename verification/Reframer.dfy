// The daemon's serial input: bytes arrive in arbitrary chunks and leave as lines
// (process_sio in lrmon/serial.c).

module Reframer {

  const SIZE := 1024
  const NUL := '\0'

  predicate IsBreak(c: char) { c == '\r' || c == '\n' }

  // Position of the first line break, or the length.
  function FirstBreak(s: string): (k: nat)
    ensures k <= |s|
  {
    if s == "" || IsBreak(s[0]) then 0 else 1 + FirstBreak(s[1..])
  }

  ghost predicate BreakFree(s: string, k: nat)
    requires k <= |s|
  {
    forall j :: 0 <= j < k ==> !IsBreak(s[j])
  }

  lemma {:induction false} FirstBreakFinds(s: string)
    ensures var k := FirstBreak(s);
            (k < |s| ==> IsBreak(s[k])) && BreakFree(s, k)
  {
    if s != "" && !IsBreak(s[0]) {
      FirstBreakFinds(s[1..]);
      var k := FirstBreak(s[1..]);
      assert forall j :: 1 <= j < k + 1 ==> s[j] == s[1..][j - 1];
    }
  }

  // The non-empty segments that a break terminates, in order.
  function Segments(s: string): seq<string>
    decreases |s|
  {
    var k := FirstBreak(s);
    if k == |s| then [] else (if k == 0 then [] else [s[..k]]) + Segments(s[k + 1..])
  }

  // What no break has terminated yet.
  function Tail(s: string): string
    decreases |s|
  {
    var k := FirstBreak(s);
    if k == |s| then s else Tail(s[k + 1..])
  }

  // A C string ends at the first NUL.
  function Cut(s: string): (t: string)
    ensures |t| <= |s|
  {
    if s == "" || s[0] == NUL then "" else [s[0]] + Cut(s[1..])
  }

  ghost predicate NulFree(s: string) { forall j :: 0 <= j < |s| ==> s[j] != NUL }

  lemma {:induction false} CutFinds(s: string)
    ensures var t := Cut(s);
            t == s[..|t|] && (|t| < |s| ==> s[|t|] == NUL) && NulFree(t)
  {
    if s != "" && s[0] != NUL {
      CutFinds(s[1..]);
    }
  }

  lemma FirstBreakUnique(s: string, k: nat)
    requires k <= |s| && (k < |s| ==> IsBreak(s[k])) && BreakFree(s, k)
    ensures FirstBreak(s) == k
  {
    FirstBreakFinds(s);
    hide FirstBreak;
    assert FirstBreak(s) >= k;
  }

  lemma OneSegment(s: string)
    ensures var k := FirstBreak(s);
            if k == |s| then Segments(s) == [] && Tail(s) == s
            else
              && Segments(s) == (if k == 0 then [] else [s[..k]]) + Segments(s[k + 1..])
              && Tail(s) == Tail(s[k + 1..])
  {
    hide *;
    SegmentsStep(s);
    TailStep(s);
  }

  lemma SegmentsStep(s: string)
    ensures var k := FirstBreak(s);
            Segments(s) == if k == |s| then [] else (if k == 0 then [] else [s[..k]]) + Segments(s[k + 1..])
  {
    hide FirstBreak, Tail;
  }

  lemma TailStep(s: string)
    ensures var k := FirstBreak(s);
            Tail(s) == if k == |s| then s else Tail(s[k + 1..])
  {
    hide FirstBreak, Segments;
  }

  // Nothing is lost or invented

  function WithoutBreaks(s: string): string
  {
    if s == "" then "" else (if IsBreak(s[0]) then "" else [s[0]]) + WithoutBreaks(s[1..])
  }

  function Flat(ss: seq<string>): string
  {
    if ss == [] then "" else ss[0] + Flat(ss[1..])
  }

  lemma {:induction false} WithoutBreaksAt(s: string, k: nat)
    requires k <= |s| && BreakFree(s, k)
    ensures WithoutBreaks(s) == s[..k] + WithoutBreaks(s[k..])
  {
    if k > 0 {
      assert BreakFree(s[1..], k - 1);
      WithoutBreaksAt(s[1..], k - 1);
      assert s[1..][k - 1..] == s[k..];
      assert s[..k] == [s[0]] + s[1..][..k - 1];
    } else {
      assert s[0..] == s;
    }
  }

  lemma FlatAppend(a: string, ss: seq<string>)
    ensures Flat([a] + ss) == a + Flat(ss)
  {
    assert ([a] + ss)[1..] == ss;
  }

  lemma {:induction false} SegmentsAreClean(s: string)
    ensures forall x :: x in Segments(s) ==> x != "" && FirstBreak(x) == |x|
    ensures FirstBreak(Tail(s)) == |Tail(s)|
    decreases |s|
  {
    var k := FirstBreak(s);
    OneSegment(s);
    FirstBreakFinds(s);
    if k < |s| {
      FirstBreakUnique(s[..k], k);
      hide Segments, Tail, FirstBreak;
      SegmentsAreClean(s[k + 1..]);
    }
  }

  lemma WithoutBreaksLine(s: string, k: nat)
    requires k == FirstBreak(s) < |s|
    ensures WithoutBreaks(s) == s[..k] + WithoutBreaks(s[k + 1..])
  {
    FirstBreakFinds(s);
    WithoutBreaksAt(s, k);
    BreakSkipped(s[k..]);
    assert s[k..][1..] == s[k + 1..];
    hide *;
  }

  lemma BreakSkipped(s: string)
    requires s != "" && IsBreak(s[0])
    ensures WithoutBreaks(s) == WithoutBreaks(s[1..])
  {
    var rest := WithoutBreaks(s[1..]);
    assert [] + rest == rest;
  }

  /** The lines and the remainder together hold exactly the stream without its breaks. */
  lemma {:induction false} SegmentsCoverStream(s: string)
    ensures WithoutBreaks(s) == Flat(Segments(s)) + Tail(s)
    decreases |s|
  {
    var k := FirstBreak(s);
    OneSegment(s);
    FirstBreakFinds(s);
    if k == |s| {
      WithoutBreaksAt(s, k);
      assert s[k..] == "" && s[..k] == s;
    } else {
      WithoutBreaksLine(s, k);
      hide Segments, Tail, WithoutBreaks, FirstBreak;
      SegmentsCoverStream(s[k + 1..]);
      var rest := Segments(s[k + 1..]);
      FlatAppend(s[..k], rest);
      hide Flat;
      Associates(s[..k], Flat(rest), Tail(s[k + 1..]));
      if k == 0 {
        assert s[..k] == "";
        Associates(rest, [], []);
        Associates(Flat(rest), [], []);
      }
    }
  }

  // Chunks

  /** Splitting a stream anywhere: the lines of the whole are the lines of the first part
      followed by those of its remainder and the second part. */
  lemma {:induction false} SplitAnywhere(a: string, b: string)
    ensures Segments(a + b) == Segments(a) + Segments(Tail(a) + b)
    ensures Tail(a + b) == Tail(Tail(a) + b)
    decreases |a|
  {
    var k := FirstBreak(a);
    OneSegment(a);
    if k < |a| {
      BreakInFirst(a, b);
      OneSegment(a + b);
      hide Segments, Tail, FirstBreak;
      SplitAnywhere(a[k + 1..], b);
      Associates(if k == 0 then [] else [a[..k]], Segments(a[k + 1..]), Segments(Tail(a) + b));
    } else {
      hide Segments, Tail, FirstBreak;
      Associates(Segments(a + b), [], []);
    }
  }

  lemma BreakInFirst(a: string, b: string)
    requires FirstBreak(a) < |a|
    ensures var k := FirstBreak(a);
            FirstBreak(a + b) == k && (a + b)[..k] == a[..k] && (a + b)[k + 1..] == a[k + 1..] + b
  {
    FirstBreakFinds(a);
    FirstBreakUnique(a + b, FirstBreak(a));
    hide FirstBreak;
  }

  // What the daemon has handed on and what it holds after a series of reads.
  datatype Stream = Stream(lines: seq<string>, rest: string)

  function ReadChunk(st: Stream, chunk: string): Stream
  {
    var text := Cut(st.rest + chunk);
    Stream(st.lines + Segments(text), Tail(text))
  }

  function ReadChunks(st: Stream, chunks: seq<string>): Stream
    decreases |chunks|
  {
    if chunks == [] then st else ReadChunks(ReadChunk(st, chunks[0]), chunks[1..])
  }

  lemma CutWhole(s: string)
    requires NulFree(s)
    ensures Cut(s) == s
  {
    CutFinds(s);
  }

  lemma {:induction false} ReadsAreSegments(st: Stream, chunks: seq<string>)
    requires NulFree(st.rest) && forall c :: c in chunks ==> NulFree(c)
    requires FirstBreak(st.rest) == |st.rest|
    ensures ReadChunks(st, chunks)
            == Stream(st.lines + Segments(st.rest + Flat(chunks)), Tail(st.rest + Flat(chunks)))
    decreases |chunks|
  {
    if chunks == [] {
      assert st.rest + "" == st.rest;
      OneSegment(st.rest);
      assert st.lines + [] == st.lines;
    } else {
      assert chunks[0] in chunks;
      ReadOneChunk(st, chunks[0]);
      ReadThenRest(st, chunks[0], Flat(chunks[1..]));
      assert st.rest + Flat(chunks) == st.rest + chunks[0] + Flat(chunks[1..]);
      hide Segments, Tail, FirstBreak, NulFree, ReadChunk;
      ReadsAreSegments(ReadChunk(st, chunks[0]), chunks[1..]);
    }
  }

  lemma ReadThenRest(st: Stream, chunk: string, more: string)
    requires NulFree(st.rest) && NulFree(chunk)
    ensures var next := ReadChunk(st, chunk);
            && next.lines + Segments(next.rest + more) == st.lines + Segments(st.rest + chunk + more)
            && Tail(next.rest + more) == Tail(st.rest + chunk + more)
  {
    var a := st.rest + chunk;
    ReadOneChunk(st, chunk);
    SplitAnywhere(a, more);
    hide *;
    Associates(st.lines, Segments(a), Segments(Tail(a) + more));
  }

  lemma Associates<T>(a: seq<T>, b: seq<T>, c: seq<T>)
    ensures (a + b) + c == a + (b + c)
    ensures [] + a == a == a + []
  {
  }

  lemma ReadOneChunk(st: Stream, chunk: string)
    requires NulFree(st.rest) && NulFree(chunk)
    ensures var next := ReadChunk(st, chunk);
            && next == Stream(st.lines + Segments(st.rest + chunk), Tail(st.rest + chunk))
            && NulFree(next.rest) && FirstBreak(next.rest) == |next.rest|
  {
    var a := st.rest + chunk;
    CutWhole(a);
    SegmentsAreClean(a);
    TailNulFree(a);
    hide Segments, Tail, FirstBreak, Cut, NulFree;
  }

  lemma {:induction false} TailNulFree(s: string)
    requires NulFree(s)
    ensures NulFree(Tail(s))
    decreases |s|
  {
    var k := FirstBreak(s);
    if k < |s| {
      TailNulFree(s[k + 1..]);
    }
  }

  /** Chunk independence: however a NUL-free stream is split into reads, the lines are
      its non-empty segments in order and the buffer is left with its unterminated tail. */
  lemma ChunkIndependence(chunks: seq<string>)
    requires forall c :: c in chunks ==> NulFree(c)
    ensures ReadChunks(Stream([], ""), chunks) == Stream(Segments(Flat(chunks)), Tail(Flat(chunks)))
  {
    ReadsAreSegments(Stream([], ""), chunks);
    assert "" + Flat(chunks) == Flat(chunks);
  }

  // Streams with a NUL

  predicate Blank(c: char) { c == NUL || IsBreak(c) }

  // Nothing but NULs and breaks follows the first NUL, and no break if a line is open.
  ghost predicate Harmless(s: string)
  {
    var n := |Cut(s)|;
    && (forall j :: n <= j < |s| ==> Blank(s[j]))
    && (Tail(Cut(s)) == "" || forall j :: n <= j < |s| ==> s[j] == NUL)
  }

  // However the stream is split, it is read as it would be in one piece.
  ghost predicate SplitsAgree(s: string)
  {
    forall chunks :: Flat(chunks) == s ==> ReadChunks(Stream([], ""), chunks) == ReadChunk(Stream([], ""), s)
  }

  ghost predicate Clean(st: Stream) { NulFree(st.rest) && FirstBreak(st.rest) == |st.rest| }

  lemma CutJoin(a: string, b: string)
    ensures Cut(a + b) == if |Cut(a)| < |a| then Cut(a) else a + Cut(b)
  {
    CutFinds(a);
    CutFinds(b);
    var n := if |Cut(a)| < |a| then |Cut(a)| else |a| + |Cut(b)|;
    assert forall j :: 0 <= j < |a| ==> (a + b)[j] == a[j];
    assert forall j :: |a| <= j < |a| + |b| ==> (a + b)[j] == b[j - |a|];
    CutAt(a + b, n);
  }

  lemma CleanRead(st: Stream, chunk: string)
    requires Clean(st)
    ensures Clean(ReadChunk(st, chunk))
  {
    CutFinds(st.rest + chunk);
    SegmentsAreClean(Cut(st.rest + chunk));
    TailNulFree(Cut(st.rest + chunk));
  }

  lemma {:induction false} OnlyBreaks(s: string)
    requires forall j :: 0 <= j < |s| ==> IsBreak(s[j])
    ensures Segments(s) == [] && Tail(s) == ""
  {
    OneSegment(s);
    if s != "" {
      OnlyBreaks(s[1..]);
    }
  }

  lemma BlanksCut(a: string)
    requires forall j :: 0 <= j < |a| ==> Blank(a[j])
    ensures forall j :: 0 <= j < |Cut(a)| ==> IsBreak(Cut(a)[j])
    ensures (forall j :: 0 <= j < |a| ==> a[j] == NUL) ==> Cut(a) == ""
  {
    CutFinds(a);
    forall j | 0 <= j < |Cut(a)| ensures IsBreak(Cut(a)[j]) {
      assert a[j] == Cut(a)[j];
    }
  }

  // Splitting off a first read that has no NUL.
  lemma OpenRead(st: Stream, c: string, more: string)
    requires Clean(st) && NulFree(c) && Harmless(st.rest + c + more)
    ensures var next := ReadChunk(st, c);
            Harmless(next.rest + more) && ReadChunk(next, more) == ReadChunk(st, c + more)
  {
    var a := st.rest + c;
    CutWhole(a);
    CutJoin(a, more);
    var t := Tail(a);
    TailNulFree(a);
    CutWhole(t);
    CutJoin(t, more);
    hide Segments, Tail, Cut, FirstBreak, NulFree;
    Associates(st.rest, c, more);
    SplitAnywhere(a, Cut(more));
    hide Harmless;
    Associates(st.lines, Segments(a), Segments(t + Cut(more)));
    SameBlanks(a, t, more);
  }

  // Whether what follows is harmless depends only on the line left open.
  lemma SameBlanks(a: string, t: string, more: string)
    requires Harmless(a + more) && Cut(a + more) == a + Cut(more) && Cut(t + more) == t + Cut(more)
    requires Tail(t + Cut(more)) == Tail(a + Cut(more))
    ensures Harmless(t + more)
  {
    hide Tail, Cut;
    var n, m := |a| + |Cut(more)|, |t| + |Cut(more)|;
    forall j | m <= j < |t + more|
      ensures (t + more)[j] == (a + more)[j - |t| + |a|] && n <= j - |t| + |a| < |a + more|
    {
    }
  }

  // Blanks behind a held remainder change nothing.
  lemma BlanksBehind(t: string, more: string)
    requires NulFree(t) && FirstBreak(t) == |t|
    requires forall j :: 0 <= j < |more| ==> Blank(more[j])
    requires t == "" || forall j :: 0 <= j < |more| ==> more[j] == NUL
    ensures Segments(Cut(t + more)) == [] && Tail(Cut(t + more)) == t && Harmless(t + more)
  {
    BlanksCut(more);
    CutWhole(t);
    CutJoin(t, more);
    if t == "" {
      assert t + more == more && t + Cut(more) == Cut(more);
      OnlyBreaks(Cut(more));
    } else {
      assert t + Cut(more) == t;
      OneSegment(t);
    }
    hide Cut, Segments, Tail, FirstBreak;
    assert forall j :: |t| <= j < |t + more| ==> (t + more)[j] == more[j - |t|];
  }

  // Splitting off a first read that holds the first NUL.
  lemma ClosedRead(st: Stream, c: string, more: string)
    requires Clean(st) && |Cut(st.rest + c)| < |st.rest + c| && Harmless(st.rest + c + more)
    ensures var next := ReadChunk(st, c);
            Harmless(next.rest + more) && ReadChunk(next, more) == ReadChunk(st, c + more)
  {
    var a := st.rest + c;
    CutJoin(a, more);
    CleanRead(st, c);
    hide Cut, Segments, Tail, FirstBreak, NulFree, Harmless;
    Associates(st.rest, c, more);
    LaterBlanks(a, more);
    var x, t := Cut(a), Tail(Cut(a));
    var next := ReadChunk(st, c);
    assert next == Stream(st.lines + Segments(x), t);
    BlanksBehind(t, more);
    assert ReadChunk(next, more) == Stream(st.lines + Segments(x) + [], t);
    Associates(st.lines + Segments(x), [], []);
  }

  lemma LaterBlanks(a: string, more: string)
    requires |Cut(a)| < |a| && Harmless(a + more) && Cut(a + more) == Cut(a)
    ensures forall j :: 0 <= j < |more| ==> Blank(more[j])
    ensures Tail(Cut(a)) == "" || forall j :: 0 <= j < |more| ==> more[j] == NUL
  {
    hide Cut, Tail;
    assert forall j :: 0 <= j < |more| ==> more[j] == (a + more)[|a| + j];
  }

  lemma {:induction false} HarmlessReads(st: Stream, chunks: seq<string>)
    requires Clean(st) && Harmless(st.rest + Flat(chunks))
    ensures ReadChunks(st, chunks) == ReadChunk(st, Flat(chunks))
    decreases |chunks|
  {
    hide Clean, Harmless, ReadChunk;
    if chunks == [] {
      EmptyRead(st);
    } else {
      var c, more := chunks[0], Flat(chunks[1..]);
      assert Flat(chunks) == c + more;
      hide Flat;
      FirstRead(st, c, more);
      HarmlessReads(ReadChunk(st, c), chunks[1..]);
    }
  }

  lemma EmptyRead(st: Stream)
    requires Clean(st)
    ensures ReadChunk(st, "") == st
  {
    Associates(st.rest, [], []);
    CutWhole(st.rest);
    OneSegment(st.rest);
    hide Cut, Segments, Tail;
    Associates(st.lines, [], []);
  }

  // Splitting off any first read.
  lemma FirstRead(st: Stream, c: string, more: string)
    requires Clean(st) && Harmless(st.rest + (c + more))
    ensures var next := ReadChunk(st, c);
            Clean(next) && Harmless(next.rest + more) && ReadChunk(next, more) == ReadChunk(st, c + more)
  {
    Associates(st.rest, c, more);
    CleanRead(st, c);
    CutJoin(st.rest, c);
    CutWhole(st.rest);
    CutFinds(c);
    hide Harmless, ReadChunk, Cut;
    if |Cut(c)| == |c| {
      OpenRead(st, c, more);
    } else {
      ClosedRead(st, c, more);
    }
  }

  // Reading byte by byte drops the NULs and nothing else.

  function Singles(s: string): seq<string>
  {
    if s == "" then [] else [[s[0]]] + Singles(s[1..])
  }

  function WithoutNuls(s: string): string
  {
    if s == "" then "" else (if s[0] == NUL then "" else [s[0]]) + WithoutNuls(s[1..])
  }

  lemma {:induction false} SinglesFlat(s: string)
    ensures Flat(Singles(s)) == s
  {
    if s != "" {
      SinglesFlat(s[1..]);
      FlatAppend([s[0]], Singles(s[1..]));
    }
  }

  lemma ReadNul(st: Stream)
    requires Clean(st)
    ensures ReadChunk(st, [NUL]) == st
  {
    CutAt(st.rest + [NUL], |st.rest|);
    assert (st.rest + [NUL])[..|st.rest|] == st.rest;
    OneSegment(st.rest);
    Associates(st.lines, [], []);
  }

  lemma SinglesStep(st: Stream, s: string)
    requires s != ""
    ensures ReadChunks(st, Singles(s)) == ReadChunks(ReadChunk(st, [s[0]]), Singles(s[1..]))
  {
    hide ReadChunk;
    var rest := Singles(s[1..]);
    assert Singles(s) == [[s[0]]] + rest;
    hide Singles;
    assert ([[s[0]]] + rest)[1..] == rest;
  }

  function Kept(c: char): string { if c == NUL then "" else [c] }

  lemma WithoutNulsStep(s: string)
    requires s != ""
    ensures WithoutNuls(s) == Kept(s[0]) + WithoutNuls(s[1..])
  {
  }

  // One byte and what is kept of the rest.
  lemma SingleRead(st: Stream, c: char, more: string)
    requires Clean(st)
    ensures var next := ReadChunk(st, [c]);
            var text := st.rest + (Kept(c) + more);
            && next.lines + Segments(next.rest + more) == st.lines + Segments(text)
            && Tail(next.rest + more) == Tail(text)
  {
    hide Segments, Tail;
    if c == NUL {
      ReadNul(st);
      hide ReadChunk;
      assert Kept(c) + more == more;
    } else {
      ReadThenRest(st, [c], more);
      hide ReadChunk;
      Associates(st.rest, [c], more);
    }
  }

  lemma {:induction false} SingleReads(st: Stream, s: string)
    requires Clean(st)
    ensures var text := st.rest + WithoutNuls(s);
            ReadChunks(st, Singles(s)) == Stream(st.lines + Segments(text), Tail(text))
    decreases |s|
  {
    if s == "" {
      Associates(st.rest, [], []);
      OneSegment(st.rest);
      Associates(st.lines, [], []);
      hide Segments, Tail;
    } else {
      CleanRead(st, [s[0]]);
      hide Clean, ReadChunk, Segments, Tail;
      SinglesStep(st, s);
      WithoutNulsStep(s);
      hide ReadChunks, Singles, WithoutNuls, Kept;
      SingleReads(ReadChunk(st, [s[0]]), s[1..]);
      SingleRead(st, s[0], WithoutNuls(s[1..]));
    }
  }

  lemma CutStep(s: string)
    requires s != "" && s[0] != NUL
    ensures Cut(s) == [s[0]] + Cut(s[1..]) && s[|Cut(s)|..] == s[1..][|Cut(s[1..])|..]
  {
  }

  lemma {:induction false} WithoutNulsFrom(s: string)
    ensures WithoutNuls(s) == Cut(s) + WithoutNuls(s[|Cut(s)|..])
  {
    if s != "" && s[0] != NUL {
      WithoutNulsFrom(s[1..]);
      CutStep(s);
      WithoutNulsStep(s);
      hide Cut, WithoutNuls;
      Associates([s[0]], Cut(s[1..]), WithoutNuls(s[|Cut(s)|..]));
    } else {
      assert Cut(s) == "";
      hide WithoutNuls, Cut;
      assert s[0..] == s;
      Associates(WithoutNuls(s), [], []);
    }
  }

  lemma {:induction false} WithoutBreaksAppend(a: string, b: string)
    ensures WithoutBreaks(a + b) == WithoutBreaks(a) + WithoutBreaks(b)
    decreases |a|
  {
    if a == "" {
      assert a + b == b;
    } else {
      assert (a + b)[1..] == a[1..] + b;
      WithoutBreaksAppend(a[1..], b);
    }
  }

  lemma {:induction false} NothingLeft(y: string)
    requires WithoutBreaks(WithoutNuls(y)) == ""
    ensures forall j :: 0 <= j < |y| ==> Blank(y[j])
    ensures (forall j :: 0 <= j < |WithoutNuls(y)| ==> IsBreak(WithoutNuls(y)[j]))
    ensures WithoutNuls(y) == "" ==> forall j :: 0 <= j < |y| ==> y[j] == NUL
  {
    if y != "" {
      var rest := WithoutNuls(y[1..]);
      if y[0] != NUL {
        assert WithoutNuls(y)[1..] == rest;
      } else {
        assert WithoutNuls(y) == rest;
      }
      NothingLeft(y[1..]);
      assert forall j :: 1 <= j < |y| ==> y[j] == y[1..][j - 1];
    }
  }

  lemma {:induction false} TailAfterBreak(s: string)
    requires s != "" && IsBreak(s[|s| - 1])
    ensures Tail(s) == ""
    decreases |s|
  {
    FirstBreakFinds(s);
    var k := FirstBreak(s);
    OneSegment(s);
    if k + 1 < |s| {
      TailAfterBreak(s[k + 1..]);
    }
  }

  lemma SameLinesSameText(x: string, w: string)
    requires Segments(x + w) == Segments(x) && Tail(x + w) == Tail(x)
    ensures WithoutBreaks(w) == ""
  {
    SegmentsCoverStream(x + w);
    SegmentsCoverStream(x);
    WithoutBreaksAppend(x, w);
    hide *;
    assert |WithoutBreaks(w)| == 0;
  }

  lemma OpenLine(x: string, w: string)
    requires w != "" && (forall j :: 0 <= j < |w| ==> IsBreak(w[j])) && Tail(x + w) == Tail(x)
    ensures Tail(x) == ""
  {
    assert (x + w)[|x + w| - 1] == w[|w| - 1];
    TailAfterBreak(x + w);
  }

  lemma AgreementIsHarmless(s: string)
    requires SplitsAgree(s)
    ensures Harmless(s)
  {
    var x, y := Cut(s), s[|Cut(s)|..];
    var w := WithoutNuls(y);
    SameReads(s);
    hide SplitsAgree;
    SameLinesSameText(x, w);
    NothingLeft(y);
    hide Cut, Segments, WithoutNuls, WithoutBreaks;
    if w != "" {
      OpenLine(x, w);
    }
    hide Tail;
    assert forall j :: |x| <= j < |s| ==> s[j] == y[j - |x|];
  }

  // In one piece, and byte by byte.
  lemma SameReads(s: string)
    requires SplitsAgree(s)
    ensures var x, w := Cut(s), WithoutNuls(s[|Cut(s)|..]);
            Segments(x + w) == Segments(x) && Tail(x + w) == Tail(x)
  {
    var x, st := Cut(s), Stream([], "");
    OneSegment("");
    SinglesFlat(s);
    SingleReads(st, s);
    WithoutNulsFrom(s);
    assert "" + WithoutNuls(s) == WithoutNuls(s) && "" + s == s;
    Associates(Segments(x), [], []);
    Associates(Segments(WithoutNuls(s)), [], []);
    hide Segments, Tail, WithoutNuls, Cut, Singles, Flat, ReadChunks;
  }

  /** The exact condition: all ways of splitting a stream agree if and only if nothing but
      NULs and line breaks follows its first NUL, and no break if a line is open there. */
  lemma SplitsAgreeExactly(s: string)
    ensures SplitsAgree(s) <==> Harmless(s)
  {
    if SplitsAgree(s) {
      AgreementIsHarmless(s);
    }
    if Harmless(s) {
      var st := Stream([], "");
      OneSegment("");
      forall chunks | Flat(chunks) == s ensures ReadChunks(st, chunks) == ReadChunk(st, s) {
        assert "" + s == s;
        HarmlessReads(st, chunks);
      }
    }
  }

  lemma {:induction false} TailLength(s: string)
    ensures |Tail(s)| <= |s|
    decreases |s|
  {
    OneSegment(s);
    if FirstBreak(s) < |s| {
      TailLength(s[FirstBreak(s) + 1..]);
    }
  }

  lemma {:induction false} HeldLength(st: Stream, chunks: seq<string>)
    ensures |ReadChunks(st, chunks).rest| <= |st.rest| + |Flat(chunks)|
    decreases |chunks|
  {
    if chunks != [] {
      TailLength(Cut(st.rest + chunks[0]));
      HeldLength(ReadChunk(st, chunks[0]), chunks[1..]);
    }
  }

  // Every split of a stream shorter than the buffer can come about.
  lemma EveryReadFits(chunks: seq<string>, chunk: string)
    requires |Flat(chunks)| + |chunk| < SIZE
    ensures |chunk| <= SIZE - |ReadChunks(Stream([], ""), chunks).rest| - 1
  {
    HeldLength(Stream([], ""), chunks);
  }

  /** A NUL breaks it: what follows the NUL in the same read is dropped, in a later read
      it is kept. */
  lemma NulBreaksIndependence()
    ensures ReadChunks(Stream([], ""), [['a', NUL, 'b', '\n']]) == Stream([], "a")
    ensures ReadChunks(Stream([], ""), [['a', NUL], ['b', '\n']]) == Stream(["ab"], "")
  {
    var first, second, all := ['a', NUL], ['b', '\n'], ['a', NUL, 'b', '\n'];
    CutAt(all, 1);
    CutAt(first, 1);
    CutAt("ab\n", 3);
    FirstBreakUnique("a", 1);
    FirstBreakUnique("ab\n", 2);
    OneSegment("a");
    OneSegment("ab\n");
    OneSegment("");
    hide Segments, Tail, Cut, FirstBreak;
    assert "" + all == all && "" + first == first && "a" + second == "ab\n";
    assert "ab\n"[3..] == "" && "ab\n"[..2] == "ab" && "ab\n"[..3] == "ab\n" && all[..1] == "a" && first[..1] == "a";
    Associates(Segments("a"), [], []);
    Associates(["ab"], [], []);
    ReadOne(Stream([], ""), all);
    ReadTwo(Stream([], ""), first, second);
  }

  lemma {:induction false} CutAt(s: string, k: nat)
    requires k <= |s| && (k < |s| ==> s[k] == NUL) && NulFree(s[..k])
    ensures Cut(s) == s[..k]
  {
    if k > 0 {
      assert s[..k][0] == s[0] && s[1..][..k - 1] == s[..k][1..];
      CutAt(s[1..], k - 1);
    }
  }

  lemma ReadOne(st: Stream, a: string)
    ensures ReadChunks(st, [a]) == ReadChunk(st, a)
  {
    hide ReadChunk;
    assert ReadChunks(ReadChunk(st, a), [a][1..]) == ReadChunk(st, a);
  }

  lemma ReadTwo(st: Stream, a: string, b: string)
    ensures ReadChunks(st, [a, b]) == ReadChunk(ReadChunk(st, a), b)
  {
    ReadOne(ReadChunk(st, a), b);
    hide ReadChunk;
    assert [a, b][1..] == [b];
  }

  class SerialInput {
    const buffer: array<char>
    var offset: nat
    ghost var lines: seq<string>     // what parse_data has been given

    ghost predicate Valid()
      reads this, buffer
    {
      buffer.Length == SIZE && offset < SIZE &&
      NulFree(buffer[..offset]) && FirstBreak(buffer[..offset]) == offset
    }

    ghost function Held(): Stream
      requires Valid()
      reads this, buffer
    {
      Stream(lines, buffer[..offset])
    }

    constructor ()
      ensures Valid() && fresh(buffer) && Held() == Stream([], "")
    {
      buffer := new char[SIZE](_ => NUL);
      offset := 0;
      lines := [];
    }

    // strpbrk: the next break before the end of the string at e, or e.
    method NextBreak(startp: nat, ghost e: nat) returns (cp: nat)
      requires startp <= e < buffer.Length && buffer[e] == NUL && NulFree(buffer[startp..e])
      ensures cp == startp + FirstBreak(buffer[startp..e])
    {
      cp := startp;
      while buffer[cp] != NUL && !IsBreak(buffer[cp])
        invariant startp <= cp <= e
        invariant BreakFree(buffer[startp..e], cp - startp)
        decreases e - cp
      {
        assert buffer[cp] == buffer[startp..e][cp - startp];
        cp := cp + 1;
      }
      assert cp < e ==> buffer[cp] == buffer[startp..e][cp - startp];
      FirstBreakUnique(buffer[startp..e], cp - startp);
    }

    lemma AtEnd(rest: string, k: nat, c: char)
      requires k == FirstBreak(rest) && c == NUL && NulFree(rest) && (k < |rest| ==> rest[k] == c)
      ensures k == |rest|
    {
      FirstBreakFinds(rest);
    }

    // Move what is left to the front of the buffer.
    method Shift(startp: nat, ghost e: nat)
      requires startp <= e < buffer.Length && buffer[e] == NUL && NulFree(buffer[startp..e])
      modifies buffer, `offset
      ensures offset == e - startp && buffer[..offset] == old(buffer[startp..e])
    {
      ghost var left := buffer[startp..e];
      var cp, sp := 0, startp;
      while buffer[sp] != NUL
        invariant NulFree(left)
        invariant sp == startp + cp && sp <= e
        invariant buffer[e] == NUL && buffer[..cp] == left[..cp]
        invariant forall j :: sp <= j < e ==> buffer[j] == left[j - startp]
        decreases e - sp
      {
        buffer[cp] := buffer[sp];
        cp, sp := cp + 1, sp + 1;
      }
      offset := cp;
    }

    // The bytes read go after what is held, with a NUL behind them.
    method Fill(chunk: string)
      requires Valid() && |chunk| <= SIZE - offset - 1
      modifies `offset, buffer
      ensures offset == old(offset) + |chunk| < SIZE
      ensures var text := Cut(old(buffer[..offset]) + chunk); Holds(0, |text|, text)
    {
      ghost var whole := buffer[..offset] + chunk;
      CutFinds(whole);
      hide Cut, FirstBreak;
      forall i | 0 <= i < |chunk| {
        buffer[offset + i] := chunk[i];
      }
      offset := offset + |chunk|;
      buffer[offset] := NUL;
      assert buffer[..offset] == whole;
      assert forall j :: 0 <= j < |Cut(whole)| ==> buffer[j] == whole[j] == Cut(whole)[j];
    }

    // One read: `chunk` is what the device returned, at most the space left.
    method ProcessSio(chunk: string)
      requires Valid() && |chunk| <= SIZE - offset - 1
      modifies this, buffer
      ensures Valid() && Held() == ReadChunk(old(Held()), chunk)
    {
      ghost var text := Cut(buffer[..offset] + chunk);
      if |chunk| == 0 {
        NothingRead(lines, buffer[..offset]);
        return;
      }
      SegmentsAreClean(text);
      hide Segments, Tail, Cut, FirstBreak, NulFree, Holds;
      Fill(chunk);
      var startp := HandOn(|text|, text);
      Remainder(startp, |text|, text);
      Shift(startp, |text|);
    }

    lemma Remainder(startp: nat, e: nat, text: string)
      requires Holds(startp, e, text)
      ensures startp <= e < buffer.Length && buffer[e] == NUL
      ensures NulFree(text[startp..]) && buffer[startp..e] == text[startp..]
    {
      SuffixNulFree(text, startp);
      hide NulFree;
    }

    lemma NothingRead(lines: seq<string>, held: string)
      requires NulFree(held) && FirstBreak(held) == |held|
      ensures ReadChunk(Stream(lines, held), "") == Stream(lines, held)
    {
      assert held + "" == held;
      CutWhole(held);
      OneSegment(held);
      Associates(lines, [], []);
    }

    ghost predicate Holds(startp: nat, e: nat, text: string)
      reads this, buffer
    {
      && startp <= e < buffer.Length && buffer[e] == NUL
      && |text| == e && NulFree(text) && forall j :: startp <= j < e ==> buffer[j] == text[j]
    }

    // Cut off the next line and pass it on, unless it is empty.
    method TakeLine(startp: nat, ghost e: nat, ghost text: string) returns (more: bool, next: nat)
      requires Holds(startp, e, text)
      modifies buffer, `lines
      ensures if more then
                && startp < next && Holds(next, e, text)
                && lines + Segments(text[next..]) == old(lines) + Segments(text[startp..])
                && Tail(text[next..]) == Tail(text[startp..])
              else
                && next == startp && Holds(startp, e, text) && lines == old(lines)
                && Segments(text[startp..]) == [] && Tail(text[startp..]) == text[startp..]
    {
      hide Segments, Tail, FirstBreak, NulFree;
      SuffixNulFree(text, startp);
      assert buffer[startp..e] == text[startp..];
      var cp := NextBreak(startp, e);
      NextLine(text, startp, cp);
      if buffer[cp] == NUL {
        AtEnd(text[startp..], cp - startp, buffer[cp]);
        return false, startp;
      }
      assert buffer[startp..cp] == text[startp..cp];
      buffer[cp] := NUL;
      cp := cp + 1;
      if buffer[startp] != NUL {
        Associates(lines, [text[startp..cp - 1]], Segments(text[cp..]));
        lines := lines + [buffer[startp..cp - 1]];
      } else {
        Associates(Segments(text[cp..]), [], []);
      }
      next := SkipBreaks(cp, e, text);
      more := true;
    }

    // Cut the buffer at its line breaks and pass each line on.
    method HandOn(ghost e: nat, ghost text: string) returns (startp: nat)
      requires Holds(0, e, text)
      modifies buffer, `lines
      ensures Holds(startp, e, text)
      ensures lines == old(lines) + Segments(text) && text[startp..] == Tail(text)
    {
      hide Segments, Tail;
      startp := 0;
      assert text[0..] == text;
      var more := true;
      while more
        invariant Holds(startp, e, text)
        invariant lines + Segments(text[startp..]) == old(lines) + Segments(text)
        invariant Tail(text[startp..]) == Tail(text)
        invariant !more ==> Segments(text[startp..]) == [] && Tail(text[startp..]) == text[startp..]
        decreases more, e - startp
      {
        more, startp := TakeLine(startp, e, text);
      }
      Associates(lines, [], []);
    }

    lemma SuffixNulFree(text: string, startp: nat)
      requires NulFree(text) && startp <= |text|
      ensures NulFree(text[startp..])
    {
    }

    // One line of the text from startp on.
    lemma NextLine(text: string, startp: nat, cp: nat)
      requires startp <= |text| && cp == startp + FirstBreak(text[startp..])
      ensures var rest := text[startp..];
              if cp == |text| then Segments(rest) == [] && Tail(rest) == rest
              else
                && Segments(rest) == (if cp == startp then [] else [text[startp..cp]]) + Segments(text[cp + 1..])
                && Tail(rest) == Tail(text[cp + 1..])
    {
      var rest := text[startp..];
      OneSegment(rest);
      hide Segments, Tail, FirstBreak;
      if cp < |text| {
        Slices(text, startp, cp);
      }
    }

    lemma Slices(text: string, startp: nat, cp: nat)
      requires startp <= cp < |text|
      ensures text[startp..][cp - startp + 1..] == text[cp + 1..] && text[startp..][..cp - startp] == text[startp..cp]
    {
    }

    lemma LeadingBreak(s: string)
      requires s != "" && IsBreak(s[0])
      ensures Segments(s[1..]) == Segments(s) && Tail(s[1..]) == Tail(s)
    {
      assert FirstBreak(s) == 0;
      OneSegment(s);
      hide Segments;
      assert [] + Segments(s[1..]) == Segments(s[1..]);
    }

    // A run of breaks counts as one.
    method SkipBreaks(start: nat, ghost e: nat, ghost text: string) returns (cp: nat)
      requires start <= e < buffer.Length && buffer[e] == NUL && |text| == e
      requires forall j :: start <= j < e ==> buffer[j] == text[j]
      ensures start <= cp <= e
      ensures Segments(text[cp..]) == Segments(text[start..]) && Tail(text[cp..]) == Tail(text[start..])
    {
      hide Segments, Tail;
      cp := start;
      while buffer[cp] == '\r' || buffer[cp] == '\n'
        invariant start <= cp <= e
        invariant Segments(text[cp..]) == Segments(text[start..]) && Tail(text[cp..]) == Tail(text[start..])
        decreases e - cp
      {
        LeadingBreak(text[cp..]);
        assert text[cp..][1..] == text[cp + 1..];
        cp := cp + 1;
      }
    }
  }
}
