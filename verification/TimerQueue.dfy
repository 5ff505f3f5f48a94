// The daemon's timer queue: a linked list of pending callbacks with a free list beside
// it (lrmon/timer.c).

module TimerQueue {

  datatype Func = StateMachine | DynamicStatus

  datatype Timer = Timer(func: Func, seconds: int)

  // Pending timers, number of free nodes, number of nodes on neither list, and the
  // current select timeout.
  datatype Queue = Queue(timers: seq<Timer>, free: nat, out: nat, timeout: int)

  const DEFAULT_TIMEOUT := 60

  const NO_TIMERS := Queue([], 0, 0, DEFAULT_TIMEOUT)

  // Nodes ever allocated.
  function Allocated(q: Queue): nat { |q.timers| + q.free + q.out }

  // Insertion behind the head: each node passed over takes its seconds off.
  function InsertBehind(ts: seq<Timer>, func: Func, secs: int): (r: seq<Timer>)
    requires ts != []
    ensures |r| == |ts| + 1
  {
    if |ts| == 1 || ts[1].seconds > secs then [ts[0], Timer(func, secs)] + ts[1..]
    else [ts[0]] + InsertBehind(ts[1..], func, secs - ts[0].seconds)
  }

  function AtHead(ts: seq<Timer>, secs: int): bool { ts == [] || ts[0].seconds > secs }

  function Insert(q: Queue, func: Func, secs: int): Queue
  {
    var free := if q.free > 0 then q.free - 1 else 0;
    if AtHead(q.timers, secs) then
      var rest := if q.timers == [] then [] else q.timers[0 := q.timers[0].(seconds := q.timers[0].seconds - secs)];
      Queue([Timer(func, 0)] + rest, free, q.out, secs)
    else q.(timers := InsertBehind(q.timers, func, secs), free := free)
  }

  function Index(ts: seq<Timer>, func: Func): (k: nat)
    ensures k <= |ts|
  {
    if ts == [] || ts[0].func == func then 0 else 1 + Index(ts[1..], func)
  }

  function Remove(q: Queue, func: Func): Queue
  {
    var k := Index(q.timers, func);
    if k == |q.timers| then q else q.(timers := q.timers[..k] + q.timers[k + 1..], free := q.free + 1)
  }

  // Position of the last of the timers that expire together with the head.
  function LastExpired(ts: seq<Timer>): (k: nat)
    requires ts != []
    ensures k < |ts|
  {
    if |ts| > 1 && ts[1].seconds == 0 then 1 + LastExpired(ts[1..]) else 0
  }

  // Expiry detaches everything up to the last expired timer; only that one is run.
  function Expire(q: Queue): Queue
  {
    if q.timers == [] then q.(timeout := DEFAULT_TIMEOUT)
    else
      var k := LastExpired(q.timers);
      var rest := q.timers[k + 1..];
      var waiting := if rest == [] then [] else rest[0 := rest[0].(seconds := 0)];
      q.(timers := waiting, out := q.out + k + 1, timeout := if rest == [] then DEFAULT_TIMEOUT else rest[0].seconds)
  }

  function Running(q: Queue): Func
    requires q.timers != []
  {
    q.timers[LastExpired(q.timers)].func
  }

  // The node that has run goes to the free list.
  function Release(q: Queue): Queue
    requires q.out > 0
  {
    q.(free := q.free + 1, out := q.out - 1)
  }

  class TimerNode {
    var next: TimerNode?
    var seconds: int
    var func: Func

    constructor (func: Func, seconds: int)
      ensures next == null && this.func == func && this.seconds == seconds
    {
      next, this.func, this.seconds := null, func, seconds;
    }
  }

  ghost predicate Linked(head: TimerNode?, ns: seq<TimerNode>)
    reads ns`next
  {
    && head == (if ns == [] then null else ns[0])
    && forall i :: 0 <= i < |ns| ==> ns[i].next == if i + 1 < |ns| then ns[i + 1] else null
  }

  ghost predicate Distinct(ns: seq<TimerNode>)
  {
    forall i, j :: 0 <= i < |ns| && 0 <= j < |ns| && ns[i] == ns[j] ==> i == j
  }

  ghost function Members(ns: seq<TimerNode>): set<TimerNode>
  {
    set n | n in ns
  }

  lemma NullIsEmpty(head: TimerNode?, ns: seq<TimerNode>)
    requires Linked(head, ns)
    ensures head == null <==> ns == []
  {
  }

  lemma LinkedHead(head: TimerNode?, ns: seq<TimerNode>)
    requires Linked(head, ns)
    ensures head == if ns == [] then null else ns[0]
  {
  }

  lemma LinkedAt(head: TimerNode?, ns: seq<TimerNode>, i: nat)
    requires Linked(head, ns) && i < |ns|
    ensures ns[i].next == (if i + 1 < |ns| then ns[i + 1] else null) && ns[0] == head
  {
  }

  lemma LinkedFrom(head: TimerNode?, ns: seq<TimerNode>, k: nat)
    requires Linked(head, ns) && k < |ns|
    ensures Linked(ns[k].next, ns[k + 1..])
  {
    var r := ns[k + 1..];
    LinkedAt(head, ns, k);
    assert r != [] ==> r[0] == ns[k + 1];
    forall i | 0 <= i < |r| ensures r[i].next == if i + 1 < |r| then r[i + 1] else null {
      LinkedAt(head, ns, k + 1 + i);
      assert r[i] == ns[k + 1 + i] && (i + 1 < |r| ==> r[i + 1] == ns[k + 1 + (i + 1)]);
    }
    assert Linked(ns[k].next, r);
  }

  lemma LinkedCons(head: TimerNode?, ns: seq<TimerNode>, n: TimerNode)
    requires Linked(head, ns) && n.next == head
    ensures Linked(n, [n] + ns)
  {
    var r := [n] + ns;
    forall i | 0 <= i < |r| ensures r[i].next == if i + 1 < |r| then r[i + 1] else null {
      assert i + 1 < |r| ==> r[i + 1] == ns[i];
      if i > 0 {
        LinkedAt(head, ns, i - 1);
        assert r[i] == ns[i - 1];
      }
    }
    assert Linked(n, r);
  }

  // Nodes linked in order with the last one pointing at `end`.
  ghost predicate Segment(ns: seq<TimerNode>, end: TimerNode?)
    reads ns`next
  {
    forall i :: 0 <= i < |ns| ==> ns[i].next == if i + 1 < |ns| then ns[i + 1] else end
  }

  lemma SegmentAt(ns: seq<TimerNode>, end: TimerNode?, i: nat)
    requires Segment(ns, end) && i < |ns|
    ensures ns[i].next == if i + 1 < |ns| then ns[i + 1] else end
  {
  }

  lemma LinkedSegment(head: TimerNode?, ns: seq<TimerNode>, k: nat)
    requires Linked(head, ns) && k < |ns|
    ensures Segment(ns[..k], ns[k])
  {
    var a := ns[..k];
    forall i | 0 <= i < k ensures a[i].next == if i + 1 < k then a[i + 1] else ns[k] {
      LinkedAt(head, ns, i);
      assert a[i] == ns[i] && (i + 1 < k ==> a[i + 1] == ns[i + 1]);
    }
  }

  lemma JoinSegment(a: seq<TimerNode>, head: TimerNode?, b: seq<TimerNode>)
    requires Segment(a, head) && Linked(head, b)
    ensures Linked(if a == [] then head else a[0], a + b)
  {
    var r := a + b;
    forall i | 0 <= i < |r| ensures r[i].next == if i + 1 < |r| then r[i + 1] else null {
      assert r[i] == if i < |a| then a[i] else b[i - |a|];
      assert i + 1 < |r| ==> r[i + 1] == if i + 1 < |a| then a[i + 1] else b[i + 1 - |a|];
      if i >= |a| {
        LinkedAt(head, b, i - |a|);
      } else {
        SegmentAt(a, head, i);
      }
    }
    assert Linked(if a == [] then head else a[0], r);
  }

  // The last node of a segment may be re-pointed.
  lemma ExtendSegment(a: seq<TimerNode>, n: TimerNode, end: TimerNode?)
    requires Segment(a, n) && n.next == end
    ensures Segment(a + [n], end)
  {
    var r := a + [n];
    forall i | 0 <= i < |r| ensures r[i].next == if i + 1 < |r| then r[i + 1] else end {
      assert r[i] == if i < |a| then a[i] else n;
      assert i + 1 < |r| ==> r[i + 1] == if i + 1 < |a| then a[i + 1] else n;
      if i < |a| {
        SegmentAt(a, n, i);
      }
    }
  }

  lemma NotMember(ns: seq<TimerNode>, n: TimerNode)
    requires n !in Members(ns)
    ensures forall i :: 0 <= i < |ns| ==> ns[i] != n
  {
    forall i | 0 <= i < |ns| ensures ns[i] != n {
      assert ns[i] in Members(ns);
    }
  }

  lemma Around(ns: seq<TimerNode>, k: nat)
    requires Distinct(ns) && k < |ns|
    ensures ns[k] !in ns[..k] && ns[k] !in ns[k + 1..] && ns[k] in Members(ns)
  {
    forall i | 0 <= i < k ensures ns[..k][i] != ns[k] {
      assert ns[..k][i] == ns[i];
    }
    var back := ns[k + 1..];
    forall i | 0 <= i < |back| ensures back[i] != ns[k] {
      assert back[i] == ns[k + 1 + i];
    }
  }

  lemma InsertDistinct(ns: seq<TimerNode>, k: nat, n: TimerNode)
    requires Distinct(ns) && n !in Members(ns) && k <= |ns|
    ensures var r := ns[..k] + [n] + ns[k..];
            Distinct(r) && Members(r) == Members(ns) + {n}
  {
    var r := ns[..k] + [n] + ns[k..];
    forall i, j | 0 <= i < |r| && 0 <= j < |r| && r[i] == r[j] ensures i == j {
      assert i < k ==> r[i] == ns[i];
      assert j < k ==> r[j] == ns[j];
      assert i > k ==> r[i] == ns[i - 1];
      assert j > k ==> r[j] == ns[j - 1];
    }
    forall x | x in ns ensures x in r {
      var i :| 0 <= i < |ns| && ns[i] == x;
      assert x == r[if i < k then i else i + 1];
    }
  }

  lemma RemoveDistinct(ns: seq<TimerNode>, k: nat)
    requires Distinct(ns) && k < |ns|
    ensures var r := ns[..k] + ns[k + 1..];
            Distinct(r) && Members(r) == Members(ns) - {ns[k]}
  {
    var r := ns[..k] + ns[k + 1..];
    forall i, j | 0 <= i < |r| && 0 <= j < |r| && r[i] == r[j] ensures i == j {
      assert r[i] == ns[if i < k then i else i + 1];
      assert r[j] == ns[if j < k then j else j + 1];
    }
    forall x | x in r ensures x in ns && x != ns[k] {
      var i :| 0 <= i < |r| && r[i] == x;
      assert r[i] == ns[if i < k then i else i + 1];
    }
    forall x | x in ns && x != ns[k] ensures x in r {
      var i :| 0 <= i < |ns| && ns[i] == x;
      assert x == r[if i < k then i else i - 1];
    }
  }

  lemma PopDistinct(ns: seq<TimerNode>)
    requires Distinct(ns) && ns != []
    ensures Distinct(ns[1..]) && Members(ns) == Members(ns[1..]) + {ns[0]} && ns[0] !in Members(ns[1..])
  {
    RemoveDistinct(ns, 0);
    Around(ns, 0);
    hide Members, Distinct;
    assert ns[..0] + ns[1..] == ns[1..];
  }

  lemma JoinDistinct(a: seq<TimerNode>, b: seq<TimerNode>)
    requires Distinct(a) && Distinct(b) && Members(a) !! Members(b)
    ensures Distinct(a + b) && Members(a + b) == Members(a) + Members(b)
  {
    var r := a + b;
    forall i, j | 0 <= i < |r| && 0 <= j < |r| && r[i] == r[j] ensures i == j {
      assert i < |a| ==> r[i] in Members(a);
      assert j < |a| ==> r[j] in Members(a);
      assert i >= |a| ==> r[i] == b[i - |a|] && r[i] in Members(b);
      assert j >= |a| ==> r[j] == b[j - |a|] && r[j] in Members(b);
    }
  }

  lemma SplitDistinct(ns: seq<TimerNode>, k: nat)
    requires Distinct(ns) && k <= |ns|
    ensures Distinct(ns[..k]) && Distinct(ns[k..])
    ensures Members(ns[..k]) !! Members(ns[k..]) && Members(ns) == Members(ns[..k]) + Members(ns[k..])
  {
    var a, b := ns[..k], ns[k..];
    forall i, j | 0 <= i < |b| && 0 <= j < |b| && b[i] == b[j] ensures i == j {
      assert b[i] == ns[k + i] && b[j] == ns[k + j];
    }
    forall x | x in a ensures x !in b {
      var i :| 0 <= i < |a| && a[i] == x;
      forall j | 0 <= j < |b| ensures b[j] != x {
        assert ns[i] == x && b[j] == ns[k + j];
      }
    }
    assert ns == a + b;
  }

  class TimerList {
    var timerq: TimerNode?
    var tqFree: TimerNode?
    var timeout: int
    ghost var queue: seq<TimerNode>
    ghost var free: seq<TimerNode>
    ghost var out: seq<TimerNode>     // running or lost

    // Acyclic, disjoint, and no node anywhere else.
    ghost predicate Valid()
      reads this, queue, free
    {
      && Linked(timerq, queue) && Linked(tqFree, free)
      && Distinct(queue) && Distinct(free) && Distinct(out)
      && Members(queue) !! Members(free) !! Members(out)
    }

    ghost function Nodes(): set<TimerNode>
      reads this
    {
      Members(queue) + Members(free) + Members(out)
    }

    ghost function Model(): Queue
      reads this, queue
    {
      Queue(Timers(), |free|, |out|, timeout)
    }

    ghost function Timers(): seq<Timer>
      reads this, queue
    {
      seq(|queue|, i requires 0 <= i < |queue| reads this, queue => Timer(queue[i].func, queue[i].seconds))
    }

    constructor ()
      ensures Valid() && Model() == NO_TIMERS && Nodes() == {}
    {
      timerq, tqFree := null, null;
      timeout := DEFAULT_TIMEOUT;
      queue, free, out := [], [], [];
    }

    // A node off the free list, or a new one; it is on no list when handed out.
    method Allocate(func: Func, secs: int) returns (tqp: TimerNode)
      requires Valid()
      modifies `tqFree, `free, free
      ensures Valid() && Model() == old(Model()).(free := |free|)
      ensures |free| == if old(|free|) > 0 then old(|free|) - 1 else 0
      ensures tqp !in Nodes() && (tqp in old(Nodes()) || fresh(tqp)) && Nodes() <= old(Nodes()) <= Nodes() + {tqp}
      ensures tqp.next == null && tqp.func == func && tqp.seconds == secs
      ensures queue == old(queue) && out == old(out)
    {
      if tqFree != null {
        tqp := PopFree();
        NotMember(queue, tqp);
        tqp.seconds, tqp.func, tqp.next := secs, func, null;
      } else {
        tqp := new TimerNode(func, secs);
      }
    }

    method PopFree() returns (tqp: TimerNode)
      requires Valid() && tqFree != null
      modifies `tqFree, `free
      ensures Valid() && old(free) == [tqp] + free && tqp !in Nodes() && Members(old(free)) == Members(free) + {tqp}
    {
      NullIsEmpty(tqFree, free);
      PopDistinct(free);
      LinkedFrom(tqFree, free, 0);
      LinkedAt(tqFree, free, 0);
      hide Linked, Distinct, Members;
      tqp := tqFree;
      tqFree := tqp.next;
      free := free[1..];
    }

    method TimerInsert(func: Func, secs: int)
      requires Valid()
      modifies this, Nodes()
      ensures Valid() && Model() == Insert(old(Model()), func, secs) && out == old(out)
      ensures old(Nodes()) <= Nodes() && fresh(Nodes() - old(Nodes()))
    {
      var tqp := Allocate(func, secs);
      LengthOfTimers();
      if timerq == null || timerq.seconds > tqp.seconds {
        InsertFirst(tqp);
      } else {
        InsertLater(tqp);
      }
    }

    lemma LengthOfTimers()
      requires Valid()
      ensures |Timers()| == |queue| && (queue == [] <==> timerq == null)
      ensures timerq != null ==> Timers()[0] == Timer(timerq.func, timerq.seconds)
    {
    }

    // The new node goes to the head; the old head counts from its expiry on.
    method InsertFirst(tqp: TimerNode)
      requires Valid() && tqp !in Nodes()
      modifies `queue, `timerq, `timeout, tqp, queue`seconds
      ensures Valid() && free == old(free) && out == old(out) && Nodes() == old(Nodes()) + {tqp}
      ensures timeout == old(tqp.seconds)
      ensures var ts := old(Timers());
              var rest := if ts == [] then [] else ts[0 := ts[0].(seconds := ts[0].seconds - timeout)];
              Timers() == [Timer(old(tqp.func), 0)] + rest
    {
      NotMember(queue, tqp);
      NotMember(free, tqp);
      InsertDistinct(queue, 0, tqp);
      assert [tqp] + queue == queue[..0] + [tqp] + queue[0..];
      if timerq != null {
        LinkedAt(timerq, queue, 0);
        timerq.seconds := timerq.seconds - tqp.seconds;
      }
      tqp.next := timerq;
      LinkedCons(timerq, queue, tqp);
      timerq := tqp;
      timeout := tqp.seconds;
      tqp.seconds := 0;
      queue := [tqp] + queue;
    }

    // Walk to the insertion point, taking off the seconds of each node passed.
    method FindPlace(ghost func: Func, secs: int) returns (ntqp: TimerNode, left: int, ghost i: nat)
      requires Valid() && timerq != null
      ensures i < |queue| == |Timers()| && ntqp == queue[i]
      ensures InsertBehind(Timers(), func, secs) == Timers()[..i + 1] + [Timer(func, left)] + Timers()[i + 1..]
    {
      LengthOfTimers();
      ghost var ts := Timers();
      ntqp, left, i := timerq, secs, 0;
      assert ts[..0] + InsertBehind(ts[0..], func, left) == InsertBehind(ts, func, left);
      while ntqp.next != null
        invariant 0 <= i < |queue| == |ts| && ntqp == queue[i]
        invariant InsertBehind(ts, func, secs) == ts[..i] + InsertBehind(ts[i..], func, left)
        decreases |queue| - i
      {
        hide InsertBehind;
        BehindStep(ts, i, func, left);
        LinkedAt(timerq, queue, i);
        if ntqp.next.seconds > left {
          break;
        }
        left := left - ntqp.seconds;
        ntqp := ntqp.next;
        i := i + 1;
      }
      hide InsertBehind;
      BehindStep(ts, i, func, left);
      LinkedAt(timerq, queue, i);
    }

    method InsertLater(tqp: TimerNode)
      requires Valid() && timerq != null && tqp !in Nodes()
      modifies `queue, tqp, queue`next
      ensures Valid() && free == old(free) && out == old(out) && Nodes() == old(Nodes()) + {tqp}
      ensures |old(Timers())| > 0
      ensures Timers() == InsertBehind(old(Timers()), old(tqp.func), old(tqp.seconds))
    {
      hide InsertBehind;
      LengthOfTimers();
      ghost var ts := Timers();
      var ntqp, left, i := FindPlace(tqp.func, tqp.seconds);
      NotMember(queue, tqp);
      tqp.seconds := left;
      LinkBehind(ntqp, tqp, i);
      hide Linked, Distinct, Members;
      assert Timers() == ts[..i + 1] + [Timer(tqp.func, tqp.seconds)] + ts[i + 1..];
    }

    method LinkBehind(ntqp: TimerNode, tqp: TimerNode, ghost i: nat)
      requires Valid() && i < |queue| && ntqp == queue[i] && tqp !in Nodes()
      modifies `queue, tqp`next, ntqp`next
      ensures Valid() && queue == old(queue)[..i + 1] + [tqp] + old(queue)[i + 1..]
      ensures Nodes() == old(Nodes()) + {tqp}
    {
      hide Linked, Segment, Distinct, Members;
      InsertDistinct(queue, i + 1, tqp);
      ghost var front, back := queue[..i], queue[i + 1..];
      Around(queue, i);
      LinkedSegment(timerq, queue, i);
      LinkedFrom(timerq, queue, i);
      LinkedHead(timerq, queue);
      NotMember(queue, tqp);
      NotMember(free, tqp);
      NotMember(free, ntqp);
      tqp.next := ntqp.next;
      LinkedCons(ntqp.next, back, tqp);
      ntqp.next := tqp;
      ExtendSegment(front, ntqp, tqp);
      JoinSegment(front + [ntqp], tqp, [tqp] + back);
      assert front + [ntqp] + ([tqp] + back) == queue[..i + 1] + [tqp] + back;
      assert (front + [ntqp])[0] == queue[0];
      queue := queue[..i + 1] + [tqp] + back;
    }

    lemma BehindStep(ts: seq<Timer>, i: nat, func: Func, secs: int)
      requires i < |ts|
      ensures ts[..i] + InsertBehind(ts[i..], func, secs)
              == if i + 1 == |ts| || ts[i + 1].seconds > secs then ts[..i + 1] + [Timer(func, secs)] + ts[i + 1..]
                 else ts[..i + 1] + InsertBehind(ts[i + 1..], func, secs - ts[i].seconds)
    {
      assert ts[i..][1..] == ts[i + 1..];
    }

    method TimerRemove(func: Func)
      requires Valid()
      modifies this, Nodes()
      ensures Valid() && Model() == Remove(old(Model()), func) && out == old(out)
      ensures Nodes() == old(Nodes())
    {
      var tqpp, tqp, i := FindTimer(func);
      if tqp != null {
        Unlink(tqpp, tqp, i);
      }
    }

    // The first timer for the callback, with its predecessor.
    method FindTimer(func: Func) returns (tqpp: TimerNode?, tqp: TimerNode?, ghost i: nat)
      requires Valid()
      ensures |Timers()| == |queue| && i == Index(Timers(), func)
      ensures tqp == (if i < |queue| then queue[i] else null)
      ensures i < |queue| ==> tqpp == (if i == 0 then null else queue[i - 1])
    {
      LengthOfTimers();
      tqpp, tqp, i := null, timerq, 0;
      ghost var ts := Timers();
      assert ts[0..] == ts;
      while tqp != null
        invariant 0 <= i <= |queue| == |ts|
        invariant tqp == (if i < |queue| then queue[i] else null)
        invariant tqpp == (if i == 0 then null else queue[i - 1])
        invariant Index(ts, func) == i + Index(ts[i..], func)
        decreases |queue| - i
      {
        LinkedAt(timerq, queue, i);
        assert ts[i..][1..] == ts[i + 1..];
        if tqp.func == func {
          break;
        }
        tqpp, tqp := tqp, tqp.next;
        i := i + 1;
      }
    }

    method Unlink(tqpp: TimerNode?, tqp: TimerNode, ghost i: nat)
      requires Valid() && i < |queue| && tqp == queue[i] && tqpp == if i == 0 then null else queue[i - 1]
      modifies `timerq, `tqFree, `queue, `free, queue`next
      ensures Valid() && out == old(out) && Nodes() == old(Nodes())
      ensures Model() == old(Model()).(timers := old(Timers())[..i] + old(Timers())[i + 1..], free := old(|free|) + 1)
    {
      ghost var ts := Timers();
      Bypass(tqpp, tqp, i);
      NotMember(queue, tqp);
      PushFree(tqp);
      assert Timers() == ts[..i] + ts[i + 1..];
    }

    // Take the i-th node out of the queue.
    method Bypass(tqpp: TimerNode?, tqp: TimerNode, ghost i: nat)
      requires Valid() && i < |queue| && tqp == queue[i] && tqpp == if i == 0 then null else queue[i - 1]
      modifies `timerq, `queue, queue`next
      ensures Valid() && queue == old(queue)[..i] + old(queue)[i + 1..]
      ensures Members(queue) == Members(old(queue)) - {tqp} && tqp !in Nodes() && tqp in Members(old(queue))
    {
      hide Linked, Segment, Distinct, Members;
      ghost var front, back := queue[..i], queue[i + 1..];
      RemoveDistinct(queue, i);
      Around(queue, i);
      LinkedFrom(timerq, queue, i);
      LinkedHead(timerq, queue);
      if tqpp == null {
        timerq := tqp.next;
        assert front + back == back;
      } else {
        ghost var before := queue[..i - 1];
        Around(queue, i - 1);
        LinkedSegment(timerq, queue, i - 1);
        NotMember(free, tqpp);
        assert back == queue[i - 1 + 1..][1..] && tqpp !in back;
        tqpp.next := tqp.next;
        ExtendSegment(before, tqpp, tqp.next);
        assert before + [tqpp] == front && front[0] == queue[0];
        JoinSegment(front, tqp.next, back);
      }
      queue := front + back;
    }

    method PushFree(tqp: TimerNode)
      requires Valid() && tqp !in Nodes()
      modifies `tqFree, `free, tqp`next
      ensures Valid() && free == [tqp] + old(free) && Members(free) == Members(old(free)) + {tqp}
    {
      InsertDistinct(free, 0, tqp);
      assert [tqp] + free == free[..0] + [tqp] + free[0..];
      NotMember(queue, tqp);
      NotMember(free, tqp);
      tqp.next := tqFree;
      LinkedCons(tqFree, free, tqp);
      tqFree := tqp;
      free := [tqp] + free;
    }

    // The first half of timer_expiry: detach what has expired. The node returned is the
    // whole run queue, since its link has been cut.
    method TakeExpired() returns (runq: TimerNode?)
      requires Valid()
      modifies this, Nodes()
      ensures Valid() && Model() == Expire(old(Model())) && Nodes() == old(Nodes())
      ensures runq == null <==> old(queue) == []
      ensures runq != null ==> runq in out && runq.next == null && runq.func == Running(old(Model()))
    {
      LengthOfTimers();
      runq := timerq;
      if runq == null {
        timeout := DEFAULT_TIMEOUT;
        return;
      }
      ghost var k;
      runq, k := FindLastExpired();
      Detach(runq, k);
    }

    method FindLastExpired() returns (runq: TimerNode, ghost k: nat)
      requires Valid() && timerq != null
      ensures Timers() != [] && k == LastExpired(Timers()) && k < |queue| && runq == queue[k]
    {
      LengthOfTimers();
      runq := timerq;
      ghost var ts := Timers();
      k := 0;
      assert ts[0..] == ts;
      while runq.next != null && runq.next.seconds == 0
        invariant 0 <= k < |queue| == |ts| && runq == queue[k]
        invariant LastExpired(ts) == k + LastExpired(ts[k..])
        decreases |queue| - k
      {
        LinkedAt(timerq, queue, k);
        assert k + 1 < |queue| && runq.next == queue[k + 1] && ts[k + 1].seconds == queue[k + 1].seconds;
        assert ts[k..][1..] == ts[k + 1..];
        runq := runq.next;
        k := k + 1;
      }
      LinkedAt(timerq, queue, k);
      assert k + 1 < |queue| ==> ts[k + 1].seconds == queue[k + 1].seconds;
    }

    // Cut the queue behind the k-th node.
    method Detach(runq: TimerNode, ghost k: nat)
      requires Valid() && k < |queue| && runq == queue[k]
      modifies `timerq, `timeout, `queue, `out, queue
      ensures Valid() && Nodes() == old(Nodes()) && free == old(free)
      ensures runq in out && runq.next == null && runq.func == old(runq.func) && |out| == old(|out|) + k + 1
      ensures var rest := old(Timers())[k + 1..];
              && Timers() == (if rest == [] then [] else rest[0 := rest[0].(seconds := 0)])
              && timeout == (if rest == [] then DEFAULT_TIMEOUT else rest[0].seconds)
    {
      SplitDistinct(queue, k + 1);
      JoinDistinct(queue[..k + 1], out);
      Around(queue, k);
      LinkedFrom(timerq, queue, k);
      LinkedAt(timerq, queue, k);
      NotMember(free, runq);
      timerq := runq.next;
      if timerq != null {
        timeout := timerq.seconds;
        timerq.seconds := 0;
      } else {
        timeout := DEFAULT_TIMEOUT;
      }
      runq.next := null;
      assert queue[k] == (queue[..k + 1] + out)[k];
      out := queue[..k + 1] + out;
      queue := queue[k + 1..];
    }

    method ReleaseNode(tqp: TimerNode)
      requires Valid() && tqp in out
      modifies this, Nodes()
      ensures Valid() && Model() == Release(old(Model())) && Nodes() == old(Nodes())
    {
      ghost var i :| 0 <= i < |out| && out[i] == tqp;
      RemoveDistinct(out, i);
      assert tqp in Members(out);
      out := out[..i] + out[i + 1..];
      PushFree(tqp);
    }
  }
}
