// The timer queue, exactly: where a timer goes, when it is due, and what an expiry takes.

module TimerOrder {
  import opened TimerQueue

  // The seconds of the first n timers.
  function Seconds(ts: seq<Timer>, n: nat): int
    requires n <= |ts|
  {
    if n == 0 then 0 else Seconds(ts, n - 1) + ts[n - 1].seconds
  }

  lemma {:induction false} SumTail(ts: seq<Timer>, n: nat)
    requires ts != [] && n < |ts|
    ensures Seconds(ts, n + 1) == ts[0].seconds + Seconds(ts[1..], n)
  {
    if n > 0 {
      SumTail(ts, n - 1);
    }
  }

  // A timer goes behind the head, to the first place whose timer has more seconds than are
  // left of its own after those of all timers passed over but the last.
  ghost predicate PlaceBehind(ts: seq<Timer>, secs: int, k: nat)
  {
    && 1 <= k <= |ts|
    && (k < |ts| ==> ts[k].seconds > secs - Seconds(ts, k - 1))
    && forall j {:trigger ts[j]} :: 1 <= j < k ==> ts[j].seconds <= secs - Seconds(ts, j - 1)
  }

  lemma NoSum(ts: seq<Timer>)
    ensures Seconds(ts, 0) == 0
  {
  }

  lemma PlaceShifts(ts: seq<Timer>, secs: int, m: nat)
    requires |ts| > 1 && ts[1].seconds <= secs && PlaceBehind(ts[1..], secs - ts[0].seconds, m)
    ensures PlaceBehind(ts, secs, m + 1)
    ensures Seconds(ts, m) == ts[0].seconds + Seconds(ts[1..], m - 1)
  {
    hide Seconds;
    var rest := ts[1..];
    SumTail(ts, m - 1);
    NoSum(ts);
    assert m < |rest| ==> rest[m].seconds > secs - Seconds(ts, m);
    forall j | 2 <= j < m + 1 ensures ts[j].seconds <= secs - Seconds(ts, j - 1) {
      SumTail(ts, j - 2);
      assert rest[j - 1].seconds <= secs - ts[0].seconds - Seconds(rest, j - 2);
    }
  }

  lemma OneFurther(ts: seq<Timer>, t: Timer, m: nat)
    requires ts != [] && m < |ts|
    ensures [ts[0]] + (ts[1..][..m] + [t] + ts[1..][m..]) == ts[..m + 1] + [t] + ts[m + 1..]
  {
  }

  lemma {:induction false} Behind(ts: seq<Timer>, func: Func, secs: int) returns (k: nat)
    requires ts != []
    ensures PlaceBehind(ts, secs, k)
    ensures InsertBehind(ts, func, secs) == ts[..k] + [Timer(func, secs - Seconds(ts, k - 1))] + ts[k..]
    decreases |ts|
  {
    if |ts| == 1 || ts[1].seconds > secs {
      k := 1;
      NoSum(ts);
      hide Seconds;
      assert ts[..1] == [ts[0]];
    } else {
      var m := Behind(ts[1..], func, secs - ts[0].seconds);
      k := m + 1;
      PlaceShifts(ts, secs, m);
      OneFurther(ts, Timer(func, secs - Seconds(ts, m)), m);
      hide PlaceBehind, Seconds;
    }
  }

  // When a timer is due: the time of the head is the one select waits for.
  function DueIn(q: Queue, k: nat): int
    requires k < |q.timers|
  {
    q.timeout + Seconds(q.timers, k + 1) - q.timers[0].seconds
  }

  lemma SumOfThree(a: seq<Timer>, t: Timer, b: seq<Timer>, n: nat)
    requires n <= |a| + 1 + |b|
    ensures var all := a + [t] + b;
            Seconds(all, n) == if n <= |a| then Seconds(a, n) else Seconds(a + b, n - 1) + t.seconds
  {
    var all := a + [t] + b;
    if n > 0 {
      SumOfThree(a, t, b, n - 1);
      if n > |a| + 1 {
        assert all[n - 1] == (a + b)[n - 2];
      } else if n == |a| + 1 {
        assert all[n - 1] == t;
        SumPrefix(a, b, |a|);
      } else {
        assert all[n - 1] == a[n - 1];
      }
    }
  }

  lemma {:induction false} SumPrefix(a: seq<Timer>, b: seq<Timer>, n: nat)
    requires n <= |a|
    ensures Seconds(a + b, n) == Seconds(a, n)
  {
    if n > 0 {
      SumPrefix(a, b, n - 1);
      assert (a + b)[n - 1] == a[n - 1];
    }
  }

  lemma SumWith(ts: seq<Timer>, t: Timer, k: nat, n: nat)
    requires k <= |ts| && n <= |ts| + 1
    ensures var all := ts[..k] + [t] + ts[k..];
            Seconds(all, n) == if n <= k then Seconds(ts, n) else Seconds(ts, n - 1) + t.seconds
  {
    hide Seconds;
    assert ts[..k] + ts[k..] == ts;
    SumOfThree(ts[..k], t, ts[k..], n);
    if n <= k {
      SumPrefix(ts[..k], ts[k..], n);
    }
  }

  lemma BehindDue(q: Queue, r: Queue, t: Timer, k: nat)
    requires 1 <= k <= |q.timers| && r.timers == q.timers[..k] + [t] + q.timers[k..] && r.timeout == q.timeout
    ensures |r.timers| == |q.timers| + 1
    ensures DueIn(r, k) == q.timeout + Seconds(q.timers, k) + t.seconds - q.timers[0].seconds
    ensures forall j :: 0 <= j < k ==> DueIn(r, j) == DueIn(q, j)
    ensures forall j :: k <= j < |q.timers| ==> DueIn(r, j + 1) == DueIn(q, j) + t.seconds
  {
    hide Seconds;
    var ts := q.timers;
    assert r.timers[0] == ts[0];
    SumWith(ts, t, k, k + 1);
    forall j | 0 <= j < k ensures DueIn(r, j) == DueIn(q, j) {
      SumWith(ts, t, k, j + 1);
    }
    forall j | k <= j < |ts| ensures DueIn(r, j + 1) == DueIn(q, j) + t.seconds {
      SumWith(ts, t, k, j + 2);
    }
  }

  /** Where a timer goes, with what seconds, and when it is then due. At the head, which
      takes an empty queue or a head with more seconds left than it has, it is due in time.
      Behind the head it is late by the seconds select still waits and those of the timer it
      is put behind, less the head's; and whatever comes after it is due later by its
      seconds. */
  lemma InsertExactly(q: Queue, func: Func, secs: int) returns (k: nat)
    ensures var r, ts := Insert(q, func, secs), q.timers;
            && k < |r.timers| == |ts| + 1 && r.timers[k].func == func
            && (k == 0 <==> ts == [] || ts[0].seconds > secs)
            && (if k == 0 then
                  && r.timeout == secs && r.timers[0].seconds == 0 && DueIn(r, 0) == secs
                  && (ts != [] ==> r.timers[1..] == [Timer(ts[0].func, ts[0].seconds - secs)] + ts[1..])
                else
                  && PlaceBehind(ts, secs, k) && r.timeout == q.timeout
                  && r.timers == ts[..k] + [r.timers[k]] + ts[k..]
                  && DueIn(r, k) == secs + q.timeout + ts[k - 1].seconds - ts[0].seconds
                  && (forall j :: 0 <= j < k ==> DueIn(r, j) == DueIn(q, j))
                  && (forall j :: k <= j < |ts| ==> DueIn(r, j + 1) == DueIn(q, j) + r.timers[k].seconds))
            && r.out == q.out && r.free == (if q.free == 0 then 0 else q.free - 1)
  {
    var ts := q.timers;
    var r := Insert(q, func, secs);
    if ts == [] || ts[0].seconds > secs {
      k := 0;
      assert Seconds(r.timers, 1) == Seconds(r.timers, 0) + r.timers[0].seconds;
    } else {
      k := Behind(ts, func, secs);
      BehindDue(q, r, Timer(func, secs - Seconds(ts, k - 1)), k);
    }
  }

  /** A timer is due in time exactly if it goes to the head, or if the seconds still waited
      for and those of the timer before it make up for the head's. */
  lemma OnTimeExactly(q: Queue, func: Func, secs: int) returns (k: nat)
    ensures var r := Insert(q, func, secs);
            && k < |r.timers| && r.timers[k].func == func
            && (DueIn(r, k) == secs <==> k == 0 || q.timeout + q.timers[k - 1].seconds == q.timers[0].seconds)
  {
    k := InsertExactly(q, func, secs);
  }

  /** The queue the daemon becomes READY with: its last call, set for five seconds, goes
      behind the status timer and is due after 305. */
  lemma LastCallIsLate(q: Queue)
    requires q.timers == [Timer(DynamicStatus, 0)] && q.timeout == 300
    ensures var r := Insert(q, StateMachine, 5);
            |r.timers| == 2 && r.timers[1].func == StateMachine && DueIn(r, 1) == 305
  {
    var k := InsertExactly(q, StateMachine, 5);
    assert k == 1;
  }

  /** Removal takes out the first timer of the callback, and nothing else. */
  lemma RemoveExactly(q: Queue, func: Func) returns (k: nat)
    ensures var ts := q.timers;
            && k <= |ts| && (forall j :: 0 <= j < k ==> ts[j].func != func) && (k < |ts| ==> ts[k].func == func)
            && Remove(q, func) == if k == |ts| then q else q.(timers := ts[..k] + ts[k + 1..], free := q.free + 1)
  {
    k := Index(q.timers, func);
    IndexFinds(q.timers, func);
  }

  lemma {:induction false} IndexFinds(ts: seq<Timer>, func: Func)
    ensures var k := Index(ts, func);
            (forall j :: 0 <= j < k ==> ts[j].func != func) && (k < |ts| ==> ts[k].func == func)
    decreases |ts|
  {
    if ts != [] && ts[0].func != func {
      IndexFinds(ts[1..], func);
      var k := Index(ts[1..], func);
      forall j | 0 <= j < k + 1 ensures ts[j].func != func {
        if j > 0 {
          assert ts[1..][j - 1].func != func;
        }
      }
    }
  }

  lemma {:induction false} LastExpiredIs(ts: seq<Timer>)
    requires ts != []
    ensures var k := LastExpired(ts);
            && (forall j :: 1 <= j <= k ==> ts[j].seconds == 0) && (k + 1 < |ts| ==> ts[k + 1].seconds != 0)
    decreases |ts|
  {
    if |ts| > 1 && ts[1].seconds == 0 {
      LastExpiredIs(ts[1..]);
      var k := LastExpired(ts[1..]);
      assert k + 1 < |ts[1..]| ==> ts[1..][k + 1] == ts[k + 2];
      forall j | 1 <= j <= k + 1 ensures ts[j].seconds == 0 {
        if j > 1 {
          assert ts[1..][j - 1].seconds == 0;
        }
      }
    }
  }

  lemma {:induction false} NoSeconds(ts: seq<Timer>, k: nat)
    requires k < |ts| && forall j :: 1 <= j <= k ==> ts[j].seconds == 0
    ensures Seconds(ts, k + 1) == ts[0].seconds
  {
    if k == 0 {
      NoSum(ts);
    } else {
      NoSeconds(ts, k - 1);
    }
  }

  lemma {:induction false} SumFrom(ts: seq<Timer>, k: nat, n: nat)
    requires k + n <= |ts|
    ensures Seconds(ts, k + n) == Seconds(ts, k) + Seconds(ts[k..], n)
  {
    if n > 0 {
      SumFrom(ts, k, n - 1);
      assert ts[k..][n - 1] == ts[k + n - 1];
    }
  }

  /** An expiry takes the head and all that are due with it, of which it runs only the last
      and returns only that node: if k are due with it, k callbacks and nodes are lost. What
      is left is due when it was. */
  lemma ExpireExactly(q: Queue) returns (k: nat)
    requires q.timers != []
    ensures var r, ts := Expire(q), q.timers;
            && k < |ts| && (forall j :: 1 <= j <= k ==> ts[j].seconds == 0)
            && (k + 1 < |ts| ==> ts[k + 1].seconds != 0)
            && Running(q) == ts[k].func && r.out == q.out + k + 1 && r.free == q.free
            && |r.timers| == |ts| - k - 1
            && (forall j :: 0 <= j < |r.timers| ==> r.timers[j].func == ts[k + 1 + j].func)
            && (if r.timers == [] then r.timeout == 60
                else forall j :: 0 <= j < |r.timers| ==> DueIn(r, j) == DueIn(q, k + 1 + j) - q.timeout)
  {
    var ts := q.timers;
    k := LastExpired(ts);
    LastExpiredIs(ts);
    NoSeconds(ts, k);
    var rest := ts[k + 1..];
    if rest != [] {
      var r := Expire(q);
      forall j | 0 <= j < |rest| ensures DueIn(r, j) == DueIn(q, k + 1 + j) - q.timeout {
        SumFrom(ts, k + 1, j + 1);
        HeadSum(rest, r.timers, j + 1);
        hide Seconds;
      }
    }
  }

  // Only the head differs.
  lemma {:induction false} HeadSum(a: seq<Timer>, b: seq<Timer>, n: nat)
    requires 0 < n <= |a| == |b| && a[1..] == b[1..]
    ensures Seconds(a, n) - a[0].seconds == Seconds(b, n) - b[0].seconds
  {
    if n > 1 {
      HeadSum(a, b, n - 1);
      assert a[n - 1] == a[1..][n - 2] && b[n - 1] == b[1..][n - 2];
    } else {
      NoSum(a);
      NoSum(b);
    }
  }

  /** With nothing pending an expiry only sets the wait back to a minute. */
  lemma ExpireNothing(q: Queue)
    requires q.timers == []
    ensures Expire(q) == q.(timeout := 60)
  {
  }

  function Nodes(q: Queue): nat { |q.timers| + q.free + q.out }

  /** No step makes or loses a node, but that an insertion without a free one makes one. */
  lemma NodesConserved(q: Queue, func: Func, secs: int)
    ensures Nodes(Insert(q, func, secs)) == Nodes(q) + (if q.free == 0 then 1 else 0)
    ensures Nodes(Remove(q, func)) == Nodes(q) && Nodes(Expire(q)) == Nodes(q)
    ensures q.out > 0 ==> Nodes(Release(q)) == Nodes(q) && Release(q).out == q.out - 1
    ensures q.out > 0 ==> Release(q).timers == q.timers && Release(q).timeout == q.timeout
    ensures Allocated(q) == Nodes(q)
  {
  }
}
