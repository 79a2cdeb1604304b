/** The scripted event timeline: one-shot cannon timers as a queue of pending
    shots sorted by fire time, polled against a clock. A timer registered with
    a delay fires once, at the first poll at or after its fire time; timers due
    at the same poll fire in order of fire time, and timers with equal fire
    times in the order they were registered. */
module Timeline {

  /** A scheduled cannon shot: its fire time (milliseconds since start) and its lateral spread. */
  datatype Shot = Shot(at: real, spread: real)

  /** The three shots of the script: 4000 ms with spread 0, 6500 ms with 0.5, 9000 ms with -0.5. */
  const CannonShots: seq<Shot> := [Shot(4000.0, 0.0), Shot(6500.0, 0.5), Shot(9000.0, -0.5)]

  predicate Sorted(q: seq<Shot>)
  {
    forall i, j :: 0 <= i < j < |q| ==> q[i].at <= q[j].at
  }

  /** Registers a timer: it goes after every pending shot due no later than it. */
  function Insert(q: seq<Shot>, s: Shot): seq<Shot>
    decreases |q|
  {
    if q == [] || s.at < q[0].at then [s] + q else [q[0]] + Insert(q[1..], s)
  }

  lemma SortedTail(q: seq<Shot>)
    requires Sorted(q) && q != []
    ensures Sorted(q[1..])
    ensures forall k :: 0 <= k < |q[1..]| ==> q[0].at <= q[1..][k].at
  {
    var rest := q[1..];
    forall i, j | 0 <= i < j < |rest| ensures rest[i].at <= rest[j].at {
      assert rest[i] == q[i + 1] && rest[j] == q[j + 1];
    }
    forall k | 0 <= k < |rest| ensures q[0].at <= rest[k].at {
      assert rest[k] == q[k + 1];
    }
  }

  /** Registering adds exactly the new shot to the queue. */
  lemma {:induction false} InsertContents(q: seq<Shot>, s: Shot)
    ensures multiset(Insert(q, s)) == multiset(q) + multiset{s}
    ensures |Insert(q, s)| == |q| + 1
    decreases |q|
  {
    if q != [] && s.at >= q[0].at {
      InsertContents(q[1..], s);
      assert q == [q[0]] + q[1..];
    }
  }

  /** A lower bound on every pending fire time and on the new one bounds the queue after registering. */
  lemma {:induction false} InsertBounded(q: seq<Shot>, s: Shot, lo: real)
    requires forall k :: 0 <= k < |q| ==> lo <= q[k].at
    requires lo <= s.at
    ensures forall k :: 0 <= k < |Insert(q, s)| ==> lo <= Insert(q, s)[k].at
    decreases |q|
  {
    if q != [] && s.at >= q[0].at {
      var rest := q[1..];
      assert forall k :: 0 <= k < |rest| ==> rest[k] == q[k + 1];
      InsertBounded(rest, s, lo);
      var r := Insert(rest, s);
      forall k | 0 <= k < |[q[0]] + r| ensures lo <= ([q[0]] + r)[k].at {
        if k > 0 { assert ([q[0]] + r)[k] == r[k - 1]; }
      }
    } else {
      forall k | 0 <= k < |[s] + q| ensures lo <= ([s] + q)[k].at {
        if k > 0 { assert ([s] + q)[k] == q[k - 1]; }
      }
    }
  }

  /** Registering keeps the queue sorted. */
  lemma {:induction false} InsertSorted(q: seq<Shot>, s: Shot)
    requires Sorted(q)
    ensures Sorted(Insert(q, s))
    decreases |q|
  {
    if q != [] && s.at >= q[0].at {
      var rest := q[1..];
      SortedTail(q);
      InsertSorted(rest, s);
      InsertBounded(rest, s, q[0].at);
      var r := Insert(rest, s);
      var res := [q[0]] + r;
      forall i, j | 0 <= i < j < |res| ensures res[i].at <= res[j].at {
        assert res[j] == r[j - 1];
        if i > 0 {
          assert res[i] == r[i - 1];
        }
      }
    } else if q != [] {
      var res := [s] + q;
      forall i, j | 0 <= i < j < |res| ensures res[i].at <= res[j].at {
        assert res[j] == q[j - 1];
        if i > 0 {
          assert res[i] == q[i - 1];
        } else {
          assert q[0].at <= q[j - 1].at || j == 1;
        }
      }
    }
  }

  /** The shots a poll at time now fires: the leading run of shots due by now. */
  function Due(q: seq<Shot>, now: real): seq<Shot>
    decreases |q|
  {
    if q == [] || q[0].at > now then [] else [q[0]] + Due(q[1..], now)
  }

  /** The shots still pending after a poll at time now. */
  function Remaining(q: seq<Shot>, now: real): seq<Shot>
    decreases |q|
  {
    if q == [] || q[0].at > now then q else Remaining(q[1..], now)
  }

  /** A poll splits the queue: the fired shots followed by the pending ones are the queue before the poll. */
  lemma {:induction false} PollSplits(q: seq<Shot>, now: real)
    ensures Due(q, now) + Remaining(q, now) == q
    decreases |q|
  {
    if q != [] && q[0].at <= now {
      PollSplits(q[1..], now);
      assert q == [q[0]] + q[1..];
    }
  }

  /** On a sorted queue a poll fires exactly the shots whose time has come: every fired shot
      is due by now, and every shot left pending is due strictly later. */
  lemma {:induction false} PollExact(q: seq<Shot>, now: real)
    requires Sorted(q)
    ensures forall k :: 0 <= k < |Due(q, now)| ==> Due(q, now)[k].at <= now
    ensures forall k :: 0 <= k < |Remaining(q, now)| ==> Remaining(q, now)[k].at > now
    ensures Sorted(Remaining(q, now))
    decreases |q|
  {
    if q != [] && q[0].at <= now {
      var rest := q[1..];
      SortedTail(q);
      PollExact(rest, now);
      var d := Due(q, now);
      assert d == [q[0]] + Due(rest, now);
      forall k | 0 <= k < |d| ensures d[k].at <= now {
        if k > 0 { assert d[k] == Due(rest, now)[k - 1]; }
      }
    } else if q != [] {
      forall k | 0 <= k < |q| ensures q[k].at > now {
        assert q[0].at <= q[k].at || k == 0;
      }
    }
  }

  /** A second poll at the same time fires nothing: no shot fires twice. */
  lemma {:induction false} NoRefire(q: seq<Shot>, now: real)
    ensures Due(Remaining(q, now), now) == []
    decreases |q|
  {
    if q != [] && q[0].at <= now {
      NoRefire(q[1..], now);
    }
  }

  /** Polling at t1 and then at t2 >= t1 fires, in total and in order, exactly what one poll at t2
      fires, and leaves the same shots pending: each shot fires once, whichever frames the polls land on. */
  lemma {:induction false} PollTwice(q: seq<Shot>, t1: real, t2: real)
    requires t1 <= t2
    ensures Due(q, t1) + Due(Remaining(q, t1), t2) == Due(q, t2)
    ensures Remaining(Remaining(q, t1), t2) == Remaining(q, t2)
    decreases |q|
  {
    if q != [] && q[0].at <= t1 {
      PollTwice(q[1..], t1, t2);
      assert Due(q, t1) + Due(Remaining(q, t1), t2)
          == [q[0]] + (Due(q[1..], t1) + Due(Remaining(q[1..], t1), t2));
    }
  }

  /** The queue after the script registers its three timers at time now: 4000 ms with spread 0,
      then 6500 ms with 0.5, then 9000 ms with -0.5 after now. */
  function CannonScript(q: seq<Shot>, now: real): seq<Shot>
  {
    Insert(Insert(Insert(q, Shot(now + 4000.0, 0.0)), Shot(now + 6500.0, 0.5)), Shot(now + 9000.0, -0.5))
  }

  /** Scheduling the script's three timers from an empty queue at time 0 gives CannonShots. */
  lemma ScheduleScript()
    ensures CannonScript([], 0.0) == CannonShots
    ensures Sorted(CannonShots)
  {
    assert Insert([], Shot(4000.0, 0.0)) == [Shot(4000.0, 0.0)];
    assert Insert([Shot(4000.0, 0.0)], Shot(6500.0, 0.5)) == [Shot(4000.0, 0.0), Shot(6500.0, 0.5)];
  }

  /** How many of the script's balls exist after a poll at time now: none before 4 s,
      one from 4 s, two from 6.5 s, all three from 9 s. */
  lemma ScriptFiring(now: real)
    ensures now < 4000.0 ==> Due(CannonShots, now) == []
    ensures 4000.0 <= now < 6500.0 ==> Due(CannonShots, now) == [Shot(4000.0, 0.0)]
    ensures 6500.0 <= now < 9000.0 ==> Due(CannonShots, now) == [Shot(4000.0, 0.0), Shot(6500.0, 0.5)]
    ensures 9000.0 <= now ==> Due(CannonShots, now) == CannonShots && Remaining(CannonShots, now) == []
  {
    var q := CannonShots;
    assert q[1..] == [Shot(6500.0, 0.5), Shot(9000.0, -0.5)];
    assert q[1..][1..] == [Shot(9000.0, -0.5)];
    assert q[1..][1..][1..] == [];
  }
}
