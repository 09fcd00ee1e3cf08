/** Properties of runs of the idle-time tracker: what a reset followed by
    ticks publishes, that a cleared interval never fires again, that nothing
    ticks before the first reset, and that the last subscriber wins. */
module IdleTimeoutLemmas {
  import opened IdleTimeout

  /** The deliveries of `n` consecutive ticks to `o`, starting after count `from`. */
  function Counting(o: ObserverId, from: int, n: nat): (ds: seq<Delivery>)
  {
    seq(n, i => Delivery(o, from + i + 1))
  }

  /** The published values, without their recipients. */
  function Values(ds: seq<Delivery>): (vs: seq<int>)
  {
    seq(|ds|, i requires 0 <= i < |ds| => ds[i].value)
  }

  predicate NoActivity(es: seq<Event>)
  {
    forall i :: 0 <= i < |es| ==> !es[i].Activity?
  }

  predicate NoSubscription(es: seq<Event>)
  {
    forall i :: 0 <= i < |es| ==> !es[i].Subscribed?
  }

  /** Running two event sequences one after the other is running their concatenation. */
  lemma {:induction false} RunAppend(t: Tracker, a: seq<Event>, b: seq<Event>)
    ensures Run(t, a + b) == Run(Run(t, a), b)
    decreases |a|
  {
    if a == [] {
      assert a + b == b;
    } else {
      assert (a + b)[0] == a[0];
      assert (a + b)[1..] == a[1..] + b;
      RunAppend(Step(t, a[0]), a[1..], b);
    }
  }

  /** With an observer and a live interval, `n` firings of that interval raise
      the count by `n` and publish the next `n` values to the observer, in
      order; the interval and the observer stay as they were. */
  lemma {:induction false} TicksPublishInOrder(t: Tracker, n: nat)
    requires Inv(t) && t.interval.Some? && t.observer.Some?
    decreases n
    ensures var r := Run(t, Ticks(t.interval.value, n));
            && r.tickCount == t.tickCount + n
            && r.log == t.log + Counting(t.observer.value, t.tickCount, n)
            && r.interval == t.interval && r.observer == t.observer
            && r.live == t.live && r.nextHandle == t.nextHandle
  {
    var h, o := t.interval.value, t.observer.value;
    if n == 0 {
      assert Counting(o, t.tickCount, 0) == [];
    } else {
      var es := Ticks(h, n);
      assert es[1..] == Ticks(h, n - 1);
      var t1 := Step(t, es[0]);
      assert t1 == Tick(t, h).0;
      TicksPublishInOrder(t1, n - 1);
      assert [Delivery(o, t.tickCount + 1)] + Counting(o, t1.tickCount, n - 1)
          == Counting(o, t.tickCount, n);
    }
  }

  /** Without an observer every firing of any interval leaves the state as it was. */
  lemma {:induction false} TicksWithoutObserver(t: Tracker, h: Handle, n: nat)
    requires t.observer.None?
    ensures Run(t, Ticks(h, n)) == t
  {
    if n > 0 {
      assert Ticks(h, n)[1..] == Ticks(h, n - 1);
      TicksWithoutObserver(t, h, n - 1);
    }
  }

  /** Reset followed by `n` ticks of the new interval: with an observer the
      values published are 0, 1, ..., n; without one, every tick faults and
      nothing is published.  Either way only the new interval is live. */
  lemma ResetThenTicks(t: Tracker, n: nat)
    requires Inv(t)
    ensures var r := Run(ResetStep(t), Ticks(t.nextHandle, n));
            && r.live == {t.nextHandle} && r.interval == Some(t.nextHandle)
            && r.nextHandle == t.nextHandle + 1 && r.observer == t.observer
            && (t.observer.Some? ==>
                  && r.tickCount == n
                  && r.log == t.log + [Delivery(t.observer.value, 0)] + Counting(t.observer.value, 0, n))
            && (t.observer.None? ==> r.tickCount == 0 && r.log == t.log)
  {
    var s := ResetStep(t);
    if t.observer.Some? {
      TicksPublishInOrder(s, n);
    } else {
      TicksWithoutObserver(s, t.nextHandle, n);
    }
  }

  /** A handle that was given out and is no longer live never becomes live again. */
  lemma {:induction false} ClearedStaysCleared(t: Tracker, es: seq<Event>, h: Handle)
    requires Inv(t) && h < t.nextHandle && h !in t.live
    ensures var r := Run(t, es); h < r.nextHandle && h !in r.live
    decreases |es|
  {
    if es != [] {
      ClearedStaysCleared(Step(t, es[0]), es[1..], h);
    }
  }

  /** After a reset, no interval created before it ever fires again, whatever
      events follow: the old interval is cleared before the new one starts. */
  lemma OldIntervalsNeverFire(t: Tracker, es: seq<Event>, h: Handle)
    requires Inv(t) && h < t.nextHandle
    ensures var r := Run(ResetStep(t), es); Tick(r, h) == (r, NotLive)
  {
    ClearedStaysCleared(ResetStep(t), es, h);
  }

  /** Before any reset no interval exists, so no event changes the count or publishes. */
  lemma {:induction false} QuietWithoutReset(t: Tracker, es: seq<Event>)
    requires t.live == {} && NoActivity(es)
    ensures var r := Run(t, es); r.live == {} && r.tickCount == t.tickCount && r.log == t.log
    decreases |es|
  {
    if es != [] {
      assert !es[0].Activity?;
      QuietWithoutReset(Step(t, es[0]), es[1..]);
    }
  }

  /** From construction, until the first reset, every firing is ignored. */
  lemma NoTickBeforeFirstReset(es: seq<Event>, h: Handle)
    requires NoActivity(es)
    ensures var r := Run(Initial(), es);
            && r.tickCount == 0 && r.log == []
            && Tick(r, h).1 == NotLive
  {
    QuietWithoutReset(Initial(), es);
  }

  /** Once an observer is registered there always is one. */
  lemma {:induction false} ObserverPersists(t: Tracker, es: seq<Event>)
    requires t.observer.Some?
    ensures Run(t, es).observer.Some?
    decreases |es|
  {
    if es != [] {
      ObserverPersists(Step(t, es[0]), es[1..]);
    }
  }

  /** While no one else subscribes, the registered observer receives every
      value published from now on. */
  lemma {:induction false} ObserverReceivesAll(t: Tracker, o: ObserverId, es: seq<Event>)
    requires t.observer == Some(o) && NoSubscription(es)
    ensures var r := Run(t, es);
            && r.observer == Some(o)
            && forall i :: |t.log| <= i < |r.log| ==> r.log[i].observer == o
    decreases |es|
  {
    if es != [] {
      var t1 := Step(t, es[0]);
      assert !es[0].Subscribed?;
      assert t1.observer == Some(o);
      assert forall i :: |t.log| <= i < |t1.log| ==> t1.log[i].observer == o;
      ObserverReceivesAll(t1, o, es[1..]);
      var r := Run(t1, es[1..]);
      forall i | |t.log| <= i < |r.log|
        ensures r.log[i].observer == o
      {
        if i < |t1.log| {
          assert r.log[..|t1.log|][i] == t1.log[i];
        }
      }
    }
  }

  /** Subscribing replaces the observer: nothing published earlier is
      replayed, and every later value goes to the new subscriber only, until
      someone else subscribes. */
  lemma LastSubscriberWins(t: Tracker, o: ObserverId, es: seq<Event>)
    requires NoSubscription(es)
    ensures var r := Run(Subscribe(t, o), es);
            && r.log[..|t.log|] == t.log
            && forall i :: |t.log| <= i < |r.log| ==> r.log[i].observer == o
  {
    ObserverReceivesAll(Subscribe(t, o), o, es);
  }

  /** Two resets in a row: the count is 0 and two zeros are published. */
  lemma ResetTwice(t: Tracker)
    requires Inv(t)
    ensures var r := ResetStep(ResetStep(t));
            && r.tickCount == 0
            && r.log == t.log + Publish(t.observer, 0) + Publish(t.observer, 0)
            && r.live == {t.nextHandle + 1}
  {
  }

  /** A reset event followed by `n` ticks, as one run from `t`: with an
      observer it publishes 0, 1, ..., n; without one nothing is published
      and the count stays 0. */
  lemma ResetEventThenTicks(t: Tracker, n: nat)
    requires Inv(t)
    ensures var r := Run(t, [Activity] + Ticks(t.nextHandle, n));
            && Inv(r) && r.observer == t.observer
            && r.nextHandle == t.nextHandle + 1 && r.interval == Some(t.nextHandle)
            && r.live == {t.nextHandle}
            && (t.observer.Some? ==>
                  && r.tickCount == n
                  && r.log == t.log + [Delivery(t.observer.value, 0)] + Counting(t.observer.value, 0, n))
            && (t.observer.None? ==> r.tickCount == 0 && r.log == t.log)
  {
    RunAppend(t, [Activity], Ticks(t.nextHandle, n));
    assert Run(t, [Activity]) == ResetStep(t) by {
      assert [Activity][1..] == [];
    }
    ResetThenTicks(t, n);
  }

  /** Ticks that fault for want of an observer do not advance the count, so a
      subscriber arriving after `k` such seconds first receives 1, not k + 1. */
  lemma FaultedSecondsAreLost(t: Tracker, k: nat, o: ObserverId)
    requires Inv(t) && t.observer.None?
    ensures var h := t.nextHandle;
            var r := Run(t, [Activity] + Ticks(h, k) + [Subscribed(o), IntervalFired(h)]);
            r.tickCount == 1 && r.log == t.log + [Delivery(o, 1)]
  {
    var h := t.nextHandle;
    var a := [Activity] + Ticks(h, k);
    var b := [Subscribed(o), IntervalFired(h)];
    ResetEventThenTicks(t, k);
    RunAppend(t, a, b);
    var s := Run(t, a);
    var s1 := Subscribe(s, o);
    assert Run(s, b) == Run(s1, [IntervalFired(h)]) by {
      assert b[1..] == [IntervalFired(h)];
    }
    assert Run(s1, [IntervalFired(h)]) == Tick(s1, h).0 by {
      assert [IntervalFired(h)][1..] == [];
    }
  }

  /** A reset, a late firing of the interval it cleared, then `n` ticks of
      the new interval: the late firing publishes nothing. */
  lemma ResetLateFiringThenTicks(s: Tracker, old_h: Handle, n: nat)
    requires Inv(s) && s.observer.Some? && old_h < s.nextHandle
    ensures var r := Run(s, [Activity, IntervalFired(old_h)] + Ticks(s.nextHandle, n));
            r.log == s.log + [Delivery(s.observer.value, 0)] + Counting(s.observer.value, 0, n)
  {
    var s1 := ResetStep(s);
    assert Run(s, [Activity, IntervalFired(old_h)]) == s1 by {
      assert [Activity, IntervalFired(old_h)][1..] == [IntervalFired(old_h)];
      assert [IntervalFired(old_h)][1..] == [];
      OldIntervalsNeverFire(s, [], old_h);
    }
    RunAppend(s, [Activity, IntervalFired(old_h)], Ticks(s.nextHandle, n));
    ResetThenTicks(s, n);
  }

  /** Reset, `n1` ticks, reset, a late firing of the first interval, `n2`
      ticks: the count restarts at the second reset. */
  lemma RestartAfterTicks(t: Tracker, n1: nat, n2: nat)
    requires Inv(t) && t.observer.Some?
    ensures var h1 := t.nextHandle;
            var o := t.observer.value;
            var es := ([Activity] + Ticks(h1, n1)) + ([Activity, IntervalFired(h1)] + Ticks(h1 + 1, n2));
            Run(t, es).log == t.log + [Delivery(o, 0)] + Counting(o, 0, n1)
                                    + [Delivery(o, 0)] + Counting(o, 0, n2)
  {
    var h1 := t.nextHandle;
    var a := [Activity] + Ticks(h1, n1);
    var b := [Activity, IntervalFired(h1)] + Ticks(h1 + 1, n2);
    var o := t.observer.value;
    ResetEventThenTicks(t, n1);
    var s := Run(t, a);
    assert Inv(s) && s.observer == Some(o) && s.nextHandle == h1 + 1;
    assert s.log == t.log + [Delivery(o, 0)] + Counting(o, 0, n1);
    ResetLateFiringThenTicks(s, h1, n2);
    assert Run(s, b).log == s.log + [Delivery(o, 0)] + Counting(o, 0, n2);
    RunAppend(t, a, b);
  }

  /** Reset, two ticks, reset, a late firing of the first interval, three
      ticks: the subscriber sees 0, 1, 2, 0, 1, 2, 3. */
  lemma RestartScenario(t: Tracker)
    requires Inv(t) && t.observer.Some?
    ensures var h1 := t.nextHandle;
            var es := [Activity] + Ticks(h1, 2) + [Activity, IntervalFired(h1)] + Ticks(h1 + 1, 3);
            Values(Run(t, es).log[|t.log|..]) == [0, 1, 2, 0, 1, 2, 3]
  {
    var o, h1 := t.observer.value, t.nextHandle;
    var a := [Activity] + Ticks(h1, 2);
    var b := [Activity, IntervalFired(h1)] + Ticks(h1 + 1, 3);
    assert [Activity] + Ticks(h1, 2) + [Activity, IntervalFired(h1)] + Ticks(h1 + 1, 3) == a + b;
    RestartAfterTicks(t, 2, 3);
    var seen := [Delivery(o, 0)] + Counting(o, 0, 2) + [Delivery(o, 0)] + Counting(o, 0, 3);
    assert Run(t, a + b).log[|t.log|..] == seen;
    assert Values(seen) == [0, 1, 2, 0, 1, 2, 3];
  }
}
