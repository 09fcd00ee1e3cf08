/** The page of src/index.ts: it resets the tracker, then subscribes a
    handler that turns each published number of idle seconds into one of
    three reactions. */
module Page {
  import opened IdleTimeout
  import opened IdleTimeoutLemmas

  /** What the handler does with a value: show the "fine" text, show the
      inactivity message with the number of seconds, or go to the logout page. */
  datatype Reaction = Fine | Message(seconds: int) | Logout

  /** The handler's threshold decision. */
  function Classify(seconds: int): (r: Reaction)
    ensures r == Fine <==> seconds <= 4
    ensures r == Logout <==> seconds > 20
    ensures r.Message? <==> 4 < seconds <= 20
    ensures r.Message? ==> r.seconds == seconds
  {
    if seconds <= 4 then Fine
    else if seconds > 20 then Logout
    else Message(seconds)
  }

  /** The last value of each band and the first of the next. */
  lemma ClassifyBoundaries()
    ensures Classify(4) == Fine && Classify(5) == Message(5)
    ensures Classify(20) == Message(20) && Classify(21) == Logout
  {
  }

  /** The handler's reaction to each delivery, in order. */
  function Reactions(ds: seq<Delivery>): (rs: seq<Reaction>)
    ensures |rs| == |ds|
    ensures forall i :: 0 <= i < |ds| ==> rs[i] == Classify(ds[i].value)
  {
    seq(|ds|, i requires 0 <= i < |ds| => Classify(ds[i].value))
  }

  /** The top-level statements of the page, in order: `Reset`, then `subscribe`. */
  function StartupEvents(handler: ObserverId): (es: seq<Event>)
  {
    [Activity, Subscribed(handler)]
  }

  /** The state after the page's top-level statements. */
  lemma StartupState(handler: ObserverId)
    ensures var s := Run(Initial(), StartupEvents(handler));
            && s == Subscribe(ResetStep(Initial()), handler)
            && Inv(s)
            && s.tickCount == 0 && s.log == []
            && s.observer == Some(handler)
            && s.interval == Some(FirstHandle) && s.live == {FirstHandle}
  {
    var es := StartupEvents(handler);
    var afterReset := ResetStep(Initial());
    assert Run(Initial(), es) == Run(afterReset, [Subscribed(handler)]) by {
      assert es[1..] == [Subscribed(handler)];
    }
    assert Run(afterReset, [Subscribed(handler)]) == Subscribe(afterReset, handler) by {
      assert [Subscribed(handler)][1..] == [];
    }
  }

  /** The page's top-level statements on a fresh tracker.  The reset runs
      while nobody is subscribed, so its 0 is never delivered. */
  method Startup(handler: ObserverId) returns (tracker: IdleTimeOut)
    ensures fresh(tracker) && tracker.Valid()
    ensures tracker.State() == Run(Initial(), StartupEvents(handler))
    ensures tracker.published == [] && tracker.observer == Some(handler)
  {
    tracker := new IdleTimeOut();
    tracker.Reset();
    tracker.SubscribeObserver(handler);
    StartupState(handler);
  }

  /** After startup, with no user activity, the handler receives 1, 2, ..., n
      for the first n ticks: it never sees the startup 0. */
  lemma HandlerSeesOneFirst(handler: ObserverId, n: nat)
    ensures var r := Run(Initial(), StartupEvents(handler) + Ticks(FirstHandle, n));
            r.tickCount == n && r.log == Counting(handler, 0, n)
  {
    var s := Run(Initial(), StartupEvents(handler));
    StartupState(handler);
    RunAppend(Initial(), StartupEvents(handler), Ticks(FirstHandle, n));
    TicksPublishInOrder(s, n);
  }

  /** With no user activity after startup, the page shows "fine" for seconds
      1 to 4, the message for seconds 5 to 20, and goes to the logout page at
      second 21 and not before. */
  lemma IdlePageLogsOutAtTwentyOne(handler: ObserverId, n: nat)
    ensures var rs := Reactions(Run(Initial(), StartupEvents(handler) + Ticks(FirstHandle, n)).log);
            && |rs| == n
            && (forall k :: 0 <= k < n && k < 4 ==> rs[k] == Fine)
            && (forall k :: 4 <= k < n && k < 20 ==> rs[k] == Message(k + 1))
            && (n > 20 ==> rs[20] == Logout)
            && ((exists k :: 0 <= k < n && rs[k] == Logout) <==> n > 20)
  {
    HandlerSeesOneFirst(handler, n);
    var rs := Reactions(Run(Initial(), StartupEvents(handler) + Ticks(FirstHandle, n)).log);
    assert forall k :: 0 <= k < n ==> rs[k] == Classify(k + 1);
    if n > 20 {
      assert rs[20] == Logout;
    }
  }

  /** Because the page subscribes right after its first reset, no tick can
      ever find the tracker without an observer. */
  lemma StartedPageNeverFaults(handler: ObserverId, es: seq<Event>, h: Handle)
    ensures Tick(Run(Initial(), StartupEvents(handler) + es), h).1 != Fault
  {
    StartupState(handler);
    RunAppend(Initial(), StartupEvents(handler), es);
    ObserverPersists(Run(Initial(), StartupEvents(handler)), es);
  }
}
