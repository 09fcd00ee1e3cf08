/** The idle-time counter of src/idle_timeout.ts.

    The tracker owns a tick counter, at most one repeating interval and an
    optional observer.  Time is discrete: the host firing interval `h` is the
    event `IntervalFired(h)`, and the host only fires intervals that are still
    live (not yet cleared).  Intervals are named by the handles the host's
    `setInterval` hands out; a fresh handle for every call plays the role of a
    generation number.

    The pure part (the datatype `Tracker` and the step functions) is the
    specification; the classes `TimerTable` and `IdleTimeOut` are the
    imperative model, whose methods are proved to follow the step functions. */
module IdleTimeout {

  datatype Option<T> = None | Some(value: T)

  /** Identity of a subscriber (the rxjs observer handed to the subscribe function). */
  type ObserverId = nat

  /** A handle returned by the host's `setInterval`. */
  type Handle = nat

  /** One value pushed through `observer.next`, together with who received it. */
  datatype Delivery = Delivery(observer: ObserverId, value: int)

  /** The abstract state: the three fields of the tracker, the host's table of
      live intervals (only this tracker's intervals are in it), the handle the
      host will give out next, and a log of every value published so far. */
  datatype Tracker = Tracker(
    tickCount: int,
    interval: Option<Handle>,
    observer: Option<ObserverId>,
    live: set<Handle>,
    nextHandle: Handle,
    log: seq<Delivery>)

  /** What happened when the host fired an interval. */
  datatype TickResult =
    | NotLive            // the interval was cleared (or never created): the host does not run it
    | Fault              // the callback ran with no observer: `this._observer.next` throws
    | Published(value: int)

  /** The input events of the tracker.  Every DOM activity signal the
      constructor listens to (mousedown, mousemove, keypress, scroll,
      touchstart, load) is the event `Activity`: a call to `Reset`. */
  datatype Event =
    | Activity
    | IntervalFired(handle: Handle)
    | Subscribed(observer: ObserverId)

  /** The first handle the host gives out. */
  const FirstHandle: Handle := 1

  function IntervalSet(i: Option<Handle>): set<Handle>
  {
    if i.Some? then {i.value} else {}
  }

  /** The guarded publish of `Reset`: nothing is sent when no observer exists. */
  function Publish(observer: Option<ObserverId>, value: int): (ds: seq<Delivery>)
    ensures |ds| == if observer.Some? then 1 else 0
    ensures forall d :: d in ds ==> d == Delivery(observer.value, value)
  {
    if observer.Some? then [Delivery(observer.value, value)] else []
  }

  /** The state invariant: the count is a natural number, the live intervals
      are exactly the one the tracker holds (none before the first reset),
      every handle given out is below `nextHandle`, and every published value
      is a natural number. */
  predicate Inv(t: Tracker)
  {
    && t.tickCount >= 0
    && t.live == IntervalSet(t.interval)
    && (t.interval.Some? ==> t.interval.value < t.nextHandle)
    && (forall i :: 0 <= i < |t.log| ==> t.log[i].value >= 0)
  }

  /** The state right after construction: the constructor registers listeners
      and the observable but starts no interval and has no observer. */
  function Initial(): (t: Tracker)
    ensures Inv(t)
    ensures t.tickCount == 0 && t.live == {} && t.observer.None? && t.log == []
  {
    Tracker(0, None, None, {}, FirstHandle, [])
  }

  /** `Reset`: zero the count, publish 0 if an observer exists, clear the old
      interval, start a new one with a fresh handle. */
  function ResetStep(t: Tracker): (r: Tracker)
    ensures r.tickCount == 0
    ensures r.observer == t.observer
    ensures r.log == t.log + Publish(t.observer, 0)
    ensures r.interval == Some(t.nextHandle) && r.nextHandle == t.nextHandle + 1
    ensures t.nextHandle in r.live
    ensures Inv(t) ==> Inv(r) && r.live == {t.nextHandle} && t.nextHandle !in t.live
  {
    var cleared := t.live - IntervalSet(t.interval);
    Tracker(0, Some(t.nextHandle), t.observer, cleared + {t.nextHandle},
            t.nextHandle + 1, t.log + Publish(t.observer, 0))
  }

  /** The host firing interval `h`: a cleared interval does nothing; a live
      one runs the callback, which fails before incrementing when there is no
      observer, and otherwise pre-increments the count and publishes it. */
  function Tick(t: Tracker, h: Handle): (r: (Tracker, TickResult))
    ensures r.1.NotLive? <==> h !in t.live
    ensures r.1.Fault? <==> h in t.live && t.observer.None?
    ensures r.1.Published? <==> h in t.live && t.observer.Some?
    ensures !r.1.Published? ==> r.0 == t
    ensures r.1.Published? ==>
              && r.1.value == t.tickCount + 1
              && r.0.tickCount == r.1.value
              && r.0.log == t.log + [Delivery(t.observer.value, r.1.value)]
              && r.0 == t.(tickCount := r.1.value, log := r.0.log)
  {
    if h !in t.live then (t, NotLive)
    else if t.observer.None? then (t, Fault)
    else
      var n := t.tickCount + 1;
      (t.(tickCount := n, log := t.log + [Delivery(t.observer.value, n)]), Published(n))
  }

  /** The subscribe function given to `Observable.create`: it overwrites the
      observer, so the last subscriber wins.  Nothing is replayed. */
  function Subscribe(t: Tracker, o: ObserverId): (r: Tracker)
    ensures r.observer == Some(o)
    ensures r.log == t.log
    ensures r.tickCount == t.tickCount && r.interval == t.interval
    ensures r.live == t.live && r.nextHandle == t.nextHandle
    ensures Inv(t) ==> Inv(r)
  {
    t.(observer := Some(o))
  }

  /** One event. */
  function Step(t: Tracker, e: Event): (r: Tracker)
    ensures r.tickCount != t.tickCount ==>
              || (e.Activity? && r.tickCount == 0)
              || (e.IntervalFired? && r.tickCount == t.tickCount + 1)
    ensures Inv(t) ==> Inv(r)
    ensures |t.log| <= |r.log| <= |t.log| + 1 && r.log[..|t.log|] == t.log
  {
    match e
    case Activity => ResetStep(t)
    case IntervalFired(h) => Tick(t, h).0
    case Subscribed(o) => Subscribe(t, o)
  }

  /** A run of events, first to last. */
  function Run(t: Tracker, es: seq<Event>): (r: Tracker)
    ensures Inv(t) ==> Inv(r)
    ensures |t.log| <= |r.log| && r.log[..|t.log|] == t.log
    decreases |es|
  {
    if es == [] then t else Run(Step(t, es[0]), es[1..])
  }

  /** `n` firings of interval `h` with no other event between them. */
  function Ticks(h: Handle, n: nat): (es: seq<Event>)
    ensures |es| == n
    ensures forall i :: 0 <= i < n ==> es[i] == IntervalFired(h)
  {
    if n == 0 then [] else [IntervalFired(h)] + Ticks(h, n - 1)
  }

  /** The host's table of intervals: the handles still live, and the handle
      the next `setInterval` returns. */
  class TimerTable {
    var live: set<Handle>
    var next: Handle

    /** Every live handle was given out already, so `next` is not live. */
    ghost predicate Valid()
      reads this
    {
      forall x :: x in live ==> x < next
    }

    constructor ()
      ensures Valid()
      ensures live == {} && next == FirstHandle
    {
      live := {};
      next := FirstHandle;
    }

    /** `clearInterval(h)`; clearing `undefined` does nothing. */
    method ClearInterval(h: Option<Handle>)
      requires Valid()
      modifies this
      ensures Valid()
      ensures live == old(live) - IntervalSet(h) && next == old(next)
    {
      if h.Some? {
        live := live - {h.value};
      }
    }

    /** `setInterval(...)`: a new live interval with a handle never given out before. */
    method SetInterval() returns (h: Handle)
      requires Valid()
      modifies this
      ensures Valid()
      ensures h !in old(live)
      ensures h == old(next) && next == old(next) + 1
      ensures live == old(live) + {h}
    {
      h := next;
      live := live + {h};
      next := next + 1;
    }
  }

  /** The class `IdleTimeOut`.  `published` is the ghost log of every value
      passed to `observer.next`. */
  class IdleTimeOut {
    var tickCount: int
    var interval: Option<Handle>
    var observer: Option<ObserverId>
    const timers: TimerTable
    ghost var published: seq<Delivery>

    ghost function State(): Tracker
      reads this, timers
    {
      Tracker(tickCount, interval, observer, timers.live, timers.next, published)
    }

    ghost predicate Valid()
      reads this, timers
    {
      Inv(State()) && timers.Valid()
    }

    constructor ()
      ensures Valid() && fresh(timers)
      ensures State() == Initial()
    {
      tickCount := 0;
      interval := None;
      observer := None;
      timers := new TimerTable();
      published := [];
    }

    method Reset()
      requires Valid()
      modifies this, timers
      ensures Valid()
      ensures State() == ResetStep(old(State()))
      ensures tickCount == 0 && timers.live == {interval.value}
      ensures published == old(published) + Publish(old(observer), 0)
    {
      tickCount := 0;
      if observer.Some? {
        published := published + [Delivery(observer.value, tickCount)];
      }
      timers.ClearInterval(interval);
      var h := timers.SetInterval();
      interval := Some(h);
    }

    /** The host running the callback of interval `h`, if `h` is still live. */
    method Fire(h: Handle) returns (result: TickResult)
      requires Valid()
      modifies this
      ensures Valid()
      ensures (State(), result) == Tick(old(State()), h)
    {
      if h !in timers.live {
        return NotLive;
      }
      if observer.None? {
        return Fault;
      }
      tickCount := tickCount + 1;
      published := published + [Delivery(observer.value, tickCount)];
      result := Published(tickCount);
    }

    /** A subscriber arriving at `OnTick`. */
    method SubscribeObserver(o: ObserverId)
      requires Valid()
      modifies this
      ensures Valid()
      ensures State() == Subscribe(old(State()), o)
    {
      observer := Some(o);
    }
  }
}
