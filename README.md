# Idle-time tracker: a Dafny model

This project models the idle-activity watchdog of a web page. The class
`IdleTimeOut` keeps a count of the seconds since the last user activity. Any
activity (`mousedown`, `mousemove`, `keypress`, `scroll`, `touchstart`, `load`)
calls `Reset`, which sets the count to 0, publishes 0 if an observer exists,
clears the running interval and starts a new one. Every second the interval
pre-increments the count and publishes it to the observer. The page
(`src/index.ts`) calls `Reset` once and then subscribes a handler. The handler
shows "fine" up to 4 seconds, shows a message with the number of seconds up to
20, and goes to the logout page after that.

Time is discrete. The host firing interval `h` is the event
`IntervalFired(h)`. Intervals are named by the handles `setInterval` gives out,
and each call gets a fresh handle, so a handle works as a generation number.
The host runs only the callbacks of live intervals. The callback closes over
the tracker and not over its own handle, so any live interval would increment
the count. What keeps the count honest is the invariant `Inv`: the live
intervals are exactly the one the tracker holds. `Reset` keeps that invariant
because it clears the old interval before it creates the new one.

Files:

- `idle_timeout.dfy`, module `IdleTimeout`. It holds the abstract state
  `Tracker` (the three fields, the host's table of live intervals, the next
  handle and a log of every delivered value), the step functions `ResetStep`,
  `Tick`, `Subscribe`, `Step` and `Run`, and the invariant `Inv`. It also holds
  the imperative classes. `TimerTable` is the host's interval table.
  `IdleTimeOut` has the source's fields, and each of its methods is proved to
  move `State()` exactly as the matching step function does.
- `idle_timeout_lemmas.dfy`, module `IdleTimeoutLemmas`: properties of runs of
  events.
- `index.dfy`, module `Page`: the handler's threshold decision, the startup
  order, and what the page does when the user stays idle.

Two behaviours of the code are worth knowing:

- An rxjs `Observable` usually serves many subscribers, but this code keeps
  one observer: the subscribe function given to `Observable.create`
  overwrites `_observer`, so the last subscriber wins (`LastSubscriberWins`).
- `Reset` guards its publish, but the interval callback calls
  `this._observer.next` unguarded. With no observer this throws a TypeError.
  JavaScript evaluates the callee before the argument, so the exception comes
  before `++this._tick_count`, and the state is unchanged. The model calls this
  outcome `Fault`. The seconds that fault are lost: a subscriber who arrives
  after them first receives 1, not the number of seconds that actually passed
  since the reset (`FaultedSecondsAreLost`). On the page itself a fault cannot
  happen, because the page subscribes right after its first `Reset`
  (`StartedPageNeverFaults`).

## Model

| member | source | states |
|---|---|---|
| IdleTimeout.Publish | src/idle_timeout.ts:14-16 | The guarded publish of `Reset`: one delivery of the value when an observer exists, none otherwise |
| IdleTimeout.Initial | src/idle_timeout.ts:5-8 | A new tracker satisfies the invariant, with count 0, no live interval, no observer and nothing published |
| IdleTimeout.ResetStep | src/idle_timeout.ts:12-20 | Reset makes the count 0, publishes exactly one 0 if an observer exists and nothing otherwise, and keeps the observer. It holds a fresh handle, and from a valid state that handle is the only live interval and the old one is cleared. It preserves the invariant |
| IdleTimeout.Tick | src/idle_timeout.ts:19 | Firing a cleared interval does nothing. Firing the live one without an observer faults and changes nothing. Otherwise it raises the count by exactly 1 and publishes the new value to the observer, with nothing else changed |
| IdleTimeout.Subscribe | src/idle_timeout.ts:29 | Subscribing installs the new observer, replays nothing, touches neither count nor intervals, and preserves the invariant |
| IdleTimeout.Step | src/idle_timeout.ts:12-29 | An event changes the count only to 0 (activity) or by +1 (a tick). It preserves the invariant and only appends to the log, at most one value per event |
| IdleTimeout.Run | src/idle_timeout.ts:12-29 | Any sequence of events preserves the invariant (the count stays a natural number and at most one interval is live) and never rewrites what was already published |
| IdleTimeout.TimerTable.ClearInterval | src/idle_timeout.ts:18 | `clearInterval` removes the held interval from the live set and keeps the counter; clearing `undefined` does nothing. The table stays valid: every live handle is below the counter |
| IdleTimeout.TimerTable.SetInterval | src/idle_timeout.ts:19 | `setInterval` returns the counter value as a new live handle, which was not live before, and advances the counter. The table stays valid |
| IdleTimeout.IdleTimeOut.constructor | src/idle_timeout.ts:24-30 | Construction yields the initial state: no interval is started and there is no observer |
| IdleTimeout.IdleTimeOut.Reset | src/idle_timeout.ts:12-20 | The method moves the state exactly as `ResetStep`: count 0, one 0 published only with an observer, one live interval, invariant kept |
| IdleTimeout.IdleTimeOut.Fire | src/idle_timeout.ts:19 | The interval callback moves the state and returns the outcome exactly as `Tick` |
| IdleTimeout.IdleTimeOut.SubscribeObserver | src/idle_timeout.ts:29 | Subscribing moves the state exactly as `Subscribe` |
| IdleTimeoutLemmas.RunAppend | src/idle_timeout.ts:12-29 | Running two event sequences one after the other equals running their concatenation |
| IdleTimeoutLemmas.TicksPublishInOrder | src/idle_timeout.ts:19 | With an observer, n firings of the live interval raise the count by n and publish count+1, ..., count+n in order to that observer |
| IdleTimeoutLemmas.TicksWithoutObserver | src/idle_timeout.ts:19 | With no observer, any number of firings leaves the state unchanged: each one faults before incrementing |
| IdleTimeoutLemmas.ResetThenTicks | src/idle_timeout.ts:12-20 | Reset then n ticks: with an observer the published values are 0, 1, ..., n and the count is n. Without one nothing is published and the count stays 0. Only the new interval is live |
| IdleTimeoutLemmas.ResetEventThenTicks | src/idle_timeout.ts:12-20 | The same run as `ResetThenTicks`, written as one event sequence that starts with an activity event, in both cases: with an observer it publishes 0, 1, ..., n; without one nothing is published and the count stays 0 |
| IdleTimeoutLemmas.FaultedSecondsAreLost | src/idle_timeout.ts:12-29 | Reset with no observer, k faulting ticks, a subscription, one more tick: the count is 1 and the new subscriber receives only 1, whatever k was |
| IdleTimeoutLemmas.ClearedStaysCleared | src/idle_timeout.ts:18-19 | A handle that was given out and then cleared never becomes live again, whatever events follow |
| IdleTimeoutLemmas.OldIntervalsNeverFire | src/idle_timeout.ts:18-19 | After a reset, firing any interval created before it has no effect, whatever events follow |
| IdleTimeoutLemmas.QuietWithoutReset | src/idle_timeout.ts:24-30 | While no interval exists and no activity occurs, no event changes the count or publishes anything |
| IdleTimeoutLemmas.NoTickBeforeFirstReset | src/idle_timeout.ts:24-30 | From construction until the first reset, every firing is ignored: the count stays 0 and nothing is published |
| IdleTimeoutLemmas.ObserverPersists | src/idle_timeout.ts:29 | Once an observer is registered, there always is one |
| IdleTimeoutLemmas.ObserverReceivesAll | src/idle_timeout.ts:29 | While nobody else subscribes, every value published from now on goes to the registered observer |
| IdleTimeoutLemmas.LastSubscriberWins | src/idle_timeout.ts:29 | After a subscription, nothing published earlier is replayed, and every later value goes to the newest subscriber until another one subscribes |
| IdleTimeoutLemmas.ResetTwice | src/idle_timeout.ts:12-20 | Two resets in a row leave the count at 0, publish two zeros (with an observer), and leave only the second interval live |
| IdleTimeoutLemmas.ResetLateFiringThenTicks | src/idle_timeout.ts:18-19 | A reset, a late firing of an interval created before it, then n ticks: the late firing publishes nothing, and the observer sees 0, 1, ..., n |
| IdleTimeoutLemmas.RestartAfterTicks | src/idle_timeout.ts:12-20 | Reset, n1 ticks, reset, a late firing of the first interval, n2 ticks: the observer sees 0, 1, ..., n1, then 0, 1, ..., n2. The second reset restarts the count |
| IdleTimeoutLemmas.RestartScenario | src/idle_timeout.ts:12-20 | Reset, 2 ticks, reset, a late firing of the first interval, then 3 ticks: the subscriber sees 0, 1, 2, 0, 1, 2, 3 |
| Page.Classify | src/index.ts:12-18 | Seconds <= 4 is "fine", > 20 is logout, and 5 to 20 is a message carrying the seconds. The three cases are exhaustive and exclusive, each stated both ways |
| Page.ClassifyBoundaries | src/index.ts:12-18 | 4 is fine, 5 and 20 are messages, 21 is logout |
| Page.Reactions | src/index.ts:9-18 | The handler reacts to each delivered value, in order, by its classification |
| Page.StartupState | src/index.ts:7-9 | After `Reset` then `subscribe`, the state is the subscribed state after one reset: count 0, nothing delivered, one live interval, the handler registered |
| Page.Startup | src/index.ts:7-9 | The page's top-level statements on a fresh tracker give that state, and the startup 0 is never delivered to the handler |
| Page.HandlerSeesOneFirst | src/index.ts:7-9 | After startup with no activity, n ticks deliver exactly 1, 2, ..., n to the handler: its first value is 1, not 0 |
| Page.IdlePageLogsOutAtTwentyOne | src/index.ts:9-18 | With no activity after startup, the page shows "fine" for seconds 1 to 4 and the message for 5 to 20. It reaches logout at second 21 and never earlier |
| Page.StartedPageNeverFaults | src/index.ts:7-9 | Because the page subscribes right after its first reset, no later tick can find the tracker without an observer |

## Left out

- Real time is not modelled. The 1000 ms period of `setInterval` becomes
  discrete `IntervalFired(h)` events, and the host fires live intervals in any
  order the lemmas' event sequences choose.
- The DOM listener registration for the six activity events, with capture set
  to true, is not modelled. Each such event is the single event `Activity`, a
  call to `Reset`.
- rxjs internals are not modelled beyond the observer that was handed over
  last. Unsubscribing is also left out: the source never unsubscribes.
- A handler that calls back into the tracker from inside `next` is not
  modelled. The page's handler does not.
- The static singleton `IdleTimeOut.Current` is not modelled. The model
  constructs instances instead.
- `console.log`, `getElementById`, the `innerText` texts and the
  `document.location.href` navigation are not modelled. Only the
  classification (`Fine`, `Message(seconds)`, `Logout`) is kept.
- IdleTimeout.Tick: the count is an unbounded integer. JavaScript numbers stop
  counting exactly past 2^53, which is far beyond any real idle time.
- IdleTimeout.Tick: a `Fault` only reports the thrown TypeError. The host's
  error reporting is not modelled, and the interval stays live as it does in a
  browser.
