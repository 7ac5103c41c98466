/**
  Rate-limited run-log notifications: the first append of a window publishes at once, later ones are
  covered by one detached timer at the window's end, and a registry keeps one window per run and
  prunes idle ones. Instants are milliseconds.
 */
module LogNotify {
  import opened Wrappers

  type Instant = nat
  type RunId = string

  const WINDOW: nat := 250
  const PRUNE_INTERVAL: nat := 30_000

  datatype Action = Publish | Schedule(delay: nat) | AlreadyPending

  datatype Window = Window(lastPublished: Option<Instant>, trailingDue: Option<Instant>)

  const FRESH: Window := Window(None, None)

  /** A pending due time is always the end of the current window. */
  predicate WindowOk(w: Window) {
    w.trailingDue.Some? ==> w.lastPublished.Some? && w.trailingDue.value == w.lastPublished.value + WINDOW
  }

  predicate InWindow(w: Window, now: Instant) {
    w.lastPublished.Some? && now < w.lastPublished.value + WINDOW
  }

  function AppendTo(w: Window, now: Instant): (Window, Action) {
    if InWindow(w, now) then
      if w.trailingDue.Some? then (w, AlreadyPending)
      else
        var due := w.lastPublished.value + WINDOW;
        (w.(trailingDue := Some(due)), Schedule(due - now))
    else
      (Window(Some(now), None), Publish)
  }

  function WakeUp(w: Window, now: Instant): (Window, bool) {
    if w.trailingDue.Some? && w.trailingDue.value <= now then (Window(Some(now), None), true)
    else (w, false)
  }

  // ----- One window over whole runs

  /**
    What happens to one window. The timestamp of an append may be older than that of an event before
    it: it is read before the lock is taken. A timer wakes at or after the due time it was set for.
   */
  datatype Event = Append(now: Instant) | TimerWakes(due: Instant, now: Instant)

  /** What the window says: the action an append calls for, or whether a woken timer publishes. */
  datatype Answer = Appended(action: Action) | Woke(published: bool)

  function React(w: Window, e: Event): (Window, Answer) {
    match e
    case Append(now) => var (next, action) := AppendTo(w, now); (next, Appended(action))
    case TimerWakes(_, now) => var (next, published) := WakeUp(w, now); (next, Woke(published))
  }

  /** The due times of the timers that have not woken, and the recorded publish times. */
  datatype Log = Log(timers: multiset<Instant>, published: seq<Instant>)

  const EMPTY: Log := Log(multiset{}, [])

  predicate Announces(answer: Answer) {
    answer == Appended(Publish) || answer == Woke(true)
  }

  function TimersAfter(timers: multiset<Instant>, e: Event, answer: Answer): multiset<Instant> {
    if e.TimerWakes? then timers - multiset{e.due}
    else if answer.Appended? && answer.action.Schedule? then timers + multiset{e.now + answer.action.delay}
    else timers
  }

  function Logged(log: Log, e: Event, answer: Answer): Log {
    Log(TimersAfter(log.timers, e, answer), if Announces(answer) then log.published + [e.now] else log.published)
  }

  datatype Run = Run(window: Window, log: Log)

  const START: Run := Run(FRESH, EMPTY)

  predicate CanHappen(log: Log, e: Event) {
    e.TimerWakes? ==> e.due in log.timers && e.due <= e.now
  }

  function Happen(r: Run, e: Event): Run
    requires CanHappen(r.log, e)
  {
    var (window, answer) := React(r.window, e);
    Run(window, Logged(r.log, e, answer))
  }

  predicate Possible(r: Run, events: seq<Event>)
    decreases |events|
  {
    events == [] || (CanHappen(r.log, events[0]) && Possible(Happen(r, events[0]), events[1..]))
  }

  function RunAll(r: Run, events: seq<Event>): Run
    requires Possible(r, events)
    decreases |events|
  {
    if events == [] then r else RunAll(Happen(r, events[0]), events[1..])
  }

  predicate Spaced(times: seq<Instant>) {
    forall i :: 0 < i < |times| ==> times[i - 1] + WINDOW <= times[i]
  }

  /** A pending due time has a timer of its own. */
  predicate Covered(r: Run) {
    WindowOk(r.window) && (r.window.trailingDue.Some? ==> r.window.trailingDue.value in r.log.timers)
  }

  predicate LastIs(times: seq<Instant>, last: Option<Instant>) {
    if times == [] then last.None? else last == Some(times[|times| - 1])
  }

  /** Besides, publishes are spaced and the last one is the recorded one. */
  predicate RunOk(r: Run) {
    Covered(r) && Spaced(r.log.published) && LastIs(r.log.published, r.window.lastPublished)
  }

  /** An append is announced, or a timer that has not woken stands behind it. */
  lemma AppendIsCovered(r: Run, now: Instant)
    requires Covered(r)
    ensures var t := Happen(r, Append(now));
            && Covered(t)
            && (if AppendTo(r.window, now).1.Publish? then t.log.published == r.log.published + [now]
                else && t.log.published == r.log.published
                     && t.window.trailingDue.Some? && t.window.trailingDue.value in t.log.timers
                     && now < t.window.trailingDue.value)
  {
  }

  /** The timer of a pending due time announces; any other leaves the window as it was or announces too. */
  lemma WakingAnnounces(r: Run, due: Instant, now: Instant)
    requires Covered(r) && CanHappen(r.log, TimerWakes(due, now))
    ensures var t := Happen(r, TimerWakes(due, now));
            && (r.window.trailingDue == Some(due) ==> t.log.published == r.log.published + [now])
            && (if t.log.published == r.log.published then t.window == r.window
                else && t.log.published == r.log.published + [now]
                     && t.window.trailingDue.None? && r.window.trailingDue.Some?)
  {
  }

  lemma CoveredKept(r: Run, e: Event)
    requires Covered(r) && CanHappen(r.log, e)
    ensures Covered(Happen(r, e))
  {
  }

  lemma SpacedOneMore(times: seq<Instant>, now: Instant)
    requires Spaced(times) && (times != [] ==> times[|times| - 1] + WINDOW <= now)
    ensures Spaced(times + [now])
  {
  }

  lemma RunOkKept(r: Run, e: Event)
    requires RunOk(r) && CanHappen(r.log, e)
    ensures RunOk(Happen(r, e))
  {
    CoveredKept(r, e);
    if Announces(React(r.window, e).1) {
      SpacedOneMore(r.log.published, e.now);
    }
  }

  lemma {:induction false} RunStaysOk(r: Run, events: seq<Event>)
    requires RunOk(r) && Possible(r, events)
    ensures RunOk(RunAll(r, events))
    decreases |events|
  {
    if events != [] {
      RunOkKept(r, events[0]);
      RunStaysOk(Happen(r, events[0]), events[1..]);
    }
  }

  /** For any order of call timestamps, recorded publish times are at least one window apart. */
  lemma PublishesAreSpaced(events: seq<Event>)
    requires Possible(START, events)
    ensures Spaced(RunAll(START, events).log.published)
  {
    RunStaysOk(START, events);
  }

  /**
    The window as the source updates it, in place, with the timers it asked for and the publishes it recorded.
    `Valid()` carries what they promise: spaced publishes, and a timer behind every pending due time.
   */
  class LogNotifyWindow {
    var lastPublished: Option<Instant>
    var trailingDue: Option<Instant>
    ghost var log: Log

    ghost function History(): Run
      reads this
    {
      Run(Window(lastPublished, trailingDue), log)
    }

    ghost predicate Valid()
      reads this
    {
      RunOk(History())
    }

    constructor ()
      ensures Valid() && History() == START
    {
      lastPublished, trailingDue, log := None, None, EMPTY;
    }

    /** An append publishes unless the last publish is too recent; then a timer stands behind it. */
    method OnAppend(now: Instant) returns (action: Action)
      requires Valid()
      modifies this
      ensures Valid() && History() == Happen(old(History()), Append(now))
      ensures action.Publish? <==>
              old(log).published == [] || old(log).published[|old(log).published| - 1] + WINDOW <= now
      ensures log.published == if action.Publish? then old(log).published + [now] else old(log).published
      ensures !action.Publish? ==> trailingDue.Some? && trailingDue.value in log.timers && now < trailingDue.value
      ensures action.Schedule? ==> trailingDue == Some(now + action.delay)
      ensures !action.Publish? ==> (action.AlreadyPending? <==> old(trailingDue).Some?)
    {
      ghost var after := Happen(History(), Append(now));
      RunOkKept(History(), Append(now));
      AppendIsCovered(History(), now);
      if lastPublished.Some? && now < lastPublished.value + WINDOW {
        if trailingDue.Some? {
          action := AlreadyPending;
        } else {
          var due := lastPublished.value + WINDOW;
          trailingDue := Some(due);
          action := Schedule(due - now);
        }
      } else {
        lastPublished := Some(now);
        trailingDue := None;
        action := Publish;
      }
      log := Logged(log, Append(now), Appended(action));
      assert History() == after;
    }

    /** The timer set for `due` wakes: it publishes if that due time is still pending, and never too early. */
    method OnDeadline(now: Instant, ghost due: Instant) returns (publishes: bool)
      requires Valid() && due in log.timers && due <= now
      modifies this
      ensures Valid() && History() == Happen(old(History()), TimerWakes(due, now))
      ensures old(trailingDue) == Some(due) ==> publishes
      ensures publishes ==> trailingDue.None? && log.published == old(log).published + [now]
      ensures !publishes ==> trailingDue == old(trailingDue) && log.published == old(log).published
      ensures publishes ==>
                old(log).published != [] && old(log).published[|old(log).published| - 1] + WINDOW <= now
    {
      RunOkKept(History(), TimerWakes(due, now));
      if trailingDue.Some? && now >= trailingDue.value {
        lastPublished := Some(now);
        trailingDue := None;
        publishes := true;
      } else {
        publishes := false;
      }
      log := Logged(log, TimerWakes(due, now), Woke(publishes));
    }
  }

  // ----- The registry

  datatype Registry = Registry(windows: map<RunId, Window>, pruneAfter: Instant)

  datatype Call = LogAppend(run: RunId, now: Instant) | LogDeadline(run: RunId, now: Instant)

  function Prune(r: Registry, now: Instant): Registry {
    if now < r.pruneAfter then r
    else Registry(map run | run in r.windows && (r.windows[run].trailingDue.Some? || InWindow(r.windows[run], now))
                    :: r.windows[run],
                  now + PRUNE_INTERVAL)
  }

  function WindowOf(windows: map<RunId, Window>, run: RunId): Window {
    if run in windows then windows[run] else FRESH
  }

  function AppendIn(r: Registry, run: RunId, now: Instant): (Registry, Action) {
    var pruned := Prune(r, now);
    var (window, action) := AppendTo(WindowOf(pruned.windows, run), now);
    (pruned.(windows := pruned.windows[run := window]), action)
  }

  function WakeIn(r: Registry, run: RunId, now: Instant): (Registry, bool) {
    if run in r.windows then
      var (window, published) := WakeUp(r.windows[run], now);
      (r.(windows := r.windows[run := window]), published)
    else (r, false)
  }

  function Serve(r: Registry, call: Call): (Registry, Answer) {
    match call
    case LogAppend(run, now) => var (next, action) := AppendIn(r, run, now); (next, Appended(action))
    case LogDeadline(run, now) => var (next, published) := WakeIn(r, run, now); (next, Woke(published))
  }

  // ----- The registry over whole runs

  /** The registry, what happened to each run, the last timestamp, and whether timestamps came in order so far. */
  datatype Journal = Journal(registry: Registry, logs: map<RunId, Log>, latest: Instant, ordered: bool)

  datatype Happening = Happening(run: RunId, event: Event)

  function LogOf(logs: map<RunId, Log>, run: RunId): Log {
    if run in logs then logs[run] else EMPTY
  }

  function CallOf(h: Happening): Call {
    if h.event.Append? then LogAppend(h.run, h.event.now) else LogDeadline(h.run, h.event.now)
  }

  predicate CanOccur(j: Journal, h: Happening) {
    CanHappen(LogOf(j.logs, h.run), h.event)
  }

  function Occur(j: Journal, h: Happening): Journal
    requires CanOccur(j, h)
  {
    var (registry, answer) := Serve(j.registry, CallOf(h));
    Journal(registry, j.logs[h.run := Logged(LogOf(j.logs, h.run), h.event, answer)],
            h.event.now, j.ordered && j.latest <= h.event.now)
  }

  predicate CanAllOccur(j: Journal, hs: seq<Happening>)
    decreases |hs|
  {
    hs == [] || (CanOccur(j, hs[0]) && CanAllOccur(Occur(j, hs[0]), hs[1..]))
  }

  function OccurAll(j: Journal, hs: seq<Happening>): Journal
    requires CanAllOccur(j, hs)
    decreases |hs|
  {
    if hs == [] then j else OccurAll(Occur(j, hs[0]), hs[1..])
  }

  function Opened(now: Instant): Journal {
    Journal(Registry(map[], now + PRUNE_INTERVAL), map[], now, true)
  }

  /** One run's window and log. */
  function RunOf(j: Journal, run: RunId): Run {
    Run(WindowOf(j.registry.windows, run), LogOf(j.logs, run))
  }

  /** One run's window after the pruning that an append may begin with. */
  function PrunedWindow(j: Journal, e: Event, run: RunId): Window {
    var w := WindowOf(j.registry.windows, run);
    if e.Append? && j.registry.pruneAfter <= e.now && w.trailingDue.None? && !InWindow(w, e.now) then FRESH else w
  }

  function Pruned(j: Journal, e: Event, run: RunId): Run {
    Run(PrunedWindow(j, e, run), LogOf(j.logs, run))
  }

  lemma ServeOnRun(j: Journal, h: Happening, run: RunId)
    ensures Serve(j.registry, CallOf(h)).1 == React(PrunedWindow(j, h.event, h.run), h.event).1
    ensures WindowOf(Serve(j.registry, CallOf(h)).0.windows, run) ==
            if run == h.run then React(PrunedWindow(j, h.event, run), h.event).0 else PrunedWindow(j, h.event, run)
  {
  }

  /** To each run, a call is a pruning and then, if it is the run's own, an event of its window. */
  lemma OccurOnRun(j: Journal, h: Happening, run: RunId)
    requires CanOccur(j, h)
    ensures RunOf(Occur(j, h), run) ==
            if run == h.run then Happen(Pruned(j, h.event, run), h.event) else Pruned(j, h.event, run)
  {
    ServeOnRun(j, h, run);
  }

  /** Publishes are spaced, and a forgotten last publish is a whole window ago. */
  predicate SpacedSince(r: Run, latest: Instant) {
    var times := r.log.published;
    && Spaced(times)
    && (LastIs(times, r.window.lastPublished)
        || (r.window.lastPublished.None? && times[|times| - 1] + WINDOW <= latest))
  }

  lemma SpacedSinceKept(r: Run, e: Event, latest: Instant)
    requires Covered(r) && CanHappen(r.log, e) && SpacedSince(r, latest) && latest <= e.now
    ensures SpacedSince(Happen(r, e), e.now)
  {
    if Announces(React(r.window, e).1) {
      SpacedOneMore(r.log.published, e.now);
    }
  }

  ghost predicate JournalOk(j: Journal) {
    forall run :: RunInOrder(j, run)
  }

  predicate RunInOrder(j: Journal, run: RunId) {
    Covered(RunOf(j, run)) && (j.ordered ==> SpacedSince(RunOf(j, run), j.latest))
  }

  lemma PruningKeepsOrder(j: Journal, e: Event, run: RunId)
    requires RunInOrder(j, run)
    ensures Covered(Pruned(j, e, run))
    ensures j.ordered && j.latest <= e.now ==> SpacedSince(Pruned(j, e, run), e.now)
  {
  }

  lemma RunStaysInOrder(j: Journal, h: Happening, run: RunId)
    requires CanOccur(j, h) && RunInOrder(j, run)
    ensures RunInOrder(Occur(j, h), run)
  {
    OccurOnRun(j, h, run);
    var t, r := Occur(j, h), Pruned(j, h.event, run);
    PruningKeepsOrder(j, h.event, run);
    if run == h.run {
      CoveredKept(r, h.event);
      if t.ordered {
        SpacedSinceKept(r, h.event, h.event.now);
      }
    }
  }

  lemma JournalOkKept(j: Journal, h: Happening)
    requires JournalOk(j) && CanOccur(j, h)
    ensures JournalOk(Occur(j, h))
  {
    forall run ensures RunInOrder(Occur(j, h), run) {
      assert RunInOrder(j, run);
      RunStaysInOrder(j, h, run);
    }
  }

  lemma OpenedIsOk(now: Instant)
    ensures JournalOk(Opened(now))
  {
    forall run ensures RunInOrder(Opened(now), run) {
      assert RunOf(Opened(now), run) == START;
    }
  }

  lemma {:induction false} JournalStaysOk(j: Journal, hs: seq<Happening>)
    requires JournalOk(j) && CanAllOccur(j, hs)
    ensures JournalOk(OccurAll(j, hs))
    decreases |hs|
  {
    if hs != [] {
      JournalOkKept(j, hs[0]);
      JournalStaysOk(Occur(j, hs[0]), hs[1..]);
    }
  }

  /** One call: the run's publishes only grow, and a pending due time stays until one is added. */
  lemma PendingStep(j: Journal, h: Happening, run: RunId)
    requires JournalOk(j) && CanOccur(j, h)
    ensures RunOf(j, run).log.published <= RunOf(Occur(j, h), run).log.published
    ensures var r, t := RunOf(j, run), RunOf(Occur(j, h), run);
            r.window.trailingDue.Some? && t.log.published == r.log.published ==> t.window == r.window
  {
    OccurOnRun(j, h, run);
    assert RunInOrder(j, run);
  }

  /** As long as a due time is pending, nothing was published since it was set. */
  lemma {:induction false} PendingUntilPublished(j: Journal, hs: seq<Happening>, run: RunId)
    requires JournalOk(j) && CanAllOccur(j, hs)
    ensures RunOf(j, run).log.published <= RunOf(OccurAll(j, hs), run).log.published
    ensures var r, end := RunOf(j, run), RunOf(OccurAll(j, hs), run);
            r.window.trailingDue.Some? && end.log.published == r.log.published ==> end.window == r.window
    decreases |hs|
  {
    if hs != [] {
      var next := Occur(j, hs[0]);
      JournalOkKept(j, hs[0]);
      PendingStep(j, hs[0], run);
      PendingUntilPublished(next, hs[1..], run);
    }
  }

  lemma {:induction false} OccurAllSplits(j: Journal, hs: seq<Happening>, n: nat)
    requires CanAllOccur(j, hs) && n <= |hs|
    ensures CanAllOccur(j, hs[..n]) && CanAllOccur(OccurAll(j, hs[..n]), hs[n..])
    ensures OccurAll(OccurAll(j, hs[..n]), hs[n..]) == OccurAll(j, hs)
    decreases n
  {
    if n == 0 {
      assert hs[0..] == hs;
    } else {
      OccurAllSplits(Occur(j, hs[0]), hs[1..], n - 1);
      assert hs[1..][..n - 1] == hs[..n][1..] && hs[1..][n - 1..] == hs[n..];
    }
  }

  /** The append that comes first is announced by the time all timers of its run have woken. */
  lemma AppendIsKept(j: Journal, hs: seq<Happening>)
    requires JournalOk(j) && hs != [] && hs[0].event.Append? && CanAllOccur(j, hs)
    requires LogOf(OccurAll(j, hs).logs, hs[0].run).timers == multiset{}
    ensures |LogOf(j.logs, hs[0].run).published| < |LogOf(OccurAll(j, hs).logs, hs[0].run).published|
  {
    var run, e := hs[0].run, hs[0].event;
    var after, end := Occur(j, hs[0]), OccurAll(j, hs);
    assert RunInOrder(j, run);
    OccurOnRun(j, hs[0], run);
    AppendIsCovered(Pruned(j, e, run), e.now);
    JournalOkKept(j, hs[0]);
    PendingUntilPublished(after, hs[1..], run);
    JournalStaysOk(after, hs[1..]);
    assert RunInOrder(end, run);
  }

  /**
    No append is lost, for any timestamps and any interleaving of runs: once every timer of its run has woken,
    each append was published at once or is covered by a publish recorded after it.
   */
  lemma NoAppendIsLost(now: Instant, hs: seq<Happening>, i: nat)
    requires CanAllOccur(Opened(now), hs) && i < |hs| && hs[i].event.Append?
    requires LogOf(OccurAll(Opened(now), hs).logs, hs[i].run).timers == multiset{}
    ensures CanAllOccur(Opened(now), hs[..i])
    ensures |LogOf(OccurAll(Opened(now), hs[..i]).logs, hs[i].run).published|
            < |LogOf(OccurAll(Opened(now), hs).logs, hs[i].run).published|
  {
    var run, j := hs[i].run, Opened(now);
    OpenedIsOk(now);
    OccurAllSplits(j, hs, i);
    var before := OccurAll(j, hs[..i]);
    JournalStaysOk(j, hs[..i]);
    AppendIsKept(before, hs[i..]);
  }

  /** What an append means to its run, and that it means nothing to the others. */
  ghost predicate AppendServed(j: Journal, t: Journal, run: RunId, now: Instant, action: Action) {
    && run in t.registry.windows
    && LogOf(t.logs, run).published ==
       (if action.Publish? then LogOf(j.logs, run).published + [now] else LogOf(j.logs, run).published)
    && (!action.Publish? ==>
          var due := t.registry.windows[run].trailingDue;
          due.Some? && due.value in LogOf(t.logs, run).timers && now < due.value)
    && (forall other :: other != run ==> LogOf(t.logs, other) == LogOf(j.logs, other))
  }

  lemma AppendInJournal(j: Journal, run: RunId, now: Instant)
    requires Covered(RunOf(j, run))
    ensures AppendServed(j, Occur(j, Happening(run, Append(now))), run, now, AppendIn(j.registry, run, now).1)
  {
    var h := Happening(run, Append(now));
    ServeOnRun(j, h, run);
    OccurOnRun(j, h, run);
    AppendIsCovered(Pruned(j, Append(now), run), now);
    var t := Occur(j, h);
    assert RunOf(t, run) == Run(t.registry.windows[run], LogOf(t.logs, run));
  }

  /** What a woken timer means to its run, and that it means nothing to the others. */
  ghost predicate WakeServed(j: Journal, t: Journal, run: RunId, due: Instant, now: Instant, publishes: bool) {
    var before, after := RunOf(j, run), RunOf(t, run);
    && (before.window.trailingDue == Some(due) ==> publishes)
    && (if publishes then after.log.published == before.log.published + [now] && after.window.trailingDue.None?
        else after.log.published == before.log.published && t.registry == j.registry)
    && (forall other :: other != run ==> RunOf(t, other) == RunOf(j, other))
  }

  lemma WakeInJournal(j: Journal, run: RunId, due: Instant, now: Instant)
    requires RunInOrder(j, run) && CanOccur(j, Happening(run, TimerWakes(due, now)))
    ensures WakeServed(j, Occur(j, Happening(run, TimerWakes(due, now))), run, due, now, WakeIn(j.registry, run, now).1)
  {
    var h := Happening(run, TimerWakes(due, now));
    ServeOnRun(j, h, run);
    OccurOnRun(j, h, run);
    WakingAnnounces(RunOf(j, run), due, now);
    var t := Occur(j, h);
    forall other | other != run ensures RunOf(t, other) == RunOf(j, other) {
      OccurOnRun(j, h, other);
    }
    if !WakeIn(j.registry, run, now).1 {
      assert t.registry.windows == j.registry.windows;
    }
  }

  /**
    The registry as the source updates it, in place. `Valid()` carries, for every run, that a pending due time
    has a timer and, as long as timestamps come in order, that publishes are spaced.
   */
  class LogNotifyRegistry {
    var windows: map<RunId, Window>
    var pruneAfter: Instant
    ghost var logs: map<RunId, Log>
    ghost var latest: Instant
    ghost var ordered: bool

    ghost function History(): Journal
      reads this
    {
      Journal(Registry(windows, pruneAfter), logs, latest, ordered)
    }

    ghost predicate Valid()
      reads this
    {
      JournalOk(History())
    }

    constructor (now: Instant)
      ensures Valid() && History() == Opened(now)
    {
      windows, pruneAfter := map[], now + PRUNE_INTERVAL;
      logs, latest, ordered := map[], now, true;
      OpenedIsOk(now);
    }

    /** The assignments of an append. */
    method UpdateOnAppend(run: RunId, now: Instant) returns (action: Action)
      modifies this`windows, this`pruneAfter
      ensures (Registry(windows, pruneAfter), action) == AppendIn(Registry(old(windows), old(pruneAfter)), run, now)
    {
      if now >= pruneAfter {
        windows := map r | r in windows && (windows[r].trailingDue.Some? || InWindow(windows[r], now)) :: windows[r];
        pruneAfter := now + PRUNE_INTERVAL;
      }
      ghost var pruned := windows;
      if run !in windows {
        windows := windows[run := FRESH];
      }
      var (window, result) := AppendTo(windows[run], now);
      windows := windows[run := window];
      assert windows == pruned[run := window];
      action := result;
    }

    /** The assignments of a timer's deadline. */
    method UpdateOnDeadline(run: RunId, now: Instant) returns (publishes: bool)
      modifies this`windows
      ensures (Registry(windows, pruneAfter), publishes) == WakeIn(Registry(old(windows), pruneAfter), run, now)
      ensures !publishes ==> windows == old(windows)
    {
      publishes := false;
      if run in windows {
        var (window, result) := WakeUp(windows[run], now);
        windows := windows[run := window];
        publishes := result;
      }
    }

    /** The run's append is published now, or a timer is set that will; other runs' logs are untouched. */
    method OnLogAppend(run: RunId, now: Instant) returns (action: Action)
      requires Valid()
      modifies this
      ensures Valid() && History() == Occur(old(History()), Happening(run, Append(now)))
      ensures AppendServed(old(History()), History(), run, now, action)
    {
      ghost var after := Occur(History(), Happening(run, Append(now)));
      JournalOkKept(History(), Happening(run, Append(now)));
      assert RunInOrder(History(), run);
      AppendInJournal(History(), run, now);
      action := UpdateOnAppend(run, now);
      logs, ordered, latest := after.logs, after.ordered, after.latest;
    }

    /** The run's timer set for `due` wakes: it publishes if that due time is still pending. */
    method OnLogDeadline(run: RunId, now: Instant, ghost due: Instant) returns (publishes: bool)
      requires Valid() && due in LogOf(logs, run).timers && due <= now
      modifies this
      ensures Valid() && History() == Occur(old(History()), Happening(run, TimerWakes(due, now)))
      ensures WakeServed(old(History()), History(), run, due, now, publishes)
    {
      ghost var after := Occur(History(), Happening(run, TimerWakes(due, now)));
      JournalOkKept(History(), Happening(run, TimerWakes(due, now)));
      assert RunInOrder(History(), run);
      WakeInJournal(History(), run, due, now);
      publishes := UpdateOnDeadline(run, now);
      logs, ordered, latest := after.logs, after.ordered, after.latest;
    }
  }

  // ----- Pruning

  function Answers(r: Registry, calls: seq<Call>): (answers: seq<Answer>)
    ensures |answers| == |calls|
    decreases |calls|
  {
    if calls == [] then []
    else var (next, answer) := Serve(r, calls[0]); [answer] + Answers(next, calls[1..])
  }

  /** Pruning is rare: nothing is dropped before its time, and then not for another 30 seconds. */
  lemma PruningIsRare(r: Registry, run: RunId, now: Instant)
    ensures var next := AppendIn(r, run, now).0;
            && next.pruneAfter == (if now < r.pruneAfter then r.pruneAfter else now + 30_000)
            && (now < r.pruneAfter ==> r.windows.Keys <= next.windows.Keys)
  {
  }

  /** The registry that never drops a window. */
  function Remember(windows: map<RunId, Window>, call: Call): (map<RunId, Window>, Answer) {
    match call
    case LogAppend(run, now) =>
      var (window, action) := AppendTo(WindowOf(windows, run), now);
      (windows[run := window], Appended(action))
    case LogDeadline(run, now) =>
      var (window, published) := WakeUp(WindowOf(windows, run), now);
      (windows[run := window], Woke(published))
  }

  function RememberedAnswers(windows: map<RunId, Window>, calls: seq<Call>): (answers: seq<Answer>)
    ensures |answers| == |calls|
    decreases |calls|
  {
    if calls == [] then []
    else var (next, answer) := Remember(windows, calls[0]); [answer] + RememberedAnswers(next, calls[1..])
  }

  predicate Nondecreasing(from: Instant, calls: seq<Call>)
    decreases |calls|
  {
    calls == [] || (from <= calls[0].now && Nondecreasing(calls[0].now, calls[1..]))
  }

  /** From `now` on the two windows answer alike. */
  predicate Alike(now: Instant, kept: Window, remembered: Window) {
    || kept == remembered
    || (kept == FRESH && remembered.trailingDue.None? && !InWindow(remembered, now))
  }

  ghost predicate AllAlike(now: Instant, kept: map<RunId, Window>, remembered: map<RunId, Window>) {
    forall run :: Alike(now, WindowOf(kept, run), WindowOf(remembered, run))
  }

  lemma ServeAlike(r: Registry, windows: map<RunId, Window>, from: Instant, call: Call)
    requires AllAlike(from, r.windows, windows) && from <= call.now
    ensures Serve(r, call).1 == Remember(windows, call).1
    ensures AllAlike(call.now, Serve(r, call).0.windows, Remember(windows, call).0)
  {
    forall run
      ensures Alike(call.now, WindowOf(Serve(r, call).0.windows, run), WindowOf(Remember(windows, call).0, run))
    {
      assert Alike(from, WindowOf(r.windows, run), WindowOf(windows, run));
      assert Alike(from, WindowOf(r.windows, call.run), WindowOf(windows, call.run));
    }
    assert Alike(from, WindowOf(r.windows, call.run), WindowOf(windows, call.run));
  }

  lemma {:induction false} AnswersAlike(r: Registry, windows: map<RunId, Window>, from: Instant, calls: seq<Call>)
    requires AllAlike(from, r.windows, windows) && Nondecreasing(from, calls)
    ensures Answers(r, calls) == RememberedAnswers(windows, calls)
    decreases |calls|
  {
    if calls != [] {
      ServeAlike(r, windows, from, calls[0]);
      AnswersAlike(Serve(r, calls[0]).0, Remember(windows, calls[0]).0, calls[0].now, calls[1..]);
    }
  }

  /** Pruning is invisible: for nondecreasing timestamps every answer is the never-pruning one. */
  lemma PruningIsInvisible(pruneAfter: Instant, calls: seq<Call>)
    requires Nondecreasing(0, calls)
    ensures Answers(Registry(map[], pruneAfter), calls) == RememberedAnswers(map[], calls)
  {
    AnswersAlike(Registry(map[], pruneAfter), map[], 0, calls);
  }

  function RememberAll(windows: map<RunId, Window>, calls: seq<Call>): map<RunId, Window>
    decreases |calls|
  {
    if calls == [] then windows else RememberAll(Remember(windows, calls[0]).0, calls[1..])
  }

  /** One window served with the calls of its run alone. */
  function WindowAfter(w: Window, run: RunId, calls: seq<Call>): Window
    decreases |calls|
  {
    if calls == [] then w
    else
      var call := calls[0];
      var next := if call.run != run then w
        else if call.LogAppend? then AppendTo(w, call.now).0
        else WakeUp(w, call.now).0;
      WindowAfter(next, run, calls[1..])
  }

  /** Windows are per run: what happens to one run's window is decided by that run's calls. */
  lemma {:induction false} WindowsAreIndependent(windows: map<RunId, Window>, run: RunId, calls: seq<Call>)
    ensures WindowOf(RememberAll(windows, calls), run) == WindowAfter(WindowOf(windows, run), run, calls)
    decreases |calls|
  {
    if calls != [] {
      WindowsAreIndependent(Remember(windows, calls[0]).0, run, calls[1..]);
    }
  }

  /** The append finds its window pruned away although the last publish is less than a window before it. */
  predicate Forgets(r: Registry, windows: map<RunId, Window>, call: Call) {
    && call.LogAppend? && call.run !in Prune(r, call.now).windows
    && InWindow(WindowOf(windows, call.run), call.now)
  }

  predicate NeverForgets(r: Registry, windows: map<RunId, Window>, calls: seq<Call>)
    decreases |calls|
  {
    calls == []
    || (&& !Forgets(r, windows, calls[0])
        && NeverForgets(Serve(r, calls[0]).0, Remember(windows, calls[0]).0, calls[1..]))
  }

  /** The kept windows are the remembered ones, and nothing is pending in a dropped one. */
  ghost predicate Tracks(kept: map<RunId, Window>, remembered: map<RunId, Window>) {
    forall run ::
      if run in kept then WindowOf(remembered, run) == kept[run] else WindowOf(remembered, run).trailingDue.None?
  }

  lemma ServeTracks(r: Registry, windows: map<RunId, Window>, call: Call)
    requires Tracks(r.windows, windows)
    ensures Serve(r, call).1 == Remember(windows, call).1 <==> !Forgets(r, windows, call)
    ensures !Forgets(r, windows, call) ==> Tracks(Serve(r, call).0.windows, Remember(windows, call).0)
  {
  }

  /** Pruning shows exactly when an append finds its window pruned away too early, whatever the timestamps. */
  lemma {:induction false} PruningShowsIff(r: Registry, windows: map<RunId, Window>, calls: seq<Call>)
    requires Tracks(r.windows, windows)
    ensures Answers(r, calls) == RememberedAnswers(windows, calls) <==> NeverForgets(r, windows, calls)
    decreases |calls|
  {
    if calls != [] {
      ServeTracks(r, windows, calls[0]);
      var here, there := Answers(r, calls), RememberedAnswers(windows, calls);
      assert here[0] == Serve(r, calls[0]).1 && there[0] == Remember(windows, calls[0]).1;
      if !Forgets(r, windows, calls[0]) {
        PruningShowsIff(Serve(r, calls[0]).0, Remember(windows, calls[0]).0, calls[1..]);
        assert here[1..] == Answers(Serve(r, calls[0]).0, calls[1..]);
        assert there[1..] == RememberedAnswers(Remember(windows, calls[0]).0, calls[1..]);
      }
    }
  }

  function CallsOf(hs: seq<Happening>): (calls: seq<Call>)
    ensures |calls| == |hs|
    ensures forall i :: 0 <= i < |hs| ==> calls[i] == CallOf(hs[i])
  {
    seq(|hs|, i requires 0 <= i < |hs| => CallOf(hs[i]))
  }

  ghost predicate AllSpaced(j: Journal) {
    forall run :: Spaced(LogOf(j.logs, run).published)
  }

  /** The remembered window of each run, with the run's log, is one that never was pruned. */
  ghost predicate RemembersAll(j: Journal, windows: map<RunId, Window>) {
    Tracks(j.registry.windows, windows) && forall run :: RunOk(Run(WindowOf(windows, run), LogOf(j.logs, run)))
  }

  lemma {:induction false} PublishesGrow(j: Journal, hs: seq<Happening>, run: RunId)
    requires CanAllOccur(j, hs)
    ensures LogOf(j.logs, run).published <= LogOf(OccurAll(j, hs).logs, run).published
    decreases |hs|
  {
    if hs != [] {
      PublishesGrow(Occur(j, hs[0]), hs[1..], run);
    }
  }

  /** A forgotten window publishes too early, and what was published stays. */
  lemma ForgettingShows(j: Journal, windows: map<RunId, Window>, hs: seq<Happening>)
    requires hs != [] && CanAllOccur(j, hs) && RemembersAll(j, windows) && Forgets(j.registry, windows, CallOf(hs[0]))
    ensures !AllSpaced(OccurAll(j, hs))
  {
    var run, next := hs[0].run, Occur(j, hs[0]);
    var before := LogOf(j.logs, run).published;
    assert RunOk(Run(WindowOf(windows, run), LogOf(j.logs, run)));
    assert LogOf(next.logs, run).published == before + [hs[0].event.now];
    PublishesGrow(next, hs[1..], run);
    var after := LogOf(OccurAll(j, hs).logs, run).published;
    assert after[|before| - 1] == before[|before| - 1] && after[|before|] == hs[0].event.now;
    assert !Spaced(after);
  }

  lemma RememberOnRun(windows: map<RunId, Window>, h: Happening, run: RunId)
    ensures Remember(windows, CallOf(h)).1 == React(WindowOf(windows, h.run), h.event).1
    ensures WindowOf(Remember(windows, CallOf(h)).0, run) ==
            if run == h.run then React(WindowOf(windows, run), h.event).0 else WindowOf(windows, run)
  {
  }

  lemma RemembersKept(j: Journal, windows: map<RunId, Window>, h: Happening)
    requires CanOccur(j, h) && RemembersAll(j, windows) && !Forgets(j.registry, windows, CallOf(h))
    ensures RemembersAll(Occur(j, h), Remember(windows, CallOf(h)).0)
  {
    ServeTracks(j.registry, windows, CallOf(h));
    var t, remembered := Occur(j, h), Remember(windows, CallOf(h)).0;
    forall run ensures RunOk(Run(WindowOf(remembered, run), LogOf(t.logs, run))) {
      var r := Run(WindowOf(windows, run), LogOf(j.logs, run));
      assert RunOk(r);
      RememberOnRun(windows, h, run);
      if run == h.run {
        RunOkKept(r, h.event);
      }
    }
  }

  lemma {:induction false} SpacedWhileRemembered(j: Journal, windows: map<RunId, Window>, hs: seq<Happening>)
    requires CanAllOccur(j, hs) && RemembersAll(j, windows)
    ensures AllSpaced(OccurAll(j, hs)) <==> NeverForgets(j.registry, windows, CallsOf(hs))
    decreases |hs|
  {
    if hs == [] {
      forall run ensures Spaced(LogOf(j.logs, run).published) {
        assert RunOk(Run(WindowOf(windows, run), LogOf(j.logs, run)));
      }
    } else {
      assert CallsOf(hs)[1..] == CallsOf(hs[1..]);
      if Forgets(j.registry, windows, CallOf(hs[0])) {
        ForgettingShows(j, windows, hs);
      } else {
        RemembersKept(j, windows, hs[0]);
        SpacedWhileRemembered(Occur(j, hs[0]), Remember(windows, CallOf(hs[0])).0, hs[1..]);
      }
    }
  }

  /** The publishes of all runs are a window apart exactly when no append finds its window pruned away too early. */
  lemma RegistrySpacesIff(now: Instant, hs: seq<Happening>)
    requires CanAllOccur(Opened(now), hs)
    ensures AllSpaced(OccurAll(Opened(now), hs)) <==> NeverForgets(Opened(now).registry, map[], CallsOf(hs))
  {
    SpacedWhileRemembered(Opened(now), map[], hs);
  }

  lemma {:induction false} OrderedCallsAscend(j: Journal, hs: seq<Happening>)
    requires CanAllOccur(j, hs)
    ensures OccurAll(j, hs).ordered ==> j.ordered && Nondecreasing(j.latest, CallsOf(hs))
    decreases |hs|
  {
    if hs != [] {
      OrderedCallsAscend(Occur(j, hs[0]), hs[1..]);
      assert CallsOf(hs)[1..] == CallsOf(hs[1..]);
    }
  }

  /** In timestamp order none does, so they are. */
  lemma RegistrySpacesInOrder(now: Instant, hs: seq<Happening>)
    requires CanAllOccur(Opened(now), hs) && OccurAll(Opened(now), hs).ordered
    ensures AllSpaced(OccurAll(Opened(now), hs))
  {
    OrderedCallsAscend(Opened(now), hs);
    AnswersAlike(Opened(now).registry, map[], now, CallsOf(hs));
    PruningShowsIff(Opened(now).registry, map[], CallsOf(hs));
    RegistrySpacesIff(now, hs);
  }

  lemma {:induction false} AppendsCanOccur(j: Journal, hs: seq<Happening>)
    requires forall i :: 0 <= i < |hs| ==> hs[i].event.Append?
    ensures CanAllOccur(j, hs)
    decreases |hs|
  {
    if hs != [] {
      AppendsCanOccur(Occur(j, hs[0]), hs[1..]);
    }
  }

  /** Out of order it can be: a run publishes at 0 and, pruned by another run's append, again at 100. */
  lemma PublishesTooEarlyOutOfOrder()
    ensures var hs := [Happening("a", Append(0)), Happening("b", Append(PRUNE_INTERVAL)), Happening("a", Append(100))];
            CanAllOccur(Opened(0), hs) && !AllSpaced(OccurAll(Opened(0), hs))
  {
    var hs := [Happening("a", Append(0)), Happening("b", Append(PRUNE_INTERVAL)), Happening("a", Append(100))];
    AppendsCanOccur(Opened(0), hs);
    PruningShowsOutOfOrder();
    PruningShowsIff(Opened(0).registry, map[], CallsOf(hs));
    assert CallsOf(hs) == [LogAppend("a", 0), LogAppend("b", PRUNE_INTERVAL), LogAppend("a", 100)];
    RegistrySpacesIff(0, hs);
  }

  /** With an older timestamp it shows: the pruned run publishes again within its window. */
  lemma PruningShowsOutOfOrder()
    ensures var calls := [LogAppend("a", 0), LogAppend("b", PRUNE_INTERVAL), LogAppend("a", 100)];
            Answers(Registry(map[], PRUNE_INTERVAL), calls) != RememberedAnswers(map[], calls)
  {
    var calls := [LogAppend("a", 0), LogAppend("b", PRUNE_INTERVAL), LogAppend("a", 100)];
    var r := Registry(map[], PRUNE_INTERVAL);
    var r1 := Serve(r, calls[0]).0;
    assert r1.windows == map["a" := Window(Some(0), None)];
    var r2 := Serve(r1, calls[1]).0;
    assert "a" !in r2.windows;
    assert Serve(r2, calls[2]).1 == Appended(Publish);
    assert Answers(r, calls)[2] == Appended(Publish) by {
      assert calls[1..][1..][0] == calls[2];
      assert Answers(r2, calls[1..][1..])[0] == Appended(Publish);
    }
    var w1 := Remember(map[], calls[0]).0;
    var w2 := Remember(w1, calls[1]).0;
    assert w2["a"] == Window(Some(0), None);
    assert Remember(w2, calls[2]).1 == Appended(Schedule(150));
    assert RememberedAnswers(map[], calls)[2] == Appended(Schedule(150)) by {
      assert calls[1..][1..][0] == calls[2];
      assert RememberedAnswers(w2, calls[1..][1..])[0] == Appended(Schedule(150));
    }
  }
}
