/**
 * Whether a pending change can be left in none of the sets that are scanned. schedulePostCounterFlush cleans up after
 * a read that found no dirty_at time, in three more commands; changes, outbox rows, the wake-ups these lead to, claims
 * and any number of such clean-ups interleave.
 */
module CounterWakeup {
  import opened CounterRedis
  import opened CounterPipeline
  import opened CounterTiming

  /** The keys, and how many outbox rows and Kafka messages of one post are not handled yet. */
  datatype Window = Window(redis: Redis, rows: nat)

  datatype Event =
    | Arrive(delta: int, now: int, noted: bool)        // the enqueue script, and the row if the post was clean
    | Take(now: int, id: int)                          // the claim script takes the delta
    | DropDirty | DropSince | DropSchedule             // SREM, ZREM, ZREM of some cleaner
    | Wake(at: int, again: bool)                       // a message is handled: ZADD; it may be delivered again
    | WakeOver                                         // a message is handled without it, or not at all
    | Rescan(at: int)                                  // ZADD by the fallback scan or the flusher
    | FixSince(at: int)

  predicate Allowed(w: Window, post: int, e: Event) {
    match e
    case Take(now, _) => ClaimReplyFor(w.redis, post, now).Claimed?
    case Wake(_, _) => w.rows > 0
    case WakeOver => w.rows > 0
    case _ => true
  }

  function Step(w: Window, post: int, e: Event): Window
    requires Allowed(w, post, e)
  {
    match e
    case Arrive(delta, now, noted) =>
      Window(Enqueue(w.redis, post, delta, now), w.rows + if noted && post !in w.redis.dirty then 1 else 0)
    case Take(now, id) => w.(redis := Claim(w.redis, post, now, id))
    case DropDirty => w.(redis := RunTidy(w.redis, SRemDirty(post)))
    case DropSince => w.(redis := RunTidy(w.redis, ZRemSince(post)))
    case DropSchedule => w.(redis := RunTidy(w.redis, ZRemSchedule(post)))
    case Wake(at, again) => Window(RunTidy(w.redis, ZAddSchedule(post, at)), if again then w.rows else w.rows - 1)
    case WakeOver => w.(rows := w.rows - 1)
    case Rescan(at) => w.(redis := RunTidy(w.redis, ZAddSchedule(post, at)))
    case FixSince(at) => w.(redis := RunTidy(w.redis, ZAddSince(post, at)))
  }

  ghost predicate ValidWindow(w: Window, post: int, events: seq<Event>)
    decreases |events|, 0
  {
    events == [] ||
    (ValidWindow(w, post, events[..|events| - 1])
     && Allowed(Through(w, post, events[..|events| - 1]), post, events[|events| - 1]))
  }

  ghost function Through(w: Window, post: int, events: seq<Event>): Window
    requires ValidWindow(w, post, events)
    decreases |events|, 1
  {
    if events == [] then w else Step(Through(w, post, events[..|events| - 1]), post, events[|events| - 1])
  }

  // ---------------------------------------------------------------------------------------------
  // What the history says

  /** Of the changes and the claims, the last is a change. */
  predicate ChangedLast(events: seq<Event>) {
    events != [] &&
    var e := events[|events| - 1];
    e.Arrive? || (!e.Take? && ChangedLast(events[..|events| - 1]))
  }

  /** Of the changes, the claims and the SREMs, the last is a change. */
  predicate DirtiedLast(events: seq<Event>) {
    events != [] &&
    var e := events[|events| - 1];
    e.Arrive? || (!e.Take? && !e.DropDirty? && DirtiedLast(events[..|events| - 1]))
  }

  /** Of the ZADDs, the claims and the ZREMs on the schedule, the last is a ZADD; `before` is where it starts. */
  predicate AddedLast(events: seq<Event>, before: bool) {
    if events == [] then before
    else
      var e := events[|events| - 1];
      e.Wake? || e.Rescan? || (!e.Take? && !e.DropSchedule? && AddedLast(events[..|events| - 1], before))
  }

  /** The changes that found the post clean and left an outbox row. */
  function Noted(events: seq<Event>): nat {
    if events == [] then 0
    else
      var init, e := events[..|events| - 1], events[|events| - 1];
      Noted(init) + if e.Arrive? && e.noted && !DirtiedLast(init) then 1 else 0
  }

  /** The messages that are over for good. */
  function Handled(events: seq<Event>): nat {
    if events == [] then 0
    else
      var e := events[|events| - 1];
      Handled(events[..|events| - 1]) + if e.WakeOver? || (e.Wake? && !e.again) then 1 else 0
  }

  /** A pending delta that no set points to, and no message will. */
  predicate Stranded(w: Window, post: int) {
    post in w.redis.delta && post !in w.redis.dirty && post !in w.redis.schedule && w.rows == 0
  }

  ghost predicate Tells(start: Window, w: Window, post: int, events: seq<Event>) {
    && (post in w.redis.delta <==> ChangedLast(events))
    && (post in w.redis.dirty <==> DirtiedLast(events))
    && (post in w.redis.schedule <==> AddedLast(events, post in start.redis.schedule))
    && w.rows == start.rows + Noted(events) - Handled(events)
  }

  lemma StepTells(start: Window, w: Window, post: int, init: seq<Event>, e: Event)
    requires Tells(start, w, post, init) && Allowed(w, post, e)
    ensures Tells(start, Step(w, post, e), post, init + [e])
  {
    assert (init + [e])[..|init|] == init;
  }

  lemma {:induction false} WindowTells(start: Window, post: int, events: seq<Event>)
    requires PendingIsDirty(start.redis) && post !in start.redis.dirtyAt && ValidWindow(start, post, events)
    ensures Tells(start, Through(start, post, events), post, events)
    decreases |events|
  {
    if events != [] {
      var init, e := events[..|events| - 1], events[|events| - 1];
      WindowTells(start, post, init);
      StepTells(start, Through(start, post, init), post, init, e);
      assert init + [e] == events;
    }
  }

  /**
   * From a clean post on, over every interleaving: a change is stranded exactly if it is not claimed yet, some SREM
   * and no change came after it, every message there was to be is over, and no ZADD ran after the last ZREM.
   */
  lemma StrandedIff(start: Window, post: int, events: seq<Event>)
    requires PendingIsDirty(start.redis) && post !in start.redis.dirtyAt && ValidWindow(start, post, events)
    ensures Stranded(Through(start, post, events), post)
      <==> && ChangedLast(events) && !DirtiedLast(events)
           && !AddedLast(events, post in start.redis.schedule)
           && start.rows + Noted(events) == Handled(events)
  {
    WindowTells(start, post, events);
  }

  // ---------------------------------------------------------------------------------------------
  // Both outcomes

  /** Appending events, one by one. */
  ghost predicate Follows(w: Window, post: int, events: seq<Event>, v: Window) {
    ValidWindow(w, post, events) && Through(w, post, events) == v
  }

  lemma OneFollows(w: Window, post: int, events: seq<Event>, v: Window, e: Event)
    requires Follows(w, post, events, v) && Allowed(v, post, e)
    ensures Follows(w, post, events + [e], Step(v, post, e))
  {
    assert (events + [e])[..|events|] == events;
  }

  /** The window after a change whose row is written, or not, and the SREM of a cleaner. */
  lemma ChangeAndDrop(r: Redis, post: int, delta: int, now: int, noted: bool) returns (events: seq<Event>, v: Window)
    requires PendingIsDirty(r) && post !in r.dirtyAt
    ensures Follows(Window(r, 0), post, events, v) && |events| == 2 && events[0] == Arrive(delta, now, noted)
    ensures v.rows == (if noted then 1 else 0) && post in v.redis.delta && post !in v.redis.dirty
  {
    var w := Window(r, 0);
    events, v := [Arrive(delta, now, noted)], Step(w, post, Arrive(delta, now, noted));
    assert [] + events == events;
    OneFollows(w, post, [], w, Arrive(delta, now, noted));
    OneFollows(w, post, events, v, DropDirty);
    events, v := events + [DropDirty], Step(v, post, DropDirty);
  }

  /** The rest of the clean-up. */
  lemma TwoDrops(w: Window, post: int, before: seq<Event>, v: Window) returns (events: seq<Event>, u: Window)
    requires Follows(w, post, before, v)
    ensures Follows(w, post, events, u) && before <= events
    ensures u.rows == v.rows && u.redis.delta == v.redis.delta && u.redis.dirty == v.redis.dirty
    ensures post !in u.redis.schedule
  {
    OneFollows(w, post, before, v, DropSince);
    events, u := before + [DropSince], Step(v, post, DropSince);
    OneFollows(w, post, events, u, DropSchedule);
    events, u := events + [DropSchedule], Step(u, post, DropSchedule);
  }

  /** A window that starts with the given change. */
  ghost predicate Ends(r: Redis, post: int, events: seq<Event>, first: Event, stranded: bool) {
    && ValidWindow(Window(r, 0), post, events) && events != [] && events[0] == first
    && (Stranded(Through(Window(r, 0), post, events), post) <==> stranded)
  }

  /** It does happen: the outbox insert fails, or the wake-up is over before the last ZREM. */
  lemma EarlyWakeStrands(r: Redis, post: int, delta: int, now: int, noted: bool, at: int)
    requires PendingIsDirty(r) && post !in r.dirtyAt
    ensures exists events :: Ends(r, post, events, Arrive(delta, now, noted), true)
  {
    var events, v := ChangeAndDrop(r, post, delta, now, noted);
    if noted {
      OneFollows(Window(r, 0), post, events, v, Wake(at, false));
      events, v := events + [Wake(at, false)], Step(v, post, Wake(at, false));
    }
    var all, u := TwoDrops(Window(r, 0), post, events, v);
    assert Ends(r, post, all, Arrive(delta, now, noted), true);
  }

  /** A wake-up that is handled after the clean-up puts the post back. */
  lemma LateWakeRescues(r: Redis, post: int, delta: int, now: int, at: int)
    requires PendingIsDirty(r) && post !in r.dirtyAt
    ensures exists events :: Ends(r, post, events, Arrive(delta, now, true), false) && Handled(events) > 0
  {
    var events, v := ChangeAndDrop(r, post, delta, now, true);
    var all, u := TwoDrops(Window(r, 0), post, events, v);
    OneFollows(Window(r, 0), post, all, u, Wake(at, false));
    var last := all + [Wake(at, false)];
    assert last[|last| - 1] == Wake(at, false);
    assert Ends(r, post, last, Arrive(delta, now, true), false) && Handled(last) > 0;
  }
}
