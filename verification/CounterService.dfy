/** The request side of one counter kind: recording a delta, and displaying a count with what Redis still holds. */
module CounterService {
  import opened Tally
  import opened CounterRedis
  import opened CounterDb
  import opened CounterPipeline
  import opened CounterLedger
  import opened CounterOrder
  import opened CounterTask

  const MAX_INT32 := 0x7fff_ffff

  /** The conversion to int32 keeps the low 32 bits. */
  function ToInt32(n: int): int {
    var low := n % 0x1_0000_0000;
    if low > MAX_INT32 then low - 0x1_0000_0000 else low
  }

  function Displayed(count: int, delta: int): int {
    ToInt32(Max(count + delta, 0))
  }

  /** pending + processing_sum, from the two hashes. */
  function Underway(r: Redis, post: int): int {
    At(r.delta, post) + At(r.processingSum, post)
  }

  /** What the delta of a comment leaves behind: an enqueue, or else a direct upsert, or else nothing. */
  function Recorded(v: Stores, post: int, delta: int, now: int, reachable: bool, dbWorks: bool): Stores {
    if delta == 0 then v
    else if reachable then v.(redis := Enqueue(v.redis, post, delta, now))
    else if dbWorks then v.(db := v.db.(counter := Upsert(v.db.counter, post, delta)))
    else v
  }

  class Post {
    const id: int
    var count: int

    constructor (id: int, count: int)
      ensures this.id == id && this.count == count
    {
      this.id, this.count := id, count;
    }
  }

  class Data {
    const redis: Store
    const db: Tables

    constructor (redis: Store, db: Tables)
      ensures this.redis == redis && this.db == db
    {
      this.redis, this.db := redis, db;
    }

    function View(): Stores
      reads redis, db
    {
      Stores(redis.View(), db.View())
    }

    /** `newly` asks the caller for an outbox row: the post was not dirty before. */
    method EnqueueLikeDelta(post: int, delta: int, now: int, reachable: bool) returns (ok: bool, newly: bool)
      modifies redis
      ensures View() == Recorded(old(View()), post, delta, now, reachable, false)
      ensures ok == (reachable || delta == 0)
      ensures newly == (reachable && delta != 0 && post !in old(redis.dirty))
    {
      ok, newly := true, false;
      if delta == 0 {
        return;
      }
      if !reachable {
        return false, false;
      }
      newly := redis.EnqueueDelta(post, delta, now);
    }

    /** A comment falls back to the database. */
    method RecordCommentDelta(post: int, delta: int, now: int, reachable: bool, dbWorks: bool) returns (newly: bool)
      modifies redis, db
      ensures View() == Recorded(old(View()), post, delta, now, reachable, dbWorks)
      ensures newly == (reachable && delta != 0 && post !in old(redis.dirty))
    {
      newly := false;
      if delta == 0 {
        return;
      }
      if reachable {
        newly := redis.EnqueueDelta(post, delta, now);
      } else if dbWorks {
        db.counter := Upsert(db.counter, post, delta);
      }
    }

    /** The like count is overwritten only when something is outside the counter, the comment count always. */
    method ApplyPending(post: Post, always: bool)
      modifies post
      ensures var delta := old(Underway(redis.View(), post.id));
        post.count == if delta == 0 && !always then old(post.count) else Displayed(old(post.count), delta)
    {
      var delta := At(redis.delta, post.id) + At(redis.processingSum, post.id);
      if delta == 0 && !always {
        return;
      }
      var value := post.count + delta;
      if value < 0 {
        value := 0;
      }
      post.count := ToInt32(value);
    }
  }

  /** Recording a change in flight is a step of the pipeline, however it goes. */
  lemma RecordIsStep(s: State, request: int, now: int, reachable: bool, dbWorks: bool)
    requires request in s.facts.inflight && s.facts.inflight[request].delta != 0
    ensures var c := s.facts.inflight[request];
      var step := if reachable then Emit(request, now) else if dbWorks then Direct(request) else Lose(request);
      && Enabled(s, step)
      && StoresOf(Next(s, step)) == Recorded(StoresOf(s), c.post, c.delta, now, reachable, dbWorks)
      && request !in Next(s, step).facts.inflight
  {
  }

  /** The display never shows less than zero, and is exact as long as it fits. */
  lemma DisplayedMeans(count: int, delta: int)
    ensures 0 <= count + delta <= 0x7fff_ffff ==> Displayed(count, delta) == count + delta
    ensures count + delta < 0 ==> Displayed(count, delta) == 0
  {
  }

  /** Beyond that it wraps around. */
  lemma ToInt32Means(n: int)
    ensures -0x8000_0000 <= ToInt32(n) < 0x8000_0000 && (n - ToInt32(n)) % 0x1_0000_0000 == 0
  {
  }

  /**
   * What a reader sees in an ordered run, whatever batches are on their way: the active rows, except those whose
   * deltas are in flight, plus the deltas that are already applied and not yet cleared, and never below zero.
   */
  lemma DisplayIsExact(s: State, steps: seq<Step>, post: int)
    requires Settled(s) && OrderedRun(Begin(s), steps)
    ensures Valid(s, steps)
    ensures var t := Run(s, steps);
      var seen := FactCount(t.facts, post) - InFlight(t, post) + Uncleared(t, post);
      && (0 <= seen <= MAX_INT32 ==> Displayed(Counter(t, post), Underway(t.redis, post)) == seen)
      && (seen < 0 ==> Displayed(Counter(t, post), Underway(t.redis, post)) == 0)
  {
    OrderedCounterIsExact(s, steps, post);
    var t := Run(s, steps);
    SnapshotExcess(t, post);
    DisplayedMeans(Counter(t, post), Underway(t.redis, post));
  }

  // ---------------------------------------------------------------------------------------------
  // Two reads for one display

  /**
   * The pending hash is read in one state and the processing hash in a later one. Against the later state the sum
   * is off by what was claimed of the post in between minus what was recorded, against the earlier one by what was
   * claimed minus what was cleared; it is exact exactly when these agree.
   */
  lemma SplitReadIff(s: State, steps: seq<Step>, post: int)
    requires Valid(s, steps)
    ensures var t := Run(s, steps);
      var split := At(s.redis.delta, post) + At(t.redis.processingSum, post);
      && split - Underway(t.redis, post) == Taken(s, steps, post) - Enqueued(s, steps, post)
      && split - Underway(s.redis, post) == Taken(s, steps, post) - Cleared(s, steps, post)
      && (split == Underway(t.redis, post) <==> Taken(s, steps, post) == Enqueued(s, steps, post))
      && (split == Underway(s.redis, post) <==> Taken(s, steps, post) == Cleared(s, steps, post))
  {
    RunMoves(s, steps, post);
  }

  /**
   * A display reads the counter in one state and the two hashes in two later ones. Against the last state it is off
   * by what was claimed minus what was recorded between the hash reads, minus all that moved the counter meanwhile;
   * against the first by what was recorded before the pending read and claimed after it, minus what was cleared.
   */
  lemma ThreeReadsIff(s: State, first: seq<Step>, second: seq<Step>, post: int)
    requires Inv(s) && Valid(s, first) && Valid(Run(s, first), second)
    ensures var t := Run(s, first);
      var u := Run(t, second);
      var read := Counter(s, post) + At(t.redis.delta, post) + At(u.redis.processingSum, post);
      var moved := AppliedTotal(s, first, post) + Clipped(s, first, post) + Corrected(s, first, post)
        + AppliedTotal(t, second, post) + Clipped(t, second, post) + Corrected(t, second, post);
      var late := Taken(t, second, post) - Enqueued(t, second, post) - moved;
      var early := Enqueued(s, first, post) + Taken(t, second, post) - Cleared(s, first, post) - Cleared(t, second, post);
      && read - (Counter(u, post) + Underway(u.redis, post)) == late
      && read - (Counter(s, post) + Underway(s.redis, post)) == early
      && (read == Counter(u, post) + Underway(u.redis, post) <==> late == 0)
      && (read == Counter(s, post) + Underway(s.redis, post) <==> early == 0)
  {
    var t := Run(s, first);
    RunInv(s, first);
    RunMoves(s, first, post);
    RunMoves(t, second, post);
    CounterMoves(s, first, post);
    CounterMoves(t, second, post);
  }
}
