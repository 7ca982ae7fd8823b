/**
 * The scheduler goroutine's loops, statement by statement against the two stores, and the proof that each of
 * them is a run of the step system, so that what holds of all runs holds of them.
 */
module CounterTask {
  import opened CounterRedis
  import opened CounterDb
  import opened CounterPipeline
  import opened CounterTiming

  const PROCESSING_RETRY_DELAY := 3_000

  /** How one turn of the apply loop goes: when, whether its transaction commits, and whether the statement after it gets through. */
  datatype Turn = Turn(now: int, commits: bool, follows: bool)

  /** Both stores as values. */
  datatype Stores = Stores(redis: Redis, db: Database)

  predicate Ready(r: Redis, post: int, now: int) {
    post !in r.dirtyAt || DueAt(r, post) <= now
  }

  /** Which of the calls of one flush get through; `tidies` and `puts` are the schedule commands before and after the claim. */
  datatype FlushLuck = FlushLuck(recheck: bool, tidies: bool, claim: bool, inserts: bool, puts: bool)

  /** The stores when a ready post reaches the claim script. */
  function Rechecked(v: Stores, post: int, tidies: bool): Stores {
    if post in v.redis.dirtyAt || !tidies then v else v.(redis := v.redis.(schedule := v.redis.schedule - {post}))
  }

  /** What flushPostCounterByPostID leaves behind. */
  function Flushed(v: Stores, post: int, checkedAt: int, now: int, id: int, luck: FlushLuck): Stores {
    if !luck.recheck then v
    else if !Ready(v.redis, post, checkedAt) then
      if !luck.tidies then v else v.(redis := v.redis.(schedule := v.redis.schedule[post := DueAt(v.redis, post)]))
    else if !luck.claim then Rechecked(v, post, luck.tidies)
    else FlushedFrom(Rechecked(v, post, luck.tidies), post, now, id, luck)
  }

  function FlushedFrom(v: Stores, post: int, now: int, id: int, luck: FlushLuck): Stores {
    var r := Claim(v.redis, post, now, id);
    match ClaimReplyFor(v.redis, post, now)
    case Claimed(delta) =>
      if delta == 0 then v.(redis := r)
      else if luck.inserts then Stores(r, Insert(v.db, id, Batch(post, delta), now))
      else if !luck.puts then v.(redis := r)
      else v.(redis := r.(schedule := r.schedule[post := now + PROCESSING_RETRY_DELAY]))
    case _ => v.(redis := r)
  }

  function FlushSteps(r: Redis, post: int, checkedAt: int, now: int, id: int, luck: FlushLuck): seq<Step> {
    if !luck.recheck then []
    else if !Ready(r, post, checkedAt) then if !luck.tidies then [] else [Schedule(ZAddSchedule(post, DueAt(r, post)))]
    else
      RecheckSteps(r, post, luck.tidies) + (if luck.claim then ClaimSteps(r, post, now, id, luck) else [])
  }

  function RecheckSteps(r: Redis, post: int, tidies: bool): seq<Step> {
    if post in r.dirtyAt || !tidies then [] else [Schedule(ZRemSchedule(post))]
  }

  function ClaimSteps(r: Redis, post: int, now: int, id: int, luck: FlushLuck): seq<Step> {
    var reply := ClaimReplyFor(r, post, now);
    if !reply.Claimed? || reply.delta == 0 || (!luck.inserts && !luck.puts) then [ClaimDelta(post, now, id)]
    else if luck.inserts then [ClaimDelta(post, now, id), InsertRow(id, now)]
    else [ClaimDelta(post, now, id), Schedule(ZAddSchedule(post, now + PROCESSING_RETRY_DELAY))]
  }

  /** One batch of recoverProcessingCounterBatch, when its value parses. */
  function Recovered(v: Stores, id: int, now: int): Stores {
    if id !in v.redis.processing then
      v.(redis := v.redis.(processingIds := v.redis.processingIds - {id}))
    else if id !in v.db.batches then
      v.(db := Insert(v.db, id, v.redis.processing[id], now))
    else if v.db.batches[id].status == Success then
      v.(redis := Clear(v.redis, id))
    else v
  }

  /** The recovery loop stops at the first batch that does not parse. */
  function RecoveredAll(v: Stores, ids: seq<int>, now: int): Stores
    decreases |ids|
  {
    if ids == [] then v
    else if ids[0] in v.redis.processing && !WellFormed(v.redis.processing[ids[0]]) then v
    else RecoveredAll(Recovered(v, ids[0], now), ids[1..], now)
  }

  /** Whether it stops early. */
  predicate RecoveryFails(v: Stores, ids: seq<int>, now: int)
    decreases |ids|
  {
    ids != [] &&
    ((ids[0] in v.redis.processing && !WellFormed(v.redis.processing[ids[0]]))
     || RecoveryFails(Recovered(v, ids[0], now), ids[1..], now))
  }

  /** One turn of applyDueCounterBatches. */
  function Turned(v: Stores, task: Task, turn: Turn): Stores {
    if Skipped(task) then v
    else if !turn.commits then
      if turn.follows then v.(db := MarkFailed(v.db, task.id, turn.now)) else v
    else if !Claimable(v.db, task.id, turn.now) then v
    else Stores(if turn.follows then Clear(v.redis, task.id) else v.redis, Apply(v.db, task, turn.now))
  }

  function TurnSteps(v: Stores, task: Task, turn: Turn): seq<Step> {
    if Skipped(task) then [ApplyNext(turn.now)]
    else if !turn.commits then [FailNext, if turn.follows then MarkNext(turn.now) else SkipMark]
    else if turn.follows && Claimable(v.db, task.id, turn.now) then [ApplyNext(turn.now), ClearBatch(task.id)]
    else [ApplyNext(turn.now)]
  }

  function TurnedAll(v: Stores, tasks: seq<Task>, turns: seq<Turn>): Stores
    requires |turns| == |tasks|
    decreases |tasks|
  {
    if tasks == [] then v else TurnedAll(Turned(v, tasks[0], turns[0]), tasks[1..], turns[1..])
  }

  /** How many tasks the loop reports as applied. */
  function AppliedCount(v: Stores, tasks: seq<Task>, turns: seq<Turn>): nat
    requires |turns| == |tasks|
    decreases |tasks|
  {
    if tasks == [] then 0
    else
      (if !Skipped(tasks[0]) && turns[0].commits && Claimable(v.db, tasks[0].id, turns[0].now) then 1 else 0)
      + AppliedCount(Turned(v, tasks[0], turns[0]), tasks[1..], turns[1..])
  }

  function LoopSteps(v: Stores, tasks: seq<Task>, turns: seq<Turn>): seq<Step>
    requires |turns| == |tasks|
    decreases |tasks|
  {
    if tasks == [] then []
    else TurnSteps(v, tasks[0], turns[0]) + LoopSteps(Turned(v, tasks[0], turns[0]), tasks[1..], turns[1..])
  }

  class JobWorker {
    const redis: Store
    const db: Tables

    constructor (redis: Store, db: Tables)
      ensures this.redis == redis && this.db == db
    {
      this.redis, this.db := redis, db;
    }

    function View(): Stores
      reads redis, db
    {
      Stores(redis.View(), db.View())
    }

    /** schedulePostCounterFlush without interference. */
    method SchedulePost(post: int)
      modifies redis
      ensures redis.View() == PlanFlush(old(redis.View()), post)
    {
      if post !in redis.dirtyAt {
        redis.dirty := redis.dirty - {post};
        redis.dirtySince := redis.dirtySince - {post};
        redis.schedule := redis.schedule - {post};
        return;
      }
      if post !in redis.dirtySince {
        redis.dirtySince := redis.dirtySince[post := redis.dirtyAt[post]];
      }
      redis.schedule := redis.schedule[post := NextFlush(redis.dirtyAt[post], redis.dirtySince[post])];
    }

    /** Recheck and claim read the clock one after the other. */
    method FlushPost(post: int, checkedAt: int, now: int, id: int, luck: FlushLuck) returns (flushed: bool)
      modifies redis, db
      ensures View() == Flushed(old(View()), post, checkedAt, now, id, luck)
      ensures flushed <==>
        && luck.recheck && luck.claim && luck.inserts
        && post in old(redis.delta) && old(redis.delta)[post] != 0
        && (post in old(redis.dirtyAt) ==>
          var last := old(redis.dirtyAt)[post];
          var first := if post in old(redis.dirtySince) then old(redis.dirtySince)[post] else last;
          && (checkedAt >= last + 5_000 || checkedAt >= first + 60_000)
          && (now >= last + 5_000 || now >= first + 60_000))
    {
      flushed := false;
      if !luck.recheck {
        return;
      }
      if post in redis.dirtyAt {
        var due := DueAt(redis.View(), post);
        if checkedAt < due {
          if luck.tidies {
            redis.schedule := redis.schedule[post := due];
          }
          return;
        }
      } else if luck.tidies {
        redis.schedule := redis.schedule - {post};
      }
      if !luck.claim {
        return;
      }
      var reply := redis.ClaimDelta(post, now, id);
      match reply
      case Claimed(delta) =>
        if delta != 0 {
          if luck.inserts {
            db.InsertBatch(id, Batch(post, delta), now);
            flushed := true;
          } else if luck.puts {
            redis.schedule := redis.schedule[post := now + PROCESSING_RETRY_DELAY];
          }
        }
      case _ =>
    }

    /** `served` is the number of batches before the first one whose Redis or database call fails. */
    method RecoverBatches(ids: seq<int>, now: int, served: nat) returns (failed: bool)
      modifies redis, db
      ensures var scanned := if served < |ids| then ids[..served] else ids;
        && View() == RecoveredAll(old(View()), scanned, now)
        && failed == (served < |ids| || RecoveryFails(old(View()), scanned, now))
    {
      ghost var scanned := if served < |ids| then ids[..served] else ids;
      failed := false;
      var i := 0;
      while i < |ids| && i < served
        invariant 0 <= i <= |scanned|
        invariant RecoveredAll(View(), scanned[i..], now) == RecoveredAll(old(View()), scanned, now)
        invariant !failed && RecoveryFails(View(), scanned[i..], now) == RecoveryFails(old(View()), scanned, now)
      {
        var id := ids[i];
        assert scanned[i..][0] == id && scanned[i..][1..] == scanned[i + 1..];
        if id !in redis.processing {
          redis.processingIds := redis.processingIds - {id};
        } else {
          var batch := redis.processing[id];
          if batch.post <= 0 || batch.delta == 0 {
            failed := true;
            return;
          }
          if id !in db.batches {
            db.InsertBatch(id, batch, now);
          } else if db.batches[id].status == Success {
            var _ := redis.ClearBatch(id);
          }
        }
        i := i + 1;
      }
      failed := i < |ids|;
    }

    /** `turns` tells which statements the network and the database let through. */
    method ApplyDue(tasks: seq<Task>, turns: seq<Turn>) returns (applied: nat)
      requires |turns| == |tasks|
      modifies redis, db
      ensures View() == TurnedAll(old(View()), tasks, turns)
      ensures applied == AppliedCount(old(View()), tasks, turns)
    {
      applied := 0;
      var i := 0;
      while i < |tasks|
        invariant 0 <= i <= |tasks|
        invariant applied + AppliedCount(View(), tasks[i..], turns[i..]) == AppliedCount(old(View()), tasks, turns)
        invariant TurnedAll(View(), tasks[i..], turns[i..]) == TurnedAll(old(View()), tasks, turns)
      {
        var task, turn := tasks[i], turns[i];
        assert tasks[i..][0] == task && tasks[i..][1..] == tasks[i + 1..];
        assert turns[i..][0] == turn && turns[i..][1..] == turns[i + 1..];
        i := i + 1;
        if task.batch.post <= 0 || task.batch.delta == 0 {
          continue;
        }
        var ok, failed := db.ApplyBatch(task, turn.now, turn.commits);
        if failed {
          if turn.follows {
            db.MarkBatchFailed(task.id, turn.now);
          }
          continue;
        }
        if ok {
          if turn.follows {
            var _ := redis.ClearBatch(task.id);
          }
          applied := applied + 1;
        }
      }
    }

    /**
     * The guard, the count and the overwrite without interference; `facts` is what the fact query returned, and
     * `works` whether all the calls get through.
     */
    method ReconcilePost(post: int, facts: int, works: bool) returns (ok: bool, changed: bool)
      modifies db
      ensures ok <==> && works && (post in old(redis.delta) ==> old(redis.delta)[post] == 0)
                      && (post in old(redis.processingSum) ==> old(redis.processingSum)[post] == 0)
                      && forall id :: id in old(db.batches) && old(db.batches)[id].post == post ==> old(db.batches)[id].status == Success
      ensures db.batches == old(db.batches) && db.counter - {post} == old(db.counter) - {post}
      ensures At(db.counter, post) == if ok then facts else old(At(db.counter, post))
      ensures changed == (ok && old(At(db.counter, post)) != facts)
    {
      ok, changed := false, false;
      if !works || At(redis.delta, post) != 0 || At(redis.processingSum, post) != 0 {
        return;
      }
      if exists id :: id in db.batches && db.batches[id].post == post && db.batches[id].status in {Pending, Failed, Processing} {
        return;
      }
      ok := true;
      changed := db.OverwriteCounter(post, facts);
    }
  }

  // ---------------------------------------------------------------------------------------------
  // What one turn of each loop promises

  /**
   * A flush of a pending delta, in which nothing fails: once the last change is 5 s old or the first 60 s, the delta
   * is a pending batch in both stores and no longer in the hash; before, only the schedule is set, to the earlier time.
   */
  lemma FlushMeans(v: Stores, post: int, checkedAt: int, now: int, id: int, luck: FlushLuck, last: int, first: int)
    requires post in v.redis.delta && v.redis.delta[post] != 0 && id !in v.db.batches
    requires post in v.redis.dirtyAt && last == v.redis.dirtyAt[post]
    requires first == if post in v.redis.dirtySince then v.redis.dirtySince[post] else last
    requires luck.recheck && luck.tidies && luck.claim && luck.inserts && checkedAt <= now
    ensures var w, delta := Flushed(v, post, checkedAt, now, id, luck), v.redis.delta[post];
      if checkedAt >= last + 5_000 || checkedAt >= first + 60_000 then
        && w.redis.delta == v.redis.delta - {post}
        && w.redis.processing == v.redis.processing[id := Batch(post, delta)]
        && w.db.batches == v.db.batches[id := Row(post, delta, Pending, now)] && w.db.counter == v.db.counter
        && post !in w.redis.dirty && post !in w.redis.dirtyAt && post !in w.redis.schedule
      else
        && w.db == v.db
        && w.redis == v.redis.(schedule := v.redis.schedule[
             post := if last + 5_000 < first + 60_000 then last + 5_000 else first + 60_000])
  {
  }

  /**
   * When the insert fails, the claimed batch stays in Redis alone and the post is tried again 3 s later; a zero delta
   * is claimed and not inserted, and nothing pending is not claimed.
   */
  lemma FlushFallsBack(v: Stores, post: int, checkedAt: int, now: int, id: int, luck: FlushLuck)
    requires !Waits(v.redis, post, checkedAt) && !Waits(v.redis, post, now) && luck.recheck && luck.claim
    ensures var w := Flushed(v, post, checkedAt, now, id, luck);
      && w.db.counter == v.db.counter
      && (post !in v.redis.delta ==> w.db == v.db && w.redis.processing == v.redis.processing && w.redis.delta == v.redis.delta)
      && (post in v.redis.delta ==>
        && post !in w.redis.delta
        && w.redis.processing == v.redis.processing[id := Batch(post, v.redis.delta[post])])
      && (post in v.redis.delta && (v.redis.delta[post] == 0 || !luck.inserts) ==> w.db == v.db)
      && (post in v.redis.delta && v.redis.delta[post] != 0 && !luck.inserts && luck.puts ==>
        post in w.redis.schedule && w.redis.schedule[post] == now + 3_000)
  {
  }

  /** Without its calls a flush claims nothing. */
  lemma FlushNeedsItsCalls(v: Stores, post: int, checkedAt: int, now: int, id: int, luck: FlushLuck)
    requires !luck.recheck || !luck.claim
    ensures var w := Flushed(v, post, checkedAt, now, id, luck);
      w.db == v.db && w.redis.delta == v.redis.delta && w.redis.processing == v.redis.processing
  {
  }

  /**
   * Recovery of one batch: an id without a batch leaves the set, a batch without a row is inserted, one with an
   * applied row is cleared, and one that is still under way is left alone.
   */
  lemma RecoverMeans(v: Stores, id: int, now: int)
    ensures var w := Recovered(v, id, now);
      && w.db.counter == v.db.counter
      && (id !in v.redis.processing ==>
        w.db == v.db && w.redis == v.redis.(processingIds := v.redis.processingIds - {id}))
      && (id in v.redis.processing && id !in v.db.batches && v.redis.processing[id].delta != 0 ==>
        var batch := v.redis.processing[id];
        w.redis == v.redis && w.db.batches == v.db.batches[id := Row(batch.post, batch.delta, Pending, now)])
      && (id in v.redis.processing && id in v.db.batches && v.db.batches[id].status == Success ==>
        w.db == v.db && w.redis.processing == v.redis.processing - {id} && id !in w.redis.processingIds)
      && (id in v.redis.processing && id in v.db.batches && v.db.batches[id].status != Success ==> w == v)
  {
    ClearMeans(v.redis, id);
  }

  /**
   * A turn of the apply loop: a due batch is applied and, if the clear script gets through, cleared; a rollback is
   * marked for another try in 30 s, if that statement gets through; a batch that is not due is left alone.
   */
  lemma TurnMeans(v: Stores, task: Task, turn: Turn)
    requires task.batch.post > 0 && task.batch.delta != 0
    ensures var w, id, post := Turned(v, task, turn), task.id, task.batch.post;
      var due := id in v.db.batches && v.db.batches[id].status in {Pending, Failed} && v.db.batches[id].retryAt <= turn.now;
      var count := if post in v.db.counter then v.db.counter[post] else 0;
      if turn.commits && due then
        && w.db.batches == v.db.batches[id := v.db.batches[id].(status := Success)]
        && w.db.counter == v.db.counter[post := if count + task.batch.delta < 0 then 0 else count + task.batch.delta]
        && w.redis.processing == (if turn.follows then v.redis.processing - {id} else v.redis.processing)
      else
        && w.redis == v.redis && w.db.counter == v.db.counter
        && w.db.batches == if !turn.commits && turn.follows && id in v.db.batches
             then v.db.batches[id := v.db.batches[id].(status := Failed, retryAt := turn.now + 30_000)]
             else v.db.batches
  {
    ClearMeans(v.redis, task.id);
  }

  /** A task with no post or no delta is passed over. */
  lemma TurnSkips(v: Stores, task: Task, turn: Turn)
    requires task.batch.post <= 0 || task.batch.delta == 0
    ensures Turned(v, task, turn) == v
  {
  }

  /** For a selection of distinct unapplied batches, the number reported is the number that became success. */
  lemma {:induction false} AppliedCountMeans(v: Stores, tasks: seq<Task>, turns: seq<Turn>)
    requires |turns| == |tasks| && forall i, j :: 0 <= i < j < |tasks| ==> tasks[i].id != tasks[j].id
    requires forall i :: 0 <= i < |tasks| ==> !Applied(v.db, tasks[i].id)
    ensures AppliedCount(v, tasks, turns) == |AppliedIds(TurnedAll(v, tasks, turns).db)| - |AppliedIds(v.db)|
    decreases |tasks|
  {
    if tasks != [] {
      var u, id := Turned(v, tasks[0], turns[0]), tasks[0].id;
      forall i | 0 <= i < |tasks[1..]| ensures !Applied(u.db, tasks[1..][i].id) {
        assert tasks[1..][i] == tasks[i + 1] && tasks[i + 1].id != id;
      }
      AppliedCountMeans(u, tasks[1..], turns[1..]);
      if !Skipped(tasks[0]) && turns[0].commits && Claimable(v.db, id, turns[0].now) {
        assert AppliedIds(u.db) == AppliedIds(v.db) + {id} && id !in AppliedIds(v.db);
      } else {
        assert AppliedIds(u.db) == AppliedIds(v.db);
      }
    }
  }

  // ---------------------------------------------------------------------------------------------
  // The loops are runs

  function StoresOf(s: State): Stores {
    Stores(s.redis, s.db)
  }

  /** What follows a claim that took something: the insert, or a later retry when the insert fails. */
  lemma FollowUpLeads(s: State, post: int, now: int, id: int, inserts: bool)
    requires id in s.claims
    ensures var step := if inserts then InsertRow(id, now) else Schedule(ZAddSchedule(post, now + PROCESSING_RETRY_DELAY));
      && Enabled(s, step)
      && StoresOf(Next(s, step)) == if inserts then Stores(s.redis, Insert(s.db, id, s.claims[id], now))
        else Stores(s.redis.(schedule := s.redis.schedule[post := now + PROCESSING_RETRY_DELAY]), s.db)
  {
  }

  lemma ClaimIsRun(s: State, post: int, now: int, id: int, luck: FlushLuck)
    requires Inv(s) && id !in s.claims
    ensures var steps := ClaimSteps(s.redis, post, now, id, luck);
      Valid(s, steps) && StoresOf(Run(s, steps)) == FlushedFrom(StoresOf(s), post, now, id, luck)
  {
    var steps := ClaimSteps(s.redis, post, now, id, luck);
    ClaimChanges(s, post, now, id);
    var t := Next(s, steps[0]);
    if |steps| == 1 {
      Unroll(s, steps, [s, t]);
    } else {
      FollowUpLeads(t, post, now, id, luck.inserts);
      Unroll(s, steps, [s, t, Next(t, steps[1])]);
    }
  }

  /** The recheck of a post that turns out ready. */
  lemma RecheckIsRun(s: State, post: int, tidies: bool)
    requires Inv(s)
    ensures var steps := RecheckSteps(s.redis, post, tidies);
      && Valid(s, steps) && Inv(Run(s, steps)) && Run(s, steps).claims == s.claims
      && StoresOf(Run(s, steps)) == Rechecked(StoresOf(s), post, tidies)
  {
    var tidy := Schedule(ZRemSchedule(post));
    if post !in s.redis.dirtyAt && tidies {
      StepInv(s, tidy);
      Unroll(s, [tidy], [s, Next(s, tidy)]);
    }
  }

  /** A flush is a run, whatever becomes of its calls. */
  lemma FlushIsRun(s: State, post: int, checkedAt: int, now: int, id: int, luck: FlushLuck)
    requires Inv(s) && id !in s.claims
    ensures var steps := FlushSteps(s.redis, post, checkedAt, now, id, luck);
      Valid(s, steps) && StoresOf(Run(s, steps)) == Flushed(StoresOf(s), post, checkedAt, now, id, luck)
  {
    var steps := FlushSteps(s.redis, post, checkedAt, now, id, luck);
    if luck.recheck && !Ready(s.redis, post, checkedAt) && luck.tidies {
      Unroll(s, steps, [s, Next(s, steps[0])]);
    } else if luck.recheck && Ready(s.redis, post, checkedAt) {
      RecheckIsRun(s, post, luck.tidies);
      var first := RecheckSteps(s.redis, post, luck.tidies);
      var t := Run(s, first);
      if luck.claim {
        ClaimIsRun(t, post, now, id, luck);
        RunConcat(s, first, ClaimSteps(t.redis, post, now, id, luck));
      } else {
        assert steps == first;
      }
    }
  }

  /** The state with other stores. */
  function WithStores(s: State, v: Stores): State {
    s.(redis := v.redis, db := v.db)
  }

  ghost predicate LeadsTo(s: State, steps: seq<Step>, t: State) {
    Valid(s, steps) && Run(s, steps) == t
  }

  lemma RecoverIsRun(s: State, id: int, now: int)
    requires Inv(s) && (id in s.redis.processing ==> WellFormed(s.redis.processing[id]))
    ensures exists steps :: LeadsTo(s, steps, WithStores(s, Recovered(StoresOf(s), id, now)))
  {
    var steps :=
      if id !in s.redis.processing then []
      else if id !in s.db.batches then [InsertRow(id, now)]
      else if s.db.batches[id].status == Success then [ClearBatch(id)]
      else [];
    var t := WithStores(s, Recovered(StoresOf(s), id, now));
    if steps == [] {
      assert id !in s.redis.processing ==> s.redis.processingIds - {id} == s.redis.processingIds;
      assert LeadsTo(s, steps, t);
    } else {
      assert s.claims[id] == s.redis.processing[id];
      Unroll(s, steps, [s, Next(s, steps[0])]);
      assert LeadsTo(s, steps, t);
    }
  }

  /** A recovery scan is a run. */
  lemma {:induction false} RecoveryIsRun(s: State, ids: seq<int>, now: int)
    requires Inv(s)
    ensures exists steps :: LeadsTo(s, steps, WithStores(s, RecoveredAll(StoresOf(s), ids, now)))
    decreases |ids|
  {
    if ids == [] || (ids[0] in s.redis.processing && !WellFormed(s.redis.processing[ids[0]])) {
      assert RecoveredAll(StoresOf(s), ids, now) == StoresOf(s) && WithStores(s, StoresOf(s)) == s;
      assert Valid(s, []) && Run(s, []) == s;
      assert LeadsTo(s, [], WithStores(s, RecoveredAll(StoresOf(s), ids, now)));
    } else {
      var t := WithStores(s, Recovered(StoresOf(s), ids[0], now));
      RecoverIsRun(s, ids[0], now);
      var first :| LeadsTo(s, first, t);
      RunInv(s, first);
      RecoveryIsRun(t, ids[1..], now);
      var rest :| LeadsTo(t, rest, WithStores(t, RecoveredAll(StoresOf(t), ids[1..], now)));
      RunConcat(s, first, rest);
      assert LeadsTo(s, first + rest, WithStores(s, RecoveredAll(StoresOf(s), ids, now)));
    }
  }

  lemma TurnIsRun(s: State, turn: Turn)
    requires Inv(s) && s.worker.queue != [] && s.worker.marking == []
    ensures var task := s.worker.queue[0];
      LeadsTo(s, TurnSteps(StoresOf(s), task, turn),
              WithStores(s, Turned(StoresOf(s), task, turn)).(worker := Worker(s.worker.queue[1..], [])))
  {
    var steps := TurnSteps(StoresOf(s), s.worker.queue[0], turn);
    var t := Next(s, steps[0]);
    if |steps| == 1 {
      Unroll(s, steps, [s, t]);
    } else {
      Unroll(s, steps, [s, t, Next(t, steps[1])]);
    }
  }

  /** The apply loop over a selection is a run, whichever of its statements fail. */
  lemma {:induction false} ApplyLoopIsRun(s: State, turns: seq<Turn>)
    requires Inv(s) && s.worker.marking == [] && |turns| == |s.worker.queue|
    ensures LeadsTo(s, LoopSteps(StoresOf(s), s.worker.queue, turns),
                    WithStores(s, TurnedAll(StoresOf(s), s.worker.queue, turns)).(worker := Worker([], [])))
    decreases |turns|
  {
    if turns != [] {
      TurnIsRun(s, turns[0]);
      var first := TurnSteps(StoresOf(s), s.worker.queue[0], turns[0]);
      RunInv(s, first);
      var t := Run(s, first);
      ApplyLoopIsRun(t, turns[1..]);
      RunConcat(s, first, LoopSteps(StoresOf(t), t.worker.queue, turns[1..]));
    }
  }
}
