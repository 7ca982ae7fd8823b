/** What recovery and retries can and cannot repair. */
module CounterRecovery {
  import opened Tally
  import opened ClampFold
  import opened CounterRedis
  import opened CounterDb
  import opened CounterPipeline
  import opened CounterLedger

  /** A claimed batch whose delta has not reached post_counter. */
  predicate Outstanding(s: State, id: int) {
    id in s.redis.processing && !Applied(s.db, id)
  }

  lemma StuckStep(s: State, step: Step, id: int)
    requires Inv(s) && Enabled(s, step)
    requires Outstanding(s, id) && !WellFormed(s.redis.processing[id])
    ensures var t := Next(s, step);
      Outstanding(t, id) && t.redis.processing[id] == s.redis.processing[id]
  {
    StepApplies(s, step, id);
    StepKeepsProcessing(s, step, id);
    if step.ApplyNext? {
      assert Held(s.db.batches, s.worker.queue[0]);
    }
  }

  lemma StepKeepsProcessing(s: State, step: Step, id: int)
    requires Inv(s) && Enabled(s, step) && Outstanding(s, id)
    ensures var t := Next(s, step);
      id in t.redis.processing && t.redis.processing[id] == s.redis.processing[id]
  {
    if step.Schedule? {
      TidyKeepsBooks(s.redis, step.tidy);
    } else if !step.ClaimDelta? && !step.ClearBatch? {
      assert Next(s, step).redis.processing == s.redis.processing;
    }
  }

  /** A claimed batch that does not parse stays claimed and unapplied in every run. */
  lemma {:induction false} MalformedStays(s: State, steps: seq<Step>, id: int)
    requires Inv(s) && Valid(s, steps)
    requires Outstanding(s, id) && !WellFormed(s.redis.processing[id])
    ensures Outstanding(Run(s, steps), id)
    decreases |steps|
  {
    if steps != [] {
      StepInv(s, steps[0]);
      StuckStep(s, steps[0], id);
      MalformedStays(Next(s, steps[0]), steps[1..], id);
    }
  }

  // ---------------------------------------------------------------------------------------------
  // Where zero deltas come from

  /** Two changes of one row before the next claim. */
  function MeetSteps(first: int, second: int, post: int, actor: int, at: int, now: int, id: int): seq<Step> {
    [Flip(first, post, actor), Emit(first, at), Flip(second, post, actor), Emit(second, at), ClaimDelta(post, now, id)]
  }

  lemma FlipAndEmit(s: State, request: int, post: int, actor: int, at: int)
    requires request !in s.facts.inflight
    ensures var d := if actor in ActiveIn(s.facts, post) then -1 else 1;
      && Valid(s, [Flip(request, post, actor), Emit(request, at)])
      && var u := Run(s, [Flip(request, post, actor), Emit(request, at)]);
         && u.facts.inflight == s.facts.inflight
         && (actor in ActiveIn(u.facts, post) <==> actor !in ActiveIn(s.facts, post))
         && u.redis == Enqueue(s.redis, post, d, at) && u.db == s.db && u.claims == s.claims && u.worker == s.worker
  {
    var t := Next(s, Flip(request, post, actor));
    var u := Next(t, Emit(request, at));
    assert u.facts.inflight == s.facts.inflight;
    Unroll(s, [Flip(request, post, actor), Emit(request, at)], [s, t, u]);
  }

  lemma FlipTwice(s: State, first: int, second: int, post: int, actor: int, at: int)
    requires first !in s.facts.inflight && second !in s.facts.inflight && post !in s.redis.delta
    ensures var steps := [Flip(first, post, actor), Emit(first, at)] + [Flip(second, post, actor), Emit(second, at)];
      && Valid(s, steps)
      && var u := Run(s, steps);
         && post in u.redis.delta && u.redis.delta[post] == 0
         && post in u.redis.dirtyAt && u.redis.dirtyAt[post] == at
         && u.db == s.db && u.claims == s.claims
  {
    var one, two := [Flip(first, post, actor), Emit(first, at)], [Flip(second, post, actor), Emit(second, at)];
    FlipAndEmit(s, first, post, actor, at);
    FlipAndEmit(Run(s, one), second, post, actor, at);
    RunConcat(s, one, two);
  }

  /**
   * From every state in which the post has nothing pending, a change and its opposite that meet in Redis are claimed
   * as a batch with delta zero, which is then outstanding and malformed.
   */
  lemma OppositesLeaveZero(s: State, first: int, second: int, post: int, actor: int, at: int, now: int, id: int)
    requires Inv(s) && first !in s.facts.inflight && second !in s.facts.inflight && id !in s.claims
    requires post !in s.redis.delta && now >= at + QUIET_PERIOD
    ensures var steps := MeetSteps(first, second, post, actor, at, now, id);
      && Valid(s, steps)
      && Outstanding(Run(s, steps), id) && Run(s, steps).redis.processing[id] == Batch(post, 0)
      && !WellFormed(Run(s, steps).redis.processing[id])
  {
    var flips := [Flip(first, post, actor), Emit(first, at)] + [Flip(second, post, actor), Emit(second, at)];
    var claim := [ClaimDelta(post, now, id)];
    FlipTwice(s, first, second, post, actor, at);
    var u := Run(s, flips);
    ZeroIsClaimed(u, post, at, now, id);
    Unroll(u, claim, [u, Next(u, claim[0])]);
    RunConcat(s, flips, claim);
    assert flips + claim == MeetSteps(first, second, post, actor, at, now, id);
    NotYetApplied(s, id);
  }

  lemma ZeroIsClaimed(s: State, post: int, at: int, now: int, id: int)
    requires id !in s.claims && now >= at + QUIET_PERIOD
    requires post in s.redis.delta && s.redis.delta[post] == 0 && post in s.redis.dirtyAt && s.redis.dirtyAt[post] == at
    ensures var step := ClaimDelta(post, now, id);
      && Enabled(s, step) && Next(s, step).db == s.db
      && id in Next(s, step).redis.processing && Next(s, step).redis.processing[id] == Batch(post, 0)
  {
  }

  lemma NotYetApplied(s: State, id: int)
    requires Inv(s) && id !in s.claims
    ensures !Applied(s.db, id)
  {
  }

  /** Recovery never meets a row that disagrees with the batch Redis holds. */
  lemma RecoveredRowsMatch(s: State, steps: seq<Step>, id: int)
    requires Inv(s) && Valid(s, steps)
    ensures var t := Run(s, steps);
      id in t.redis.processing && id in t.db.batches ==>
        t.redis.processing[id] == Batch(t.db.batches[id].post, t.db.batches[id].delta)
  {
    RunInv(s, steps);
  }

  /**
   * After every run from empty keys and tables: processing_sum adds up processing_batch, processing_batches lists
   * its fields, and an unfinished row always has a field with its post and delta.
   */
  lemma BooksHold(facts: Facts, counter: map<int, int>, steps: seq<Step>)
    requires Valid(Fresh(facts, counter), steps)
    ensures var t := Run(Fresh(facts, counter), steps);
      && t.redis.processingIds == t.redis.processing.Keys
      && (forall post :: At(t.redis.processingSum, post) == Sum(t.redis.processing, Of(post)))
      && (forall id :: id in t.db.batches && t.db.batches[id].status != Success ==>
        && id in t.redis.processing
        && t.redis.processing[id] == Batch(t.db.batches[id].post, t.db.batches[id].delta))
  {
    FreshInv(facts, counter);
    RunInv(Fresh(facts, counter), steps);
  }

  // ---------------------------------------------------------------------------------------------
  // Limits of the retry path

  /**
   * If a commit succeeds but reports an error, the unguarded failure update makes the batch due again, and
   * its delta is added a second time.
   */
  lemma AmbiguousCommitAppliesTwice(d: Database, task: Task, now: int, failedAt: int, later: int)
    requires Claimable(d, task.id, now) && failedAt + RETRY_DELAY <= later
    ensures var twice := Apply(MarkFailed(Apply(d, task, now), task.id, failedAt), task, later);
      At(twice.counter, task.batch.post) == Clamped(Clamped(At(d.counter, task.batch.post), task.batch.delta), task.batch.delta)
  {
  }

  /**
   * Two due batches of one post that lead from the counter to a nonnegative count are applied without
   * clipping. If the first one's transaction rolls back, the second one overtakes it, and clips what it
   * takes the counter below zero.
   */
  lemma BackoffReorders(s: State, post: int, now: int)
    requires Inv(s) && |s.worker.queue| == 2 && s.worker.marking == []
    requires forall i :: 0 <= i < 2 ==>
      !Skipped(s.worker.queue[i]) && s.worker.queue[i].batch.post == post && Claimable(s.db, s.worker.queue[i].id, now)
    requires 0 <= Counter(s, post) + s.worker.queue[0].batch.delta
    requires 0 <= Counter(s, post) + s.worker.queue[0].batch.delta + s.worker.queue[1].batch.delta
    ensures Valid(s, [ApplyNext(now), ApplyNext(now)]) && Clipped(s, [ApplyNext(now), ApplyNext(now)], post) == 0
    ensures Valid(s, [FailNext, MarkNext(now), ApplyNext(now)])
    ensures Clipped(s, [FailNext, MarkNext(now), ApplyNext(now)], post)
         == Max(0, -(Counter(s, post) + s.worker.queue[1].batch.delta))
  {
    BackoffInOrder(s, post, now);
    BackoffOvertakes(s, post, now);
  }

  lemma BackoffInOrder(s: State, post: int, now: int)
    requires Inv(s) && |s.worker.queue| == 2 && s.worker.marking == []
    requires forall i :: 0 <= i < 2 ==>
      !Skipped(s.worker.queue[i]) && s.worker.queue[i].batch.post == post && Claimable(s.db, s.worker.queue[i].id, now)
    requires 0 <= Counter(s, post) + s.worker.queue[0].batch.delta
    requires 0 <= Counter(s, post) + s.worker.queue[0].batch.delta + s.worker.queue[1].batch.delta
    ensures Valid(s, [ApplyNext(now), ApplyNext(now)]) && Clipped(s, [ApplyNext(now), ApplyNext(now)], post) == 0
  {
    var steps := [ApplyNext(now), ApplyNext(now)];
    var t := Next(s, ApplyNext(now));
    assert t.worker.queue[0] == s.worker.queue[1];
    assert steps[1..] == [ApplyNext(now)] && steps[1..][1..] == [];
    assert Counter(t, post) == Counter(s, post) + s.worker.queue[0].batch.delta;
    OneClip(Counter(s, post), s.worker.queue[0].batch.delta);
    OneClip(Counter(t, post), s.worker.queue[1].batch.delta);
    assert Valid(t, [ApplyNext(now)]);
    assert ClippedBy(t, ApplyNext(now), post) == 0;
    assert Clipped(t, [ApplyNext(now)], post) == 0;
  }

  lemma BackoffOvertakes(s: State, post: int, now: int)
    requires Inv(s) && |s.worker.queue| == 2 && s.worker.marking == []
    requires forall i :: 0 <= i < 2 ==>
      !Skipped(s.worker.queue[i]) && s.worker.queue[i].batch.post == post && Claimable(s.db, s.worker.queue[i].id, now)
    ensures Valid(s, [FailNext, MarkNext(now), ApplyNext(now)])
    ensures Clipped(s, [FailNext, MarkNext(now), ApplyNext(now)], post)
         == Max(0, -(Counter(s, post) + s.worker.queue[1].batch.delta))
  {
    var steps := [FailNext, MarkNext(now), ApplyNext(now)];
    var t := Next(s, FailNext);
    var u := Next(t, MarkNext(now));
    assert u.worker.queue == [s.worker.queue[1]];
    assert s.worker.queue[0].id != s.worker.queue[1].id;
    assert Claimable(u.db, s.worker.queue[1].id, now);
    assert steps[1..] == [MarkNext(now), ApplyNext(now)] && steps[1..][1..] == [ApplyNext(now)];
    assert steps[1..][1..][1..] == [];
    OneClip(Counter(s, post), s.worker.queue[1].batch.delta);
    assert Valid(u, [ApplyNext(now)]);
    assert Valid(t, steps[1..]);
    assert ClippedBy(u, ApplyNext(now), post) == Clip(Counter(s, post), s.worker.queue[1].batch.delta);
    assert Clipped(u, [ApplyNext(now)], post) == Clip(Counter(s, post), s.worker.queue[1].batch.delta);
    assert Clipped(t, steps[1..], post) == Clipped(u, [ApplyNext(now)], post);
  }
}
