/** What a run of the pipeline does to post_counter: each batch at most once, and nothing lost but what is named. */
module CounterLedger {
  import opened Tally
  import opened ClampFold
  import opened CounterRedis
  import opened CounterDb
  import opened CounterPipeline

  // ---------------------------------------------------------------------------------------------
  // Exactly once

  predicate AppliesHead(s: State, step: Step) {
    && step.ApplyNext?
    && s.worker.queue != []
    && !Skipped(s.worker.queue[0])
    && Claimable(s.db, s.worker.queue[0].id, step.now)
  }

  /** The batch ids whose delta reaches post_counter, in order. */
  ghost function Applications(s: State, steps: seq<Step>): seq<int>
    requires Valid(s, steps)
    decreases |steps|
  {
    if steps == [] then []
    else
      (if AppliesHead(s, steps[0]) then [s.worker.queue[0].id] else [])
      + Applications(Next(s, steps[0]), steps[1..])
  }

  /** A step turns at most one batch to success, the one it applies, and none back. */
  lemma StepApplies(s: State, step: Step, id: int)
    requires Inv(s) && Enabled(s, step)
    ensures Applied(Next(s, step).db, id) <==> Applied(s.db, id) || (AppliesHead(s, step) && id == s.worker.queue[0].id)
    ensures AppliesHead(s, step) ==> !Applied(s.db, s.worker.queue[0].id)
  {
  }

  /** The failure update carries no status guard; the worker only ever aims it at an unapplied batch. */
  lemma MarkKeepsApplied(s: State, now: int, id: int)
    requires Inv(s) && Enabled(s, MarkNext(now))
    ensures Applied(Next(s, MarkNext(now)).db, id) <==> Applied(s.db, id)
  {
  }

  /**
   * In every run the applied batches are pairwise distinct, and they are exactly the batches that became
   * success: no batch is added twice, and a success batch never becomes pending or failed again.
   */
  lemma {:induction false} ExactlyOnce(s: State, steps: seq<Step>)
    requires Inv(s) && Valid(s, steps)
    ensures forall i, j :: 0 <= i < j < |Applications(s, steps)| ==> Applications(s, steps)[i] != Applications(s, steps)[j]
    ensures forall id :: id in Applications(s, steps) ==> !Applied(s.db, id)
    ensures forall id :: Applied(Run(s, steps).db, id) <==> Applied(s.db, id) || id in Applications(s, steps)
    decreases |steps|
  {
    if steps != [] {
      var t := Next(s, steps[0]);
      StepInv(s, steps[0]);
      ExactlyOnce(t, steps[1..]);
      forall id ensures Applied(t.db, id) <==> Applied(s.db, id) || (AppliesHead(s, steps[0]) && id == s.worker.queue[0].id) {
        StepApplies(s, steps[0], id);
      }
      if AppliesHead(s, steps[0]) {
        var id, rest := s.worker.queue[0].id, Applications(t, steps[1..]);
        assert Applied(t.db, id) && !Applied(s.db, id);
        assert Applications(s, steps) == [id] + rest;
        assert id !in rest;
      }
    }
  }

  // ---------------------------------------------------------------------------------------------
  // Conservation

  function Counter(s: State, post: int): int {
    At(s.db.counter, post)
  }

  function PendingDelta(s: State, post: int): int {
    At(s.redis.delta, post)
  }

  /** Claimed, inserted or not, but not applied. */
  ghost function Unapplied(s: State, post: int): int {
    Sum(s.redis.processing - AppliedIds(s.db), Of(post))
  }

  /** Applied, but not cleared from Redis. */
  ghost function Uncleared(s: State, post: int): int {
    Sum(s.redis.processing - (s.redis.processing.Keys - AppliedIds(s.db)), Of(post))
  }

  ghost function InFlight(s: State, post: int): int {
    Sum(s.facts.inflight, OfChange(post))
  }

  /** How far the counter, with everything still on its way, is from the facts. */
  ghost function Drift(s: State, post: int): int {
    Counter(s, post) + PendingDelta(s, post) + Unapplied(s, post) + InFlight(s, post) - FactCount(s.facts, post)
  }

  /** The counter updates of a step, in order: at most one. */
  function UpdatesBy(s: State, step: Step, post: int): seq<int> {
    if AppliesHead(s, step) && s.worker.queue[0].batch.post == post then [s.worker.queue[0].batch.delta]
    else if step.Direct? && step.request in s.facts.inflight && s.facts.inflight[step.request].post == post then
      [s.facts.inflight[step.request].delta]
    else []
  }

  function ClippedBy(s: State, step: Step, post: int): int {
    Clips(Counter(s, post), UpdatesBy(s, step, post))
  }

  function LostBy(s: State, step: Step, post: int): int {
    if step.Lose? && step.request in s.facts.inflight && s.facts.inflight[step.request].post == post then
      s.facts.inflight[step.request].delta
    else 0
  }

  function CorrectedBy(s: State, step: Step, post: int): int {
    if step == Reconcile(post) then FactCount(s.facts, post) - Counter(s, post) else 0
  }

  lemma FlipDrift(s: State, request: int, p: int, actor: int, post: int)
    requires Enabled(s, Flip(request, p, actor))
    ensures Drift(Next(s, Flip(request, p, actor)), post) == Drift(s, post)
  {
    var t := Next(s, Flip(request, p, actor));
    SumWith(s.facts.inflight, OfChange(post), request, t.facts.inflight[request]);
  }

  lemma SettleDrift(s: State, request: int, post: int)
    requires request in s.facts.inflight
    ensures Sum(Settle(s.facts, request).inflight, OfChange(post))
         == InFlight(s, post) - OfChange(post)(s.facts.inflight[request])
  {
    SumWithout(s.facts.inflight, OfChange(post), request);
  }

  lemma ClaimDrift(s: State, p: int, now: int, id: int, post: int)
    requires Inv(s) && Enabled(s, ClaimDelta(p, now, id))
    ensures Drift(Next(s, ClaimDelta(p, now, id)), post) == Drift(s, post)
  {
    var t := Next(s, ClaimDelta(p, now, id));
    if ClaimReplyFor(s.redis, p, now).Claimed? {
      var open := s.redis.processing - AppliedIds(s.db);
      var batch := Batch(p, s.redis.delta[p]);
      assert t.redis.processing - AppliedIds(t.db) == open[id := batch];
      SumWith(open, Of(post), id, batch);
    }
  }

  lemma ApplyDrift(s: State, now: int, post: int)
    requires Inv(s) && Enabled(s, ApplyNext(now))
    ensures Drift(Next(s, ApplyNext(now)), post) == Drift(s, post) + ClippedBy(s, ApplyNext(now), post)
  {
    var t := Next(s, ApplyNext(now));
    var task := s.worker.queue[0];
    assert Held(s.db.batches, task);
    if AppliesHead(s, ApplyNext(now)) {
      var open := s.redis.processing - AppliedIds(s.db);
      assert AppliedIds(t.db) == AppliedIds(s.db) + {task.id};
      assert t.redis.processing - AppliedIds(t.db) == open - {task.id};
      assert open[task.id] == task.batch;
      SumWithout(open, Of(post), task.id);
      OneClip(Counter(s, post), task.batch.delta);
    }
  }

  lemma OneClip(x: int, d: int)
    ensures Clips(x, [d]) == Clip(x, d) && Clips(x, []) == 0
  {
  }

  lemma QuietDrift(s: State, step: Step, post: int)
    requires Inv(s) && Enabled(s, step)
    requires step.InsertRow? || step.MarkNext? || step.ClearBatch? || step.Scan? || step.FailNext? || step.SkipMark? || step.Crash?
    ensures Drift(Next(s, step), post) == Drift(s, post)
  {
    var t := Next(s, step);
    forall id ensures id in AppliedIds(t.db) <==> id in AppliedIds(s.db) {
      StepApplies(s, step, id);
    }
    assert AppliedIds(t.db) == AppliedIds(s.db);
    assert t.redis.processing - AppliedIds(t.db) == s.redis.processing - AppliedIds(s.db);
  }

  lemma RequestDrift(s: State, step: Step, post: int)
    requires Inv(s) && Enabled(s, step)
    requires step.Emit? || step.Lose? || step.Direct?
    ensures Drift(Next(s, step), post) == Drift(s, post) + ClippedBy(s, step, post) - LostBy(s, step, post)
  {
    SettleDrift(s, step.request, post);
    OneClip(Counter(s, post), s.facts.inflight[step.request].delta);
  }

  lemma StepDrift(s: State, step: Step, post: int)
    requires Inv(s) && Enabled(s, step)
    ensures Drift(Next(s, step), post)
         == Drift(s, post) + ClippedBy(s, step, post) - LostBy(s, step, post) + CorrectedBy(s, step, post)
  {
    match step
    case Flip(request, p, actor) => FlipDrift(s, request, p, actor, post);
    case Emit(request, now) => RequestDrift(s, step, post);
    case Lose(request) => RequestDrift(s, step, post);
    case Direct(request) => RequestDrift(s, step, post);
    case Schedule(tidy) => TidyKeepsBooks(s.redis, tidy);
    case ClaimDelta(p, now, id) => ClaimDrift(s, p, now, id, post);
    case ApplyNext(now) => ApplyDrift(s, now, post);
    case Reconcile(p) =>
    case _ => QuietDrift(s, step, post);
  }

  ghost function Clipped(s: State, steps: seq<Step>, post: int): int
    requires Valid(s, steps)
    decreases |steps|
  {
    if steps == [] then 0 else ClippedBy(s, steps[0], post) + Clipped(Next(s, steps[0]), steps[1..], post)
  }

  ghost function Lost(s: State, steps: seq<Step>, post: int): int
    requires Valid(s, steps)
    decreases |steps|
  {
    if steps == [] then 0 else LostBy(s, steps[0], post) + Lost(Next(s, steps[0]), steps[1..], post)
  }

  ghost function Corrected(s: State, steps: seq<Step>, post: int): int
    requires Valid(s, steps)
    decreases |steps|
  {
    if steps == [] then 0 else CorrectedBy(s, steps[0], post) + Corrected(Next(s, steps[0]), steps[1..], post)
  }

  /**
   * Conservation over every run: the counter, the pending delta, the claimed but unapplied batches and the
   * deltas in flight move together with the fact count, except for what the clamp clipped, what an enqueue
   * error dropped, and what reconciliation rewrote.
   */
  lemma {:induction false} Conservation(s: State, steps: seq<Step>, post: int)
    requires Inv(s) && Valid(s, steps)
    ensures Drift(Run(s, steps), post)
         == Drift(s, post) + Clipped(s, steps, post) - Lost(s, steps, post) + Corrected(s, steps, post)
    decreases |steps|
  {
    if steps != [] {
      StepInv(s, steps[0]);
      StepDrift(s, steps[0], post);
      Conservation(Next(s, steps[0]), steps[1..], post);
    }
  }

  /**
   * The displayed count adds pending and processing_sum to the counter. It exceeds the conserved quantity by
   * exactly the batches that are applied but not cleared.
   */
  lemma SnapshotExcess(s: State, post: int)
    requires Inv(s)
    ensures Counter(s, post) + PendingDelta(s, post) + At(s.redis.processingSum, post)
         == Counter(s, post) + PendingDelta(s, post) + Unapplied(s, post) + Uncleared(s, post)
  {
    SumSplit(s.redis.processing, Of(post), AppliedIds(s.db));
  }

  // ---------------------------------------------------------------------------------------------
  // What passes through the two hashes

  function EnqueuedBy(s: State, step: Step, post: int): int {
    if step.Emit? && step.request in s.facts.inflight && s.facts.inflight[step.request].post == post
    then s.facts.inflight[step.request].delta else 0
  }

  function TakenBy(s: State, step: Step, post: int): int {
    if step.ClaimDelta? && step.post == post && ClaimReplyFor(s.redis, post, step.now).Claimed? then s.redis.delta[post] else 0
  }

  function ClearedBy(s: State, step: Step, post: int): int {
    if step.ClearBatch? && step.id in s.redis.processing && s.redis.processing[step.id].post == post
    then s.redis.processing[step.id].delta else 0
  }

  ghost function Enqueued(s: State, steps: seq<Step>, post: int): int
    requires Valid(s, steps)
    decreases |steps|
  {
    if steps == [] then 0 else EnqueuedBy(s, steps[0], post) + Enqueued(Next(s, steps[0]), steps[1..], post)
  }

  ghost function Taken(s: State, steps: seq<Step>, post: int): int
    requires Valid(s, steps)
    decreases |steps|
  {
    if steps == [] then 0 else TakenBy(s, steps[0], post) + Taken(Next(s, steps[0]), steps[1..], post)
  }

  ghost function Cleared(s: State, steps: seq<Step>, post: int): int
    requires Valid(s, steps)
    decreases |steps|
  {
    if steps == [] then 0 else ClearedBy(s, steps[0], post) + Cleared(Next(s, steps[0]), steps[1..], post)
  }

  lemma StepMoves(s: State, step: Step, post: int)
    requires Enabled(s, step)
    ensures var t := Next(s, step);
      && At(t.redis.delta, post) == At(s.redis.delta, post) + EnqueuedBy(s, step, post) - TakenBy(s, step, post)
      && At(t.redis.processingSum, post)
           == At(s.redis.processingSum, post) + TakenBy(s, step, post) - ClearedBy(s, step, post)
  {
    if step.Schedule? {
      TidyKeepsBooks(s.redis, step.tidy);
    } else if !step.Emit? && !step.ClaimDelta? && !step.ClearBatch? {
      assert Next(s, step).redis == s.redis;
    }
  }

  lemma {:induction false} RunMoves(s: State, steps: seq<Step>, post: int)
    requires Valid(s, steps)
    ensures var t := Run(s, steps);
      && At(t.redis.delta, post) == At(s.redis.delta, post) + Enqueued(s, steps, post) - Taken(s, steps, post)
      && At(t.redis.processingSum, post)
           == At(s.redis.processingSum, post) + Taken(s, steps, post) - Cleared(s, steps, post)
    decreases |steps|
  {
    if steps != [] {
      StepMoves(s, steps[0], post);
      RunMoves(Next(s, steps[0]), steps[1..], post);
    }
  }

  // ---------------------------------------------------------------------------------------------
  // The counter as a function of its updates

  ghost function Updates(s: State, steps: seq<Step>, post: int): seq<int>
    requires Valid(s, steps)
    decreases |steps|
  {
    if steps == [] then [] else UpdatesBy(s, steps[0], post) + Updates(Next(s, steps[0]), steps[1..], post)
  }

  lemma StepCounter(s: State, step: Step, post: int)
    requires Inv(s) && Enabled(s, step) && step != Reconcile(post)
    ensures Counter(Next(s, step), post) == Fold(Counter(s, post), UpdatesBy(s, step, post))
  {
  }

  /** Between reconciliations a counter depends only on the sequence of its updates, through the closed form. */
  lemma {:induction false} CounterIsFold(s: State, steps: seq<Step>, post: int)
    requires Inv(s) && Valid(s, steps) && Reconcile(post) !in steps
    ensures Counter(Run(s, steps), post) == Fold(Counter(s, post), Updates(s, steps, post))
    ensures Counter(s, post) >= 0 ==>
      Counter(Run(s, steps), post)
        == Max(Counter(s, post) + Total(Updates(s, steps, post)), BestSuffix(Updates(s, steps, post)))
    decreases |steps|
  {
    if steps != [] {
      StepInv(s, steps[0]);
      StepCounter(s, steps[0], post);
      CounterIsFold(Next(s, steps[0]), steps[1..], post);
      FoldOfConcat(Counter(s, post), UpdatesBy(s, steps[0], post), Updates(Next(s, steps[0]), steps[1..], post));
    }
    if Counter(s, post) >= 0 {
      FoldIsBestOf(Counter(s, post), Updates(s, steps, post));
    }
  }

  /** What a run adds to a counter before clamping, apart from reconciliations. */
  ghost function AppliedTotal(s: State, steps: seq<Step>, post: int): int
    requires Valid(s, steps)
    decreases |steps|
  {
    if steps == [] then 0
    else Total(UpdatesBy(s, steps[0], post)) + AppliedTotal(Next(s, steps[0]), steps[1..], post)
  }

  lemma {:induction false} CounterMoves(s: State, steps: seq<Step>, post: int)
    requires Inv(s) && Valid(s, steps)
    ensures Counter(Run(s, steps), post)
         == Counter(s, post) + AppliedTotal(s, steps, post) + Clipped(s, steps, post) + Corrected(s, steps, post)
    decreases |steps|
  {
    if steps != [] {
      StepInv(s, steps[0]);
      if steps[0] != Reconcile(post) {
        StepCounter(s, steps[0], post);
      }
      FoldIsTotalPlusClips(Counter(s, post), UpdatesBy(s, steps[0], post));
      CounterMoves(Next(s, steps[0]), steps[1..], post);
    }
  }
}
