/** When overwriting the counter with the fact count is safe. */
module CounterReconcile {
  import opened Tally
  import opened ClampFold
  import opened CounterRedis
  import opened CounterDb
  import opened CounterPipeline
  import opened CounterLedger

  /** Every success batch of the post has left Redis. */
  predicate AllCleared(s: State, post: int) {
    forall id :: id in s.redis.processing && s.redis.processing[id].post == post ==> !Applied(s.db, id)
  }

  /** The guard lets a post through exactly if nothing is pending, its processing deltas cancel, and its rows are all applied. */
  lemma GuardMeans(s: State, post: int)
    ensures ReconcileGuard(s, post)
      <==> && (post in s.redis.delta ==> s.redis.delta[post] == 0)
           && (post in s.redis.processingSum ==> s.redis.processingSum[post] == 0)
           && forall id :: id in s.db.batches && s.db.batches[id].post == post ==> s.db.batches[id].status == Success
  {
  }

  predicate NoneInFlight(s: State, post: int) {
    forall request :: request in s.facts.inflight ==> s.facts.inflight[request].post != post
  }

  /**
   * The guard sees only the sum of the processing deltas: it proves the unapplied batches to be the opposite of
   * the applied but uncleared ones, and each unapplied one to be missing from counter_batch.
   */
  lemma GuardBalances(s: State, post: int)
    requires Inv(s) && ReconcileGuard(s, post)
    ensures PendingDelta(s, post) == 0
    ensures Unapplied(s, post) == -Uncleared(s, post)
    ensures forall id :: id in s.redis.processing && s.redis.processing[id].post == post && !Applied(s.db, id) ==> id !in s.db.batches
  {
    SumSplit(s.redis.processing, Of(post), AppliedIds(s.db));
    forall id | id in s.redis.processing && s.redis.processing[id].post == post && !Applied(s.db, id)
      ensures id !in s.db.batches
    {
      assert s.claims[id].post == post;
    }
  }

  lemma NoneInFlightMeansZero(s: State, post: int)
    requires NoneInFlight(s, post)
    ensures InFlight(s, post) == 0
  {
    assert forall request :: request in s.facts.inflight ==> OfChange(post)(s.facts.inflight[request]) == 0;
    SumOfZeros(s.facts.inflight, OfChange(post));
  }

  lemma ClearedMeansNoneUncleared(s: State, post: int)
    requires AllCleared(s, post)
    ensures Uncleared(s, post) == 0
  {
    var cleared := s.redis.processing - (s.redis.processing.Keys - AppliedIds(s.db));
    forall id | id in cleared ensures Of(post)(cleared[id]) == 0 {
      assert Applied(s.db, id);
    }
    SumOfZeros(cleared, Of(post));
  }

  /**
   * After an overwrite the counter is the fact count, and what it will drift by is what was in flight minus
   * what was applied but not cleared: the guard is sound exactly when these two agree.
   */
  lemma ReconcileSafeIff(s: State, post: int)
    requires Inv(s) && ReconcileGuard(s, post)
    ensures Counter(Next(s, Reconcile(post)), post) == FactCount(s.facts, post)
    ensures Drift(Next(s, Reconcile(post)), post) == InFlight(s, post) - Uncleared(s, post)
    ensures Drift(Next(s, Reconcile(post)), post) == 0 <==> InFlight(s, post) == Uncleared(s, post)
  {
    GuardBalances(s, post);
  }

  /** With every success batch cleared and no request in flight, reconciliation is exact and idempotent. */
  lemma ReconcileSafe(s: State, post: int)
    requires Inv(s) && ReconcileGuard(s, post) && AllCleared(s, post) && NoneInFlight(s, post)
    ensures var t := Next(s, Reconcile(post));
      && Counter(t, post) == FactCount(t.facts, post)
      && Drift(t, post) == 0
      && PendingDelta(t, post) + Unapplied(t, post) + InFlight(t, post) == 0
      && ReconcileGuard(t, post)
      && Next(t, Reconcile(post)) == t
    ensures forall other :: other != post ==>
      Drift(Next(s, Reconcile(post)), other) == Drift(s, other)
  {
    ReconcileSafeIff(s, post);
    GuardBalances(s, post);
    ClearedMeansNoneUncleared(s, post);
    NoneInFlightMeansZero(s, post);
    forall other | other != post ensures Drift(Next(s, Reconcile(post)), other) == Drift(s, other) {
      StepDrift(s, Reconcile(post), other);
    }
  }

  // ---------------------------------------------------------------------------------------------
  // Where the guard is not enough

  /** One post with one active student and a settled counter. */
  const START := Fresh(Facts(map[7 := {9}], map[]), map[7 := 1])

  /** Student 1 likes; the batch is applied, but its clear script never runs. */
  const LIKE := [
    Flip(100, 7, 1), Emit(100, 0), ClaimDelta(7, 5_000, 1),
    InsertRow(1, 5_000), Scan([Task(1, Batch(7, 1))], 5_000), ApplyNext(5_000)]

  const LIKED := State(
    Facts(map[7 := {9, 1}], map[]),
    Redis(map[], {}, map[], map[], map[], map[1 := Batch(7, 1)], map[7 := 1], {1}),
    Database(map[1 := Row(7, 1, Success, 5_000)], map[7 := 2]),
    map[1 := Batch(7, 1)],
    Worker([], []))

  /** Student 1 unlikes; the batch is claimed, but not inserted yet. */
  const UNLIKE := [Flip(101, 7, 1), Emit(101, 10_000), ClaimDelta(7, 15_000, 2)]

  const CANCELLED := State(
    Facts(map[7 := {9}], map[]),
    Redis(map[], {}, map[], map[], map[], map[1 := Batch(7, 1), 2 := Batch(7, -1)], map[7 := 0], {1, 2}),
    Database(map[1 := Row(7, 1, Success, 5_000)], map[7 := 2]),
    map[1 := Batch(7, 1), 2 := Batch(7, -1)],
    Worker([], []))

  lemma LikeClaimed()
    ensures Valid(START, LIKE[..3])
    ensures Run(START, LIKE[..3]) == LIKED.(
      redis := LIKED.redis, db := Database(map[], map[7 := 1]))
  {
    var s1 := Next(START, LIKE[0]);
    assert ActiveIn(START.facts, 7) == {9} && {9} + {1} == {9, 1};
    assert s1.facts.active == map[7 := {9, 1}];
    var s2 := Next(s1, LIKE[1]);
    var s3 := Next(s2, LIKE[2]);
    assert s3.redis.delta == map[] && s3.redis.dirty == {} && s3.redis.schedule == map[];
    assert s3.redis.dirtyAt == map[] && s3.redis.dirtySince == map[];
    assert s3.redis.processing == map[1 := Batch(7, 1)];
    assert s3.redis.processingSum == map[7 := 1];
    assert s3.redis.processingIds == {1};
    assert s3.redis == LIKED.redis;
    Unroll(START, LIKE[..3], [START, s1, s2, s3]);
  }

  lemma LikeApplied()
    ensures var s := LIKED.(db := Database(map[], map[7 := 1]));
      Valid(s, LIKE[3..]) && Run(s, LIKE[3..]) == LIKED
  {
    var s := LIKED.(db := Database(map[], map[7 := 1]));
    var s1 := Next(s, LIKE[3]);
    var s2 := Next(s1, LIKE[4]);
    var s3 := Next(s2, LIKE[5]);
    assert s3.db.batches == LIKED.db.batches && s3.db.counter == LIKED.db.counter;
    assert LIKE[3..] == [LIKE[3], LIKE[4], LIKE[5]];
    Unroll(s, LIKE[3..], [s, s1, s2, s3]);
  }

  lemma UnlikeRecorded()
    ensures Valid(LIKED, UNLIKE[..2])
    ensures Run(LIKED, UNLIKE[..2]) == LIKED.(
      facts := CANCELLED.facts,
      redis := LIKED.redis.(delta := map[7 := -1], dirty := {7}, dirtyAt := map[7 := 10_000], dirtySince := map[7 := 10_000]))
  {
    var s1 := Next(LIKED, UNLIKE[0]);
    assert s1.facts.active == map[7 := {9}] by {
      assert {9, 1} - {1} == {9};
    }
    var s2 := Next(s1, UNLIKE[1]);
    assert s2.redis.dirty == {7};
    assert s2.facts.inflight == map[];
    Unroll(LIKED, UNLIKE[..2], [LIKED, s1, s2]);
  }

  lemma UnlikeClaimed()
    ensures Valid(LIKED, UNLIKE) && Run(LIKED, UNLIKE) == CANCELLED
  {
    UnlikeRecorded();
    var s2 := Run(LIKED, UNLIKE[..2]);
    var s3 := Next(s2, UNLIKE[2]);
    assert s3.redis.delta == map[] && s3.redis.dirty == {} && s3.redis.schedule == map[];
    assert s3.redis.dirtyAt == map[] && s3.redis.dirtySince == map[];
    assert s3.redis.processing == CANCELLED.redis.processing;
    assert s3.redis == CANCELLED.redis;
    Unroll(s2, UNLIKE[2..], [s2, s3]);
    assert UNLIKE == UNLIKE[..2] + UNLIKE[2..];
    RunConcat(LIKED, UNLIKE[..2], UNLIKE[2..]);
  }

  /** The cancelling state is reachable. */
  lemma CancellingRun()
    ensures Valid(START, LIKE + UNLIKE) && Run(START, LIKE + UNLIKE) == CANCELLED
  {
    LikeClaimed();
    LikeApplied();
    assert LIKE == LIKE[..3] + LIKE[3..];
    RunConcat(START, LIKE[..3], LIKE[3..]);
    UnlikeClaimed();
    RunConcat(START, LIKE, UNLIKE);
  }

  lemma CancelledInv()
    ensures Inv(CANCELLED)
  {
    FreshInv(START.facts, START.db.counter);
    CancellingRun();
    RunInv(START, LIKE + UNLIKE);
  }

  lemma CancelledBooks()
    ensures InFlight(CANCELLED, 7) == 0 && Uncleared(CANCELLED, 7) == 1
  {
    var s := CANCELLED;
    assert AppliedIds(s.db) == {1};
    assert s.redis.processing - (s.redis.processing.Keys - AppliedIds(s.db)) == map[][1 := Batch(7, 1)];
    SumWith<int, Batch>(map[], Of(7), 1, Batch(7, 1));
  }

  /** The guard accepts the cancelling state, nothing is in flight, and the overwrite leaves the counter one off. */
  lemma GuardAloneIsNotSafe()
    ensures Valid(START, LIKE + UNLIKE)
    ensures var s := Run(START, LIKE + UNLIKE);
      ReconcileGuard(s, 7) && NoneInFlight(s, 7) && Drift(Next(s, Reconcile(7)), 7) == -1
  {
    CancellingRun();
    CancelledInv();
    CancelledBooks();
    ReconcileSafeIff(CANCELLED, 7);
  }

  /**
   * The guard, the count and the overwrite are separate statements. A like that is recorded between the
   * guard and the count is counted by the overwrite and once more by its delta.
   */
  lemma OverwriteRace(s: State, request: int, post: int, actor: int, now: int)
    requires Inv(s) && Drift(s, post) == 0 && ReconcileGuard(s, post) && AllCleared(s, post) && NoneInFlight(s, post)
    requires request !in s.facts.inflight && actor !in ActiveIn(s.facts, post)
    ensures var t := Next(Next(s, Flip(request, post, actor)), Emit(request, now));
      var count := FactCount(t.facts, post);
      Drift(t.(db := t.db.(counter := t.db.counter[post := count])), post) == 1
  {
    var u := Next(s, Flip(request, post, actor));
    var t := Next(u, Emit(request, now));
    StepInv(s, Flip(request, post, actor));
    StepDrift(s, Flip(request, post, actor), post);
    StepDrift(u, Emit(request, now), post);
    GuardBalances(s, post);
    ClearedMeansNoneUncleared(s, post);
    NoneInFlightMeansZero(s, post);
    assert t.facts.inflight == s.facts.inflight;
  }

  // ---------------------------------------------------------------------------------------------
  // Guard, count and overwrite as three statements

  /** The overwrite with a count that was taken earlier. */
  function Overwritten(s: State, post: int, count: int): State {
    s.(db := s.db.(counter := s.db.counter[post := count]))
  }

  /**
   * The pending delta was zero in s, the processing sum after the run `reading`, the facts were counted after the
   * run `before`, and the counter is overwritten after the run `between`. Whatever these runs do, the drift
   * afterwards is what was in flight and not cleared at the first read, plus what was cleared and not claimed
   * between the two reads, plus the change of the facts before the count, minus all that was added to the counter
   * or lost on the way. The statements are safe exactly when that balances.
   */
  lemma LateOverwriteIff(s: State, reading: seq<Step>, before: seq<Step>, between: seq<Step>, post: int)
    requires Inv(s) && Valid(s, reading) && Valid(Run(s, reading), before) && Valid(Run(Run(s, reading), before), between)
    requires PendingDelta(s, post) == 0 && At(Run(s, reading).redis.processingSum, post) == 0
    ensures var v := Run(s, reading);
      var u := Run(v, before);
      var w := Overwritten(Run(u, between), post, FactCount(u.facts, post));
      var open := InFlight(s, post) - Uncleared(s, post) + Cleared(s, reading, post) - Taken(s, reading, post);
      var flipped := FactCount(u.facts, post) - FactCount(s.facts, post);
      var added := AppliedTotal(s, reading, post) + AppliedTotal(v, before, post) + AppliedTotal(u, between, post);
      var lost := Lost(s, reading, post) + Lost(v, before, post) + Lost(u, between, post);
      && Drift(w, post) == open + flipped - added - lost
      && (Drift(w, post) == 0 <==> open + flipped == added + lost)
  {
    var v := Run(s, reading);
    var u := Run(v, before);
    RunInv(s, reading);
    RunInv(v, before);
    SumSplit(s.redis.processing, Of(post), AppliedIds(s.db));
    RunMoves(s, reading, post);
    DriftMoves(s, reading, post);
    DriftMoves(v, before, post);
    DriftMoves(u, between, post);
  }

  /** Drift and counter together move only by what is applied and lost. */
  lemma DriftMoves(s: State, steps: seq<Step>, post: int)
    requires Inv(s) && Valid(s, steps)
    ensures var t := Run(s, steps);
      Drift(t, post) - Counter(t, post) == Drift(s, post) - Counter(s, post) - AppliedTotal(s, steps, post) - Lost(s, steps, post)
  {
    Conservation(s, steps, post);
    CounterMoves(s, steps, post);
  }

  ghost predicate LeavesCounter(s: State, steps: seq<Step>, post: int)
    requires Valid(s, steps)
    decreases |steps|
  {
    steps == [] || (UpdatesBy(s, steps[0], post) == [] && LeavesCounter(Next(s, steps[0]), steps[1..], post))
  }

  lemma {:induction false} NothingApplied(s: State, steps: seq<Step>, post: int)
    requires Valid(s, steps) && LeavesCounter(s, steps, post)
    ensures AppliedTotal(s, steps, post) == 0
    decreases |steps|
  {
    if steps != [] {
      NothingApplied(Next(s, steps[0]), steps[1..], post);
    }
  }

  predicate FlipsPost(step: Step, post: int) {
    step.Flip? && step.post == post
  }

  lemma StepKeepsFacts(s: State, step: Step, post: int)
    requires Enabled(s, step) && NoneInFlight(s, post) && !FlipsPost(step, post)
    ensures var t := Next(s, step);
      NoneInFlight(t, post) && ActiveIn(t.facts, post) == ActiveIn(s.facts, post) && LostBy(s, step, post) == 0
  {
  }

  lemma {:induction false} NothingFlips(s: State, steps: seq<Step>, post: int)
    requires Valid(s, steps) && NoneInFlight(s, post)
    requires forall i :: 0 <= i < |steps| ==> !FlipsPost(steps[i], post)
    ensures FactCount(Run(s, steps).facts, post) == FactCount(s.facts, post) && Lost(s, steps, post) == 0
    decreases |steps|
  {
    if steps != [] {
      StepKeepsFacts(s, steps[0], post);
      NothingFlips(Next(s, steps[0]), steps[1..], post);
    }
  }

  /**
   * So from a guarded and cleared state the three statements are as good as one, if no row of the post flips before
   * the count and its counter is not updated before the overwrite: all they do not repair is what is lost after them.
   */
  lemma LateOverwriteIsSafe(s: State, before: seq<Step>, between: seq<Step>, post: int)
    requires Inv(s) && ReconcileGuard(s, post) && AllCleared(s, post) && NoneInFlight(s, post)
    requires Valid(s, before) && Valid(Run(s, before), between)
    requires forall i :: 0 <= i < |before| ==> !FlipsPost(before[i], post)
    requires LeavesCounter(s, before, post) && LeavesCounter(Run(s, before), between, post)
    ensures var u := Run(s, before);
      Drift(Overwritten(Run(u, between), post, FactCount(u.facts, post)), post) == -Lost(u, between, post)
  {
    LateOverwriteIff(s, [], before, between, post);
    NoneInFlightMeansZero(s, post);
    ClearedMeansNoneUncleared(s, post);
    NothingFlips(s, before, post);
    NothingApplied(s, before, post);
    NothingApplied(Run(s, before), between, post);
  }
}
