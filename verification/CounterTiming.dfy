/** When a pending delta may be claimed, and when it must be. */
module CounterTiming {
  import opened CounterRedis
  import opened CounterPipeline

  // ---------------------------------------------------------------------------------------------
  // Every interleaving of single commands

  /** A post has a dirty_at time exactly while it has a pending delta, and is in the dirty set only then. */
  ghost predicate PendingIsDirty(r: Redis) {
    r.delta.Keys == r.dirtyAt.Keys && r.dirty <= r.dirtyAt.Keys
  }

  lemma StepPendingIsDirty(s: State, step: Step)
    requires PendingIsDirty(s.redis) && Enabled(s, step)
    ensures PendingIsDirty(Next(s, step).redis)
  {
    if step.Schedule? {
      TidyKeepsBooks(s.redis, step.tidy);
    }
  }

  /** In every run, with the scheduling commands cut anywhere, a pending delta has a dirty_at time. */
  lemma {:induction false} RunPendingIsDirty(s: State, steps: seq<Step>)
    requires PendingIsDirty(s.redis) && Valid(s, steps)
    ensures PendingIsDirty(Run(s, steps).redis)
    decreases |steps|
  {
    if steps != [] {
      StepPendingIsDirty(s, steps[0]);
      RunPendingIsDirty(Next(s, steps[0]), steps[1..]);
    }
  }

  /**
   * So the claim script never takes a delta before the quiet period after the last change is over, unless the
   * maximal delay after dirty_since is, however stale the schedule entry was that led to the claim.
   */
  lemma ClaimIsNeverEarly(s: State, steps: seq<Step>, post: int, now: int)
    requires PendingIsDirty(s.redis) && Valid(s, steps)
    requires ClaimReplyFor(Run(s, steps).redis, post, now).Claimed?
    ensures var r := Run(s, steps).redis;
      && post in r.dirtyAt
      && (now >= r.dirtyAt[post] + 5_000
          || now >= (if post in r.dirtySince then r.dirtySince[post] else r.dirtyAt[post]) + 60_000)
  {
    RunPendingIsDirty(s, steps);
  }

  // ---------------------------------------------------------------------------------------------
  // Scheduling calls as single steps

  datatype Op =
    | Touch(post: int, delta: int, now: int)           // the enqueue script
    | Flush(post: int, now: int, id: int)              // the claim script
    | Plan(post: int)                                  // schedulePostCounterFlush
    | Recheck(post: int, now: int)                     // recheckPostCounterReady
    | Retire(id: int)                                  // the clear script

  function PlanFlush(r: Redis, post: int): Redis {
    if post !in r.dirtyAt then
      r.(dirty := r.dirty - {post}, dirtySince := r.dirtySince - {post}, schedule := r.schedule - {post})
    else
      r.(dirtySince := if post in r.dirtySince then r.dirtySince else r.dirtySince[post := r.dirtyAt[post]],
         schedule := r.schedule[post := DueAt(r, post)])
  }

  function RecheckFlush(r: Redis, post: int, now: int): Redis {
    if post !in r.dirtyAt then r.(schedule := r.schedule - {post})
    else if DueAt(r, post) <= now then r
    else r.(schedule := r.schedule[post := DueAt(r, post)])
  }

  /** A dirty post is scheduled for the earlier of its two times, with a first change if it has none; a clean one is forgotten. */
  lemma PlanMeans(r: Redis, post: int)
    ensures var q := PlanFlush(r, post);
      if post in r.dirtyAt then
        var last := r.dirtyAt[post];
        var first := if post in r.dirtySince then r.dirtySince[post] else last;
        && q.schedule == r.schedule[post := if last + 5_000 < first + 60_000 then last + 5_000 else first + 60_000]
        && q.dirtySince == r.dirtySince[post := first]
        && q == r.(schedule := q.schedule, dirtySince := q.dirtySince)
      else
        q == r.(dirty := r.dirty - {post}, dirtySince := r.dirtySince - {post}, schedule := r.schedule - {post})
  {
    assert post in r.dirtySince ==> r.dirtySince[post := r.dirtySince[post]] == r.dirtySince;
  }

  function Do(r: Redis, op: Op): Redis {
    match op
    case Touch(post, delta, now) => Enqueue(r, post, delta, now)
    case Flush(post, now, id) => Claim(r, post, now, id)
    case Plan(post) => PlanFlush(r, post)
    case Recheck(post, now) => RecheckFlush(r, post, now)
    case Retire(id) => Clear(r, id)
  }

  function DoAll(r: Redis, ops: seq<Op>): Redis
    decreases |ops|
  {
    if ops == [] then r else DoAll(Do(r, ops[0]), ops[1..])
  }

  /** The first and the last change of each post since its delta was last taken. */
  datatype Cycle = Cycle(first: map<int, int>, last: map<int, int>)

  function Observe(c: Cycle, r: Redis, op: Op): Cycle {
    match op
    case Touch(post, _, now) =>
      Cycle(if post in c.first then c.first else c.first[post := now], c.last[post := now])
    case Flush(post, now, _) =>
      if ClaimReplyFor(r, post, now).Claimed? then Cycle(c.first - {post}, c.last - {post}) else c
    case _ => c
  }

  function ObserveAll(c: Cycle, r: Redis, ops: seq<Op>): Cycle
    decreases |ops|
  {
    if ops == [] then c else ObserveAll(Observe(c, r, ops[0]), Do(r, ops[0]), ops[1..])
  }

  ghost predicate Tracks(c: Cycle, r: Redis) {
    && r.dirtyAt == c.last
    && r.dirtySince == c.first
    && r.delta.Keys == c.last.Keys == c.first.Keys == r.dirty
  }

  lemma FlushTracks(c: Cycle, r: Redis, post: int, now: int, id: int)
    requires Tracks(c, r)
    ensures Tracks(Observe(c, r, Flush(post, now, id)), Claim(r, post, now, id))
  {
    if ClaimReplyFor(r, post, now).Empty? {
      assert post !in r.dirtyAt && post !in r.dirtySince;
      assert r.dirtyAt - {post} == r.dirtyAt && r.dirtySince - {post} == r.dirtySince && r.dirty - {post} == r.dirty;
    }
  }

  lemma StepTracks(c: Cycle, r: Redis, op: Op)
    requires Tracks(c, r)
    ensures Tracks(Observe(c, r, op), Do(r, op))
  {
    match op
    case Flush(post, now, id) => FlushTracks(c, r, post, now, id);
    case Plan(post) =>
      if post !in r.dirtyAt {
        assert r.dirtySince - {post} == r.dirtySince && r.dirty - {post} == r.dirty;
      }
    case _ =>
  }

  lemma {:induction false} RunTracks(c: Cycle, r: Redis, ops: seq<Op>)
    requires Tracks(c, r)
    ensures Tracks(ObserveAll(c, r, ops), DoAll(r, ops))
    decreases |ops|
  {
    if ops != [] {
      StepTracks(c, r, ops[0]);
      RunTracks(Observe(c, r, ops[0]), Do(r, ops[0]), ops[1..]);
    }
  }

  /**
   * After any history that started with empty keys, a claim takes the delta of a post exactly when the post
   * changed since its last claim and either its last change is 5 s old or its first one is 60 s old.
   */
  lemma ClaimTakesIff(ops: seq<Op>, post: int, now: int)
    ensures var c := ObserveAll(Cycle(map[], map[]), EMPTY_REDIS, ops);
      && c.first.Keys == c.last.Keys
      && (ClaimReplyFor(DoAll(EMPTY_REDIS, ops), post, now).Claimed?
          <==> post in c.last && (now >= c.last[post] + 5_000 || now >= c.first[post] + 60_000))
  {
    RunTracks(Cycle(map[], map[]), EMPTY_REDIS, ops);
  }

  /** And nothing is stranded: the dirty set that the fallback scan samples is the set of posts with a pending delta. */
  lemma AtomicSchedulingStrandsNothing(ops: seq<Op>)
    ensures var r := DoAll(EMPTY_REDIS, ops);
      r.dirty == r.delta.Keys == r.dirtyAt.Keys
  {
    RunTracks(Cycle(map[], map[]), EMPTY_REDIS, ops);
  }

  /** Some call takes the delta of the post. */
  predicate Takes(r: Redis, ops: seq<Op>, post: int)
    decreases |ops|
  {
    ops != [] &&
    ((ops[0].Flush? && ops[0].post == post && ClaimReplyFor(r, post, ops[0].now).Claimed?)
     || Takes(Do(r, ops[0]), ops[1..], post))
  }

  /** However often a post is touched and tried again, it can be claimed 60 s after its first unclaimed change. */
  lemma ClaimableAfterMaxDelay(ops: seq<Op>, more: seq<Op>, post: int, first: int, delta: int, now: int)
    requires post !in ObserveAll(Cycle(map[], map[]), EMPTY_REDIS, ops).last
    requires !Takes(DoAll(EMPTY_REDIS, ops + [Touch(post, delta, first)]), more, post)
    requires now >= first + 60_000
    ensures ClaimReplyFor(DoAll(EMPTY_REDIS, ops + [Touch(post, delta, first)] + more), post, now).Claimed?
  {
    var all := ops + [Touch(post, delta, first)] + more;
    ClaimTakesIff(all, post, now);
    ClaimTakesIff(ops, post, now);
    var c0, r0 := Cycle(map[], map[]), EMPTY_REDIS;
    var prefix := ops + [Touch(post, delta, first)];
    ObserveConcat(c0, r0, ops, [Touch(post, delta, first)]);
    ObserveConcat(c0, r0, prefix, more);
    var c1, r1 := ObserveAll(c0, r0, ops), DoAll(r0, ops);
    var c2, r2 := Observe(c1, r1, Touch(post, delta, first)), Do(r1, Touch(post, delta, first));
    assert [Touch(post, delta, first)][1..] == [];
    assert ObserveAll(c1, r1, [Touch(post, delta, first)]) == c2 && DoAll(r1, [Touch(post, delta, first)]) == r2;
    FirstStays(c2, r2, more, post);
  }

  lemma {:induction false} ObserveConcat(c: Cycle, r: Redis, ops: seq<Op>, more: seq<Op>)
    ensures ObserveAll(c, r, ops + more) == ObserveAll(ObserveAll(c, r, ops), DoAll(r, ops), more)
    ensures DoAll(r, ops + more) == DoAll(DoAll(r, ops), more)
    decreases |ops|
  {
    if ops == [] {
      assert ops + more == more;
    } else {
      assert (ops + more)[1..] == ops[1..] + more;
      ObserveConcat(Observe(c, r, ops[0]), Do(r, ops[0]), ops[1..], more);
    }
  }

  lemma {:induction false} FirstStays(c: Cycle, r: Redis, ops: seq<Op>, post: int)
    requires post in c.first && post in c.last
    requires !Takes(r, ops, post)
    ensures var d := ObserveAll(c, r, ops);
      post in d.first && post in d.last && d.first[post] == c.first[post]
    decreases |ops|
  {
    if ops != [] {
      FirstStays(Observe(c, r, ops[0]), Do(r, ops[0]), ops[1..], post);
    }
  }
}
