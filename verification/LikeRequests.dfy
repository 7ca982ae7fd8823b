/**
 * Like and unlike requests: a lock that may be lost, a status cache that may be stale, a write that is retried,
 * and an enqueue that may fail, interleaved over any number of requests.
 */
module LikeRequests {
  import opened Tally
  import opened CounterPipeline
  import opened CounterLedger
  import opened CounterOrder

  datatype Action = Like | Unlike

  datatype Key = Key(post: int, student: int)

  /** Where a request stands. */
  datatype Phase =
    | Locking                         // waiting for SETNX
    | Checking                        // about to read the status cache
    | Writing(attempt: nat)           // about to run its SQL statement
    | Caching(changed: bool)          // SQL committed, status cache not written yet
    | Recording                       // about to enqueue its delta
    | Unlocking
    | Done

  datatype Request = Request(action: Action, key: Key, phase: Phase)

  datatype Likes = Likes(
    facts: Facts,                     // post_like rows with status 1, and the deltas of flipped rows
    cache: map<Key, bool>,            // the status cache, however stale
    locks: map<Key, int>,             // lock:post_like:*, by the request whose token it holds
    requests: map<int, Request>)

  datatype Outcome = Committed | Conflict | Fatal

  datatype LikeStep =
    | Arrive(id: int, action: Action, key: Key)
    | Lock(id: int)
    | LockError(id: int)              // Redis fails: go on without the lock
    | LockBusy(id: int)
    | CheckCache(id: int, reachable: bool)
    | Write(id: int, outcome: Outcome)
    | CacheStatus(id: int, reachable: bool)
    | Record(id: int, recorded: bool)
    | Unlock(id: int)
    | Die(id: int)                    // the process goes away, its lock stays
    | LockExpires(key: Key)
    | CacheExpires(key: Key)

  const MAX_ATTEMPTS := 5

  predicate At(l: Likes, id: int, phase: Phase) {
    id in l.requests && l.requests[id].phase == phase
  }

  predicate StepEnabled(l: Likes, step: LikeStep) {
    match step
    case Arrive(id, _, _) => id !in l.requests && id !in l.facts.inflight
    case Lock(id) => At(l, id, Locking) && l.requests[id].key !in l.locks
    case LockError(id) => At(l, id, Locking)
    case LockBusy(id) => At(l, id, Locking)
    case CheckCache(id, _) => At(l, id, Checking)
    case Write(id, _) => id in l.requests && l.requests[id].phase.Writing?
    case CacheStatus(id, _) => id in l.requests && l.requests[id].phase.Caching?
    case Record(id, _) => At(l, id, Recording)
    case Unlock(id) => At(l, id, Unlocking)
    case Die(id) => id in l.requests
    case LockExpires(_) => true
    case CacheExpires(_) => true
  }

  function Move(l: Likes, id: int, phase: Phase): Likes
    requires id in l.requests
  {
    l.(requests := l.requests[id := l.requests[id].(phase := phase)])
  }

  /** Whether the SQL statement of the request affects its row. */
  predicate Flips(l: Likes, id: int)
    requires id in l.requests
  {
    var r := l.requests[id];
    r.action.Like? <==> r.key.student !in ActiveIn(l.facts, r.key.post)
  }

  function StepNext(l: Likes, step: LikeStep): Likes
    requires StepEnabled(l, step)
  {
    match step
    case Arrive(id, action, key) => l.(requests := l.requests[id := Request(action, key, Locking)])
    case Lock(id) => Move(l.(locks := l.locks[l.requests[id].key := id]), id, Checking)
    case LockError(id) => Move(l, id, Checking)
    case LockBusy(id) => Move(l, id, Done)
    case CheckCache(id, reachable) =>
      var r := l.requests[id];
      if reachable && r.key in l.cache && l.cache[r.key] == r.action.Like? then Move(l, id, Unlocking)
      else Move(l, id, Writing(1))
    case Write(id, outcome) =>
      var r := l.requests[id];
      (match outcome
       case Committed =>
         if Flips(l, id) then
           Move(l.(facts := FlipFacts(l.facts, id, r.key.post, r.key.student)), id, Caching(true))
         else Move(l, id, Caching(false))
       case Conflict =>
         Move(l, id, if r.phase.attempt < MAX_ATTEMPTS then Writing(r.phase.attempt + 1) else Unlocking)
       case Fatal => Move(l, id, Unlocking))
    case CacheStatus(id, reachable) =>
      var r := l.requests[id];
      Move(if reachable then l.(cache := l.cache[r.key := r.action.Like?]) else l, id,
           if r.phase.changed then Recording else Unlocking)
    case Record(id, _) => Move(l.(facts := Settle(l.facts, id)), id, Unlocking)
    case Unlock(id) =>
      var key := l.requests[id].key;
      Move(if key in l.locks && l.locks[key] == id then l.(locks := l.locks - {key}) else l, id, Done)
    case Die(id) => Move(l.(facts := Settle(l.facts, id)), id, Done)
    case LockExpires(key) => l.(locks := l.locks - {key})
    case CacheExpires(key) => l.(cache := l.cache - {key})
  }

  ghost predicate ValidLikes(l: Likes, steps: seq<LikeStep>)
    decreases |steps|
  {
    steps == [] || (StepEnabled(l, steps[0]) && ValidLikes(StepNext(l, steps[0]), steps[1..]))
  }

  ghost function RunLikes(l: Likes, steps: seq<LikeStep>): Likes
    requires ValidLikes(l, steps)
    decreases |steps|
  {
    if steps == [] then l else RunLikes(StepNext(l, steps[0]), steps[1..])
  }

  // ---------------------------------------------------------------------------------------------
  // Deltas agree with facts

  /** The request flipped its row, and its delta is not out yet. */
  predicate Owes(l: Likes, id: int) {
    At(l, id, Caching(true)) || At(l, id, Recording)
  }

  ghost predicate DebtInv(l: Likes) {
    && (forall id :: id in l.facts.inflight <==> Owes(l, id))
    && (forall id :: id in l.facts.inflight ==>
      && l.facts.inflight[id].post == l.requests[id].key.post
      && l.facts.inflight[id].actor == l.requests[id].key.student
      && l.facts.inflight[id].delta == if l.requests[id].action.Like? then 1 else -1)
  }

  /** Only one request moves, and neither its debt nor what it is about changes. */
  predicate SameDebt(l: Likes, m: Likes, id: int) {
    && m.facts.inflight == l.facts.inflight
    && id in m.requests && m.requests == l.requests[id := m.requests[id]]
    && Owes(m, id) == Owes(l, id)
    && (id in l.requests ==> m.requests[id].key == l.requests[id].key && m.requests[id].action == l.requests[id].action)
  }

  lemma KeepDebt(l: Likes, m: Likes, id: int)
    requires DebtInv(l) && SameDebt(l, m, id)
    ensures DebtInv(m)
  {
    assert forall r :: r != id ==> Owes(m, r) == Owes(l, r);
  }

  lemma FlipDebt(l: Likes, id: int)
    requires DebtInv(l) && id in l.requests && l.requests[id].phase.Writing? && Flips(l, id)
    ensures DebtInv(Move(l.(facts := FlipFacts(l.facts, id, l.requests[id].key.post, l.requests[id].key.student)), id, Caching(true)))
  {
  }

  lemma SettleDebt(l: Likes, id: int, phase: Phase)
    requires DebtInv(l) && id in l.requests && (phase.Unlocking? || phase.Done?)
    ensures DebtInv(Move(l.(facts := Settle(l.facts, id)), id, phase))
  {
  }

  lemma StepDebt(l: Likes, step: LikeStep)
    requires DebtInv(l) && StepEnabled(l, step)
    ensures DebtInv(StepNext(l, step))
  {
    if step.LockExpires? || step.CacheExpires? {
      assert StepNext(l, step).facts == l.facts && StepNext(l, step).requests == l.requests;
      assert forall r :: Owes(StepNext(l, step), r) == Owes(l, r);
    } else if step.Record? {
      SettleDebt(l, step.id, Unlocking);
    } else if step.Die? {
      SettleDebt(l, step.id, Done);
    } else if step.Write? && step.outcome.Committed? && Flips(l, step.id) {
      FlipDebt(l, step.id);
    } else {
      KeepDebt(l, StepNext(l, step), step.id);
    }
  }

  /** A step changes the facts by a flip, by letting go of a delta, or not at all. */
  lemma StepFacts(l: Likes, step: LikeStep)
    requires StepEnabled(l, step)
    ensures StepNext(l, step).facts
         == if step.Write? && step.outcome.Committed? && Flips(l, step.id) then
              FlipFacts(l.facts, step.id, l.requests[step.id].key.post, l.requests[step.id].key.student)
            else if step.Record? || step.Die? then Settle(l.facts, step.id)
            else l.facts
  {
  }

  /** The deltas a step leaves in flight no more: recorded, or dropped. */
  function ReleasedBy(l: Likes, step: LikeStep, post: int, recorded: bool): int {
    if && (if recorded then step.Record? && step.recorded else (step.Record? && !step.recorded) || step.Die?)
       && step.id in l.facts.inflight && l.facts.inflight[step.id].post == post
    then l.facts.inflight[step.id].delta
    else 0
  }

  ghost function Released(l: Likes, steps: seq<LikeStep>, post: int, recorded: bool): int
    requires ValidLikes(l, steps)
    decreases |steps|
  {
    if steps == [] then 0
    else ReleasedBy(l, steps[0], post, recorded) + Released(StepNext(l, steps[0]), steps[1..], post, recorded)
  }

  ghost function Owed(l: Likes, post: int): int {
    Sum(l.facts.inflight, OfChange(post))
  }

  lemma StepAgrees(l: Likes, step: LikeStep, post: int)
    requires DebtInv(l) && StepEnabled(l, step)
    ensures Owed(StepNext(l, step), post) - FactCount(StepNext(l, step).facts, post)
         == Owed(l, post) - FactCount(l.facts, post) - ReleasedBy(l, step, post, true) - ReleasedBy(l, step, post, false)
  {
    StepFacts(l, step);
    if step.Write? && step.outcome.Committed? && Flips(l, step.id) {
      FlipOwes(l.facts, step.id, l.requests[step.id].key.post, l.requests[step.id].key.student, post);
    } else if step.Record? || step.Die? {
      SettleOwes(l.facts, step.id, post);
    }
  }

  lemma FlipOwes(f: Facts, id: int, p: int, actor: int, post: int)
    requires id !in f.inflight
    ensures var g := FlipFacts(f, id, p, actor);
      Sum(g.inflight, OfChange(post)) - FactCount(g, post) == Sum(f.inflight, OfChange(post)) - FactCount(f, post)
  {
    SumWith(f.inflight, OfChange(post), id, FlipFacts(f, id, p, actor).inflight[id]);
  }

  lemma SettleOwes(f: Facts, id: int, post: int)
    ensures Sum(Settle(f, id).inflight, OfChange(post))
         == Sum(f.inflight, OfChange(post)) - if id in f.inflight then OfChange(post)(f.inflight[id]) else 0
  {
    if id in f.inflight {
      SumWithout(f.inflight, OfChange(post), id);
    } else {
      assert Settle(f, id).inflight == f.inflight;
    }
  }

  /**
   * Over any interleaving, with stale caches, lost locks and retries: the recorded deltas, those in flight and
   * those dropped add up to the change of the number of active rows.
   */
  lemma {:induction false} LikesAgree(l: Likes, steps: seq<LikeStep>, post: int)
    requires DebtInv(l) && ValidLikes(l, steps)
    ensures var m := RunLikes(l, steps);
      && DebtInv(m)
      && Released(l, steps, post, true) + Released(l, steps, post, false) + Owed(m, post) - Owed(l, post)
           == FactCount(m.facts, post) - FactCount(l.facts, post)
    decreases |steps|
  {
    if steps != [] {
      StepDebt(l, steps[0]);
      StepAgrees(l, steps[0], post);
      LikesAgree(StepNext(l, steps[0]), steps[1..], post);
    }
  }

  predicate FlipsRow(l: Likes, step: LikeStep, id: int) {
    step == Write(id, Committed) && StepEnabled(l, step) && Flips(l, id)
  }

  predicate Emits(l: Likes, step: LikeStep, id: int) {
    (step.Record? || step.Die?) && step.id == id && id in l.facts.inflight
  }

  ghost function FlipCount(l: Likes, steps: seq<LikeStep>, id: int): nat
    requires ValidLikes(l, steps)
    decreases |steps|
  {
    if steps == [] then 0
    else (if FlipsRow(l, steps[0], id) then 1 else 0) + FlipCount(StepNext(l, steps[0]), steps[1..], id)
  }

  ghost function EmitCount(l: Likes, steps: seq<LikeStep>, id: int): nat
    requires ValidLikes(l, steps)
    decreases |steps|
  {
    if steps == [] then 0
    else (if Emits(l, steps[0], id) then 1 else 0) + EmitCount(StepNext(l, steps[0]), steps[1..], id)
  }

  predicate BeforeWrite(l: Likes, id: int) {
    id !in l.requests || At(l, id, Locking) || At(l, id, Checking) || l.requests[id].phase.Writing?
  }

  /**
   * A call flips its row at most once, however often its write is retried, and lets go of one delta, recorded
   * or dropped, exactly when it did flip it.
   */
  lemma {:induction false} OneDeltaPerFlip(l: Likes, steps: seq<LikeStep>, id: int)
    requires DebtInv(l) && ValidLikes(l, steps)
    ensures FlipCount(l, steps, id) <= if BeforeWrite(l, id) then 1 else 0
    ensures EmitCount(l, steps, id) + (if Owes(RunLikes(l, steps), id) then 1 else 0)
         == FlipCount(l, steps, id) + (if Owes(l, id) then 1 else 0)
    decreases |steps|
  {
    if steps != [] {
      var m := StepNext(l, steps[0]);
      StepDebt(l, steps[0]);
      OneDeltaPerFlip(m, steps[1..], id);
      FlipEndsWriting(l, steps[0], id);
      FlipMakesDebt(l, steps[0], id);
    }
  }

  lemma FlipEndsWriting(l: Likes, step: LikeStep, id: int)
    requires StepEnabled(l, step)
    ensures var m := StepNext(l, step);
      if FlipsRow(l, step, id) then BeforeWrite(l, id) && !BeforeWrite(m, id)
      else BeforeWrite(m, id) ==> BeforeWrite(l, id)
  {
  }

  lemma FlipMakesDebt(l: Likes, step: LikeStep, id: int)
    requires DebtInv(l) && StepEnabled(l, step)
    ensures (if Emits(l, step, id) then 1 else 0) + (if Owes(StepNext(l, step), id) then 1 else 0)
         == (if FlipsRow(l, step, id) then 1 else 0) + (if Owes(l, id) then 1 else 0)
  {
    StepDebt(l, step);
    StepFacts(l, step);
  }

  // ---------------------------------------------------------------------------------------------
  // What the lock is for

  /** The request is between taking and releasing the lock. */
  predicate Inside(l: Likes, id: int) {
    id in l.requests && !l.requests[id].phase.Locking? && !l.requests[id].phase.Done?
  }

  /** The lock is never bypassed, and never expires under its holder; no holder dies. */
  predicate Locked(l: Likes, step: LikeStep) {
    && StepEnabled(l, step)
    && !step.LockError?
    && (step.Die? ==> !Inside(l, step.id))
    && (step.LockExpires? ==> step.key in l.locks ==> !Inside(l, l.locks[step.key]))
  }

  ghost predicate LockInv(l: Likes) {
    forall id :: Inside(l, id) ==> l.requests[id].key in l.locks && l.locks[l.requests[id].key] == id
  }

  lemma StepLock(l: Likes, step: LikeStep)
    requires LockInv(l) && Locked(l, step)
    ensures LockInv(StepNext(l, step))
  {
  }

  /** With the lock held, no other delta of the same student and post is in flight when a row flips. */
  lemma LockedFlipIsAlone(l: Likes, step: LikeStep)
    requires DebtInv(l) && LockInv(l) && Locked(l, step) && step.Write?
    ensures var key := l.requests[step.id].key;
      Alone(l.facts, key.post, key.student)
  {
  }

  // ---------------------------------------------------------------------------------------------
  // End to end

  /** What a like step is to the pipeline: a flip, an enqueue, a lost delta, or nothing. */
  function Lift(l: Likes, step: LikeStep, now: int): seq<Step>
    requires StepEnabled(l, step)
  {
    match step
    case Write(id, Committed) =>
      if Flips(l, id) then [Flip(id, l.requests[id].key.post, l.requests[id].key.student)] else []
    case Record(id, recorded) => if recorded then [Emit(id, now)] else [Lose(id)]
    case Die(id) => if id in l.facts.inflight then [Lose(id)] else []
    case _ => []
  }

  /** Every like step is a run of the pipeline with the same effect on the facts. */
  lemma LiftRefines(l: Likes, s: State, step: LikeStep, now: int)
    requires DebtInv(l) && StepEnabled(l, step) && s.facts == l.facts
    ensures Valid(s, Lift(l, step, now))
    ensures Run(s, Lift(l, step, now)).facts == StepNext(l, step).facts
  {
  }

  /** Request steps and pipeline steps, interleaved. */
  datatype Act = Front(like: LikeStep, now: int) | Back(step: Step)

  /** Requests hold their lock and record their delta; batches apply in claim order; only settled posts reconcile. */
  predicate Allowed(l: Likes, t: Trace, act: Act) {
    match act
    case Front(like, now) => Locked(l, like) && (like.Record? ==> like.recorded) && !like.Die?
    case Back(step) => InOrder(t, step) && !step.Flip? && !step.Emit?
  }

  function ActSteps(l: Likes, act: Act): seq<Step>
    requires act.Front? ==> StepEnabled(l, act.like)
  {
    if act.Front? then Lift(l, act.like, act.now) else [act.step]
  }

  function ActLikes(l: Likes, act: Act): Likes
    requires act.Front? ==> StepEnabled(l, act.like)
  {
    if act.Front? then StepNext(l, act.like) else l
  }

  ghost predicate Together(l: Likes, t: Trace) {
    && DebtInv(l) && LockInv(l) && TraceInv(t) && t.state.facts == l.facts
    && (forall post :: Drift(t.state, post) == 0)
  }

  /** The pipeline after an act; ActAdvances shows that what an act lifts to is always in order. */
  function Following(l: Likes, t: Trace, act: Act): Trace
    requires act.Front? ==> StepEnabled(l, act.like)
  {
    var steps := ActSteps(l, act);
    if steps != [] && InOrder(t, steps[0]) then Advance(t, steps[0]) else t
  }

  lemma FrontAdvances(l: Likes, t: Trace, like: LikeStep, now: int)
    requires Together(l, t) && Allowed(l, t, Front(like, now))
    ensures var steps := Lift(l, like, now);
      && |steps| <= 1
      && DebtInv(StepNext(l, like)) && LockInv(StepNext(l, like))
      && (if steps == [] then StepNext(l, like).facts == l.facts
          else InOrder(t, steps[0]) && Next(t.state, steps[0]).facts == StepNext(l, like).facts)
  {
    StepDebt(l, like);
    StepLock(l, like);
    StepFacts(l, like);
    if like.Write? {
      LockedFlipIsAlone(l, like);
    }
  }

  lemma BackKeepsFacts(s: State, step: Step)
    requires Enabled(s, step) && !step.Flip? && !step.Emit? && !step.Lose? && !step.Direct?
    ensures Next(s, step).facts == s.facts
  {
  }

  lemma OrderedStepStays(t: Trace, step: Step)
    requires TraceInv(t) && InOrder(t, step) && forall post :: Drift(t.state, post) == 0
    ensures TraceInv(Advance(t, step)) && Advance(t, step).state == Next(t.state, step)
    ensures forall post :: Drift(Next(t.state, step), post) == 0
  {
    StepTrace(t, step);
    forall post ensures Drift(Next(t.state, step), post) == 0 {
      OrderedStepKeepsDrift(t, step, post);
    }
  }

  /** A locked, recorded like step is an ordered step of the pipeline, so both advance together. */
  lemma ActAdvances(l: Likes, t: Trace, act: Act)
    requires Together(l, t) && Allowed(l, t, act)
    ensures var steps := ActSteps(l, act);
      && |steps| <= 1
      && (steps != [] ==> InOrder(t, steps[0]))
      && Together(ActLikes(l, act), Following(l, t, act))
  {
    if act.Front? {
      FrontAdvances(l, t, act.like, act.now);
    } else {
      BackKeepsFacts(t.state, act.step);
    }
    var steps := ActSteps(l, act);
    if steps != [] {
      OrderedStepStays(t, steps[0]);
    }
  }

  ghost predicate AllowedRun(l: Likes, t: Trace, acts: seq<Act>)
    decreases |acts|
  {
    acts == [] ||
    (&& Allowed(l, t, acts[0])
     && AllowedRun(ActLikes(l, acts[0]), Following(l, t, acts[0]), acts[1..]))
  }

  /** The likes and the pipeline after a run. */
  ghost function Final(l: Likes, t: Trace, acts: seq<Act>): (Likes, State)
    requires AllowedRun(l, t, acts)
    decreases |acts|
  {
    if acts == [] then (l, t.state)
    else Final(ActLikes(l, acts[0]), Following(l, t, acts[0]), acts[1..])
  }

  lemma {:induction false} TogetherStays(l: Likes, t: Trace, acts: seq<Act>, post: int)
    requires Together(l, t) && AllowedRun(l, t, acts)
    ensures var (m, s) := Final(l, t, acts);
      s.facts == m.facts && Drift(s, post) == 0
    decreases |acts|
  {
    if acts != [] {
      ActAdvances(l, t, acts[0]);
      TogetherStays(ActLikes(l, acts[0]), Following(l, t, acts[0]), acts[1..], post);
    }
  }

  /**
   * From a settled state with no request inside, over every interleaving of requests with flushing, recovery,
   * retries, crashes and reconciliations of comment-task, as long as locks hold, enqueues succeed, batches apply in
   * claim order and only cleared posts with nothing in flight are reconciled: post_counter is the number of students who like the post, minus what is still on its way.
   */
  lemma LikeCountIsExact(l: Likes, s: State, acts: seq<Act>, post: int)
    requires Settled(s) && s.facts == l.facts
    requires DebtInv(l) && LockInv(l)
    requires AllowedRun(l, Begin(s), acts)
    ensures var (m, end) := Final(l, Begin(s), acts);
      end.facts == m.facts &&
      Counter(end, post) == FactCount(m.facts, post) - PendingDelta(end, post) - Unapplied(end, post) - Owed(m, post)
  {
    BeginInv(s);
    TogetherStays(l, Begin(s), acts, post);
  }
}
