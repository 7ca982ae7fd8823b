/**
 * The asynchronous counter as a step system. A fact row changes, its delta travels through Redis and a
 * batch to post_counter. Every Lua script, SQL statement and SQL transaction is one step; crashes,
 * lost replies and stale local variables interleave freely with them.
 */
module CounterPipeline {
  import opened Tally
  import opened CounterRedis
  import opened CounterDb

  /** A fact change whose delta has not been recorded yet. */
  datatype Change = Change(post: int, actor: int, delta: int)

  /**
   * The fact table and the requests between their fact write and their enqueue. The actor of a post is a
   * student (post_like) or a comment (study_comment); it is active when its row counts.
   */
  datatype Facts = Facts(active: map<int, set<int>>, inflight: map<int, Change>)

  /** The one apply goroutine: the rows it selected, and the batch whose failure it has to record. */
  datatype Worker = Worker(queue: seq<Task>, marking: seq<int>)

  datatype State = State(
    facts: Facts,
    redis: Redis,
    db: Database,
    claims: map<int, Batch>,          // what some process may still hold in a local variable after a claim
    worker: Worker)

  /** One Redis command of the scheduling code; none of them touches deltas or batches. */
  datatype Tidy =
    | SRemDirty(post: int) | ZRemSince(post: int) | ZRemSchedule(post: int)
    | ZAddSince(post: int, at: int) | ZAddSchedule(post: int, at: int)

  datatype Step =
    | Flip(request: int, post: int, actor: int)        // SQL: the row starts or stops counting
    | Emit(request: int, now: int)                     // the enqueue script
    | Lose(request: int)                               // enqueue error or crash: the delta is dropped
    | Direct(request: int)                             // comments only: upsert post_counter directly
    | Schedule(tidy: Tidy)
    | ClaimDelta(post: int, now: int, id: int)         // the claim script
    | InsertRow(id: int, now: int)                     // by the flusher or by recovery, however late
    | Scan(tasks: seq<Task>, now: int)                 // select due rows
    | ApplyNext(now: int)                              // the transaction commits
    | FailNext                                         // the transaction rolls back
    | MarkNext(now: int)                               // record the failure
    | SkipMark                                         // recording the failure fails too
    | ClearBatch(id: int)                              // the clear script, after the row was seen as success
    | Crash                                            // the worker restarts
    | Reconcile(post: int)                             // overwrite the counter with the fact count

  function ActiveIn(f: Facts, post: int): set<int> {
    if post in f.active then f.active[post] else {}
  }

  function FactCount(f: Facts, post: int): nat {
    |ActiveIn(f, post)|
  }

  function FlipFacts(f: Facts, request: int, post: int, actor: int): Facts {
    var on := ActiveIn(f, post);
    if actor in on then
      Facts(f.active[post := on - {actor}], f.inflight[request := Change(post, actor, -1)])
    else
      Facts(f.active[post := on + {actor}], f.inflight[request := Change(post, actor, 1)])
  }

  function Settle(f: Facts, request: int): Facts {
    f.(inflight := f.inflight - {request})
  }

  function RunTidy(r: Redis, tidy: Tidy): Redis {
    match tidy
    case SRemDirty(p) => r.(dirty := r.dirty - {p})
    case ZRemSince(p) => r.(dirtySince := r.dirtySince - {p})
    case ZRemSchedule(p) => r.(schedule := r.schedule - {p})
    case ZAddSince(p, at) => r.(dirtySince := r.dirtySince[p := at])
    case ZAddSchedule(p, at) => r.(schedule := r.schedule[p := at])
  }

  /** The guard of canReconcilePostCounter. */
  predicate ReconcileGuard(s: State, post: int) {
    && At(s.redis.delta, post) == 0
    && At(s.redis.processingSum, post) == 0
    && !HasUnfinished(s.db, post)
  }

  predicate Idle(w: Worker) {
    w.queue == [] && w.marking == []
  }

  /** A selection of due rows: distinct, and as the table has them. */
  predicate Selected(d: Database, tasks: seq<Task>, now: int) {
    && (forall i, j :: 0 <= i < j < |tasks| ==> tasks[i].id != tasks[j].id)
    && (forall i :: 0 <= i < |tasks| ==>
      && Claimable(d, tasks[i].id, now)
      && tasks[i].batch == Batch(d.batches[tasks[i].id].post, d.batches[tasks[i].id].delta))
  }

  /** Recovery parses, and the apply loop accepts, only such batches. */
  predicate WellFormed(batch: Batch) {
    batch.post > 0 && batch.delta != 0
  }

  predicate Skipped(task: Task) {
    !WellFormed(task.batch)
  }

  predicate Enabled(s: State, step: Step) {
    match step
    case Flip(request, _, _) => request !in s.facts.inflight
    case Emit(request, _) => request in s.facts.inflight
    case Lose(request) => request in s.facts.inflight
    case Direct(request) => request in s.facts.inflight
    case Schedule(_) => true
    case ClaimDelta(_, _, id) => id !in s.claims
    case InsertRow(id, _) => id in s.claims
    case Scan(tasks, now) => Idle(s.worker) && Selected(s.db, tasks, now)
    case ApplyNext(_) => s.worker.queue != [] && s.worker.marking == []
    case FailNext => s.worker.queue != [] && s.worker.marking == [] && !Skipped(s.worker.queue[0])
    case MarkNext(_) => s.worker.marking != []
    case SkipMark => s.worker.marking != []
    case ClearBatch(id) => Applied(s.db, id)
    case Crash => true
    case Reconcile(post) => ReconcileGuard(s, post)
  }

  function Next(s: State, step: Step): State
    requires Enabled(s, step)
  {
    match step
    case Flip(request, post, actor) => s.(facts := FlipFacts(s.facts, request, post, actor))
    case Emit(request, now) =>
      var c := s.facts.inflight[request];
      s.(facts := Settle(s.facts, request), redis := Enqueue(s.redis, c.post, c.delta, now))
    case Lose(request) => s.(facts := Settle(s.facts, request))
    case Direct(request) =>
      var c := s.facts.inflight[request];
      s.(facts := Settle(s.facts, request), db := s.db.(counter := Upsert(s.db.counter, c.post, c.delta)))
    case Schedule(tidy) => s.(redis := RunTidy(s.redis, tidy))
    case ClaimDelta(post, now, id) =>
      var claims := match ClaimReplyFor(s.redis, post, now)
        case Claimed(delta) => s.claims[id := Batch(post, delta)]
        case _ => s.claims;
      s.(redis := Claim(s.redis, post, now, id), claims := claims)
    case InsertRow(id, now) => s.(db := Insert(s.db, id, s.claims[id], now))
    case Scan(tasks, _) => s.(worker := s.worker.(queue := tasks))
    case ApplyNext(now) =>
      var task := s.worker.queue[0];
      s.(db := if Skipped(task) then s.db else Apply(s.db, task, now),
         worker := s.worker.(queue := s.worker.queue[1..]))
    case FailNext => s.(worker := Worker(s.worker.queue[1..], [s.worker.queue[0].id]))
    case MarkNext(now) =>
      s.(db := MarkFailed(s.db, s.worker.marking[0], now), worker := s.worker.(marking := []))
    case SkipMark => s.(worker := s.worker.(marking := []))
    case ClearBatch(id) => s.(redis := Clear(s.redis, id))
    case Crash => s.(worker := Worker([], []))
    case Reconcile(post) => s.(db := s.db.(counter := s.db.counter[post := FactCount(s.facts, post)]))
  }

  ghost predicate Valid(s: State, steps: seq<Step>)
    decreases |steps|
  {
    steps == [] || (Enabled(s, steps[0]) && Valid(Next(s, steps[0]), steps[1..]))
  }

  ghost function Run(s: State, steps: seq<Step>): State
    requires Valid(s, steps)
    decreases |steps|
  {
    if steps == [] then s else Run(Next(s, steps[0]), steps[1..])
  }

  /** A run is valid when a list of states links its steps. */
  lemma {:induction false} Unroll(s: State, steps: seq<Step>, states: seq<State>)
    requires |states| == |steps| + 1 && states[0] == s
    requires forall i :: 0 <= i < |steps| ==> Enabled(states[i], steps[i]) && Next(states[i], steps[i]) == states[i + 1]
    ensures Valid(s, steps) && Run(s, steps) == states[|steps|]
    decreases |steps|
  {
    if steps != [] {
      Unroll(states[1], steps[1..], states[1..]);
    }
  }

  lemma {:induction false} RunConcat(s: State, steps: seq<Step>, more: seq<Step>)
    requires Valid(s, steps) && Valid(Run(s, steps), more)
    ensures Valid(s, steps + more) && Run(s, steps + more) == Run(Run(s, steps), more)
    decreases |steps|
  {
    if steps == [] {
      assert steps + more == more;
    } else {
      assert (steps + more)[1..] == steps[1..] + more;
      RunConcat(Next(s, steps[0]), steps[1..], more);
    }
  }

  // ---------------------------------------------------------------------------------------------
  // Invariant

  function Of(post: int): Batch -> int {
    (b: Batch) => if b.post == post then b.delta else 0
  }

  function OfChange(post: int): Change -> int {
    (c: Change) => if c.post == post then c.delta else 0
  }

  /** The Redis keys agree with each other and with what was claimed. */
  ghost predicate BooksAgree(processing: map<int, Batch>, sums: map<int, int>, ids: set<int>, claims: map<int, Batch>) {
    && ids == processing.Keys
    && (forall post :: At(sums, post) == Sum(processing, Of(post)))
    && (forall id :: id in processing ==> id in claims && claims[id] == processing[id])
  }

  /** Every row is a nonzero claim; a batch leaves Redis only after its row is success. */
  ghost predicate RowsAgree(batches: map<int, Row>, claims: map<int, Batch>, processing: map<int, Batch>) {
    && (forall id :: id in batches ==>
      && id in claims
      && claims[id] == Batch(batches[id].post, batches[id].delta)
      && batches[id].delta != 0
      && batches[id].status != Processing)
    && (forall id :: id in claims && id !in processing ==> id in batches && batches[id].status == Success)
  }

  /** A task that is not applied, with the data of its row. */
  predicate Held(batches: map<int, Row>, task: Task) {
    && task.id in batches
    && batches[task.id].status != Success
    && task.batch == Batch(batches[task.id].post, batches[task.id].delta)
  }

  /** The worker holds distinct batches, none of them applied. */
  ghost predicate WorkerAgrees(w: Worker, batches: map<int, Row>) {
    && |w.marking| <= 1
    && (forall i, j :: 0 <= i < j < |w.queue| ==> w.queue[i].id != w.queue[j].id)
    && (forall i :: 0 <= i < |w.queue| ==> Held(batches, w.queue[i]))
    && (forall id :: id in w.marking ==> id in batches && batches[id].status != Success)
    && (forall i :: 0 <= i < |w.queue| ==> w.queue[i].id !in w.marking)
  }

  ghost predicate RedisInv(s: State) {
    BooksAgree(s.redis.processing, s.redis.processingSum, s.redis.processingIds, s.claims)
  }

  ghost predicate DbInv(s: State) {
    RowsAgree(s.db.batches, s.claims, s.redis.processing)
  }

  ghost predicate WorkerInv(s: State) {
    WorkerAgrees(s.worker, s.db.batches)
  }

  ghost predicate Inv(s: State) {
    RedisInv(s) && DbInv(s) && WorkerInv(s)
  }

  const EMPTY_REDIS := Redis(map[], {}, map[], map[], map[], map[], map[], {})

  /** Nothing recorded yet; any facts, any counters. */
  function Fresh(facts: Facts, counter: map<int, int>): State {
    State(facts, EMPTY_REDIS, Database(map[], counter), map[], Worker([], []))
  }

  lemma FreshInv(facts: Facts, counter: map<int, int>)
    ensures Inv(Fresh(facts, counter))
  {
  }

  lemma ClaimChanges(s: State, post: int, now: int, id: int)
    requires id !in s.claims
    ensures var step := ClaimDelta(post, now, id);
      && Enabled(s, step)
      && var t := Next(s, step);
         && t.redis == Claim(s.redis, post, now, id)
         && t.facts == s.facts && t.db == s.db && t.worker == s.worker
         && if ClaimReplyFor(s.redis, post, now).Claimed?
            then t.claims == s.claims[id := Batch(post, s.redis.delta[post])] && t.redis.delta == s.redis.delta - {post}
            else t.claims == s.claims && t.redis.delta == s.redis.delta
  {
  }

  lemma ClaimBooks(processing: map<int, Batch>, sums: map<int, int>, ids: set<int>, claims: map<int, Batch>, id: int, batch: Batch)
    requires BooksAgree(processing, sums, ids, claims) && id !in claims
    ensures BooksAgree(processing[id := batch], sums[batch.post := At(sums, batch.post) + batch.delta], ids + {id}, claims[id := batch])
  {
    var after := sums[batch.post := At(sums, batch.post) + batch.delta];
    forall p ensures At(after, p) == Sum(processing[id := batch], Of(p)) {
      SumWith(processing, Of(p), id, batch);
    }
  }

  lemma ClaimRows(batches: map<int, Row>, claims: map<int, Batch>, processing: map<int, Batch>, id: int, batch: Batch)
    requires RowsAgree(batches, claims, processing) && id !in claims
    ensures RowsAgree(batches, claims[id := batch], processing[id := batch])
  {
  }

  lemma ClaimInv(s: State, post: int, now: int, id: int)
    requires Inv(s) && Enabled(s, ClaimDelta(post, now, id))
    ensures Inv(Next(s, ClaimDelta(post, now, id)))
  {
    ClaimChanges(s, post, now, id);
    if ClaimReplyFor(s.redis, post, now).Claimed? {
      ClaimBooks(s.redis.processing, s.redis.processingSum, s.redis.processingIds, s.claims, id, Batch(post, s.redis.delta[post]));
      ClaimRows(s.db.batches, s.claims, s.redis.processing, id, Batch(post, s.redis.delta[post]));
    } else {
      assert Claim(s.redis, post, now, id).processing == s.redis.processing;
    }
  }

  lemma ClearInv(s: State, id: int)
    requires Inv(s) && Enabled(s, ClearBatch(id))
    ensures Inv(Next(s, ClearBatch(id)))
  {
    var t := Next(s, ClearBatch(id));
    if id in s.redis.processing {
      forall p ensures At(t.redis.processingSum, p) == Sum(t.redis.processing, Of(p)) {
        SumWithout(s.redis.processing, Of(p), id);
      }
    }
  }

  lemma InsertInv(s: State, id: int, now: int)
    requires Inv(s) && Enabled(s, InsertRow(id, now))
    ensures Inv(Next(s, InsertRow(id, now)))
  {
  }

  lemma ApplyInv(s: State, now: int)
    requires Inv(s) && Enabled(s, ApplyNext(now))
    ensures Inv(Next(s, ApplyNext(now)))
  {
  }

  lemma FailInv(s: State)
    requires Inv(s) && Enabled(s, FailNext)
    ensures Inv(Next(s, FailNext))
  {
  }

  lemma MarkInv(s: State, now: int)
    requires Inv(s) && Enabled(s, MarkNext(now))
    ensures Inv(Next(s, MarkNext(now)))
  {
  }

  lemma ScanInv(s: State, tasks: seq<Task>, now: int)
    requires Inv(s) && Enabled(s, Scan(tasks, now))
    ensures Inv(Next(s, Scan(tasks, now)))
  {
  }

  /** Steps that change neither batches nor claims. */
  lemma FrontInv(s: State, step: Step)
    requires Inv(s) && Enabled(s, step)
    requires step.Flip? || step.Emit? || step.Lose? || step.Direct? || step.Reconcile?
    ensures Inv(Next(s, step))
  {
  }

  lemma IdleInv(s: State, step: Step)
    requires Inv(s) && Enabled(s, step)
    requires step.SkipMark? || step.Crash?
    ensures Inv(Next(s, step))
  {
  }

  lemma TidyKeepsBooks(r: Redis, tidy: Tidy)
    ensures RunTidy(r, tidy).delta == r.delta && RunTidy(r, tidy).dirtyAt == r.dirtyAt
    ensures RunTidy(r, tidy).processing == r.processing && RunTidy(r, tidy).processingSum == r.processingSum
    ensures RunTidy(r, tidy).processingIds == r.processingIds
  {
  }

  lemma ScheduleInv(s: State, tidy: Tidy)
    requires Inv(s)
    ensures Inv(Next(s, Schedule(tidy)))
  {
  }

  /** Every step keeps the invariant. */
  lemma StepInv(s: State, step: Step)
    requires Inv(s) && Enabled(s, step)
    ensures Inv(Next(s, step))
  {
    match step
    case ClaimDelta(post, now, id) => ClaimInv(s, post, now, id);
    case ClearBatch(id) => ClearInv(s, id);
    case InsertRow(id, now) => InsertInv(s, id, now);
    case Scan(tasks, now) => ScanInv(s, tasks, now);
    case ApplyNext(now) => ApplyInv(s, now);
    case FailNext => FailInv(s);
    case MarkNext(now) => MarkInv(s, now);
    case Flip(_, _, _) => FrontInv(s, step);
    case Emit(_, _) => FrontInv(s, step);
    case Lose(_) => FrontInv(s, step);
    case Direct(_) => FrontInv(s, step);
    case Reconcile(_) => FrontInv(s, step);
    case Schedule(tidy) => ScheduleInv(s, tidy);
    case SkipMark => IdleInv(s, step);
    case Crash => IdleInv(s, step);
  }

  lemma {:induction false} RunInv(s: State, steps: seq<Step>)
    requires Inv(s) && Valid(s, steps)
    ensures Inv(Run(s, steps))
    decreases |steps|
  {
    if steps != [] {
      StepInv(s, steps[0]);
      RunInv(Next(s, steps[0]), steps[1..]);
    }
  }
}
