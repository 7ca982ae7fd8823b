/** When deltas are recorded in fact order and batches applied in claim order, the clamp never clips. */
module CounterOrder {
  import opened Tally
  import opened ClampFold
  import opened CounterRedis
  import opened CounterDb
  import opened CounterPipeline
  import opened CounterLedger
  import opened CounterReconcile

  /** The pipeline with its history: what the runs so far recorded and claimed. */
  datatype Trace = Trace(
    state: State,
    recorded: Facts,                  // the facts as the recorded deltas tell them
    line: map<int, seq<int>>,         // by post, the nonzero batches claimed and not applied, oldest first
    mark: map<int, nat>)              // by batch, the recorded count when it was claimed

  function Line(t: Trace, post: int): seq<int> {
    if post in t.line then t.line[post] else []
  }

  function RecordedIn(t: Trace, post: int): set<int> {
    ActiveIn(t.recorded, post)
  }

  predicate Alone(f: Facts, post: int, actor: int) {
    forall request :: request in f.inflight ==> !(f.inflight[request].post == post && f.inflight[request].actor == actor)
  }

  /**
   * A student's request holds the like lock from its fact write through its enqueue, every enqueue succeeds,
   * a post's batches are applied in the order they were claimed, and a post is reconciled only when all its applied
   * batches are cleared and none of its deltas is in flight.
   */
  predicate InOrder(t: Trace, step: Step) {
    && Enabled(t.state, step)
    && !step.Lose? && !step.Direct?
    && (step.Reconcile? ==> AllCleared(t.state, step.post) && NoneInFlight(t.state, step.post))
    && (step.Flip? ==> Alone(t.state.facts, step.post, step.actor))
    && (AppliesHead(t.state, step) ==>
      var task := t.state.worker.queue[0];
      Line(t, task.batch.post) != [] && Line(t, task.batch.post)[0] == task.id)
  }

  function Record(f: Facts, c: Change): Facts {
    var on := ActiveIn(f, c.post);
    f.(active := f.active[c.post := if c.delta > 0 then on + {c.actor} else on - {c.actor}])
  }

  function Advance(t: Trace, step: Step): Trace
    requires InOrder(t, step)
  {
    var next := t.(state := Next(t.state, step));
    if step.Emit? then
      next.(recorded := Record(t.recorded, t.state.facts.inflight[step.request]))
    else if step.ClaimDelta? then
      var reply := ClaimReplyFor(t.state.redis, step.post, step.now);
      if reply.Claimed? && reply.delta != 0 then
        next.(line := t.line[step.post := Line(t, step.post) + [step.id]],
              mark := t.mark[step.id := |RecordedIn(t, step.post)|])
      else next
    else if AppliesHead(t.state, step) then
      var post := t.state.worker.queue[0].batch.post;
      next.(line := t.line[post := Line(t, post)[1..]])
    else next
  }

  /** Each change in flight is the one difference between the facts and what was recorded of its actor. */
  ghost predicate Alternating(f: Facts, recorded: Facts) {
    && (forall r :: r in f.inflight ==> MatchesChange(f, recorded, f.inflight[r]))
    && (forall r, q :: r in f.inflight && q in f.inflight && r != q ==> !SameActor(f.inflight[r], f.inflight[q]))
    && (forall post, actor :: Alone(f, post, actor) ==> (actor in ActiveIn(f, post) <==> actor in ActiveIn(recorded, post)))
  }

  predicate SameActor(c: Change, d: Change) {
    c.post == d.post && c.actor == d.actor
  }

  predicate MatchesChange(f: Facts, recorded: Facts, c: Change) {
    if c.actor in ActiveIn(recorded, c.post) then c.delta == -1 && c.actor !in ActiveIn(f, c.post)
    else c.delta == 1 && c.actor in ActiveIn(f, c.post)
  }

  /** The counter value that the i-th waiting batch will find. */
  function Level(line: seq<int>, mark: map<int, nat>, counter: int, i: int): int {
    if 0 < i <= |line| && line[i - 1] in mark then mark[line[i - 1]] else counter
  }

  /** The waiting batches lead from the counter, over counts of active actors, up to `top`. */
  ghost predicate Stairs(post: int, line: seq<int>, claims: map<int, Batch>, mark: map<int, nat>, counter: int, top: int) {
    && (forall i :: 0 <= i < |line| ==> Waiting(post, line[i], claims, mark))
    && (forall i :: 0 <= i < |line| ==> Level(line, mark, counter, i) + claims[line[i]].delta == mark[line[i]])
    && Level(line, mark, counter, |line|) == top
  }

  predicate Waiting(post: int, id: int, claims: map<int, Batch>, mark: map<int, nat>) {
    id in claims && claims[id].post == post && id in mark
  }

  lemma PushStairs(post: int, line: seq<int>, claims: map<int, Batch>, mark: map<int, nat>, counter: int, top: int,
                   id: int, delta: int, n: nat)
    requires Stairs(post, line, claims, mark, counter, top) && id !in claims && n == top + delta
    ensures Stairs(post, line + [id], claims[id := Batch(post, delta)], mark[id := n], counter, n)
  {
  }

  /** A claim for any post leaves the other lines as they are. */
  lemma KeepStairs(post: int, line: seq<int>, claims: map<int, Batch>, mark: map<int, nat>, counter: int, top: int,
                   id: int, batch: Batch, n: nat)
    requires Stairs(post, line, claims, mark, counter, top) && id !in claims
    ensures Stairs(post, line, claims[id := batch], mark[id := n], counter, top)
    ensures Stairs(post, line, claims[id := batch], mark, counter, top)
  {
  }

  lemma PopStairs(post: int, line: seq<int>, claims: map<int, Batch>, mark: map<int, nat>, counter: int, top: int)
    requires Stairs(post, line, claims, mark, counter, top) && line != []
    ensures line[0] in claims && line[0] in mark
    ensures counter + claims[line[0]].delta == mark[line[0]]
    ensures Stairs(post, line[1..], claims, mark, mark[line[0]], top)
  {
  }

  ghost predicate HasStairs(t: Trace, post: int) {
    Stairs(post, Line(t, post), t.state.claims, t.mark, Counter(t.state, post),
           |RecordedIn(t, post)| - PendingDelta(t.state, post))
  }

  ghost predicate TraceInv(t: Trace) {
    && Inv(t.state)
    && Alternating(t.state.facts, t.recorded)
    && (forall post :: HasStairs(t, post))
  }

  /** Nothing on its way, and every counter equal to its fact count. */
  ghost predicate Settled(s: State) {
    && Inv(s)
    && s.facts.inflight == map[]
    && (forall post :: PendingDelta(s, post) == 0 && Counter(s, post) == FactCount(s.facts, post))
    && (forall id :: id in s.redis.processing && !Applied(s.db, id) ==> s.redis.processing[id].delta == 0)
  }

  function Begin(s: State): Trace {
    Trace(s, s.facts, map[], map[])
  }

  lemma BeginInv(s: State)
    requires Settled(s)
    ensures TraceInv(Begin(s))
    ensures forall post :: Drift(s, post) == 0
  {
    forall post ensures Drift(s, post) == 0 {
      var open := s.redis.processing - AppliedIds(s.db);
      assert forall id :: id in open ==> Of(post)(open[id]) == 0;
      SumOfZeros(open, Of(post));
    }
    forall post ensures HasStairs(Begin(s), post) {
      assert Counter(s, post) == FactCount(s.facts, post);
    }
  }

  lemma FlipAlternates(f: Facts, recorded: Facts, request: int, post: int, actor: int)
    requires Alternating(f, recorded) && request !in f.inflight && Alone(f, post, actor)
    ensures Alternating(FlipFacts(f, request, post, actor), recorded)
  {
    var g := FlipFacts(f, request, post, actor);
    forall p, a | Alone(g, p, a) ensures a in ActiveIn(g, p) <==> a in ActiveIn(recorded, p) {
      assert g.inflight[request].post != p || g.inflight[request].actor != a;
      assert Alone(f, p, a) by {
        forall r | r in f.inflight ensures !(f.inflight[r].post == p && f.inflight[r].actor == a) {
          assert r in g.inflight && g.inflight[r] == f.inflight[r];
        }
      }
    }
    forall r | r in g.inflight ensures MatchesChange(g, recorded, g.inflight[r]) {
      if r != request {
        assert MatchesChange(f, recorded, f.inflight[r]);
      }
    }
  }

  lemma EmitAlternates(f: Facts, recorded: Facts, request: int)
    requires Alternating(f, recorded) && request in f.inflight
    ensures Alternating(Settle(f, request), Record(recorded, f.inflight[request]))
    ensures forall post ::
      |ActiveIn(Record(recorded, f.inflight[request]), post)|
        == |ActiveIn(recorded, post)| + OfChange(post)(f.inflight[request])
  {
    var g, after := Settle(f, request), Record(recorded, f.inflight[request]);
    var c := f.inflight[request];
    assert MatchesChange(f, recorded, c);
    forall p, a | Alone(g, p, a) ensures a in ActiveIn(g, p) <==> a in ActiveIn(after, p) {
      if p != c.post || a != c.actor {
        assert Alone(f, p, a) by {
          forall r | r in f.inflight ensures !(f.inflight[r].post == p && f.inflight[r].actor == a) {
            if r != request { assert r in g.inflight; }
          }
        }
      }
    }
    forall r | r in g.inflight ensures MatchesChange(g, after, g.inflight[r]) {
      assert MatchesChange(f, recorded, f.inflight[r]);
      assert !SameActor(f.inflight[r], c);
    }
  }

  lemma EmitTrace(t: Trace, request: int, now: int)
    requires TraceInv(t) && InOrder(t, Emit(request, now))
    ensures TraceInv(Advance(t, Emit(request, now)))
  {
    var u := Advance(t, Emit(request, now));
    StepInv(t.state, Emit(request, now));
    EmitAlternates(t.state.facts, t.recorded, request);
    var c := t.state.facts.inflight[request];
    forall post ensures HasStairs(u, post) {
      assert HasStairs(t, post);
      assert |RecordedIn(u, post)| == |RecordedIn(t, post)| + OfChange(post)(c);
      assert PendingDelta(u.state, post) == PendingDelta(t.state, post) + OfChange(post)(c);
    }
  }

  lemma ClaimOwnStairs(t: Trace, now: int, id: int, post: int)
    requires HasStairs(t, post) && InOrder(t, ClaimDelta(post, now, id))
    requires ClaimReplyFor(t.state.redis, post, now).Claimed? && ClaimReplyFor(t.state.redis, post, now).delta != 0
    ensures HasStairs(Advance(t, ClaimDelta(post, now, id)), post)
  {
    ClaimChanges(t.state, post, now, id);
    PushStairs(post, Line(t, post), t.state.claims, t.mark, Counter(t.state, post),
               |RecordedIn(t, post)| - PendingDelta(t.state, post),
               id, PendingDelta(t.state, post), |RecordedIn(t, post)|);
  }

  lemma ClaimStairs(t: Trace, p: int, now: int, id: int, post: int)
    requires HasStairs(t, post) && InOrder(t, ClaimDelta(p, now, id))
    ensures HasStairs(Advance(t, ClaimDelta(p, now, id)), post)
  {
    var reply := ClaimReplyFor(t.state.redis, p, now);
    ClaimChanges(t.state, p, now, id);
    if reply.Claimed? {
      if reply.delta != 0 && post == p {
        ClaimOwnStairs(t, now, id, post);
      } else {
        KeepStairs(post, Line(t, post), t.state.claims, t.mark, Counter(t.state, post),
                   |RecordedIn(t, post)| - PendingDelta(t.state, post), id, Batch(p, reply.delta), |RecordedIn(t, p)|);
      }
    }
  }

  lemma ClaimTrace(t: Trace, p: int, now: int, id: int)
    requires TraceInv(t) && InOrder(t, ClaimDelta(p, now, id))
    ensures TraceInv(Advance(t, ClaimDelta(p, now, id)))
  {
    StepInv(t.state, ClaimDelta(p, now, id));
    forall post ensures HasStairs(Advance(t, ClaimDelta(p, now, id)), post) {
      ClaimStairs(t, p, now, id, post);
    }
  }

  lemma ApplyTrace(t: Trace, now: int)
    requires TraceInv(t) && InOrder(t, ApplyNext(now))
    ensures TraceInv(Advance(t, ApplyNext(now)))
    ensures forall post :: ClippedBy(t.state, ApplyNext(now), post) == 0
  {
    var u := Advance(t, ApplyNext(now));
    StepInv(t.state, ApplyNext(now));
    var task := t.state.worker.queue[0];
    assert Held(t.state.db.batches, task);
    forall post ensures HasStairs(u, post) && ClippedBy(t.state, ApplyNext(now), post) == 0 {
      ApplyStairs(t, now, post);
    }
  }

  lemma ApplyChanges(s: State, now: int, post: int)
    requires Enabled(s, ApplyNext(now)) && Held(s.db.batches, s.worker.queue[0])
    ensures var t, task := Next(s, ApplyNext(now)), s.worker.queue[0];
      && t.redis == s.redis && t.facts == s.facts && t.claims == s.claims
      && Counter(t, post) == if AppliesHead(s, ApplyNext(now)) && task.batch.post == post
        then Clamped(Counter(s, post), task.batch.delta) else Counter(s, post)
  {
  }

  lemma ApplyStairs(t: Trace, now: int, post: int)
    requires HasStairs(t, post) && InOrder(t, ApplyNext(now)) && Held(t.state.db.batches, t.state.worker.queue[0])
    requires RowsAgree(t.state.db.batches, t.state.claims, t.state.redis.processing)
    ensures HasStairs(Advance(t, ApplyNext(now)), post) && ClippedBy(t.state, ApplyNext(now), post) == 0
  {
    ApplyChanges(t.state, now, post);
    var task := t.state.worker.queue[0];
    if AppliesHead(t.state, ApplyNext(now)) && task.batch.post == post {
      PopStairs(post, Line(t, post), t.state.claims, t.mark, Counter(t.state, post),
                |RecordedIn(t, post)| - PendingDelta(t.state, post));
      OneClip(Counter(t.state, post), task.batch.delta);
    }
  }

  lemma OtherKeepsLine(s: State, step: Step)
    requires Enabled(s, step)
    requires step.InsertRow? || step.Scan? || step.FailNext? || step.MarkNext? || step.SkipMark? || step.ClearBatch? || step.Crash?
    ensures var t := Next(s, step);
      t.facts == s.facts && t.claims == s.claims && t.db.counter == s.db.counter && t.redis.delta == s.redis.delta
  {
  }

  lemma OtherTrace(t: Trace, step: Step)
    requires TraceInv(t) && InOrder(t, step)
    requires !step.Emit? && !step.ClaimDelta? && !step.ApplyNext? && !step.Schedule? && !step.Flip? && !step.Reconcile?
    ensures TraceInv(Advance(t, step))
    ensures forall post :: ClippedBy(t.state, step, post) == 0
  {
    StepInv(t.state, step);
    OtherKeepsLine(t.state, step);
    var u := Advance(t, step);
    assert u.line == t.line && u.mark == t.mark && u.recorded == t.recorded;
    forall post ensures HasStairs(u, post) {
      assert HasStairs(t, post);
    }
  }

  lemma FrontTrace(t: Trace, step: Step)
    requires TraceInv(t) && InOrder(t, step) && (step.Schedule? || step.Flip?)
    ensures TraceInv(Advance(t, step))
    ensures forall post :: ClippedBy(t.state, step, post) == 0
  {
    StepInv(t.state, step);
    if step.Schedule? {
      TidyKeepsBooks(t.state.redis, step.tidy);
    } else {
      FlipAlternates(t.state.facts, t.recorded, step.request, step.post, step.actor);
    }
    forall post ensures HasStairs(Advance(t, step), post) {
      assert HasStairs(t, post);
    }
  }

  /** An ordered reconciliation of a post without drift rewrites what is there already. */
  lemma ReconcileTrace(t: Trace, post: int)
    requires TraceInv(t) && InOrder(t, Reconcile(post)) && Drift(t.state, post) == 0
    ensures TraceInv(Advance(t, Reconcile(post)))
    ensures CorrectedBy(t.state, Reconcile(post), post) == 0
  {
    var u := Advance(t, Reconcile(post));
    StepInv(t.state, Reconcile(post));
    GuardBalances(t.state, post);
    ClearedMeansNoneUncleared(t.state, post);
    NoneInFlightMeansZero(t.state, post);
    assert Counter(t.state, post) == FactCount(t.state.facts, post);
    forall p ensures HasStairs(u, p) {
      assert HasStairs(t, p);
      assert Counter(u.state, p) == Counter(t.state, p);
    }
  }

  /** Every ordered step keeps the stairs, and clips nothing. */
  lemma StepTrace(t: Trace, step: Step)
    requires TraceInv(t) && InOrder(t, step) && (step.Reconcile? ==> Drift(t.state, step.post) == 0)
    ensures TraceInv(Advance(t, step))
    ensures forall post :: ClippedBy(t.state, step, post) == 0
  {
    if step.Emit? {
      EmitTrace(t, step.request, step.now);
    } else if step.ClaimDelta? {
      ClaimTrace(t, step.post, step.now, step.id);
    } else if step.ApplyNext? {
      ApplyTrace(t, step.now);
    } else if step.Schedule? || step.Flip? {
      FrontTrace(t, step);
    } else if step.Reconcile? {
      ReconcileTrace(t, step.post);
    } else {
      OtherTrace(t, step);
    }
  }

  ghost predicate OrderedRun(t: Trace, steps: seq<Step>)
    decreases |steps|
  {
    steps == [] || (InOrder(t, steps[0]) && OrderedRun(Advance(t, steps[0]), steps[1..]))
  }

  lemma OrderedStepKeepsDrift(t: Trace, step: Step, post: int)
    requires TraceInv(t) && InOrder(t, step) && (step.Reconcile? ==> Drift(t.state, step.post) == 0)
    ensures TraceInv(Advance(t, step)) && Advance(t, step).state == Next(t.state, step)
    ensures ClippedBy(t.state, step, post) == 0 && Drift(Next(t.state, step), post) == Drift(t.state, post)
  {
    StepTrace(t, step);
    StepDrift(t.state, step, post);
    if step.Reconcile? {
      ReconcileTrace(t, step.post);
    }
  }

  /** What the steps reconcile has no drift, so that reconciling corrects nothing. */
  ghost predicate ReconcilesExact(s: State, steps: seq<Step>) {
    forall post :: Reconcile(post) in steps ==> Drift(s, post) == 0
  }

  lemma {:induction false} OrderedRunNeverClips(t: Trace, steps: seq<Step>, post: int)
    requires TraceInv(t) && OrderedRun(t, steps) && ReconcilesExact(t.state, steps)
    ensures Valid(t.state, steps) && Inv(Run(t.state, steps))
    ensures Clipped(t.state, steps, post) == 0
    ensures Drift(Run(t.state, steps), post) == Drift(t.state, post)
    decreases |steps|
  {
    if steps != [] {
      assert steps[0].Reconcile? ==> Reconcile(steps[0].post) in steps;
      OrderedStepKeepsDrift(t, steps[0], post);
      forall p | Reconcile(p) in steps[1..] ensures Drift(Next(t.state, steps[0]), p) == 0 {
        OrderedStepKeepsDrift(t, steps[0], p);
      }
      OrderedRunNeverClips(Advance(t, steps[0]), steps[1..], post);
    }
  }

  /**
   * From a settled state, whatever the interleaving, crashes and retries of an ordered run: the clamp never
   * clips, and the counter is the number of active rows minus what is pending, unapplied and in flight.
   */
  lemma OrderedCounterIsExact(s: State, steps: seq<Step>, post: int)
    requires Settled(s) && OrderedRun(Begin(s), steps)
    ensures Valid(s, steps) && Inv(Run(s, steps)) && Clipped(s, steps, post) == 0
    ensures var t := Run(s, steps);
      Counter(t, post) == FactCount(t.facts, post) - PendingDelta(t, post) - Unapplied(t, post) - InFlight(t, post)
  {
    BeginInv(s);
    OrderedRunNeverClips(Begin(s), steps, post);
  }
}
