/** What the recovery scan and the apply loop repair, for every sample of claimed batches. */
module CounterRepair {
  import opened CounterRedis
  import opened CounterDb
  import opened CounterPipeline
  import opened CounterRecovery
  import opened CounterTask

  predicate Malformed(r: Redis, id: int) {
    id in r.processing && !WellFormed(r.processing[id])
  }

  /** The ids of a sample that a scan gets to: those before the first malformed one. */
  function Served(r: Redis, ids: seq<int>): seq<int> {
    if ids == [] || Malformed(r, ids[0]) then [] else [ids[0]] + Served(r, ids[1..])
  }

  /** The id is in the sample, and neither it nor any id before it is malformed. */
  predicate Reached(r: Redis, ids: seq<int>, id: int) {
    exists k :: 0 <= k < |ids| && ids[k] == id && AllParse(r, ids, k)
  }

  predicate AllParse(r: Redis, ids: seq<int>, k: int)
    requires k < |ids|
  {
    forall j :: 0 <= j <= k ==> !Malformed(r, ids[j])
  }

  lemma {:induction false} ServedIffReached(r: Redis, ids: seq<int>, id: int)
    ensures id in Served(r, ids) <==> Reached(r, ids, id)
  {
    if ids != [] && !Malformed(r, ids[0]) {
      ServedIffReached(r, ids[1..], id);
      if Reached(r, ids[1..], id) {
        var k :| 0 <= k < |ids[1..]| && ids[1..][k] == id && AllParse(r, ids[1..], k);
        assert forall j :: 1 <= j <= k + 1 ==> ids[j] == ids[1..][j - 1];
        assert ids[k + 1] == id && AllParse(r, ids, k + 1);
      }
      if Reached(r, ids, id) {
        var k :| 0 <= k < |ids| && ids[k] == id && AllParse(r, ids, k);
        if k == 0 {
          assert id == ids[0];
        } else {
          assert ids[1..][k - 1] == id && AllParse(r, ids[1..], k - 1);
        }
      }
    } else if ids != [] {
      assert !AllParse(r, ids, 0);
    }
  }

  /** Both stores say the same about one batch. */
  predicate SameAt(v: Stores, w: Stores, id: int) {
    && (id in v.redis.processing <==> id in w.redis.processing)
    && (id in v.redis.processing ==> v.redis.processing[id] == w.redis.processing[id])
    && (id in v.redis.processingIds <==> id in w.redis.processingIds)
    && (id in v.db.batches <==> id in w.db.batches)
    && (id in v.db.batches ==> v.db.batches[id] == w.db.batches[id])
  }

  /** What neither recovery nor the apply loop touches in Redis. */
  predicate SameFront(r: Redis, q: Redis) {
    && r.delta == q.delta && r.dirty == q.dirty && r.dirtyAt == q.dirtyAt
    && r.dirtySince == q.dirtySince && r.schedule == q.schedule
  }

  lemma RecoveredIsLocal(v: Stores, x: int, now: int, id: int)
    requires !Malformed(v.redis, x)
    ensures x != id ==> SameAt(v, Recovered(v, x, now), id)
    ensures SameAt(Recovered(v, id, now), Recovered(Recovered(v, id, now), id, now), id)
    ensures Malformed(Recovered(v, x, now).redis, id) <==> Malformed(v.redis, id)
    ensures SameFront(v.redis, Recovered(v, x, now).redis) && v.db.counter == Recovered(v, x, now).db.counter
  {
  }

  lemma {:induction false} ServedSame(r: Redis, q: Redis, ids: seq<int>)
    requires forall id :: Malformed(r, id) <==> Malformed(q, id)
    ensures Served(r, ids) == Served(q, ids)
  {
    if ids != [] {
      ServedSame(r, q, ids[1..]);
    }
  }

  /**
   * Every sample: the scan does to each id before the first malformed one what recovering it alone does, touches
   * nothing else, and fails exactly if some id is malformed.
   */
  lemma {:induction false} ScanMeans(v: Stores, ids: seq<int>, now: int, id: int)
    ensures var w := RecoveredAll(v, ids, now);
      && SameAt(if Reached(v.redis, ids, id) then Recovered(v, id, now) else v, w, id)
      && SameFront(v.redis, w.redis) && v.db.counter == w.db.counter
      && (Malformed(w.redis, id) <==> Malformed(v.redis, id))
      && (RecoveryFails(v, ids, now) <==> Served(v.redis, ids) != ids)
    decreases |ids|
  {
    ServedIffReached(v.redis, ids, id);
    if ids != [] && !Malformed(v.redis, ids[0]) {
      var u := Recovered(v, ids[0], now);
      forall x ensures Malformed(u.redis, x) <==> Malformed(v.redis, x) {
        RecoveredIsLocal(v, ids[0], now, x);
      }
      ServedSame(v.redis, u.redis, ids[1..]);
      ScanMeans(u, ids[1..], now, id);
      ServedIffReached(u.redis, ids[1..], id);
      RecoveredIsLocal(v, ids[0], now, id);
    }
  }

  // ---------------------------------------------------------------------------------------------
  // A scan and an apply loop

  /** One tick of the batch timer: the sample, the selection that the apply loop works on, and how its turns go. */
  datatype Sweep = Sweep(ids: seq<int>, scanAt: int, tasks: seq<Task>, selectAt: int, turns: seq<Turn>)

  predicate ValidSweep(v: Stores, sweep: Sweep) {
    && |sweep.turns| == |sweep.tasks|
    && Selected(RecoveredAll(v, sweep.ids, sweep.scanAt).db, sweep.tasks, sweep.selectAt)
  }

  function Swept(v: Stores, sweep: Sweep): Stores
    requires ValidSweep(v, sweep)
  {
    TurnedAll(RecoveredAll(v, sweep.ids, sweep.scanAt), sweep.tasks, sweep.turns)
  }

  lemma LoopIsRun(s: State, tasks: seq<Task>, selectAt: int, turns: seq<Turn>)
    requires Inv(s) && Idle(s.worker) && |turns| == |tasks| && Selected(s.db, tasks, selectAt)
    ensures LeadsTo(s, [Scan(tasks, selectAt)] + LoopSteps(StoresOf(s), tasks, turns),
                    WithStores(s, TurnedAll(StoresOf(s), tasks, turns)))
  {
    var select := [Scan(tasks, selectAt)];
    var t := Next(s, select[0]);
    Unroll(s, select, [s, t]);
    StepInv(s, select[0]);
    ApplyLoopIsRun(t, turns);
    RunConcat(s, select, LoopSteps(StoresOf(s), tasks, turns));
  }

  /** A sweep is a run of the pipeline. */
  lemma SweepIsRun(s: State, sweep: Sweep)
    requires Inv(s) && Idle(s.worker) && ValidSweep(StoresOf(s), sweep)
    ensures exists steps :: LeadsTo(s, steps, WithStores(s, Swept(StoresOf(s), sweep)))
    ensures Inv(WithStores(s, Swept(StoresOf(s), sweep)))
  {
    var t := WithStores(s, RecoveredAll(StoresOf(s), sweep.ids, sweep.scanAt));
    RecoveryIsRun(s, sweep.ids, sweep.scanAt);
    var scan :| LeadsTo(s, scan, t);
    RunInv(s, scan);
    LoopIsRun(t, sweep.tasks, sweep.selectAt, sweep.turns);
    var loop := [Scan(sweep.tasks, sweep.selectAt)] + LoopSteps(StoresOf(t), sweep.tasks, sweep.turns);
    RunConcat(s, scan, loop);
    RunInv(s, scan + loop);
    assert LeadsTo(s, scan + loop, WithStores(s, Swept(StoresOf(s), sweep)));
  }

  predicate Lists(tasks: seq<Task>, id: int) {
    exists i :: 0 <= i < |tasks| && tasks[i].id == id
  }

  /** The apply loop leaves a batch alone that is not in its selection, or that it skips. */
  lemma {:induction false} TurnedSkips(v: Stores, tasks: seq<Task>, turns: seq<Turn>, id: int)
    requires |turns| == |tasks|
    requires forall i :: 0 <= i < |tasks| && tasks[i].id == id ==> Skipped(tasks[i])
    ensures SameAt(v, TurnedAll(v, tasks, turns), id)
    decreases |tasks|
  {
    if tasks != [] {
      TurnedSkips(Turned(v, tasks[0], turns[0]), tasks[1..], turns[1..], id);
    }
  }

  lemma TurnFollows(v: Stores, w: Stores, task: Task, turn: Turn)
    requires SameAt(v, w, task.id)
    ensures SameAt(Turned(v, task, turn), Turned(w, task, turn), task.id)
  {
  }

  /** Over a selection of distinct batches, the loop does to each what its own turn alone does. */
  lemma {:induction false} LoopMeans(v: Stores, tasks: seq<Task>, turns: seq<Turn>, k: nat)
    requires |turns| == |tasks| && k < |tasks|
    requires forall i, j :: 0 <= i < j < |tasks| ==> tasks[i].id != tasks[j].id
    ensures SameAt(Turned(v, tasks[k], turns[k]), TurnedAll(v, tasks, turns), tasks[k].id)
    decreases |tasks|
  {
    var u, id := Turned(v, tasks[0], turns[0]), tasks[k].id;
    assert forall i :: 0 <= i < |tasks[1..]| ==> tasks[1..][i] == tasks[i + 1];
    if k == 0 {
      TurnedSkips(u, tasks[1..], turns[1..], id);
    } else {
      LoopMeans(u, tasks[1..], turns[1..], k - 1);
      TurnedSkips(v, [tasks[0]], [turns[0]], id);
      assert TurnedAll(v, [tasks[0]], [turns[0]]) == u;
      TurnFollows(v, u, tasks[k], turns[k]);
    }
  }

  /** Every statement of the apply loop gets through, late enough. */
  predicate AllWork(turns: seq<Turn>, selectAt: int) {
    forall i :: 0 <= i < |turns| ==> turns[i].commits && turns[i].follows && turns[i].now >= selectAt
  }

  lemma {:induction false} TurnedHere(v: Stores, tasks: seq<Task>, turns: seq<Turn>, selectAt: int, id: int)
    requires |turns| == |tasks| && AllWork(turns, selectAt) && Lists(tasks, id)
    requires forall i, j :: 0 <= i < j < |tasks| ==> tasks[i].id != tasks[j].id
    requires forall i :: 0 <= i < |tasks| && tasks[i].id == id ==> !Skipped(tasks[i])
    requires Claimable(v.db, id, selectAt)
    ensures var w := TurnedAll(v, tasks, turns);
      id !in w.redis.processing && Applied(w.db, id)
    decreases |tasks|
  {
    var u := Turned(v, tasks[0], turns[0]);
    if tasks[0].id == id {
      assert Claimable(v.db, id, turns[0].now);
      assert forall i :: 0 <= i < |tasks[1..]| ==> tasks[1..][i] == tasks[i + 1];
      TurnedSkips(u, tasks[1..], turns[1..], id);
    } else {
      var i :| 0 <= i < |tasks| && tasks[i].id == id;
      assert tasks[1..][i - 1].id == id;
      TurnedHere(u, tasks[1..], turns[1..], selectAt, id);
    }
  }

  /** After the scan a batch can be selected exactly if it was inserted before, or the scan reached it. */
  lemma ScanMakesDueIff(s: State, ids: seq<int>, scanAt: int, selectAt: int, id: int)
    requires Inv(s) && Outstanding(s, id) && scanAt <= selectAt
    requires id in s.db.batches ==> s.db.batches[id].retryAt <= selectAt
    ensures var w := RecoveredAll(StoresOf(s), ids, scanAt);
      && (Claimable(w.db, id, selectAt) <==> id in s.db.batches || Reached(s.redis, ids, id))
      && (id in w.db.batches <==> id in s.db.batches || Reached(s.redis, ids, id))
      && (id in w.db.batches ==> Batch(w.db.batches[id].post, w.db.batches[id].delta) == s.redis.processing[id])
      && id in w.redis.processing && w.redis.processing[id] == s.redis.processing[id] && !Applied(w.db, id)
  {
    ScanMeans(StoresOf(s), ids, scanAt, id);
    if Reached(s.redis, ids, id) {
      var k :| 0 <= k < |ids| && ids[k] == id && AllParse(s.redis, ids, k);
      assert !Malformed(s.redis, id);
    }
    assert s.claims[id] == s.redis.processing[id];
  }

  /**
   * For every outstanding batch, every sample and every selection that does not miss the batch: a sweep in which
   * nothing fails applies and clears it exactly if it is well formed, and its row was there already or no malformed
   * batch precedes it in the sample.
   */
  lemma SweepRepairsIff(s: State, sweep: Sweep, id: int)
    requires Inv(s) && Outstanding(s, id) && ValidSweep(StoresOf(s), sweep)
    requires sweep.scanAt <= sweep.selectAt && AllWork(sweep.turns, sweep.selectAt)
    requires id in s.db.batches ==> s.db.batches[id].retryAt <= sweep.selectAt
    requires Claimable(RecoveredAll(StoresOf(s), sweep.ids, sweep.scanAt).db, id, sweep.selectAt) ==> Lists(sweep.tasks, id)
    ensures var w := Swept(StoresOf(s), sweep);
      var repaired := WellFormed(s.redis.processing[id]) && (id in s.db.batches || Reached(s.redis, sweep.ids, id));
      && (id !in w.redis.processing <==> repaired)
      && (Applied(w.db, id) <==> repaired)
  {
    var v := RecoveredAll(StoresOf(s), sweep.ids, sweep.scanAt);
    ScanMakesDueIff(s, sweep.ids, sweep.scanAt, sweep.selectAt, id);
    if Lists(sweep.tasks, id) && WellFormed(s.redis.processing[id]) {
      TurnedHere(v, sweep.tasks, sweep.turns, sweep.selectAt, id);
    } else {
      TurnedSkips(v, sweep.tasks, sweep.turns, id);
    }
  }

  // ---------------------------------------------------------------------------------------------
  // Any number of sweeps, and anything in between

  /** A sweep, or whatever else happens until the next one. */
  datatype Round = Tick(sweep: Sweep) | Between(steps: seq<Step>)

  ghost predicate ValidRound(s: State, round: Round) {
    match round
    case Tick(sweep) => ValidSweep(StoresOf(s), sweep)
    case Between(steps) => Valid(s, steps) && Idle(Run(s, steps).worker)
  }

  ghost function AfterRound(s: State, round: Round): State
    requires ValidRound(s, round)
  {
    match round
    case Tick(sweep) => WithStores(s, Swept(StoresOf(s), sweep))
    case Between(steps) => Run(s, steps)
  }

  ghost predicate ValidRounds(s: State, rounds: seq<Round>)
    decreases |rounds|
  {
    rounds == [] || (ValidRound(s, rounds[0]) && ValidRounds(AfterRound(s, rounds[0]), rounds[1..]))
  }

  ghost function AfterRounds(s: State, rounds: seq<Round>): State
    requires ValidRounds(s, rounds)
    decreases |rounds|
  {
    if rounds == [] then s else AfterRounds(AfterRound(s, rounds[0]), rounds[1..])
  }

  lemma {:induction false} TurnedKeepsRows(v: Stores, tasks: seq<Task>, turns: seq<Turn>, id: int)
    requires |turns| == |tasks| && id in v.db.batches
    ensures id in TurnedAll(v, tasks, turns).db.batches
    decreases |tasks|
  {
    if tasks != [] {
      TurnedKeepsRows(Turned(v, tasks[0], turns[0]), tasks[1..], turns[1..], id);
    }
  }

  /** Claimed, and never inserted. */
  predicate Uninserted(s: State, id: int) {
    id in s.redis.processing && id !in s.db.batches
  }

  /** The batch is inserted by a scan that reaches it. */
  lemma SweepInsertsIff(s: State, sweep: Sweep, id: int)
    requires Inv(s) && Idle(s.worker) && ValidSweep(StoresOf(s), sweep) && Uninserted(s, id)
    ensures var w := Swept(StoresOf(s), sweep);
      if Reached(s.redis, sweep.ids, id) then id in w.db.batches
      else id !in w.db.batches && id in w.redis.processing && w.redis.processing[id] == s.redis.processing[id]
  {
    var v := RecoveredAll(StoresOf(s), sweep.ids, sweep.scanAt);
    ScanMeans(StoresOf(s), sweep.ids, sweep.scanAt, id);
    if Reached(s.redis, sweep.ids, id) {
      var k :| 0 <= k < |sweep.ids| && sweep.ids[k] == id && AllParse(s.redis, sweep.ids, k);
      assert !Malformed(s.redis, id);
      TurnedKeepsRows(v, sweep.tasks, sweep.turns, id);
    } else {
      TurnedSkips(v, sweep.tasks, sweep.turns, id);
    }
  }

  /** The step is the claimer's own insert, and not of a zero delta. */
  predicate InsertsItself(s: State, step: Step, id: int) {
    step.InsertRow? && step.id == id && id in s.redis.processing && s.redis.processing[id].delta != 0
  }

  lemma StepInsertsIff(s: State, step: Step, id: int)
    requires Inv(s) && Enabled(s, step) && Uninserted(s, id)
    ensures var t := Next(s, step);
      && (id in t.db.batches <==> InsertsItself(s, step, id))
      && id in t.redis.processing && t.redis.processing[id] == s.redis.processing[id]
  {
    StepKeepsProcessing(s, step, id);
    assert s.claims[id] == s.redis.processing[id];
    if !step.InsertRow? && !step.ApplyNext? && !step.MarkNext? {
      assert Next(s, step).db.batches == s.db.batches;
    }
  }

  lemma StepKeepsRow(s: State, step: Step, id: int)
    requires Enabled(s, step) && id in s.db.batches
    ensures id in Next(s, step).db.batches
  {
    if !step.InsertRow? && !step.ApplyNext? && !step.MarkNext? {
      assert Next(s, step).db.batches == s.db.batches;
    }
  }

  predicate SomeInsertsItself(s: State, steps: seq<Step>, id: int) {
    exists i :: 0 <= i < |steps| && InsertsItself(s, steps[i], id)
  }

  lemma {:induction false} RunKeepsRow(s: State, steps: seq<Step>, id: int)
    requires Valid(s, steps) && id in s.db.batches
    ensures id in Run(s, steps).db.batches
    decreases |steps|
  {
    if steps != [] {
      StepKeepsRow(s, steps[0], id);
      RunKeepsRow(Next(s, steps[0]), steps[1..], id);
    }
  }

  lemma {:induction false} RunInsertsIff(s: State, steps: seq<Step>, id: int)
    requires Inv(s) && Valid(s, steps) && Uninserted(s, id)
    ensures var t := Run(s, steps);
      if SomeInsertsItself(s, steps, id) then id in t.db.batches
      else id !in t.db.batches && id in t.redis.processing && t.redis.processing[id] == s.redis.processing[id]
    decreases |steps|
  {
    if steps != [] {
      var t := Next(s, steps[0]);
      StepInv(s, steps[0]);
      StepInsertsIff(s, steps[0], id);
      assert forall i :: 0 <= i < |steps[1..]| ==> steps[1..][i] == steps[i + 1];
      if id in t.db.batches {
        RunKeepsRow(t, steps[1..], id);
      } else {
        RunInsertsIff(t, steps[1..], id);
        if SomeInsertsItself(s, steps, id) {
          var i :| 0 <= i < |steps| && InsertsItself(s, steps[i], id);
          assert InsertsItself(t, steps[1..][i - 1], id);
        }
        if SomeInsertsItself(t, steps[1..], id) {
          var i :| 0 <= i < |steps[1..]| && InsertsItself(t, steps[1..][i], id);
          assert InsertsItself(s, steps[i + 1], id);
        }
      }
    }
  }

  ghost predicate RoundInserts(s: State, round: Round, id: int) {
    match round
    case Tick(sweep) => Reached(s.redis, sweep.ids, id)
    case Between(steps) => SomeInsertsItself(s, steps, id)
  }

  lemma RoundInsertsIff(s: State, round: Round, id: int)
    requires Inv(s) && Idle(s.worker) && ValidRound(s, round) && Uninserted(s, id)
    ensures var t := AfterRound(s, round);
      Inv(t) && Idle(t.worker) && if RoundInserts(s, round, id) then id in t.db.batches else Uninserted(t, id)
  {
    match round
    case Tick(sweep) =>
      SweepIsRun(s, sweep);
      SweepInsertsIff(s, sweep, id);
    case Between(steps) =>
      RunInv(s, steps);
      RunInsertsIff(s, steps, id);
  }

  /** In some round, a sweep lists the batch before all that are malformed by then, or its claimer inserts it. */
  ghost predicate SomeRoundInserts(s: State, rounds: seq<Round>, id: int)
    requires ValidRounds(s, rounds)
    decreases |rounds|
  {
    rounds != [] &&
    (RoundInserts(s, rounds[0], id) || SomeRoundInserts(AfterRound(s, rounds[0]), rounds[1..], id))
  }

  lemma {:induction false} RoundsKeepRow(s: State, rounds: seq<Round>, id: int)
    requires ValidRounds(s, rounds) && id in s.db.batches
    ensures id in AfterRounds(s, rounds).db.batches
    decreases |rounds|
  {
    if rounds != [] {
      match rounds[0] {
        case Tick(sweep) =>
          ScanMeans(StoresOf(s), sweep.ids, sweep.scanAt, id);
          TurnedKeepsRows(RecoveredAll(StoresOf(s), sweep.ids, sweep.scanAt), sweep.tasks, sweep.turns, id);
        case Between(steps) => RunKeepsRow(s, steps, id);
      }
      RoundsKeepRow(AfterRound(s, rounds[0]), rounds[1..], id);
    }
  }

  /**
   * Over any number of sweeps, whatever fails in them, with any requests, claims, inserts and crashes in between: a
   * claimed batch without a row gets one exactly if its claimer inserts it after all, or some sweep's sample lists it
   * before every batch that is malformed in the state of that sweep. After a crash of the claimer only the second is
   * left, and a batch that all samples list behind a malformed one is never recovered.
   */
  lemma {:induction false} RecoveredIff(s: State, rounds: seq<Round>, id: int)
    requires Inv(s) && Idle(s.worker) && ValidRounds(s, rounds) && Uninserted(s, id)
    ensures var t := AfterRounds(s, rounds);
      && (id in t.db.batches <==> SomeRoundInserts(s, rounds, id))
      && (id !in t.db.batches ==> id in t.redis.processing)
    decreases |rounds|
  {
    if rounds != [] {
      RoundInsertsIff(s, rounds[0], id);
      if RoundInserts(s, rounds[0], id) {
        RoundsKeepRow(AfterRound(s, rounds[0]), rounds[1..], id);
      } else {
        RecoveredIff(AfterRound(s, rounds[0]), rounds[1..], id);
      }
    }
  }
}
