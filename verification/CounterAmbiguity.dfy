/**
 * The pipeline when a commit can report an error although it took effect. The failure update that follows has no
 * status guard, so the batch becomes due again.
 */
module CounterAmbiguity {
  import opened CounterDb
  import opened CounterPipeline
  import opened CounterLedger

  datatype Act = Plain(step: Step) | CommitUnheard(now: int)

  predicate CanAct(s: State, act: Act) {
    match act
    case Plain(step) => Enabled(s, step)
    case CommitUnheard(_) => s.worker.queue != [] && s.worker.marking == [] && !Skipped(s.worker.queue[0])
  }

  function AfterAct(s: State, act: Act): State
    requires CanAct(s, act)
  {
    match act
    case Plain(step) => Next(s, step)
    case CommitUnheard(now) =>
      s.(db := Apply(s.db, s.worker.queue[0], now), worker := Worker(s.worker.queue[1..], [s.worker.queue[0].id]))
  }

  ghost predicate ValidActs(s: State, acts: seq<Act>)
    decreases |acts|
  {
    acts == [] || (CanAct(s, acts[0]) && ValidActs(AfterAct(s, acts[0]), acts[1..]))
  }

  ghost function RunActs(s: State, acts: seq<Act>): State
    requires ValidActs(s, acts)
    decreases |acts|
  {
    if acts == [] then s else RunActs(AfterAct(s, acts[0]), acts[1..])
  }

  function Count(b: bool): int {
    if b then 1 else 0
  }

  /** The act adds the delta of the batch to its counter. */
  predicate Adds(s: State, act: Act, id: int) {
    && s.worker.queue != [] && s.worker.queue[0].id == id
    && match act
       case Plain(step) => AppliesHead(s, step)
       case CommitUnheard(now) => Claimable(s.db, id, now)
  }

  predicate AddsUnheard(s: State, act: Act, id: int) {
    act.CommitUnheard? && Adds(s, act, id)
  }

  /** The failure update hits the batch although it is applied. */
  predicate Undoes(s: State, act: Act, id: int) {
    act.Plain? && act.step.MarkNext? && s.worker.marking != [] && s.worker.marking[0] == id && Applied(s.db, id)
  }

  ghost function Additions(s: State, acts: seq<Act>, id: int): int
    requires ValidActs(s, acts)
    decreases |acts|
  {
    if acts == [] then 0 else Count(Adds(s, acts[0], id)) + Additions(AfterAct(s, acts[0]), acts[1..], id)
  }

  ghost function Unheard(s: State, acts: seq<Act>, id: int): int
    requires ValidActs(s, acts)
    decreases |acts|
  {
    if acts == [] then 0 else Count(AddsUnheard(s, acts[0], id)) + Unheard(AfterAct(s, acts[0]), acts[1..], id)
  }

  ghost function Undone(s: State, acts: seq<Act>, id: int): int
    requires ValidActs(s, acts)
    decreases |acts|
  {
    if acts == [] then 0 else Count(Undoes(s, acts[0], id)) + Undone(AfterAct(s, acts[0]), acts[1..], id)
  }

  lemma ActBalances(s: State, act: Act, id: int)
    requires CanAct(s, act)
    ensures Count(Applied(AfterAct(s, act).db, id))
         == Count(Applied(s.db, id)) + Count(Adds(s, act, id)) - Count(Undoes(s, act, id))
  {
    if act.Plain? && !act.step.ApplyNext? && !act.step.MarkNext? && !act.step.InsertRow? {
      assert AfterAct(s, act).db.batches == s.db.batches;
    }
  }

  /** Every addition of a batch but the last is undone by a failure update. */
  lemma {:induction false} RunBalances(s: State, acts: seq<Act>, id: int)
    requires ValidActs(s, acts)
    ensures Additions(s, acts, id)
         == Count(Applied(RunActs(s, acts).db, id)) - Count(Applied(s.db, id)) + Undone(s, acts, id)
    decreases |acts|
  {
    if acts != [] {
      ActBalances(s, acts[0], id);
      RunBalances(AfterAct(s, acts[0]), acts[1..], id);
    }
  }

  /** The worker's selection is distinct and not applied; nothing is said of the batch it has to mark. */
  ghost predicate Holds(w: Worker, d: Database) {
    && |w.marking| <= 1
    && (forall i, j :: 0 <= i < j < |w.queue| ==> w.queue[i].id != w.queue[j].id)
    && (forall i :: 0 <= i < |w.queue| ==> !Applied(d, w.queue[i].id))
  }

  predicate MarksApplied(s: State, id: int) {
    s.worker.marking == [id] && Applied(s.db, id)
  }

  lemma ActHolds(s: State, act: Act)
    requires Holds(s.worker, s.db) && CanAct(s, act)
    ensures Holds(AfterAct(s, act).worker, AfterAct(s, act).db)
  {
    if act.Plain? && !act.step.ApplyNext? && !act.step.MarkNext? && !act.step.InsertRow? {
      assert AfterAct(s, act).db.batches == s.db.batches;
    }
  }

  /** The mark of an applied batch is given up: its statement fails, or the worker restarts. */
  predicate Drops(s: State, act: Act, id: int) {
    act.Plain? && (act.step.SkipMark? || act.step.Crash?) && MarksApplied(s, id)
  }

  ghost function Dropped(s: State, acts: seq<Act>, id: int): int
    requires ValidActs(s, acts)
    decreases |acts|
  {
    if acts == [] then 0 else Count(Drops(s, acts[0], id)) + Dropped(AfterAct(s, acts[0]), acts[1..], id)
  }

  lemma ActMarks(s: State, act: Act, id: int)
    requires Holds(s.worker, s.db) && CanAct(s, act)
    ensures Count(Undoes(s, act, id)) + Count(Drops(s, act, id)) + Count(MarksApplied(AfterAct(s, act), id))
         == Count(MarksApplied(s, id)) + Count(AddsUnheard(s, act, id))
  {
    if act.Plain? && !act.step.ApplyNext? && !act.step.MarkNext? && !act.step.InsertRow? {
      assert AfterAct(s, act).db.batches == s.db.batches;
    }
  }

  /** Every unheard commit leads to a mark of an applied batch, which gets through, is given up, or is still due. */
  lemma {:induction false} RunMarks(s: State, acts: seq<Act>, id: int)
    requires Holds(s.worker, s.db) && ValidActs(s, acts)
    ensures Undone(s, acts, id) + Dropped(s, acts, id) + Count(MarksApplied(RunActs(s, acts), id))
         == Count(MarksApplied(s, id)) + Unheard(s, acts, id)
    decreases |acts|
  {
    if acts != [] {
      ActHolds(s, acts[0]);
      ActMarks(s, acts[0], id);
      RunMarks(AfterAct(s, acts[0]), acts[1..], id);
    }
  }

  /** A failure update hits the applied batch, and a later act adds its delta. */
  ghost predicate UndoneAndAdded(s: State, acts: seq<Act>, id: int)
    requires ValidActs(s, acts)
    decreases |acts|
  {
    acts != [] &&
    ((Undoes(s, acts[0], id) && Additions(AfterAct(s, acts[0]), acts[1..], id) > 0)
     || UndoneAndAdded(AfterAct(s, acts[0]), acts[1..], id))
  }

  lemma {:induction false} AddedAgainIff(s: State, acts: seq<Act>, id: int)
    requires ValidActs(s, acts)
    ensures UndoneAndAdded(s, acts, id) <==> Additions(s, acts, id) > 1 - Count(Applied(s.db, id))
    decreases |acts|
  {
    if acts != [] {
      AddedAgainIff(AfterAct(s, acts[0]), acts[1..], id);
      ActBalances(s, acts[0], id);
      AdditionsCount(AfterAct(s, acts[0]), acts[1..], id);
    }
  }

  lemma {:induction false} AdditionsCount(s: State, acts: seq<Act>, id: int)
    requires ValidActs(s, acts)
    ensures Additions(s, acts, id) >= 0
    decreases |acts|
  {
    if acts != [] {
      AdditionsCount(AfterAct(s, acts[0]), acts[1..], id);
    }
  }

  /**
   * Over every run from a state of the pipeline: a batch is added twice or more exactly if a failure update hits it
   * while it is applied and a later turn of the loop applies it again. Each such update takes an unheard commit, and
   * each unheard commit leads to one unless its mark is given up or still due; without unheard commits there is none.
   */
  lemma AddedTwiceIff(s: State, acts: seq<Act>, id: int)
    requires Inv(s) && ValidActs(s, acts) && !Applied(s.db, id)
    ensures Additions(s, acts, id) > 1 <==> UndoneAndAdded(s, acts, id)
    ensures Undone(s, acts, id) + Dropped(s, acts, id) + Count(MarksApplied(RunActs(s, acts), id)) == Unheard(s, acts, id)
    ensures Additions(s, acts, id) == Undone(s, acts, id) + Count(Applied(RunActs(s, acts).db, id))
  {
    RunBalances(s, acts, id);
    AddedAgainIff(s, acts, id);
    forall i | 0 <= i < |s.worker.queue| ensures !Applied(s.db, s.worker.queue[i].id) {
      assert Held(s.db.batches, s.worker.queue[i]);
    }
    RunMarks(s, acts, id);
  }
}
