/** Comment transactions and the counter pipeline together; there is no lock, and deltas may go directly to MySQL. */
module CommentCount {
  import opened Tally
  import opened CounterPipeline
  import opened CounterLedger
  import C = Comments

  datatype Act = Txn(change: C.Step, request: int) | Back(step: Step)

  /** The active actors of a post are its visible comments. */
  ghost predicate Together(t: C.Table, s: State) {
    forall post :: ActiveIn(s.facts, post) == C.Visible(t, post)
  }

  predicate CanAct(t: C.Table, s: State, act: Act) {
    match act
    case Txn(change, request) => request !in s.facts.inflight
    case Back(step) => Enabled(s, step) && !step.Flip?
  }

  /** The pipeline steps of an act: a delta is a flip of its comment. */
  function Lift(t: C.Table, act: Act): seq<Step> {
    match act
    case Txn(change, request) =>
      if C.Delta(t, change) == 0 then [] else [Flip(request, C.PostOf(t, change), change.id)]
    case Back(step) => [step]
  }

  function TableAfter(t: C.Table, act: Act): C.Table {
    if act.Txn? then C.Next(t, act.change) else t
  }

  function StateAfter(t: C.Table, s: State, act: Act): State
    requires CanAct(t, s, act)
  {
    if Lift(t, act) == [] then s else Next(s, Lift(t, act)[0])
  }

  ghost predicate ValidActs(t: C.Table, s: State, acts: seq<Act>)
    decreases |acts|
  {
    acts == [] || (CanAct(t, s, acts[0]) && ValidActs(TableAfter(t, acts[0]), StateAfter(t, s, acts[0]), acts[1..]))
  }

  ghost function Final(t: C.Table, s: State, acts: seq<Act>): (C.Table, State)
    requires ValidActs(t, s, acts)
    decreases |acts|
  {
    if acts == [] then (t, s) else Final(TableAfter(t, acts[0]), StateAfter(t, s, acts[0]), acts[1..])
  }

  ghost function Lifted(t: C.Table, s: State, acts: seq<Act>): seq<Step>
    requires ValidActs(t, s, acts)
    decreases |acts|
  {
    if acts == [] then [] else Lift(t, acts[0]) + Lifted(TableAfter(t, acts[0]), StateAfter(t, s, acts[0]), acts[1..])
  }

  lemma BackKeepsActive(s: State, step: Step, post: int)
    requires Enabled(s, step) && !step.Flip?
    ensures ActiveIn(Next(s, step).facts, post) == ActiveIn(s.facts, post)
  {
  }

  lemma ActTogether(t: C.Table, s: State, act: Act)
    requires Together(t, s) && CanAct(t, s, act)
    ensures Together(TableAfter(t, act), StateAfter(t, s, act))
  {
    forall post ensures ActiveIn(StateAfter(t, s, act).facts, post) == C.Visible(TableAfter(t, act), post) {
      if act.Back? {
        BackKeepsActive(s, act.step, post);
      } else if C.Delta(t, act.change) == 0 {
        C.StepFlips(t, act.change, post);
      } else {
        C.DeltaIsPipelineFlip(t, act.change, s.facts, act.request);
      }
    }
  }

  lemma {:induction false} LiftedIsRun(t: C.Table, s: State, acts: seq<Act>)
    requires Together(t, s) && ValidActs(t, s, acts)
    ensures Valid(s, Lifted(t, s, acts)) && Run(s, Lifted(t, s, acts)) == Final(t, s, acts).1
    ensures Together(Final(t, s, acts).0, Final(t, s, acts).1)
    decreases |acts|
  {
    if acts != [] {
      var u, w := TableAfter(t, acts[0]), StateAfter(t, s, acts[0]);
      ActTogether(t, s, acts[0]);
      LiftedIsRun(u, w, acts[1..]);
      var lift := Lift(t, acts[0]);
      if lift == [] {
        assert lift + Lifted(u, w, acts[1..]) == Lifted(u, w, acts[1..]);
      } else {
        Unroll(s, lift, [s, w]);
        RunConcat(s, lift, Lifted(u, w, acts[1..]));
      }
    }
  }

  // ---------------------------------------------------------------------------------------------
  // Exactness

  /** Every update of the counter, from a batch or direct, finds it no smaller than what it takes away. */
  ghost predicate NeverBelow(s: State, steps: seq<Step>, post: int)
    requires Valid(s, steps)
    decreases |steps|
  {
    steps == [] ||
    ((forall d :: d in UpdatesBy(s, steps[0], post) ==> Counter(s, post) + d >= 0) && NeverBelow(Next(s, steps[0]), steps[1..], post))
  }

  lemma StepClipsIff(s: State, step: Step, post: int)
    ensures ClippedBy(s, step, post) >= 0
    ensures ClippedBy(s, step, post) == 0 <==> forall d :: d in UpdatesBy(s, step, post) ==> Counter(s, post) + d >= 0
  {
    if UpdatesBy(s, step, post) != [] {
      var d := UpdatesBy(s, step, post)[0];
      assert UpdatesBy(s, step, post) == [d] && d in UpdatesBy(s, step, post);
      OneClip(Counter(s, post), d);
    }
  }

  lemma {:induction false} ClipsIff(s: State, steps: seq<Step>, post: int)
    requires Valid(s, steps)
    ensures Clipped(s, steps, post) >= 0
    ensures Clipped(s, steps, post) == 0 <==> NeverBelow(s, steps, post)
    decreases |steps|
  {
    if steps != [] {
      StepClipsIff(s, steps[0], post);
      ClipsIff(Next(s, steps[0]), steps[1..], post);
    }
  }

  /** No delta of the post is dropped, and it is not reconciled. */
  predicate Keeps(step: Step, post: int) {
    !step.Lose? && step != Reconcile(post)
  }

  lemma {:induction false} NothingLost(s: State, steps: seq<Step>, post: int)
    requires Valid(s, steps) && forall i :: 0 <= i < |steps| ==> Keeps(steps[i], post)
    ensures Lost(s, steps, post) == 0 && Corrected(s, steps, post) == 0
    decreases |steps|
  {
    if steps != [] {
      assert Keeps(steps[0], post);
      NothingLost(Next(s, steps[0]), steps[1..], post);
    }
  }

  lemma {:induction false} LiftedKeeps(t: C.Table, s: State, acts: seq<Act>, post: int)
    requires ValidActs(t, s, acts) && forall i :: 0 <= i < |acts| && acts[i].Back? ==> Keeps(acts[i].step, post)
    ensures forall i :: 0 <= i < |Lifted(t, s, acts)| ==> Keeps(Lifted(t, s, acts)[i], post)
    decreases |acts|
  {
    if acts != [] {
      LiftedKeeps(TableAfter(t, acts[0]), StateAfter(t, s, acts[0]), acts[1..], post);
    }
  }

  /**
   * End to end, over every interleaving of comment transactions, enqueues in any order, direct upserts, flushes,
   * retries and crashes that drops and reconciles nothing: the counter is the number of visible comments minus what
   * is on its way, plus what was clipped; and it is exact if and only if no update, batched or direct, would have
   * taken it below zero.
   */
  lemma CommentCountIsExactIff(t: C.Table, s: State, acts: seq<Act>, post: int)
    requires Inv(s) && Together(t, s) && Drift(s, post) == 0 && ValidActs(t, s, acts)
    requires forall i :: 0 <= i < |acts| && acts[i].Back? ==> Keeps(acts[i].step, post)
    ensures Valid(s, Lifted(t, s, acts))
    ensures var (u, end) := Final(t, s, acts);
      var exact := |C.Visible(u, post)| - PendingDelta(end, post) - Unapplied(end, post) - InFlight(end, post);
      && Counter(end, post) == exact + Clipped(s, Lifted(t, s, acts), post)
      && (Counter(end, post) == exact <==> NeverBelow(s, Lifted(t, s, acts), post))
  {
    LiftedIsRun(t, s, acts);
    LiftedKeeps(t, s, acts, post);
    NothingLost(s, Lifted(t, s, acts), post);
    Conservation(s, Lifted(t, s, acts), post);
    ClipsIff(s, Lifted(t, s, acts), post);
  }

  /** A fallback that overtakes the pending delta it belongs after leaves the counter too high by what it clips. */
  lemma FallbackOvertakes(s: State, request: int, post: int)
    requires Inv(s) && request in s.facts.inflight && s.facts.inflight[request].post == post
    ensures Drift(Next(s, Direct(request)), post)
         == Drift(s, post) + Max(0, -(Counter(s, post) + s.facts.inflight[request].delta))
  {
    StepDrift(s, Direct(request), post);
    OneClip(Counter(s, post), s.facts.inflight[request].delta);
  }
}
