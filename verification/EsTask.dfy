/**
 * The consumer's and the retry worker's loops, statement by statement against Elasticsearch and the two tables,
 * and the proof that each of them is a run of the step system.
 */
module EsTask {
  import opened EsVersions
  import opened EsSync

  /** Which of the calls for one row get through; a failing INDEX may have written all the same. */
  datatype Luck = Luck(get: bool, index: bool, wrote: bool, save: bool)

  /** What the steps work on. */
  datatype Stores = Stores(es: map<Key, Doc>, retry: map<nat, RetryRow>, nextId: nat, dead: seq<DeadLetter>)

  /** A row of es_sync_retry as it was selected. */
  datatype Selected = Selected(id: nat, row: RetryRow)

  /** Whether processCanalRow returns an error. */
  predicate Fails(es: map<Key, Doc>, e: Event, luck: Luck) {
    KeyOf(e).None? || !luck.get || (!Skips(es, e) && !luck.index)
  }

  function Tried(v: Stores, e: Event, luck: Luck): Stores {
    if KeyOf(e).None? || !luck.get || Skips(v.es, e) || !(luck.index || luck.wrote) then v
    else v.(es := Indexed(v.es, e))
  }

  function Saved(v: Stores, e: Event): Stores {
    if KeyOf(e).None? then v.(dead := v.dead + [DeadEvent(e)])
    else v.(retry := v.retry[v.nextId := RetryRow(e, 0)], nextId := v.nextId + 1)
  }

  /** The loop over the rows of a message; it stops where an error cannot even be saved. */
  function Handled(v: Stores, events: seq<Event>, luck: nat -> Luck, i: nat): Stores
    requires i <= |events|
    decreases |events| - i
  {
    if i == |events| then v
    else
      var u := Tried(v, events[i], luck(i));
      if !Fails(v.es, events[i], luck(i)) then Handled(u, events, luck, i + 1)
      else if luck(i).save then Handled(Saved(u, events[i]), events, luck, i + 1)
      else u
  }

  predicate Stops(v: Stores, events: seq<Event>, luck: nat -> Luck, i: nat)
    requires i <= |events|
    decreases |events| - i
  {
    i < |events| &&
    var u := Tried(v, events[i], luck(i));
    if !Fails(v.es, events[i], luck(i)) then Stops(u, events, luck, i + 1)
    else !luck(i).save || Stops(Saved(u, events[i]), events, luck, i + 1)
  }

  function HandledMessage(v: Stores, offset: nat, m: Message, luck: nat -> Luck): Stores {
    match m
    case Poison => if luck(0).save then v.(dead := v.dead + [DeadMessage(offset)]) else v
    case Rows(events) => Handled(v, events, luck, 0)
  }

  predicate StopsAt(v: Stores, m: Message, luck: nat -> Luck) {
    match m
    case Poison => !luck(0).save
    case Rows(events) => Stops(v, events, luck, 0)
  }

  /** The fetch, handle, commit loop until the log ends or an error ends it. */
  function Consumed(v: Stores, log: seq<Message>, committed: nat, luck: nat -> nat -> Luck, commits: nat -> bool): (Stores, nat)
    requires committed <= |log|
    decreases |log| - committed
  {
    if committed == |log| then (v, committed)
    else
      var u := HandledMessage(v, committed, log[committed], luck(committed));
      if StopsAt(v, log[committed], luck(committed)) || !commits(committed) then (u, committed)
      else Consumed(u, log, committed + 1, luck, commits)
  }

  /** One row of the retry loop. */
  function Retried(v: Stores, s: Selected, luck: Luck): Stores {
    var u := Tried(v, s.row.event, luck);
    if !luck.save then u
    else if !Fails(v.es, s.row.event, luck) then u.(retry := u.retry - {s.id})
    else if s.row.count + 1 >= MAX_ATTEMPTS then
      u.(dead := u.dead + [DeadEvent(s.row.event)], retry := u.retry - {s.id})
    else u.(retry := if s.id in u.retry then u.retry[s.id := s.row.(count := s.row.count + 1)] else u.retry)
  }

  /** The retry loop ends with the first row whose outcome cannot be recorded. */
  function RetriedAll(v: Stores, rows: seq<Selected>, luck: nat -> Luck, i: nat): Stores
    requires i <= |rows|
    decreases |rows| - i
  {
    if i == |rows| then v
    else
      var u := Retried(v, rows[i], luck(i));
      if luck(i).save then RetriedAll(u, rows, luck, i + 1) else u
  }

  // ---------------------------------------------------------------------------------------------
  // What the loops promise

  /** The row has a document id, and the read does not find it written already. */
  predicate NeedsWrite(es: map<Key, Doc>, e: Event) {
    e.table != OtherTable && e.id > 0 && !Skips(es, e)
  }

  /** A row fails exactly if it has no document id, or its GET fails, or an INDEX that it needs reports an error. */
  lemma FailsIff(es: map<Key, Doc>, e: Event, luck: Luck)
    ensures Fails(es, e, luck)
      <==> e.table == OtherTable || e.id <= 0 || !luck.get || (NeedsWrite(es, e) && !luck.index)
  {
  }

  /** It is written exactly if it needs to be and the INDEX comes through, whatever that reports; nothing else changes. */
  lemma TriedMeans(v: Stores, e: Event, luck: Luck)
    ensures Tried(v, e, luck)
      == if NeedsWrite(v.es, e) && luck.get && (luck.index || luck.wrote) then v.(es := Indexed(v.es, e)) else v
  {
  }

  /**
   * A retry of a row that is still in the table: when it succeeds the row is gone; when it fails the row is counted
   * up, or with its third failure moved to the dead letters; and when its outcome cannot be recorded it stays.
   */
  lemma RetriedMeans(v: Stores, s: Selected, luck: Luck)
    requires s.id in v.retry && v.retry[s.id] == s.row
    ensures var w, failed := Retried(v, s, luck), Fails(v.es, s.row.event, luck);
      && w.es == Tried(v, s.row.event, luck).es && w.nextId == v.nextId
      && (!luck.save ==> w.retry == v.retry && w.dead == v.dead)
      && (luck.save && !failed ==> w.retry == v.retry - {s.id} && w.dead == v.dead)
      && (luck.save && failed && s.row.count + 1 < 3 ==>
        w.retry == v.retry[s.id := RetryRow(s.row.event, s.row.count + 1)] && w.dead == v.dead)
      && (luck.save && failed && s.row.count + 1 >= 3 ==>
        w.retry == v.retry - {s.id} && w.dead == v.dead + [DeadEvent(s.row.event)])
  {
  }

  /** Three recorded failures take a new row to the dead letters. */
  lemma ThreeFailuresDeadLetter(v: Stores, id: nat, e: Event, one: Luck, two: Luck, three: Luck)
    requires id in v.retry && v.retry[id] == RetryRow(e, 0)
    requires one.save && two.save && three.save
    requires Fails(v.es, e, one)
    requires Fails(Tried(v, e, one).es, e, two)
    requires Fails(Tried(Tried(v, e, one), e, two).es, e, three)
    ensures var w := Retried(Retried(Retried(v, Selected(id, RetryRow(e, 0)), one),
                                     Selected(id, RetryRow(e, 1)), two), Selected(id, RetryRow(e, 2)), three);
      id !in w.retry && w.dead == v.dead + [DeadEvent(e)]
  {
    var a := Retried(v, Selected(id, RetryRow(e, 0)), one);
    RetriedMeans(v, Selected(id, RetryRow(e, 0)), one);
    var b := Retried(a, Selected(id, RetryRow(e, 1)), two);
    RetriedMeans(a, Selected(id, RetryRow(e, 1)), two);
    RetriedMeans(b, Selected(id, RetryRow(e, 2)), three);
  }

  /** The stores after one row that the loop gets over. */
  function AfterRow(v: Stores, e: Event, luck: Luck): Stores {
    if Fails(v.es, e, luck) then Saved(Tried(v, e, luck), e) else Tried(v, e, luck)
  }

  /** The stores after the rows from i up to k, as if the loop got over each of them. */
  function UpTo(v: Stores, events: seq<Event>, luck: nat -> Luck, i: nat, k: nat): Stores
    requires i <= k <= |events|
    decreases k - i
  {
    if i == k then v else UpTo(AfterRow(v, events[i], luck(i)), events, luck, i + 1, k)
  }

  /** Row k fails when its turn comes, and cannot be saved. */
  predicate StuckAt(v: Stores, events: seq<Event>, luck: nat -> Luck, i: nat, k: nat)
    requires i <= k < |events|
  {
    Fails(UpTo(v, events, luck, i, k).es, events[k], luck(k)) && !luck(k).save
  }

  /** The loop stops exactly if some row fails and cannot be saved. */
  lemma {:induction false} StopsIff(v: Stores, events: seq<Event>, luck: nat -> Luck, i: nat)
    requires i <= |events|
    ensures Stops(v, events, luck, i) <==> exists k :: i <= k < |events| && StuckAt(v, events, luck, i, k)
    decreases |events| - i
  {
    if i < |events| {
      var u, n := AfterRow(v, events[i], luck(i)), i + 1;
      StopsIff(u, events, luck, n);
      if Fails(v.es, events[i], luck(i)) && !luck(i).save {
        assert StuckAt(v, events, luck, i, i);
      } else {
        assert Stops(v, events, luck, i) == Stops(u, events, luck, i + 1);
        if k :| i <= k < |events| && StuckAt(v, events, luck, i, k) {
          assert k > i && StuckAt(u, events, luck, n, k);
        }
        if k :| n <= k < |events| && StuckAt(u, events, luck, n, k) {
          assert StuckAt(v, events, luck, i, k);
        }
      }
    }
  }

  /** It gets over all rows when it does not stop. */
  lemma {:induction false} HandledToTheEnd(v: Stores, events: seq<Event>, luck: nat -> Luck, i: nat)
    requires i <= |events| && !Stops(v, events, luck, i)
    ensures Handled(v, events, luck, i) == UpTo(v, events, luck, i, |events|)
    decreases |events| - i
  {
    if i < |events| {
      HandledToTheEnd(AfterRow(v, events[i], luck(i)), events, luck, i + 1);
    }
  }

  /** And it ends with the attempt on the first row it is stuck at. */
  lemma {:induction false} HandledUntilStuck(v: Stores, events: seq<Event>, luck: nat -> Luck, i: nat, k: nat)
    requires i <= k < |events| && StuckAt(v, events, luck, i, k)
    requires forall j :: i <= j < k ==> !StuckAt(v, events, luck, i, j)
    ensures Handled(v, events, luck, i) == Tried(UpTo(v, events, luck, i, k), events[k], luck(k))
    decreases k - i
  {
    if i < k {
      var u, n := AfterRow(v, events[i], luck(i)), i + 1;
      assert !StuckAt(v, events, luck, i, i);
      forall j | n <= j < k ensures !StuckAt(u, events, luck, n, j) {
        assert !StuckAt(v, events, luck, i, j);
      }
      HandledUntilStuck(u, events, luck, n, k);
    }
  }

  /** When every GET and INDEX works and every row has a document id, nothing is parked or dead-lettered. */
  lemma {:induction false} HandledGoesWell(v: Stores, events: seq<Event>, luck: nat -> Luck, i: nat)
    requires i <= |events|
    requires forall k :: i <= k < |events| ==> luck(k).get && luck(k).index && events[k].table != OtherTable && events[k].id > 0
    ensures !Stops(v, events, luck, i)
    ensures var w := Handled(v, events, luck, i);
      w.retry == v.retry && w.nextId == v.nextId && w.dead == v.dead
    decreases |events| - i
  {
    if i < |events| {
      HandledGoesWell(Tried(v, events[i], luck(i)), events, luck, i + 1);
    }
  }

  /** What a row that cannot be processed becomes: a new retry row, or without a document id a dead letter. */
  lemma SavedMeans(v: Stores, e: Event)
    ensures var w := Saved(v, e);
      if e.table != OtherTable && e.id > 0 then
        w == v.(retry := v.retry[v.nextId := RetryRow(e, 0)], nextId := v.nextId + 1)
      else w == v.(dead := v.dead + [DeadEvent(e)])
  {
  }

  /**
   * The consumer takes every message in turn until the log ends, a message stops it, or a commit fails; it commits
   * what comes before and nothing after.
   */
  lemma {:induction false} ConsumeStopsIff(v: Stores, log: seq<Message>, committed: nat, luck: nat -> nat -> Luck, commits: nat -> bool)
    requires committed <= |log|
    ensures var (w, c) := Consumed(v, log, committed, luck, commits);
      && committed <= c <= |log|
      && (forall o :: committed <= o < c ==> commits(o))
      && (c == |log| ==> w == HandledUpTo(v, log, committed, c, luck))
      && (c < |log| ==>
        var u := HandledUpTo(v, log, committed, c, luck);
        && (StopsAt(u, log[c], luck(c)) || !commits(c))
        && w == HandledMessage(u, c, log[c], luck(c)))
      && (forall o :: committed <= o < c ==> !StopsAt(HandledUpTo(v, log, committed, o, luck), log[o], luck(o)))
    decreases |log| - committed
  {
    if committed < |log| {
      var u := HandledMessage(v, committed, log[committed], luck(committed));
      if !StopsAt(v, log[committed], luck(committed)) && commits(committed) {
        ConsumeStopsIff(u, log, committed + 1, luck, commits);
        forall o | committed < o <= |log|
          ensures HandledUpTo(v, log, committed, o, luck) == HandledUpTo(u, log, committed + 1, o, luck)
        {
        }
      }
    }
  }

  /** The stores after the messages from `first` up to `last`, as if each were handled to its end. */
  function HandledUpTo(v: Stores, log: seq<Message>, first: nat, last: nat, luck: nat -> nat -> Luck): Stores
    requires first <= last <= |log|
    decreases last - first
  {
    if first == last then v else HandledUpTo(HandledMessage(v, first, log[first], luck(first)), log, first + 1, last, luck)
  }

  /** So it gets to the end of the log whenever failures can be saved and commits get through. */
  lemma ConsumeReachesTheEnd(v: Stores, log: seq<Message>, committed: nat, luck: nat -> nat -> Luck, commits: nat -> bool)
    requires committed <= |log|
    requires forall o: nat :: committed <= o < |log| ==> commits(o)
    requires forall o: nat, i: nat :: committed <= o < |log| ==> luck(o)(i).save
    ensures Consumed(v, log, committed, luck, commits).1 == |log|
  {
    ConsumeStopsIff(v, log, committed, luck, commits);
    var c := Consumed(v, log, committed, luck, commits).1;
    if c < |log| {
      var u := HandledUpTo(v, log, committed, c, luck);
      if log[c].Rows? {
        StopsIff(u, log[c].events, luck(c), 0);
      }
    }
  }

  class JobWorker {
    const log: seq<Message>
    var committed: nat
    var es: map<Key, Doc>
    var retry: map<nat, RetryRow>
    var nextId: nat
    var dead: seq<DeadLetter>

    constructor (log: seq<Message>)
      ensures this.log == log && committed == 0 && View() == Stores(map[], map[], 0, [])
    {
      this.log := log;
      committed, nextId := 0, 0;
      es, retry, dead := map[], map[], [];
    }

    function View(): Stores
      reads this
    {
      Stores(es, retry, nextId, dead)
    }

    method ProcessCanalRow(e: Event, luck: Luck) returns (failed: bool)
      modifies this
      ensures View() == Tried(old(View()), e, luck) && committed == old(committed)
      ensures failed == Fails(old(es), e, luck)
    {
      if KeyOf(e).None? || !luck.get {
        return true;
      }
      var key := KeyOf(e).value;
      if key in es {
        var current := es[key].version;
        if current.file != "" && current.pos > 0 && !IsNewer(e.version, current) {
          return false;
        }
      }
      if luck.index || luck.wrote {
        es := Indexed(es, e);
      }
      failed := !luck.index;
    }

    method SaveRetry(e: Event)
      modifies this
      ensures View() == Saved(old(View()), e) && committed == old(committed)
    {
      if KeyOf(e).None? {
        dead := dead + [DeadEvent(e)];
      } else {
        retry := retry[nextId := RetryRow(e, 0)];
        nextId := nextId + 1;
      }
    }

    method HandleMessage(m: Message, luck: nat -> Luck) returns (failed: bool)
      modifies this
      ensures View() == HandledMessage(old(View()), old(committed), m, luck) && committed == old(committed)
      ensures failed == StopsAt(old(View()), m, luck)
    {
      failed := false;
      if m.Poison? {
        if !luck(0).save {
          return true;
        }
        dead := dead + [DeadMessage(committed)];
        return;
      }
      var i := 0;
      while i < |m.events|
        invariant 0 <= i <= |m.events| && committed == old(committed)
        invariant Handled(View(), m.events, luck, i) == Handled(old(View()), m.events, luck, 0)
        invariant Stops(View(), m.events, luck, i) == Stops(old(View()), m.events, luck, 0)
      {
        var bad := ProcessCanalRow(m.events[i], luck(i));
        if bad {
          if !luck(i).save {
            return true;
          }
          SaveRetry(m.events[i]);
        }
        i := i + 1;
      }
    }

    method Consume(luck: nat -> nat -> Luck, commits: nat -> bool)
      requires committed <= |log|
      modifies this
      ensures (View(), committed) == old(Consumed(View(), log, committed, luck, commits))
    {
      while committed < |log|
        invariant committed <= |log|
        invariant Consumed(View(), log, committed, luck, commits) == old(Consumed(View(), log, committed, luck, commits))
        decreases |log| - committed
      {
        var failed := HandleMessage(log[committed], luck(committed));
        if failed || !commits(committed) {
          return;
        }
        committed := committed + 1;
      }
    }

    method ProcessRetryRow(row: Selected, luck: Luck) returns (failed: bool)
      modifies this
      ensures View() == Retried(old(View()), row, luck) && committed == old(committed)
      ensures failed == !luck.save
    {
      var bad := ProcessCanalRow(row.row.event, luck);
      failed := !luck.save;
      if failed {
        return;
      }
      if bad {
        var count := row.row.count + 1;
        if count >= MAX_ATTEMPTS {
          dead := dead + [DeadEvent(row.row.event)];
          retry := retry - {row.id};
        } else if row.id in retry {
          retry := retry[row.id := row.row.(count := count)];
        }
      } else {
        retry := retry - {row.id};
      }
    }

    method ProcessRetries(rows: seq<Selected>, luck: nat -> Luck) returns (failed: bool)
      modifies this
      ensures View() == RetriedAll(old(View()), rows, luck, 0) && committed == old(committed)
      ensures failed <==> exists i :: 0 <= i < |rows| && !luck(i).save
    {
      failed := false;
      for i := 0 to |rows|
        invariant committed == old(committed)
        invariant RetriedAll(View(), rows, luck, i) == RetriedAll(old(View()), rows, luck, 0)
        invariant forall k :: 0 <= k < i ==> luck(k).save
      {
        failed := ProcessRetryRow(rows[i], luck(i));
        if failed {
          return;
        }
      }
    }
  }

  // ---------------------------------------------------------------------------------------------
  // The loops are runs

  function StoresOf(s: State): Stores {
    Stores(s.es, s.retry, s.nextId, s.dead)
  }

  function WithStores(s: State, v: Stores): State {
    s.(es := v.es, retry := v.retry, nextId := v.nextId, dead := v.dead)
  }

  /** The state can be reached from the other. */
  ghost predicate Reaches(s: State, t: State) {
    exists steps :: Valid(s, steps) && Run(s, steps) == t
  }

  lemma {:induction false} RunConcat(s: State, steps: seq<Step>, more: seq<Step>)
    requires Valid(s, steps) && Valid(Run(s, steps), more)
    ensures Valid(s, steps + more) && Run(s, steps + more) == Run(Run(s, steps), more)
    decreases |steps|
  {
    if steps == [] {
      assert steps + more == more;
    } else {
      assert (steps + more)[1..] == steps[1..] + more;
      RunConcat(Next(s, steps[0]), steps[1..], more);
    }
  }

  lemma Stay(s: State)
    ensures Reaches(s, s)
  {
    assert Valid(s, []) && Run(s, []) == s;
  }

  lemma Then(s: State, t: State, step: Step)
    requires Reaches(s, t) && Enabled(t, step)
    ensures Reaches(s, Next(t, step))
  {
    var steps :| Valid(s, steps) && Run(s, steps) == t;
    assert [step][1..] == [];
    assert Valid(Next(t, step), []);
    RunConcat(s, steps, [step]);
  }

  lemma Through(s: State, t: State, u: State)
    requires Reaches(s, t) && Reaches(t, u)
    ensures Reaches(s, u)
  {
    var steps :| Valid(s, steps) && Run(s, steps) == t;
    var more :| Valid(t, more) && Run(t, more) == u;
    RunConcat(s, steps, more);
  }

  /** The GET and the INDEX of the row the consumer is at. */
  lemma TryIsRun(s: State, luck: Luck)
    requires AtRow(s, Ready)
    ensures var t := WithStores(s, Tried(StoresOf(s), Current(s), luck));
      Reaches(s, if Fails(s.es, Current(s), luck) then t.(consumer := s.consumer.(phase := Failing)) else NextRow(t))
  {
    Stay(s);
    Then(s, s, Get(luck.get));
    var t := Next(s, Get(luck.get));
    if KeyOf(Current(s)).Some? && luck.get && !Skips(s.es, Current(s)) {
      Then(s, t, Index(luck.index, luck.wrote));
    }
  }

  /** The state in which the handling of the rows from `i` on ends. */
  function RowsEnd(s: State, events: seq<Event>, luck: nat -> Luck, i: nat): State
    requires i <= |events|
  {
    var t := WithStores(s, Handled(StoresOf(s), events, luck, i));
    t.(consumer := if Stops(StoresOf(s), events, luck, i) then Fetching else Handling(|events|, Ready))
  }

  /** One row, up to the next one or to the crash that follows an error nobody could save. */
  lemma RowIsRun(s: State, luck: Luck)
    requires AtRow(s, Ready) && s.retrier.Resting?
    ensures var u := Tried(StoresOf(s), Current(s), luck);
      Reaches(s,
        if !Fails(s.es, Current(s), luck) then NextRow(WithStores(s, u))
        else if luck.save then NextRow(WithStores(s, Saved(u, Current(s))))
        else WithStores(s, u).(consumer := Fetching))
  {
    TryIsRun(s, luck);
    if Fails(s.es, Current(s), luck) {
      var t := WithStores(s, Tried(StoresOf(s), Current(s), luck)).(consumer := s.consumer.(phase := Failing));
      Then(s, t, if luck.save then SaveRetry else Crash);
    }
  }

  lemma {:induction false} RowsAreRun(s: State, luck: nat -> Luck, i: nat)
    requires s.committed < |s.log| && s.log[s.committed].Rows? && i <= |s.log[s.committed].events|
    requires s.consumer == Handling(i, Ready) && s.retrier.Resting?
    ensures Reaches(s, RowsEnd(s, s.log[s.committed].events, luck, i))
    decreases |s.log[s.committed].events| - i
  {
    var events := s.log[s.committed].events;
    if i == |events| {
      Stay(s);
    } else {
      var e, u := events[i], Tried(StoresOf(s), events[i], luck(i));
      RowIsRun(s, luck(i));
      if !Fails(s.es, e, luck(i)) || luck(i).save {
        var t := NextRow(WithStores(s, if Fails(s.es, e, luck(i)) then Saved(u, e) else u));
        RowsAreRun(t, luck, i + 1);
        Through(s, t, RowsEnd(s, events, luck, i));
      }
    }
  }

  lemma MessageIsRun(s: State, luck: nat -> Luck)
    requires s.committed < |s.log| && s.consumer.Fetching? && s.retrier.Resting?
    ensures var m := s.log[s.committed];
      var t := WithStores(s, HandledMessage(StoresOf(s), s.committed, m, luck));
      Reaches(s, if StopsAt(StoresOf(s), m, luck) then t else t.(consumer := Committing))
  {
    var m, u := s.log[s.committed], Next(s, Fetch);
    Stay(s);
    Then(s, s, Fetch);
    if m.Poison? {
      if luck(0).save {
        Then(s, u, SavePoison);
      } else {
        Then(s, u, Crash);
      }
    } else {
      RowsAreRun(u, luck, 0);
      var w := RowsEnd(u, m.events, luck, 0);
      Through(s, u, w);
      if !StopsAt(StoresOf(s), m, luck) {
        Then(s, w, Finish);
      }
    }
  }

  /** The whole consumer loop is a run, whichever of its calls fail: what holds of all runs holds of it. */
  lemma {:induction false} ConsumeIsRun(s: State, luck: nat -> nat -> Luck, commits: nat -> bool)
    requires s.committed <= |s.log| && s.consumer.Fetching? && s.retrier.Resting?
    ensures var (v, committed) := Consumed(StoresOf(s), s.log, s.committed, luck, commits);
      Reaches(s, WithStores(s, v).(committed := committed))
    decreases |s.log| - s.committed
  {
    if s.committed == |s.log| {
      Stay(s);
    } else {
      var m := s.log[s.committed];
      MessageIsRun(s, luck(s.committed));
      var t := WithStores(s, HandledMessage(StoresOf(s), s.committed, m, luck(s.committed)));
      if !StopsAt(StoresOf(s), m, luck(s.committed)) {
        var u := t.(consumer := Committing);
        if commits(s.committed) {
          Then(s, u, Commit);
          ConsumeIsRun(Next(u, Commit), luck, commits);
          var (v, committed) := Consumed(StoresOf(s), s.log, s.committed, luck, commits);
          Through(s, Next(u, Commit), WithStores(s, v).(committed := committed));
        } else {
          Then(s, u, Crash);
        }
      }
    }
  }

  /** The selection agrees with the table, from `i` on. */
  predicate Chosen(retry: map<nat, RetryRow>, rows: seq<Selected>, i: nat) {
    && (forall j, k :: i <= j < k < |rows| ==> rows[j].id != rows[k].id)
    && (forall k :: i <= k < |rows| ==> rows[k].id in retry && retry[rows[k].id] == rows[k].row)
  }

  lemma RetryRowIsRun(s: State, row: Selected, luck: Luck)
    requires s.retrier.Resting? && row.id in s.retry && s.retry[row.id] == row.row && KeyOf(row.row.event).Some?
    ensures Reaches(s, WithStores(s, Retried(StoresOf(s), row, luck)))
  {
    var e := row.row.event;
    Stay(s);
    Then(s, s, Pick(row.id));
    var t := Next(s, Pick(row.id));
    Then(s, t, RetryGet(luck.get));
    var u := Next(t, RetryGet(luck.get));
    if luck.get && !Skips(s.es, e) {
      Then(s, u, RetryIndex(luck.index, luck.wrote));
      u := Next(u, RetryIndex(luck.index, luck.wrote));
    }
    assert u == WithStores(s, Tried(StoresOf(s), e, luck)).(
      retrier := Retrying(row.id, if Fails(s.es, e, luck) then Failing else Finished));
    if !luck.save {
      Then(s, u, Abandon);
    } else if Fails(s.es, e, luck) {
      Then(s, u, RecordFailure);
    } else {
      Then(s, u, DeleteRow);
    }
  }

  /** The retry loop over a selection is a run. */
  lemma {:induction false} RetriesAreRun(s: State, rows: seq<Selected>, luck: nat -> Luck, i: nat)
    requires i <= |rows| && Chosen(s.retry, rows, i) && s.retrier.Resting?
    requires forall k :: i <= k < |rows| ==> KeyOf(rows[k].row.event).Some?
    ensures Reaches(s, WithStores(s, RetriedAll(StoresOf(s), rows, luck, i)))
    decreases |rows| - i
  {
    if i == |rows| {
      Stay(s);
    } else {
      RetryRowIsRun(s, rows[i], luck(i));
      if luck(i).save {
        var t := WithStores(s, Retried(StoresOf(s), rows[i], luck(i)));
        RetriesAreRun(t, rows, luck, i + 1);
        Through(s, t, WithStores(s, RetriedAll(StoresOf(s), rows, luck, i)));
      }
    }
  }

  /** So the consumer loop loses nothing it committed, from a new start and whatever fails. */
  lemma ConsumeLosesNothing(log: seq<Message>, luck: nat -> nat -> Luck, commits: nat -> bool, o: nat)
    requires GoodLog(log)
    requires o < Consumed(Stores(map[], map[], 0, []), log, 0, luck, commits).1
    ensures var v := Consumed(Stores(map[], map[], 0, []), log, 0, luck, commits).0;
      && o < |log|
      && (log[o].Poison? ==> DeadMessage(o) in v.dead)
      && (log[o].Rows? ==> forall e :: e in log[o].events ==>
        Dominated(v.es, e) || Parked(v.retry, e) || DeadEvent(e) in v.dead)
  {
    var s := Start(log);
    ConsumeIsRun(s, luck, commits);
    var (v, committed) := Consumed(StoresOf(s), log, 0, luck, commits);
    var steps :| Valid(s, steps) && Run(s, steps) == WithStores(s, v).(committed := committed);
    NoSilentLoss(log, steps, o);
  }
}
