/**
 * From committed Kafka messages to Elasticsearch: the consumer and the retry worker write the same documents,
 * each with a GET and an INDEX that interleave, fail and crash; the external_gte check is the only guard.
 */
module EsSync {
  import opened Wrappers
  import opened EsVersions

  datatype TableName = PostTable | StudyCommentTable | OtherTable

  datatype Key = Key(table: TableName, id: int)

  /** One row change. `body` stands for the columns, `deleted` for the event type DELETE. */
  datatype Event = Event(table: TableName, id: int, version: Version, deleted: bool, body: int)

  /** An indexed document, up to the wall-clock fields; a deleted row is indexed as a tombstone. */
  datatype Doc = Doc(version: Version, tombstone: bool, body: int)

  datatype Message = Poison | Rows(events: seq<Event>)

  datatype DeadLetter = DeadMessage(offset: nat) | DeadEvent(event: Event)

  datatype RetryRow = RetryRow(event: Event, count: nat)

  /** How far the processing of one row is. */
  datatype Phase = Ready | Checked | Failing | Finished

  datatype Consumer = Fetching | Handling(i: nat, phase: Phase) | Committing

  datatype Retrier = Resting | Retrying(id: nat, phase: Phase)

  datatype State = State(
    log: seq<Message>,
    committed: nat,                   // the Kafka offset
    consumer: Consumer,
    es: map<Key, Doc>,
    retry: map<nat, RetryRow>,        // es_sync_retry by its auto-increment id
    nextId: nat,
    dead: seq<DeadLetter>,            // es_sync_dlq
    retrier: Retrier)

  datatype Step =
    | Fetch
    | SavePoison
    | Get(ok: bool)                   // GET, and the comparison with the stored version
    | Blind                           // no GET: the code without its read before the write
    | Index(ok: bool, wrote: bool)    // an INDEX that reports an error may still have written
    | SaveRetry
    | Finish
    | Commit
    | Pick(id: nat)
    | RetryGet(ok: bool)
    | RetryBlind
    | RetryIndex(ok: bool, wrote: bool)
    | DeleteRow
    | RecordFailure
    | Abandon                         // the bookkeeping statement fails; the row stays as it is
    | Crash

  const MAX_ATTEMPTS := 3

  function KeyOf(e: Event): Option<Key> {
    if e.table.OtherTable? || e.id <= 0 then None else Some(Key(e.table, e.id))
  }

  function DocOf(e: Event): Doc {
    Doc(e.version, e.deleted, e.body)
  }

  function Rank(v: Version): int {
    match External(v) case Some(n) => n case None => -1
  }

  /** The version check and the write are one step inside Elasticsearch; a conflict counts as success. */
  function Indexed(es: map<Key, Doc>, e: Event): map<Key, Doc>
    requires KeyOf(e).Some?
  {
    var key := KeyOf(e).value;
    if key in es && External(e.version).Some? && Rank(es[key].version) > Rank(e.version) then es
    else es[key := DocOf(e)]
  }

  /** The read before the write skips what is not newer than a stored version. */
  predicate Skips(es: map<Key, Doc>, e: Event)
    requires KeyOf(e).Some?
  {
    var key := KeyOf(e).value;
    && key in es
    && es[key].version.file != "" && es[key].version.pos > 0
    && !IsNewer(e.version, es[key].version)
  }

  function Current(s: State): Event
    requires s.committed < |s.log| && s.log[s.committed].Rows?
    requires s.consumer.Handling? && s.consumer.i < |s.log[s.committed].events|
  {
    s.log[s.committed].events[s.consumer.i]
  }

  /** The consumer is at a row, in the given phase. */
  predicate AtRow(s: State, phase: Phase) {
    && s.committed < |s.log| && s.log[s.committed].Rows?
    && s.consumer.Handling? && s.consumer.i < |s.log[s.committed].events|
    && s.consumer.phase == phase
  }

  predicate RetryAt(s: State, phase: Phase) {
    s.retrier.Retrying? && s.retrier.id in s.retry && s.retrier.phase == phase && KeyOf(s.retry[s.retrier.id].event).Some?
  }

  predicate Enabled(s: State, step: Step) {
    match step
    case Fetch => s.consumer.Fetching? && s.committed < |s.log|
    case SavePoison => s.consumer == Handling(0, Ready) && s.committed < |s.log| && s.log[s.committed].Poison?
    case Get(_) => AtRow(s, Ready)
    case Blind => AtRow(s, Ready) && KeyOf(Current(s)).Some?
    case Index(_, _) => AtRow(s, Checked) && KeyOf(Current(s)).Some?
    case SaveRetry => AtRow(s, Failing)
    case Finish =>
      && s.committed < |s.log| && s.log[s.committed].Rows?
      && s.consumer == Handling(|s.log[s.committed].events|, Ready)
    case Commit => s.consumer.Committing? && s.committed < |s.log|
    case Pick(id) => s.retrier.Resting? && id in s.retry
    case RetryGet(_) => RetryAt(s, Ready)
    case RetryBlind => RetryAt(s, Ready)
    case RetryIndex(_, _) => RetryAt(s, Checked)
    case DeleteRow => RetryAt(s, Finished)
    case RecordFailure => RetryAt(s, Failing)
    case Abandon => s.retrier.Retrying?
    case Crash => true
  }

  function NextRow(s: State): State
    requires s.consumer.Handling?
  {
    s.(consumer := Handling(s.consumer.i + 1, Ready))
  }

  function Next(s: State, step: Step): State
    requires Enabled(s, step)
  {
    match step
    case Fetch => s.(consumer := Handling(0, Ready))
    case SavePoison => s.(dead := s.dead + [DeadMessage(s.committed)], consumer := Committing)
    case Get(ok) =>
      if KeyOf(Current(s)).None? || !ok then s.(consumer := s.consumer.(phase := Failing))
      else if Skips(s.es, Current(s)) then NextRow(s)
      else s.(consumer := s.consumer.(phase := Checked))
    case Blind => s.(consumer := s.consumer.(phase := Checked))
    case Index(ok, wrote) =>
      if ok then NextRow(s.(es := Indexed(s.es, Current(s))))
      else s.(es := if wrote then Indexed(s.es, Current(s)) else s.es, consumer := s.consumer.(phase := Failing))
    case SaveRetry =>
      if KeyOf(Current(s)).None? then NextRow(s.(dead := s.dead + [DeadEvent(Current(s))]))
      else NextRow(s.(retry := s.retry[s.nextId := RetryRow(Current(s), 0)], nextId := s.nextId + 1))
    case Finish => s.(consumer := Committing)
    case Commit => s.(committed := s.committed + 1, consumer := Fetching)
    case Pick(id) => s.(retrier := Retrying(id, Ready))
    case RetryGet(ok) =>
      var e := s.retry[s.retrier.id].event;
      s.(retrier := s.retrier.(phase := if !ok then Failing else if Skips(s.es, e) then Finished else Checked))
    case RetryBlind => s.(retrier := s.retrier.(phase := Checked))
    case RetryIndex(ok, wrote) =>
      var e := s.retry[s.retrier.id].event;
      s.(es := if ok || wrote then Indexed(s.es, e) else s.es,
         retrier := s.retrier.(phase := if ok then Finished else Failing))
    case DeleteRow => s.(retry := s.retry - {s.retrier.id}, retrier := Resting)
    case RecordFailure =>
      var row := s.retry[s.retrier.id];
      if row.count + 1 >= MAX_ATTEMPTS then
        s.(dead := s.dead + [DeadEvent(row.event)], retry := s.retry - {s.retrier.id}, retrier := Resting)
      else
        s.(retry := s.retry[s.retrier.id := row.(count := row.count + 1)], retrier := Resting)
    case Abandon => s.(retrier := Resting)
    case Crash => s.(consumer := Fetching, retrier := Resting)
  }

  ghost predicate Valid(s: State, steps: seq<Step>)
    decreases |steps|
  {
    steps == [] || (Enabled(s, steps[0]) && Valid(Next(s, steps[0]), steps[1..]))
  }

  ghost function Run(s: State, steps: seq<Step>): State
    requires Valid(s, steps)
    decreases |steps|
  {
    if steps == [] then s else Run(Next(s, steps[0]), steps[1..])
  }

  function Start(log: seq<Message>): State {
    State(log, 0, Fetching, map[], map[], 0, [], Resting)
  }

  // ---------------------------------------------------------------------------------------------
  // Assumptions on the log

  predicate InLog(log: seq<Message>, e: Event) {
    exists o :: 0 <= o < |log| && Carries(log[o], e)
  }

  predicate Carries(m: Message, e: Event) {
    m.Rows? && e in m.events
  }

  predicate SameKey(e: Event, f: Event) {
    KeyOf(e).Some? && KeyOf(f) == KeyOf(e)
  }

  /** Versions of one document are comparable, and equal versions mean equal events. */
  ghost predicate GoodLog(log: seq<Message>) {
    forall e, f :: InLog(log, e) && InLog(log, f) && SameKey(e, f) ==>
      Comparable(e.version, f.version) && (Rank(e.version) == Rank(f.version) ==> DocOf(e) == DocOf(f))
  }

  /** The binlog of one server is such a log, if one position changes one row at most once. */
  lemma BinlogIsGood(log: seq<Message>)
    requires forall e :: InLog(log, e) ==> Binlog(e.version)
    requires forall e, f :: InLog(log, e) && InLog(log, f) ==> SameName(e.version, f.version)
    requires forall e, f :: InLog(log, e) && InLog(log, f) && SameKey(e, f) && e.version == f.version ==> DocOf(e) == DocOf(f)
    ensures GoodLog(log)
  {
    forall e, f | InLog(log, e) && InLog(log, f) && SameKey(e, f)
      ensures Comparable(e.version, f.version) && (Rank(e.version) == Rank(f.version) ==> DocOf(e) == DocOf(f))
    {
      BinlogsAreComparable(e.version, f.version);
      EncodingOrders(e.version, f.version);
    }
  }

  // ---------------------------------------------------------------------------------------------
  // Invariant

  /** The stored document is at least as new as the event. */
  predicate Dominated(es: map<Key, Doc>, e: Event) {
    KeyOf(e).Some? && KeyOf(e).value in es && Rank(es[KeyOf(e).value].version) >= Rank(e.version)
  }

  predicate Parked(retry: map<nat, RetryRow>, e: Event) {
    exists id :: id in retry && retry[id].event == e
  }

  predicate Safe(s: State, e: Event) {
    Dominated(s.es, e) || Parked(s.retry, e) || DeadEvent(e) in s.dead
  }

  predicate MessageSafe(s: State, o: nat)
    requires o < |s.log|
  {
    if s.log[o].Poison? then DeadMessage(o) in s.dead
    else forall i :: 0 <= i < |s.log[o].events| ==> Safe(s, s.log[o].events[i])
  }

  predicate Source(log: seq<Message>, key: Key, doc: Doc, e: Event) {
    InLog(log, e) && KeyOf(e) == Some(key) && DocOf(e) == doc
  }

  ghost predicate DocsSourced(log: seq<Message>, es: map<Key, Doc>) {
    forall key :: key in es ==> exists e :: Source(log, key, es[key], e)
  }

  predicate GoodRow(log: seq<Message>, row: RetryRow) {
    row.count < MAX_ATTEMPTS && InLog(log, row.event) && KeyOf(row.event).Some?
  }

  ghost predicate RowsSourced(log: seq<Message>, retry: map<nat, RetryRow>, nextId: nat) {
    forall id :: id in retry ==> id < nextId && GoodRow(log, retry[id])
  }

  /** Every stored document and every parked row comes from the log. */
  ghost predicate Sourced(s: State) {
    && DocsSourced(s.log, s.es)
    && RowsSourced(s.log, s.retry, s.nextId)
    && (s.retrier.Retrying? ==> s.retrier.id in s.retry)
  }

  /** The rows the consumer has passed, of the message it is at. */
  ghost predicate PassedSafe(s: State, n: nat)
    requires s.committed < |s.log| && s.log[s.committed].Rows?
  {
    n <= |s.log[s.committed].events| && forall i :: 0 <= i < n ==> Safe(s, s.log[s.committed].events[i])
  }

  /** What the consumer has passed is safe; what the retrier is about to delete is dominated. */
  ghost predicate Progress(s: State) {
    && s.committed <= |s.log|
    && (forall o: nat :: o < s.committed ==> MessageSafe(s, o))
    && (s.consumer.Handling? && s.committed < |s.log| && s.log[s.committed].Rows? ==> PassedSafe(s, s.consumer.i))
    && (s.consumer.Committing? && s.committed < |s.log| ==> MessageSafe(s, s.committed))
    && (RetryAt(s, Finished) ==> Dominated(s.es, s.retry[s.retrier.id].event))
  }

  ghost predicate Inv(s: State) {
    GoodLog(s.log) && Sourced(s) && Progress(s)
  }

  // ---------------------------------------------------------------------------------------------
  // Writes

  /** Posts and comments with a positive id are indexed under it, and nothing else is. */
  lemma KeyOfMeans(e: Event)
    ensures KeyOf(e).Some? <==> e.table != OtherTable && e.id > 0
    ensures KeyOf(e).Some? ==> KeyOf(e).value.table == e.table && KeyOf(e).value.id == e.id
  {
  }

  /** A versioned write replaces exactly what is not newer, and a deleted row is indexed as a tombstone. */
  lemma IndexedMeans(es: map<Key, Doc>, e: Event)
    requires e.table != OtherTable && e.id > 0 && External(e.version).Some?
    requires Key(e.table, e.id) in es ==> External(es[Key(e.table, e.id)].version).Some?
    ensures var key := Key(e.table, e.id);
      Indexed(es, e)
        == if key in es && External(es[key].version).value > External(e.version).value then es
           else es[key := Doc(e.version, e.deleted, e.body)]
  {
  }

  /** The read skips exactly what a stored version with a file and a position makes not newer. */
  lemma SkipsMeans(es: map<Key, Doc>, e: Event)
    requires e.table != OtherTable && e.id > 0
    ensures var key := Key(e.table, e.id);
      Skips(es, e) <==> key in es && es[key].version.file != "" && es[key].version.pos > 0 && !IsNewer(e.version, es[key].version)
  {
  }

  lemma IndexDominates(log: seq<Message>, es: map<Key, Doc>, e: Event, f: Event)
    requires GoodLog(log) && InLog(log, e) && KeyOf(e).Some?
    ensures Dominated(Indexed(es, e), e)
    ensures Dominated(es, f) ==> Dominated(Indexed(es, e), f)
  {
    assert SameKey(e, e) && Comparable(e.version, e.version);
  }

  lemma SkipDominates(s: State, e: Event)
    requires GoodLog(s.log) && Sourced(s) && InLog(s.log, e) && KeyOf(e).Some? && Skips(s.es, e)
    ensures Dominated(s.es, e)
  {
    var key := KeyOf(e).value;
    var f :| Source(s.log, key, s.es[key], f);
    assert SameKey(e, f) && Comparable(e.version, f.version);
  }

  // ---------------------------------------------------------------------------------------------
  // Every step keeps what is safe

  lemma CurrentInLog(s: State)
    requires s.committed < |s.log| && s.log[s.committed].Rows?
    requires s.consumer.Handling? && s.consumer.i < |s.log[s.committed].events|
    ensures InLog(s.log, Current(s))
  {
  }

  /** The event a step indexes, if it writes. */
  predicate Writes(s: State, step: Step) {
    && Enabled(s, step)
    && ((step.Index? && (step.ok || step.wrote)) || (step.RetryIndex? && (step.ok || step.wrote)))
  }

  function Written(s: State, step: Step): Event
    requires Writes(s, step)
  {
    if step.Index? then Current(s) else s.retry[s.retrier.id].event
  }

  lemma StepWrites(s: State, step: Step)
    requires Inv(s) && Enabled(s, step)
    ensures Next(s, step).es == if Writes(s, step) then Indexed(s.es, Written(s, step)) else s.es
    ensures Writes(s, step) ==> InLog(s.log, Written(s, step)) && KeyOf(Written(s, step)).Some?
    ensures Next(s, step).log == s.log
  {
    if step.Index? {
      CurrentInLog(s);
    }
  }

  lemma StepKeepsDominated(s: State, step: Step, e: Event)
    requires Inv(s) && Enabled(s, step) && Dominated(s.es, e)
    ensures Dominated(Next(s, step).es, e)
  {
    StepWrites(s, step);
    if Writes(s, step) {
      IndexDominates(s.log, s.es, Written(s, step), e);
    }
  }

  lemma StepKeepsParked(s: State, step: Step, e: Event)
    requires Inv(s) && Enabled(s, step) && Parked(s.retry, e)
    ensures Safe(Next(s, step), e)
  {
    var t := Next(s, step);
    var id :| id in s.retry && s.retry[id].event == e;
    if id in t.retry {
      assert t.retry[id].event == e;
    } else if step.DeleteRow? {
      assert Dominated(s.es, e);
    } else {
      assert t.dead[|t.dead| - 1] == DeadEvent(e);
    }
  }

  lemma StepKeepsSafe(s: State, step: Step, e: Event)
    requires Inv(s) && Enabled(s, step) && Safe(s, e)
    ensures Safe(Next(s, step), e)
  {
    if Dominated(s.es, e) {
      StepKeepsDominated(s, step, e);
    } else if Parked(s.retry, e) {
      StepKeepsParked(s, step, e);
    } else {
      assert s.dead <= Next(s, step).dead;
    }
  }

  lemma StepKeepsMessageSafe(s: State, step: Step, o: nat)
    requires Inv(s) && Enabled(s, step) && o < |s.log| && MessageSafe(s, o)
    ensures Next(s, step).log == s.log && MessageSafe(Next(s, step), o)
  {
    if s.log[o].Poison? {
      assert s.dead <= Next(s, step).dead;
    } else {
      forall i | 0 <= i < |s.log[o].events| ensures Safe(Next(s, step), s.log[o].events[i]) {
        StepKeepsSafe(s, step, s.log[o].events[i]);
      }
    }
  }

  lemma StepSourcedEs(s: State, step: Step, key: Key)
    requires Inv(s) && Enabled(s, step) && key in Next(s, step).es
    ensures exists e :: Source(s.log, key, Next(s, step).es[key], e)
  {
    StepWrites(s, step);
    if Writes(s, step) && KeyOf(Written(s, step)) == Some(key) && Next(s, step).es[key] == DocOf(Written(s, step)) {
      assert Source(s.log, key, Next(s, step).es[key], Written(s, step));
    } else {
      assert s.es[key] == Next(s, step).es[key];
    }
  }

  lemma StepSourcedDocs(s: State, step: Step)
    requires Inv(s) && Enabled(s, step)
    ensures DocsSourced(s.log, Next(s, step).es)
  {
    forall key | key in Next(s, step).es ensures exists e :: Source(s.log, key, Next(s, step).es[key], e) {
      StepSourcedEs(s, step, key);
    }
  }

  lemma StepSourcedRows(s: State, step: Step)
    requires Inv(s) && Enabled(s, step)
    ensures var t := Next(s, step);
      RowsSourced(s.log, t.retry, t.nextId) && (t.retrier.Retrying? ==> t.retrier.id in t.retry)
  {
    var t := Next(s, step);
    if step.SaveRetry? {
      CurrentInLog(s);
    } else if step.RecordFailure? {
      assert GoodRow(s.log, s.retry[s.retrier.id]);
    } else if !step.DeleteRow? {
      assert t.retry == s.retry && t.nextId == s.nextId;
    }
  }

  lemma StepSourced(s: State, step: Step)
    requires Inv(s) && Enabled(s, step)
    ensures Sourced(Next(s, step))
  {
    StepWrites(s, step);
    StepSourcedDocs(s, step);
    StepSourcedRows(s, step);
  }

  /** The row the consumer leaves behind is safe. */
  lemma RowIsSafe(s: State, step: Step)
    requires Inv(s) && Enabled(s, step)
    requires AtRow(s, Ready) || AtRow(s, Checked) || AtRow(s, Failing)
    requires Next(s, step).consumer == Handling(s.consumer.i + 1, Ready)
    ensures Safe(Next(s, step), Current(s))
  {
    CurrentInLog(s);
    var t := Next(s, step);
    if step.Get? {
      SkipDominates(s, Current(s));
    } else if step.Index? {
      IndexDominates(s.log, s.es, Current(s), Current(s));
    } else {
      if KeyOf(Current(s)).None? {
        assert t.dead[|t.dead| - 1] == DeadEvent(Current(s));
      } else {
        assert t.retry[s.nextId].event == Current(s);
      }
    }
  }

  /** The consumer goes through the rows one by one. */
  lemma StepConsumes(s: State, step: Step)
    requires Enabled(s, step) && !step.Fetch?
    ensures var t := Next(s, step);
      t.consumer.Handling? ==>
        && s.consumer.Handling? && t.committed == s.committed && t.log == s.log
        && (t.consumer.i == s.consumer.i
            || (t.consumer == Handling(s.consumer.i + 1, Ready) && (AtRow(s, Ready) || AtRow(s, Checked) || AtRow(s, Failing))))
  {
  }

  lemma PassedStaysSafe(s: State, step: Step, t: State, n: nat)
    requires Inv(s) && Enabled(s, step) && t == Next(s, step) && t.committed == s.committed && t.log == s.log
    requires s.committed < |s.log| && s.log[s.committed].Rows? && PassedSafe(s, n)
    ensures PassedSafe(t, n)
  {
    forall i | 0 <= i < n ensures Safe(t, t.log[t.committed].events[i]) {
      StepKeepsSafe(s, step, s.log[s.committed].events[i]);
    }
  }

  lemma PassedGrows(t: State, n: nat)
    requires t.committed < |t.log| && t.log[t.committed].Rows? && n < |t.log[t.committed].events|
    requires PassedSafe(t, n) && Safe(t, t.log[t.committed].events[n])
    ensures PassedSafe(t, n + 1)
  {
  }

  lemma StepHandling(s: State, step: Step)
    requires Inv(s) && Enabled(s, step)
    ensures var t := Next(s, step);
      t.consumer.Handling? && t.committed < |t.log| && t.log[t.committed].Rows? ==> PassedSafe(t, t.consumer.i)
  {
    var t := Next(s, step);
    if t.consumer.Handling? && t.committed < |t.log| && t.log[t.committed].Rows? && !step.Fetch? {
      StepConsumes(s, step);
      PassedStaysSafe(s, step, t, s.consumer.i);
      if t.consumer.i != s.consumer.i {
        RowIsSafe(s, step);
        PassedGrows(t, s.consumer.i);
      }
    }
  }

  lemma StepCommitting(s: State, step: Step)
    requires Inv(s) && Enabled(s, step)
    ensures var t := Next(s, step);
      t.consumer.Committing? && t.committed < |t.log| ==> MessageSafe(t, t.committed)
  {
    var t := Next(s, step);
    if step.SavePoison? {
      assert t.dead[|t.dead| - 1] == DeadMessage(s.committed);
    } else if step.Finish? {
      assert MessageSafe(s, s.committed);
      StepKeepsMessageSafe(s, step, s.committed);
    } else if s.consumer.Committing? && s.committed < |s.log| && !step.Commit? {
      StepKeepsMessageSafe(s, step, s.committed);
    }
  }

  lemma StepFinished(s: State, step: Step)
    requires Inv(s) && Enabled(s, step)
    ensures var t := Next(s, step);
      RetryAt(t, Finished) ==> Dominated(t.es, t.retry[t.retrier.id].event)
  {
    var t := Next(s, step);
    if RetryAt(t, Finished) {
      if step.RetryGet? {
        SkipDominates(s, s.retry[s.retrier.id].event);
      } else if step.RetryIndex? {
        IndexDominates(s.log, s.es, s.retry[s.retrier.id].event, s.retry[s.retrier.id].event);
      } else {
        assert t.retrier == s.retrier && t.retry[s.retrier.id] == s.retry[s.retrier.id];
        StepKeepsDominated(s, step, s.retry[s.retrier.id].event);
      }
    }
  }

  lemma StepInv(s: State, step: Step)
    requires Inv(s) && Enabled(s, step)
    ensures Inv(Next(s, step))
  {
    var t := Next(s, step);
    StepWrites(s, step);
    StepSourced(s, step);
    StepHandling(s, step);
    StepCommitting(s, step);
    StepFinished(s, step);
    forall o: nat | o < t.committed ensures MessageSafe(t, o) {
      StepKeepsMessageSafe(s, step, o);
    }
  }

  lemma {:induction false} RunInv(s: State, steps: seq<Step>)
    requires Inv(s) && Valid(s, steps)
    ensures Inv(Run(s, steps)) && Run(s, steps).log == s.log
    decreases |steps|
  {
    if steps != [] {
      StepInv(s, steps[0]);
      StepWrites(s, steps[0]);
      RunInv(Next(s, steps[0]), steps[1..]);
    }
  }

  lemma StartInv(log: seq<Message>)
    requires GoodLog(log)
    ensures Inv(Start(log))
  {
  }

  // ---------------------------------------------------------------------------------------------
  // Main results

  /**
   * No silent loss: after any run with crashes and failures, every row of a committed message is dominated by
   * the stored document, waits in es_sync_retry, or is in es_sync_dlq; a committed poison message is in the DLQ.
   */
  lemma NoSilentLoss(log: seq<Message>, steps: seq<Step>, o: nat)
    requires GoodLog(log) && Valid(Start(log), steps) && o < Run(Start(log), steps).committed
    ensures var s := Run(Start(log), steps);
      && s.log == log && o < |log|
      && (log[o].Poison? ==> DeadMessage(o) in s.dead)
      && (log[o].Rows? ==> forall e :: e in log[o].events ==>
        Dominated(s.es, e) || Parked(s.retry, e) || DeadEvent(e) in s.dead)
  {
    StartInv(log);
    RunInv(Start(log), steps);
    var s := Run(Start(log), steps);
    assert MessageSafe(s, o);
    if log[o].Rows? {
      forall e | e in log[o].events ensures Safe(s, e) {
        var i :| 0 <= i < |log[o].events| && log[o].events[i] == e;
      }
    }
  }

  /** All work on the document is done, and none of it ended in the DLQ. */
  predicate Drained(s: State, key: Key) {
    && s.committed == |s.log|
    && (forall id :: id in s.retry ==> KeyOf(s.retry[id].event) != Some(key))
    && (forall i :: 0 <= i < |s.dead| ==> !(s.dead[i].DeadEvent? && KeyOf(s.dead[i].event) == Some(key)))
  }

  ghost predicate Highest(log: seq<Message>, key: Key, best: Event) {
    forall f :: InLog(log, f) && KeyOf(f) == Some(key) ==> Rank(f.version) <= Rank(best.version)
  }

  /**
   * Convergence: whatever the order, the duplicates, the crashes and the interleaving of the two writers, a
   * drained document is that of the event with the highest version.
   */
  lemma Converges(log: seq<Message>, steps: seq<Step>, key: Key, e: Event)
    requires GoodLog(log) && Valid(Start(log), steps) && Drained(Run(Start(log), steps), key)
    requires InLog(log, e) && KeyOf(e) == Some(key)
    ensures var s := Run(Start(log), steps);
      && key in s.es
      && (exists best :: Source(log, key, s.es[key], best) && Highest(log, key, best))
  {
    StartInv(log);
    RunInv(Start(log), steps);
    var s := Run(Start(log), steps);
    forall f | InLog(log, f) && KeyOf(f) == Some(key) ensures Dominated(s.es, f) {
      var o :| 0 <= o < |log| && Carries(log[o], f);
      NoSilentLoss(log, steps, o);
    }
    assert Dominated(s.es, e);
    var best :| Source(log, key, s.es[key], best);
    forall f | InLog(log, f) && KeyOf(f) == Some(key) ensures Rank(f.version) <= Rank(best.version) {
      assert Dominated(s.es, f);
    }
  }

  lemma {:induction false} RunKeepsDominated(s: State, steps: seq<Step>, e: Event)
    requires Inv(s) && Valid(s, steps) && Dominated(s.es, e)
    ensures Dominated(Run(s, steps).es, e)
    decreases |steps|
  {
    if steps != [] {
      StepInv(s, steps[0]);
      StepKeepsDominated(s, steps[0], e);
      RunKeepsDominated(Next(s, steps[0]), steps[1..], e);
    }
  }

  /** An event that a stored document dominates can be written at any later time without any effect. */
  lemma DominatedWriteIsVoid(s: State, e: Event)
    requires Inv(s) && InLog(s.log, e) && Dominated(s.es, e)
    ensures Indexed(s.es, e) == s.es
  {
    var key := KeyOf(e).value;
    var f :| Source(s.log, key, s.es[key], f);
    assert SameKey(e, f) && Comparable(e.version, f.version);
  }

  /**
   * GET and INDEX are separate steps. A write that the read made unnecessary would change nothing after any run of
   * the other writer either.
   */
  lemma SkippedWriteIsVoid(s: State, steps: seq<Step>, e: Event)
    requires Inv(s) && Valid(s, steps) && InLog(s.log, e) && KeyOf(e).Some? && Skips(s.es, e)
    ensures Indexed(Run(s, steps).es, e) == Run(s, steps).es
  {
    SkipDominates(s, e);
    RunInv(s, steps);
    RunKeepsDominated(s, steps, e);
    DominatedWriteIsVoid(Run(s, steps), e);
  }

  lemma NoEventNoDocument(log: seq<Message>, steps: seq<Step>, key: Key)
    requires GoodLog(log) && Valid(Start(log), steps) && key in Run(Start(log), steps).es
    ensures exists e :: InLog(log, e) && KeyOf(e) == Some(key)
  {
    StartInv(log);
    RunInv(Start(log), steps);
    var s := Run(Start(log), steps);
    var e :| Source(log, key, s.es[key], e);
  }

  /**
   * Any two drained runs of one log end with the same document, each with a read before every write, before some, or
   * before none: the read that skips writes changes no final document.
   */
  lemma DrainedRunsAgree(log: seq<Message>, a: seq<Step>, b: seq<Step>, key: Key)
    requires GoodLog(log) && Valid(Start(log), a) && Valid(Start(log), b)
    requires Drained(Run(Start(log), a), key) && Drained(Run(Start(log), b), key)
    ensures var s, t := Run(Start(log), a), Run(Start(log), b);
      (key in s.es <==> key in t.es) && (key in s.es ==> s.es[key] == t.es[key])
  {
    var s, t := Run(Start(log), a), Run(Start(log), b);
    if key in s.es || key in t.es {
      NoEventNoDocument(log, if key in s.es then a else b, key);
      var e :| InLog(log, e) && KeyOf(e) == Some(key);
      Converges(log, a, key, e);
      Converges(log, b, key, e);
      var f :| Source(log, key, s.es[key], f) && Highest(log, key, f);
      var g :| Source(log, key, t.es[key], g) && Highest(log, key, g);
      assert SameKey(f, g) && Rank(f.version) == Rank(g.version);
    }
  }

  /** Once a delete has been taken in, the document is its tombstone or that of a later event, for good. */
  lemma TombstoneHolds(log: seq<Message>, steps: seq<Step>, more: seq<Step>, e: Event)
    requires GoodLog(log) && Valid(Start(log), steps) && Valid(Run(Start(log), steps), more)
    requires InLog(log, e) && e.deleted && Dominated(Run(Start(log), steps).es, e)
    ensures var s := Run(Run(Start(log), steps), more);
      && KeyOf(e).Some? && KeyOf(e).value in s.es
      && (s.es[KeyOf(e).value] == DocOf(e) || Rank(s.es[KeyOf(e).value].version) > Rank(e.version))
  {
    StartInv(log);
    RunInv(Start(log), steps);
    var mid := Run(Start(log), steps);
    RunInv(mid, more);
    RunKeepsDominated(mid, more, e);
    var s, key := Run(mid, more), KeyOf(e).value;
    var f :| Source(s.log, key, s.es[key], f);
    assert SameKey(e, f);
  }

  // ---------------------------------------------------------------------------------------------
  // Attempts

  /** The failures recorded for a row. */
  ghost function Failures(s: State, steps: seq<Step>, id: nat): nat
    requires Valid(s, steps)
    decreases |steps|
  {
    if steps == [] then 0
    else
      (if steps[0].RecordFailure? && s.retrier.id == id then 1 else 0) + Failures(Next(s, steps[0]), steps[1..], id)
  }

  /** Attempts a row has left: all before it exists, none after it is gone. */
  function AttemptsLeft(s: State, id: nat): int {
    if id in s.retry then MAX_ATTEMPTS - s.retry[id].count
    else if id < s.nextId then 0
    else MAX_ATTEMPTS
  }

  lemma StepAttempts(s: State, step: Step, id: nat)
    requires Inv(s) && Enabled(s, step)
    ensures AttemptsLeft(Next(s, step), id) + (if step.RecordFailure? && s.retrier.id == id then 1 else 0) <= AttemptsLeft(s, id)
    ensures AttemptsLeft(Next(s, step), id) >= 0
  {
  }

  /** A row gets at most three attempts whose failure is recorded, over every run. */
  lemma {:induction false} AtMostThreeFailures(s: State, steps: seq<Step>, id: nat)
    requires Inv(s) && Valid(s, steps)
    ensures Failures(s, steps, id) <= AttemptsLeft(s, id) - AttemptsLeft(Run(s, steps), id)
    ensures 0 <= AttemptsLeft(Run(s, steps), id) && AttemptsLeft(s, id) <= MAX_ATTEMPTS
    decreases |steps|
  {
    if steps != [] {
      StepInv(s, steps[0]);
      StepAttempts(s, steps[0], id);
      AtMostThreeFailures(Next(s, steps[0]), steps[1..], id);
    }
  }
}
