/** The MySQL side of one counter kind: the counter_batch and post_counter tables. */
module CounterDb {
  import opened Tally
  import opened CounterRedis

  datatype Status = Pending | Processing | Failed | Success

  datatype Row = Row(post: int, delta: int, status: Status, retryAt: int)

  datatype Database = Database(
    batches: map<int, Row>,           // counter_batch, by its unique batch_id
    counter: map<int, int>)           // the kind's column of post_counter, by post

  /** A batch as the apply loop selected it. */
  datatype Task = Task(id: int, batch: Batch)

  const RETRY_DELAY := 30_000

  predicate Due(row: Row, now: int) {
    row.status in {Pending, Failed} && row.retryAt <= now
  }

  predicate Applied(d: Database, id: int) {
    id in d.batches && d.batches[id].status == Success
  }

  function AppliedIds(d: Database): set<int> {
    set id | id in d.batches && d.batches[id].status == Success
  }

  /** Duplicate batch ids and zero deltas change nothing but updated_at. */
  function Insert(d: Database, id: int, batch: Batch, now: int): Database {
    if batch.delta == 0 || id in d.batches then d
    else d.(batches := d.batches[id := Row(batch.post, batch.delta, Pending, now)])
  }

  /** INSERT .. ON DUPLICATE KEY UPDATE c = GREATEST(c + delta, 0). */
  function Upsert(counter: map<int, int>, post: int, delta: int): map<int, int> {
    if post in counter then counter[post := Max(counter[post] + delta, 0)]
    else counter[post := if delta < 0 then 0 else delta]
  }

  predicate Claimable(d: Database, id: int, now: int) {
    id in d.batches && Due(d.batches[id], now)
  }

  /** The transaction of applyCounterBatch, when it commits. */
  function Apply(d: Database, task: Task, now: int): Database {
    if !Claimable(d, task.id, now) then d
    else Database(
        d.batches[task.id := d.batches[task.id].(status := Success)],
        Upsert(d.counter, task.batch.post, task.batch.delta))
  }

  /** UPDATE .. SET status = 'failed' WHERE batch_id = ?, whatever the status was. */
  function MarkFailed(d: Database, id: int, now: int): Database {
    if id in d.batches then d.(batches := d.batches[id := d.batches[id].(status := Failed, retryAt := now + RETRY_DELAY)])
    else d
  }

  predicate HasUnfinished(d: Database, post: int) {
    exists id :: id in d.batches && d.batches[id].post == post && d.batches[id].status != Success
  }

  /** The tables, changed statement by statement. */
  class Tables {
    var batches: map<int, Row>
    var counter: map<int, int>

    constructor ()
      ensures View() == Database(map[], map[])
    {
      batches, counter := map[], map[];
    }

    function View(): Database
      reads this
    {
      Database(batches, counter)
    }

    method InsertBatch(id: int, batch: Batch, now: int)
      modifies this
      ensures View() == Insert(old(View()), id, batch, now)
      ensures counter == old(counter)
      ensures batches == if batch.delta != 0 && id !in old(batches)
        then old(batches)[id := Row(batch.post, batch.delta, Pending, now)] else old(batches)
    {
      if batch.delta != 0 && id !in batches {
        batches := batches[id := Row(batch.post, batch.delta, Pending, now)];
      }
    }

    /** `commits` is false when some statement of the transaction fails, which rolls all of it back. */
    method ApplyBatch(task: Task, now: int, commits: bool) returns (claimed: bool, failed: bool)
      modifies this
      ensures failed == !commits
      ensures claimed == (commits && old(Claimable(View(), task.id, now)))
      ensures View() == if commits then Apply(old(View()), task, now) else old(View())
      ensures claimed <==> && commits && task.id in old(batches) && old(batches)[task.id].status in {Pending, Failed}
                           && old(batches)[task.id].retryAt <= now
      ensures !claimed ==> View() == old(View())
      ensures claimed ==>
        var post, delta := task.batch.post, task.batch.delta;
        var count := if post in old(counter) then old(counter)[post] else 0;
        && batches == old(batches)[task.id := old(batches)[task.id].(status := Success)]
        && counter == old(counter)[post := if count + delta < 0 then 0 else count + delta]
    {
      var before := View();
      claimed, failed := false, false;
      if task.id in batches && Due(batches[task.id], now) {
        batches := batches[task.id := batches[task.id].(status := Processing)];
        claimed := true;
        counter := Upsert(counter, task.batch.post, task.batch.delta);
        batches := batches[task.id := batches[task.id].(status := Success)];
      }
      if !commits {
        batches, counter := before.batches, before.counter;
        claimed, failed := false, true;
      }
    }

    method MarkBatchFailed(id: int, now: int)
      modifies this
      ensures View() == MarkFailed(old(View()), id, now)
      ensures counter == old(counter)
      ensures batches == if id in old(batches)
        then old(batches)[id := old(batches)[id].(status := Failed, retryAt := now + 30_000)] else old(batches)
    {
      if id in batches {
        batches := batches[id := batches[id].(status := Failed, retryAt := now + RETRY_DELAY)];
      }
    }

    method OverwriteCounter(post: int, count: int) returns (changed: bool)
      modifies this
      ensures batches == old(batches)
      ensures (if post in counter then counter[post] else 0) == count
      ensures counter - {post} == old(counter) - {post}
      ensures changed == (At(old(counter), post) != count)
    {
      changed := At(counter, post) != count;
      if changed {
        counter := counter[post := count];
      }
    }
  }
}
