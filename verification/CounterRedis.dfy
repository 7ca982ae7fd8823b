/** The Redis side of one counter kind: eight keys, and the Lua scripts that change them. */
module CounterRedis {
  import opened Tally

  /** The content of one processing_batch field, `post:delta` in Redis. */
  datatype Batch = Batch(post: int, delta: int)

  datatype Redis = Redis(
    delta: map<int, int>,             // counter:*:delta, one aggregated delta per post
    dirty: set<int>,                  // queue:*:dirty
    dirtyAt: map<int, int>,           // queue:*:dirty_at, time of the last change
    dirtySince: map<int, int>,        // queue:*:dirty_since, time of the first change
    schedule: map<int, int>,          // queue:*:flush_schedule
    processing: map<int, Batch>,      // counter:*:processing_batch, by batch id
    processingSum: map<int, int>,     // counter:*:processing_sum, by post
    processingIds: set<int>)          // counter:*:processing_batches

  datatype ClaimReply = NotReady | Empty | Claimed(delta: int)

  const QUIET_PERIOD := 5_000
  const MAX_DELAY := 60_000

  /** A missing hash field reads as zero. */
  function At(m: map<int, int>, k: int): int {
    if k in m then m[k] else 0
  }

  function NextFlush(dirtyAt: int, dirtySince: int): int {
    Min(dirtyAt + QUIET_PERIOD, dirtySince + MAX_DELAY)
  }

  /** When the delta of a dirty post becomes due. */
  function DueAt(r: Redis, post: int): int
    requires post in r.dirtyAt
  {
    NextFlush(r.dirtyAt[post], if post in r.dirtySince then r.dirtySince[post] else r.dirtyAt[post])
  }

  function Enqueue(r: Redis, post: int, delta: int, now: int): Redis {
    r.(delta := r.delta[post := At(r.delta, post) + delta],
       dirty := r.dirty + {post},
       dirtyAt := r.dirtyAt[post := now],
       dirtySince := if post in r.dirtySince then r.dirtySince else r.dirtySince[post := now])
  }

  function Forget(r: Redis, post: int): Redis {
    r.(dirty := r.dirty - {post},
       dirtyAt := r.dirtyAt - {post},
       dirtySince := r.dirtySince - {post},
       schedule := r.schedule - {post})
  }

  function ClaimReplyFor(r: Redis, post: int, now: int): ClaimReply {
    if post in r.dirtyAt && now < DueAt(r, post) then NotReady
    else if post !in r.delta then Empty
    else Claimed(r.delta[post])
  }

  function Claim(r: Redis, post: int, now: int, id: int): Redis {
    match ClaimReplyFor(r, post, now)
    case NotReady => r.(schedule := r.schedule[post := DueAt(r, post)])
    case Empty => Forget(r, post)
    case Claimed(delta) =>
      Forget(r, post).(
        delta := r.delta - {post},
        processing := r.processing[id := Batch(post, delta)],
        processingSum := r.processingSum[post := At(r.processingSum, post) + delta],
        processingIds := r.processingIds + {id})
  }

  function Clear(r: Redis, id: int): Redis {
    if id !in r.processing then
      r.(processingIds := r.processingIds - {id})
    else
      var batch := r.processing[id];
      var left := At(r.processingSum, batch.post) - batch.delta;
      r.(processing := r.processing - {id},
         processingSum := if left == 0 then r.processingSum - {batch.post} else r.processingSum[batch.post := left],
         processingIds := r.processingIds - {id})
  }

  // ---------------------------------------------------------------------------------------------
  // What the scripts promise, key by key

  /** Only the post's entries change; the first change of a cycle keeps its time. */
  lemma EnqueueMeans(r: Redis, post: int, amount: int, now: int)
    ensures var q := Enqueue(r, post, amount, now);
      && q.delta == r.delta[post := (if post in r.delta then r.delta[post] else 0) + amount]
      && q.dirty == r.dirty + {post} && q.dirtyAt == r.dirtyAt[post := now]
      && q.dirtySince == (if post in r.dirtySince then r.dirtySince else r.dirtySince[post := now])
      && q.schedule == r.schedule
      && q.processing == r.processing && q.processingSum == r.processingSum && q.processingIds == r.processingIds
  {
  }

  /** The times a dirty post waits for: 5 s after its last change, 60 s after its first. */
  predicate Waits(r: Redis, post: int, now: int) {
    && post in r.dirtyAt && now < r.dirtyAt[post] + 5_000
    && now < (if post in r.dirtySince then r.dirtySince[post] else r.dirtyAt[post]) + 60_000
  }

  lemma ClaimRepliesIff(r: Redis, post: int, now: int)
    ensures ClaimReplyFor(r, post, now).NotReady? <==> Waits(r, post, now)
    ensures ClaimReplyFor(r, post, now).Claimed? <==> !Waits(r, post, now) && post in r.delta
    ensures ClaimReplyFor(r, post, now).Claimed? ==> ClaimReplyFor(r, post, now).delta == r.delta[post]
  {
  }

  /** The earlier of the two times. */
  lemma DueAtMeans(r: Redis, post: int)
    requires post in r.dirtyAt
    ensures DueAt(r, post) <= r.dirtyAt[post] + 5_000
    ensures DueAt(r, post) <= (if post in r.dirtySince then r.dirtySince[post] else r.dirtyAt[post]) + 60_000
    ensures DueAt(r, post)
      in {r.dirtyAt[post] + 5_000, (if post in r.dirtySince then r.dirtySince[post] else r.dirtyAt[post]) + 60_000}
  {
  }

  /** A claim moves the whole delta to a batch and forgets the post; nothing pending is forgotten too; waiting is noted. */
  lemma ClaimMeans(r: Redis, post: int, now: int, id: int)
    ensures var q := Claim(r, post, now, id);
      if Waits(r, post, now) then
        q == r.(schedule := q.schedule) && q.schedule == r.schedule[post := DueAt(r, post)]
      else
        && q.dirty == r.dirty - {post} && q.dirtyAt == r.dirtyAt - {post}
        && q.dirtySince == r.dirtySince - {post} && q.schedule == r.schedule - {post}
        && if post !in r.delta then
             q.delta == r.delta && q.processing == r.processing && q.processingSum == r.processingSum
             && q.processingIds == r.processingIds
           else
             && q.delta == r.delta - {post}
             && q.processing == r.processing[id := Batch(post, r.delta[post])] && q.processingIds == r.processingIds + {id}
             && q.processingSum
                  == r.processingSum[post := (if post in r.processingSum then r.processingSum[post] else 0) + r.delta[post]]
  {
  }

  /** The batch is gone, and its delta no longer counted; a sum of zero is deleted. */
  lemma ClearMeans(r: Redis, id: int)
    ensures var q := Clear(r, id);
      && q.processing == r.processing - {id} && q.processingIds == r.processingIds - {id}
      && q.delta == r.delta && q.dirty == r.dirty && q.dirtyAt == r.dirtyAt && q.dirtySince == r.dirtySince
      && q.schedule == r.schedule
      && if id !in r.processing then q.processingSum == r.processingSum
         else
           var post := r.processing[id].post;
           var left := (if post in r.processingSum then r.processingSum[post] else 0) - r.processing[id].delta;
           q.processingSum == if left == 0 then r.processingSum - {post} else r.processingSum[post := left]
  {
    if id !in r.processing {
      assert r.processing - {id} == r.processing;
    }
  }

  /** The live keys. Each method is one Lua script, which Redis runs without interleaving. */
  class Store {
    var delta: map<int, int>
    var dirty: set<int>
    var dirtyAt: map<int, int>
    var dirtySince: map<int, int>
    var schedule: map<int, int>
    var processing: map<int, Batch>
    var processingSum: map<int, int>
    var processingIds: set<int>

    constructor ()
      ensures View() == Redis(map[], {}, map[], map[], map[], map[], map[], {})
    {
      delta, dirty, dirtyAt, dirtySince := map[], {}, map[], map[];
      schedule, processing, processingSum, processingIds := map[], map[], map[], {};
    }

    function View(): Redis
      reads this
    {
      Redis(delta, dirty, dirtyAt, dirtySince, schedule, processing, processingSum, processingIds)
    }

    method EnqueueDelta(post: int, amount: int, now: int) returns (added: bool)
      modifies this
      ensures View() == Enqueue(old(View()), post, amount, now)
      ensures added == (post !in old(dirty))
    {
      delta := delta[post := At(delta, post) + amount];
      added := post !in dirty;
      dirty := dirty + {post};
      dirtyAt := dirtyAt[post := now];
      if post !in dirtySince {
        dirtySince := dirtySince[post := now];
      }
    }

    method ClaimDelta(post: int, now: int, id: int) returns (reply: ClaimReply)
      modifies this
      ensures View() == Claim(old(View()), post, now, id)
      ensures reply == ClaimReplyFor(old(View()), post, now)
    {
      if post in dirtyAt {
        var since := if post in dirtySince then dirtySince[post] else dirtyAt[post];
        var nextFlush := dirtyAt[post] + QUIET_PERIOD;
        var maxFlush := since + MAX_DELAY;
        if maxFlush < nextFlush {
          nextFlush := maxFlush;
        }
        if nextFlush > now {
          schedule := schedule[post := nextFlush];
          return NotReady;
        }
      }
      if post !in delta {
        dirty := dirty - {post};
        dirtyAt := dirtyAt - {post};
        dirtySince := dirtySince - {post};
        schedule := schedule - {post};
        return Empty;
      }
      var amount := delta[post];
      delta := delta - {post};
      processing := processing[id := Batch(post, amount)];
      processingSum := processingSum[post := At(processingSum, post) + amount];
      processingIds := processingIds + {id};
      dirty := dirty - {post};
      dirtyAt := dirtyAt - {post};
      dirtySince := dirtySince - {post};
      schedule := schedule - {post};
      reply := Claimed(amount);
    }

    method ClearBatch(id: int) returns (post: int)
      modifies this
      ensures View() == Clear(old(View()), id)
      ensures post == if id in old(processing) then old(processing)[id].post else 0
    {
      if id !in processing {
        processingIds := processingIds - {id};
        return 0;
      }
      var batch := processing[id];
      var current := At(processingSum, batch.post) - batch.delta;
      processingSum := processingSum[batch.post := current];
      if current == 0 {
        processingSum := processingSum - {batch.post};
      }
      processing := processing - {id};
      processingIds := processingIds - {id};
      post := batch.post;
    }
  }
}
