/** LikePost and UnlikePost as one call runs them, and the proof that a call is a run of the request machine. */
module LikeRepository {
  import opened CounterPipeline
  import opened LikeRequests

  /** An answer of SETNX, or the end of the request's context. */
  datatype LockReply = Granted | Taken | Broken | Cancelled

  /** What a caller gets back. Fine does not say whether a delta reached the queue. */
  datatype Reply = Fine | NotLiked | StillLocked | WriteBusy | WriteFailed

  /** What the lock, the cache, the database and the queue answer during one call. */
  datatype Luck = Luck(lock: seq<LockReply>, cacheRead: bool, write: Attempts, cacheWrite: bool, records: bool)

  /** The outcome of each attempt, and whether the pause after it is sat out. */
  datatype Attempts = Attempts(outcome: nat -> Outcome, pause: nat -> bool)

  /** post_like, its status cache, and the deltas that reached the queue. */
  datatype Store = Store(active: map<int, set<int>>, cache: map<Key, bool>, recorded: seq<(int, int)>)

  function Likers(active: map<int, set<int>>, post: int): set<int> {
    ActiveIn(Facts(active, map[]), post)
  }

  predicate HasLiked(active: map<int, set<int>>, key: Key) {
    key.student in Likers(active, key.post)
  }

  /** The table after the statement of the action; it affects no row if the student is there already. */
  function Toggled(active: map<int, set<int>>, key: Key, on: bool): map<int, set<int>> {
    if HasLiked(active, key) == on then active
    else active[key.post := if on then Likers(active, key.post) + {key.student} else Likers(active, key.post) - {key.student}]
  }

  /** The first answer that is not "taken"; none before the deadline means busy. */
  function LockAnswer(replies: seq<LockReply>): LockReply {
    if replies == [] then Taken else if replies[0] != Taken then replies[0] else LockAnswer(replies[1..])
  }

  /** The lock is busy, or the caller has gone. */
  predicate GivesUp(lock: LockReply) {
    lock.Taken? || lock.Cancelled?
  }

  /** The first outcome that is not a conflict, or the fifth; a cancelled pause is the end. */
  function WriteAnswer(a: Attempts, attempt: nat): Outcome
    requires 1 <= attempt <= MAX_ATTEMPTS
    decreases MAX_ATTEMPTS - attempt
  {
    if a.outcome(attempt) != Conflict || attempt == MAX_ATTEMPTS then a.outcome(attempt)
    else if !a.pause(attempt) then Fatal
    else WriteAnswer(a, attempt + 1)
  }

  /** The attempt is one of several that ended in a conflict, and is followed by another. */
  predicate Repeats(a: Attempts, attempt: nat) {
    a.outcome(attempt) == Conflict && a.pause(attempt)
  }

  /** A write succeeds exactly if one of the five attempts commits after nothing but conflicts. */
  lemma {:induction false} WriteAnswerMeans(a: Attempts, attempt: nat)
    requires 1 <= attempt <= MAX_ATTEMPTS
    ensures WriteAnswer(a, attempt).Conflict? <==>
      a.outcome(MAX_ATTEMPTS) == Conflict && forall k :: attempt <= k < MAX_ATTEMPTS ==> Repeats(a, k)
    ensures WriteAnswer(a, attempt).Committed? <==>
      exists k :: attempt <= k <= MAX_ATTEMPTS && a.outcome(k) == Committed && forall j :: attempt <= j < k ==> Repeats(a, j)
    decreases MAX_ATTEMPTS - attempt
  {
    if Repeats(a, attempt) && attempt < MAX_ATTEMPTS {
      WriteAnswerMeans(a, attempt + 1);
      if WriteAnswer(a, attempt + 1).Committed? {
        var k :| attempt + 1 <= k <= MAX_ATTEMPTS && a.outcome(k) == Committed && forall j :: attempt + 1 <= j < k ==> Repeats(a, j);
        assert forall j :: attempt <= j < k ==> Repeats(a, j);
      }
    }
  }

  function CacheHit(v: Store, key: Key, on: bool, luck: Luck): bool {
    luck.cacheRead && key in v.cache && v.cache[key] == on
  }

  /** The whole call: `on` is the state the caller wants. */
  function Called(v: Store, key: Key, on: bool, luck: Luck): (Store, Reply) {
    if GivesUp(LockAnswer(luck.lock)) then (v, StillLocked)
    else if CacheHit(v, key, on, luck) then (v, if on then Fine else NotLiked)
    else
      var write := WriteAnswer(luck.write, 1);
      if write.Conflict? then (v, WriteBusy)
      else if write.Fatal? then (v, WriteFailed)
      else
        var w := v.(active := Toggled(v.active, key, on), cache := if luck.cacheWrite then v.cache[key := on] else v.cache);
        if HasLiked(v.active, key) == on then (w, if on then Fine else NotLiked)
        else if luck.records then (w.(recorded := v.recorded + [(key.post, if on then 1 else -1)]), Fine)
        else (w, Fine)
  }

  class Repository {
    var active: map<int, set<int>>
    var cache: map<Key, bool>
    var recorded: seq<(int, int)>

    constructor ()
      ensures View() == Store(map[], map[], [])
    {
      active, cache, recorded := map[], map[], [];
    }

    function View(): Store
      reads this
    {
      Store(active, cache, recorded)
    }

    /** SETNX until it is decided or the deadline passes. */
    method LockPostLike(replies: seq<LockReply>) returns (reply: LockReply)
      ensures reply == LockAnswer(replies)
    {
      var i := 0;
      while i < |replies|
        invariant 0 <= i <= |replies|
        invariant LockAnswer(replies[i..]) == LockAnswer(replies)
      {
        if replies[i] != Taken {
          return replies[i];
        }
        i := i + 1;
      }
      reply := Taken;
    }

    method RunPostLikeWriteWithRetry(key: Key, on: bool, a: Attempts) returns (outcome: Outcome, changed: bool)
      modifies this
      ensures outcome == WriteAnswer(a, 1)
      ensures View() == old(View()).(active := if outcome.Committed? then old(Toggled(active, key, on)) else old(active))
      ensures changed == (outcome.Committed? && old(HasLiked(active, key)) != on)
    {
      var attempt := 1;
      while attempt <= MAX_ATTEMPTS
        invariant 1 <= attempt <= MAX_ATTEMPTS + 1 && View() == old(View())
        invariant attempt <= MAX_ATTEMPTS && WriteAnswer(a, attempt) == WriteAnswer(a, 1)
      {
        outcome := a.outcome(attempt);
        if outcome.Committed? {
          changed := (key.student in Likers(active, key.post)) != on;
          active := Toggled(active, key, on);
          return;
        }
        if outcome.Fatal? || attempt == MAX_ATTEMPTS {
          changed := false;
          return;
        }
        if !a.pause(attempt) {
          return Fatal, false;
        }
        attempt := attempt + 1;
      }
    }

    /** An enqueue that fails is logged, and the caller never learns of it. */
    method RecordDelta(post: int, delta: int, records: bool)
      modifies this
      ensures View() == old(View()).(recorded := if records then old(recorded) + [(post, delta)] else old(recorded))
    {
      if records {
        recorded := recorded + [(post, delta)];
      }
    }

    method LikePost(key: Key, luck: Luck) returns (reply: Reply)
      modifies this
      ensures (View(), reply) == Called(old(View()), key, true, luck)
    {
      var lock := LockPostLike(luck.lock);
      if GivesUp(lock) {
        return StillLocked;
      }
      if luck.cacheRead && key in cache && cache[key] {
        return Fine;
      }
      var write, changed := RunPostLikeWriteWithRetry(key, true, luck.write);
      if !write.Committed? {
        return if write.Conflict? then WriteBusy else WriteFailed;
      }
      if luck.cacheWrite {
        cache := cache[key := true];
      }
      if changed {
        RecordDelta(key.post, 1, luck.records);
      }
      reply := Fine;
    }

    method UnlikePost(key: Key, luck: Luck) returns (reply: Reply)
      modifies this
      ensures (View(), reply) == Called(old(View()), key, false, luck)
    {
      var lock := LockPostLike(luck.lock);
      if GivesUp(lock) {
        return StillLocked;
      }
      if luck.cacheRead && key in cache && !cache[key] {
        return NotLiked;
      }
      var write, changed := RunPostLikeWriteWithRetry(key, false, luck.write);
      if !write.Committed? {
        return if write.Conflict? then WriteBusy else WriteFailed;
      }
      if luck.cacheWrite {
        cache := cache[key := false];
      }
      if !changed {
        return NotLiked;
      }
      RecordDelta(key.post, -1, luck.records);
      reply := Fine;
    }
  }

  /** The call commits a statement that changes its row. */
  predicate Changes(v: Store, key: Key, on: bool, luck: Luck) {
    && !GivesUp(LockAnswer(luck.lock)) && !CacheHit(v, key, on, luck)
    && WriteAnswer(luck.write, 1).Committed? && HasLiked(v.active, key) != on
  }

  /**
   * The number of likers moves by one exactly if the call changes its row, and its delta is recorded exactly if
   * the enqueue works too; nobody else's like changes. A call that reports an error other than NotLiked leaves
   * everything as it is, and one that is done and met no stale cache entry leaves the student as asked.
   */
  lemma CallMeans(v: Store, key: Key, on: bool, luck: Luck)
    ensures var (w, reply) := Called(v, key, on, luck);
      var moved := |Likers(w.active, key.post)| - |Likers(v.active, key.post)|;
      && moved == (if !Changes(v, key, on, luck) then 0 else if on then 1 else -1)
      && w.recorded == v.recorded + (if moved != 0 && luck.records then [(key.post, moved)] else [])
      && (moved != 0 ==> reply.Fine?)
      && (reply.Fine? || reply.NotLiked? ==> HasLiked(w.active, key) == on || CacheHit(v, key, on, luck))
      && (forall other :: other != key ==> HasLiked(w.active, other) == HasLiked(v.active, other))
      && (reply.StillLocked? || reply.WriteBusy? || reply.WriteFailed? ==> w == v)
  {
    var likers := Likers(v.active, key.post);
    assert key.student in likers ==> |likers - {key.student}| == |likers| - 1;
    assert key.student !in likers ==> |likers + {key.student}| == |likers| + 1;
  }

  /** The recorded deltas of a post. */
  function RecordedFor(recorded: seq<(int, int)>, post: int): int {
    if recorded == [] then 0
    else RecordedFor(recorded[..|recorded| - 1], post) + if recorded[|recorded| - 1].0 == post then recorded[|recorded| - 1].1 else 0
  }

  /** How far the deltas on record are behind the likers. */
  function Behind(v: Store, post: int): int {
    |Likers(v.active, post)| - RecordedFor(v.recorded, post)
  }

  /** A call that answers Fine leaves the counter further behind exactly if it changed its row and the enqueue failed. */
  lemma FineLeavesBehindIff(v: Store, key: Key, on: bool, luck: Luck)
    requires Called(v, key, on, luck).1.Fine?
    ensures var w := Called(v, key, on, luck).0;
      && (Behind(w, key.post) != Behind(v, key.post) <==> Changes(v, key, on, luck) && !luck.records)
      && (Changes(v, key, on, luck) && !luck.records ==> Behind(w, key.post) == Behind(v, key.post) + if on then 1 else -1)
  {
    CallMeans(v, key, on, luck);
    var w := Called(v, key, on, luck).0;
    if w.recorded != v.recorded {
      assert w.recorded[..|w.recorded| - 1] == v.recorded;
    }
  }

  // ---------------------------------------------------------------------------------------------
  // The answers of a call

  /** The i-th answer of SETNX is the first that is not "taken". */
  predicate FirstOther(replies: seq<LockReply>, i: int) {
    0 <= i < |replies| && replies[i] != Taken && forall j :: 0 <= j < i ==> replies[j] == Taken
  }

  lemma {:induction false} LockAnswerMeans(replies: seq<LockReply>)
    ensures (forall i :: 0 <= i < |replies| ==> replies[i] == Taken) ==> LockAnswer(replies) == Taken
    ensures forall i :: FirstOther(replies, i) ==> LockAnswer(replies) == replies[i]
    ensures (exists i :: 0 <= i < |replies| && replies[i] != Taken) ==> exists i :: FirstOther(replies, i)
  {
    if replies != [] {
      LockAnswerMeans(replies[1..]);
      assert forall i :: 0 <= i < |replies[1..]| ==> replies[1..][i] == replies[i + 1];
      if replies[0] != Taken {
        assert FirstOther(replies, 0);
      } else {
        forall i | FirstOther(replies, i) ensures LockAnswer(replies) == replies[i] {
          assert FirstOther(replies[1..], i - 1);
        }
        if exists i :: 0 <= i < |replies| && replies[i] != Taken {
          var i :| 0 <= i < |replies| && replies[i] != Taken;
          assert replies[1..][i - 1] != Taken;
          var j :| FirstOther(replies[1..], j);
          assert FirstOther(replies, j + 1);
        }
      }
    }
  }

  /** The caller gets the lock, or goes on without it because Redis fails. */
  ghost predicate GoesOn(replies: seq<LockReply>) {
    exists i :: FirstOther(replies, i) && replies[i] in {Granted, Broken}
  }

  ghost predicate Interrupted(replies: seq<LockReply>) {
    exists i :: FirstOther(replies, i) && replies[i] == Cancelled
  }

  /** One of five attempts commits, after conflicts whose pauses are sat out. */
  predicate SomeCommits(a: Attempts) {
    exists k :: 1 <= k <= 5 && a.outcome(k) == Committed && forall j :: 1 <= j < k ==> a.outcome(j) == Conflict && a.pause(j)
  }

  predicate AllConflict(a: Attempts) {
    (forall k :: 1 <= k <= 5 ==> a.outcome(k) == Conflict) && forall k :: 1 <= k < 5 ==> a.pause(k)
  }

  lemma AttemptsMean(a: Attempts)
    ensures WriteAnswer(a, 1).Committed? <==> SomeCommits(a)
    ensures WriteAnswer(a, 1).Conflict? <==> AllConflict(a)
  {
    WriteAnswerMeans(a, 1);
    if SomeCommits(a) {
      var k :| 1 <= k <= 5 && a.outcome(k) == Committed && forall j :: 1 <= j < k ==> a.outcome(j) == Conflict && a.pause(j);
      assert forall j :: 1 <= j < k ==> Repeats(a, j);
    }
    if WriteAnswer(a, 1).Committed? {
      var k :| 1 <= k <= 5 && a.outcome(k) == Committed && forall j :: 1 <= j < k ==> Repeats(a, j);
      forall j | 1 <= j < k ensures a.outcome(j) == Conflict && a.pause(j) {
        assert Repeats(a, j);
      }
    }
    if AllConflict(a) {
      assert forall k :: 1 <= k < 5 ==> Repeats(a, k);
    }
    if WriteAnswer(a, 1).Conflict? {
      assert forall k :: 1 <= k < 5 ==> Repeats(a, k);
    }
  }

  lemma LockMeans(replies: seq<LockReply>)
    ensures LockAnswer(replies) in {Granted, Broken} <==> GoesOn(replies)
    ensures LockAnswer(replies) in {Taken, Cancelled}
      <==> (forall i :: 0 <= i < |replies| ==> replies[i] == Taken) || Interrupted(replies)
  {
    LockAnswerMeans(replies);
    if i :| FirstOther(replies, i) {
      assert LockAnswer(replies) == replies[i];
    }
  }

  /**
   * Which answer a call gets, from what the lock, the cache and the database say: still locked exactly if every SETNX
   * finds the lock taken or the context ends first; with a matching cache entry nothing is written; else it is busy
   * exactly if all five attempts conflict, and done exactly if one commits.
   */
  lemma CallAnswers(v: Store, key: Key, on: bool, luck: Luck)
    ensures var reply := Called(v, key, on, luck).1;
      var hit := luck.cacheRead && key in v.cache && v.cache[key] == on;
      && (reply.StillLocked?
          <==> (forall i :: 0 <= i < |luck.lock| ==> luck.lock[i] == Taken) || Interrupted(luck.lock))
      && (reply.WriteBusy? <==> GoesOn(luck.lock) && !hit && AllConflict(luck.write))
      && (reply.WriteFailed? <==> GoesOn(luck.lock) && !hit && !AllConflict(luck.write) && !SomeCommits(luck.write))
      && (reply.Fine? || reply.NotLiked? <==> GoesOn(luck.lock) && (hit || SomeCommits(luck.write)))
  {
    LockMeans(luck.lock);
    AttemptsMean(luck.write);
  }

  /**
   * What a call that goes on and commits leaves behind: the student as asked, the cache told, and a delta exactly if
   * the row changed and the enqueue works. It is NotLiked exactly for an unlike that changed no row, so a second like
   * is Fine and changes nothing.
   */
  lemma CallLeaves(v: Store, key: Key, on: bool, luck: Luck)
    requires GoesOn(luck.lock) && !(luck.cacheRead && key in v.cache && v.cache[key] == on) && SomeCommits(luck.write)
    ensures var (w, reply) := Called(v, key, on, luck);
      var before := if key.post in v.active then v.active[key.post] else {};
      var after := if key.post in w.active then w.active[key.post] else {};
      && after == (if on then before + {key.student} else before - {key.student})
      && (forall post :: post != key.post ==>
        (post in w.active <==> post in v.active) && (post in v.active ==> w.active[post] == v.active[post]))
      && w.cache == (if luck.cacheWrite then v.cache[key := on] else v.cache)
      && w.recorded == (if after != before && luck.records then v.recorded + [(key.post, if on then 1 else -1)] else v.recorded)
      && (reply.NotLiked? <==> !on && key.student !in before)
      && (reply.Fine? <==> on || key.student in before)
  {
    LockMeans(luck.lock);
    AttemptsMean(luck.write);
  }

  /** With a matching cache entry nothing is written, and the answer is that of the entry. */
  lemma CachedCallLeaves(v: Store, key: Key, on: bool, luck: Luck)
    requires GoesOn(luck.lock) && luck.cacheRead && key in v.cache && v.cache[key] == on
    ensures Called(v, key, on, luck) == (v, if on then Fine else NotLiked)
  {
    LockMeans(luck.lock);
  }

  // ---------------------------------------------------------------------------------------------
  // A call is a run

  ghost predicate Reaches(l: LikeRequests.Likes, m: LikeRequests.Likes) {
    exists steps :: ValidLikes(l, steps) && RunLikes(l, steps) == m
  }

  lemma {:induction false} LikesConcat(l: LikeRequests.Likes, steps: seq<LikeStep>, more: seq<LikeStep>)
    requires ValidLikes(l, steps) && ValidLikes(RunLikes(l, steps), more)
    ensures ValidLikes(l, steps + more) && RunLikes(l, steps + more) == RunLikes(RunLikes(l, steps), more)
    decreases |steps|
  {
    if steps == [] {
      assert steps + more == more;
    } else {
      assert (steps + more)[1..] == steps[1..] + more;
      LikesConcat(StepNext(l, steps[0]), steps[1..], more);
    }
  }

  lemma Then(l: LikeRequests.Likes, m: LikeRequests.Likes, step: LikeStep)
    requires Reaches(l, m) && StepEnabled(m, step)
    ensures Reaches(l, StepNext(m, step))
  {
    var steps :| ValidLikes(l, steps) && RunLikes(l, steps) == m;
    assert [step][1..] == [];
    assert ValidLikes(StepNext(m, step), []);
    LikesConcat(l, steps, [step]);
  }

  /** A request on its way, which holds the lock or goes on without it. */
  function Mid(l: LikeRequests.Likes, id: int, key: Key, on: bool, locked: bool,
               facts: Facts, cache: map<Key, bool>, phase: Phase): LikeRequests.Likes {
    LikeRequests.Likes(facts, cache, if locked then l.locks[key := id] else l.locks,
                       l.requests[id := Request(if on then Like else Unlike, key, phase)])
  }

  /** What is left of a call: its request is done, its lock is released, and its delta is in flight no more. */
  function After(l: LikeRequests.Likes, id: int, key: Key, on: bool, w: Store): LikeRequests.Likes {
    LikeRequests.Likes(Facts(w.active, l.facts.inflight), w.cache, l.locks,
                       l.requests[id := Request(if on then Like else Unlike, key, Done)])
  }

  predicate Arriving(l: LikeRequests.Likes, id: int, key: Key, locked: bool) {
    && id !in l.requests && id !in l.facts.inflight
    && if key in l.locks then l.locks[key] != id && !locked else true
  }

  lemma MoveMid(l: LikeRequests.Likes, id: int, key: Key, on: bool, locked: bool,
                facts: Facts, cache: map<Key, bool>, phase: Phase, next: Phase)
    ensures Move(Mid(l, id, key, on, locked, facts, cache, phase), id, next) == Mid(l, id, key, on, locked, facts, cache, next)
  {
  }

  lemma CheckMid(l: LikeRequests.Likes, v: Store, id: int, key: Key, on: bool, locked: bool, luck: Luck)
    requires v.cache == l.cache
    ensures var m := Mid(l, id, key, on, locked, l.facts, l.cache, Checking);
      && StepEnabled(m, CheckCache(id, luck.cacheRead))
      && StepNext(m, CheckCache(id, luck.cacheRead))
           == Mid(l, id, key, on, locked, l.facts, l.cache, if CacheHit(v, key, on, luck) then Unlocking else Writing(1))
  {
    MoveMid(l, id, key, on, locked, l.facts, l.cache, Checking, if CacheHit(v, key, on, luck) then Unlocking else Writing(1));
  }

  lemma CacheMid(l: LikeRequests.Likes, id: int, key: Key, on: bool, locked: bool, facts: Facts, changed: bool, written: bool)
    ensures var m := Mid(l, id, key, on, locked, facts, l.cache, Caching(changed));
      && StepEnabled(m, CacheStatus(id, written))
      && StepNext(m, CacheStatus(id, written))
           == Mid(l, id, key, on, locked, facts, if written then l.cache[key := on] else l.cache,
                  if changed then Recording else Unlocking)
  {
    MoveMid(l, id, key, on, locked, facts, if written then l.cache[key := on] else l.cache, Caching(changed),
            if changed then Recording else Unlocking);
  }

  lemma RecordMid(l: LikeRequests.Likes, id: int, key: Key, on: bool, locked: bool, cache: map<Key, bool>, records: bool)
    requires id !in l.facts.inflight && HasLiked(l.facts.active, key) != on
    ensures var m := Mid(l, id, key, on, locked, FlipFacts(l.facts, id, key.post, key.student), cache, Recording);
      && StepEnabled(m, Record(id, records))
      && StepNext(m, Record(id, records))
           == Mid(l, id, key, on, locked, Facts(Toggled(l.facts.active, key, on), l.facts.inflight), cache, Unlocking)
  {
    var f, g := FlipFacts(l.facts, id, key.post, key.student), Facts(Toggled(l.facts.active, key, on), l.facts.inflight);
    assert Settle(f, id).inflight == g.inflight;
    assert Settle(f, id) == g;
    MoveMid(l, id, key, on, locked, g, cache, Recording, Unlocking);
  }

  lemma UnlockMid(l: LikeRequests.Likes, id: int, key: Key, on: bool, locked: bool, w: Store)
    requires Arriving(l, id, key, locked)
    ensures var m := Mid(l, id, key, on, locked, Facts(w.active, l.facts.inflight), w.cache, Unlocking);
      StepEnabled(m, Unlock(id)) && StepNext(m, Unlock(id)) == After(l, id, key, on, w)
  {
  }

  lemma EnterMid(l: LikeRequests.Likes, id: int, key: Key, on: bool, locked: bool)
    requires Arriving(l, id, key, locked)
    ensures var arrive := Arrive(id, if on then Like else Unlike, key);
      && StepEnabled(l, arrive)
      && var m := StepNext(l, arrive);
         && m == Mid(l, id, key, on, false, l.facts, l.cache, Locking)
         && StepEnabled(m, if locked then Lock(id) else LockError(id))
         && StepNext(m, if locked then Lock(id) else LockError(id)) == Mid(l, id, key, on, locked, l.facts, l.cache, Checking)
         && StepEnabled(m, LikeStep.LockBusy(id))
         && StepNext(m, LikeStep.LockBusy(id)) == After(l, id, key, on, Store(l.facts.active, l.cache, []))
  {
    MoveMid(l, id, key, on, false, l.facts, l.cache, Locking, Checking);
    MoveMid(l, id, key, on, false, l.facts, l.cache, Locking, Done);
  }

  /** The facts when the statement of the call has committed. */
  function Written(f: Facts, id: int, key: Key, on: bool): Facts {
    if HasLiked(f.active, key) == on then f else FlipFacts(f, id, key.post, key.student)
  }

  function AfterWrite(l: LikeRequests.Likes, id: int, key: Key, on: bool, locked: bool, outcome: Outcome): LikeRequests.Likes {
    if outcome.Committed? then
      Mid(l, id, key, on, locked, Written(l.facts, id, key, on), l.cache, Caching(HasLiked(l.facts.active, key) != on))
    else Mid(l, id, key, on, locked, l.facts, l.cache, Unlocking)
  }

  lemma WriteMid(l: LikeRequests.Likes, id: int, key: Key, on: bool, locked: bool, attempt: nat, outcome: Outcome)
    ensures var m := Mid(l, id, key, on, locked, l.facts, l.cache, Writing(attempt));
      && StepEnabled(m, Write(id, outcome))
      && StepNext(m, Write(id, outcome))
           == if outcome.Conflict? && attempt < MAX_ATTEMPTS
              then Mid(l, id, key, on, locked, l.facts, l.cache, Writing(attempt + 1))
              else AfterWrite(l, id, key, on, locked, outcome)
  {
    var m, changed := Mid(l, id, key, on, locked, l.facts, l.cache, Writing(attempt)), HasLiked(l.facts.active, key) != on;
    assert Flips(m, id) <==> changed;
    MoveMid(l, id, key, on, locked, l.facts, l.cache, Writing(attempt), Writing(attempt + 1));
    MoveMid(l, id, key, on, locked, l.facts, l.cache, Writing(attempt), Unlocking);
    MoveMid(l, id, key, on, locked, Written(l.facts, id, key, on), l.cache, Writing(attempt), Caching(changed));
  }

  /** The attempts of one call; a cancelled pause is a fatal next attempt to the machine. */
  lemma {:induction false} RetriesAreRun(l: LikeRequests.Likes, id: int, key: Key, on: bool, locked: bool,
                                         a: Attempts, attempt: nat)
    requires 1 <= attempt <= MAX_ATTEMPTS
    requires Reaches(l, Mid(l, id, key, on, locked, l.facts, l.cache, Writing(attempt)))
    ensures Reaches(l, AfterWrite(l, id, key, on, locked, WriteAnswer(a, attempt)))
    decreases MAX_ATTEMPTS - attempt
  {
    WriteMid(l, id, key, on, locked, attempt, a.outcome(attempt));
    Then(l, Mid(l, id, key, on, locked, l.facts, l.cache, Writing(attempt)), Write(id, a.outcome(attempt)));
    if a.outcome(attempt) == Conflict && attempt < MAX_ATTEMPTS {
      if a.pause(attempt) {
        RetriesAreRun(l, id, key, on, locked, a, attempt + 1);
      } else {
        WriteMid(l, id, key, on, locked, attempt + 1, Fatal);
        Then(l, Mid(l, id, key, on, locked, l.facts, l.cache, Writing(attempt + 1)), Write(id, Fatal));
      }
    }
  }

  lemma LeaveIsRun(l: LikeRequests.Likes, id: int, key: Key, on: bool, locked: bool, w: Store)
    requires Arriving(l, id, key, locked)
    requires Reaches(l, Mid(l, id, key, on, locked, Facts(w.active, l.facts.inflight), w.cache, Unlocking))
    ensures Reaches(l, After(l, id, key, on, w))
  {
    UnlockMid(l, id, key, on, locked, w);
    Then(l, Mid(l, id, key, on, locked, Facts(w.active, l.facts.inflight), w.cache, Unlocking), Unlock(id));
  }

  /** From the committed statement to the end. */
  lemma CommitIsRun(l: LikeRequests.Likes, id: int, key: Key, on: bool, locked: bool, written: bool, records: bool)
    requires Arriving(l, id, key, locked) && Reaches(l, AfterWrite(l, id, key, on, locked, Committed))
    ensures Reaches(l, After(l, id, key, on,
      Store(Toggled(l.facts.active, key, on), if written then l.cache[key := on] else l.cache, [])))
  {
    var w := Store(Toggled(l.facts.active, key, on), if written then l.cache[key := on] else l.cache, []);
    var f, changed := Written(l.facts, id, key, on), HasLiked(l.facts.active, key) != on;
    CacheMid(l, id, key, on, locked, f, changed, written);
    Then(l, Mid(l, id, key, on, locked, f, l.cache, Caching(changed)), CacheStatus(id, written));
    if changed {
      RecordMid(l, id, key, on, locked, w.cache, records);
      Then(l, Mid(l, id, key, on, locked, f, w.cache, Recording), Record(id, records));
    }
    LeaveIsRun(l, id, key, on, locked, w);
  }

  lemma ArriveIsRun(l: LikeRequests.Likes, id: int, key: Key, on: bool)
    requires Arriving(l, id, key, false)
    ensures Reaches(l, Mid(l, id, key, on, false, l.facts, l.cache, Locking))
  {
    EnterMid(l, id, key, on, false);
    assert ValidLikes(l, []) && RunLikes(l, []) == l;
    Then(l, l, Arrive(id, if on then Like else Unlike, key));
  }

  /** A call that nobody disturbs is a run of the request machine, whatever its luck. */
  lemma CallIsRun(l: LikeRequests.Likes, v: Store, id: int, key: Key, on: bool, luck: Luck)
    requires Arriving(l, id, key, LockAnswer(luck.lock).Granted?) && v.active == l.facts.active && v.cache == l.cache
    ensures Reaches(l, After(l, id, key, on, Called(v, key, on, luck).0))
  {
    var locked, first := LockAnswer(luck.lock).Granted?, Mid(l, id, key, on, false, l.facts, l.cache, Locking);
    ArriveIsRun(l, id, key, on);
    EnterMid(l, id, key, on, locked);
    if GivesUp(LockAnswer(luck.lock)) {
      Then(l, first, LikeStep.LockBusy(id));
    } else {
      Then(l, first, if locked then Lock(id) else LockError(id));
      CheckMid(l, v, id, key, on, locked, luck);
      Then(l, Mid(l, id, key, on, locked, l.facts, l.cache, Checking), CheckCache(id, luck.cacheRead));
      if CacheHit(v, key, on, luck) {
        LeaveIsRun(l, id, key, on, locked, v);
      } else {
        RetriesAreRun(l, id, key, on, locked, luck.write, 1);
        if WriteAnswer(luck.write, 1).Committed? {
          CommitIsRun(l, id, key, on, locked, luck.cacheWrite, luck.records);
        } else {
          LeaveIsRun(l, id, key, on, locked, v);
        }
      }
    }
  }
}
