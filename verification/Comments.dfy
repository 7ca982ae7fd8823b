/** Comment rows, the transactions that change them, and the comment-count deltas these emit. */
module Comments {
  import P = CounterPipeline

  datatype Audit = Waiting | Approved | Rejected

  datatype Reply = NoReply | Replied(reply: int, tutor: int) | Withdrawn(reply: int, tutor: int)

  datatype Comment = Comment(post: int, visible: bool, audit: Audit, deleted: bool, reply: Reply)

  /** Each transaction, and each single conditional update, is one step. */
  datatype Step =
    | Create(id: int, post: int)
    | Delete(id: int)                                  // by the student or the tutor
    | Approve(id: int)
    | Reject(id: int)
    | Respond(id: int, reply: int, tutor: int)
    | Withdraw(reply: int, tutor: int)

  /** study_comment by comment_id, and the posts that can be commented on. */
  datatype Table = Table(rows: map<int, Comment>, posts: set<int>)

  predicate Live(t: Table, id: int) {
    id in t.rows && !t.rows[id].deleted
  }

  predicate Counts(t: Table, id: int) {
    Live(t, id) && t.rows[id].visible
  }

  /** What factCountSQL counts. */
  function Visible(t: Table, post: int): set<int> {
    set id | id in t.rows && Counts(t, id) && t.rows[id].post == post
  }

  predicate Auditable(t: Table, id: int) {
    Live(t, id) && t.rows[id].audit.Waiting?
  }

  function Set(t: Table, id: int, c: Comment): Table {
    t.(rows := t.rows[id := c])
  }

  function Next(t: Table, step: Step): Table {
    match step
    case Create(id, post) =>
      if post in t.posts && id !in t.rows then Set(t, id, Comment(post, true, Waiting, false, NoReply)) else t
    case Delete(id) =>
      if Live(t, id) then Set(t, id, t.rows[id].(visible := false, deleted := true)) else t
    case Approve(id) =>
      if Auditable(t, id) then Set(t, id, t.rows[id].(audit := Approved)) else t
    case Reject(id) =>
      if Auditable(t, id) then Set(t, id, t.rows[id].(audit := Rejected, visible := false)) else t
    case Respond(id, reply, tutor) =>
      if Live(t, id) && t.rows[id].reply.NoReply? then Set(t, id, t.rows[id].(reply := Replied(reply, tutor))) else t
    case Withdraw(reply, tutor) =>
      t.(rows := map id | id in t.rows ::
        if Live(t, id) && t.rows[id].reply == Replied(reply, tutor) then t.rows[id].(reply := Withdrawn(reply, tutor))
        else t.rows[id])
  }

  /** The delta recorded after the step, and the comment it is about. */
  function Delta(t: Table, step: Step): int {
    match step
    case Create(id, post) => if post in t.posts && id !in t.rows then 1 else 0
    case Delete(id) => if Live(t, id) && t.rows[id].visible then -1 else 0
    case Reject(id) => if Auditable(t, id) && t.rows[id].visible then -1 else 0
    case _ => 0
  }

  function PostOf(t: Table, step: Step): int {
    match step
    case Create(_, post) => post
    case Delete(id) => if id in t.rows then t.rows[id].post else 0
    case Reject(id) => if id in t.rows then t.rows[id].post else 0
    case _ => 0
  }

  function Run(t: Table, steps: seq<Step>): Table
    decreases |steps|
  {
    if steps == [] then t else Run(Next(t, steps[0]), steps[1..])
  }

  function Emitted(t: Table, steps: seq<Step>, post: int): int
    decreases |steps|
  {
    if steps == [] then 0
    else (if PostOf(t, steps[0]) == post then Delta(t, steps[0]) else 0) + Emitted(Next(t, steps[0]), steps[1..], post)
  }

  /** A delta flips one comment in or out of the fact count; without a delta the counted comments stay. */
  lemma StepFlips(t: Table, step: Step, post: int)
    ensures var before, after := Visible(t, post), Visible(Next(t, step), post);
      if PostOf(t, step) == post && Delta(t, step) == 1 then
        step.Create? && step.id !in before && after == before + {step.id}
      else if PostOf(t, step) == post && Delta(t, step) == -1 then
        (step.Delete? || step.Reject?) && step.id in before && after == before - {step.id}
      else
        Delta(t, step) in {-1, 0, 1} && after == before
  {
  }

  /** A new comment of an existing post is visible, waits for its audit and has no reply. */
  lemma CreateMeans(t: Table, id: int, post: int)
    ensures var u := Next(t, Create(id, post));
      if post in t.posts && id !in t.rows then
        u.posts == t.posts && u.rows == t.rows[id := Comment(post, true, Waiting, false, NoReply)]
      else u == t
  {
  }

  /** What each step does to the one row it is about. */
  lemma StepMeans(t: Table, step: Step, id: int)
    requires id in t.rows
    ensures var live, c, d := !t.rows[id].deleted, t.rows[id], Next(t, step).rows[id];
      && (step == Delete(id) && live ==> d == c.(visible := false, deleted := true))
      && (step == Approve(id) && live && c.audit == Waiting ==> d == c.(audit := Approved))
      && (step == Reject(id) && live && c.audit == Waiting ==> d == c.(audit := Rejected, visible := false))
      && (step.Respond? && step.id == id && live && c.reply == NoReply ==> d == c.(reply := Replied(step.reply, step.tutor)))
      && (step.Withdraw? && live && c.reply == Replied(step.reply, step.tutor) ==>
        d == c.(reply := Withdrawn(step.reply, step.tutor)))
      && (!live || step.Create? || (!step.Withdraw? && step.id != id) ==> d == c)
  {
  }

  /** Over every sequence of transactions the emitted deltas add up to the change of the fact count. */
  lemma {:induction false} CommentsAgree(t: Table, steps: seq<Step>, post: int)
    ensures |Visible(Run(t, steps), post)| == |Visible(t, post)| + Emitted(t, steps, post)
    decreases |steps|
  {
    if steps != [] {
      StepFlips(t, steps[0], post);
      CommentsAgree(Next(t, steps[0]), steps[1..], post);
    }
  }

  /** A delta of a comment is, for the counter pipeline, the flip of that comment as an actor of its post. */
  lemma DeltaIsPipelineFlip(t: Table, step: Step, f: P.Facts, request: int)
    requires Delta(t, step) != 0
    requires P.ActiveIn(f, PostOf(t, step)) == Visible(t, PostOf(t, step))
    ensures var g := P.FlipFacts(f, request, PostOf(t, step), step.id);
      && P.ActiveIn(g, PostOf(t, step)) == Visible(Next(t, step), PostOf(t, step))
      && g.inflight[request] == P.Change(PostOf(t, step), step.id, Delta(t, step))
      && forall other :: other != PostOf(t, step) ==>
        P.ActiveIn(g, other) == P.ActiveIn(f, other) && Visible(Next(t, step), other) == Visible(t, other)
  {
    StepFlips(t, step, PostOf(t, step));
    forall other | other != PostOf(t, step) ensures Visible(Next(t, step), other) == Visible(t, other) {
      StepFlips(t, step, other);
    }
  }

  // ---------------------------------------------------------------------------------------------
  // Audit and reply are one-way

  ghost predicate Later(c: Comment, d: Comment) {
    && d.post == c.post
    && (c.deleted ==> d == c)
    && (!c.audit.Waiting? ==> d.audit == c.audit)
    && (!c.visible ==> !d.visible)
    && (c.visible ==> (d.visible <==> !d.deleted && !d.audit.Rejected?))
    && (c.reply.Withdrawn? ==> d.reply == c.reply)
    && (c.reply.Replied? ==> d.reply in {c.reply, Withdrawn(c.reply.reply, c.reply.tutor)})
  }

  /** Counted comments are not rejected, deleted ones not visible. */
  predicate RowsConsistent(t: Table) {
    forall id :: id in t.rows && t.rows[id].visible ==> !t.rows[id].deleted && !t.rows[id].audit.Rejected?
  }

  lemma StepIsLater(t: Table, step: Step, id: int)
    requires RowsConsistent(t) && id in t.rows
    ensures var u := Next(t, step);
      id in u.rows && Later(t.rows[id], u.rows[id])
  {
  }

  lemma StepConsistent(t: Table, step: Step)
    requires RowsConsistent(t)
    ensures RowsConsistent(Next(t, step))
  {
  }

  /**
   * Along every run an audit decision is final, a deleted row is frozen, a reply is given once and withdrawn
   * once, and a visible comment stops being visible exactly by deletion or rejection.
   */
  lemma {:induction false} RunIsLater(t: Table, steps: seq<Step>, id: int)
    requires RowsConsistent(t) && id in t.rows
    ensures RowsConsistent(Run(t, steps))
    ensures id in Run(t, steps).rows && Later(t.rows[id], Run(t, steps).rows[id])
    decreases |steps|
  {
    if steps != [] {
      StepConsistent(t, steps[0]);
      StepIsLater(t, steps[0], id);
      RunIsLater(Next(t, steps[0]), steps[1..], id);
    }
  }

  // ---------------------------------------------------------------------------------------------
  // Transactions whose first statement reads an older snapshot

  /** The delta a delete records when it read the row as `seen` and its update runs against `t`. */
  function SnapshotDeleteDelta(seen: Comment, t: Table, id: int): int {
    if Live(t, id) && seen.visible then -1 else 0
  }

  function SnapshotRejectDelta(seen: Comment, t: Table, id: int): int {
    if Auditable(t, id) && seen.visible then -1 else 0
  }

  /** A reject guards its update by audit_status, and stays exact whatever ran since its read. */
  lemma RejectIsExactOnSnapshots(t: Table, steps: seq<Step>, id: int)
    requires RowsConsistent(t) && id in t.rows
    ensures SnapshotRejectDelta(t.rows[id], Run(t, steps), id) == Delta(Run(t, steps), Reject(id))
  {
    RunIsLater(t, steps, id);
  }

  /** A delete guards its update by deleted_at only: it is exact unless a reject hid the comment since the read. */
  lemma DeleteIsExactOnSnapshotsIff(t: Table, steps: seq<Step>, id: int)
    requires RowsConsistent(t) && id in t.rows
    ensures var u := Run(t, steps);
      && id in u.rows
      && (SnapshotDeleteDelta(t.rows[id], u, id) == Delta(u, Delete(id))
          <==> !(t.rows[id].visible && !u.rows[id].deleted && u.rows[id].audit.Rejected?))
  {
    RunIsLater(t, steps, id);
  }

  /** One reject inside the window is enough to count a comment out twice. */
  lemma RacingDeleteCountsTwice(t: Table, id: int)
    requires Auditable(t, id) && t.rows[id].visible
    ensures var u := Next(t, Reject(id));
      && Delta(t, Reject(id)) + SnapshotDeleteDelta(t.rows[id], u, id) == -2
      && |Visible(Next(u, Delete(id)), t.rows[id].post)| == |Visible(t, t.rows[id].post)| - 1
  {
    StepFlips(t, Reject(id), t.rows[id].post);
    StepFlips(Next(t, Reject(id)), Delete(id), t.rows[id].post);
  }

  // ---------------------------------------------------------------------------------------------
  // The repositories' methods

  /** The table and the deltas handed to the counter, changed statement by statement. */
  class Repository {
    var rows: map<int, Comment>
    const posts: set<int>
    var recorded: seq<(int, int)>     // (post, delta) in the order they were recorded

    constructor (posts: set<int>)
      ensures View() == Table(map[], posts) && recorded == []
    {
      this.posts := posts;
      rows, recorded := map[], [];
    }

    function View(): Table
      reads this
    {
      Table(rows, posts)
    }

    method CreateComment(id: int, post: int) returns (ok: bool)
      modifies this
      ensures View() == Next(old(View()), Create(id, post))
      ensures ok <==> post in posts && id !in old(rows)
      ensures rows == if ok then old(rows)[id := Comment(post, true, Waiting, false, NoReply)] else old(rows)
      ensures recorded == old(recorded) + if ok then [(post, 1)] else []
    {
      ok := post in posts && id !in rows;
      if ok {
        rows := rows[id := Comment(post, true, Waiting, false, NoReply)];
        recorded := recorded + [(post, 1)];
      }
    }

    method DeleteComment(id: int)
      modifies this
      ensures View() == Next(old(View()), Delete(id))
      ensures var live := id in old(rows) && !old(rows)[id].deleted;
        && rows == (if live then old(rows)[id := old(rows)[id].(visible := false, deleted := true)] else old(rows))
        && recorded == old(recorded) + (if live && old(rows)[id].visible then [(old(rows)[id].post, -1)] else [])
    {
      if id !in rows || rows[id].deleted {
        return;
      }
      var comment := rows[id];
      var needDecrement := comment.visible;
      rows := rows[id := comment.(visible := false, deleted := true)];
      if needDecrement {
        recorded := recorded + [(comment.post, -1)];
      }
    }

    method ApproveComment(id: int) returns (ok: bool)
      modifies this
      ensures View() == Next(old(View()), Approve(id)) && recorded == old(recorded)
      ensures ok <==> id in old(rows) && !old(rows)[id].deleted && old(rows)[id].audit == Waiting
      ensures rows == if ok then old(rows)[id := old(rows)[id].(audit := Approved)] else old(rows)
    {
      ok := id in rows && !rows[id].deleted && rows[id].audit.Waiting?;
      if ok {
        rows := rows[id := rows[id].(audit := Approved)];
      }
    }

    method RejectComment(id: int) returns (ok: bool)
      modifies this
      ensures View() == Next(old(View()), Reject(id))
      ensures ok <==> id in old(rows) && !old(rows)[id].deleted && old(rows)[id].audit == Waiting
      ensures rows == if ok then old(rows)[id := old(rows)[id].(audit := Rejected, visible := false)] else old(rows)
      ensures recorded == old(recorded) + if ok && old(rows)[id].visible then [(old(rows)[id].post, -1)] else []
    {
      if id !in rows || rows[id].deleted {
        return false;
      }
      var comment := rows[id];
      if !comment.audit.Waiting? {
        return false;
      }
      rows := rows[id := comment.(audit := Rejected, visible := false)];
      if comment.visible {
        recorded := recorded + [(comment.post, -1)];
      }
      ok := true;
    }

    method CreateReply(id: int, reply: int, tutor: int) returns (ok: bool)
      modifies this
      ensures View() == Next(old(View()), Respond(id, reply, tutor)) && recorded == old(recorded)
      ensures ok <==> id in old(rows) && !old(rows)[id].deleted && old(rows)[id].reply == NoReply
      ensures rows == if ok then old(rows)[id := old(rows)[id].(reply := Replied(reply, tutor))] else old(rows)
    {
      ok := id in rows && !rows[id].deleted && rows[id].reply.NoReply?;
      if ok {
        rows := rows[id := rows[id].(reply := Replied(reply, tutor))];
      }
    }

    /** `found` is what the lookup of the reply says. Then one conditional update affects every row that carries it. */
    method DeleteReply(reply: int, tutor: int, found: bool) returns (ok: bool)
      modifies this
      ensures View() == (if found then Next(old(View()), Withdraw(reply, tutor)) else old(View())) && recorded == old(recorded)
      ensures ok <==> found && exists id :: id in old(rows) && !old(rows)[id].deleted && old(rows)[id].reply == Replied(reply, tutor)
      ensures rows.Keys == old(rows).Keys
      ensures forall id :: id in rows ==>
        rows[id] == if found && !old(rows)[id].deleted && old(rows)[id].reply == Replied(reply, tutor)
          then old(rows)[id].(reply := Withdrawn(reply, tutor)) else old(rows)[id]
    {
      if !found {
        return false;
      }
      ok := exists id :: id in rows && Live(View(), id) && rows[id].reply == Replied(reply, tutor);
      var before := View();
      rows := map id | id in before.rows ::
        if Live(before, id) && before.rows[id].reply == Replied(reply, tutor) then before.rows[id].(reply := Withdrawn(reply, tutor))
        else before.rows[id];
    }
  }
}
