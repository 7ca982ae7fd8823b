/** Refresh-token sessions: login, a refresh that checks first and rotates later, and logout. */
module Sessions {
  import opened Wrappers

  datatype Role = Student | Tutor | Operator

  /** A row of refresh_token_session; token ids and secret hashes are only compared for equality. */
  datatype Session = Session(user: int, role: Role, hash: int, expiresAt: int, revoked: bool, replacedBy: Option<int>)

  type Table = map<int, Session>

  /** A refresh between its check and its rotation. */
  datatype Refresh = Refresh(prior: int, hash: int, nextId: int, next: Session)

  datatype State = State(table: Table, refreshes: map<int, Refresh>)

  datatype Step =
    | Login(id: int, user: int, role: Role, hash: int, expiresAt: int)
    | Check(request: int, prior: int, hash: int, role: Role, now: int, nextId: int, nextHash: int, nextExpiry: int)
    | Rotate(request: int, now: int)
    | GiveUp(request: int)
    | Logout(id: int, hash: int, role: Role)

  /** The check of the use case, on a row read without a lock. */
  predicate Passes(t: Table, prior: int, hash: int, role: Role, now: int) {
    prior in t && t[prior].role == role && !t[prior].revoked && now <= t[prior].expiresAt && t[prior].hash == hash
  }

  /** The check of the locked transaction, and the unique key of the new row. */
  predicate Rotates(t: Table, prior: int, hash: int, now: int, nextId: int) {
    prior in t && !t[prior].revoked && t[prior].hash == hash && now <= t[prior].expiresAt && nextId !in t
  }

  function Rotated(t: Table, prior: int, nextId: int, next: Session): Table
    requires prior in t
  {
    t[nextId := next][prior := t[prior].(revoked := true, replacedBy := Some(nextId))]
  }

  predicate Revokes(t: Table, id: int, hash: int, role: Role) {
    id in t && t[id].hash == hash && t[id].role == role
  }

  /** Steps that fail leave everything as it is. */
  function Next(s: State, step: Step): State {
    match step
    case Login(id, user, role, hash, expiresAt) =>
      if id in s.table then s
      else s.(table := s.table[id := Session(user, role, hash, expiresAt, false, None)])
    case Check(request, prior, hash, role, now, nextId, nextHash, nextExpiry) =>
      if Passes(s.table, prior, hash, role, now) then
        var next := Session(s.table[prior].user, role, nextHash, nextExpiry, false, None);
        s.(refreshes := s.refreshes[request := Refresh(prior, hash, nextId, next)])
      else s
    case Rotate(request, now) =>
      if request !in s.refreshes then s
      else
        var r := s.refreshes[request];
        var t := if Rotates(s.table, r.prior, r.hash, now, r.nextId) then Rotated(s.table, r.prior, r.nextId, r.next) else s.table;
        State(t, s.refreshes - {request})
    case GiveUp(request) => s.(refreshes := s.refreshes - {request})
    case Logout(id, hash, role) =>
      if Revokes(s.table, id, hash, role) then s.(table := s.table[id := s.table[id].(revoked := true)]) else s
  }

  /** The token a step gives a successor to. */
  predicate Succeeds(s: State, step: Step, id: int) {
    && step.Rotate? && step.request in s.refreshes && s.refreshes[step.request].prior == id
    && Rotates(s.table, id, s.refreshes[step.request].hash, step.now, s.refreshes[step.request].nextId)
  }

  function Run(s: State, steps: seq<Step>): State
    decreases |steps|
  {
    if steps == [] then s else Run(Next(s, steps[0]), steps[1..])
  }

  // ---------------------------------------------------------------------------------------------
  // Families

  /** Where a token stands: the login it descends from, and how many rotations after it. */
  datatype Place = Place(login: nat, turn: nat)

  /** History: for every login its tokens in order of rotation. */
  datatype Family = Family(chains: seq<seq<int>>, places: map<int, Place>)

  function Grow(f: Family, s: State, step: Step): Family {
    if step.Login? && step.id !in s.table then
      Family(f.chains + [[step.id]], f.places[step.id := Place(|f.chains|, 0)])
    else if step.Rotate? && step.request in s.refreshes && Succeeds(s, step, s.refreshes[step.request].prior) then
      var r := s.refreshes[step.request];
      if r.prior in f.places && f.places[r.prior].login < |f.chains| then
        var c := f.places[r.prior].login;
        Appended(f, c, r.nextId)
      else f
    else f
  }

  function GrowAll(f: Family, s: State, steps: seq<Step>): Family
    decreases |steps|
  {
    if steps == [] then f else GrowAll(Grow(f, s, steps[0]), Next(s, steps[0]), steps[1..])
  }

  /** The chains list every token once. */
  ghost predicate Placed(f: Family, t: Table) {
    && f.places.Keys == t.Keys
    && (forall id :: id in f.places ==> StandsAt(f, id, f.places[id]))
    && (forall c, j :: 0 <= c < |f.chains| && 0 <= j < |f.chains[c]| ==>
      f.chains[c][j] in f.places && f.places[f.chains[c][j]] == Place(c, j))
  }

  predicate StandsAt(f: Family, id: int, p: Place) {
    p.login < |f.chains| && p.turn < |f.chains[p.login]| && f.chains[p.login][p.turn] == id
  }

  predicate IsLast(f: Family, p: Place) {
    p.login < |f.chains| && p.turn == |f.chains[p.login]| - 1
  }

  /** A token that is not the last of its chain is revoked, and replaced by the next one of the same user and role. */
  ghost predicate Linked(f: Family, t: Table) {
    forall id :: id in f.places && id in t ==>
      if IsLast(f, f.places[id]) then t[id].replacedBy == None else LinksOn(f, t, id, f.places[id])
  }

  predicate LinksOn(f: Family, t: Table, id: int, p: Place)
    requires id in t
  {
    && p.login < |f.chains| && p.turn + 1 < |f.chains[p.login]|
    && var next := f.chains[p.login][p.turn + 1];
       && t[id].revoked && t[id].replacedBy == Some(next)
       && next in t && t[next].user == t[id].user && t[next].role == t[id].role
  }

  /** A waiting refresh would issue an unrevoked token for the user and role of its old one. */
  ghost predicate Waiting(s: State) {
    forall q :: q in s.refreshes ==>
      var r := s.refreshes[q];
      && r.prior in s.table && !r.next.revoked && r.next.replacedBy == None
      && r.next.user == s.table[r.prior].user && r.next.role == s.table[r.prior].role
  }

  ghost predicate Inv(s: State, f: Family) {
    Placed(f, s.table) && Linked(f, s.table) && Waiting(s)
  }

  lemma LoginPlaced(s: State, f: Family, step: Step)
    requires Placed(f, s.table) && step.Login? && step.id !in s.table
    ensures Placed(Grow(f, s, step), Next(s, step).table)
  {
    var g := Grow(f, s, step);
    forall id | id in g.places ensures StandsAt(g, id, g.places[id]) {
      if id != step.id { assert StandsAt(f, id, f.places[id]); }
    }
    forall c, j | 0 <= c < |g.chains| && 0 <= j < |g.chains[c]|
      ensures g.chains[c][j] in g.places && g.places[g.chains[c][j]] == Place(c, j)
    {
      if c < |f.chains| { assert g.chains[c] == f.chains[c] && f.chains[c][j] in f.places; }
    }
  }

  lemma LoginLinked(s: State, f: Family, step: Step)
    requires Placed(f, s.table) && Linked(f, s.table) && step.Login? && step.id !in s.table
    ensures Linked(Grow(f, s, step), Next(s, step).table)
  {
  }

  /** The family with a token appended to a chain. */
  function Appended(f: Family, c: nat, id: int): Family
    requires c < |f.chains|
  {
    Family(f.chains[c := f.chains[c] + [id]], f.places[id := Place(c, |f.chains[c]|)])
  }

  lemma AppendedPlaced(f: Family, t: Table, u: Table, c: nat, id: int)
    requires Placed(f, t) && c < |f.chains| && id !in t && u.Keys == t.Keys + {id}
    ensures Placed(Appended(f, c, id), u)
  {
    var g := Appended(f, c, id);
    forall x | x in g.places ensures StandsAt(g, x, g.places[x]) {
      if x != id { assert StandsAt(f, x, f.places[x]); }
    }
    forall d, j | 0 <= d < |g.chains| && 0 <= j < |g.chains[d]|
      ensures g.chains[d][j] in g.places && g.places[g.chains[d][j]] == Place(d, j)
    {
      if d != c || j < |f.chains[d]| { assert g.chains[d][j] == f.chains[d][j] && f.chains[d][j] in f.places; }
    }
  }

  lemma RotatePlaced(s: State, f: Family, step: Step)
    requires Inv(s, f) && step.Rotate? && step.request in s.refreshes && Succeeds(s, step, s.refreshes[step.request].prior)
    ensures Placed(Grow(f, s, step), Next(s, step).table)
    ensures IsLast(f, f.places[s.refreshes[step.request].prior])
  {
    var r := s.refreshes[step.request];
    var p := f.places[r.prior];
    assert StandsAt(f, r.prior, p);
    assert Grow(f, s, step) == Appended(f, p.login, r.nextId);
    assert Next(s, step).table.Keys == s.table.Keys + {r.nextId};
    AppendedPlaced(f, s.table, Next(s, step).table, p.login, r.nextId);
  }

  lemma RotateLinked(s: State, f: Family, step: Step)
    requires Inv(s, f) && step.Rotate? && step.request in s.refreshes && Succeeds(s, step, s.refreshes[step.request].prior)
    ensures Linked(Grow(f, s, step), Next(s, step).table)
  {
    var r := s.refreshes[step.request];
    var t, g, p := Next(s, step).table, Grow(f, s, step), f.places[r.prior];
    RotatePlaced(s, f, step);
    assert StandsAt(f, r.prior, p);
    forall id | id in g.places && id in t
      ensures if IsLast(g, g.places[id]) then t[id].replacedBy == None else LinksOn(g, t, id, g.places[id])
    {
      if id == r.prior {
        assert g.chains[p.login][p.turn + 1] == r.nextId;
      } else if id != r.nextId {
        var q := f.places[id];
        assert StandsAt(f, id, q);
        if IsLast(f, q) {
          assert q.login != p.login by {
            assert q.login == p.login ==> q == p;
          }
        } else {
          assert g.chains[q.login][q.turn + 1] == f.chains[q.login][q.turn + 1];
        }
      }
    }
  }

  lemma LogoutLinked(f: Family, t: Table, id: int)
    requires Linked(f, t) && id in t
    ensures Linked(f, t[id := t[id].(revoked := true)])
  {
  }

  lemma RotateWaiting(s: State, step: Step)
    requires Waiting(s) && step.Rotate? && step.request in s.refreshes
    ensures Waiting(Next(s, step))
  {
    var t := Next(s, step);
    forall q | q in t.refreshes
      ensures t.refreshes[q].prior in t.table
      ensures t.table[t.refreshes[q].prior].user == s.table[t.refreshes[q].prior].user
      ensures t.table[t.refreshes[q].prior].role == s.table[t.refreshes[q].prior].role
    {
      assert s.refreshes[q].prior in s.table;
    }
  }

  lemma LoginInv(s: State, f: Family, step: Step)
    requires Inv(s, f) && step.Login? && step.id !in s.table
    ensures Inv(Next(s, step), Grow(f, s, step))
  {
    LoginPlaced(s, f, step);
    LoginLinked(s, f, step);
  }

  lemma RotateInv(s: State, f: Family, step: Step)
    requires Inv(s, f) && step.Rotate? && step.request in s.refreshes && Succeeds(s, step, s.refreshes[step.request].prior)
    ensures Inv(Next(s, step), Grow(f, s, step))
  {
    RotatePlaced(s, f, step);
    RotateLinked(s, f, step);
    RotateWaiting(s, step);
  }

  lemma LogoutInv(s: State, f: Family, step: Step)
    requires Inv(s, f) && step.Logout? && Revokes(s.table, step.id, step.hash, step.role)
    ensures Inv(Next(s, step), Grow(f, s, step))
  {
    LogoutLinked(f, s.table, step.id);
    assert Next(s, step).table.Keys == s.table.Keys;
  }

  /** Steps that leave the table as it is. */
  lemma QuietInv(s: State, f: Family, step: Step)
    requires Inv(s, f) && Next(s, step).table == s.table && Grow(f, s, step) == f
    ensures Inv(Next(s, step), f)
  {
  }

  lemma StepInv(s: State, f: Family, step: Step)
    requires Inv(s, f)
    ensures Inv(Next(s, step), Grow(f, s, step))
  {
    if step.Login? && step.id !in s.table {
      LoginInv(s, f, step);
    } else if step.Rotate? && step.request in s.refreshes && Succeeds(s, step, s.refreshes[step.request].prior) {
      RotateInv(s, f, step);
    } else if step.Logout? && Revokes(s.table, step.id, step.hash, step.role) {
      LogoutInv(s, f, step);
    } else {
      QuietInv(s, f, step);
    }
  }

  const EMPTY := State(map[], map[])
  const NOBODY := Family([], map[])

  lemma {:induction false} RunInv(s: State, f: Family, steps: seq<Step>)
    requires Inv(s, f)
    ensures Inv(Run(s, steps), GrowAll(f, s, steps))
    decreases |steps|
  {
    if steps != [] {
      StepInv(s, f, steps[0]);
      RunInv(Next(s, steps[0]), Grow(f, s, steps[0]), steps[1..]);
    }
  }

  /**
   * After any interleaving of logins, refreshes and logouts, the tokens descending from one login form a chain
   * of one user and role in which each is replaced by the next, and at most the last one is not revoked.
   */
  lemma FamiliesAreChains(steps: seq<Step>, c: nat, i: nat)
    requires c < |GrowAll(NOBODY, EMPTY, steps).chains| && i < |GrowAll(NOBODY, EMPTY, steps).chains[c]|
    ensures var t, chain := Run(EMPTY, steps).table, GrowAll(NOBODY, EMPTY, steps).chains[c];
      && chain[i] in t
      && (i + 1 < |chain| ==>
        && t[chain[i]].revoked && t[chain[i]].replacedBy == Some(chain[i + 1])
        && chain[i + 1] in t && t[chain[i + 1]].user == t[chain[i]].user && t[chain[i + 1]].role == t[chain[i]].role)
      && (i + 1 == |chain| ==> t[chain[i]].replacedBy == None)
  {
    RunInv(EMPTY, NOBODY, steps);
    var t, f := Run(EMPTY, steps).table, GrowAll(NOBODY, EMPTY, steps);
    var id := f.chains[c][i];
    assert id in f.places && f.places[id] == Place(c, i) && id in t;
    assert IsLast(f, f.places[id]) || LinksOn(f, t, id, f.places[id]);
  }

  /** Every token stands in exactly one place of one chain. */
  lemma EveryTokenDescends(steps: seq<Step>, id: int)
    requires id in Run(EMPTY, steps).table
    ensures exists p :: StandsAt(GrowAll(NOBODY, EMPTY, steps), id, p)
    ensures forall p, q ::
      StandsAt(GrowAll(NOBODY, EMPTY, steps), id, p) && StandsAt(GrowAll(NOBODY, EMPTY, steps), id, q) ==> p == q
  {
    RunInv(EMPTY, NOBODY, steps);
    var f := GrowAll(NOBODY, EMPTY, steps);
    assert StandsAt(f, id, f.places[id]);
    forall p | StandsAt(f, id, p) ensures p == f.places[id] {
      assert f.chains[p.login][p.turn] in f.places;
    }
  }

  ghost function Successors(s: State, steps: seq<Step>, id: int): nat
    decreases |steps|
  {
    if steps == [] then 0 else (if Succeeds(s, steps[0], id) then 1 else 0) + Successors(Next(s, steps[0]), steps[1..], id)
  }

  /**
   * A token gets at most one successor, and none once it is revoked, although every refresh looks at the row
   * before the transaction that locks it.
   */
  lemma {:induction false} AtMostOneSuccessor(s: State, steps: seq<Step>, id: int)
    ensures Successors(s, steps, id) <= 1
    ensures id in s.table && s.table[id].revoked ==>
      && Successors(s, steps, id) == 0
      && id in Run(s, steps).table && Run(s, steps).table[id] == s.table[id]
    decreases |steps|
  {
    if steps != [] {
      AtMostOneSuccessor(Next(s, steps[0]), steps[1..], id);
    }
  }

  /**
   * A logout with a token's own secret and role revokes it, and any other leaves everything as it is. Afterwards, in
   * every later run, no refresh of that token passes its check, and one that passed it before does not rotate.
   */
  lemma LogoutIsFinal(s: State, id: int, hash: int, role: Role, more: seq<Step>, refresh: Step)
    requires id in s.table
    ensures var t := Next(s, Logout(id, hash, role));
      if hash == s.table[id].hash && role == s.table[id].role then
        var u := Run(t, more);
        && t == s.(table := s.table[id := s.table[id].(revoked := true)])
        && id in u.table && u.table[id] == s.table[id].(revoked := true)
        && (refresh.Check? && refresh.prior == id ==> Next(u, refresh) == u)
        && (refresh.Rotate? && refresh.request in u.refreshes && u.refreshes[refresh.request].prior == id ==>
          Next(u, refresh).table == u.table)
      else
        t == s
  {
    if hash == s.table[id].hash && role == s.table[id].role {
      AtMostOneSuccessor(Next(s, Logout(id, hash, role)), more, id);
    }
  }

  /** A check lets exactly the holder of an unrevoked, unexpired token of the role in, as a refresh that may rotate later. */
  lemma CheckIff(s: State, check: Step)
    requires check.Check? && check.request !in s.refreshes
    ensures check.request in Next(s, check).refreshes
      <==> && check.prior in s.table && s.table[check.prior].role == check.role && !s.table[check.prior].revoked
           && check.now <= s.table[check.prior].expiresAt && s.table[check.prior].hash == check.hash
    ensures Next(s, check).table == s.table
  {
  }

  // ---------------------------------------------------------------------------------------------
  // Token text

  predicate NoDot(s: string) {
    forall i :: 0 <= i < |s| ==> s[i] != '.'
  }

  function FirstDot(s: string): (n: nat)
    ensures n <= |s| && NoDot(s[..n]) && (n < |s| ==> s[n] == '.')
  {
    if s == "" || s[0] == '.' then 0
    else
      var n := FirstDot(s[1..]);
      assert s[..n + 1] == [s[0]] + s[1..][..n];
      n + 1
  }

  /** splitRefreshToken, after trimming: exactly two nonempty parts around one dot. */
  function SplitToken(s: string): Option<(string, string)> {
    var n := FirstDot(s);
    if n < |s| && n > 0 && n + 1 < |s| && NoDot(s[n + 1..]) then Some((s[..n], s[n + 1..])) else None
  }

  /** Splitting undoes joining, and accepts nothing else. */
  lemma SplitUndoesJoin(s: string, id: string, secret: string)
    ensures SplitToken(s) == Some((id, secret))
      <==> s == id + "." + secret && id != "" && secret != "" && NoDot(id) && NoDot(secret)
  {
    if s == id + "." + secret && id != "" && secret != "" && NoDot(id) && NoDot(secret) {
      var n := FirstDot(s);
      assert s[|id|] == '.' && s[..|id|] == id && s[|id| + 1..] == secret;
      assert forall i :: 0 <= i < n ==> s[..n][i] == s[i] && s[i] != '.';
      assert forall i :: 0 <= i < |id| ==> id[i] == s[i] && s[i] != '.';
    }
    if SplitToken(s) == Some((id, secret)) {
      assert s == s[..FirstDot(s)] + "." + s[FirstDot(s) + 1..];
    }
  }

  // ---------------------------------------------------------------------------------------------
  // The repository's transactions

  class Store {
    var sessions: Table

    constructor ()
      ensures sessions == map[]
    {
      sessions := map[];
    }

    method CreateRefreshToken(id: int, session: Session) returns (ok: bool)
      modifies this
      ensures ok == (id !in old(sessions))
      ensures sessions == if ok then old(sessions)[id := session] else old(sessions)
    {
      ok := id !in sessions;
      if ok {
        sessions := sessions[id := session];
      }
    }

    /** The row lock makes this one step. */
    method RotateRefreshToken(prior: int, hash: int, now: int, nextId: int, next: Session) returns (ok: bool)
      modifies this
      ensures ok == Rotates(old(sessions), prior, hash, now, nextId)
      ensures sessions == if ok then Rotated(old(sessions), prior, nextId, next) else old(sessions)
      ensures ok <==> && prior in old(sessions) && !old(sessions)[prior].revoked && old(sessions)[prior].hash == hash
                      && now <= old(sessions)[prior].expiresAt && nextId !in old(sessions)
      ensures ok ==>
        && sessions.Keys == old(sessions).Keys + {nextId} && sessions[nextId] == next
        && sessions[prior] == old(sessions)[prior].(revoked := true, replacedBy := Some(nextId))
        && forall id :: id in old(sessions) && id != prior ==> sessions[id] == old(sessions)[id]
    {
      if prior !in sessions {
        return false;
      }
      var row := sessions[prior];
      if row.revoked || row.hash != hash || now > row.expiresAt {
        return false;
      }
      ok := CreateRefreshToken(nextId, next);
      if ok {
        sessions := sessions[prior := row.(revoked := true, replacedBy := Some(nextId))];
      }
    }

    /** `matched` is whether the driver counts matched rows, and not only changed ones. */
    method RevokeRefreshToken(id: int, hash: int, role: Role, matched: bool) returns (ok: bool)
      modifies this
      ensures ok == (Revokes(old(sessions), id, hash, role) && (matched || !old(sessions)[id].revoked))
      ensures sessions
           == if id in old(sessions) && old(sessions)[id].hash == hash && old(sessions)[id].role == role
              then old(sessions)[id := old(sessions)[id].(revoked := true)] else old(sessions)
      ensures ok <==> && id in old(sessions) && old(sessions)[id].hash == hash && old(sessions)[id].role == role
                      && (matched || !old(sessions)[id].revoked)
    {
      ok := false;
      if id in sessions && sessions[id].hash == hash && sessions[id].role == role {
        ok := matched || !sessions[id].revoked;
        sessions := sessions[id := sessions[id].(revoked := true)];
      }
    }
  }

  // ---------------------------------------------------------------------------------------------
  // The use cases

  datatype Result = Issued(id: int) | BadRole | BadToken | Unauthorized | Failed

  class AuthUsecase {
    const repo: Store

    constructor (repo: Store)
      ensures this.repo == repo
    {
      this.repo := repo;
    }

    /**
     * `lookup` and `hash` stand for the row key and the digest of the two parts of the token; `works` is whether the
     * lookup gets through. A role text that names no role is None.
     */
    method Refresh(raw: string, role: Option<Role>, lookup: string -> int, hash: string -> int, works: bool,
                   checkedAt: int, rotatedAt: int, nextId: int, nextHash: int, nextExpiry: int) returns (r: Result)
      modifies repo
      ensures role.None? <==> r.BadRole?
      ensures role.Some? ==> (SplitToken(raw).None? <==> r.BadToken?)
      ensures !r.Issued? ==> repo.sessions == old(repo.sessions)
      ensures role.Some? && SplitToken(raw).Some? ==>
        var (id, secret) := SplitToken(raw).value;
        var t, prior := old(repo.sessions), lookup(id);
        var good := prior in t && t[prior].role == role.value && !t[prior].revoked && checkedAt <= t[prior].expiresAt
          && t[prior].hash == hash(secret);
        && (!works ==> r.Failed?)
        && (works && !good ==> r.Unauthorized?)
        && (r == Issued(nextId) <==> works && good && rotatedAt <= t[prior].expiresAt && nextId !in t)
        && (r.Issued? ==>
          r.id == nextId && repo.sessions
            == Rotated(t, lookup(id), nextId, Session(t[lookup(id)].user, role.value, nextHash, nextExpiry, false, None)))
    {
      if role.None? {
        return BadRole;
      }
      var parts := SplitToken(raw);
      if parts.None? {
        return BadToken;
      }
      if !works {
        return Failed;
      }
      var prior, digest := lookup(parts.value.0), hash(parts.value.1);
      if prior !in repo.sessions {
        return Unauthorized;
      }
      var row := repo.sessions[prior];
      if row.role != role.value || row.revoked || checkedAt > row.expiresAt || row.hash != digest {
        return Unauthorized;
      }
      var next := Session(row.user, row.role, nextHash, nextExpiry, false, None);
      var ok := repo.RotateRefreshToken(prior, digest, rotatedAt, nextId, next);
      if !ok {
        return if rotatedAt > row.expiresAt then Unauthorized else Failed;
      }
      r := Issued(nextId);
    }

    /** `works` is whether the update gets through. */
    method Logout(raw: string, role: Option<Role>, lookup: string -> int, hash: string -> int, matched: bool, works: bool)
      returns (r: Option<bool>)
      modifies repo
      ensures r.None? <==> role.None? || SplitToken(raw).None? || !works
      ensures r.None? ==> repo.sessions == old(repo.sessions)
      ensures r.Some? ==>
        var (id, secret) := SplitToken(raw).value;
        var t := old(repo.sessions);
        var own := lookup(id) in t && t[lookup(id)].hash == hash(secret) && t[lookup(id)].role == role.value;
        && r.value == (own && (matched || !t[lookup(id)].revoked))
        && repo.sessions == (if own then t[lookup(id) := t[lookup(id)].(revoked := true)] else t)
        && repo.sessions == Next(State(t, map[]), Step.Logout(lookup(id), hash(secret), role.value)).table
    {
      var parts := SplitToken(raw);
      if role.None? || parts.None? || !works {
        return None;
      }
      var ok := repo.RevokeRefreshToken(lookup(parts.value.0), hash(parts.value.1), role.value, matched);
      r := Some(ok);
    }
  }

  /** An undisturbed refresh is a check and a rotation of the state machine. */
  lemma RefreshIsRun(s: State, request: int, prior: int, hash: int, role: Role, checkedAt: int, rotatedAt: int,
                     nextId: int, nextHash: int, nextExpiry: int)
    requires request !in s.refreshes
    ensures var t := s.table;
      var issues := prior in t && t[prior].role == role && t[prior].hash == hash && !t[prior].revoked
        && checkedAt <= t[prior].expiresAt && rotatedAt <= t[prior].expiresAt && nextId !in t;
      var steps := [Check(request, prior, hash, role, checkedAt, nextId, nextHash, nextExpiry), Rotate(request, rotatedAt)];
      Run(s, steps).table
        == if issues then Rotated(t, prior, nextId, Session(t[prior].user, role, nextHash, nextExpiry, false, None)) else t
  {
    var check := Check(request, prior, hash, role, checkedAt, nextId, nextHash, nextExpiry);
    var steps := [check, Rotate(request, rotatedAt)];
    assert steps[1..] == [Rotate(request, rotatedAt)] && steps[1..][1..] == [];
    assert Run(Next(s, check), steps[1..]) == Next(Next(s, check), Rotate(request, rotatedAt));
  }
}
