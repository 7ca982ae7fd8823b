/** The multi-dimension token bucket script, and the ideal bucket set it stands for. */
module RateLimit {

  /** Tokens per second, and the most tokens a bucket holds. */
  datatype Rule = Rule(rate: real, capacity: real)

  /** A bucket hash in Redis with its expiry time in ms. */
  datatype Entry = Entry(tokens: real, last: int, expiresAt: int)

  datatype Bucket = Bucket(key: string, rule: Rule)

  /** `index` is the position of the first bucket that has too few tokens. */
  datatype Decision = Admitted | Denied(index: nat, retryAfter: int, current: real)

  type Store = map<string, Entry>

  function Min(x: real, y: real): real {
    if x < y then x else y
  }

  function Ceil(x: real): int {
    -((-x).Floor)
  }

  predicate ValidRule(rule: Rule) {
    rule.rate > 0.0 && rule.capacity > 0.0
  }

  function Gain(rule: Rule, ms: int): real {
    ms as real / 1000.0 * rule.rate
  }

  function Refill(rule: Rule, tokens: real, ms: int): real {
    Min(rule.capacity, tokens + Gain(rule, ms))
  }

  predicate Present(s: Store, key: string, now: int) {
    key in s && now < s[key].expiresAt
  }

  /** The tokens the script finds. */
  function Level(s: Store, b: Bucket, now: int): real {
    if !Present(s, b.key, now) then b.rule.capacity
    else if now > s[b.key].last then Refill(b.rule, s[b.key].tokens, now - s[b.key].last)
    else s[b.key].tokens
  }

  function RefilledAt(s: Store, b: Bucket, now: int): int {
    if Present(s, b.key, now) && s[b.key].last > now then s[b.key].last else now
  }

  function Wait(rule: Rule, requested: real, current: real): int
    requires ValidRule(rule)
  {
    Ceil((requested - current) / rule.rate * 1000.0)
  }

  function Ttl(rule: Rule): int
    requires ValidRule(rule)
  {
    Ceil(rule.capacity / rule.rate * 2000.0)
  }

  predicate ValidBuckets(buckets: seq<Bucket>) {
    forall i :: 0 <= i < |buckets| ==> ValidRule(buckets[i].rule)
  }

  function DecideFrom(s: Store, buckets: seq<Bucket>, now: int, requested: real, i: nat): Decision
    requires ValidBuckets(buckets) && i <= |buckets|
    decreases |buckets| - i
  {
    if i == |buckets| then Admitted
    else if Level(s, buckets[i], now) < requested then
      Denied(i, Wait(buckets[i].rule, requested, Level(s, buckets[i], now)), Level(s, buckets[i], now))
    else DecideFrom(s, buckets, now, requested, i + 1)
  }

  function Decide(s: Store, buckets: seq<Bucket>, now: int, requested: real): Decision
    requires ValidBuckets(buckets)
  {
    DecideFrom(s, buckets, now, requested, 0)
  }

  function Charged(s: Store, b: Bucket, now: int, requested: real): Entry
    requires ValidRule(b.rule)
  {
    Entry(Level(s, b, now) - requested, RefilledAt(s, b, now), now + Ttl(b.rule))
  }

  /** The writes of the second loop for the buckets from `i` on; all levels were read from `base`. */
  function ChargeFrom(s: Store, base: Store, buckets: seq<Bucket>, now: int, requested: real, i: nat): Store
    requires ValidBuckets(buckets) && i <= |buckets|
    decreases |buckets| - i
  {
    if i == |buckets| then s
    else ChargeFrom(s[buckets[i].key := Charged(base, buckets[i], now, requested)], base, buckets, now, requested, i + 1)
  }

  function Called(s: Store, buckets: seq<Bucket>, now: int, requested: real): Store
    requires ValidBuckets(buckets)
  {
    if Decide(s, buckets, now, requested).Admitted? then ChargeFrom(s, s, buckets, now, requested, 0) else s
  }

  /** The script, as Redis runs it. */
  class Redis {
    var store: Store

    constructor ()
      ensures store == map[]
    {
      store := map[];
    }

    method MultiBucket(now: int, requested: real, buckets: seq<Bucket>) returns (reply: Decision)
      requires ValidBuckets(buckets)
      modifies this
      ensures reply == Decide(old(store), buckets, now, requested)
      ensures store == Called(old(store), buckets, now, requested)
    {
      var tokens, last := new real[|buckets|], new int[|buckets|];
      reply := FillBuckets(now, requested, buckets, tokens, last);
      if reply.Admitted? {
        ChargeBuckets(now, requested, buckets, tokens, last);
      }
    }

    /** The first loop: refill in the two arrays until some bucket has too few tokens. */
    method FillBuckets(now: int, requested: real, buckets: seq<Bucket>, tokens: array<real>, last: array<int>)
      returns (reply: Decision)
      requires ValidBuckets(buckets) && tokens.Length == last.Length == |buckets|
      modifies tokens, last
      ensures reply == Decide(store, buckets, now, requested)
      ensures reply.Admitted? ==> Filled(now, buckets, tokens, last)
    {
      var i := 0;
      while i < |buckets|
        invariant 0 <= i <= |buckets|
        invariant Decide(store, buckets, now, requested) == DecideFrom(store, buckets, now, requested, i)
        invariant forall k :: 0 <= k < i ==> tokens[k] == Level(store, buckets[k], now)
        invariant forall k :: 0 <= k < i ==> last[k] == RefilledAt(store, buckets[k], now)
      {
        var rule, key := buckets[i].rule, buckets[i].key;
        var current, refillAt := rule.capacity, now;
        if key in store && now < store[key].expiresAt {
          current, refillAt := store[key].tokens, store[key].last;
        }
        if now > refillAt {
          current := Refill(rule, current, now - refillAt);
          refillAt := now;
        }
        assert current == Level(store, buckets[i], now);
        tokens[i], last[i] := current, refillAt;
        if current < requested {
          return Denied(i, Wait(rule, requested, current), current);
        }
        i := i + 1;
      }
      reply := Admitted;
    }

    predicate Filled(now: int, buckets: seq<Bucket>, tokens: array<real>, last: array<int>)
      requires tokens.Length == last.Length == |buckets|
      reads this, tokens, last
    {
      forall k :: 0 <= k < |buckets| ==>
        tokens[k] == Level(store, buckets[k], now) && last[k] == RefilledAt(store, buckets[k], now)
    }

    /** The second loop: take the tokens and restart every expiry. */
    method ChargeBuckets(now: int, requested: real, buckets: seq<Bucket>, tokens: array<real>, last: array<int>)
      requires ValidBuckets(buckets) && tokens.Length == last.Length == |buckets|
      requires Filled(now, buckets, tokens, last)
      modifies this
      ensures store == ChargeFrom(old(store), old(store), buckets, now, requested, 0)
    {
      var i := 0;
      while i < |buckets|
        invariant 0 <= i <= |buckets|
        invariant ChargeFrom(store, old(store), buckets, now, requested, i)
               == ChargeFrom(old(store), old(store), buckets, now, requested, 0)
      {
        store := store[buckets[i].key := Entry(tokens[i] - requested, last[i], now + Ttl(buckets[i].rule))];
        i := i + 1;
      }
    }
  }

  /** What Allow tells the filter; a denial names the first bucket that is short, and a wait in ms. */
  datatype Verdict = Pass | Blocked(index: nat, retryAfter: int) | InvalidRule(index: nat) | Unavailable

  const MIN_RETRY_AFTER := 1_000

  class Limiter {
    const enabled: bool
    const client: Redis

    constructor (enabled: bool, client: Redis)
      ensures this.enabled == enabled && this.client == client
    {
      this.enabled, this.client := enabled, client;
    }

    /** `reachable` is whether Redis answers; when it does not, the script has not run. */
    method Allow(now: int, buckets: seq<Bucket>, reachable: bool) returns (verdict: Verdict)
      modifies client
      ensures !enabled || buckets == [] ==> verdict == Pass && client.store == old(client.store)
      ensures verdict.InvalidRule? ==>
        && enabled && verdict.index < |buckets| && !ValidRule(buckets[verdict.index].rule)
        && ValidBuckets(buckets[..verdict.index]) && client.store == old(client.store)
      ensures enabled && buckets != [] && !ValidBuckets(buckets) ==> verdict.InvalidRule?
      ensures enabled && buckets != [] && ValidBuckets(buckets) && !reachable ==>
        verdict == Unavailable && client.store == old(client.store)
      ensures enabled && buckets != [] && ValidBuckets(buckets) && reachable ==>
        && client.store == Called(old(client.store), buckets, now, 1.0)
        && match Decide(old(client.store), buckets, now, 1.0)
           case Admitted => verdict == Pass
           case Denied(index, retryAfter, _) =>
             verdict == Blocked(index, if retryAfter < 1_000 then 1_000 else retryAfter)
    {
      if !enabled || buckets == [] {
        return Pass;
      }
      var i := 0;
      while i < |buckets|
        invariant 0 <= i <= |buckets|
        invariant ValidBuckets(buckets[..i])
      {
        if buckets[i].rule.rate <= 0.0 || buckets[i].rule.capacity <= 0.0 {
          return InvalidRule(i);
        }
        assert buckets[..i + 1] == buckets[..i] + [buckets[i]];
        i := i + 1;
      }
      assert buckets[..i] == buckets;
      if !reachable {
        return Unavailable;
      }
      var reply := client.MultiBucket(now, 1.0, buckets);
      match reply
      case Admitted => verdict := Pass;
      case Denied(index, retryAfter, _) =>
        verdict := Blocked(index, if retryAfter < MIN_RETRY_AFTER then MIN_RETRY_AFTER else retryAfter);
    }
  }

  // ---------------------------------------------------------------------------------------------
  // Arithmetic of refilling

  lemma GainAdds(rule: Rule, a: int, b: int)
    ensures Gain(rule, a) + Gain(rule, b) == Gain(rule, a + b)
  {
  }

  lemma GainGrows(rule: Rule, ms: int)
    requires ValidRule(rule)
    ensures ms >= 0 ==> Gain(rule, ms) >= 0.0
  {
  }

  /** Refilling in two stretches is refilling in one. */
  lemma RefillTwice(rule: Rule, tokens: real, a: int, b: int)
    requires ValidRule(rule) && a >= 0 && b >= 0
    ensures Refill(rule, Refill(rule, tokens, a), b) == Refill(rule, tokens, a + b)
  {
  }

  lemma CeilBounds(x: real)
    ensures x <= Ceil(x) as real < x + 1.0
  {
  }

  /** An idle bucket is full when its key expires. */
  lemma TtlFills(rule: Rule)
    requires ValidRule(rule)
    ensures Ttl(rule) > 0 && Gain(rule, Ttl(rule)) >= rule.capacity
  {
  }

  // ---------------------------------------------------------------------------------------------
  // The lazy store advances like a bucket that is refilled all the time

  /** Entries were written no later than `at`, within bounds, and live as long as their bucket may be short. */
  ghost predicate ValidStore(s: Store, rules: string -> Rule, at: int) {
    forall key :: key in s ==>
      && ValidRule(rules(key))
      && 0.0 <= s[key].tokens <= rules(key).capacity
      && s[key].last <= at
      && s[key].expiresAt >= s[key].last + Ttl(rules(key))
  }

  predicate Ruled(buckets: seq<Bucket>, rules: string -> Rule) {
    forall i :: 0 <= i < |buckets| ==> buckets[i].rule == rules(buckets[i].key) && ValidRule(buckets[i].rule)
  }

  lemma LevelBounds(s: Store, rules: string -> Rule, at: int, b: Bucket, now: int)
    requires ValidStore(s, rules, at) && b.rule == rules(b.key) && ValidRule(b.rule) && at <= now
    ensures 0.0 <= Level(s, b, now) <= b.rule.capacity
  {
  }

  /** An unused bucket refills from any level it had, whether or not its key expires in between. */
  lemma LevelAdvances(s: Store, rules: string -> Rule, at: int, b: Bucket, now: int, later: int)
    requires ValidStore(s, rules, at) && b.rule == rules(b.key) && ValidRule(b.rule) && at <= now <= later
    ensures Level(s, b, later) == Refill(b.rule, Level(s, b, now), later - now)
  {
    LevelBounds(s, rules, at, b, now);
    GainGrows(b.rule, later - now);
    if Present(s, b.key, now) {
      var e := s[b.key];
      RefillTwice(b.rule, e.tokens, now - e.last, later - now);
      assert Gain(b.rule, 0) == 0.0;
      if !Present(s, b.key, later) {
        TtlFills(b.rule);
        GainAdds(b.rule, Ttl(b.rule), later - e.last - Ttl(b.rule));
        GainGrows(b.rule, later - e.last - Ttl(b.rule));
      }
    }
  }

  /** After the writes, every listed key has its charged entry, and the others are as they were. */
  lemma {:induction false} ChargeLookup(s: Store, base: Store, buckets: seq<Bucket>, rules: string -> Rule, now: int,
                                        requested: real, i: nat, key: string)
    requires ValidBuckets(buckets) && Ruled(buckets, rules) && i <= |buckets|
    ensures var t := ChargeFrom(s, base, buckets, now, requested, i);
      if exists k :: i <= k < |buckets| && buckets[k].key == key then
        ValidRule(rules(key)) && key in t && t[key] == Charged(base, Bucket(key, rules(key)), now, requested)
      else
        (key in t <==> key in s) && (key in t ==> t[key] == s[key])
    decreases |buckets| - i
  {
    if i < |buckets| {
      var s' := s[buckets[i].key := Charged(base, buckets[i], now, requested)];
      assert buckets[i] == Bucket(buckets[i].key, rules(buckets[i].key));
      ChargeLookup(s', base, buckets, rules, now, requested, i + 1, key);
    }
  }

  lemma {:induction false} AdmittedMeans(s: Store, buckets: seq<Bucket>, now: int, requested: real, i: nat)
    requires ValidBuckets(buckets) && i <= |buckets|
    ensures match DecideFrom(s, buckets, now, requested, i)
      case Admitted => forall k :: i <= k < |buckets| ==> Level(s, buckets[k], now) >= requested
      case Denied(index, retryAfter, current) =>
        && i <= index < |buckets| && current == Level(s, buckets[index], now) < requested
        && (forall k :: i <= k < index ==> Level(s, buckets[k], now) >= requested)
        && retryAfter == Wait(buckets[index].rule, requested, current)
    decreases |buckets| - i
  {
    if i < |buckets| && Level(s, buckets[i], now) >= requested {
      AdmittedMeans(s, buckets, now, requested, i + 1);
    }
  }

  /** A bucket that is not in Redis is full; one that is has gained its rate since its last refill, up to its capacity. */
  lemma LevelMeans(s: Store, b: Bucket, now: int)
    ensures b.key !in s || s[b.key].expiresAt <= now ==> Level(s, b, now) == b.rule.capacity
    ensures b.key in s && now < s[b.key].expiresAt ==>
      var gained := if now > s[b.key].last then s[b.key].tokens + (now - s[b.key].last) as real / 1000.0 * b.rule.rate
                    else s[b.key].tokens;
      Level(s, b, now) == if now > s[b.key].last && gained > b.rule.capacity then b.rule.capacity else gained
  {
  }

  /** The expiry is the time in which a bucket fills twice, rounded up to a millisecond. */
  lemma TtlMeans(rule: Rule)
    requires ValidRule(rule)
    ensures rule.capacity / rule.rate * 2000.0 <= Ttl(rule) as real < rule.capacity / rule.rate * 2000.0 + 1.0
  {
    CeilBounds(rule.capacity / rule.rate * 2000.0);
  }

  /** What a call writes: nothing when it denies, and else the charged level, the time and a new expiry in every listed bucket. */
  lemma CallWrites(s: Store, rules: string -> Rule, buckets: seq<Bucket>, now: int, key: string)
    requires ValidBuckets(buckets) && Ruled(buckets, rules)
    ensures var t := Called(s, buckets, now, 1.0);
      if Admits(s, buckets, now) && Lists(buckets, key) then
        && key in t && ValidRule(rules(key))
        && t[key].tokens == Level(s, Bucket(key, rules(key)), now) - 1.0
        && t[key].last == (if key in s && now < s[key].expiresAt && s[key].last > now then s[key].last else now)
        && t[key].expiresAt == now + Ttl(rules(key))
      else
        (key in t <==> key in s) && (key in s ==> t[key] == s[key])
  {
    if Admits(s, buckets, now) {
      ChargeLookup(s, s, buckets, rules, now, 1.0, 0, key);
    }
  }

  predicate Lists(buckets: seq<Bucket>, key: string) {
    exists k :: 0 <= k < |buckets| && buckets[k].key == key
  }

  predicate Admits(s: Store, buckets: seq<Bucket>, now: int)
    requires ValidBuckets(buckets)
  {
    Decide(s, buckets, now, 1.0).Admitted?
  }

  /**
   * An admitted call takes one token from every listed bucket and from no other; a denied call takes none.
   * Stored tokens stay between zero and the capacity.
   */
  lemma CallLevels(s: Store, rules: string -> Rule, at: int, buckets: seq<Bucket>, now: int, key: string)
    requires ValidStore(s, rules, at) && ValidBuckets(buckets) && Ruled(buckets, rules) && at <= now
    requires ValidRule(rules(key))
    ensures var t := Called(s, buckets, now, 1.0);
      var b := Bucket(key, rules(key));
      Level(t, b, now) == Level(s, b, now) - (if Admits(s, buckets, now) && Lists(buckets, key) then 1.0 else 0.0)
  {
    if Admits(s, buckets, now) {
      ChargeLookup(s, s, buckets, rules, now, 1.0, 0, key);
      if Lists(buckets, key) {
        var b := Bucket(key, rules(key));
        TtlFills(b.rule);
        assert Present(Called(s, buckets, now, 1.0), key, now);
        assert RefilledAt(s, b, now) == now by {
          if Present(s, key, now) { assert s[key].last <= at; }
        }
      }
    }
  }

  lemma CallValid(s: Store, rules: string -> Rule, at: int, buckets: seq<Bucket>, now: int)
    requires ValidStore(s, rules, at) && ValidBuckets(buckets) && Ruled(buckets, rules) && at <= now
    ensures ValidStore(Called(s, buckets, now, 1.0), rules, now)
  {
    var t := Called(s, buckets, now, 1.0);
    if Admits(s, buckets, now) {
      AdmittedMeans(s, buckets, now, 1.0, 0);
      forall key | key in t
        ensures ValidRule(rules(key)) && 0.0 <= t[key].tokens <= rules(key).capacity
        ensures t[key].last <= now && t[key].expiresAt >= t[key].last + Ttl(rules(key))
      {
        ChargeLookup(s, s, buckets, rules, now, 1.0, 0, key);
        if Lists(buckets, key) {
          var k :| 0 <= k < |buckets| && buckets[k].key == key;
          assert buckets[k] == Bucket(key, rules(key));
          LevelBounds(s, rules, at, buckets[k], now);
        }
      }
    }
  }

  // ---------------------------------------------------------------------------------------------
  // Runs of calls

  datatype Call = Call(now: int, buckets: seq<Bucket>)

  /** Calls of one clock that does not go back, under fixed rules. */
  ghost predicate Orderly(calls: seq<Call>, rules: string -> Rule, at: int)
    decreases |calls|
  {
    calls == [] ||
    (at <= calls[0].now && ValidBuckets(calls[0].buckets) && Ruled(calls[0].buckets, rules)
     && Orderly(calls[1..], rules, calls[0].now))
  }

  ghost function After(s: Store, calls: seq<Call>, rules: string -> Rule, at: int): Store
    requires Orderly(calls, rules, at)
    decreases |calls|
  {
    if calls == [] then s else After(Called(s, calls[0].buckets, calls[0].now, 1.0), calls[1..], rules, calls[0].now)
  }

  /** How many calls that list the key are admitted. */
  ghost function Through(s: Store, calls: seq<Call>, rules: string -> Rule, at: int, key: string): nat
    requires Orderly(calls, rules, at)
    decreases |calls|
  {
    if calls == [] then 0
    else
      (if Admits(s, calls[0].buckets, calls[0].now) && Lists(calls[0].buckets, key) then 1 else 0)
      + Through(Called(s, calls[0].buckets, calls[0].now, 1.0), calls[1..], rules, calls[0].now, key)
  }

  ghost function End(calls: seq<Call>, at: int): int {
    if calls == [] then at else calls[|calls| - 1].now
  }

  /** Tokens admitted and tokens left never exceed the tokens there were plus the tokens gained. */
  lemma {:induction false} TokenBudget(s: Store, calls: seq<Call>, rules: string -> Rule, at: int, end: int, key: string)
    requires ValidStore(s, rules, at) && Orderly(calls, rules, at) && ValidRule(rules(key))
    requires at <= end && End(calls, at) <= end
    ensures var b := Bucket(key, rules(key));
      && at <= End(calls, at) && ValidStore(After(s, calls, rules, at), rules, End(calls, at))
      && Through(s, calls, rules, at, key) as real + Level(After(s, calls, rules, at), b, end)
           <= Level(s, b, at) + Gain(b.rule, end - at)
    decreases |calls|
  {
    var b := Bucket(key, rules(key));
    if calls == [] {
      LevelAdvances(s, rules, at, b, at, end);
    } else {
      var now, t := calls[0].now, Called(s, calls[0].buckets, calls[0].now, 1.0);
      CallValid(s, rules, at, calls[0].buckets, now);
      CallLevels(s, rules, at, calls[0].buckets, now, key);
      EndIsLater(calls, rules, at);
      TokenBudget(t, calls[1..], rules, now, end, key);
      LevelAdvances(s, rules, at, b, at, now);
      GainAdds(b.rule, now - at, end - now);
    }
  }

  lemma {:induction false} EndIsLater(calls: seq<Call>, rules: string -> Rule, at: int)
    requires Orderly(calls, rules, at)
    ensures at <= End(calls, at)
    ensures calls != [] ==> End(calls[1..], calls[0].now) == End(calls, at) && calls[0].now <= End(calls, at)
    decreases |calls|
  {
    if calls != [] {
      EndIsLater(calls[1..], rules, calls[0].now);
    }
  }

  /**
   * The rate bound: in every window of calls, from whatever the store holds when it opens, a bucket admits at
   * most its capacity plus what its rate yields in the window.
   */
  lemma WindowBound(s: Store, calls: seq<Call>, rules: string -> Rule, from: int, to: int, key: string)
    requires ValidStore(s, rules, from) && Orderly(calls, rules, from) && ValidRule(rules(key))
    requires from <= to && End(calls, from) <= to
    ensures Through(s, calls, rules, from, key) as real
         <= rules(key).capacity + Gain(rules(key), to - from)
  {
    var b := Bucket(key, rules(key));
    TokenBudget(s, calls, rules, from, to, key);
    LevelBounds(s, rules, from, b, from);
    LevelBounds(After(s, calls, rules, from), rules, End(calls, from), b, to);
  }

  /** So in every window [from, to] of every sequence of calls on an empty store, whatever was called before. */
  lemma EveryWindowBound(before: seq<Call>, window: seq<Call>, rules: string -> Rule, at: int, from: int, to: int, key: string)
    requires Orderly(before, rules, at) && at <= from && End(before, at) <= from
    requires Orderly(window, rules, from) && from <= to && End(window, from) <= to && ValidRule(rules(key))
    ensures Through(After(map[], before, rules, at), window, rules, from, key) as real
         <= rules(key).capacity + Gain(rules(key), to - from)
  {
    TokenBudget(map[], before, rules, at, from, key);
    WindowBound(After(map[], before, rules, at), window, rules, from, to, key);
  }

  // ---------------------------------------------------------------------------------------------
  // The ideal bucket set

  /** Buckets that exist for ever and are refilled every millisecond; those never charged are full. */
  datatype Ideal = Ideal(at: int, tokens: map<string, real>)

  function Tick(rule: Rule, tokens: real): real {
    Min(rule.capacity, tokens + rule.rate / 1000.0)
  }

  function Ticks(rule: Rule, tokens: real, n: nat): real {
    if n == 0 then tokens else Tick(rule, Ticks(rule, tokens, n - 1))
  }

  lemma {:induction false} TicksAreRefill(rule: Rule, tokens: real, n: nat)
    requires ValidRule(rule) && tokens <= rule.capacity
    ensures Ticks(rule, tokens, n) == Refill(rule, tokens, n)
  {
    if n == 0 {
      assert Gain(rule, 0) == 0.0;
    } else {
      TicksAreRefill(rule, tokens, n - 1);
      assert Gain(rule, 1) == rule.rate / 1000.0;
      RefillTwice(rule, tokens, n - 1, 1);
    }
  }

  function IdealLevel(i: Ideal, b: Bucket): real {
    if b.key in i.tokens then i.tokens[b.key] else b.rule.capacity
  }

  ghost function TickTo(i: Ideal, rules: string -> Rule, now: int): Ideal
    requires i.at <= now
  {
    Ideal(now, map key | key in i.tokens :: Ticks(rules(key), i.tokens[key], now - i.at))
  }

  predicate IdealAdmits(i: Ideal, buckets: seq<Bucket>) {
    forall k :: 0 <= k < |buckets| ==> IdealLevel(i, buckets[k]) >= 1.0
  }

  ghost function IdealCalled(i: Ideal, rules: string -> Rule, buckets: seq<Bucket>): Ideal {
    if !IdealAdmits(i, buckets) then i
    else
      var charged := set k | 0 <= k < |buckets| :: buckets[k].key;
      i.(tokens := map key | key in i.tokens.Keys + charged ::
        if key in charged then IdealLevel(i, Bucket(key, rules(key))) - 1.0 else i.tokens[key])
  }

  /** The store and the ideal set agree on every bucket now. */
  ghost predicate Agree(s: Store, i: Ideal, rules: string -> Rule) {
    && ValidStore(s, rules, i.at)
    && (forall key :: ValidRule(rules(key)) ==> IdealLevel(i, Bucket(key, rules(key))) == Level(s, Bucket(key, rules(key)), i.at))
    && (forall key :: key in i.tokens ==> ValidRule(rules(key)))
  }

  lemma TickAgrees(s: Store, i: Ideal, rules: string -> Rule, now: int)
    requires Agree(s, i, rules) && i.at <= now
    ensures Agree(s, TickTo(i, rules, now), rules)
  {
    var j := TickTo(i, rules, now);
    forall key | ValidRule(rules(key))
      ensures IdealLevel(j, Bucket(key, rules(key))) == Level(s, Bucket(key, rules(key)), now)
    {
      var b := Bucket(key, rules(key));
      LevelBounds(s, rules, i.at, b, i.at);
      LevelAdvances(s, rules, i.at, b, i.at, now);
      TicksAreRefill(b.rule, IdealLevel(i, b), now - i.at);
      GainGrows(b.rule, now - i.at);
    }
  }

  lemma CallAgrees(s: Store, i: Ideal, rules: string -> Rule, buckets: seq<Bucket>)
    requires Agree(s, i, rules) && ValidBuckets(buckets) && Ruled(buckets, rules)
    ensures Admits(s, buckets, i.at) <==> IdealAdmits(i, buckets)
    ensures Agree(Called(s, buckets, i.at, 1.0), IdealCalled(i, rules, buckets), rules)
  {
    AdmittedMeans(s, buckets, i.at, 1.0, 0);
    forall k | 0 <= k < |buckets| ensures IdealLevel(i, buckets[k]) == Level(s, buckets[k], i.at) {
      assert buckets[k] == Bucket(buckets[k].key, rules(buckets[k].key));
    }
    CallValid(s, rules, i.at, buckets, i.at);
    var t, j := Called(s, buckets, i.at, 1.0), IdealCalled(i, rules, buckets);
    forall key | ValidRule(rules(key))
      ensures IdealLevel(j, Bucket(key, rules(key))) == Level(t, Bucket(key, rules(key)), i.at)
    {
      CallLevels(s, rules, i.at, buckets, i.at, key);
    }
  }

  ghost function Decisions(s: Store, calls: seq<Call>, rules: string -> Rule, at: int): seq<bool>
    requires Orderly(calls, rules, at)
    decreases |calls|
  {
    if calls == [] then []
    else
      [Admits(s, calls[0].buckets, calls[0].now)]
      + Decisions(Called(s, calls[0].buckets, calls[0].now, 1.0), calls[1..], rules, calls[0].now)
  }

  ghost function IdealDecisions(i: Ideal, calls: seq<Call>, rules: string -> Rule): seq<bool>
    requires Orderly(calls, rules, i.at)
    decreases |calls|
  {
    if calls == [] then []
    else
      var j := TickTo(i, rules, calls[0].now);
      [IdealAdmits(j, calls[0].buckets)] + IdealDecisions(IdealCalled(j, rules, calls[0].buckets), calls[1..], rules)
  }

  lemma {:induction false} DecisionsAgree(s: Store, i: Ideal, calls: seq<Call>, rules: string -> Rule)
    requires Agree(s, i, rules) && Orderly(calls, rules, i.at)
    ensures Decisions(s, calls, rules, i.at) == IdealDecisions(i, calls, rules)
    decreases |calls|
  {
    if calls != [] {
      var now, buckets := calls[0].now, calls[0].buckets;
      var j := TickTo(i, rules, now);
      TickAgrees(s, i, rules, now);
      CallAgrees(s, j, rules, buckets);
      DecisionsAgree(Called(s, buckets, now, 1.0), IdealCalled(j, rules, buckets), calls[1..], rules);
    }
  }

  /** Lazy refill, silent denials and expiring keys decide every sequence of calls as the ideal set does. */
  lemma LazyRefinesIdeal(calls: seq<Call>, rules: string -> Rule, at: int)
    requires Orderly(calls, rules, at)
    ensures Decisions(map[], calls, rules, at) == IdealDecisions(Ideal(at, map[]), calls, rules)
  {
    DecisionsAgree(map[], Ideal(at, map[]), calls, rules);
  }

  // ---------------------------------------------------------------------------------------------
  // Retry-After

  lemma GainCovers(rule: Rule, missing: real, wait: int)
    requires ValidRule(rule)
    ensures Gain(rule, wait) >= missing <==> wait >= Ceil(missing / rule.rate * 1000.0)
  {
    var r, q := rule.rate, missing / rule.rate;
    var t := wait as real / 1000.0;
    assert q * r == missing;
    CeilBounds(q * 1000.0);
    if wait >= Ceil(q * 1000.0) {
      assert t >= q;
      MulKeepsOrder(q, t, r);
    } else {
      assert wait as real <= Ceil(q * 1000.0) as real - 1.0;
      assert t < q;
      MulKeepsOrder(t, q, r);
    }
  }

  lemma MulKeepsOrder(x: real, y: real, r: real)
    requires x <= y && r > 0.0
    ensures x * r <= y * r && (x < y ==> x * r < y * r)
  {
  }

  /**
   * A bucket that can hold a token is told the least whole number of ms after which it admits one request, if
   * nobody else uses it; a smaller bucket never admits one.
   */
  lemma RetryAfterIsLeast(s: Store, rules: string -> Rule, at: int, b: Bucket, now: int, wait: int)
    requires ValidStore(s, rules, at) && b.rule == rules(b.key) && ValidRule(b.rule) && at <= now && 0 <= wait
    requires Level(s, b, now) < 1.0
    ensures Level(s, b, now + wait) >= 1.0 <==> b.rule.capacity >= 1.0 && wait >= Wait(b.rule, 1.0, Level(s, b, now))
  {
    LevelAdvances(s, rules, at, b, now, now + wait);
    GainCovers(b.rule, 1.0 - Level(s, b, now), wait);
  }

  // ---------------------------------------------------------------------------------------------
  // Keys

  predicate NoColon(s: string) {
    forall i :: 0 <= i < |s| ==> s[i] != ':'
  }

  predicate IsSpace(c: char) {
    c == ' ' || c == '\t' || c == '\n' || c == '\r'
  }

  function Replace(s: string): (r: string)
    ensures NoColon(r) && |r| == |s|
  {
    if s == "" then "" else [if IsSpace(s[0]) || s[0] == ':' then '_' else s[0]] + Replace(s[1..])
  }

  function TrimLeft(s: string): string {
    if s != "" && IsSpace(s[0]) then TrimLeft(s[1..]) else s
  }

  function TrimRight(s: string): string {
    if s != "" && IsSpace(s[|s| - 1]) then TrimRight(s[..|s| - 1]) else s
  }

  function Sanitize(value: string): (r: string)
    ensures NoColon(r) && r != ""
  {
    var trimmed := TrimRight(TrimLeft(value));
    if trimmed == "" then "unknown" else Replace(trimmed)
  }

  function BucketKey(dimension: string, id: string, api: string): string {
    JoinKey(dimension, Sanitize(id), Sanitize(api))
  }

  lemma {:induction false} ReplaceMeans(s: string)
    ensures forall i :: 0 <= i < |s| ==> Replace(s)[i] == if IsSpace(s[i]) || s[i] == ':' then '_' else s[i]
  {
    if s != "" {
      ReplaceMeans(s[1..]);
      forall i | 0 < i < |s| ensures Replace(s)[i] == if IsSpace(s[i]) || s[i] == ':' then '_' else s[i] {
        assert s[1..][i - 1] == s[i] && Replace(s)[i] == Replace(s[1..])[i - 1];
      }
    }
  }

  predicate AllSpace(s: string) {
    forall i :: 0 <= i < |s| ==> IsSpace(s[i])
  }

  /** Text without blanks at either end. */
  predicate Trimmed(s: string) {
    s != "" ==> !IsSpace(s[0]) && !IsSpace(s[|s| - 1])
  }

  lemma {:induction false} TrimLeftMeans(left: string, s: string)
    requires AllSpace(left) && (s != "" ==> !IsSpace(s[0]))
    ensures TrimLeft(left + s) == s
  {
    if left == "" {
      assert left + s == s;
    } else {
      assert (left + s)[1..] == left[1..] + s && (left + s)[0] == left[0];
      TrimLeftMeans(left[1..], s);
    }
  }

  lemma {:induction false} TrimRightMeans(s: string, right: string)
    requires AllSpace(right) && (s != "" ==> !IsSpace(s[|s| - 1]))
    ensures TrimRight(s + right) == s
  {
    if right == "" {
      assert s + right == s;
    } else {
      var n := |right| - 1;
      assert (s + right)[..|s| + n] == s + right[..n] && (s + right)[|s| + n] == right[n];
      TrimRightMeans(s, right[..n]);
    }
  }

  /** Blanks around a text are dropped, those and colons inside it become underscores, and nothing becomes "unknown". */
  lemma SanitizeMeans(left: string, s: string, right: string)
    requires AllSpace(left) && AllSpace(right) && Trimmed(s)
    ensures var r := Sanitize(left + s + right);
      if s == "" then r == "unknown"
      else |r| == |s| && forall i :: 0 <= i < |s| ==> r[i] == if s[i] in {' ', '\t', '\n', '\r', ':'} then '_' else s[i]
  {
    if s == "" {
      assert left + s + right == (left + right) + "";
      TrimLeftMeans(left + right, "");
    } else {
      assert left + s + right == left + (s + right);
      TrimLeftMeans(left, s + right);
      TrimRightMeans(s, right);
      ReplaceMeans(s);
    }
  }

  /** So ids and paths without blanks and colons keep their buckets apart. */
  lemma CleanKeysDiffer(dimension: string, id: string, api: string, id': string, api': string)
    requires NoColon(dimension) && Clean(id) && Clean(api) && Clean(id') && Clean(api')
    ensures BucketKey(dimension, id, api) == BucketKey(dimension, id', api') <==> id == id' && api == api'
    ensures BucketKey(dimension, id, api) == "rate:" + dimension + ":" + id + ":" + api
  {
    CleanIsKept(id);
    CleanIsKept(api);
    CleanIsKept(id');
    CleanIsKept(api');
    if BucketKey(dimension, id, api) == BucketKey(dimension, id', api') {
      KeysAreInjective(dimension, id, api, dimension, id', api');
    }
  }

  predicate Clean(s: string) {
    s != "" && forall i :: 0 <= i < |s| ==> s[i] !in {' ', '\t', '\n', '\r', ':'}
  }

  lemma CleanIsKept(s: string)
    requires Clean(s)
    ensures Sanitize(s) == s
  {
    assert "" + s + "" == s;
    SanitizeMeans("", s, "");
  }

  lemma FirstColon(a: string, b: string, c: string, d: string)
    requires NoColon(a) && NoColon(c) && a + ":" + b == c + ":" + d
    ensures a == c && b == d
  {
    var s := a + ":" + b;
    assert s[|a|] == ':' && s[|c|] == ':';
    assert s[..|a|] == a && s[..|c|] == c;
    assert s[|a| + 1..] == b && s[|c| + 1..] == d;
  }

  function JoinKey(dimension: string, id: string, api: string): string {
    "rate:" + dimension + ":" + id + ":" + api
  }

  lemma JoinKeyShape(dimension: string, id: string, api: string)
    ensures JoinKey(dimension, id, api) == "rate:" + (dimension + ":" + (id + ":" + api))
  {
  }

  /** Buckets share a key only if dimension, id and path agree after sanitizing. */
  lemma KeysAreInjective(dimension: string, id: string, api: string, dimension': string, id': string, api': string)
    requires NoColon(dimension) && NoColon(dimension')
    requires BucketKey(dimension, id, api) == BucketKey(dimension', id', api')
    ensures dimension == dimension' && Sanitize(id) == Sanitize(id') && Sanitize(api) == Sanitize(api')
  {
    var i, a, i', a' := Sanitize(id), Sanitize(api), Sanitize(id'), Sanitize(api');
    JoinKeyShape(dimension, i, a);
    JoinKeyShape(dimension', i', a');
    SamePrefix("rate:", dimension + ":" + (i + ":" + a), dimension' + ":" + (i' + ":" + a'));
    FirstColon(dimension, i + ":" + a, dimension', i' + ":" + a');
    FirstColon(i, a, i', a');
  }

  lemma SamePrefix(p: string, a: string, b: string)
    requires p + a == p + b
    ensures a == b
  {
    assert (p + a)[|p|..] == a && (p + b)[|p|..] == b;
  }
}
