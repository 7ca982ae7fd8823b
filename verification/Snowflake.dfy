/** The id generator. */
module Snowflake {

  const EPOCH := 1_775_664_000_000
  const WORKERS := 0x400              // workerIDBits = 10
  const SEQUENCES := 0x1000           // sequenceBits = 12
  const TIMES := 0x200_0000_0000      // 41 bits are left of a nonnegative int64

  /** The three fields side by side; shifting and or-ing disjoint fields is this sum, see PackedBits. */
  function Pack(time: int, worker: int, sequence: int): int {
    time * (WORKERS * SEQUENCES) + worker * SEQUENCES + sequence
  }

  predicate Fits(time: int, worker: int, sequence: int) {
    0 <= time < TIMES && 0 <= worker < WORKERS && 0 <= sequence < SEQUENCES
  }

  /** On 64-bit words the fields do not overlap: or is addition, and shifts and masks read them back. */
  lemma PackedBits(time: bv64, worker: bv64, sequence: bv64)
    requires time < 0x200_0000_0000 && worker < 0x400 && sequence < 0x1000
    ensures var id := (time << 22) | (worker << 12) | sequence;
      && id == (time << 22) + (worker << 12) + sequence
      && id < 0x8000_0000_0000_0000
      && id >> 22 == time && (id >> 12) & 0x3ff == worker && id & 0xfff == sequence
  {
  }

  /** Ids are nonnegative int64 values, and decode to the fields they were packed from. */
  lemma PackDecodes(time: int, worker: int, sequence: int)
    requires Fits(time, worker, sequence)
    ensures var id := Pack(time, worker, sequence);
      && 0 <= id < 0x8000_0000_0000_0000
      && id / (WORKERS * SEQUENCES) == time && id / SEQUENCES % WORKERS == worker && id % SEQUENCES == sequence
  {
    var id := Pack(time, worker, sequence);
    assert id == (time * WORKERS + worker) * SEQUENCES + sequence;
    assert id / SEQUENCES == time * WORKERS + worker;
    assert id == time * (WORKERS * SEQUENCES) + (worker * SEQUENCES + sequence);
  }

  /** Packing is strictly monotone in (time, sequence) for one worker. */
  lemma PackOrders(time: int, sequence: int, time': int, sequence': int, worker: int)
    requires Fits(time, worker, sequence) && Fits(time', worker, sequence')
    ensures Pack(time, worker, sequence) < Pack(time', worker, sequence')
      <==> time < time' || (time == time' && sequence < sequence')
  {
    if time < time' {
      assert (time' - time) * (WORKERS * SEQUENCES) >= WORKERS * SEQUENCES;
    } else if time > time' {
      assert (time - time') * (WORKERS * SEQUENCES) >= WORKERS * SEQUENCES;
    }
  }

  /** The successive readings of the wall clock, which may step back, but get past every time again. */
  ghost predicate Progressing(clock: nat -> int) {
    forall t: int, i: nat :: Passes(clock, t, i)
  }

  ghost predicate Passes(clock: nat -> int, t: int, i: nat) {
    exists j: nat :: j >= i && clock(j) > t
  }

  /** A clock that does not step back. */
  ghost predicate Advancing(clock: nat -> int) {
    Progressing(clock) && forall i: nat, j: nat :: i <= j ==> clock(i) <= clock(j)
  }

  /** The last id's fields, and the number of clock readings so far. */
  datatype State = State(timestamp: int, sequence: int, looks: nat)

  /** The first reading after `i` that is later than `timestamp`. */
  ghost function Wait(clock: nat -> int, timestamp: int, i: nat): (j: nat)
    requires Progressing(clock)
    ensures i <= j && timestamp < clock(j)
    ensures forall k :: i <= k < j ==> clock(k) <= timestamp
  {
    assert Passes(clock, timestamp, i);
    var w: nat :| w >= i && clock(w) > timestamp;
    WaitFrom(clock, timestamp, i, w)
  }

  ghost function WaitFrom(clock: nat -> int, timestamp: int, i: nat, w: nat): (j: nat)
    requires i <= w && timestamp < clock(w)
    ensures i <= j && timestamp < clock(j)
    ensures forall k :: i <= k < j ==> clock(k) <= timestamp
    decreases w - i
  {
    if timestamp < clock(i) then i
    else
      WaitFrom(clock, timestamp, i + 1, w)
  }

  /** What one call leaves behind. */
  ghost function Advance(clock: nat -> int, s: State): State
    requires Progressing(clock)
  {
    var now := clock(s.looks);
    if now != s.timestamp then State(now, 0, s.looks + 1)
    else
      var sequence := (s.sequence + 1) % SEQUENCES;
      if sequence != 0 then State(now, sequence, s.looks + 1)
      else
        var j := Wait(clock, s.timestamp, s.looks + 1);
        State(clock(j), 0, j + 1)
  }

  function IdOf(s: State, worker: int): int {
    Pack(s.timestamp - EPOCH, worker, s.sequence)
  }

  /** The clock never fell behind the last id. */
  ghost predicate Sound(clock: nat -> int, s: State) {
    && 0 <= s.sequence < SEQUENCES
    && s.timestamp <= clock(s.looks)
  }

  /**
   * A call in a new millisecond starts at sequence 0; one in the millisecond of the last id takes the next sequence;
   * only when all 4096 are used does it wait, for the first reading that is later.
   */
  lemma AdvanceMeans(clock: nat -> int, s: State)
    requires Progressing(clock)
    ensures var t, now := Advance(clock, s), clock(s.looks);
      if now != s.timestamp then t == State(now, 0, s.looks + 1)
      else if (s.sequence + 1) % 4096 != 0 then t == State(now, (s.sequence + 1) % 4096, s.looks + 1)
      else
        && t.sequence == 0 && t.looks > s.looks + 1 && t.timestamp == clock(t.looks - 1) > s.timestamp
        && forall k: nat :: s.looks <= k < t.looks - 1 ==> clock(k) <= s.timestamp
  {
  }

  /** The fields of an id are the milliseconds since the epoch, the worker and the sequence, 22 and 12 bits up. */
  lemma IdMeans(s: State, worker: int)
    ensures IdOf(s, worker) == (s.timestamp - 1_775_664_000_000) * 4_194_304 + worker * 4_096 + s.sequence
  {
  }

  /** All readings lie in the 41-bit range after the epoch. */
  ghost predicate InRange(clock: nat -> int, upTo: nat) {
    forall i: nat :: i < upTo ==> 0 <= clock(i) - EPOCH < TIMES
  }

  lemma AdvanceIsLater(clock: nat -> int, s: State)
    requires Advancing(clock) && Sound(clock, s)
    ensures var t := Advance(clock, s);
      && Sound(clock, t) && t.looks > s.looks
      && (exists i: nat :: s.looks <= i < t.looks && t.timestamp == clock(i))
      && (s.timestamp < t.timestamp || (s.timestamp == t.timestamp && s.sequence < t.sequence))
  {
  }

  ghost function After(clock: nat -> int, s: State, calls: nat): State
    requires Progressing(clock)
  {
    if calls == 0 then s else Advance(clock, After(clock, s, calls - 1))
  }

  lemma {:induction false} AfterIsLater(clock: nat -> int, s: State, i: nat, j: nat)
    requires Advancing(clock) && Sound(clock, s) && i <= j
    ensures var a, b := After(clock, s, i), After(clock, s, j);
      && Sound(clock, a) && Sound(clock, b)
      && a.looks <= b.looks
      && (i < j ==> a.timestamp < b.timestamp || (a.timestamp == b.timestamp && a.sequence < b.sequence))
      && (0 < j ==> exists k: nat :: k < b.looks && b.timestamp == clock(k))
    decreases i + j
  {
    if j > 0 {
      AfterIsLater(clock, s, if i < j then i else j - 1, j - 1);
      AdvanceIsLater(clock, After(clock, s, j - 1));
      if i == j {
        AfterIsLater(clock, s, j - 1, j - 1);
      }
    }
  }

  /** Any two calls of a node, in any order of time, get increasing ids, also across wrapped sequences. */
  lemma IdsIncrease(clock: nat -> int, s: State, worker: int, i: nat, j: nat)
    requires Advancing(clock) && Sound(clock, s) && 0 <= worker < WORKERS && 0 < i < j
    requires InRange(clock, After(clock, s, j).looks)
    ensures 0 <= IdOf(After(clock, s, i), worker) < IdOf(After(clock, s, j), worker) < 0x8000_0000_0000_0000
  {
    AfterIsLater(clock, s, i, j);
    AfterIsLater(clock, s, i, i);
    var a, b := After(clock, s, i), After(clock, s, j);
    PackOrders(a.timestamp - EPOCH, a.sequence, b.timestamp - EPOCH, b.sequence, worker);
    PackDecodes(a.timestamp - EPOCH, worker, a.sequence);
    PackDecodes(b.timestamp - EPOCH, worker, b.sequence);
  }

  /** The generator does not look at the order: the next id is larger exactly if the clock has not stepped back. */
  lemma NextIdIsLargerIff(clock: nat -> int, s: State, worker: int)
    requires Progressing(clock) && 0 <= worker < WORKERS && 0 <= s.sequence < SEQUENCES
    requires 0 <= s.timestamp - EPOCH < TIMES && 0 <= Advance(clock, s).timestamp - EPOCH < TIMES
    ensures IdOf(Advance(clock, s), worker) > IdOf(s, worker) <==> clock(s.looks) >= s.timestamp
  {
  }

  /** The first call opens its millisecond, as that of a new node does, and all times fit. */
  ghost predicate FreshCalls(clock: nat -> int, s: State, calls: nat)
    requires Progressing(clock)
  {
    && clock(s.looks) != s.timestamp
    && forall i :: 1 <= i <= calls ==> 0 <= After(clock, s, i).timestamp - EPOCH < TIMES
  }

  /** A new node meets this as soon as its clock is past the epoch. */
  lemma NewNodeIsFresh(clock: nat -> int, calls: nat)
    requires Progressing(clock)
    requires forall i :: 1 <= i <= calls ==> 0 <= After(clock, State(0, 0, 0), i).timestamp - EPOCH < TIMES
    requires calls > 0
    ensures FreshCalls(clock, State(0, 0, 0), calls)
  {
    assert After(clock, State(0, 0, 0), 1) == Advance(clock, After(clock, State(0, 0, 0), 0));
  }

  ghost predicate Repeats(clock: nat -> int, s: State, worker: int, i: nat, j: nat)
    requires Progressing(clock)
  {
    IdOf(After(clock, s, i), worker) == IdOf(After(clock, s, j), worker)
  }

  /** Both calls open the same millisecond. */
  ghost predicate OpenTwice(clock: nat -> int, s: State, i: nat, j: nat)
    requires Progressing(clock)
  {
    var a, b := After(clock, s, i), After(clock, s, j);
    a.sequence == 0 && b.sequence == 0 && a.timestamp == b.timestamp
  }

  /** As many calls before as its sequence says, a call opened the millisecond of an id. */
  lemma {:induction false} OpenedBefore(clock: nat -> int, s: State, i: nat)
    requires Progressing(clock) && clock(s.looks) != s.timestamp && 1 <= i
    ensures var a := After(clock, s, i);
      && 0 <= a.sequence < SEQUENCES && a.sequence < i
      && After(clock, s, i - a.sequence) == After(clock, s, i - a.sequence).(timestamp := a.timestamp, sequence := 0)
    decreases i
  {
    var a := After(clock, s, i);
    assert a == Advance(clock, After(clock, s, i - 1));
    if i == 1 {
      assert After(clock, s, 0) == s;
    } else {
      OpenedBefore(clock, s, i - 1);
      if a.sequence != 0 {
        assert After(clock, s, i - 1).sequence == a.sequence - 1 && After(clock, s, i - 1).timestamp == a.timestamp;
        assert i - 1 - (a.sequence - 1) == i - a.sequence;
      }
    }
  }

  /** Equal ids go back to two calls that open their millisecond. */
  lemma RepeatedIdIsOpenedTwice(clock: nat -> int, s: State, worker: int, i: nat, j: nat)
    requires Progressing(clock) && 0 <= worker < WORKERS && FreshCalls(clock, s, j) && 1 <= i < j
    requires Repeats(clock, s, worker, i, j)
    ensures var n := After(clock, s, i).sequence;
      0 <= n < i && OpenTwice(clock, s, i - n, j - n)
  {
    var a, b := After(clock, s, i), After(clock, s, j);
    OpenedBefore(clock, s, i);
    OpenedBefore(clock, s, j);
    SameIdSameFields(a, b, worker);
  }

  lemma SameIdSameFields(a: State, b: State, worker: int)
    requires Fits(a.timestamp - EPOCH, worker, a.sequence) && Fits(b.timestamp - EPOCH, worker, b.sequence)
    requires IdOf(a, worker) == IdOf(b, worker)
    ensures a.timestamp == b.timestamp && a.sequence == b.sequence
  {
    PackDecodes(a.timestamp - EPOCH, worker, a.sequence);
    PackDecodes(b.timestamp - EPOCH, worker, b.sequence);
  }

  ghost predicate SomeRepeats(clock: nat -> int, s: State, worker: int, calls: nat)
    requires Progressing(clock)
  {
    exists i: nat, j: nat :: 1 <= i < j <= calls && Repeats(clock, s, worker, i, j)
  }

  ghost predicate SomeOpensTwice(clock: nat -> int, s: State, calls: nat)
    requires Progressing(clock)
  {
    exists i: nat, j: nat :: 1 <= i < j <= calls && OpenTwice(clock, s, i, j)
  }

  /** Over any number of calls and whatever the clock does: some id repeats exactly if some millisecond is opened twice. */
  lemma SomeIdRepeatsIff(clock: nat -> int, s: State, worker: int, calls: nat)
    requires Progressing(clock) && 0 <= worker < WORKERS && FreshCalls(clock, s, calls)
    ensures SomeRepeats(clock, s, worker, calls) <==> SomeOpensTwice(clock, s, calls)
  {
    if SomeRepeats(clock, s, worker, calls) {
      var i: nat, j: nat :| 1 <= i < j <= calls && Repeats(clock, s, worker, i, j);
      RepeatedIdIsOpenedTwice(clock, s, worker, i, j);
    }
    if SomeOpensTwice(clock, s, calls) {
      var i: nat, j: nat :| 1 <= i < j <= calls && OpenTwice(clock, s, i, j);
      assert Repeats(clock, s, worker, i, j);
    }
  }

  /** A clock that leaves a millisecond and comes back to it makes the generator issue the same id again. */
  lemma ReturningClockRepeatsAnId(clock: nat -> int, s: State, worker: int)
    requires Progressing(clock)
    requires clock(s.looks) != s.timestamp && clock(s.looks + 1) != clock(s.looks)
    requires clock(s.looks + 2) == clock(s.looks)
    ensures OpenTwice(clock, s, 1, 3) && IdOf(After(clock, s, 1), worker) == IdOf(After(clock, s, 3), worker)
  {
    var a := After(clock, s, 1);
    assert a == Advance(clock, After(clock, s, 0));
    assert After(clock, s, 3) == Advance(clock, Advance(clock, a));
  }

  /** A node; its mutex makes every call one step. */
  class Node {
    const workerId: int
    var timestamp: int
    var sequence: int
    ghost var looks: nat

    constructor (workerId: int)
      ensures this.workerId == workerId && View() == State(0, 0, 0)
    {
      this.workerId := workerId;
      timestamp, sequence, looks := 0, 0, 0;
    }

    ghost function View(): State
      reads this
    {
      State(timestamp, sequence, looks)
    }

    /** The loop that spins until the clock has passed the given time. */
    method Await(clock: nat -> int, timestamp: int, start: nat) returns (now: int, next: nat)
      requires Progressing(clock)
      ensures next == Wait(clock, timestamp, start) + 1 && now == clock(next - 1)
    {
      ghost var w := Wait(clock, timestamp, start);
      now, next := timestamp, start;
      while now <= timestamp
        invariant start <= next <= w + 1
        invariant next > start ==> now == clock(next - 1)
        invariant timestamp < now ==> next == w + 1
        decreases w + 1 - next
      {
        now := clock(next);
        next := next + 1;
      }
    }

    method Generate(clock: nat -> int, start: nat) returns (id: int, next: nat)
      requires Progressing(clock) && start == looks
      modifies this
      ensures View() == Advance(clock, old(View())) && next == looks
      ensures id == IdOf(View(), workerId)
    {
      next := start;
      var now := clock(next);
      next := next + 1;
      if now == timestamp {
        sequence := (sequence + 1) % SEQUENCES;
        if sequence == 0 {
          now, next := Await(clock, timestamp, next);
        }
      } else {
        sequence := 0;
      }
      timestamp := now;
      looks := next;
      id := (now - EPOCH) * (WORKERS * SEQUENCES) + workerId * SEQUENCES + sequence;
    }
  }
}
