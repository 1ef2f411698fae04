/** The bounded, expiring set of recently processed sagas that both delivery paths
    of the notifier share. Each method body is one locked section; the clock it
    reads is handed in, one parameter a reading. */
module DedupeCache {
  import opened Domain

  type Entries = map<SagaId, int>

  predicate Live(e: Entries, x: SagaId, now: int, ttl: int) {
    x in e && now - e[x] <= ttl
  }

  /** What evictExpiredLocked leaves. */
  function Unexpired(e: Entries, now: int, ttl: int): Entries {
    map k | k in e && now - e[k] <= ttl :: e[k]
  }

  predicate IsOldest(e: Entries, k: SagaId) {
    k in e && forall j :: j in e ==> e[k] <= e[j]
  }

  /** What evictOldestLocked may leave: which of several oldest keys goes depends
      on the map's iteration order. */
  ghost predicate EvictsOldest(e: Entries, e': Entries) {
    if e == map[] then e' == e else exists k :: IsOldest(e, k) && e' == e - {k}
  }

  /** What insertLocked may do with readings `cutoff` for the expiry and `stamp` for
      the new entry. */
  ghost predicate Inserts(e: Entries, e': Entries, x: SagaId, max: int, ttl: int, cutoff: int, stamp: int) {
    var e1 := if |e| >= max then Unexpired(e, cutoff, ttl) else e;
    if |e1| >= max then exists e2 :: EvictsOldest(e1, e2) && e' == e2[x := stamp] else e' == e1[x := stamp]
  }

  datatype Op =
    | Mark(saga: SagaId, cutoff: int, stamp: int)
    | TryClaim(saga: SagaId, check: int, cutoff: int, stamp: int)
    | Seen(saga: SagaId, check: int)
    | Release(saga: SagaId)

  /** One operation: entries before and after, and its answer. */
  ghost predicate OpStep(e: Entries, op: Op, e': Entries, answer: bool, max: int, ttl: int) {
    match op
    case Mark(x, cutoff, stamp) => Inserts(e, e', x, max, ttl, cutoff, stamp)
    case TryClaim(x, check, cutoff, stamp) =>
      answer == !Live(e, x, check, ttl) && (if answer then Inserts(e, e', x, max, ttl, cutoff, stamp) else e' == e)
    case Seen(x, check) =>
      answer == Live(e, x, check, ttl) && e' == (if answer then e else e - {x})
    case Release(x) => e' == e - {x}
  }

  class Dedupe {
    var entries: Entries
    const max: int
    const ttl: int

    constructor (max: int, ttl: int)
      ensures entries == map[] && this.max == max && this.ttl == ttl
    {
      this.entries := map[];
      this.max := max;
      this.ttl := ttl;
    }

    method Mark(x: SagaId, cutoff: int, stamp: int)
      modifies this
      ensures OpStep(old(entries), Op.Mark(x, cutoff, stamp), entries, true, max, ttl)
    {
      InsertLocked(x, cutoff, stamp);
    }

    method TryClaim(x: SagaId, check: int, cutoff: int, stamp: int) returns (claimed: bool)
      modifies this
      ensures OpStep(old(entries), Op.TryClaim(x, check, cutoff, stamp), entries, claimed, max, ttl)
    {
      if x in entries && check - entries[x] <= ttl {
        return false;
      }
      InsertLocked(x, cutoff, stamp);
      return true;
    }

    method Release(x: SagaId)
      modifies this
      ensures OpStep(old(entries), Op.Release(x), entries, true, max, ttl)
    {
      entries := entries - {x};
    }

    method Seen(x: SagaId, check: int) returns (seen: bool)
      modifies this
      ensures OpStep(old(entries), Op.Seen(x, check), entries, seen, max, ttl)
    {
      if x !in entries {
        assert entries - {x} == entries;
        return false;
      }
      if check - entries[x] > ttl {
        entries := entries - {x};
        return false;
      }
      return true;
    }

    method InsertLocked(x: SagaId, cutoff: int, stamp: int)
      modifies this
      ensures Inserts(old(entries), entries, x, max, ttl, cutoff, stamp)
    {
      if |entries| >= max {
        EvictExpiredLocked(cutoff);
      }
      if |entries| >= max {
        EvictOldestLocked();
      }
      entries := entries[x := stamp];
    }

    method EvictExpiredLocked(now: int)
      modifies this
      ensures entries == Unexpired(old(entries), now, ttl)
    {
      var cutoff := now - ttl;
      var keys := entries.Keys;
      while keys != {}
        invariant keys <= entries.Keys
        invariant entries == map k | k in old(entries) && (k in keys || now - old(entries)[k] <= ttl) :: old(entries)[k]
        decreases |keys|
      {
        var k :| k in keys;
        if entries[k] < cutoff {
          entries := entries - {k};
        }
        keys := keys - {k};
      }
    }

    method EvictOldestLocked()
      modifies this
      ensures EvictsOldest(old(entries), entries)
    {
      var oldestKey, oldestTime := SagaId(0), 0;
      var first := true;
      var keys := entries.Keys;
      while keys != {}
        invariant keys <= entries.Keys && entries == old(entries)
        invariant first ==> keys == entries.Keys
        invariant !first ==> oldestKey in entries && entries[oldestKey] == oldestTime
        invariant !first ==> forall j :: j in entries && j !in keys ==> oldestTime <= entries[j]
        decreases |keys|
      {
        var k :| k in keys;
        if first || entries[k] < oldestTime {
          oldestKey, oldestTime, first := k, entries[k], false;
        }
        keys := keys - {k};
      }
      if !first {
        assert IsOldest(entries, oldestKey);
        entries := entries - {oldestKey};
      }
    }
  }

  // ------------------------------------------------------------------- runs

  /** Operation `n` answered `answers[n]` and took the entries from `states[n]` to
      `states[n + 1]`. */
  ghost predicate IsRun(states: seq<Entries>, ops: seq<Op>, answers: seq<bool>, max: int, ttl: int) {
    && |states| == |ops| + 1 && |answers| == |ops| && states[0] == map[]
    && forall n :: 0 <= n < |ops| ==> OpStep(states[n], ops[n], states[n + 1], answers[n], max, ttl)
  }

  /** Whether operation `n` inserts: a Mark, or a TryClaim that won. */
  predicate Writes(op: Op, answer: bool) {
    op.Mark? || (op.TryClaim? && answer)
  }

  lemma InsertsKeepOthers(e: Entries, e': Entries, x: SagaId, max: int, ttl: int, cutoff: int, stamp: int)
    requires Inserts(e, e', x, max, ttl, cutoff, stamp)
    ensures x in e' && e'[x] == stamp
    ensures forall k :: k in e' && k != x ==> k in e && e'[k] == e[k]
  {
  }

  lemma OldestLeaves(e: Entries, e': Entries)
    requires EvictsOldest(e, e')
    ensures e'.Keys <= e.Keys && |e'| == if e == map[] then 0 else |e| - 1
  {
    if e != map[] {
      var k :| IsOldest(e, k) && e' == e - {k};
      assert e'.Keys == e.Keys - {k};
      assert |e'.Keys| == |e.Keys| - 1;
    }
  }

  lemma AddOne(e: Entries, x: SagaId, stamp: int)
    ensures |e[x := stamp]| <= |e| + 1
  {
    var e' := e[x := stamp];
    assert e'.Keys == e.Keys + {x};
    assert |e'.Keys| <= |e.Keys| + 1;
  }

  /** The cache never grows past its bound, or past one entry when the bound is
      not positive. */
  lemma InsertsBounded(e: Entries, e': Entries, x: SagaId, max: int, ttl: int, cutoff: int, stamp: int)
    requires Inserts(e, e', x, max, ttl, cutoff, stamp) && |e| <= (if max < 1 then 1 else max)
    ensures |e'| <= (if max < 1 then 1 else max)
  {
    var e1 := if |e| >= max then Unexpired(e, cutoff, ttl) else e;
    KeysFewer(e1, e);
    if |e1| >= max {
      var e2 :| EvictsOldest(e1, e2) && e' == e2[x := stamp];
      OldestLeaves(e1, e2);
      AddOne(e2, x, stamp);
    } else {
      AddOne(e1, x, stamp);
    }
  }

  lemma KeysFewer(e: Entries, e': Entries)
    requires e.Keys <= e'.Keys
    ensures |e| <= |e'|
  {
    SubsetSize(e.Keys, e'.Keys);
    assert |e.Keys| == |e| && |e'.Keys| == |e'|;
  }

  lemma StepBounded(e: Entries, op: Op, e': Entries, answer: bool, max: int, ttl: int)
    requires OpStep(e, op, e', answer, max, ttl) && |e| <= (if max < 1 then 1 else max)
    ensures |e'| <= (if max < 1 then 1 else max)
  {
    if Writes(op, answer) {
      InsertsBounded(e, e', op.saga, max, ttl, op.cutoff, op.stamp);
    } else {
      assert e'.Keys <= e.Keys;
      KeysFewer(e', e);
    }
  }

  lemma {:induction false} NeverOverfull(states: seq<Entries>, ops: seq<Op>, answers: seq<bool>, max: int, ttl: int,
                                         n: nat)
    requires IsRun(states, ops, answers, max, ttl) && n <= |ops|
    ensures |states[n]| <= (if max < 1 then 1 else max)
  {
    if n > 0 {
      NeverOverfull(states, ops, answers, max, ttl, n - 1);
      assert OpStep(states[n - 1], ops[n - 1], states[n], answers[n - 1], max, ttl);
      StepBounded(states[n - 1], ops[n - 1], states[n], answers[n - 1], max, ttl);
    }
  }

  // ----------------------------------------------- against an unbounded set

  /** An unbounded set fed with the same operations and the same answers. */
  function Ideal(ops: seq<Op>, answers: seq<bool>): Entries
    requires |ops| == |answers|
  {
    if ops == [] then map[]
    else
      var n := |ops| - 1;
      var i := Ideal(ops[..n], answers[..n]);
      if Writes(ops[n], answers[n]) then i[ops[n].saga := ops[n].stamp]
      else if ops[n].Release? then i - {ops[n].saga}
      else i
  }

  predicate Within(e: Entries, i: Entries) {
    forall x :: x in e ==> x in i && i[x] == e[x]
  }

  lemma {:induction false} CacheWithinIdeal(states: seq<Entries>, ops: seq<Op>, answers: seq<bool>, max: int,
                                            ttl: int, n: nat)
    requires IsRun(states, ops, answers, max, ttl) && n <= |ops|
    ensures Within(states[n], Ideal(ops[..n], answers[..n]))
  {
    if n > 0 {
      CacheWithinIdeal(states, ops, answers, max, ttl, n - 1);
      assert ops[..n][..n - 1] == ops[..n - 1] && answers[..n][..n - 1] == answers[..n - 1];
      var e, e', op := states[n - 1], states[n], ops[n - 1];
      assert OpStep(e, op, e', answers[n - 1], max, ttl);
      if Writes(op, answers[n - 1]) {
        InsertsKeepOthers(e, e', op.saga, max, ttl, op.cutoff, op.stamp);
      }
    }
  }

  /** Nothing is reported seen, and no claim refused, that the unbounded set would
      not report or refuse at the same reading; the clock may even run back. */
  lemma NothingSeenThatIsNotThere(states: seq<Entries>, ops: seq<Op>, answers: seq<bool>, max: int, ttl: int, n: nat)
    requires IsRun(states, ops, answers, max, ttl) && n < |ops|
    requires (ops[n].Seen? && answers[n]) || (ops[n].TryClaim? && !answers[n])
    ensures Live(Ideal(ops[..n], answers[..n]), ops[n].saga, ops[n].check, ttl)
  {
    CacheWithinIdeal(states, ops, answers, max, ttl, n);
    assert OpStep(states[n], ops[n], states[n + 1], answers[n], max, ttl);
  }

  /** The unbounded set on its own: it also decides its own claims. */
  function AloneAnswer(i: Entries, op: Op, ttl: int): bool {
    match op
    case Mark(_, _, _) => true
    case TryClaim(x, check, _, _) => !Live(i, x, check, ttl)
    case Seen(x, check) => Live(i, x, check, ttl)
    case Release(_) => true
  }

  function AloneAfter(i: Entries, op: Op, ttl: int): Entries {
    if Writes(op, AloneAnswer(i, op, ttl)) then i[op.saga := op.stamp]
    else if op.Release? then i - {op.saga}
    else i
  }

  function Alone(ops: seq<Op>, ttl: int): Entries {
    if ops == [] then map[] else AloneAfter(Alone(ops[..|ops| - 1], ttl), ops[|ops| - 1], ttl)
  }

  ghost function LiveSet(i: Entries, now: int, ttl: int): set<SagaId> {
    set x | x in i && Live(i, x, now, ttl)
  }

  /** What an insert of `x` may evict is not missed: there is room, or whichever
      oldest entry goes is `x` itself or expires by the time `x` is stamped. */
  ghost predicate Harmless(i: Entries, x: SagaId, max: int, ttl: int, cutoff: int, stamp: int) {
    |LiveSet(i, cutoff, ttl)| < max
    || forall k :: IsOldest(Unexpired(i, cutoff, ttl), k) ==> k == x || stamp - i[k] > ttl
  }

  ghost predicate InsertsHarmlessly(i: Entries, op: Op, max: int, ttl: int) {
    Writes(op, AloneAnswer(i, op, ttl)) ==> Harmless(i, op.saga, max, ttl, op.cutoff, op.stamp)
  }

  /** Fewer than `max` entries of the unbounded set are live when it inserts. */
  ghost predicate Roomy(i: Entries, op: Op, max: int, ttl: int) {
    Writes(op, AloneAnswer(i, op, ttl)) ==> |LiveSet(i, op.cutoff, ttl)| < max
  }

  function FirstReading(op: Op, clock: int): int {
    match op
    case Mark(_, cutoff, _) => cutoff
    case TryClaim(_, check, _, _) => check
    case Seen(_, check) => check
    case Release(_) => clock
  }

  function LastReading(op: Op, clock: int): int {
    match op
    case Mark(_, _, stamp) => stamp
    case TryClaim(_, _, _, stamp) => stamp
    case Seen(_, check) => check
    case Release(_) => clock
  }

  /** The readings inside one operation do not run back. */
  predicate Ordered(op: Op) {
    match op
    case Mark(_, cutoff, stamp) => cutoff <= stamp
    case TryClaim(_, check, cutoff, stamp) => check <= cutoff <= stamp
    case _ => true
  }

  /** The clock after the first operations, started at `start`. */
  function Clock(ops: seq<Op>, start: int): int {
    if ops == [] then start else LastReading(ops[|ops| - 1], Clock(ops[..|ops| - 1], start))
  }

  /** The clock never runs back during the run. */
  ghost predicate Monotone(ops: seq<Op>, start: int) {
    forall n :: 0 <= n < |ops| ==>
      Ordered(ops[n]) && Clock(ops[..n], start) <= FirstReading(ops[n], Clock(ops[..n], start))
  }

  /** The cache holds the unbounded set's entries with their times, and misses only
      expired ones. */
  ghost predicate Agrees(e: Entries, i: Entries, clock: int, ttl: int) {
    Within(e, i) && forall x :: x in i && x !in e ==> clock - i[x] > ttl
  }

  lemma AgreesLive(e: Entries, i: Entries, clock: int, ttl: int, x: SagaId, now: int)
    requires Agrees(e, i, clock, ttl) && clock <= now
    ensures Live(e, x, now, ttl) <==> Live(i, x, now, ttl)
  {
  }

  /** Both hold the same unexpired entries. */
  lemma LiveKeys(e: Entries, i: Entries, clock: int, ttl: int, now: int)
    requires Agrees(e, i, clock, ttl) && clock <= now
    ensures Unexpired(e, now, ttl) == Unexpired(i, now, ttl)
    ensures Unexpired(i, now, ttl).Keys == LiveSet(i, now, ttl) && |Unexpired(i, now, ttl)| == |LiveSet(i, now, ttl)|
  {
    var u := Unexpired(i, now, ttl);
    assert u.Keys == LiveSet(i, now, ttl);
    assert |u.Keys| == |u|;
  }

  lemma StampAgrees(e: Entries, i: Entries, clock: int, x: SagaId, ttl: int, stamp: int)
    requires Agrees(e, i, clock, ttl) && clock <= stamp
    ensures Agrees(e[x := stamp], i[x := stamp], stamp, ttl)
  {
  }

  lemma UnexpiredAgrees(i: Entries, ttl: int, cutoff: int)
    ensures Agrees(Unexpired(i, cutoff, ttl), i, cutoff, ttl)
  {
  }

  /** The evicted entry is stamped again, or has expired by then. */
  lemma EvictedAgrees(i: Entries, x: SagaId, k: SagaId, ttl: int, cutoff: int, stamp: int)
    requires cutoff <= stamp && (k == x || (k in i && stamp - i[k] > ttl))
    ensures Agrees((Unexpired(i, cutoff, ttl) - {k})[x := stamp], i[x := stamp], stamp, ttl)
  {
  }

  /** What an insert may leave when it drops unexpired entries' oldest, or nothing. */
  lemma FullInsertAgrees(e1: Entries, e': Entries, i: Entries, x: SagaId, ttl: int, cutoff: int, stamp: int)
    requires e1 == Unexpired(i, cutoff, ttl) && cutoff <= stamp
    requires forall k :: IsOldest(e1, k) ==> k == x || stamp - i[k] > ttl
    requires exists e2 :: EvictsOldest(e1, e2) && e' == e2[x := stamp]
    ensures Agrees(e', i[x := stamp], stamp, ttl)
  {
    var e2 :| EvictsOldest(e1, e2) && e' == e2[x := stamp];
    if e1 == map[] {
      UnexpiredAgrees(i, ttl, cutoff);
      StampAgrees(e1, i, cutoff, x, ttl, stamp);
    } else {
      var k :| IsOldest(e1, k) && e2 == e1 - {k};
      EvictedAgrees(i, x, k, ttl, cutoff, stamp);
    }
  }

  lemma InsertAgrees(e: Entries, e': Entries, i: Entries, clock: int, x: SagaId, max: int, ttl: int, cutoff: int,
                     stamp: int)
    requires Agrees(e, i, clock, ttl) && Inserts(e, e', x, max, ttl, cutoff, stamp)
    requires clock <= cutoff <= stamp && Harmless(i, x, max, ttl, cutoff, stamp)
    ensures Agrees(e', i[x := stamp], stamp, ttl)
  {
    LiveKeys(e, i, clock, ttl, cutoff);
    var e1 := Unexpired(e, cutoff, ttl);
    if |e| < max {
      StampAgrees(e, i, clock, x, ttl, stamp);
    } else if |e1| < max {
      UnexpiredAgrees(i, ttl, cutoff);
      StampAgrees(e1, i, cutoff, x, ttl, stamp);
    } else {
      FullInsertAgrees(e1, e', i, x, ttl, cutoff, stamp);
    }
  }

  /** No lookup from `from` on tells the two apart. */
  ghost predicate AnswersAlike(e: Entries, i: Entries, from: int, ttl: int) {
    forall y, now :: now >= from ==> (Live(e, y, now, ttl) <==> Live(i, y, now, ttl))
  }

  ghost predicate NeverMissed(e: Entries, i: Entries, x: SagaId, max: int, ttl: int, cutoff: int, stamp: int) {
    forall e' :: Inserts(e, e', x, max, ttl, cutoff, stamp) ==> AnswersAlike(e', i[x := stamp], stamp, ttl)
  }

  /** The eviction of an entry that is still live at the stamp, and the lookup that
      misses it. */
  lemma EvictionIsMissed(e: Entries, i: Entries, clock: int, x: SagaId, max: int, ttl: int, cutoff: int, stamp: int)
    requires Agrees(e, i, clock, ttl) && clock <= cutoff <= stamp && !Harmless(i, x, max, ttl, cutoff, stamp)
    ensures !NeverMissed(e, i, x, max, ttl, cutoff, stamp)
  {
    LiveKeys(e, i, clock, ttl, cutoff);
    var e1 := Unexpired(e, cutoff, ttl);
    KeysFewer(e1, e);
    var k :| IsOldest(e1, k) && k != x && stamp - i[k] <= ttl;
    var e2 := e1 - {k};
    var e' := e2[x := stamp];
    assert EvictsOldest(e1, e2);
    assert Inserts(e, e', x, max, ttl, cutoff, stamp);
    assert !Live(e', k, stamp, ttl) && Live(i[x := stamp], k, stamp, ttl);
  }

  /** The exact condition, at the insert where the bound can tell: whichever entry is
      evicted, no later lookup differs from the unbounded set's, if and only if the
      insert is harmless. */
  lemma InsertIsExactIffHarmless(e: Entries, i: Entries, clock: int, x: SagaId, max: int, ttl: int, cutoff: int,
                                 stamp: int)
    requires Agrees(e, i, clock, ttl) && clock <= cutoff <= stamp
    ensures NeverMissed(e, i, x, max, ttl, cutoff, stamp) <==> Harmless(i, x, max, ttl, cutoff, stamp)
  {
    if Harmless(i, x, max, ttl, cutoff, stamp) {
      forall e' | Inserts(e, e', x, max, ttl, cutoff, stamp) ensures AnswersAlike(e', i[x := stamp], stamp, ttl) {
        InsertAgrees(e, e', i, clock, x, max, ttl, cutoff, stamp);
      }
    } else {
      EvictionIsMissed(e, i, clock, x, max, ttl, cutoff, stamp);
    }
  }

  lemma StepAgrees(e: Entries, op: Op, e': Entries, answer: bool, i: Entries, clock: int, max: int, ttl: int)
    requires OpStep(e, op, e', answer, max, ttl) && Agrees(e, i, clock, ttl) && Ordered(op)
    requires clock <= FirstReading(op, clock) && InsertsHarmlessly(i, op, max, ttl)
    ensures op.Mark? || op.Release? || answer == AloneAnswer(i, op, ttl)
    ensures Agrees(e', AloneAfter(i, op, ttl), LastReading(op, clock), ttl)
  {
    match op {
      case Mark(x, cutoff, stamp) => InsertAgrees(e, e', i, clock, x, max, ttl, cutoff, stamp);
      case TryClaim(x, check, cutoff, stamp) =>
        AgreesLive(e, i, clock, ttl, x, check);
        if answer { InsertAgrees(e, e', i, clock, x, max, ttl, cutoff, stamp); }
      case Seen(x, check) => AgreesLive(e, i, clock, ttl, x, check);
      case Release(_) =>
    }
  }

  lemma {:induction false} RunAgrees(states: seq<Entries>, ops: seq<Op>, answers: seq<bool>, max: int, ttl: int,
                                     start: int, n: nat)
    requires IsRun(states, ops, answers, max, ttl) && Monotone(ops, start) && n <= |ops|
    requires forall k :: 0 <= k < |ops| ==> InsertsHarmlessly(Alone(ops[..k], ttl), ops[k], max, ttl)
    ensures Agrees(states[n], Alone(ops[..n], ttl), Clock(ops[..n], start), ttl)
  {
    if n > 0 {
      var k := n - 1;
      RunAgrees(states, ops, answers, max, ttl, start, k);
      assert ops[..n][..k] == ops[..k] && ops[..n][k] == ops[k];
      assert InsertsHarmlessly(Alone(ops[..k], ttl), ops[k], max, ttl);
      assert OpStep(states[k], ops[k], states[k + 1], answers[k], max, ttl);
      StepAgrees(states[k], ops[k], states[n], answers[k], Alone(ops[..k], ttl), Clock(ops[..k], start), max, ttl);
    }
  }

  /** As long as every insert is harmless and the clock does not run back, every
      claim and every lookup is answered exactly as the unbounded set alone answers
      it. */
  lemma AnswersAreExact(states: seq<Entries>, ops: seq<Op>, answers: seq<bool>, max: int, ttl: int, start: int, n: nat)
    requires IsRun(states, ops, answers, max, ttl) && Monotone(ops, start) && n < |ops|
    requires forall k :: 0 <= k < |ops| ==> InsertsHarmlessly(Alone(ops[..k], ttl), ops[k], max, ttl)
    requires ops[n].TryClaim? || ops[n].Seen?
    ensures answers[n] == AloneAnswer(Alone(ops[..n], ttl), ops[n], ttl)
  {
    RunAgrees(states, ops, answers, max, ttl, start, n);
    assert InsertsHarmlessly(Alone(ops[..n], ttl), ops[n], max, ttl);
    assert OpStep(states[n], ops[n], states[n + 1], answers[n], max, ttl);
    StepAgrees(states[n], ops[n], states[n + 1], answers[n], Alone(ops[..n], ttl), Clock(ops[..n], start), max, ttl);
  }

  /** Fewer than `max` live entries before each insert are enough. */
  lemma RoomIsEnough(states: seq<Entries>, ops: seq<Op>, answers: seq<bool>, max: int, ttl: int, start: int, n: nat)
    requires IsRun(states, ops, answers, max, ttl) && Monotone(ops, start) && n < |ops|
    requires forall k :: 0 <= k < |ops| ==> Roomy(Alone(ops[..k], ttl), ops[k], max, ttl)
    requires ops[n].TryClaim? || ops[n].Seen?
    ensures answers[n] == AloneAnswer(Alone(ops[..n], ttl), ops[n], ttl)
  {
    forall k | 0 <= k < |ops| ensures InsertsHarmlessly(Alone(ops[..k], ttl), ops[k], max, ttl) {
      assert Roomy(Alone(ops[..k], ttl), ops[k], max, ttl);
    }
    AnswersAreExact(states, ops, answers, max, ttl, start, n);
  }

  // After a harmful insert the cache can even report a saga the unbounded set alone has let
  // expire: the eviction of A lets it be claimed, and stamped, again.

  const A := SagaId(0)
  const B := SagaId(1)
  const OUTLIVING: seq<Op> := [TryClaim(A, 0, 0, 0), TryClaim(B, 1, 1, 1), TryClaim(A, 2, 2, 2), Seen(A, 11)]

  lemma EvictsOnly(x: SagaId, at: int, y: SagaId, stamp: int)
    requires stamp - at <= 10
    ensures Inserts(map[x := at], map[y := stamp], y, 1, 10, stamp, stamp)
  {
    var e0: Entries := map[];
    assert Unexpired(map[x := at], stamp, 10) == map[x := at] && IsOldest(map[x := at], x);
    assert map[x := at] - {x} == e0 && e0[y := stamp] == map[y := stamp];
    assert EvictsOldest(map[x := at], e0);
  }

  lemma OutlivingRun() returns (states: seq<Entries>)
    ensures IsRun(states, OUTLIVING, [true, true, true, true], 1, 10)
  {
    states := [map[], map[A := 0], map[B := 1], map[A := 2], map[A := 2]];
    EvictsOnly(A, 0, B, 1);
    EvictsOnly(B, 1, A, 2);
    var e0: Entries := map[];
    assert Inserts(e0, map[A := 0], A, 1, 10, 0, 0);
    assert !Live(map[A := 0], B, 1, 10) && !Live(map[B := 1], A, 2, 10);
    assert OpStep(states[0], OUTLIVING[0], states[1], true, 1, 10);
    assert OpStep(states[1], OUTLIVING[1], states[2], true, 1, 10);
    assert OpStep(states[2], OUTLIVING[2], states[3], true, 1, 10);
    assert OpStep(states[3], OUTLIVING[3], states[4], true, 1, 10);
  }

  lemma OutlivingAlone()
    ensures AloneAnswer(Alone(OUTLIVING[..3], 10), OUTLIVING[3], 10) == false
  {
    var ops := OUTLIVING;
    assert ops[..3][..2] == ops[..2] && ops[..2][..1] == ops[..1] && ops[..1][..0] == [];
    assert Alone(ops[..1], 10) == map[A := 0];
    assert Alone(ops[..2], 10) == map[A := 0, B := 1];
    assert Alone(ops[..3], 10) == map[A := 0, B := 1];
  }

  // ------------------------------------------------------- eviction horizon

  /** Operation `j` inserts `k`. */
  predicate InsertsAt(ops: seq<Op>, answers: seq<bool>, j: int, k: SagaId) {
    0 <= j < |ops| && |answers| == |ops| && Writes(ops[j], answers[j]) && ops[j].saga == k
  }

  /** Later inserts carry later stamps, as with a clock that always advances. */
  ghost predicate StampsAdvance(ops: seq<Op>, answers: seq<bool>)
    requires |answers| == |ops|
  {
    forall j, k :: 0 <= j < k < |ops| && Writes(ops[j], answers[j]) && Writes(ops[k], answers[k]) ==>
      ops[j].stamp < ops[k].stamp
  }

  /** Neither inserted again nor released between two operations. */
  ghost predicate Untouched(ops: seq<Op>, answers: seq<bool>, j: int, n: int, x: SagaId)
    requires |answers| == |ops|
  {
    forall i :: j < i < n && 0 <= i < |ops| ==> !InsertsAt(ops, answers, i, x) && ops[i] != Release(x)
  }

  /** An entry carries the stamp of its saga's last insert. */
  lemma {:induction false} LastInsert(states: seq<Entries>, ops: seq<Op>, answers: seq<bool>, max: int, ttl: int,
                                      n: nat, x: SagaId)
    returns (j: nat)
    requires IsRun(states, ops, answers, max, ttl) && n <= |ops| && x in states[n]
    ensures j < n && InsertsAt(ops, answers, j, x) && ops[j].stamp == states[n][x] && Untouched(ops, answers, j, n, x)
    decreases n
  {
    var k := n - 1;
    assert OpStep(states[k], ops[k], states[k + 1], answers[k], max, ttl);
    if InsertsAt(ops, answers, k, x) {
      j := k;
      InsertsKeepOthers(states[k], states[n], x, max, ttl, ops[k].cutoff, ops[k].stamp);
    } else {
      if Writes(ops[k], answers[k]) {
        InsertsKeepOthers(states[k], states[n], ops[k].saga, max, ttl, ops[k].cutoff, ops[k].stamp);
      }
      j := LastInsert(states, ops, answers, max, ttl, k, x);
    }
  }

  /** What an insert that drops a live entry finds: at least `max` unexpired
      entries, none older than the one dropped. */
  lemma DroppedWasOldest(e: Entries, e': Entries, y: SagaId, x: SagaId, max: int, ttl: int, cutoff: int, stamp: int)
    requires Inserts(e, e', y, max, ttl, cutoff, stamp) && Live(e, x, cutoff, ttl) && x !in e'
    ensures |Unexpired(e, cutoff, ttl)| >= max && IsOldest(Unexpired(e, cutoff, ttl), x)
  {
    var e1 := if |e| >= max then Unexpired(e, cutoff, ttl) else e;
    assert |e1| >= max;
    var e2 :| EvictsOldest(e1, e2) && e' == e2[y := stamp];
    var k :| IsOldest(e1, k) && e2 == e1 - {k};
    assert k == x;
  }

  /** With an advancing clock an insert evicts a live entry only after at least
      `max - 1` other sagas were inserted later than it, and it was neither
      released nor inserted again since. */
  lemma EvictionHorizon(states: seq<Entries>, ops: seq<Op>, answers: seq<bool>, max: int, ttl: int, n: nat, x: SagaId)
    returns (j: nat, later: set<SagaId>)
    requires IsRun(states, ops, answers, max, ttl) && StampsAdvance(ops, answers) && n < |ops|
    requires Writes(ops[n], answers[n]) && Live(states[n], x, ops[n].cutoff, ttl) && x !in states[n + 1]
    ensures j < n && InsertsAt(ops, answers, j, x) && Untouched(ops, answers, j, n, x)
    ensures |later| >= max - 1 && x !in later
    ensures forall k :: k in later ==> exists i :: j < i < n && InsertsAt(ops, answers, i, k)
  {
    var e := states[n];
    j := LastInsert(states, ops, answers, max, ttl, n, x);
    assert OpStep(states[n], ops[n], states[n + 1], answers[n], max, ttl);
    DroppedWasOldest(e, states[n + 1], ops[n].saga, x, max, ttl, ops[n].cutoff, ops[n].stamp);
    var e1 := Unexpired(e, ops[n].cutoff, ttl);
    later := e1.Keys - {x};
    assert |e1.Keys| == |e1|;
    forall k | k in later ensures exists i :: j < i < n && InsertsAt(ops, answers, i, k) {
      var i := LastInsert(states, ops, answers, max, ttl, n, k);
      assert e1[x] <= e1[k];
      assert j < i && InsertsAt(ops, answers, i, k);
    }
  }

  // ----------------------------------------------- the set of the protocol

  /** Every operation acts on the keys as the protocol's dedupe set does after the
      loss of some entries: a claim is refused exactly when the saga is in what is
      left, and Mark and a granted claim add it. */
  lemma KeysAreASetWithLosses(e: Entries, op: Op, e': Entries, answer: bool, max: int, ttl: int)
    returns (lost: set<SagaId>)
    requires OpStep(e, op, e', answer, max, ttl)
    ensures var kept := e.Keys - lost;
            match op
            case Mark(x, _, _) => e'.Keys == kept + {x}
            case TryClaim(x, _, _, _) => answer == (x !in kept) && e'.Keys == (if answer then kept + {x} else kept)
            case Seen(x, _) => answer == (x in kept) && e'.Keys == kept
            case Release(x) => lost == {} && e'.Keys == kept - {x}
  {
    match op {
      case Mark(x, cutoff, stamp) =>
        InsertsKeepOthers(e, e', x, max, ttl, cutoff, stamp);
        lost := e.Keys - e'.Keys;
        assert e'.Keys == (e.Keys - lost) + {x};
      case TryClaim(x, _, cutoff, stamp) =>
        if answer {
          InsertsKeepOthers(e, e', x, max, ttl, cutoff, stamp);
          lost := (e.Keys - e'.Keys) + {x};
          assert e'.Keys == (e.Keys - lost) + {x};
        } else {
          lost := {};
        }
      case Seen(x, _) => lost := if answer then {} else {x};
      case Release(x) => lost := {};
    }
  }
}
