/** Continuations one server and one notifier can make while no command is
    redelivered, no dedupe entry is lost and the notifier does not restart. */
module CalmRuns {
  import opened Domain
  import opened Store
  import opened Queues
  import opened Protocol
  import opened Invariants
  import opened Runs
  import opened SweepProgress
  import opened EmailBound

  predicate Sweeping(pc: Pc) {
    pc.SweepFetch? || pc.SweepDone? || SweepAt(pc).Some?
  }

  /** The server runs its sweeps one after another. */
  ghost predicate OneSweep(s: State) {
    forall t, r :: t in s.threads && r in s.threads && Sweeping(s.threads[t]) && Sweeping(s.threads[r]) ==> t == r
  }

  ghost predicate OneSweepRun(s: State, run: seq<Step>)
    requires Valid(s, run)
    decreases |run|
  {
    OneSweep(s) && (run != [] ==> OneSweepRun(Apply(s, run[0]), run[1..]))
  }

  /** A calm run that never overlaps two sweeps leads from one state to the other. */
  ghost predicate Leads(s: State, s': State) {
    exists run :: Valid(s, run) && CalmRun(run) && OneSweepRun(s, run) && Exec(s, run) == s'
  }

  ghost predicate CalmlyReachable(s: State, cascade: bool) {
    Leads(Init(cascade), s)
  }

  lemma LeadsSelf(s: State)
    requires OneSweep(s)
    ensures Leads(s, s)
  {
    assert Valid(s, []) && CalmRun([]) && OneSweepRun(s, []) && Exec(s, []) == s;
  }

  lemma {:induction false} OneSweepJoin(s: State, run: seq<Step>, a: Step)
    requires Valid(s, run) && OneSweepRun(s, run) && Enabled(Exec(s, run), a) && OneSweep(Apply(Exec(s, run), a))
    ensures Valid(s, run + [a]) && OneSweepRun(s, run + [a]) && Exec(s, run + [a]) == Apply(Exec(s, run), a)
    ensures OneSweep(Exec(s, run))
    decreases |run|
  {
    if run == [] {
      assert [a][1..] == [] && [] + [a] == [a];
      var s' := Apply(s, a);
      assert Valid(s', []) && OneSweepRun(s', []) && Exec(s', []) == s';
    } else {
      assert (run + [a])[0] == run[0] && (run + [a])[1..] == run[1..] + [a];
      OneSweepJoin(Apply(s, run[0]), run[1..], a);
    }
  }

  lemma LeadsStep(root: State, s: State, a: Step)
    requires Leads(root, s) && Enabled(s, a) && Calm(a) && OneSweep(Apply(s, a))
    ensures Leads(root, Apply(s, a))
  {
    var run :| Valid(root, run) && CalmRun(run) && OneSweepRun(root, run) && Exec(root, run) == s;
    OneSweepJoin(root, run, a);
    assert CalmRun(run + [a]);
  }

  lemma {:induction false} OneSweepRunsJoin(s: State, run: seq<Step>, more: seq<Step>)
    requires Valid(s, run) && OneSweepRun(s, run) && Valid(Exec(s, run), more) && OneSweepRun(Exec(s, run), more)
    ensures Valid(s, run + more) && OneSweepRun(s, run + more)
    decreases |run|
  {
    if run == [] {
      assert run + more == more;
    } else {
      assert (run + more)[0] == run[0] && (run + more)[1..] == run[1..] + more;
      OneSweepRunsJoin(Apply(s, run[0]), run[1..], more);
    }
  }

  lemma {:induction false} EndsWithOneSweep(s: State, run: seq<Step>)
    requires Valid(s, run) && OneSweepRun(s, run)
    ensures OneSweep(Exec(s, run))
    decreases |run|
  {
    if run != [] { EndsWithOneSweep(Apply(s, run[0]), run[1..]); }
  }

  lemma LeadsToOneSweep(s: State, s': State)
    requires Leads(s, s')
    ensures OneSweep(s')
  {
    var run :| Valid(s, run) && CalmRun(run) && OneSweepRun(s, run) && Exec(s, run) == s';
    EndsWithOneSweep(s, run);
  }

  lemma CalmIsReachable(s: State, cascade: bool)
    requires CalmlyReachable(s, cascade)
    ensures Reachable(s, cascade)
  {
    var run :| Valid(Init(cascade), run) && CalmRun(run) && OneSweepRun(Init(cascade), run)
        && Exec(Init(cascade), run) == s;
    assert Valid(Init(cascade), run) && Exec(Init(cascade), run) == s;
  }

  // ------------------------------------------------ a sweep that reaches a call

  ghost predicate NoSweep(s: State) {
    forall t :: t in s.threads ==> !Sweeping(s.threads[t])
  }

  /** A step after which nobody but `t` sweeps. */
  lemma SweepStep(root: State, s0: State, s: State, t: Tid, a: Step, s': State)
    requires Leads(root, s) && NoSweep(s0) && Enabled(s, a) && Calm(a) && Apply(s, a) == s'
    requires forall q :: q in s'.threads && q != t && Sweeping(s'.threads[q]) ==>
             q in s0.threads && s0.threads[q] == s'.threads[q]
    ensures Leads(root, s')
  {
    LeadsStep(root, s, a);
  }

  lemma {:induction false} ListOf(xs: set<SagaId>) returns (q: seq<SagaId>)
    ensures |q| == |xs| && forall x :: x in q <==> x in xs
  {
    if xs == {} {
      q := [];
    } else {
      var x :| x in xs;
      var rest := ListOf(xs - {x});
      q := [x] + rest;
    }
  }

  ghost function OthersStuck(db: Db, threshold: int, x: SagaId): set<SagaId> {
    set y | y in db.sagas && y != x && IsStuck(db, threshold, y)
  }

  /** The sweeper's query may list `x` first. */
  lemma ListsFirst(db: Db, threshold: int, x: SagaId) returns (rest: seq<SagaId>)
    requires IsStuck(db, threshold, x)
    ensures ListsStuck(db, threshold, [x] + rest)
    ensures |rest| == |OthersStuck(db, threshold, x)|
  {
    rest := ListOf(OthersStuck(db, threshold, x));
  }

  lemma SweepStarts(root: State, s0: State, t: Tid) returns (s: State)
    requires Leads(root, s0) && NoSweep(s0) && t !in s0.threads
    ensures Leads(root, s) && s == s0.(threads := s0.threads[t := SweepFetch(s0.clock)])
  {
    s := s0.(threads := s0.threads[t := SweepFetch(s0.clock)]);
    assert AppApply(s0, StartSweep(t, 0)) == s;
    SweepStep(root, s0, s0, t, App(StartSweep(t, 0)), s);
  }

  lemma SweepFetches(root: State, s0: State, x: SagaId, t: Tid) returns (s: State, rest: seq<SagaId>)
    requires Leads(root, s0) && NoSweep(s0) && t !in s0.threads && IsStuck(s0.db, s0.clock, x)
    ensures var sw := Sweep([x] + rest, s0.clock, s0.hist.births.Keys, true);
            Leads(root, s) && s == s0.(threads := s0.threads[t := SweepLoop(sw)])
    ensures |rest| == |OthersStuck(s0.db, s0.clock, x)|
  {
    rest := ListsFirst(s0.db, s0.clock, x);
    var s1 := SweepStarts(root, s0, t);
    var a := FetchStuck(t, [x] + rest, Works);
    s := DoFetchStuck(s1, t, [x] + rest, Works);
    assert AppEnabled(s1, a) && AppApply(s1, a) == s;
    SweepStep(root, s0, s1, t, App(a), s);
  }

  lemma SweepVisits(root: State, s0: State, x: SagaId, t: Tid) returns (s: State, sw: Sweep)
    requires Leads(root, s0) && NoSweep(s0) && t !in s0.threads && IsStuck(s0.db, s0.clock, x)
    ensures Leads(root, s) && s == s0.(threads := s0.threads[t := RetryGet(x, sw)])
    ensures sw.clean && |sw.todo| == |OthersStuck(s0.db, s0.clock, x)|
  {
    var s2, rest := SweepFetches(root, s0, x, t);
    sw := Sweep(rest, s0.clock, s0.hist.births.Keys, true);
    s := s0.(threads := s0.threads[t := RetryGet(x, sw)]);
    assert ([x] + rest)[1..] == rest;
    assert AppApply(s2, NextStuck(t, false)) == DoNextStuck(s2, t, false) == s;
    SweepStep(root, s0, s2, t, App(NextStuck(t, false)), s);
  }

  predicate Deliverable(db: Db, x: SagaId) {
    IsPending(db, x) && db.sagas[x].sub in db.subs && db.subs[db.sagas[x].sub].repo in db.repos
  }

  function StoredPayload(db: Db, x: SagaId): Payload
    requires Deliverable(db, x)
  {
    var row := db.subs[db.sagas[x].sub];
    Payload(row.email, db.repos[row.repo], row.confirmToken)
  }

  lemma RetryGets(root: State, s0: State, s: State, x: SagaId, t: Tid, sw: Sweep) returns (s': State)
    requires Leads(root, s) && NoSweep(s0) && t !in s0.threads && s == s0.(threads := s0.threads[t := RetryGet(x, sw)])
    requires Deliverable(s0.db, x)
    ensures Leads(root, s') && s' == s0.(threads := s0.threads[t := RetryLoad(x, s0.db.sagas[x].sub, sw)])
  {
    s' := s0.(threads := s0.threads[t := RetryLoad(x, s0.db.sagas[x].sub, sw)]);
    assert AppApply(s, GetForRetry(t, Works)) == DoGetForRetry(s, t, Works) == s';
    SweepStep(root, s0, s, t, App(GetForRetry(t, Works)), s');
  }

  lemma RetryLoads(root: State, s0: State, s: State, x: SagaId, t: Tid, sw: Sweep) returns (s': State)
    requires Leads(root, s) && NoSweep(s0) && t !in s0.threads && Deliverable(s0.db, x)
    requires s == s0.(threads := s0.threads[t := RetryLoad(x, s0.db.sagas[x].sub, sw)])
    ensures Leads(root, s') && s' == s0.(threads := s0.threads[t := RetryCall(x, StoredPayload(s0.db, x), sw)])
  {
    s' := s0.(threads := s0.threads[t := RetryCall(x, StoredPayload(s0.db, x), sw)]);
    assert AppApply(s, LoadForRetry(t, Works)) == DoLoadForRetry(s, t, Works) == s';
    SweepStep(root, s0, s, t, App(LoadForRetry(t, Works)), s');
  }

  lemma RetryReaches(root: State, s0: State, s: State, x: SagaId, p: Payload, t: Tid, rpc: Tid, sw: Sweep)
    returns (s': State)
    requires Leads(root, s) && NoSweep(s0) && t !in s0.threads && rpc !in s0.threads && t != rpc
    requires s == s0.(threads := s0.threads[t := RetryCall(x, p, sw)])
    ensures Leads(root, s') && s' == s0.(threads := s0.threads[t := RetryAwait(x, rpc, sw)][rpc := GrpcClaim(x, p)])
  {
    s' := s0.(threads := s0.threads[t := RetryAwait(x, rpc, sw)][rpc := GrpcClaim(x, p)]);
    assert AppApply(s, CallNotifier(t, Some(rpc))) == DoCallNotifier(s, t, Some(rpc)) == s';
    SweepStep(root, s0, s, t, App(CallNotifier(t, Some(rpc))), s');
  }

  /** While nobody else moves, a sweep's call for `x` can reach the notifier. */
  lemma SweepCalls(root: State, s0: State, x: SagaId, t: Tid, rpc: Tid) returns (s: State, sw: Sweep)
    requires Leads(root, s0) && NoSweep(s0) && t !in s0.threads && rpc !in s0.threads && t != rpc
    requires IsStuck(s0.db, s0.clock, x) && Deliverable(s0.db, x)
    ensures Leads(root, s)
    ensures s == s0.(threads := s0.threads[t := RetryAwait(x, rpc, sw)][rpc := GrpcClaim(x, StoredPayload(s0.db, x))])
    ensures sw.clean && |sw.todo| == |OthersStuck(s0.db, s0.clock, x)|
  {
    s, sw := SweepVisits(root, s0, x, t);
    s := RetryGets(root, s0, s, x, t, sw);
    s := RetryLoads(root, s0, s, x, t, sw);
    s := RetryReaches(root, s0, s, x, StoredPayload(s0.db, x), t, rpc, sw);
  }
}
