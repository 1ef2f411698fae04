/** When a sweep leaves nothing old behind, sagas inserted after its fetch included. */
module SweepCondition {
  import opened Domain
  import opened Store
  import opened Queues
  import opened Protocol
  import opened Invariants
  import opened Steps
  import opened Runs
  import opened SweepProgress
  import Orchestration

  // ------------------------------------------------- thresholds are in the past

  function ThresholdAt(pc: Pc): Option<int> {
    if pc.SweepFetch? then Some(pc.threshold)
    else if pc.SweepDone? then Some(pc.sweep.threshold)
    else if SweepAt(pc).Some? then Some(SweepAt(pc).value.threshold)
    else None
  }

  ghost predicate ThresholdsPast(s: State) {
    forall t :: t in s.threads && ThresholdAt(s.threads[t]).Some? ==> ThresholdAt(s.threads[t]).value <= s.clock
  }

  predicate SameThreshold(s: State, s': State, t: Tid)
    requires t in s'.threads
  {
    ThresholdAt(s'.threads[t]).Some? ==> t in s.threads && ThresholdAt(s.threads[t]) == ThresholdAt(s'.threads[t])
  }

  lemma RetriesKeepThresholds(s: State, a: AppStep, t: Tid)
    requires AppEnabled(s, a) && IsRetryStep(a) && t in AppApply(s, a).threads
    ensures SameThreshold(s, AppApply(s, a), t)
  {
  }

  lemma HandlersKeepThresholds(s: State, a: AppStep, t: Tid)
    requires AppEnabled(s, a) && IsHandlerStep(a) && t in AppApply(s, a).threads
    ensures SameThreshold(s, AppApply(s, a), t)
  {
  }

  lemma OtherAppStepsKeepThresholds(s: State, a: AppStep, t: Tid)
    requires AppEnabled(s, a) && !IsRetryStep(a) && !IsHandlerStep(a) && t in AppApply(s, a).threads
    ensures SameThreshold(s, AppApply(s, a), t) || ThresholdAt(AppApply(s, a).threads[t]).value <= s.clock
  {
  }

  lemma NotifierStepsKeepThresholds(s: State, a: NotifierStep, t: Tid)
    requires NotifierEnabled(s, a) && t in NotifierApply(s, a).threads
    ensures SameThreshold(s, NotifierApply(s, a), t)
  {
  }

  lemma StepKeepsThresholds(s: State, a: Step)
    requires Inv(s) && Enabled(s, a) && ThresholdsPast(s)
    ensures ThresholdsPast(Apply(s, a))
  {
    var s' := Apply(s, a);
    StepKeeps(s, a);
    forall t | t in s'.threads && ThresholdAt(s'.threads[t]).Some?
      ensures ThresholdAt(s'.threads[t]).value <= s'.clock
    {
      match a {
        case App(b) =>
          if IsRetryStep(b) {
            RetriesKeepThresholds(s, b, t);
          } else if IsHandlerStep(b) {
            HandlersKeepThresholds(s, b, t);
          } else {
            OtherAppStepsKeepThresholds(s, b, t);
          }
        case Notify(b) => NotifierStepsKeepThresholds(s, b, t);
        case World(_) =>
      }
    }
  }

  lemma {:induction false} RunKeepsThresholds(s: State, run: seq<Step>)
    requires Inv(s) && Valid(s, run) && ThresholdsPast(s)
    ensures ThresholdsPast(Exec(s, run))
    decreases |run|
  {
    if run != [] {
      StepKeeps(s, run[0]);
      StepKeepsThresholds(s, run[0]);
      RunKeepsThresholds(Apply(s, run[0]), run[1..]);
    }
  }

  lemma ReachableThresholds(s: State, cascade: bool)
    requires Reachable(s, cascade)
    ensures ThresholdsPast(s)
  {
    var run :| Valid(Init(cascade), run) && Exec(Init(cascade), run) == s;
    InitInv(cascade);
    RunKeepsThresholds(Init(cascade), run);
  }

  // -------------------------------------------- sagas inserted after the fetch

  /** No Subscribe that has drawn a start time before `threshold` still has its
      insert ahead. */
  ghost predicate NoneStalled(s: State, threshold: int) {
    forall t :: t in s.threads && s.threads[t].SubscribeWrite? ==> s.threads[t].startedAt >= threshold
  }

  /** Every saga that is not in `known` started no earlier than `threshold`. */
  ghost predicate LaterAreYoung(s: State, known: set<SagaId>, threshold: int) {
    forall x :: x in s.hist.births && x !in known ==> s.hist.births[x].startedAt >= threshold
  }

  lemma OtherAppStepsDrawNoStart(s: State, a: AppStep, t: Tid)
    requires AppEnabled(s, a) && t in AppApply(s, a).threads && AppApply(s, a).threads[t].SubscribeWrite?
    ensures (t in s.threads && s.threads[t] == AppApply(s, a).threads[t])
            || AppApply(s, a).threads[t].startedAt == s.clock
  {
  }

  lemma StartsAreDrawnNow(s: State, a: Step, t: Tid)
    requires Enabled(s, a) && t in Apply(s, a).threads && Apply(s, a).threads[t].SubscribeWrite?
    ensures (t in s.threads && s.threads[t] == Apply(s, a).threads[t]) || Apply(s, a).threads[t].startedAt == s.clock
  {
    if a.App? { OtherAppStepsDrawNoStart(s, a.app, t); }
  }

  lemma BirthsAreDrawn(s: State, a: Step, x: SagaId)
    requires Enabled(s, a) && x in Apply(s, a).hist.births && x !in s.hist.births
    ensures a.App? && a.app.CreateWithSaga? && a.app.t in s.threads && s.threads[a.app.t].SubscribeWrite?
    ensures Apply(s, a).hist.births[x].startedAt == s.threads[a.app.t].startedAt
  {
  }

  lemma {:induction false} YoungStay(s: State, run: seq<Step>, known: set<SagaId>, threshold: int)
    requires Inv(s) && Valid(s, run) && s.clock >= threshold
    requires NoneStalled(s, threshold) && LaterAreYoung(s, known, threshold)
    ensures LaterAreYoung(Exec(s, run), known, threshold)
    decreases |run|
  {
    if run != [] {
      var s' := Apply(s, run[0]);
      StepKeeps(s, run[0]);
      forall t | t in s'.threads && s'.threads[t].SubscribeWrite? ensures s'.threads[t].startedAt >= threshold {
        StartsAreDrawnNow(s, run[0], t);
      }
      forall x | x in s'.hist.births && x !in known ensures s'.hist.births[x].startedAt >= threshold {
        if x !in s.hist.births { BirthsAreDrawn(s, run[0], x); }
      }
      YoungStay(s', run[1..], known, threshold);
    }
  }

  lemma DoneAndYoung(s: State, t: Tid, x: SagaId)
    requires Inv(s) && t in s.threads && s.threads[t].SweepDone? && s.threads[t].sweep.clean
    requires LaterAreYoung(s, s.threads[t].sweep.known, s.threads[t].sweep.threshold)
    ensures !IsStuck(s.db, s.threads[t].sweep.threshold, x)
  {
    assert PcOk(s, s.threads[t]);
    if x in s.db.sagas { assert SagaOk(s.db, s.hist, x); }
  }

  /** Thread `t` has just fetched: no saga was inserted since, and no compensation
      has failed. */
  ghost predicate Fetched(s: State, t: Tid) {
    && t in s.threads && s.threads[t].SweepLoop?
    && s.threads[t].sweep.clean && s.threads[t].sweep.known == s.hist.births.Keys
  }

  /** The run ends this sweep, uncancelled and without a failed compensation. */
  ghost predicate EndsCleanly(s: State, run: seq<Step>, t: Tid)
    requires Valid(s, run) && Fetched(s, t)
  {
    var s', sw := Exec(s, run), s.threads[t].sweep;
    t in s'.threads && s'.threads[t] == SweepDone(sw.(todo := []))
  }

  /** Sweep progress: if no Subscribe was stalled at the fetch, since before the
      threshold, between drawing its start time and its insert, then after the sweep
      no saga that started before the threshold is pending, with any RPC failures
      and any steps of other threads in between. */
  lemma SweepClears(s: State, cascade: bool, run: seq<Step>, t: Tid, x: SagaId)
    requires Reachable(s, cascade) && Fetched(s, t) && Valid(s, run) && EndsCleanly(s, run, t)
    requires NoneStalled(s, s.threads[t].sweep.threshold)
    ensures !IsStuck(Exec(s, run).db, s.threads[t].sweep.threshold, x)
  {
    var sw := s.threads[t].sweep;
    ReachableInv(s, cascade);
    ReachableThresholds(s, cascade);
    RunKeeps(s, run);
    YoungStay(s, run, sw.known, sw.threshold);
    DoneAndYoung(Exec(s, run), t, x);
  }

  // -------------------------------------------------- how a sweep can finish

  /** The retry's read fails, so the visit falls through to compensation. */
  lemma VisitStarts(s: State, t: Tid) returns (run: seq<Step>)
    requires t in s.threads && s.threads[t].SweepLoop? && s.threads[t].sweep.todo != []
    ensures var sw := s.threads[t].sweep;
            && Valid(s, run)
            && Exec(s, run) == Put(s, t, FailGet(sw.todo[0], FromSweep(sw.(todo := sw.todo[1..]))))
  {
    var sw := s.threads[t].sweep;
    var x, sw' := sw.todo[0], sw.(todo := sw.todo[1..]);
    var s1, s2 := Put(s, t, RetryGet(x, sw')), Put(s, t, FailGet(x, FromSweep(sw')));
    var a, b := App(NextStuck(t, false)), App(GetForRetry(t, Fails));
    assert AppApply(s, a.app) == s1;
    assert AppApply(s1, b.app) == DoGetForRetry(s1, t, Fails)
           && Put(s1, t, FailGet(x, FromSweep(sw'))).threads == s2.threads;
    assert Apply(s1, b) == s2;
    OneStepRun(s1, b);
    OneStep(s, a, [b]);
    run := [a] + [b];
  }

  /** One visit whose compensation works, taken without interference. */
  lemma VisitRun(s: State, t: Tid) returns (run: seq<Step>)
    requires t in s.threads && s.threads[t].SweepLoop? && s.threads[t].sweep.todo != []
    ensures var sw := s.threads[t].sweep;
            && Valid(s, run)
            && Exec(s, run).threads == s.threads[t := SweepLoop(sw.(todo := sw.todo[1..]))]
  {
    var sw := s.threads[t].sweep;
    var x, sw' := sw.todo[0], sw.(todo := sw.todo[1..]);
    var start := VisitStarts(s, t);
    var s2 := Exec(s, start);
    assert s2.threads[t] == FailGet(x, FromSweep(sw'));
    var fail := Orchestration.FailRun(s2.db, x, t, Orchestration.NO_FAULTS);
    Orchestration.HandleFailedIsARun(s2, t, Orchestration.NO_FAULTS);
    assert Orchestration.Failed(s2.db, x, Orchestration.NO_FAULTS).ok;
    assert FailReturns(FromSweep(sw'), true) == Some(SweepLoop(sw'));
    RunsJoin(s, start, fail);
    run := start + fail;
    assert s2.threads[t := SweepLoop(sw')] == s.threads[t := SweepLoop(sw')];
  }

  /** Any sweep can finish cleanly while nobody else moves. */
  lemma {:induction false} FinishRun(s: State, t: Tid) returns (run: seq<Step>)
    requires t in s.threads && s.threads[t].SweepLoop?
    ensures Valid(s, run) && Exec(s, run).threads == s.threads[t := SweepDone(s.threads[t].sweep.(todo := []))]
    decreases |s.threads[t].sweep.todo|
  {
    var sw := s.threads[t].sweep;
    if sw.todo == [] {
      run := [App(NextStuck(t, false))];
      assert AppApply(s, run[0].app) == DoNextStuck(s, t, false);
      OneStepRun(s, run[0]);
    } else {
      var visit := VisitRun(s, t);
      var rest := FinishRun(Exec(s, visit), t);
      RunsJoin(s, visit, rest);
      run := visit + rest;
    }
  }

  // -------------------------------------------------------------- fresh names

  /** An insert that is enabled whatever the state. */
  lemma FreshInsert(s: State, q: Tid) returns (a: AppStep)
    requires q in s.threads && s.threads[q].SubscribeWrite?
    ensures a.CreateWithSaga? && a.t == q && a.f == Works && AppEnabled(s, a)
  {
    var us := (set v | v in s.hist.owner :: v.n) + (set v | v in s.db.subs :: v.n);
    var xs := (set y | y in s.hist.births :: y.n) + (set y | y in s.db.sagas :: y.n);
    var ks := (set y | y in s.hist.births :: s.hist.births[y].token.n)
        + (set v | v in s.db.subs :: s.db.subs[v].unsubToken.n);
    var u := Above(us);
    var x := Above(xs);
    var k := Above(ks);
    assert u !in us && x !in xs && k !in ks && k + 1 !in ks;
    assert SubId(u).n == u && SagaId(x).n == x && Token(k).n == k && Token(k + 1).n == k + 1;
    forall y | y in s.hist.births ensures s.hist.births[y].token.n in ks {
    }
    forall v | v in s.db.subs ensures s.db.subs[v].unsubToken.n in ks {
    }
    a := CreateWithSaga(q, SubId(u), SagaId(x), Token(k), Token(k + 1), Works);
  }

  // --------------------------------------------------------- the exact condition

  /** A Subscribe that was stalled past the threshold at the fetch can put an old
      pending saga behind the finished sweep. */
  lemma StalledInsertEscapes(s: State, cascade: bool, t: Tid) returns (run: seq<Step>, x: SagaId)
    requires Reachable(s, cascade) && Fetched(s, t) && !NoneStalled(s, s.threads[t].sweep.threshold)
    ensures Valid(s, run) && EndsCleanly(s, run, t)
    ensures IsStuck(Exec(s, run).db, s.threads[t].sweep.threshold, x)
  {
    var q :| q in s.threads && s.threads[q].SubscribeWrite? && s.threads[q].startedAt < s.threads[t].sweep.threshold;
    var finish := FinishRun(s, t);
    var s1 := Exec(s, finish);
    var a := FreshInsert(s1, q);
    assert AppApply(s1, a) == DoCreate(s1, q, a.sub, a.saga, a.confirmToken, a.unsubToken, Works);
    OneStepRun(s1, App(a));
    RunsJoin(s, finish, [App(a)]);
    run, x := finish + [App(a)], a.saga;
  }

  /** However this sweep ends cleanly, nothing old is pending then. */
  ghost predicate AlwaysClears(s: State, t: Tid)
    requires Fetched(s, t)
  {
    forall run, x :: Valid(s, run) && EndsCleanly(s, run, t) ==>
      !IsStuck(Exec(s, run).db, s.threads[t].sweep.threshold, x)
  }

  /** A sweep that has fetched leaves, however it ends cleanly, no saga that started
      before its threshold pending, exactly when no Subscribe is stalled, since
      before the threshold, between drawing its start time and its insert. */
  lemma SweepClearsIffNoneStalled(s: State, cascade: bool, t: Tid)
    requires Reachable(s, cascade) && Fetched(s, t)
    ensures AlwaysClears(s, t) <==> NoneStalled(s, s.threads[t].sweep.threshold)
  {
    if NoneStalled(s, s.threads[t].sweep.threshold) {
      forall run, x | Valid(s, run) && EndsCleanly(s, run, t)
        ensures !IsStuck(Exec(s, run).db, s.threads[t].sweep.threshold, x)
      {
        SweepClears(s, cascade, run, t, x);
      }
    } else {
      var run, x := StalledInsertEscapes(s, cascade, t);
      assert !(Valid(s, run) && EndsCleanly(s, run, t) ==> !IsStuck(Exec(s, run).db, s.threads[t].sweep.threshold, x));
    }
  }
}
