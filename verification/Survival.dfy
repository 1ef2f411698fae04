/** When a completed saga's subscription survives compensation. */
module Survival {
  import opened Domain
  import opened Store
  import opened Queues
  import opened Protocol
  import opened Invariants
  import opened Steps
  import opened Runs

  predicate IsUnsubOf(s: State, a: Step, u: SubId) {
    a.App? && a.app.DeleteUnsub? && a.app.t in s.threads && s.threads[a.app.t] == UnsubDelete(u)
  }

  /** No step of the run is Unsubscribe deleting `u`. */
  ghost predicate NoUnsub(s: State, run: seq<Step>, u: SubId)
    requires Valid(s, run)
    decreases |run|
  {
    run != [] ==> !IsUnsubOf(s, run[0], u) && NoUnsub(Apply(s, run[0]), run[1..], u)
  }

  predicate ArmedAt(s: State, t: Tid, x: SagaId) {
    t in s.threads && s.threads[t].FailDelete? && s.threads[t].saga == x
  }

  /** Some HandleFailed has read `x` as pending and is about to delete. */
  ghost predicate Armed(s: State, x: SagaId) {
    exists t :: ArmedAt(s, t, x)
  }

  predicate CompletedAndStored(s: State, x: SagaId) {
    x in s.db.sagas && s.db.sagas[x].state.Completed? && s.db.sagas[x].sub in s.db.subs
  }

  predicate Deletes(a: Step) {
    a.App? && (a.app.DeleteForFail? || a.app.DeleteUnsub?)
  }

  predicate Arms(a: Step) {
    a.App? && a.app.GetForFail?
  }

  predicate Writes(a: AppStep) {
    || a.GetOrCreateRepo? || a.CreateWithSaga? || a.MarkSent? || a.MarkFailed? || a.MarkRetried? || a.WriteConfirm?
    || a.DeleteForFail? || a.DeleteUnsub?
  }

  lemma ReadsKeepDb(s: State, a: AppStep)
    requires AppEnabled(s, a) && !Writes(a)
    ensures AppApply(s, a).db == s.db
  {
  }

  lemma MarksKeepRows(s: State, a: AppStep)
    requires AppEnabled(s, a) && (a.MarkSent? || a.MarkFailed? || a.MarkRetried?)
    ensures s.db.subs.Keys <= AppApply(s, a).db.subs.Keys && s.db.sagas.Keys <= AppApply(s, a).db.sagas.Keys
  {
    var state := if a.MarkFailed? then Compensated else Completed;
    assert AppApply(s, a).db == DoMark(s, s.threads[a.t].saga, state, a.f).db;
  }

  lemma WritesKeepRows(s: State, a: AppStep)
    requires AppEnabled(s, a) && (a.GetOrCreateRepo? || a.CreateWithSaga? || a.WriteConfirm?)
    ensures s.db.subs.Keys <= AppApply(s, a).db.subs.Keys && s.db.sagas.Keys <= AppApply(s, a).db.sagas.Keys
  {
  }

  lemma NotifierKeepsDb(s: State, a: NotifierStep)
    requires NotifierEnabled(s, a)
    ensures NotifierApply(s, a).db == s.db
  {
  }

  /** Rows are removed by the two deletes only. */
  lemma OtherStepsKeepRows(s: State, a: Step)
    requires Enabled(s, a) && !Deletes(a)
    ensures s.db.subs.Keys <= Apply(s, a).db.subs.Keys && s.db.sagas.Keys <= Apply(s, a).db.sagas.Keys
  {
    match a {
      case App(b) =>
        if !Writes(b) {
          ReadsKeepDb(s, b);
        } else if b.MarkSent? || b.MarkFailed? || b.MarkRetried? {
          MarksKeepRows(s, b);
        } else {
          WritesKeepRows(s, b);
        }
      case Notify(b) => NotifierKeepsDb(s, b);
      case World(_) =>
    }
  }

  lemma OtherAppStepsArmNobody(s: State, a: AppStep, t: Tid)
    requires AppEnabled(s, a) && !a.GetForFail?
    requires t in AppApply(s, a).threads && AppApply(s, a).threads[t].FailDelete?
    ensures t in s.threads && s.threads[t] == AppApply(s, a).threads[t]
  {
  }

  /** Only reading the saga as pending arms a thread. */
  lemma OtherStepsArmNobody(s: State, a: Step, t: Tid)
    requires Enabled(s, a) && !Arms(a)
    requires t in Apply(s, a).threads && Apply(s, a).threads[t].FailDelete?
    ensures t in s.threads && s.threads[t] == Apply(s, a).threads[t]
  {
    if a.App? { OtherAppStepsArmNobody(s, a.app, t); }
  }

  lemma ArmingReadsPending(s: State, a: Step, t: Tid)
    requires Enabled(s, a) && Arms(a)
    requires t in Apply(s, a).threads && Apply(s, a).threads[t].FailDelete?
    ensures Apply(s, a).db == s.db
    ensures (t in s.threads && s.threads[t] == Apply(s, a).threads[t]) || IsPending(s.db, Apply(s, a).threads[t].saga)
  {
  }

  lemma DeletesTables(s: State, a: AppStep)
    requires AppEnabled(s, a) && (a.DeleteForFail? || a.DeleteUnsub?)
    ensures AppApply(s, a).db == Commit(a.f, s.db, DeleteSub(s.db, s.threads[a.t].sub))
  {
  }

  lemma DeleteElsewhere(db: Db, u: SubId, x: SagaId, f: Fault)
    requires x in db.sagas && db.sagas[x].sub in db.subs && db.sagas[x].sub != u
    ensures var db' := Commit(f, db, DeleteSub(db, u));
            x in db'.sagas && db'.sagas[x] == db.sagas[x] && db.sagas[x].sub in db'.subs
  {
  }

  /** A compensation that is not armed for `x` deletes another subscription. */
  lemma FailDeletesOwn(s: State, t: Tid, x: SagaId)
    requires Inv(s) && t in s.threads && s.threads[t].FailDelete? && s.threads[t].saga != x && x in s.db.sagas
    ensures s.threads[t].sub != s.db.sagas[x].sub
  {
    assert PcOk(s, s.threads[t]);
    assert SagaOk(s.db, s.hist, x);
  }

  /** A delete of another subscription leaves this saga and its subscription. */
  lemma DeletesElsewhere(s: State, a: Step, x: SagaId)
    requires Inv(s) && Enabled(s, a) && Deletes(a) && CompletedAndStored(s, x) && !Armed(s, x)
    requires !IsUnsubOf(s, a, s.db.sagas[x].sub)
    ensures CompletedAndStored(Apply(s, a), x)
  {
    var t := a.app.t;
    DeletesTables(s, a.app);
    if a.app.DeleteForFail? {
      assert !ArmedAt(s, t, x);
      FailDeletesOwn(s, t, x);
    }
    DeleteElsewhere(s.db, s.threads[t].sub, x, a.app.f);
  }

  /** A thread armed for a completed saga was armed before the step. */
  lemma ArmedBefore(s: State, a: Step, t: Tid, x: SagaId)
    requires Enabled(s, a) && CompletedAndStored(s, x) && ArmedAt(Apply(s, a), t, x)
    ensures ArmedAt(s, t, x)
  {
    if Arms(a) { ArmingReadsPending(s, a, t); } else { OtherStepsArmNobody(s, a, t); }
  }

  lemma UnarmedStays(s: State, a: Step, x: SagaId)
    requires Enabled(s, a) && CompletedAndStored(s, x) && !Armed(s, x)
    ensures !Armed(Apply(s, a), x)
  {
    forall t ensures !ArmedAt(Apply(s, a), t, x) {
      if ArmedAt(Apply(s, a), t, x) { ArmedBefore(s, a, t, x); }
    }
  }

  lemma SafeStep(s: State, a: Step, x: SagaId)
    requires Inv(s) && Enabled(s, a) && CompletedAndStored(s, x) && !Armed(s, x)
    requires !IsUnsubOf(s, a, s.db.sagas[x].sub)
    ensures CompletedAndStored(Apply(s, a), x) && Apply(s, a).db.sagas[x].sub == s.db.sagas[x].sub
            && !Armed(Apply(s, a), x)
  {
    var s' := Apply(s, a);
    StepKeeps(s, a);
    if Deletes(a) { DeletesElsewhere(s, a, x); } else { OtherStepsKeepRows(s, a); }
    UnarmedStays(s, a, x);
    assert SagaOk(s.db, s.hist, x) && SagaOk(s'.db, s'.hist, x);
  }

  lemma {:induction false} SafeRun(s: State, run: seq<Step>, x: SagaId)
    requires Inv(s) && Valid(s, run) && CompletedAndStored(s, x) && !Armed(s, x)
    requires NoUnsub(s, run, s.db.sagas[x].sub)
    ensures CompletedAndStored(Exec(s, run), x)
    decreases |run|
  {
    if run != [] {
      StepKeeps(s, run[0]);
      SafeStep(s, run[0], x);
      SafeRun(Apply(s, run[0]), run[1..], x);
    }
  }

  /** Whatever happens next, short of Unsubscribe, the subscription stays. */
  ghost predicate SurvivesAll(s: State, x: SagaId)
    requires x in s.db.sagas
  {
    forall run :: Valid(s, run) && NoUnsub(s, run, s.db.sagas[x].sub) ==> s.db.sagas[x].sub in Exec(s, run).db.subs
  }

  /** A completed saga's subscription survives every continuation exactly when no
      HandleFailed has read the saga as pending and still has its delete ahead. */
  lemma CompletedSurvivesIffUnarmed(s: State, cascade: bool, x: SagaId)
    requires Reachable(s, cascade) && CompletedAndStored(s, x)
    ensures SurvivesAll(s, x) <==> !Armed(s, x)
  {
    ReachableInv(s, cascade);
    var u := s.db.sagas[x].sub;
    if Armed(s, x) {
      ArmedDeletes(s, x);
    } else {
      forall run | Valid(s, run) && NoUnsub(s, run, u) ensures u in Exec(s, run).db.subs {
        SafeRun(s, run, x);
        RunKeeps(s, run);
        assert SagaOk(s.db, s.hist, x) && SagaOk(Exec(s, run).db, Exec(s, run).hist, x);
      }
    }
  }

  lemma ArmedDeletes(s: State, x: SagaId)
    requires Inv(s) && CompletedAndStored(s, x) && Armed(s, x)
    ensures !SurvivesAll(s, x)
  {
    var t :| ArmedAt(s, t, x);
    assert PcOk(s, s.threads[t]) && SagaOk(s.db, s.hist, x);
    var a := App(DeleteForFail(t, Works));
    var run := [a];
    var s' := Apply(s, a);
    assert s' == DoDeleteForFail(s, t, Works);
    assert run[1..] == [];
    assert Valid(s', []) && Exec(s', []) == s' && NoUnsub(s', [], s.db.sagas[x].sub);
    assert Valid(s, run) && Exec(s, run) == s' && NoUnsub(s, run, s.db.sagas[x].sub);
    assert s.db.sagas[x].sub !in s'.db.subs;
  }

  // -------------------------------------------- HandleFailed as one step

  /** Nothing but a crash comes between a HandleFailed's read and its delete. */
  ghost predicate AtomicRun(s: State, run: seq<Step>)
    requires Valid(s, run)
    decreases |run|
  {
    run != [] ==>
      && (forall t :: t in s.threads && s.threads[t].FailDelete? ==>
            (run[0].App? && run[0].app.DeleteForFail? && run[0].app.t == t) || run[0] == World(CrashApp))
      && AtomicRun(Apply(s, run[0]), run[1..])
  }

  ghost predicate ArmedMeansPending(s: State) {
    forall t :: t in s.threads && s.threads[t].FailDelete? ==> IsPending(s.db, s.threads[t].saga)
  }

  /** Neither a crash nor its own delete leaves a thread armed. */
  lemma DeletesDisarm(s: State, a: Step, t: Tid)
    requires Enabled(s, a) && t in s.threads && s.threads[t].FailDelete?
    requires (a.App? && a.app.DeleteForFail? && a.app.t == t) || a == World(CrashApp)
    ensures t !in Apply(s, a).threads || Apply(s, a).threads[t] != s.threads[t]
  {
  }

  lemma AtomicStep(s: State, a: Step)
    requires Enabled(s, a) && ArmedMeansPending(s)
    requires forall t :: t in s.threads && s.threads[t].FailDelete? ==>
               (a.App? && a.app.DeleteForFail? && a.app.t == t) || a == World(CrashApp)
    ensures ArmedMeansPending(Apply(s, a))
  {
    var s' := Apply(s, a);
    forall t | t in s'.threads && s'.threads[t].FailDelete? ensures IsPending(s'.db, s'.threads[t].saga) {
      if Arms(a) {
        ArmingReadsPending(s, a, t);
      } else {
        OtherStepsArmNobody(s, a, t);
        DeletesDisarm(s, a, t);
      }
    }
  }

  lemma {:induction false} AtomicRunKeeps(s: State, run: seq<Step>)
    requires Valid(s, run) && ArmedMeansPending(s) && AtomicRun(s, run)
    ensures ArmedMeansPending(Exec(s, run))
    decreases |run|
  {
    if run != [] {
      AtomicStep(s, run[0]);
      AtomicRunKeeps(Apply(s, run[0]), run[1..]);
    }
  }

  /** With HandleFailed taken as one step, a subscription whose saga has completed
      is removed only by Unsubscribe, whatever failure replies, publish errors and
      sweeps arrive, in whatever order. */
  lemma SuccessPreservesSubscription(cascade: bool, run: seq<Step>, more: seq<Step>, x: SagaId)
    requires Valid(Init(cascade), run) && AtomicRun(Init(cascade), run)
    requires CompletedAndStored(Exec(Init(cascade), run), x)
    requires Valid(Exec(Init(cascade), run), more)
    requires NoUnsub(Exec(Init(cascade), run), more, Exec(Init(cascade), run).db.sagas[x].sub)
    ensures Exec(Init(cascade), run).db.sagas[x].sub in Exec(Exec(Init(cascade), run), more).db.subs
  {
    var s := Exec(Init(cascade), run);
    AtomicRunKeeps(Init(cascade), run);
    assert !Armed(s, x) by {
      forall t ensures !ArmedAt(s, t, x) {
        assert t in s.threads && s.threads[t].FailDelete? ==> IsPending(s.db, s.threads[t].saga);
      }
    }
    assert Reachable(s, cascade);
    CompletedSurvivesIffUnarmed(s, cascade, x);
  }
}
