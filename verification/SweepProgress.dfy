/** What a sweep achieves against arbitrary other threads, RPC failures included. */
module SweepProgress {
  import opened Domain
  import opened Store
  import opened Queues
  import opened Protocol
  import opened Invariants
  import opened Steps
  import opened Runs

  /** The sweep a thread is carrying out, if it is past its fetch and not done. */
  function SweepAt(pc: Pc): Option<Sweep> {
    match pc
    case SweepLoop(sw) => Some(sw)
    case RetryGet(_, sw) => Some(sw)
    case RetryLoad(_, _, sw) => Some(sw)
    case RetryCall(_, _, sw) => Some(sw)
    case RetryAwait(_, _, sw) => Some(sw)
    case RetryMark(_, sw) => Some(sw)
    case FailGet(_, FromSweep(sw)) => Some(sw)
    case FailDelete(_, _, FromSweep(sw)) => Some(sw)
    case FailMark(_, FromSweep(sw)) => Some(sw)
    case _ => None
  }

  /** How much of the current saga's visit is left. */
  function Stage(pc: Pc): nat {
    match pc
    case RetryGet(_, _) => 8
    case RetryLoad(_, _, _) => 7
    case RetryCall(_, _, _) => 6
    case RetryAwait(_, _, _) => 5
    case RetryMark(_, _) => 4
    case FailGet(_, _) => 3
    case FailDelete(_, _, _) => 2
    case FailMark(_, _) => 1
    case _ => 0
  }

  /** Bounds the steps the sweep itself still takes. */
  function Rank(pc: Pc): nat {
    match SweepAt(pc)
    case None => 0
    case Some(sw) => 9 * |sw.todo| + Stage(pc) + 1
  }

  /** Every step a sweeping thread takes brings it nearer to its end, whatever the
      calls answer. */
  lemma SweepStepsDescend(s: State, a: AppStep)
    requires AppEnabled(s, a) && a.t in s.threads && SweepAt(s.threads[a.t]).Some?
    ensures a.t in AppApply(s, a).threads ==> Rank(AppApply(s, a).threads[a.t]) < Rank(s.threads[a.t])
  {
  }

  /** A sweeping thread is never blocked by the others: it always has a step. */
  lemma SweepNeverBlocked(s: State, t: Tid)
    requires t in s.threads && SweepAt(s.threads[t]).Some?
    ensures exists a: AppStep :: AppEnabled(s, a) && a.t == t
  {
    var pc := s.threads[t];
    var a :=
      if pc.SweepLoop? then NextStuck(t, false)
      else if pc.RetryGet? then GetForRetry(t, Works)
      else if pc.RetryLoad? then LoadForRetry(t, Works)
      else if pc.RetryCall? then CallNotifier(t, None)
      else if pc.RetryAwait? then CallReturns(t, false)
      else if pc.RetryMark? then MarkRetried(t, Works)
      else if pc.FailGet? then GetForFail(t, Works)
      else if pc.FailDelete? then DeleteForFail(t, Works)
      else MarkFailed(t, Works);
    assert AppEnabled(s, a) && a.t == t;
  }

  /** Nobody else moves a sweeping thread, short of a crash. */
  lemma OthersLeaveSweepsAlone(s: State, a: Step, t: Tid)
    requires Enabled(s, a) && t in s.threads && SweepAt(s.threads[t]).Some?
    requires a != World(CrashApp) && !(a.App? && a.app.t == t)
    ensures t in Apply(s, a).threads && Apply(s, a).threads[t] == s.threads[t]
  {
    match a {
      case App(b) =>
        if IsRetryStep(b) {
          OtherRetryStepsLeaveAlone(s, b, t);
        } else if IsHandlerStep(b) {
          OtherHandlerStepsLeaveAlone(s, b, t);
        } else {
          OtherAppStepsLeaveAlone(s, b, t);
        }
      case Notify(b) => NotifierStepsLeaveAlone(s, b, t);
      case World(_) =>
    }
  }

  lemma OtherRetryStepsLeaveAlone(s: State, a: AppStep, t: Tid)
    requires AppEnabled(s, a) && t in s.threads && a.t != t && IsRetryStep(a)
    ensures t in AppApply(s, a).threads && AppApply(s, a).threads[t] == s.threads[t]
  {
  }

  lemma OtherHandlerStepsLeaveAlone(s: State, a: AppStep, t: Tid)
    requires AppEnabled(s, a) && t in s.threads && a.t != t && IsHandlerStep(a)
    ensures t in AppApply(s, a).threads && AppApply(s, a).threads[t] == s.threads[t]
  {
  }

  lemma OtherAppStepsLeaveAlone(s: State, a: AppStep, t: Tid)
    requires AppEnabled(s, a) && t in s.threads && a.t != t && !IsRetryStep(a) && !IsHandlerStep(a)
    ensures t in AppApply(s, a).threads && AppApply(s, a).threads[t] == s.threads[t]
  {
  }

  lemma NotifierStepsLeaveAlone(s: State, a: NotifierStep, t: Tid)
    requires NotifierEnabled(s, a) && t in s.threads && !IsNotifier(s.threads[t])
    ensures t in NotifierApply(s, a).threads && NotifierApply(s, a).threads[t] == s.threads[t]
  {
  }

  /** A sweep that has ended without cancellation and without an error from its
      fetch or its compensations has resolved every saga that was there when it
      fetched and had started before its threshold. */
  lemma SweepResolves(s: State, cascade: bool, t: Tid, x: SagaId)
    requires Reachable(s, cascade) && t in s.threads && s.threads[t].SweepDone? && s.threads[t].sweep.clean
    requires x in s.threads[t].sweep.known
    ensures !IsStuck(s.db, s.threads[t].sweep.threshold, x)
  {
    ReachableInv(s, cascade);
    assert PcOk(s, s.threads[t]);
    if x in s.db.sagas { assert SagaOk(s.db, s.hist, x); }
  }

  /** Old sagas of the fetch that are still pending. */
  ghost function Outstanding(s: State, sw: Sweep): set<SagaId> {
    set x | x in sw.known && IsStuck(s.db, sw.threshold, x)
  }

  function Listed(todo: seq<SagaId>): set<SagaId> {
    set x | x in todo
  }

  lemma {:induction false} ListedSize(todo: seq<SagaId>)
    ensures |Listed(todo)| <= |todo|
  {
    if todo != [] {
      ListedSize(todo[1..]);
      assert Listed(todo) == {todo[0]} + Listed(todo[1..]);
    }
  }

  /** While its compensations succeed, at most as many old sagas are pending as the
      sweep has left to visit. */
  lemma OutstandingShrinks(s: State, cascade: bool, t: Tid)
    requires Reachable(s, cascade) && t in s.threads && s.threads[t].SweepLoop? && s.threads[t].sweep.clean
    ensures |Outstanding(s, s.threads[t].sweep)| <= |s.threads[t].sweep.todo|
  {
    ReachableInv(s, cascade);
    var sw := s.threads[t].sweep;
    assert PcOk(s, s.threads[t]);
    forall x | x in Outstanding(s, sw) ensures x in Listed(sw.todo) {
      assert SagaOk(s.db, s.hist, x);
      assert !Resolved(s.db, s.hist, x);
    }
    ListedSize(sw.todo);
    SubsetSize(Outstanding(s, sw), Listed(sw.todo));
  }
}
