/** How many confirmation e-mails the two delivery paths can send for one saga
    while no command is redelivered, no dedupe entry is lost and the notifier does
    not restart. A send counts when the mail provider's call returned nil. */
module EmailBound {
  import opened Domain
  import opened Store
  import opened Queues
  import opened Protocol
  import opened Invariants
  import opened Steps
  import opened Runs

  /** No dedupe entry is lost and the notifier does not restart. */
  predicate KeepsEntries(a: Step) {
    !(a.World? && (a.world.CrashNotifier? || a.world.DropEntry?))
  }

  predicate EntriesKept(run: seq<Step>) {
    forall i :: 0 <= i < |run| ==> KeepsEntries(run[i])
  }

  /** And no command is redelivered. */
  predicate Calm(a: Step) {
    KeepsEntries(a) && !(a.World? && a.world.RedeliverCommand?)
  }

  predicate CalmRun(run: seq<Step>) {
    forall i :: 0 <= i < |run| ==> Calm(run[i])
  }

  // ------------------------------------------------------------ command path

  /** Where the one right to send by command can be. */
  datatype Spot = AtThread(t: Tid) | InReady(m: MsgId) | InLog

  predicate Carries(s: State, c: Spot, x: SagaId) {
    match c
    case AtThread(t) => t in s.threads && (s.threads[t].PublishCommand? || s.threads[t].WorkerSend?)
      && s.threads[t].saga == x
    case InReady(m) => m in s.commands.ready && m in s.commands.bodies && s.commands.bodies[m].SendConfirmation?
      && s.commands.bodies[m].saga == x
    case InLog => s.hist.asyncOk[x] > 0
  }

  ghost predicate AsyncOnce(s: State) {
    && (forall c, c', x :: Carries(s, c, x) && Carries(s, c', x) ==> c == c')
    && (forall c, x :: Carries(s, c, x) ==> x in s.hist.births)
    && (forall x :: s.hist.asyncOk[x] <= 1)
  }

  predicate MovesRight(a: Step) {
    (a.App? && (a.app.CreateWithSaga? || a.app.SendCommand?))
      || (a.Notify? && (a.notify.TakeCommand? || a.notify.SendMail?))
  }

  lemma AppStepsLeaveQueue(s: State, a: AppStep)
    requires AppEnabled(s, a) && !a.SendCommand?
    ensures AppApply(s, a).commands == s.commands && AppApply(s, a).hist.asyncOk == s.hist.asyncOk
  {
  }

  /** A thread that moves to anything but a right to send gives none to anybody. */
  lemma MoveCarriesNothing(s: State, q: Tid, next: Option<Pc>, t: Tid, x: SagaId)
    requires next.Some? ==> !next.value.PublishCommand? && !next.value.WorkerSend?
    requires Carries(Move(s, q, next), AtThread(t), x)
    ensures Carries(s, AtThread(t), x)
  {
  }

  lemma GetCarriesThreads(s: State, q: Tid, f: Fault, t: Tid, x: SagaId)
    requires q in s.threads && s.threads[q].FailGet? && Carries(DoGetForFail(s, q, f), AtThread(t), x)
    ensures Carries(s, AtThread(t), x)
  {
    var pc := s.threads[q];
    var next := if !f.Works? then FailReturns(pc.caller, false)
                else if !IsPending(s.db, pc.saga) then FailReturns(pc.caller, true)
                else Some(FailDelete(pc.saga, s.db.sagas[pc.saga].sub, pc.caller));
    assert DoGetForFail(s, q, f).threads == Move(s, q, next).threads;
    MoveCarriesNothing(s, q, next, t, x);
  }

  lemma DeleteCarriesThreads(s: State, q: Tid, f: Fault, t: Tid, x: SagaId)
    requires q in s.threads && s.threads[q].FailDelete? && Carries(DoDeleteForFail(s, q, f), AtThread(t), x)
    ensures Carries(s, AtThread(t), x)
  {
    var pc := s.threads[q];
    var failed := Answer(f, DeleteReply(s.db, pc.sub)).Error?;
    var next := if failed then FailReturns(pc.caller, false) else Some(FailMark(pc.saga, pc.caller));
    assert DoDeleteForFail(s, q, f).threads == Move(s, q, next).threads;
    MoveCarriesNothing(s, q, next, t, x);
  }

  lemma MarkCarriesThreads(s: State, q: Tid, f: Fault, t: Tid, x: SagaId)
    requires q in s.threads && s.threads[q].FailMark? && Carries(DoMarkFailed(s, q, f), AtThread(t), x)
    ensures Carries(s, AtThread(t), x)
  {
    var pc := s.threads[q];
    var next := FailReturns(pc.caller, !Answer(f, MarkReply(s.db, pc.saga)).Error?);
    assert DoMarkFailed(s, q, f).threads == Move(s, q, next).threads;
    MoveCarriesNothing(s, q, next, t, x);
  }

  lemma HandlersCarryThreads(s: State, a: AppStep, t: Tid, x: SagaId)
    requires AppEnabled(s, a) && IsHandlerStep(a)
    requires Carries(AppApply(s, a), AtThread(t), x)
    ensures Carries(s, AtThread(t), x)
  {
    match a {
      case GetForFail(q, f) => GetCarriesThreads(s, q, f, t, x);
      case DeleteForFail(q, f) => DeleteCarriesThreads(s, q, f, t, x);
      case MarkFailed(q, f) => MarkCarriesThreads(s, q, f, t, x);
      case _ =>
    }
  }

  lemma RetriesCarryThreads(s: State, a: AppStep, t: Tid, x: SagaId)
    requires AppEnabled(s, a) && IsRetryStep(a)
    requires Carries(AppApply(s, a), AtThread(t), x)
    ensures Carries(s, AtThread(t), x)
  {
  }

  lemma AppStepsCarryThreads(s: State, a: AppStep, t: Tid, x: SagaId)
    requires AppEnabled(s, a) && !IsHandlerStep(a) && !IsRetryStep(a) && !a.CreateWithSaga? && !a.SendCommand?
    requires Carries(AppApply(s, a), AtThread(t), x)
    ensures Carries(s, AtThread(t), x)
  {
  }

  lemma NotifierStepsCarry(s: State, a: NotifierStep, c: Spot, x: SagaId)
    requires NotifierEnabled(s, a) && ThreadsOk(s) && !a.TakeCommand? && !a.SendMail?
    requires Carries(NotifierApply(s, a), c, x)
    ensures Carries(s, c, x)
  {
    if a.SettleCommand? { assert PcOk(s, s.threads[a.t]); }
  }

  lemma NotifierStepsLeaveLog(s: State, a: NotifierStep)
    requires NotifierEnabled(s, a) && !a.SendMail?
    ensures NotifierApply(s, a).hist.asyncOk == s.hist.asyncOk
  {
  }

  lemma OtherAppStepsCarry(s: State, a: AppStep, c: Spot, x: SagaId)
    requires AppEnabled(s, a) && !a.CreateWithSaga? && !a.SendCommand? && Carries(AppApply(s, a), c, x)
    ensures Carries(s, c, x)
  {
    AppStepsLeaveQueue(s, a);
    if c.AtThread? {
      if IsHandlerStep(a) {
        HandlersCarryThreads(s, a, c.t, x);
      } else if IsRetryStep(a) {
        RetriesCarryThreads(s, a, c.t, x);
      } else {
        AppStepsCarryThreads(s, a, c.t, x);
      }
    }
  }

  lemma WorldStepsCarry(s: State, a: WorldStep, c: Spot, x: SagaId)
    requires WorldEnabled(s, a) && !a.RedeliverCommand? && Carries(WorldApply(s, a), c, x)
    ensures Carries(s, c, x)
  {
  }

  /** All other steps create no right to send and record no send. */
  lemma OtherStepsCarry(s: State, a: Step, c: Spot, x: SagaId)
    requires Inv(s) && Enabled(s, a) && Calm(a) && !MovesRight(a)
    requires Carries(Apply(s, a), c, x)
    ensures Carries(s, c, x)
  {
    match a {
      case App(b) => OtherAppStepsCarry(s, b, c, x);
      case Notify(b) => NotifierStepsCarry(s, b, c, x);
      case World(b) => WorldStepsCarry(s, b, c, x);
    }
  }

  lemma OtherStepsLeaveLog(s: State, a: Step)
    requires Enabled(s, a) && !MovesRight(a)
    ensures Apply(s, a).hist.asyncOk == s.hist.asyncOk
  {
    match a {
      case App(b) => AppStepsLeaveQueue(s, b);
      case Notify(b) => NotifierStepsLeaveLog(s, b);
      case World(_) =>
    }
  }

  /** Where the right that is at `c` after a moving step was before it. */
  function Came(s: State, a: Step, c: Spot, x: SagaId): Spot {
    match a
    case App(SendCommand(t, m, _)) => if c == InReady(m) then AtThread(t) else c
    case Notify(TakeCommand(t, _, m)) => if c == AtThread(t) then InReady(m) else c
    case Notify(SendMail(t, f)) =>
      var sent := c == InLog && f.Works? && t in s.threads && s.threads[t].WorkerSend? && s.threads[t].saga == x;
      if sent then AtThread(t) else c
    case _ => c
  }

  predicate Newborn(s: State, a: Step, c: Spot, x: SagaId) {
    a.App? && a.app.CreateWithSaga? && x == a.app.saga && c == AtThread(a.app.t) && x !in s.hist.births
  }

  lemma CreateCarries(s: State, t: Tid, u: SubId, x: SagaId, k: Token, k': Token, f: Fault, c: Spot, y: SagaId)
    requires AppEnabled(s, CreateWithSaga(t, u, x, k, k', f)) && Carries(DoCreate(s, t, u, x, k, k', f), c, y)
    ensures Carries(s, c, y) || (y == x && c == AtThread(t) && x !in s.hist.births)
    ensures DoCreate(s, t, u, x, k, k', f).hist.asyncOk == s.hist.asyncOk
  {
  }

  lemma SendCommandCarries(s: State, t: Tid, m: MsgId, f: Fault, c: Spot, x: SagaId)
    requires t in s.threads && s.threads[t].PublishCommand? && m !in s.commands.bodies && Conserved(s.commands)
    requires Carries(DoSendCommand(s, t, m, f), c, x)
    ensures Carries(s, if c == InReady(m) then AtThread(t) else c, x) && c != AtThread(t)
  {
    assert At(s.commands, m, Ready) ==> m in s.commands.bodies;
  }

  lemma TakeCommandCarries(s: State, t: Tid, tag: Tag, m: MsgId, c: Spot, x: SagaId)
    requires t !in s.threads && m in s.commands.ready && m in s.commands.bodies && tag !in s.commands.tags
    requires Carries(DoTakeCommand(s, t, tag, m), c, x)
    ensures Carries(s, if c == AtThread(t) then InReady(m) else c, x) && c != InReady(m)
  {
  }

  lemma SendMailCarries(s: State, t: Tid, f: Fault, c: Spot, x: SagaId)
    requires t in s.threads && s.threads[t].WorkerSend? && Carries(DoSendMail(s, t, f), c, x)
    ensures Carries(s, if c == InLog && f.Works? && s.threads[t].saga == x then AtThread(t) else c, x)
            && c != AtThread(t)
    ensures DoSendMail(s, t, f).hist.asyncOk[x] ==
            s.hist.asyncOk[x] + (if f.Works? && s.threads[t].saga == x then 1 else 0)
  {
  }

  lemma MovingStepsCarry(s: State, a: Step, c: Spot, x: SagaId)
    requires Inv(s) && Enabled(s, a) && MovesRight(a) && Carries(Apply(s, a), c, x)
    ensures Newborn(s, a, c, x) || Carries(s, Came(s, a, c, x), x)
    ensures forall c' ::
              Carries(Apply(s, a), c', x) && !Newborn(s, a, c', x) && Came(s, a, c', x) == Came(s, a, c, x) ==>
                Newborn(s, a, c, x) || c' == c
  {
    match a {
      case App(CreateWithSaga(t, u, y, k, k', f)) => CreateCarries(s, t, u, y, k, k', f, c, x);
      case App(SendCommand(t, m, f)) =>
        forall c' | Carries(Apply(s, a), c', x) ensures c' != AtThread(t) { SendCommandCarries(s, t, m, f, c', x); }
        SendCommandCarries(s, t, m, f, c, x);
      case Notify(TakeCommand(t, tag, m)) =>
        forall c' | Carries(Apply(s, a), c', x) ensures c' != InReady(m) { TakeCommandCarries(s, t, tag, m, c', x); }
        TakeCommandCarries(s, t, tag, m, c, x);
      case Notify(SendMail(t, f)) =>
        forall c' | Carries(Apply(s, a), c', x) ensures c' != AtThread(t) { SendMailCarries(s, t, f, c', x); }
        SendMailCarries(s, t, f, c, x);
    }
  }

  lemma SendMailCounts(s: State, t: Tid, f: Fault, x: SagaId)
    requires t in s.threads && s.threads[t].WorkerSend? && AsyncOnce(s)
    ensures DoSendMail(s, t, f).hist.asyncOk[x] <= 1
  {
    assert Carries(s, AtThread(t), s.threads[t].saga);
    assert s.hist.asyncOk[x] > 0 ==> Carries(s, InLog, x);
  }

  lemma MovingStepsCount(s: State, a: Step, x: SagaId)
    requires Enabled(s, a) && MovesRight(a) && AsyncOnce(s)
    ensures Apply(s, a).hist.asyncOk[x] <= 1
  {
    if a.Notify? && a.notify.SendMail? {
      SendMailCounts(s, a.notify.t, a.notify.f, x);
    }
  }

  lemma MovingStepKeepsOnce(s: State, a: Step)
    requires Inv(s) && Enabled(s, a) && MovesRight(a) && AsyncOnce(s)
    ensures AsyncOnce(Apply(s, a))
  {
    var s' := Apply(s, a);
    forall c, c', x | Carries(s', c, x) && Carries(s', c', x) ensures c == c' {
      MovingStepsCarry(s, a, c, x);
      MovingStepsCarry(s, a, c', x);
    }
    StepKeeps(s, a);
    forall c, x | Carries(s', c, x) ensures x in s'.hist.births {
      MovingStepsCarry(s, a, c, x);
      if Newborn(s, a, c, x) { BornNow(s, a); }
    }
    forall x ensures s'.hist.asyncOk[x] <= 1 { MovingStepsCount(s, a, x); }
  }

  lemma BornNow(s: State, a: Step)
    requires Enabled(s, a) && a.App? && a.app.CreateWithSaga? && Carries(Apply(s, a), AtThread(a.app.t), a.app.saga)
    ensures a.app.saga in Apply(s, a).hist.births
  {
    var b := a.app;
    assert Apply(s, a) == DoCreate(s, b.t, b.sub, b.saga, b.confirmToken, b.unsubToken, b.f);
  }

  lemma OtherStepKeepsOnce(s: State, a: Step)
    requires Inv(s) && Enabled(s, a) && Calm(a) && !MovesRight(a) && AsyncOnce(s)
    ensures AsyncOnce(Apply(s, a))
  {
    var s' := Apply(s, a);
    forall c, c', x | Carries(s', c, x) && Carries(s', c', x) ensures c == c' {
      OtherStepsCarry(s, a, c, x);
      OtherStepsCarry(s, a, c', x);
    }
    StepKeeps(s, a);
    forall c, x | Carries(s', c, x) ensures x in s'.hist.births {
      OtherStepsCarry(s, a, c, x);
    }
    OtherStepsLeaveLog(s, a);
  }

  // --------------------------------------------------------------- gRPC path

  /** A claim that is held, or the send it led to. */
  predicate Claims(s: State, c: Spot, x: SagaId) {
    match c
    case AtThread(t) => t in s.threads && Holds(s.threads[t], x)
    case InReady(_) => false
    case InLog => s.hist.grpcOk[x] > 0
  }

  /** One claim per saga at a time, none after a send, and the entry is there as
      long as either is; a saga marked before any claim is never claimed. */
  ghost predicate ClaimOnce(s: State) {
    && (forall c, c', x :: Claims(s, c, x) && Claims(s, c', x) ==> c == c')
    && (forall c, x :: Claims(s, c, x) ==> x in s.dedupe && x in s.hist.claimed)
    && (forall x :: s.hist.grpcOk[x] <= 1)
    && (forall x :: x in s.hist.markedFirst ==> x in s.dedupe && x !in s.hist.claimed)
  }

  predicate TouchesClaims(a: Step) {
    a.Notify? && (a.notify.ClaimSaga? || a.notify.SendClaimed? || a.notify.ReleaseClaim? || a.notify.MarkSaga?)
  }

  predicate SameClaims(s: State, s': State) {
    && s'.dedupe == s.dedupe && s'.hist.grpcOk == s.hist.grpcOk && s'.hist.claimed == s.hist.claimed
    && s'.hist.markedFirst == s.hist.markedFirst
  }

  lemma MoveLeavesClaims(s: State, t: Tid, next: Option<Pc>)
    ensures SameClaims(s, Move(s, t, next))
  {
  }

  lemma RetryGetLeavesClaims(s: State, t: Tid, f: Fault)
    requires t in s.threads && s.threads[t].RetryGet?
    ensures SameClaims(s, DoGetForRetry(s, t, f))
  {
  }

  lemma RetryLoadLeavesClaims(s: State, t: Tid, f: Fault)
    requires t in s.threads && s.threads[t].RetryLoad?
    ensures SameClaims(s, DoLoadForRetry(s, t, f))
  {
  }

  lemma RetryCallLeavesClaims(s: State, t: Tid, rpc: Option<Tid>)
    requires t in s.threads && s.threads[t].RetryCall?
    ensures SameClaims(s, DoCallNotifier(s, t, rpc))
  {
  }

  lemma RetryMarkLeavesClaims(s: State, t: Tid, f: Fault)
    requires t in s.threads && s.threads[t].RetryMark?
    ensures SameClaims(s, DoMarkRetried(s, t, f))
  {
  }

  lemma RetriesLeaveClaims(s: State, a: AppStep)
    requires AppEnabled(s, a) && IsRetryStep(a)
    ensures SameClaims(s, AppApply(s, a))
  {
    match a {
      case GetForRetry(t, f) => RetryGetLeavesClaims(s, t, f);
      case LoadForRetry(t, f) => RetryLoadLeavesClaims(s, t, f);
      case CallNotifier(t, rpc) => RetryCallLeavesClaims(s, t, rpc);
      case CallReturns(t, ok) => assert AppApply(s, a) == DoCallReturns(s, t, ok);
      case MarkRetried(t, f) => RetryMarkLeavesClaims(s, t, f);
    }
  }

  lemma GetLeavesClaims(s: State, t: Tid, f: Fault)
    requires t in s.threads && s.threads[t].FailGet?
    ensures SameClaims(s, DoGetForFail(s, t, f))
  {
    var pc := s.threads[t];
    MoveLeavesClaims(s, t, FailReturns(pc.caller, false));
    MoveLeavesClaims(Resolving(s, pc.saga, true), t, FailReturns(pc.caller, true));
  }

  lemma DeleteLeavesClaims(s: State, t: Tid, f: Fault)
    requires t in s.threads && s.threads[t].FailDelete?
    ensures SameClaims(s, DoDeleteForFail(s, t, f))
  {
    var pc := s.threads[t];
    MoveLeavesClaims(s.(db := Commit(f, s.db, DeleteSub(s.db, pc.sub))), t, FailReturns(pc.caller, false));
  }

  lemma MarkLeavesClaims(s: State, t: Tid, f: Fault)
    requires t in s.threads && s.threads[t].FailMark?
    ensures SameClaims(s, DoMarkFailed(s, t, f))
  {
    var pc := s.threads[t];
    var ok := !Answer(f, MarkReply(s.db, pc.saga)).Error?;
    MoveLeavesClaims(Resolving(DoMark(s, pc.saga, Compensated, f), pc.saga, ok), t, FailReturns(pc.caller, ok));
  }

  lemma HandlersLeaveClaims(s: State, a: AppStep)
    requires AppEnabled(s, a) && IsHandlerStep(a)
    ensures SameClaims(s, AppApply(s, a))
  {
    match a {
      case GetForFail(t, f) => GetLeavesClaims(s, t, f);
      case DeleteForFail(t, f) => DeleteLeavesClaims(s, t, f);
      case MarkFailed(t, f) => MarkLeavesClaims(s, t, f);
      case _ =>
    }
  }

  lemma AppStepsLeaveClaims(s: State, a: AppStep)
    requires AppEnabled(s, a) && !IsRetryStep(a) && !IsHandlerStep(a)
    ensures SameClaims(s, AppApply(s, a))
  {
  }

  lemma RetriesStartNoClaim(s: State, a: AppStep, t: Tid, x: SagaId)
    requires AppEnabled(s, a) && IsRetryStep(a) && t in AppApply(s, a).threads && Holds(AppApply(s, a).threads[t], x)
    ensures t in s.threads && Holds(s.threads[t], x)
  {
  }

  lemma AppStepsStartNoClaim(s: State, a: AppStep, t: Tid, x: SagaId)
    requires AppEnabled(s, a) && !IsRetryStep(a) && t in AppApply(s, a).threads && Holds(AppApply(s, a).threads[t], x)
    ensures t in s.threads && Holds(s.threads[t], x)
  {
  }

  lemma WorkerStepsLeaveClaims(s: State, a: NotifierStep)
    requires NotifierEnabled(s, a) && !TouchesClaims(Notify(a))
    ensures SameClaims(s, NotifierApply(s, a))
    ensures forall t, x :: t in NotifierApply(s, a).threads && Holds(NotifierApply(s, a).threads[t], x) ==>
              t in s.threads && Holds(s.threads[t], x)
  {
  }

  /** All other steps make no claim, drop no entry and record no send. */
  lemma OtherStepLeavesClaims(s: State, a: Step)
    requires Enabled(s, a) && KeepsEntries(a) && !TouchesClaims(a)
    ensures SameClaims(s, Apply(s, a))
    ensures forall c, x :: Claims(Apply(s, a), c, x) ==> Claims(s, c, x)
  {
    var s' := Apply(s, a);
    match a {
      case App(b) =>
        if IsRetryStep(b) {
          RetriesLeaveClaims(s, b);
        } else if IsHandlerStep(b) {
          HandlersLeaveClaims(s, b);
        } else {
          AppStepsLeaveClaims(s, b);
        }
      case Notify(b) => WorkerStepsLeaveClaims(s, b);
      case World(_) =>
    }
    forall c, x | Claims(s', c, x) ensures Claims(s, c, x) {
      if c.AtThread? && a.App? {
        if IsRetryStep(a.app) {
          RetriesStartNoClaim(s, a.app, c.t, x);
        } else {
          AppStepsStartNoClaim(s, a.app, c.t, x);
        }
      }
    }
  }

  lemma OtherStepKeepsClaims(s: State, a: Step)
    requires Enabled(s, a) && KeepsEntries(a) && !TouchesClaims(a) && ClaimOnce(s)
    ensures ClaimOnce(Apply(s, a))
  {
    OtherStepLeavesClaims(s, a);
  }

  lemma ClaimStepKeepsClaims(s: State, t: Tid)
    requires t in s.threads && s.threads[t].GrpcClaim? && ClaimOnce(s)
    ensures ClaimOnce(DoClaim(s, t))
  {
    var s' := DoClaim(s, t);
    var y := s.threads[t].saga;
    forall c, x | Claims(s', c, x) ensures Claims(s, c, x) || (c == AtThread(t) && x == y && y !in s.dedupe) {
    }
  }

  lemma SendStepKeepsClaims(s: State, t: Tid, f: Fault)
    requires t in s.threads && s.threads[t].GrpcSend? && ClaimOnce(s)
    ensures ClaimOnce(DoSendClaimed(s, t, f))
  {
    var s' := DoSendClaimed(s, t, f);
    var y := s.threads[t].saga;
    assert Claims(s, AtThread(t), y);
    assert s.hist.grpcOk[y] > 0 ==> Claims(s, InLog, y);
    forall c, x | Claims(s', c, x)
      ensures if c == InLog && x == y && f.Works? then !Claims(s', AtThread(t), y) else Claims(s, c, x)
    {
    }
    forall c, x | Claims(s', c, x) && x == y && f.Works? ensures c == InLog {
      assert c != AtThread(t);
      assert c.AtThread? ==> Claims(s, c, y);
    }
  }

  lemma ReleaseStepKeepsClaims(s: State, t: Tid)
    requires t in s.threads && s.threads[t].GrpcRelease? && ClaimOnce(s)
    ensures ClaimOnce(DoRelease(s, t))
  {
    var s' := DoRelease(s, t);
    var y := s.threads[t].saga;
    assert Claims(s, AtThread(t), y);
    forall c, x | Claims(s', c, x) ensures Claims(s, c, x) && x != y {
      assert Claims(s, c, x) && c != AtThread(t);
    }
  }

  lemma MarkStepKeepsClaims(s: State, t: Tid)
    requires t in s.threads && s.threads[t].WorkerMark? && ClaimOnce(s)
    ensures ClaimOnce(DoMarkSaga(s, t))
  {
    forall c, x | Claims(DoMarkSaga(s, t), c, x) ensures Claims(s, c, x) {
    }
  }

  lemma StepKeepsClaims(s: State, a: Step)
    requires Enabled(s, a) && KeepsEntries(a) && ClaimOnce(s)
    ensures ClaimOnce(Apply(s, a))
  {
    if TouchesClaims(a) {
      match a.notify {
        case ClaimSaga(t) => ClaimStepKeepsClaims(s, t);
        case SendClaimed(t, f) => SendStepKeepsClaims(s, t, f);
        case ReleaseClaim(t) => ReleaseStepKeepsClaims(s, t);
        case MarkSaga(t) => MarkStepKeepsClaims(s, t);
      }
    } else {
      OtherStepKeepsClaims(s, a);
    }
  }

  lemma {:induction false} EntriesKeptKeeps(s: State, run: seq<Step>)
    requires Valid(s, run) && EntriesKept(run) && ClaimOnce(s)
    ensures ClaimOnce(Exec(s, run))
    decreases |run|
  {
    if run != [] {
      assert KeepsEntries(run[0]);
      StepKeepsClaims(s, run[0]);
      EntriesKeptKeeps(Apply(s, run[0]), run[1..]);
    }
  }

  lemma {:induction false} CalmRunKeeps(s: State, run: seq<Step>)
    requires Inv(s) && Valid(s, run) && CalmRun(run) && AsyncOnce(s)
    ensures AsyncOnce(Exec(s, run))
    decreases |run|
  {
    if run != [] {
      var a := run[0];
      assert Calm(a);
      StepKeeps(s, a);
      if MovesRight(a) { MovingStepKeepsOnce(s, a); } else { OtherStepKeepsOnce(s, a); }
      CalmRunKeeps(Apply(s, a), run[1..]);
    }
  }

  lemma CalmKeepsEntries(run: seq<Step>)
    requires CalmRun(run)
    ensures EntriesKept(run)
  {
    forall i | 0 <= i < |run| ensures KeepsEntries(run[i]) {
      assert Calm(run[i]);
    }
  }

  /** While no entry is lost, whatever is redelivered: at most one gRPC handler holds a
      saga's claim, and at most one gRPC send for it returns nil. */
  lemma CallsAreBounded(cascade: bool, run: seq<Step>, x: SagaId, t: Tid, r: Tid)
    requires Valid(Init(cascade), run) && EntriesKept(run)
    ensures var s := Exec(Init(cascade), run);
            && (t in s.threads && r in s.threads && Holds(s.threads[t], x) && Holds(s.threads[r], x) ==> t == r)
            && s.hist.grpcOk[x] <= 1
            && (s.hist.grpcOk[x] == 1 ==> x in s.hist.claimed && x !in s.hist.markedFirst)
  {
    var s := Exec(Init(cascade), run);
    EntriesKeptKeeps(Init(cascade), run);
    assert s.hist.grpcOk[x] > 0 ==> Claims(s, InLog, x);
    if t in s.threads && r in s.threads && Holds(s.threads[t], x) && Holds(s.threads[r], x) {
      assert Claims(s, AtThread(t), x) && Claims(s, AtThread(r), x);
    }
  }

  /** In a calm run at most one gRPC handler holds a saga's claim, each path sends
      at most one e-mail for it, and two e-mails in all need a successful TryClaim
      that no Mark of the command handler preceded. */
  lemma EmailsAreBounded(cascade: bool, run: seq<Step>, x: SagaId, t: Tid, r: Tid)
    requires Valid(Init(cascade), run) && CalmRun(run)
    ensures var s := Exec(Init(cascade), run);
            && (t in s.threads && r in s.threads && Holds(s.threads[t], x) && Holds(s.threads[r], x) ==> t == r)
            && s.hist.asyncOk[x] <= 1 && s.hist.grpcOk[x] <= 1
            && s.hist.asyncOk[x] + s.hist.grpcOk[x] <= 2
            && (s.hist.asyncOk[x] + s.hist.grpcOk[x] == 2 ==> x in s.hist.claimed && x !in s.hist.markedFirst)
  {
    InitInv(cascade);
    CalmRunKeeps(Init(cascade), run);
    CalmKeepsEntries(run);
    CallsAreBounded(cascade, run, x, t, r);
  }

  /** While no entry is lost, a gRPC call for a saga that was not mailed is answered OK
      without sending exactly when another handler holds the saga's claim. */
  lemma AnsweredUnsentIffHeld(cascade: bool, run: seq<Step>, t: Tid)
    requires Valid(Init(cascade), run) && EntriesKept(run)
    requires var s := Exec(Init(cascade), run);
             t in s.threads && s.threads[t].GrpcClaim? && s.threads[t].saga !in s.hist.mailed
    ensures var s := Exec(Init(cascade), run); var x := s.threads[t].saga;
            && (x in s.dedupe <==> exists r :: r in s.threads && Holds(s.threads[r], x))
            && (DoClaim(s, t).threads[t] == GrpcReply(x, true) <==>
                exists r :: r in s.threads && Holds(s.threads[r], x))
  {
    var s := Exec(Init(cascade), run);
    var x := s.threads[t].saga;
    InitInv(cascade);
    RunKeeps(Init(cascade), run);
    EntriesKeptKeeps(Init(cascade), run);
    forall r | r in s.threads && Holds(s.threads[r], x) ensures x in s.dedupe {
      assert Claims(s, AtThread(r), x);
    }
  }
}
