/** When a saga whose e-mail the command handler has sent can get a second one. */
module SecondMail {
  import opened Domain
  import opened Store
  import opened Queues
  import opened Protocol
  import opened Invariants
  import opened Steps
  import opened Runs
  import opened SweepProgress
  import opened EmailBound
  import opened CalmRuns

  /** There is an entry for the saga, and it is nobody's claim. */
  ghost predicate Covered(s: State, x: SagaId) {
    x in s.dedupe && forall t :: t in s.threads ==> !Holds(s.threads[t], x)
  }

  /** However it goes on, the gRPC path sends nothing for the saga. */
  ghost predicate NeverSentByCall(s: State, x: SagaId) {
    forall s' :: Leads(s, s') ==> s'.hist.grpcOk[x] == 0
  }

  // ------------------------------------------------------- covered stays so

  lemma ClaimKeepsCover(s: State, t: Tid, x: SagaId)
    requires t in s.threads && s.threads[t].GrpcClaim? && Covered(s, x)
    ensures Covered(DoClaim(s, t), x) && DoClaim(s, t).hist.grpcOk == s.hist.grpcOk
  {
  }

  lemma SendKeepsCover(s: State, t: Tid, f: Fault, x: SagaId)
    requires t in s.threads && s.threads[t].GrpcSend? && Covered(s, x)
    ensures Covered(DoSendClaimed(s, t, f), x) && DoSendClaimed(s, t, f).hist.grpcOk[x] == s.hist.grpcOk[x]
  {
    assert !Holds(s.threads[t], x);
  }

  lemma ReleaseKeepsCover(s: State, t: Tid, x: SagaId)
    requires t in s.threads && s.threads[t].GrpcRelease? && Covered(s, x)
    ensures Covered(DoRelease(s, t), x) && DoRelease(s, t).hist.grpcOk == s.hist.grpcOk
  {
    assert !Holds(s.threads[t], x);
  }

  lemma MarkKeepsCover(s: State, t: Tid, x: SagaId)
    requires t in s.threads && s.threads[t].WorkerMark? && Covered(s, x)
    ensures Covered(DoMarkSaga(s, t), x) && DoMarkSaga(s, t).hist.grpcOk == s.hist.grpcOk
  {
  }

  lemma OtherStepKeepsCover(s: State, a: Step, x: SagaId)
    requires Enabled(s, a) && KeepsEntries(a) && !TouchesClaims(a) && Covered(s, x)
    ensures Covered(Apply(s, a), x) && Apply(s, a).hist.grpcOk[x] == s.hist.grpcOk[x]
  {
    OtherStepLeavesClaims(s, a);
    forall t | t in Apply(s, a).threads ensures !Holds(Apply(s, a).threads[t], x) {
      assert Claims(Apply(s, a), AtThread(t), x) ==> Claims(s, AtThread(t), x);
    }
  }

  lemma StepKeepsCover(s: State, a: Step, x: SagaId)
    requires Enabled(s, a) && KeepsEntries(a) && Covered(s, x)
    ensures Covered(Apply(s, a), x) && Apply(s, a).hist.grpcOk[x] == s.hist.grpcOk[x]
  {
    if TouchesClaims(a) {
      match a.notify {
        case ClaimSaga(t) => ClaimKeepsCover(s, t, x);
        case SendClaimed(t, f) => SendKeepsCover(s, t, f, x);
        case ReleaseClaim(t) => ReleaseKeepsCover(s, t, x);
        case MarkSaga(t) => MarkKeepsCover(s, t, x);
      }
    } else {
      OtherStepKeepsCover(s, a, x);
    }
  }

  lemma {:induction false} RunKeepsCover(s: State, run: seq<Step>, x: SagaId)
    requires Valid(s, run) && CalmRun(run) && Covered(s, x)
    ensures Covered(Exec(s, run), x) && Exec(s, run).hist.grpcOk[x] == s.hist.grpcOk[x]
    decreases |run|
  {
    if run != [] {
      assert Calm(run[0]);
      StepKeepsCover(s, run[0], x);
      RunKeepsCover(Apply(s, run[0]), run[1..], x);
    }
  }

  // ----------------------------------------------- uncovered can be sent again

  lemma FreshThread(s: State) returns (n: nat)
    ensures forall t :: t in s.threads ==> t as int < n
  {
    var ids := set t | t in s.threads :: t as nat;
    n := Above(ids);
    forall t | t in s.threads ensures t as int < n {
      assert t as nat in ids;
    }
  }

  /** A restart of the server stops its sweep, and the clock moves past the saga's
      start time. */
  lemma Restarts(root: State, s: State, x: SagaId) returns (s': State)
    requires Leads(root, s) && x in s.db.sagas
    ensures Leads(root, s') && NoSweep(s') && s'.db == s.db && s'.dedupe == s.dedupe && s'.hist == s.hist
    ensures s.db.sagas[x].startedAt < s'.clock
  {
    var s1 := Apply(s, World(CrashApp));
    assert NoSweep(s1) && OneSweep(s1);
    LeadsStep(root, s, World(CrashApp));
    var d: nat := if s.db.sagas[x].startedAt < s.clock then 0 else s.db.sagas[x].startedAt - s.clock + 1;
    s' := Apply(s1, World(Tick(d)));
    LeadsStep(root, s1, World(Tick(d)));
  }

  lemma ClaimIsGranted(root: State, s: State, t: Tid) returns (s': State)
    requires Leads(root, s) && OneSweep(s) && t in s.threads && s.threads[t].GrpcClaim?
             && s.threads[t].saga !in s.dedupe
    ensures Leads(root, s') && OneSweep(s') && t in s'.threads
    ensures s'.hist.asyncOk == s.hist.asyncOk && s'.hist.grpcOk == s.hist.grpcOk
    ensures s'.threads[t] == GrpcSend(s.threads[t].saga, s.threads[t].payload)
  {
    s' := DoClaim(s, t);
    assert NotifierApply(s, ClaimSaga(t)) == s' && OneSweep(s');
    LeadsStep(root, s, Notify(ClaimSaga(t)));
  }

  lemma ClaimedIsSent(root: State, s: State, t: Tid) returns (s': State)
    requires Leads(root, s) && OneSweep(s) && t in s.threads && s.threads[t].GrpcSend?
    ensures Leads(root, s') && s'.hist.grpcOk[s.threads[t].saga] > 0
  {
    s' := DoSendClaimed(s, t, Works);
    assert NotifierApply(s, SendClaimed(t, Works)) == s' && OneSweep(s');
    LeadsStep(root, s, Notify(SendClaimed(t, Works)));
  }

  lemma UnmarkedIsSentAgain(root: State, s: State, x: SagaId) returns (s': State)
    requires Leads(root, s) && Deliverable(s.db, x) && x !in s.dedupe
    ensures Leads(root, s') && s'.hist.grpcOk[x] > 0
  {
    var s0 := Restarts(root, s, x);
    var n := FreshThread(s0);
    var t, rpc := n as Tid, (n + 1) as Tid;
    var s1, sw := SweepCalls(root, s0, x, t, rpc);
    LeadsToOneSweep(root, s1);
    var s2 := ClaimIsGranted(root, s1, rpc);
    s' := ClaimedIsSent(root, s2, rpc);
  }

  // --------------------------------------------- any saga, pending or not

  /** A thread on its way to a gRPC call for `x`, or in one. */
  predicate OnCall(pc: Pc, x: SagaId) {
    (pc.RetryLoad? || pc.RetryCall? || pc.GrpcClaim? || pc.GrpcSend?) && pc.saga == x
  }

  /** And able to get there: its subscription is still stored when it loads it. */
  predicate Calling(db: Db, pc: Pc, x: SagaId) {
    OnCall(pc, x) && (pc.RetryLoad? ==> pc.sub in db.subs)
  }

  predicate CallingAt(s: State, t: Tid, x: SagaId) {
    t in s.threads && Calling(s.db, s.threads[t], x)
  }

  predicate PendingAndStored(db: Db, x: SagaId) {
    IsPending(db, x) && db.sagas[x].sub in db.subs
  }

  /** No gRPC call for the saga is under way, and no sweep will make one. */
  ghost predicate Quiet(s: State, x: SagaId) {
    !PendingAndStored(s.db, x) && forall t :: !CallingAt(s, t, x)
  }

  /** A row that is pending and stored was so before. */
  lemma StoredBefore(s: State, s': State, x: SagaId)
    requires Inv(s) && Inv(s') && Evolves(s, s') && x in s.hist.births && PendingAndStored(s'.db, x)
    ensures PendingAndStored(s.db, x)
  {
    assert SagaOk(s'.db, s'.hist, x);
    assert !Resolved(s'.db, s'.hist, x) && !Gone(s'.db, s'.hist, x);
    assert !Resolved(s.db, s.hist, x) && !Gone(s.db, s.hist, x);
    assert SagaOk(s.db, s.hist, x);
  }

  /** A thread that stays where it is was able to call before, if it is now. */
  lemma CallingBefore(s: State, s': State, t: Tid, x: SagaId)
    requires Inv(s) && Evolves(s, s') && CallingAt(s', t, x) && t in s.threads && s.threads[t] == s'.threads[t]
    ensures CallingAt(s, t, x)
  {
    assert PcOk(s, s.threads[t]);
    if s.threads[t].RetryLoad? { assert !Gone(s'.db, s'.hist, x) && !Gone(s.db, s.hist, x); }
  }

  /** Where a retry step's caller comes from. */
  lemma RetriesCall(s: State, a: AppStep, t: Tid, x: SagaId) returns (q: Tid)
    requires AppEnabled(s, a) && IsRetryStep(a) && CallingAt(AppApply(s, a), t, x) && !PendingAndStored(s.db, x)
    ensures q in s.threads && ((q == t && s.threads[t] == AppApply(s, a).threads[t]) || CallingAt(s, q, x))
  {
    match a {
      case GetForRetry(r, f) => q := GetsCall(s, r, f, t, x);
      case LoadForRetry(r, f) => q := LoadsCall(s, r, f, t, x);
      case CallNotifier(r, rpc) => q := NotifiersCall(s, r, rpc, t, x);
      case CallReturns(r, ok) =>
        assert AppApply(s, a) == DoCallReturns(s, r, ok);
        q := t;
      case MarkRetried(r, f) => q := MarksCall(s, r, f, t, x);
    }
  }

  lemma GetsCall(s: State, r: Tid, f: Fault, t: Tid, x: SagaId) returns (q: Tid)
    requires r in s.threads && s.threads[r].RetryGet? && !PendingAndStored(s.db, x)
    requires CallingAt(DoGetForRetry(s, r, f), t, x)
    ensures q == t && t in s.threads && s.threads[t] == DoGetForRetry(s, r, f).threads[t]
  {
    q := t;
  }

  lemma LoadsCall(s: State, r: Tid, f: Fault, t: Tid, x: SagaId) returns (q: Tid)
    requires r in s.threads && s.threads[r].RetryLoad? && CallingAt(DoLoadForRetry(s, r, f), t, x)
    ensures q == t && t in s.threads && (s.threads[t] == DoLoadForRetry(s, r, f).threads[t] || CallingAt(s, q, x))
  {
    q := t;
  }

  lemma NotifiersCall(s: State, r: Tid, rpc: Option<Tid>, t: Tid, x: SagaId) returns (q: Tid)
    requires r in s.threads && s.threads[r].RetryCall? && CallingAt(DoCallNotifier(s, r, rpc), t, x)
    ensures q in s.threads
    ensures (q == t && s.threads[t] == DoCallNotifier(s, r, rpc).threads[t]) || CallingAt(s, q, x)
  {
    q := if rpc == Some(t) then r else t;
  }

  lemma MarksCall(s: State, r: Tid, f: Fault, t: Tid, x: SagaId) returns (q: Tid)
    requires r in s.threads && s.threads[r].RetryMark? && CallingAt(DoMarkRetried(s, r, f), t, x)
    ensures q == t && t in s.threads && s.threads[t] == DoMarkRetried(s, r, f).threads[t]
  {
    q := t;
  }

  lemma HandlersStartNoCall(s: State, a: AppStep, t: Tid, x: SagaId)
    requires AppEnabled(s, a) && IsHandlerStep(a)
    requires t in AppApply(s, a).threads && OnCall(AppApply(s, a).threads[t], x)
    ensures t in s.threads && s.threads[t] == AppApply(s, a).threads[t]
  {
  }

  lemma AppStepsStartNoCall(s: State, a: AppStep, t: Tid, x: SagaId)
    requires AppEnabled(s, a) && !IsHandlerStep(a) && !IsRetryStep(a)
    requires t in AppApply(s, a).threads && OnCall(AppApply(s, a).threads[t], x)
    ensures t in s.threads && s.threads[t] == AppApply(s, a).threads[t]
  {
  }

  lemma NotifierStepsCall(s: State, a: NotifierStep, t: Tid, x: SagaId)
    requires NotifierEnabled(s, a) && CallingAt(NotifierApply(s, a), t, x)
    ensures t in s.threads && (s.threads[t] == NotifierApply(s, a).threads[t] || CallingAt(s, t, x))
  {
  }

  /** Whoever can call after a step, somebody could before it. */
  lemma StepCalls(s: State, a: Step, t: Tid, x: SagaId) returns (q: Tid)
    requires Inv(s) && Enabled(s, a) && Evolves(s, Apply(s, a)) && CallingAt(Apply(s, a), t, x)
    requires !PendingAndStored(s.db, x)
    ensures CallingAt(s, q, x)
  {
    q := t;
    match a {
      case App(b) =>
        if IsRetryStep(b) {
          q := RetriesCall(s, b, t, x);
        } else if IsHandlerStep(b) {
          HandlersStartNoCall(s, b, t, x);
        } else {
          AppStepsStartNoCall(s, b, t, x);
        }
      case Notify(b) => NotifierStepsCall(s, b, t, x);
      case World(_) =>
    }
    if !CallingAt(s, q, x) { CallingBefore(s, Apply(s, a), t, x); }
  }

  lemma AppStepsSendNothing(s: State, a: AppStep)
    requires AppEnabled(s, a)
    ensures AppApply(s, a).hist.grpcOk == s.hist.grpcOk
  {
    if IsRetryStep(a) {
      RetriesLeaveClaims(s, a);
    } else if IsHandlerStep(a) {
      HandlersLeaveClaims(s, a);
    } else {
      AppStepsLeaveClaims(s, a);
    }
  }

  lemma NotifierStepsSend(s: State, a: NotifierStep, x: SagaId)
    requires NotifierEnabled(s, a) && !CallingAt(s, a.t, x)
    ensures NotifierApply(s, a).hist.grpcOk[x] == s.hist.grpcOk[x]
  {
  }

  lemma StepKeepsQuiet(s: State, a: Step, x: SagaId)
    requires Inv(s) && Enabled(s, a) && x in s.hist.births && Quiet(s, x)
    ensures Quiet(Apply(s, a), x) && Apply(s, a).hist.grpcOk[x] == s.hist.grpcOk[x]
  {
    var s' := Apply(s, a);
    StepKeeps(s, a);
    if PendingAndStored(s'.db, x) { StoredBefore(s, s', x); }
    forall t ensures !CallingAt(s', t, x) {
      if CallingAt(s', t, x) {
        var q := StepCalls(s, a, t, x);
      }
    }
    match a {
      case App(b) => AppStepsSendNothing(s, b);
      case Notify(b) => NotifierStepsSend(s, b, x);
      case World(_) =>
    }
  }

  lemma {:induction false} RunKeepsQuiet(s: State, run: seq<Step>, x: SagaId)
    requires Inv(s) && Valid(s, run) && x in s.hist.births && Quiet(s, x)
    ensures Quiet(Exec(s, run), x) && Exec(s, run).hist.grpcOk[x] == s.hist.grpcOk[x]
    decreases |run|
  {
    if run != [] {
      StepKeeps(s, run[0]);
      StepKeepsQuiet(s, run[0], x);
      RunKeepsQuiet(Apply(s, run[0]), run[1..], x);
    }
  }

  // -------------------------------------------- a call under way can still send

  lemma LoadGoesOn(root: State, s: State, t: Tid) returns (s': State)
    requires Leads(root, s) && OneSweep(s) && t in s.threads && s.threads[t].RetryLoad?
    requires s.threads[t].sub in s.db.subs && s.db.subs[s.threads[t].sub].repo in s.db.repos
    ensures Leads(root, s') && OneSweep(s') && s'.dedupe == s.dedupe
    ensures t in s'.threads && s'.threads[t].RetryCall? && s'.threads[t].saga == s.threads[t].saga
  {
    s' := DoLoadForRetry(s, t, Works);
    assert AppApply(s, LoadForRetry(t, Works)) == s' && OneSweep(s');
    LeadsStep(root, s, App(LoadForRetry(t, Works)));
  }

  lemma CallKeepsOneSweep(s: State, t: Tid, r: Tid)
    requires OneSweep(s) && t in s.threads && s.threads[t].RetryCall? && r !in s.threads
    ensures OneSweep(DoCallNotifier(s, t, Some(r)))
  {
  }

  lemma CallGoesOn(root: State, s: State, t: Tid) returns (s': State, r: Tid)
    requires Leads(root, s) && OneSweep(s) && t in s.threads && s.threads[t].RetryCall?
    ensures Leads(root, s') && OneSweep(s') && s'.dedupe == s.dedupe
    ensures r in s'.threads && s'.threads[r].GrpcClaim? && s'.threads[r].saga == s.threads[t].saga
  {
    var n := FreshThread(s);
    r := n as Tid;
    s' := DoCallNotifier(s, t, Some(r));
    CallKeepsOneSweep(s, t, r);
    assert AppApply(s, CallNotifier(t, Some(r))) == s';
    LeadsStep(root, s, App(CallNotifier(t, Some(r))));
  }

  lemma CallSends(root: State, s: State, x: SagaId, t: Tid) returns (s': State)
    requires Leads(root, s) && OneSweep(s) && Inv(s) && CallingAt(s, t, x) && x !in s.dedupe
    ensures Leads(root, s') && s'.hist.grpcOk[x] > 0
  {
    var s1, r := s, t;
    if s1.threads[r].RetryLoad? {
      LoadableRepo(s, t);
      s1 := LoadGoesOn(root, s1, r);
    }
    if s1.threads[r].RetryCall? {
      s1, r := CallGoesOn(root, s1, r);
    }
    if s1.threads[r].GrpcClaim? {
      s1 := ClaimIsGranted(root, s1, r);
    }
    s' := ClaimedIsSent(root, s1, r);
  }

  lemma LoadableRepo(s: State, t: Tid)
    requires Inv(s) && t in s.threads && s.threads[t].RetryLoad? && s.threads[t].sub in s.db.subs
    ensures s.db.subs[s.threads[t].sub].repo in s.db.repos
  {
    assert SubOk(s.db, s.hist, s.threads[t].sub);
  }

  /** A holder that has failed lets the entry go, and nothing else changes. */
  lemma HolderReleases(root: State, s: State, x: SagaId, r: Tid) returns (s': State)
    requires Leads(root, s) && OneSweep(s) && r in s.threads && s.threads[r] == GrpcRelease(x)
    ensures Leads(root, s') && OneSweep(s') && x !in s'.dedupe && s'.db == s.db
    ensures forall t :: CallingAt(s, t, x) ==> CallingAt(s', t, x)
  {
    s' := DoRelease(s, r);
    assert NotifierApply(s, ReleaseClaim(r)) == s' && OneSweep(s');
    LeadsStep(root, s, Notify(ReleaseClaim(r)));
  }

  lemma FreeIsSent(root: State, s: State, cascade: bool, x: SagaId) returns (s': State)
    requires Leads(root, s) && CalmlyReachable(s, cascade) && x !in s.dedupe && !Quiet(s, x)
    ensures Leads(root, s') && s'.hist.grpcOk[x] > 0
  {
    CalmIsReachable(s, cascade);
    ReachableInv(s, cascade);
    if PendingAndStored(s.db, x) {
      DeliverableIfStored(s, cascade, x);
      s' := UnmarkedIsSentAgain(root, s, x);
    } else {
      var t :| CallingAt(s, t, x);
      LeadsToOneSweep(root, s);
      s' := CallSends(root, s, x, t);
    }
  }

  // --------------------------------------------------------- the exact condition

  lemma DeliverableIfStored(s: State, cascade: bool, x: SagaId)
    requires CalmlyReachable(s, cascade) && IsPending(s.db, x) && s.db.sagas[x].sub in s.db.subs
    ensures Deliverable(s.db, x)
  {
    CalmIsReachable(s, cascade);
    ReachableInv(s, cascade);
    assert SagaOk(s.db, s.hist, x) && SubOk(s.db, s.hist, s.db.sagas[x].sub);
  }

  lemma LeadsOn(cascade: bool, s: State, s': State)
    requires CalmlyReachable(s, cascade) && Leads(s, s')
    ensures CalmlyReachable(s', cascade)
  {
    var run :| Valid(Init(cascade), run) && CalmRun(run) && OneSweepRun(Init(cascade), run)
               && Exec(Init(cascade), run) == s;
    var more :| Valid(s, more) && CalmRun(more) && OneSweepRun(s, more) && Exec(s, more) == s';
    RunsJoin(Init(cascade), run, more);
    OneSweepRunsJoin(Init(cascade), run, more);
    assert CalmRun(run + more);
  }

  lemma SentUnlessCoveredOrQuiet(s: State, cascade: bool, x: SagaId) returns (s': State)
    requires CalmlyReachable(s, cascade) && !Covered(s, x) && !Quiet(s, x)
    ensures Leads(s, s') && s'.hist.grpcOk[x] > 0
  {
    LeadsToOneSweep(Init(cascade), s);
    LeadsSelf(s);
    if x !in s.dedupe {
      s' := FreeIsSent(s, s, cascade, x);
    } else {
      var t :| t in s.threads && Holds(s.threads[t], x);
      if s.threads[t].GrpcSend? {
        s' := ClaimedIsSent(s, s, t);
      } else {
        var s1 := HolderReleases(s, s, x, t);
        LeadsOn(cascade, s, s1);
        s' := FreeIsSent(s, s1, cascade, x);
      }
    }
  }

  /** For any saga whose e-mail the command handler has sent and the gRPC path has not,
      pending or not: no continuation without redelivery, lost entries or a notifier
      restart sends a second one exactly when there is an entry that no gRPC handler
      holds as its claim, or no call for it is under way or still to be made. */
  lemma NoSecondMailIffCoveredOrQuiet(s: State, cascade: bool, x: SagaId)
    requires CalmlyReachable(s, cascade) && s.hist.asyncOk[x] == 1 && s.hist.grpcOk[x] == 0
    ensures NeverSentByCall(s, x) <==> Covered(s, x) || Quiet(s, x)
  {
    if Covered(s, x) || Quiet(s, x) {
      SentIsBorn(s, cascade, x);
      forall s' | Leads(s, s') ensures s'.hist.grpcOk[x] == 0 {
        var run :| Valid(s, run) && CalmRun(run) && OneSweepRun(s, run) && Exec(s, run) == s';
        if Covered(s, x) { RunKeepsCover(s, run, x); } else { RunKeepsQuiet(s, run, x); }
      }
    } else {
      var s' := SentUnlessCoveredOrQuiet(s, cascade, x);
    }
  }

  lemma SentIsBorn(s: State, cascade: bool, x: SagaId)
    requires CalmlyReachable(s, cascade) && s.hist.asyncOk[x] > 0
    ensures Inv(s) && x in s.hist.births
  {
    var run :| Valid(Init(cascade), run) && CalmRun(run) && OneSweepRun(Init(cascade), run)
               && Exec(Init(cascade), run) == s;
    InitInv(cascade);
    RunKeeps(Init(cascade), run);
    CalmRunKeeps(Init(cascade), run);
    assert Carries(s, InLog, x);
  }

  /** In particular, once the command handler has sent a pending saga's e-mail and the gRPC path has
      not, no continuation without redelivery, lost entries or a notifier restart
      sends a second one exactly when there is an entry for the saga that no gRPC
      handler holds as its claim. */
  lemma NoSecondMailIffCovered(s: State, cascade: bool, x: SagaId)
    requires CalmlyReachable(s, cascade) && IsPending(s.db, x) && s.db.sagas[x].sub in s.db.subs
    requires s.hist.asyncOk[x] == 1 && s.hist.grpcOk[x] == 0
    ensures NeverSentByCall(s, x) <==> Covered(s, x)
  {
    NoSecondMailIffCoveredOrQuiet(s, cascade, x);
    assert PendingAndStored(s.db, x);
  }
}
