/** What holds in every state of every run. */
module Runs {
  import opened Domain
  import opened Store
  import opened Queues
  import opened Protocol
  import opened Invariants
  import opened Steps

  lemma InitInv(cascade: bool)
    ensures Inv(Init(cascade))
  {
  }

  lemma {:induction false} RunKeeps(s: State, run: seq<Step>)
    requires Inv(s) && Valid(s, run)
    ensures Inv(Exec(s, run)) && Evolves(s, Exec(s, run))
    decreases |run|
  {
    if run == [] {
      GrowsSelf(s.db, s.hist);
      ExtendsSelf(s.commands);
      ExtendsSelf(s.events);
    } else {
      var s1 := Apply(s, run[0]);
      StepKeeps(s, run[0]);
      RunKeeps(s1, run[1..]);
      EvolvesTransitive(s, s1, Exec(s, run));
    }
  }

  /** A run followed by another is a run. */
  lemma {:induction false} RunsJoin(s: State, run: seq<Step>, more: seq<Step>)
    requires Valid(s, run) && Valid(Exec(s, run), more)
    ensures Valid(s, run + more) && Exec(s, run + more) == Exec(Exec(s, run), more)
    decreases |run|
  {
    if run == [] {
      assert run + more == more;
    } else {
      assert (run + more)[0] == run[0] && (run + more)[1..] == run[1..] + more;
      RunsJoin(Apply(s, run[0]), run[1..], more);
    }
  }

  /** A state some run from the empty system leads to. */
  ghost predicate Reachable(s: State, cascade: bool) {
    exists run :: Valid(Init(cascade), run) && Exec(Init(cascade), run) == s
  }

  lemma ReachableInv(s: State, cascade: bool)
    requires Reachable(s, cascade)
    ensures Inv(s) && s.db.cascade == cascade
  {
    var run :| Valid(Init(cascade), run) && Exec(Init(cascade), run) == s;
    InitInv(cascade);
    RunKeeps(Init(cascade), run);
  }

  // --------------------------------------------------------- no phantom rows

  predicate SagaOf(db: Db, u: SubId, x: SagaId) {
    x in db.sagas && db.sagas[x].sub == u
  }

  /** Every stored subscription has one saga row, and the sweeper sees it or it is
      completed and its answer is accounted for. */
  ghost predicate NoPhantom(s: State) {
    forall u :: u in s.db.subs ==>
      exists x :: SagaOf(s.db, u, x)
        && (forall y :: SagaOf(s.db, u, y) ==> y == x)
        && (s.db.sagas[x].state.Pending? || (s.db.sagas[x].state.Completed? && Told(s.hist, x)))
  }

  /** Every reachable state, in either store, under every interleaving and fault. */
  lemma NoPhantomSubscription(s: State, cascade: bool)
    requires Reachable(s, cascade)
    ensures NoPhantom(s)
  {
    ReachableInv(s, cascade);
    forall u | u in s.db.subs
      ensures exists x :: SagaOf(s.db, u, x) && (forall y :: SagaOf(s.db, u, y) ==> y == x)
                && (s.db.sagas[x].state.Pending? || (s.db.sagas[x].state.Completed? && Told(s.hist, x)))
    {
      var x := s.hist.owner[u];
      assert SubOk(s.db, s.hist, u) && SagaOk(s.db, s.hist, x);
      assert SagaOf(s.db, u, x);
      forall y | SagaOf(s.db, u, y) ensures y == x {
        assert SagaOk(s.db, s.hist, y);
      }
    }
  }

  /** At most one gRPC handler per saga is in flight. */
  ghost predicate OneCallEach(s: State) {
    forall t, r, x ::
      t in s.threads && r in s.threads && InFlight(s.threads[t], x) && InFlight(s.threads[r], x) ==> t == r
  }

  ghost predicate OneCallEachRun(s: State, run: seq<Step>)
    requires Valid(s, run)
    decreases |run|
  {
    OneCallEach(s) && (run != [] ==> OneCallEachRun(Apply(s, run[0]), run[1..]))
  }

  /** A call answered OK without a delivery found another call holding the claim. */
  lemma SuppressionNeedsTwoCalls(s: State, t: Tid)
    requires Inv(s) && t in s.threads && s.threads[t].GrpcClaim?
    requires DoClaim(s, t).hist.suppressed != s.hist.suppressed
    ensures exists r :: r in s.threads && r != t && Holds(s.threads[r], s.threads[t].saga)
  {
    var x := s.threads[t].saga;
    assert x in s.dedupe && x !in s.hist.mailed;
    var r :| r in s.threads && Holds(s.threads[r], x);
    assert r != t;
  }

  lemma AppStepsSuppressNothing(s: State, a: AppStep)
    requires AppEnabled(s, a)
    ensures AppApply(s, a).hist.suppressed == s.hist.suppressed
  {
  }

  lemma SuppressedByClaimOnly(s: State, a: Step)
    requires Enabled(s, a)
    ensures Apply(s, a).hist.suppressed != s.hist.suppressed ==>
              a.Notify? && a.notify.ClaimSaga? && Apply(s, a) == DoClaim(s, a.notify.t)
  {
    if a.App? { AppStepsSuppressNothing(s, a.app); }
  }

  lemma SuppressionOverlaps(s: State, t: Tid)
    requires Inv(s) && t in s.threads && s.threads[t].GrpcClaim?
    requires DoClaim(s, t).hist.suppressed != s.hist.suppressed
    ensures !OneCallEach(s)
  {
    SuppressionNeedsTwoCalls(s, t);
    var x := s.threads[t].saga;
    var r :| r in s.threads && r != t && Holds(s.threads[r], x);
    assert InFlight(s.threads[r], x) && InFlight(s.threads[t], x);
  }

  lemma OneCallStep(s: State, a: Step)
    requires Inv(s) && Enabled(s, a) && OneCallEach(s)
    ensures Apply(s, a).hist.suppressed == s.hist.suppressed
  {
    SuppressedByClaimOnly(s, a);
    if Apply(s, a).hist.suppressed != s.hist.suppressed { SuppressionOverlaps(s, a.notify.t); }
  }

  lemma {:induction false} OneCallSuppressesNothing(s: State, run: seq<Step>)
    requires Inv(s) && Valid(s, run) && OneCallEachRun(s, run) && s.hist.suppressed == {}
    ensures Exec(s, run).hist.suppressed == {}
    decreases |run|
  {
    if run != [] {
      StepKeeps(s, run[0]);
      OneCallStep(s, run[0]);
      OneCallSuppressesNothing(Apply(s, run[0]), run[1..]);
    }
  }

  /** If no two gRPC handlers of one saga ever overlap, a completed saga's
      confirmation e-mail was delivered, with the recipient, repository and token
      that were stored for it. */
  lemma CompletedWasMailed(cascade: bool, run: seq<Step>, x: SagaId)
    requires Valid(Init(cascade), run) && OneCallEachRun(Init(cascade), run)
    requires x in Exec(Init(cascade), run).db.sagas && Exec(Init(cascade), run).db.sagas[x].state.Completed?
    ensures var s := Exec(Init(cascade), run);
            x in s.hist.births && Mail(x, PayloadOf(s.hist.births[x])) in s.hist.mail
  {
    var s := Exec(Init(cascade), run);
    InitInv(cascade);
    RunKeeps(Init(cascade), run);
    OneCallSuppressesNothing(Init(cascade), run);
    assert SagaOk(s.db, s.hist, x);
  }

  /** No phantom subscription: when no two gRPC handlers of one saga ever overlap,
      every stored subscription has exactly one saga row, which is pending, so the
      sweeper sees it, or completed with its e-mail delivered. */
  lemma NoPhantomUnlessMailed(cascade: bool, run: seq<Step>, u: SubId)
    requires Valid(Init(cascade), run) && OneCallEachRun(Init(cascade), run)
    requires u in Exec(Init(cascade), run).db.subs
    ensures var s := Exec(Init(cascade), run);
            exists x :: SagaOf(s.db, u, x)
              && (forall y :: SagaOf(s.db, u, y) ==> y == x)
              && (s.db.sagas[x].state.Pending? || (s.db.sagas[x].state.Completed? && x in s.hist.mailed))
  {
    var s := Exec(Init(cascade), run);
    NoPhantomSubscription(s, cascade);
    InitInv(cascade);
    OneCallSuppressesNothing(Init(cascade), run);
  }

  // ----------------------------------------------------------- saga histories

  /** A saga makes at most one terminal transition; a terminal row never changes
      state; a row that is gone stays gone; with the shipped foreign key a stored
      row is always pending or completed, and in neither store is it timed out. */
  lemma SagaHistory(s: State, cascade: bool, more: seq<Step>, x: SagaId)
    requires Reachable(s, cascade) && Valid(s, more)
    ensures var s' := Exec(s, more);
            && s'.hist.flips[x] <= 1
            && (x in s.db.sagas && x in s'.db.sagas && !s.db.sagas[x].state.Pending? ==>
                  s'.db.sagas[x].state == s.db.sagas[x].state)
            && (x in s.hist.births && x !in s.db.sagas ==> x !in s'.db.sagas)
            && (x in s'.db.sagas ==> !s'.db.sagas[x].state.TimedOut?)
            && (cascade && x in s'.db.sagas ==> s'.db.sagas[x].state.Pending? || s'.db.sagas[x].state.Completed?)
  {
    ReachableInv(s, cascade);
    RunKeeps(s, more);
    var s' := Exec(s, more);
    if x in s'.db.sagas { assert SagaOk(s'.db, s'.hist, x); }
    assert x in s'.hist.flips || s'.hist.flips[x] == 0;
  }

  /** A compensated saga's subscription is not stored, then or ever after. */
  lemma CompensatedIsGone(s: State, cascade: bool, more: seq<Step>, x: SagaId)
    requires Reachable(s, cascade) && Valid(s, more)
    requires x in s.db.sagas && s.db.sagas[x].state.Compensated?
    ensures s.db.sagas[x].sub !in Exec(s, more).db.subs
  {
    ReachableInv(s, cascade);
    RunKeeps(s, more);
    assert SagaOk(s.db, s.hist, x);
    assert Gone(s.db, s.hist, x);
    assert Gone(Exec(s, more).db, Exec(s, more).hist, x);
  }

  /** A reply of a known kind about `x` was acked. */
  predicate IsAckedReply(s: State, m: MsgId, x: SagaId) {
    && m in s.events.acked && m in s.events.bodies
    && !s.events.bodies[m].JunkEvent? && s.events.bodies[m].saga == x
  }

  /** Once HandleSent, HandleFailed or AttemptSyncRetry has returned nil, and once a
      reply of a known kind is acked, its saga has no pending row, for good. */
  lemma ResolutionIsPermanent(s: State, cascade: bool, more: seq<Step>, x: SagaId)
    requires Reachable(s, cascade) && Valid(s, more)
    requires x in s.hist.resolvedBy || exists m :: IsAckedReply(s, m, x)
    ensures !IsPending(s.db, x) && !IsPending(Exec(s, more).db, x)
  {
    ReachableInv(s, cascade);
    RunKeeps(s, more);
    if x !in s.hist.resolvedBy {
      var m :| IsAckedReply(s, m, x);
      assert Answered(s, s.events.bodies[m]);
    }
    assert Resolved(s.db, s.hist, x);
    assert Resolved(Exec(s, more).db, Exec(s, more).hist, x);
  }

  /** A crash of the server ends its threads and no other; a crash of the notifier
      ends the notifier's and empties the dedupe set. Tables and queues survive, and
      a delivery that was open is handed back by being ready again. */
  lemma WhatACrashLoses(s: State, t: Tid, tag: Tag)
    requires Conserved(s.commands) && Conserved(s.events)
    ensures var a := Apply(s, World(CrashApp)); var n := Apply(s, World(CrashNotifier));
            && a == s.(threads := a.threads) && n == s.(threads := n.threads, dedupe := {})
            && (t in a.threads <==> t in s.threads && IsNotifier(s.threads[t]))
            && (t in n.threads <==> t in s.threads && !IsNotifier(s.threads[t]))
            && (t in a.threads ==> a.threads[t] == s.threads[t])
            && (t in n.threads ==> n.threads[t] == s.threads[t])
    ensures tag in s.commands.unsettled ==>
              At(Apply(s, World(RedeliverCommand(tag))).commands, s.commands.tags[tag], Ready)
    ensures tag in s.events.unsettled ==>
              At(Apply(s, World(RedeliverEvent(tag))).events, s.events.tags[tag], Ready)
  {
    SettleConserves(s.commands, tag, Requeue);
    SettleConserves(s.events, tag, Requeue);
  }

  // --------------------------------------------------- dedupe and the queues

  /** An entry belongs to a saga whose e-mail was delivered or whose claim a gRPC
      handler still holds, whatever was evicted, released or lost before. */
  lemma NoFalseSuppression(s: State, cascade: bool, x: SagaId)
    requires Reachable(s, cascade) && x in s.dedupe
    ensures x in s.hist.mailed || exists t :: t in s.threads && Holds(s.threads[t], x)
  {
    ReachableInv(s, cascade);
  }

  /** Every routed message is in exactly one place of its queue, acked and
      dead-lettered messages stay so, and a message that is acked as a reply was
      routed as one. */
  lemma MessagesAreConserved(s: State, cascade: bool, more: seq<Step>)
    requires Reachable(s, cascade) && Valid(s, more)
    ensures Conserved(s.commands) && Conserved(s.events)
    ensures Extends(s.commands, Exec(s, more).commands) && Extends(s.events, Exec(s, more).events)
  {
    ReachableInv(s, cascade);
    RunKeeps(s, more);
  }

  lemma SendsPayload(s: State, t: Tid)
    requires ThreadsOk(s) && t in s.threads
    requires s.threads[t].WorkerSend? || s.threads[t].GrpcClaim? || s.threads[t].GrpcSend?
    ensures PayloadOk(s, s.threads[t].saga, s.threads[t].payload)
  {
    assert PcOk(s, s.threads[t]);
  }

  /** The command handler and the gRPC handler send the stored recipient,
      repository and token of the saga they serve, so the two agree. */
  lemma BothPathsSendTheSame(s: State, cascade: bool, t: Tid, r: Tid)
    requires Reachable(s, cascade) && t in s.threads && r in s.threads
    requires s.threads[t].WorkerSend? && (s.threads[r].GrpcClaim? || s.threads[r].GrpcSend?)
    requires s.threads[t].saga == s.threads[r].saga
    ensures s.threads[t].payload == s.threads[r].payload
    ensures PayloadOk(s, s.threads[t].saga, s.threads[t].payload)
  {
    ReachableInv(s, cascade);
    SendsPayload(s, t);
    SendsPayload(s, r);
  }
}
