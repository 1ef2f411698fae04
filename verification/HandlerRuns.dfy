/** The remaining handlers, taken alone, are runs of the protocol's threads with the
    same tables and results. */
module HandlerRuns {
  import opened Domain
  import opened Store
  import opened Queues
  import opened Protocol
  import opened Runs
  import opened Orchestration
  import Notifier
  import D = DedupeCache

  // ------------------------------------------------------------ reply handler

  lemma HandleSentIsARun(s: State, t: Tid, f: Fault)
    requires t in s.threads && s.threads[t].SentMark?
    ensures var pc, run := s.threads[t], [App(MarkSent(t, f))];
            && Valid(s, run) && Exec(s, run).db == Sent(s.db, pc.saga, f).db
            && Exec(s, run).threads ==
                 s.threads[t := ReplySettle(pc.tag, pc.msg, pc.event, VerdictOf(Sent(s.db, pc.saga, f).ok))]
            && Exec(s, run).hist.resolvedBy == ResolvedSagas(s, pc.saga, Sent(s.db, pc.saga, f).ok)
  {
    assert AppApply(s, MarkSent(t, f)) == DoMarkSent(s, t, f);
    OneStepRun(s, App(MarkSent(t, f)));
  }

  // ------------------------------------------------------------------ publish

  predicate SparesQueues(a: Step) {
    a.App? && !a.app.TakeReply? && !a.app.SettleReply? && !a.app.SendCommand?
  }

  lemma StepKeepsQueues(s: State, a: AppStep)
    requires AppEnabled(s, a) && SparesQueues(App(a))
    ensures AppApply(s, a).events == s.events && AppApply(s, a).commands == s.commands
  {
  }

  lemma {:induction false} RunKeepsQueues(s: State, run: seq<Step>)
    requires Valid(s, run) && forall a :: a in run ==> SparesQueues(a)
    ensures Exec(s, run).events == s.events && Exec(s, run).commands == s.commands
    decreases |run|
  {
    if run != [] {
      assert SparesQueues(run[0]);
      StepKeepsQueues(s, run[0].app);
      RunKeepsQueues(Apply(s, run[0]), run[1..]);
    }
  }

  function PublishRun(db: Db, x: SagaId, t: Tid, m: MsgId, send: Fault, f: FailFaults): seq<Step> {
    [App(SendCommand(t, m, send))] + (if send.Works? then [] else FailRun(db, x, t, f))
  }

  /** The commands once a publish has ended: sent, or not. */
  function CommandsAfter(s: State, pc: Pc, m: MsgId, send: Fault): Queue<Command>
    requires pc.PublishCommand? && m !in s.commands.bodies
  {
    if send.Fails? then s.commands else Publish(s.commands, m, SendConfirmation(pc.saga, pc.payload))
  }

  lemma SendFailsOver(s: State, t: Tid, m: MsgId, send: Fault) returns (s1: State)
    requires t in s.threads && s.threads[t].PublishCommand? && m !in s.commands.bodies && !send.Works?
    ensures Enabled(s, App(SendCommand(t, m, send))) && Apply(s, App(SendCommand(t, m, send))) == s1
    ensures s1.db == s.db && s1.threads == s.threads[t := FailGet(s.threads[t].saga, FromPublish)]
    ensures s1.commands == CommandsAfter(s, s.threads[t], m, send)
  {
    s1 := DoSendCommand(s, t, m, send);
    assert AppApply(s, SendCommand(t, m, send)) == s1;
  }

  lemma PublishFailsRun(s: State, t: Tid, m: MsgId, send: Fault, f: FailFaults)
    requires t in s.threads && s.threads[t].PublishCommand? && m !in s.commands.bodies && !send.Works?
    ensures var x := s.threads[t].saga; var run := PublishRun(s.db, x, t, m, send, f);
            && Valid(s, run) && Exec(s, run).db == Published(s.db, x, send, f).db
            && Exec(s, run).threads == s.threads - {t}
            && Exec(s, run).commands == CommandsAfter(s, s.threads[t], m, send)
  {
    var x := s.threads[t].saga;
    var s1 := SendFailsOver(s, t, m, send);
    HandleFailedIsARun(s1, t, f);
    RunKeepsQueues(s1, FailRun(s.db, x, t, f));
    OneStep(s, App(SendCommand(t, m, send)), FailRun(s.db, x, t, f));
    assert s1.threads - {t} == s.threads - {t};
  }

  lemma PublishIsARun(s: State, t: Tid, m: MsgId, send: Fault, f: FailFaults)
    requires t in s.threads && s.threads[t].PublishCommand? && m !in s.commands.bodies
    ensures var x := s.threads[t].saga; var run := PublishRun(s.db, x, t, m, send, f);
            && Valid(s, run) && Exec(s, run).db == Published(s.db, x, send, f).db
            && Exec(s, run).threads == s.threads - {t}
            && Exec(s, run).commands == CommandsAfter(s, s.threads[t], m, send)
  {
    if send.Works? {
      var a := App(SendCommand(t, m, send));
      assert AppApply(s, a.app) == DoSendCommand(s, t, m, send);
      OneStepRun(s, a);
      assert PublishRun(s.db, s.threads[t].saga, t, m, send, f) == [a];
    } else {
      PublishFailsRun(s, t, m, send, f);
    }
  }

  // ----------------------------------------------------------------- gRPC call

  /** A call finds an entry, or claims and sends, or claims, fails and releases. */
  function CallRun(r: Tid, found: bool, send: Fault): seq<Step> {
    [Notify(ClaimSaga(r))]
    + (if found then [] else [Notify(SendClaimed(r, send))] + (if send.Works? then [] else [Notify(ReleaseClaim(r))]))
  }

  /** What a call taken alone leaves: OK for an entry or a send that returned nil. */
  ghost predicate Called(s: State, r: Tid, send: Fault, s': State)
    requires r in s.threads && s.threads[r].GrpcClaim?
  {
    var x, p := s.threads[r].saga, s.threads[r].payload;
    var found := x in s.dedupe;
    && s'.db == s.db && s'.threads == s.threads[r := GrpcReply(x, found || send.Works?)]
    && s'.dedupe == (if found || !send.Works? then s.dedupe else s.dedupe + {x})
    && s'.hist.mail == (if found || send.Fails? then s.hist.mail else s.hist.mail + {Mail(x, p)})
    && s'.hist.resolvedBy == s.hist.resolvedBy
    && s'.hist.claimed == (if found then s.hist.claimed else s.hist.claimed + {x})
    && s'.hist.grpcOk == (if found || !send.Works? then s.hist.grpcOk else s.hist.grpcOk + multiset{x})
    && s'.hist.suppressed == (if found && x !in s.hist.mailed then s.hist.suppressed + {x} else s.hist.suppressed)
  }

  lemma FoundRun(s: State, r: Tid, send: Fault)
    requires r in s.threads && s.threads[r].GrpcClaim? && s.threads[r].saga in s.dedupe
    ensures Valid(s, CallRun(r, true, send)) && Called(s, r, send, Exec(s, CallRun(r, true, send)))
  {
    assert NotifierApply(s, ClaimSaga(r)) == DoClaim(s, r);
    OneStepRun(s, Notify(ClaimSaga(r)));
    assert CallRun(r, true, send) == [Notify(ClaimSaga(r))];
  }

  lemma SentRun(s: State, r: Tid)
    requires r in s.threads && s.threads[r].GrpcClaim? && s.threads[r].saga !in s.dedupe
    ensures Valid(s, CallRun(r, false, Works)) && Called(s, r, Works, Exec(s, CallRun(r, false, Works)))
  {
    var a, b := Notify(ClaimSaga(r)), Notify(SendClaimed(r, Works));
    var s1 := DoClaim(s, r);
    var s2 := DoSendClaimed(s1, r, Works);
    assert NotifierApply(s, ClaimSaga(r)) == s1 && NotifierApply(s1, SendClaimed(r, Works)) == s2;
    OneStepRun(s1, b);
    OneStep(s, a, [b]);
    assert CallRun(r, false, Works) == [a] + [b];
  }

  lemma ReleasedRun(s: State, r: Tid, x: SagaId)
    requires r in s.threads && s.threads[r] == GrpcRelease(x)
    ensures var run := [Notify(ReleaseClaim(r))];
            && Valid(s, run)
            && Exec(s, run) == s.(dedupe := s.dedupe - {x}, threads := s.threads[r := GrpcReply(x, false)])
  {
    assert NotifierApply(s, ReleaseClaim(r)) == DoRelease(s, r);
    OneStepRun(s, Notify(ReleaseClaim(r)));
  }

  lemma UnsentRun(s: State, r: Tid, send: Fault)
    requires r in s.threads && s.threads[r].GrpcClaim? && s.threads[r].saga !in s.dedupe && !send.Works?
    ensures Valid(s, CallRun(r, false, send)) && Called(s, r, send, Exec(s, CallRun(r, false, send)))
  {
    var x := s.threads[r].saga;
    var a, b, c := Notify(ClaimSaga(r)), Notify(SendClaimed(r, send)), Notify(ReleaseClaim(r));
    var s1 := DoClaim(s, r);
    var s2 := DoSendClaimed(s1, r, send);
    assert NotifierApply(s, ClaimSaga(r)) == s1 && NotifierApply(s1, SendClaimed(r, send)) == s2;
    ReleasedRun(s2, r, x);
    OneStep(s1, b, [c]);
    OneStep(s, a, [b] + [c]);
    assert CallRun(r, false, send) == [a] + ([b] + [c]);
    assert s2.dedupe - {x} == s.dedupe;
  }

  /** One gRPC call handled alone. */
  lemma CallIsARun(s: State, r: Tid, send: Fault)
    requires r in s.threads && s.threads[r].GrpcClaim?
    ensures var run := CallRun(r, s.threads[r].saga in s.dedupe, send);
            Valid(s, run) && Called(s, r, send, Exec(s, run))
  {
    if s.threads[r].saga in s.dedupe {
      FoundRun(s, r, send);
    } else if send.Works? {
      SentRun(s, r);
    } else {
      UnsentRun(s, r, send);
    }
  }

  // ---------------------------------------------------------------- sync retry

  /** From the call on: lost, or answered OK and the saga completed. */
  function RetryTail(t: Tid, r: Tid, found: bool, rpc: bool, mark: Fault): seq<Step> {
    if !rpc then [App(CallNotifier(t, None))]
    else
      [App(CallNotifier(t, Some(r)))]
      + (CallRun(r, found, Works) + ([App(CallReturns(t, true))] + [App(MarkRetried(t, mark))]))
  }

  function RetryRun(db: Db, x: SagaId, t: Tid, r: Tid, found: bool, f: RetryFaults): seq<Step> {
    [App(GetForRetry(t, f.get))]
    + (if !f.get.Works? || !IsPending(db, x) then []
       else
         var u := db.sagas[x].sub;
         [App(LoadForRetry(t, f.load))]
         + (if !f.load.Works? || u !in db.subs || db.subs[u].repo !in db.repos then []
            else RetryTail(t, r, found, f.rpc, f.mark)))
  }

  lemma MarkRetriedRun(s: State, t: Tid, mark: Fault)
    requires t in s.threads && s.threads[t].RetryMark?
    ensures var x, sw, run := s.threads[t].saga, s.threads[t].sweep, [App(MarkRetried(t, mark))];
            && Valid(s, run) && Exec(s, run).db == Sent(s.db, x, mark).db
            && t in Exec(s, run).threads && Exec(s, run).threads[t] == RetryReturns(x, sw, Sent(s.db, x, mark).ok)
            && Exec(s, run).hist.resolvedBy == ResolvedSagas(s, x, Sent(s.db, x, mark).ok)
  {
    assert AppApply(s, MarkRetried(t, mark)) == DoMarkRetried(s, t, mark);
    OneStepRun(s, App(MarkRetried(t, mark)));
  }

  lemma AnswerArrives(s: State, t: Tid) returns (s1: State)
    requires t in s.threads && s.threads[t].RetryAwait? && s.threads[t].rpc in s.threads
             && s.threads[s.threads[t].rpc] == GrpcReply(s.threads[t].saga, true)
    ensures Enabled(s, App(CallReturns(t, true))) && Apply(s, App(CallReturns(t, true))) == s1
    ensures s1 == s.(threads := s.threads[t := RetryMark(s.threads[t].saga, s.threads[t].sweep)])
  {
    s1 := DoCallReturns(s, t, true);
    assert AppApply(s, CallReturns(t, true)) == s1;
  }

  lemma AnsweredRun(s: State, t: Tid, r: Tid, x: SagaId, sw: Sweep, mark: Fault)
    requires t in s.threads && s.threads[t] == RetryAwait(x, r, sw) && r in s.threads
             && s.threads[r] == GrpcReply(x, true)
    ensures var run := [App(CallReturns(t, true))] + [App(MarkRetried(t, mark))];
            && Valid(s, run) && Exec(s, run).db == Sent(s.db, x, mark).db
            && t in Exec(s, run).threads && Exec(s, run).threads[t] == RetryReturns(x, sw, Sent(s.db, x, mark).ok)
            && Exec(s, run).hist.resolvedBy == ResolvedSagas(s, x, Sent(s.db, x, mark).ok)
  {
    var s1 := AnswerArrives(s, t);
    MarkRetriedRun(s1, t, mark);
    OneStep(s, App(CallReturns(t, true)), [App(MarkRetried(t, mark))]);
  }

  lemma LostTailRun(s: State, t: Tid, r: Tid, found: bool, mark: Fault)
    requires t in s.threads && s.threads[t].RetryCall?
    ensures var pc, run := s.threads[t], RetryTail(t, r, found, false, mark);
            && Valid(s, run) && Exec(s, run).db == s.db
            && Exec(s, run).threads == s.threads[t := RetryReturns(pc.saga, pc.sweep, false)]
            && Exec(s, run).hist == s.hist
  {
    assert AppApply(s, CallNotifier(t, None)) == DoCallNotifier(s, t, None);
    OneStepRun(s, App(CallNotifier(t, None)));
  }

  lemma CallArrives(s: State, t: Tid, r: Tid) returns (s1: State)
    requires t in s.threads && s.threads[t].RetryCall? && r !in s.threads
    ensures Enabled(s, App(CallNotifier(t, Some(r)))) && Apply(s, App(CallNotifier(t, Some(r)))) == s1
    ensures var pc := s.threads[t];
            s1 == s.(threads := s.threads[r := GrpcClaim(pc.saga, pc.payload)][t := RetryAwait(pc.saga, r, pc.sweep)])
  {
    s1 := DoCallNotifier(s, t, Some(r));
    assert AppApply(s, CallNotifier(t, Some(r))) == s1;
  }

  lemma AnsweredTailRun(s: State, t: Tid, r: Tid, mark: Fault)
    requires t in s.threads && s.threads[t].RetryCall? && r !in s.threads
    ensures var pc := s.threads[t]; var run := RetryTail(t, r, pc.saga in s.dedupe, true, mark);
            && Valid(s, run) && Exec(s, run).db == Sent(s.db, pc.saga, mark).db
            && t in Exec(s, run).threads
            && Exec(s, run).threads[t] == RetryReturns(pc.saga, pc.sweep, Sent(s.db, pc.saga, mark).ok)
            && Exec(s, run).hist.resolvedBy == ResolvedSagas(s, pc.saga, Sent(s.db, pc.saga, mark).ok)
  {
    var x, sw, found := s.threads[t].saga, s.threads[t].sweep, s.threads[t].saga in s.dedupe;
    var s1 := CallArrives(s, t, r);
    var call, rest := CallRun(r, found, Works), [App(CallReturns(t, true))] + [App(MarkRetried(t, mark))];
    CallIsARun(s1, r, Works);
    var s2 := Exec(s1, call);
    AnsweredRun(s2, t, r, x, sw, mark);
    RunsJoin(s1, call, rest);
    OneStep(s, App(CallNotifier(t, Some(r))), call + rest);
  }

  lemma LoadRun(s: State, t: Tid, r: Tid, f: RetryFaults)
    requires t in s.threads && s.threads[t].RetryLoad? && r !in s.threads
    ensures var pc := s.threads[t]; var u := pc.sub;
            var lost := !f.load.Works? || u !in s.db.subs || s.db.subs[u].repo !in s.db.repos;
            var run := [App(LoadForRetry(t, f.load))]
                + (if lost then [] else RetryTail(t, r, pc.saga in s.dedupe, f.rpc, f.mark));
            var result := if lost || !f.rpc then Result(s.db, false) else Sent(s.db, pc.saga, f.mark);
            && Valid(s, run) && Exec(s, run).db == result.db
            && t in Exec(s, run).threads && Exec(s, run).threads[t] == RetryReturns(pc.saga, pc.sweep, result.ok)
            && Exec(s, run).hist.resolvedBy == ResolvedSagas(s, pc.saga, result.ok)
  {
    var pc, a := s.threads[t], App(LoadForRetry(t, f.load));
    var lost := !f.load.Works? || pc.sub !in s.db.subs || s.db.subs[pc.sub].repo !in s.db.repos;
    var s1 := DoLoadForRetry(s, t, f.load);
    assert AppApply(s, LoadForRetry(t, f.load)) == s1;
    if lost {
      OneStepRun(s, a);
      assert [a] + [] == [a];
    } else {
      if f.rpc { AnsweredTailRun(s1, t, r, f.mark); } else { LostTailRun(s1, t, r, pc.saga in s.dedupe, f.mark); }
      OneStep(s, a, RetryTail(t, r, pc.saga in s.dedupe, f.rpc, f.mark));
    }
  }

  /** AttemptSyncRetry taken alone; a call that is answered OK is one that found an
      entry or sent. */
  lemma AttemptSyncRetryIsARun(s: State, t: Tid, r: Tid, f: RetryFaults)
    requires t in s.threads && s.threads[t].RetryGet? && r !in s.threads
    ensures var x, sw := s.threads[t].saga, s.threads[t].sweep;
            var run := RetryRun(s.db, x, t, r, x in s.dedupe, f);
            && Valid(s, run) && Exec(s, run).db == Retried(s.db, x, f).db
            && t in Exec(s, run).threads && Exec(s, run).threads[t] == RetryReturns(x, sw, Retried(s.db, x, f).ok)
            && Exec(s, run).hist.resolvedBy == ResolvedSagas(s, x, Retried(s.db, x, f).ok)
  {
    var x, a := s.threads[t].saga, App(GetForRetry(t, f.get));
    var s1 := DoGetForRetry(s, t, f.get);
    assert AppApply(s, GetForRetry(t, f.get)) == s1;
    if !f.get.Works? || !IsPending(s.db, x) {
      OneStepRun(s, a);
      assert [a] + [] == [a];
    } else {
      LoadRun(s1, t, r, f);
      OneStep(s, a, RetryRun(s.db, x, t, r, x in s.dedupe, f)[1..]);
    }
  }

  // --------------------------------------------------------------------- sweep

  /** Steps of `t`, of a handler its calls start, and of nobody else. */
  ghost predicate TakenBy(run: seq<Step>, t: Tid, others: set<Tid>) {
    forall a :: a in run ==> (a.App? && a.app.t == t) || (a.Notify? && a.notify.t !in others)
  }

  lemma NewTid(used: set<Tid>) returns (r: Tid)
    ensures r !in used
  {
    var ids := set t | t in used :: t as nat;
    var n := Above(ids);
    forall t | t in used ensures t as int < n {
      assert t as nat in ids;
    }
    r := n as Tid;
  }

  lemma RetryRunTakenBy(db: Db, x: SagaId, t: Tid, r: Tid, found: bool, f: RetryFaults, others: set<Tid>)
    requires r !in others
    ensures TakenBy(RetryRun(db, x, t, r, found, f), t, others)
  {
    assert TakenBy(CallRun(r, found, Works), t, others);
    assert TakenBy(RetryTail(t, r, found, f.rpc, f.mark), t, others);
  }

  lemma FailRunTakenBy(db: Db, x: SagaId, t: Tid, f: FailFaults, others: set<Tid>)
    ensures TakenBy(FailRun(db, x, t, f), t, others)
  {
  }

  lemma NextIsVisited(s: State, t: Tid) returns (s1: State)
    requires t in s.threads && s.threads[t].SweepLoop? && s.threads[t].sweep.todo != []
    ensures Enabled(s, App(NextStuck(t, false))) && Apply(s, App(NextStuck(t, false))) == s1 && s1.db == s.db
    ensures var sw := s.threads[t].sweep;
            s1.threads == s.threads[t := RetryGet(sw.todo[0], sw.(todo := sw.todo[1..]))]
  {
    s1 := DoNextStuck(s, t, false);
    assert AppApply(s, NextStuck(t, false)) == s1;
  }

  /** The retry, and the compensation after a retry that failed. */
  lemma RetryThenFail(s: State, t: Tid, v: Visit, others: set<Tid>) returns (run: seq<Step>)
    requires t in s.threads && s.threads[t].RetryGet?
    ensures Valid(s, run) && TakenBy(run, t, others) && Exec(s, run).db == Visited(s.db, s.threads[t].saga, v)
    ensures t in Exec(s, run).threads && Exec(s, run).threads[t].SweepLoop?
            && Exec(s, run).threads[t].sweep.todo == s.threads[t].sweep.todo
  {
    var x, sw := s.threads[t].saga, s.threads[t].sweep;
    var r := NewTid(s.threads.Keys + others);
    run := RetryRun(s.db, x, t, r, x in s.dedupe, v.retry);
    AttemptSyncRetryIsARun(s, t, r, v.retry);
    RetryRunTakenBy(s.db, x, t, r, x in s.dedupe, v.retry, others);
    if !Retried(s.db, x, v.retry).ok {
      var s1 := Exec(s, run);
      var more := FailRun(s1.db, x, t, v.fail);
      HandleFailedIsARun(s1, t, v.fail);
      FailRunTakenBy(s1.db, x, t, v.fail, others);
      RunsJoin(s, run, more);
      run := run + more;
    }
  }

  lemma VisitIsARun(s: State, t: Tid, v: Visit, others: set<Tid>) returns (run: seq<Step>)
    requires t in s.threads && s.threads[t].SweepLoop? && s.threads[t].sweep.todo != []
    ensures Valid(s, run) && TakenBy(run, t, others)
    ensures Exec(s, run).db == Visited(s.db, s.threads[t].sweep.todo[0], v)
    ensures t in Exec(s, run).threads && Exec(s, run).threads[t].SweepLoop?
            && Exec(s, run).threads[t].sweep.todo == s.threads[t].sweep.todo[1..]
  {
    var s1 := NextIsVisited(s, t);
    var rest := RetryThenFail(s1, t, v, others);
    OneStep(s, App(NextStuck(t, false)), rest);
    run := [App(NextStuck(t, false))] + rest;
  }

  lemma SweepStops(s: State, t: Tid, cancelled: bool) returns (run: seq<Step>)
    requires t in s.threads && s.threads[t].SweepLoop? && (s.threads[t].sweep.todo == [] || cancelled)
    ensures Valid(s, run) && Exec(s, run).db == s.db && run == [App(NextStuck(t, cancelled))]
    ensures if s.threads[t].sweep.todo == []
            then t in Exec(s, run).threads && Exec(s, run).threads[t].SweepDone?
            else t !in Exec(s, run).threads
  {
    run := [App(NextStuck(t, cancelled))];
    assert AppApply(s, NextStuck(t, cancelled)) == DoNextStuck(s, t, cancelled);
    OneStepRun(s, App(NextStuck(t, cancelled)));
  }

  ghost predicate Interrupted(visits: seq<Visit>) {
    exists i :: 0 <= i < |visits| && visits[i].cancelled
  }

  lemma InterruptedLater(visits: seq<Visit>)
    requires visits != [] && !visits[0].cancelled
    ensures Interrupted(visits) <==> Interrupted(visits[1..])
  {
    if Interrupted(visits) {
      var i :| 0 <= i < |visits| && visits[i].cancelled;
      assert visits[1..][i - 1].cancelled;
    }
  }

  /** A sweep's loop taken alone: for every list, with any faults and wherever it is
      cancelled, a run of the sweeper's thread and the calls it makes that leaves the
      tables the method leaves, and has visited everything unless cancelled. */
  lemma {:induction false} SweepIsARun(s: State, t: Tid, visits: seq<Visit>, others: set<Tid>)
    returns (run: seq<Step>)
    requires t in s.threads && s.threads[t].SweepLoop? && |visits| == |s.threads[t].sweep.todo|
    ensures Valid(s, run) && TakenBy(run, t, others)
    ensures Exec(s, run).db == Swept(s.db, s.threads[t].sweep.todo, visits)
    ensures if Interrupted(visits) then t !in Exec(s, run).threads
            else t in Exec(s, run).threads && Exec(s, run).threads[t].SweepDone?
    decreases |visits|
  {
    if visits == [] || visits[0].cancelled {
      run := SweepStops(s, t, visits != []);
    } else {
      run := VisitIsARun(s, t, visits[0], others);
      var more := SweepIsARun(Exec(s, run), t, visits[1..], others);
      InterruptedLater(visits);
      RunsJoin(s, run, more);
      run := run + more;
    }
  }

  lemma SweepStarts(s: State, t: Tid, timeout: nat) returns (s1: State)
    requires t !in s.threads
    ensures Enabled(s, App(StartSweep(t, timeout))) && Apply(s, App(StartSweep(t, timeout))) == s1
    ensures s1 == s.(threads := s.threads[t := SweepFetch(s.clock - timeout)])
  {
    s1 := Put(s, t, SweepFetch(s.clock - timeout));
    assert AppApply(s, StartSweep(t, timeout)) == s1;
  }

  lemma SweepFetches(s: State, t: Tid, todo: seq<SagaId>, f: Fault)
    requires t in s.threads && s.threads[t].SweepFetch? && ListsStuck(s.db, s.threads[t].threshold, todo)
    ensures var run, sw := [App(FetchStuck(t, todo, f))], Sweep(todo, s.threads[t].threshold, s.hist.births.Keys, true);
            && Valid(s, run) && Exec(s, run).db == s.db
            && Exec(s, run).threads == if f.Works? then s.threads[t := SweepLoop(sw)] else s.threads - {t}
  {
    assert AppApply(s, FetchStuck(t, todo, f)) == DoFetchStuck(s, t, todo, f);
    OneStepRun(s, App(FetchStuck(t, todo, f)));
  }

  lemma OldAndPending(s: State, timeout: nat, todo: seq<SagaId>)
    requires ListsStuck(s.db, s.clock - timeout, todo)
    ensures forall x :: x in todo <==> IsPending(s.db, x) && s.clock - s.db.sagas[x].startedAt > timeout
  {
  }

  /** A sweep's start taken alone: it fetches exactly the pending sagas that started
      more than the timeout ago, and none if its query fails. */
  lemma FetchIsARun(s: State, t: Tid, timeout: nat, todo: seq<SagaId>, f: Fault)
    requires t !in s.threads && ListsStuck(s.db, s.clock - timeout, todo)
    ensures forall x :: x in todo <==> IsPending(s.db, x) && s.clock - s.db.sagas[x].startedAt > timeout
    ensures var run := [App(StartSweep(t, timeout))] + [App(FetchStuck(t, todo, f))];
            var sw := Sweep(todo, s.clock - timeout, s.hist.births.Keys, true);
            && Valid(s, run) && Exec(s, run).db == s.db
            && Exec(s, run).threads == if f.Works? then s.threads[t := SweepLoop(sw)] else s.threads
  {
    OldAndPending(s, timeout, todo);
    var s1 := SweepStarts(s, t, timeout);
    SweepFetches(s1, t, todo, f);
    OneStep(s, App(StartSweep(t, timeout)), [App(FetchStuck(t, todo, f))]);
    assert s1.threads - {t} == s.threads;
  }

  // ---------------------------------------------------------- reply deliveries

  function DeliveryOf(e: Event): ReplyDelivery {
    match e
    case ConfirmationSent(x) => SentReply(Some(x))
    case ConfirmationFailed(x) => FailedReply(Some(x))
    case JunkEvent => UnknownReply
  }

  function HandlerRun(db: Db, e: Event, t: Tid, sent: Fault, fail: FailFaults): seq<Step> {
    match e
    case ConfirmationSent(_) => [App(MarkSent(t, sent))]
    case ConfirmationFailed(x) => FailRun(db, x, t, fail)
    case JunkEvent => []
  }

  lemma HandlerRunKeepsEvents(s: State, db: Db, e: Event, t: Tid, sent: Fault, fail: FailFaults)
    requires Valid(s, HandlerRun(db, e, t, sent, fail))
    ensures Exec(s, HandlerRun(db, e, t, sent, fail)).events == s.events
  {
    RunKeepsQueues(s, HandlerRun(db, e, t, sent, fail));
  }

  /** The settlement a delivery gets. */
  function ReplyVerdict(db: Db, d: ReplyDelivery, sent: Fault, fail: FailFaults): Verdict {
    if !Understood(d) then DeadLetter else if Replied(db, d, sent, fail).ok then Ack else Requeue
  }

  lemma ReplyIsTaken(s: State, t: Tid, tag: Tag, m: MsgId) returns (s1: State)
    requires t !in s.threads && m in s.events.ready && m in s.events.bodies && tag !in s.events.tags
    ensures Enabled(s, App(TakeReply(t, tag, m))) && Apply(s, App(TakeReply(t, tag, m))) == s1
    ensures s1.db == s.db && s1.events == Deliver(s.events, m, tag) && t in s1.threads
    ensures s1.threads - {t} == s.threads
    ensures var e := s.events.bodies[m];
            s1.threads[t] == match e
                             case ConfirmationSent(x) => SentMark(x, tag, m, e)
                             case ConfirmationFailed(x) => FailGet(x, FromReply(tag, m, e))
                             case JunkEvent => ReplySettle(tag, m, e, DeadLetter)
  {
    s1 := DoTakeReply(s, t, tag, m);
    assert AppApply(s, TakeReply(t, tag, m)) == s1;
  }

  lemma ReplyIsSettled(s: State, t: Tid) returns (s1: State)
    requires t in s.threads && s.threads[t].ReplySettle? && s.events.unsettled <= s.events.tags.Keys
    ensures Valid(s, [App(SettleReply(t))]) && Exec(s, [App(SettleReply(t))]) == s1
    ensures s1.db == s.db && s1.threads == s.threads - {t}
    ensures s1.events == Settle(s.events, s.threads[t].tag, s.threads[t].verdict)
  {
    s1 := DoSettleReply(s, t);
    assert AppApply(s, SettleReply(t)) == s1;
    OneStepRun(s, App(SettleReply(t)));
  }

  lemma FailedReplyIsHandled(s: State, t: Tid, tag: Tag, m: MsgId, e: Event, fail: FailFaults)
    requires t in s.threads && e.ConfirmationFailed? && s.threads[t] == FailGet(e.saga, FromReply(tag, m, e))
    ensures var run := FailRun(s.db, e.saga, t, fail); var r := Failed(s.db, e.saga, fail);
            && Valid(s, run) && Exec(s, run).db == r.db
            && Exec(s, run).threads == s.threads[t := ReplySettle(tag, m, e, VerdictOf(r.ok))]
  {
    HandleFailedIsARun(s, t, fail);
  }

  /** What the handler of a taken reply leaves: the method's tables, and the verdict
      still to be carried out. */
  lemma ReplyIsHandled(s: State, t: Tid, tag: Tag, m: MsgId, e: Event, sent: Fault, fail: FailFaults)
    requires t in s.threads
    requires s.threads[t] == match e
                             case ConfirmationSent(x) => SentMark(x, tag, m, e)
                             case ConfirmationFailed(x) => FailGet(x, FromReply(tag, m, e))
                             case JunkEvent => ReplySettle(tag, m, e, DeadLetter)
    ensures var run := HandlerRun(s.db, e, t, sent, fail); var d := DeliveryOf(e);
            && Valid(s, run) && Exec(s, run).db == Replied(s.db, d, sent, fail).db && Exec(s, run).events == s.events
            && Exec(s, run).threads == s.threads[t := ReplySettle(tag, m, e, ReplyVerdict(s.db, d, sent, fail))]
  {
    match e {
      case ConfirmationSent(_) => HandleSentIsARun(s, t, sent);
      case ConfirmationFailed(_) => FailedReplyIsHandled(s, t, tag, m, e, fail);
      case JunkEvent =>
    }
    HandlerRunKeepsEvents(s, s.db, e, t, sent, fail);
  }

  /** One delivery of a reply handled alone: taken, handled, settled. The run ends
      with the tables and the settlement `RepliesConsumer.Handle` ends with, and no
      other thread moved. */
  lemma HandleIsARun(s: State, t: Tid, tag: Tag, m: MsgId, sent: Fault, fail: FailFaults)
    requires t !in s.threads && m in s.events.ready && m in s.events.bodies && tag !in s.events.tags
    requires s.events.unsettled <= s.events.tags.Keys
    ensures var e := s.events.bodies[m]; var d := DeliveryOf(e);
            var run := [App(TakeReply(t, tag, m))] + (HandlerRun(s.db, e, t, sent, fail) + [App(SettleReply(t))]);
            && Valid(s, run) && Exec(s, run).db == Replied(s.db, d, sent, fail).db
            && Exec(s, run).events == Settle(Deliver(s.events, m, tag), tag, ReplyVerdict(s.db, d, sent, fail))
            && Exec(s, run).threads == s.threads
  {
    var e := s.events.bodies[m];
    var handling := HandlerRun(s.db, e, t, sent, fail);
    var s1 := ReplyIsTaken(s, t, tag, m);
    ReplyIsHandled(s1, t, tag, m, e, sent, fail);
    var s2 := Exec(s1, handling);
    var s3 := ReplyIsSettled(s2, t);
    RunsJoin(s1, handling, [App(SettleReply(t))]);
    OneStep(s, App(TakeReply(t, tag, m)), handling + [App(SettleReply(t))]);
    assert s2.threads - {t} == s1.threads - {t};
  }

  // -------------------------------------------------------- command deliveries

  function CommandRun(t: Tid, tag: Tag, m: MsgId, c: Command, send: Fault, env: nat -> Notifier.Attempt,
                      ids: nat -> MsgId, k: nat): seq<Step> {
    [Notify(TakeCommand(t, tag, m))]
    + (if c.JunkCommand? then [Notify(SettleCommand(t))] else Notifier.DispatchRun(t, send, env, ids, k))
  }

  lemma CommandIsTaken(s: State, t: Tid, tag: Tag, m: MsgId) returns (s1: State)
    requires t !in s.threads && m in s.commands.ready && m in s.commands.bodies && tag !in s.commands.tags
    ensures Enabled(s, Notify(TakeCommand(t, tag, m))) && Apply(s, Notify(TakeCommand(t, tag, m))) == s1
    ensures s1 == s.(commands := Deliver(s.commands, m, tag), threads := s1.threads)
    ensures t in s1.threads && s1.threads - {t} == s.threads
    ensures s1.threads[t] == match s.commands.bodies[m]
                             case SendConfirmation(x, p) => WorkerSend(tag, m, x, p)
                             case JunkCommand => WorkerSettle(tag, DeadLetter)
  {
    s1 := DoTakeCommand(s, t, tag, m);
    assert NotifierApply(s, TakeCommand(t, tag, m)) == s1;
  }

  lemma CommandIsSettled(s: State, t: Tid)
    requires t in s.threads && s.threads[t].WorkerSettle? && s.commands.unsettled <= s.commands.tags.Keys
    ensures Valid(s, [Notify(SettleCommand(t))])
    ensures Exec(s, [Notify(SettleCommand(t))]) ==
            s.(commands := Settle(s.commands, s.threads[t].tag, s.threads[t].verdict), threads := s.threads - {t})
  {
    assert NotifierApply(s, SettleCommand(t)) == DoSettleCommand(s, t);
    OneStepRun(s, Notify(SettleCommand(t)));
  }

  /** What one delivery of a command leaves, replies aside: an unreadable one is
      dead-lettered and does nothing; any other is acked, mailed unless the send
      failed, and marked exactly if the send returned nil. */
  ghost predicate CommandDone(s: State, tag: Tag, m: MsgId, send: Fault, s': State)
    requires m in s.commands.ready && m in s.commands.bodies && tag !in s.commands.tags
    requires s.commands.unsettled <= s.commands.tags.Keys
  {
    s'.threads == s.threads && s'.db == s.db &&
    match s.commands.bodies[m]
    case JunkCommand =>
      && s'.commands == Settle(Deliver(s.commands, m, tag), tag, DeadLetter)
      && s'.events == s.events && s'.dedupe == s.dedupe && s'.hist == s.hist
    case SendConfirmation(x, p) =>
      && s'.commands == Settle(Deliver(s.commands, m, tag), tag, Ack)
      && s'.dedupe == s.dedupe + (if send.Works? then {x} else {})
      && s'.hist.mail == s.hist.mail + (if send.Fails? then {} else {Mail(x, p)})
  }

  /** One delivery of a command handled alone: taken, dispatched and settled. */
  lemma CommandIsARun(s: State, t: Tid, tag: Tag, m: MsgId, send: Fault, env: nat -> Notifier.Attempt,
                      ids: nat -> MsgId, k: nat)
    requires t !in s.threads && m in s.commands.ready && m in s.commands.bodies && tag !in s.commands.tags
    requires s.commands.unsettled <= s.commands.tags.Keys
    requires Notifier.Attempts(env, REPLY_PUBLISH_ATTEMPTS, k) && Notifier.FreshIds(s, ids, 0, k)
    ensures var run := CommandRun(t, tag, m, s.commands.bodies[m], send, env, ids, k);
            Valid(s, run) && CommandDone(s, tag, m, send, Exec(s, run))
  {
    var s1 := CommandIsTaken(s, t, tag, m);
    if s.commands.bodies[m].JunkCommand? {
      CommandIsSettled(s1, t);
      OneStep(s, Notify(TakeCommand(t, tag, m)), [Notify(SettleCommand(t))]);
    } else {
      Notifier.DispatchIsARun(s1, t, send, env, ids, k);
      OneStep(s, Notify(TakeCommand(t, tag, m)), Notifier.DispatchRun(t, send, env, ids, k));
    }
  }

  // --------------------------------------------- the gRPC method and the protocol

  lemma {:induction false} DropsAreARun(s: State, lost: set<SagaId>) returns (run: seq<Step>)
    ensures Valid(s, run) && Exec(s, run) == s.(dedupe := s.dedupe - lost)
    ensures forall a :: a in run ==> a.World? && a.world.DropEntry? && a.world.saga in lost
    decreases |lost|
  {
    if lost == {} {
      run := [];
      assert s.dedupe - lost == s.dedupe;
    } else {
      var x :| x in lost;
      var s1 := Apply(s, World(DropEntry(x)));
      var rest := DropsAreARun(s1, lost - {x});
      OneStep(s, World(DropEntry(x)), rest);
      run := [World(DropEntry(x))] + rest;
      assert s.dedupe - {x} - (lost - {x}) == s.dedupe - lost;
    }
  }

  lemma KeysAfterInsert(k: set<SagaId>, k1: set<SagaId>, x: SagaId)
    requires x in k1 && k1 <= k + {x}
    ensures k1 == k - ((k - k1) + {x}) + {x} && k1 - {x} == k - ((k - k1) + {x})
  {
  }

  lemma InsertedKeys(e: D.Entries, e1: D.Entries, x: SagaId, max: int, ttl: int, cutoff: int, stamp: int)
    requires D.Inserts(e, e1, x, max, ttl, cutoff, stamp)
    ensures x in e1.Keys && e1.Keys <= e.Keys + {x}
  {
    D.InsertsKeepOthers(e, e1, x, max, ttl, cutoff, stamp);
  }

  lemma FailedInsert(e: D.Entries, x: SagaId, send: Fault, check: int, cutoff: int, stamp: int, max: int, ttl: int,
                     e': D.Entries) returns (keys: set<SagaId>)
    requires Notifier.Serves(e, x, send, check, cutoff, stamp, max, ttl, e', Notifier.SendFailed)
    ensures x in keys && keys <= e.Keys + {x} && e'.Keys == keys - {x} && !send.Works?
  {
    var e1 :| D.Inserts(e, e1, x, max, ttl, cutoff, stamp) && e' == e1 - {x};
    InsertedKeys(e, e1, x, max, ttl, cutoff, stamp);
    keys := e1.Keys;
  }

  /** The keys a call loses before it acts: those it evicts, and the expired entry of
      its own saga. */
  lemma KeysAroundACall(e: D.Entries, x: SagaId, send: Fault, check: int, cutoff: int, stamp: int, max: int, ttl: int,
                        e': D.Entries, o: Notifier.Outcome) returns (lost: set<SagaId>)
    requires Notifier.Serves(e, x, send, check, cutoff, stamp, max, ttl, e', o)
    ensures o.AlreadySent? <==> x in e.Keys - lost
    ensures !o.AlreadySent? ==> (send.Works? <==> o.SentNow?)
    ensures e'.Keys == e.Keys - lost + (if o.SentNow? then {x} else {})
  {
    if o.AlreadySent? {
      lost := {};
    } else {
      var keys := e'.Keys;
      if o.SentNow? {
        InsertedKeys(e, e', x, max, ttl, cutoff, stamp);
      } else {
        keys := FailedInsert(e, x, send, check, cutoff, stamp, max, ttl, e');
      }
      lost := (e.Keys - keys) + {x};
      KeysAfterInsert(e.Keys, keys, x);
    }
  }

  /** What a call taken alone leaves, by how it came out. */
  ghost predicate Answered(s: State, r: Tid, x: SagaId, p: Payload, live: bool, send: Fault, s': State) {
    && s'.db == s.db && s'.threads == s.threads[r := GrpcReply(x, live || send.Works?)]
    && s'.hist.mail == s.hist.mail + (if live || send.Fails? then {} else {Mail(x, p)})
  }

  lemma CallAnswers(s: State, r: Tid, live: bool, send: Fault)
    requires r in s.threads && s.threads[r].GrpcClaim? && (live <==> s.threads[r].saga in s.dedupe)
    ensures var x, run := s.threads[r].saga, CallRun(r, live, send);
            && Valid(s, run) && Answered(s, r, x, s.threads[r].payload, live, send, Exec(s, run))
            && Exec(s, run).dedupe == s.dedupe + if !live && send.Works? then {x} else {}
  {
    CallIsARun(s, r, send);
  }

  /** The gRPC method on the cache's entries is the protocol's call on their keys:
      from any state whose dedupe set is the keys before it, a run that loses the
      entries the method evicts and then handles the call ends with the keys the
      method leaves, the answer it gives, and the e-mail it made. */
  lemma ServerIsARun(s: State, r: Tid, e: D.Entries, send: Fault, check: int, cutoff: int, stamp: int, max: int,
                     ttl: int, e': D.Entries, o: Notifier.Outcome) returns (drops: seq<Step>)
    requires r in s.threads && s.threads[r].GrpcClaim? && s.dedupe == e.Keys
    requires Notifier.Serves(e, s.threads[r].saga, send, check, cutoff, stamp, max, ttl, e', o)
    ensures forall a :: a in drops ==> a.World? && a.world.DropEntry?
    ensures var live := D.Live(e, s.threads[r].saga, check, ttl);
            var run := drops + CallRun(r, live, send);
            && Valid(s, run) && Exec(s, run).dedupe == e'.Keys
            && Answered(s, r, s.threads[r].saga, s.threads[r].payload, live, send, Exec(s, run))
  {
    var lost := KeysAroundACall(e, s.threads[r].saga, send, check, cutoff, stamp, max, ttl, e', o);
    drops := DropsAreARun(s, lost);
    var s1 := Exec(s, drops);
    CallAnswers(s1, r, o.AlreadySent?, send);
    RunsJoin(s, drops, CallRun(r, o.AlreadySent?, send));
  }
}
