/** Concrete runs showing which stronger statements fail. */
module Witnesses {
  import opened Domain
  import opened Store
  import opened Queues
  import opened Protocol
  import opened Invariants
  import opened Runs
  import opened SweepProgress
  import opened Survival
  import opened EmailBound
  import opened CalmRuns
  import opened SecondMail

  lemma ReachInit(cascade: bool)
    ensures CalmlyReachable(Init(cascade), cascade)
  {
    LeadsSelf(Init(cascade));
  }

  lemma ReachStep(s: State, cascade: bool, a: Step)
    requires CalmlyReachable(s, cascade) && Enabled(s, a) && Calm(a) && OneSweep(Apply(s, a))
    ensures CalmlyReachable(Apply(s, a), cascade)
  {
    LeadsStep(Init(cascade), s, a);
  }

  const REQUEST: Tid := 0
  const WORKER: Tid := 1
  const REPLY: Tid := 2
  const X := SagaId(0)
  const U := SubId(0)
  const P := Payload(Address(0), RepoName(0), Token(0))

  /** The subscription and its pending saga, as written at time 0. */
  predicate Stored(s: State) {
    && s.db.repos == map[RepoId(0) := RepoName(0)]
    && s.db.sagas == map[X := SagaRow(U, Pending, 0)]
    && s.db.subs == map[U := SubRow(RepoId(0), Address(0), false, Token(0), Token(1))]
    && s.hist.births.Keys == {X}
  }

  lemma Checking(cascade: bool) returns (s: State)
    ensures CalmlyReachable(s, cascade)
    ensures s.threads == map[REQUEST := SubscribeDraw(Address(0), RepoName(0), RepoId(0))] && s.clock == 0
    ensures s.db == Db(cascade, map[RepoId(0) := RepoName(0)], map[], map[])
    ensures s.dedupe == {} && s.events == Empty() && s.commands == Empty() && s.hist == Init(cascade).hist
  {
    s := Init(cascade);
    ReachInit(cascade);
    var a := App(GetOrCreateRepo(REQUEST, Address(0), RepoName(0), RepoId(0), Works));
    ReachStep(s, cascade, a);
    s := Apply(s, a);
    a := App(CheckExists(REQUEST, Works));
    ReachStep(s, cascade, a);
    s := Apply(s, a);
  }

  lemma Inserting(cascade: bool) returns (s: State)
    ensures CalmlyReachable(s, cascade) && Stored(s) && s.db.cascade == cascade
    ensures s.threads == map[REQUEST := PublishCommand(X, P)] && s.clock == 0
    ensures s.dedupe == {} && s.events == Empty() && s.commands == Empty()
    ensures s.hist.mailed == {} && s.hist.asyncOk == multiset{} && s.hist.grpcOk == multiset{}
  {
    s := Checking(cascade);
    var a := App(DrawStart(REQUEST));
    ReachStep(s, cascade, a);
    s := Apply(s, a);
    a := App(CreateWithSaga(REQUEST, U, X, Token(0), Token(1), Works));
    ReachStep(s, cascade, a);
    s := Apply(s, a);
  }

  // --------------------------------- a completed subscription that is deleted

  /** The publish reports an error although the command was accepted, so the inline
      compensation reads the saga as pending. */
  lemma PublishedAndFailing(cascade: bool) returns (s: State)
    ensures CalmlyReachable(s, cascade) && Stored(s)
    ensures s.threads == map[REQUEST := FailDelete(X, U, FromPublish)]
    ensures s.commands.ready == {0} && s.commands.bodies == map[0 := SendConfirmation(X, P)] && s.commands.tags == map[]
    ensures s.dedupe == {} && s.events == Empty()
  {
    s := Inserting(cascade);
    var a := App(SendCommand(REQUEST, 0, FailsAfterEffect));
    ReachStep(s, cascade, a);
    s := Apply(s, a);
    a := App(GetForFail(REQUEST, Works));
    ReachStep(s, cascade, a);
    s := Apply(s, a);
  }

  lemma MailedWhileFailing(cascade: bool) returns (s: State)
    ensures CalmlyReachable(s, cascade) && Stored(s)
    ensures s.threads == map[REQUEST := FailDelete(X, U, FromPublish), WORKER := WorkerMark(0, 0, X)]
    ensures s.dedupe == {} && s.events == Empty()
  {
    s := PublishedAndFailing(cascade);
    var a := Notify(TakeCommand(WORKER, 0, 0));
    ReachStep(s, cascade, a);
    s := Apply(s, a);
    a := Notify(SendMail(WORKER, Works));
    ReachStep(s, cascade, a);
    s := Apply(s, a);
  }

  lemma RepliedWhileFailing(cascade: bool) returns (s: State)
    ensures CalmlyReachable(s, cascade) && Stored(s)
    ensures s.threads == map[REQUEST := FailDelete(X, U, FromPublish), WORKER := WorkerSettle(0, Ack)]
    ensures s.events.ready == {0} && s.events.bodies == map[0 := ConfirmationSent(X)] && s.events.tags == map[]
  {
    var s0 := MailedWhileFailing(cascade);
    var s1 := DoMarkSaga(s0, WORKER);
    assert NotifierApply(s0, MarkSaga(WORKER)) == s1;
    ReachStep(s0, cascade, Notify(MarkSaga(WORKER)));
    s := DoPublishReply(s1, WORKER, 0, Works, false);
    assert NotifierApply(s1, PublishReply(WORKER, 0, Works, false)) == s;
    ReachStep(s1, cascade, Notify(PublishReply(WORKER, 0, Works, false)));
  }

  lemma ReplyTaken(cascade: bool) returns (s: State)
    ensures CalmlyReachable(s, cascade) && Stored(s)
    ensures s.threads == map[REQUEST := FailDelete(X, U, FromPublish), WORKER := WorkerSettle(0, Ack),
                             REPLY := SentMark(X, 0, 0, ConfirmationSent(X))]
  {
    var s0 := RepliedWhileFailing(cascade);
    s := DoTakeReply(s0, REPLY, 0, 0);
    assert AppApply(s0, TakeReply(REPLY, 0, 0)) == s;
    ReachStep(s0, cascade, App(TakeReply(REPLY, 0, 0)));
  }

  lemma CompletedWhileFailing(cascade: bool) returns (s: State)
    ensures CalmlyReachable(s, cascade) && CompletedAndStored(s, X)
    ensures REQUEST in s.threads && s.threads[REQUEST] == FailDelete(X, U, FromPublish)
  {
    var s0 := ReplyTaken(cascade);
    s := DoMarkSent(s0, REPLY, Works);
    assert s.threads == s0.threads[REPLY := ReplySettle(0, 0, ConfirmationSent(X), Ack)] && OneSweep(s);
    assert AppApply(s0, MarkSent(REPLY, Works)) == s;
    ReachStep(s0, cascade, App(MarkSent(REPLY, Works)));
  }

  /** Meanwhile the notifier handles the command and its reply completes the saga.
      The delete that was decided before then removes the subscription. */
  lemma CompletedButArmedIsReachable(cascade: bool) returns (s: State)
    ensures CalmlyReachable(s, cascade) && CompletedAndStored(s, X) && Armed(s, X) && !SurvivesAll(s, X)
  {
    s := CompletedWhileFailing(cascade);
    assert ArmedAt(s, REQUEST, X);
    CalmIsReachable(s, cascade);
    CompletedSurvivesIffUnarmed(s, cascade, X);
  }

  // -------------------------------------------------- completed without e-mail

  lemma NothingSent(cascade: bool) returns (s: State)
    ensures CalmlyReachable(s, cascade) && Stored(s) && s.clock == 1 && s.threads == map[]
    ensures s.dedupe == {} && s.hist.mailed == {} && s.db.cascade == cascade
  {
    s := Inserting(cascade);
    var a := App(SendCommand(REQUEST, 0, Fails));
    ReachStep(s, cascade, a);
    s := Apply(s, a);
    a := App(GetForFail(REQUEST, Fails));
    ReachStep(s, cascade, a);
    s := Apply(s, a);
    a := World(Tick(1));
    ReachStep(s, cascade, a);
    s := Apply(s, a);
  }

  /** A sweep whose only stuck saga is `X` reaches the notifier with its call. */
  lemma CallFor(s0: State, cascade: bool, t: Tid, rpc: Tid) returns (s: State, sw: Sweep)
    requires CalmlyReachable(s0, cascade) && Stored(s0) && s0.clock == 1 && NoSweep(s0)
    requires t !in s0.threads && rpc !in s0.threads && t != rpc
    ensures CalmlyReachable(s, cascade) && sw.todo == [] && sw.clean
    ensures s == s0.(threads := s0.threads[t := RetryAwait(X, rpc, sw)][rpc := GrpcClaim(X, P)])
  {
    assert OthersStuck(s0.db, s0.clock, X) == {};
    s, sw := SweepCalls(Init(cascade), s0, X, t, rpc);
  }

  /** The publish fails, the inline compensation fails, and a first sweep's call
      holds the claim while its mail is still on the way. */
  lemma FirstCallHoldsClaim(cascade: bool) returns (s: State, sw: Sweep)
    ensures CalmlyReachable(s, cascade) && Stored(s) && s.clock == 1 && sw.todo == [] && sw.clean
    ensures s.threads == map[10 := RetryAwait(X, 11, sw), 11 := GrpcSend(X, P)]
    ensures s.dedupe == {X} && s.hist.mailed == {} && s.db.cascade == cascade
  {
    var s0 := NothingSent(cascade);
    s, sw := CallFor(s0, cascade, 10, 11);
    var a := Notify(ClaimSaga(11));
    var s' := DoClaim(s, 11);
    assert NotifierApply(s, ClaimSaga(11)) == s';
    ReachStep(s, cascade, a);
    s := s';
  }

  /** The client's deadline passes, the compensation's read fails, and the sweep
      ends: the call goes on alone. */
  lemma FirstSweepGivesUp(cascade: bool) returns (s: State)
    ensures CalmlyReachable(s, cascade) && Stored(s) && s.clock == 1
    ensures s.threads == map[11 := GrpcSend(X, P)] && s.dedupe == {X} && s.hist.mailed == {}
  {
    var s0, sw := FirstCallHoldsClaim(cascade);
    s := SweepEnds(s0, cascade, sw);
  }

  lemma SweepIsOver(s0: State, cascade: bool, sw: Sweep) returns (s: State)
    requires CalmlyReachable(s0, cascade) && sw.todo == [] && sw.clean
    requires s0.threads == map[10 := RetryAwait(X, 11, sw), 11 := GrpcSend(X, P)]
    ensures CalmlyReachable(s, cascade)
    ensures s == s0.(threads := map[10 := SweepDone(sw.(clean := false)), 11 := GrpcSend(X, P)])
  {
    var s1 := SweepFallsThrough(s0, cascade, sw);
    var a := NextStuck(10, false);
    s := s0.(threads := map[10 := SweepDone(sw.(clean := false)), 11 := GrpcSend(X, P)]);
    assert AppApply(s1, a) == DoNextStuck(s1, 10, false) && DoNextStuck(s1, 10, false).threads == s.threads;
    ReachStep(s1, cascade, App(a));
  }

  lemma SweepEnds(s0: State, cascade: bool, sw: Sweep) returns (s: State)
    requires CalmlyReachable(s0, cascade) && sw.todo == [] && sw.clean
    requires s0.threads == map[10 := RetryAwait(X, 11, sw), 11 := GrpcSend(X, P)]
    ensures CalmlyReachable(s, cascade) && s == s0.(threads := map[11 := GrpcSend(X, P)])
  {
    var s1 := SweepIsOver(s0, cascade, sw);
    s := Exit(s1, 10);
    assert Apply(s1, World(Leave(10))) == s && s.threads == map[11 := GrpcSend(X, P)];
    ReachStep(s1, cascade, World(Leave(10)));
  }

  lemma ClientGivesUp(s0: State, cascade: bool, sw: Sweep) returns (s: State)
    requires CalmlyReachable(s0, cascade)
    requires s0.threads == map[10 := RetryAwait(X, 11, sw), 11 := GrpcSend(X, P)]
    ensures CalmlyReachable(s, cascade)
    ensures s == s0.(threads := map[10 := FailGet(X, FromSweep(sw)), 11 := GrpcSend(X, P)])
  {
    s := s0.(threads := map[10 := FailGet(X, FromSweep(sw)), 11 := GrpcSend(X, P)]);
    var a := CallReturns(10, false);
    assert AppApply(s0, a) == DoCallReturns(s0, 10, false) && DoCallReturns(s0, 10, false).threads == s.threads;
    ReachStep(s0, cascade, App(a));
  }

  lemma SweepFallsThrough(s0: State, cascade: bool, sw: Sweep) returns (s: State)
    requires CalmlyReachable(s0, cascade) && sw.todo == [] && sw.clean
    requires s0.threads == map[10 := RetryAwait(X, 11, sw), 11 := GrpcSend(X, P)]
    ensures CalmlyReachable(s, cascade)
    ensures s == s0.(threads := map[10 := SweepLoop(sw.(clean := false)), 11 := GrpcSend(X, P)])
  {
    var s1 := ClientGivesUp(s0, cascade, sw);
    s := s0.(threads := map[10 := SweepLoop(sw.(clean := false)), 11 := GrpcSend(X, P)]);
    var b := GetForFail(10, Fails);
    assert AppApply(s1, b) == DoGetForFail(s1, 10, Fails) && DoGetForFail(s1, 10, Fails).threads == s.threads;
    ReachStep(s1, cascade, App(b));
  }

  lemma SecondCallIsAnswered(cascade: bool) returns (s: State, sw: Sweep)
    ensures CalmlyReachable(s, cascade) && Stored(s) && s.hist.mailed == {}
    ensures s.threads == map[11 := GrpcSend(X, P), 20 := RetryAwait(X, 21, sw), 21 := GrpcReply(X, true)]
  {
    var s0 := FirstSweepGivesUp(cascade);
    var s1;
    s1, sw := CallFor(s0, cascade, 20, 21);
    s := DoClaim(s1, 21);
    assert s.threads == map[11 := GrpcSend(X, P), 20 := RetryAwait(X, 21, sw), 21 := GrpcReply(X, true)];
    assert NotifierApply(s1, ClaimSaga(21)) == s;
    ReachStep(s1, cascade, Notify(ClaimSaga(21)));
  }

  lemma OneSweepAfter(s0: State, s: State, t: Tid, pc: Pc)
    requires t in s0.threads && Sweeping(s0.threads[t]) && OneSweep(s0) && s.threads == s0.threads[t := pc]
    ensures OneSweep(s)
  {
  }

  lemma SecondCallReturns(cascade: bool) returns (s: State, sw: Sweep)
    ensures CalmlyReachable(s, cascade) && Stored(s) && s.hist.mailed == {} && OneSweep(s)
    ensures s.threads == map[11 := GrpcSend(X, P), 20 := RetryMark(X, sw), 21 := GrpcReply(X, true)]
  {
    var s0;
    s0, sw := SecondCallIsAnswered(cascade);
    LeadsToOneSweep(Init(cascade), s0);
    s := DoCallReturns(s0, 20, true);
    assert s.threads == s0.threads[20 := RetryMark(X, sw)];
    OneSweepAfter(s0, s, 20, RetryMark(X, sw));
    assert AppApply(s0, CallReturns(20, true)) == s;
    LeadsStep(Init(cascade), s0, App(CallReturns(20, true)));
  }

  /** The next sweep's call finds the entry, is answered OK and completes the saga.
      Nothing has been delivered, and the first call may still fail. The two sweeps
      follow one another. */
  lemma CompletedWithoutMailIsReachable(cascade: bool) returns (s: State)
    ensures CalmlyReachable(s, cascade) && X in s.db.sagas && s.db.sagas[X].state.Completed? && s.hist.mailed == {}
    ensures 11 in s.threads && Holds(s.threads[11], X)
  {
    var s0, sw := SecondCallReturns(cascade);
    s := DoMarkRetried(s0, 20, Works);
    assert s.threads == s0.threads[20 := SweepLoop(sw)];
    OneSweepAfter(s0, s, 20, SweepLoop(sw));
    assert AppApply(s0, MarkRetried(20, Works)) == s;
    LeadsStep(Init(cascade), s0, App(MarkRetried(20, Works)));
  }

  // -------------------------------------------------------------- two e-mails

  lemma CommandTaken(cascade: bool) returns (s: State)
    ensures CalmlyReachable(s, cascade) && Stored(s) && s.clock == 0 && s.dedupe == {}
    ensures s.threads == map[WORKER := WorkerSend(0, 0, X, P)]
    ensures s.hist.asyncOk == multiset{} && s.hist.grpcOk == multiset{}
  {
    var s0 := Inserting(cascade);
    var s1 := DoSendCommand(s0, REQUEST, 0, Works);
    assert AppApply(s0, SendCommand(REQUEST, 0, Works)) == s1 && s1.threads == map[];
    ReachStep(s0, cascade, App(SendCommand(REQUEST, 0, Works)));
    s := DoTakeCommand(s1, WORKER, 0, 0);
    assert NotifierApply(s1, TakeCommand(WORKER, 0, 0)) == s;
    ReachStep(s1, cascade, Notify(TakeCommand(WORKER, 0, 0)));
  }

  /** The command handler has sent and not yet marked. */
  lemma SentUnmarked(cascade: bool) returns (s: State)
    ensures CalmlyReachable(s, cascade) && Stored(s) && s.clock == 1 && s.dedupe == {}
    ensures s.threads == map[WORKER := WorkerMark(0, 0, X)]
    ensures s.hist.asyncOk == multiset{X} && s.hist.grpcOk == multiset{}
  {
    var s0 := CommandTaken(cascade);
    var s1 := DoSendMail(s0, WORKER, Works);
    assert NotifierApply(s0, SendMail(WORKER, Works)) == s1;
    ReachStep(s0, cascade, Notify(SendMail(WORKER, Works)));
    s := s1.(clock := 1);
    assert Apply(s1, World(Tick(1))) == s;
    ReachStep(s1, cascade, World(Tick(1)));
  }

  lemma ClaimedUnmarked(cascade: bool) returns (s: State)
    ensures CalmlyReachable(s, cascade) && OneSweep(s) && 11 in s.threads && s.threads[11] == GrpcSend(X, P)
    ensures s.hist.asyncOk == multiset{X} && s.hist.grpcOk == multiset{}
  {
    var s0 := SentUnmarked(cascade);
    var s1, sw := CallFor(s0, cascade, 10, 11);
    LeadsToOneSweep(Init(cascade), s1);
    s := ClaimIsGranted(Init(cascade), s1, 11);
  }

  /** A sweep's call claims before the command handler marks: both send, without
      any redelivery, lost entry or restart. */
  lemma TwoMailsAreReachable(cascade: bool) returns (s: State)
    ensures CalmlyReachable(s, cascade) && s.hist.asyncOk[X] + s.hist.grpcOk[X] == 2
  {
    var s0 := ClaimedUnmarked(cascade);
    s := DoSendClaimed(s0, 11, Works);
    assert NotifierApply(s0, SendClaimed(11, Works)) == s && OneSweep(s);
    ReachStep(s0, cascade, Notify(SendClaimed(11, Works)));
  }
}
