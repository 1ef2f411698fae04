/** Every step of the protocol keeps the invariant and undoes nothing. */
module Steps {
  import opened Domain
  import opened Store
  import opened Queues
  import opened Protocol
  import opened Invariants
  import opened Statements

  // ------------------------------------------------------------- assembling

  /** The threads of `ts` are the only ones a step moved. */
  ghost predicate Moved(s: State, s': State, ts: set<Tid>) {
    forall t :: t in s'.threads && t !in ts ==> t in s.threads && s'.threads[t] == s.threads[t]
  }

  lemma ThreadsKept(s: State, s': State, ts: set<Tid>)
    requires ThreadsOk(s) && Evolves(s, s') && Moved(s, s', ts)
    requires forall t :: t in ts && t in s'.threads ==> PcOk(s', s'.threads[t])
    ensures ThreadsOk(s')
  {
    forall t | t in s'.threads ensures PcOk(s', s'.threads[t]) {
      if t !in ts { PcStable(s, s', s.threads[t]); }
    }
  }

  /** A claim is let go only with a delivery. */
  ghost predicate ClaimsKept(s: State, s': State) {
    forall t, x :: t in s.threads && Holds(s.threads[t], x) ==>
      x in s'.hist.mailed || (t in s'.threads && Holds(s'.threads[t], x))
  }

  /** A step that lets go of no claim and adds an entry only for a delivered or
      claimed saga suppresses nothing falsely. */
  lemma DedupeKept(s: State, s': State)
    requires DedupeOk(s) && s.hist.mailed <= s'.hist.mailed && ClaimsKept(s, s')
    requires forall x :: x in s'.dedupe ==>
      x in s.dedupe || x in s'.hist.mailed || exists t :: t in s'.threads && Holds(s'.threads[t], x)
    ensures DedupeOk(s')
  {
    forall x | x in s'.dedupe && x in s.dedupe && x !in s'.hist.mailed
      ensures exists t :: t in s'.threads && Holds(s'.threads[t], x)
    {
      var t :| t in s.threads && Holds(s.threads[t], x);
      assert t in s'.threads && Holds(s'.threads[t], x);
    }
  }

  lemma ExtendsSelf<M>(q: Queue<M>)
    ensures Extends(q, q)
  {
  }

  /** Messages are untouched and the facts only grew. */
  lemma MsgsKept(s: State, s': State)
    requires MsgsOk(s) && Grows(s.db, s.hist, s'.db, s'.hist) && s'.commands == s.commands && s'.events == s.events
    ensures MsgsOk(s')
  {
  }

  lemma GrowsSelf(db: Db, h: History)
    ensures Grows(db, h, db, h)
  {
  }

  /** Thread `t` neither holds a claim nor gets one. */
  predicate Claimless(s: State, t: Tid, next: Option<Pc>) {
    && (t in s.threads ==> !s.threads[t].GrpcSend? && !s.threads[t].GrpcRelease?)
    && (next.Some? ==> !next.value.GrpcSend? && !next.value.GrpcRelease?)
  }

  lemma PcAnyThreads(s: State, s': State, pc: Pc)
    requires PcOk(s, pc) && s'.db == s.db && s'.hist == s.hist && s'.events == s.events
    ensures PcOk(s', pc)
  {
  }

  lemma MoveShape(s: State, s1: State, t: Tid, next: Option<Pc>)
    requires s1.threads == s.threads && Claimless(s, t, next)
    ensures var s' := Move(s1, t, next);
            && Moved(s, s', {t}) && ClaimsKept(s, s')
            && s' == s1.(threads := s'.threads)
            && (t in s'.threads <==> next.Some?) && (next.Some? ==> s'.threads[t] == next.value)
  {
  }

  /** A step of one thread: `s1` is the state after its effect on tables, queues
      and history, and `next` is where the thread goes. */
  lemma MoveKeeps(s: State, s1: State, t: Tid, next: Option<Pc>)
    requires Inv(s) && Core(s1.db, s1.hist) && MsgsOk(s1) && Evolves(s, s1)
    requires s1.threads == s.threads && s1.dedupe == s.dedupe && Claimless(s, t, next)
    requires next.Some? ==> PcOk(s1, next.value)
    ensures Inv(Move(s1, t, next)) && Evolves(s, Move(s1, t, next))
  {
    var s' := Move(s1, t, next);
    MoveShape(s, s1, t, next);
    if next.Some? { PcAnyThreads(s1, s', next.value); }
    ThreadsKept(s, s', {t});
    DedupeKept(s, s');
  }

  /** The same when the step touches no queue. */
  lemma TableStep(s: State, s1: State, t: Tid, next: Option<Pc>)
    requires Inv(s) && Core(s1.db, s1.hist) && Grows(s.db, s.hist, s1.db, s1.hist)
    requires s1.commands == s.commands && s1.events == s.events && s1.clock == s.clock
    requires s1.threads == s.threads && s1.dedupe == s.dedupe && Claimless(s, t, next)
    requires next.Some? ==> PcOk(s1, next.value)
    ensures Inv(Move(s1, t, next)) && Evolves(s, Move(s1, t, next))
  {
    ExtendsSelf(s.commands);
    ExtendsSelf(s.events);
    MsgsKept(s, s1);
    MoveKeeps(s, s1, t, next);
  }

  /** The same when the step touches nothing but its thread. */
  lemma ThreadStep(s: State, t: Tid, next: Option<Pc>)
    requires Inv(s) && Claimless(s, t, next)
    requires next.Some? ==> PcOk(s, next.value)
    ensures Inv(Move(s, t, next)) && Evolves(s, Move(s, t, next))
  {
    GrowsSelf(s.db, s.hist);
    TableStep(s, s, t, next);
  }

  /** The rows' assertions read only names, flips and what accounts for an answer. */
  lemma RowsCarry(db: Db, h: History, h': History)
    requires RowsOk(db, h)
    requires h'.births == h.births && h'.owner == h.owner && h'.flips == h.flips
    requires h.mailed <= h'.mailed && h.suppressed <= h'.suppressed
    ensures RowsOk(db, h')
  {
    forall u | u in db.subs ensures SubOk(db, h', u) {
      assert SubOk(db, h, u);
    }
    forall y | y in db.sagas ensures SagaOk(db, h', y) {
      assert SagaOk(db, h, y);
    }
  }

  predicate SameFacts(h: History, h': History) {
    && h'.births == h.births && h'.owner == h.owner && h'.flips == h.flips && h'.resolvedBy == h.resolvedBy
    && h'.mail == h.mail && h'.mailed == h.mailed && h.suppressed <= h'.suppressed && h'.announced == h.announced
  }

  lemma NamesCarry(db: Db, h: History, h': History)
    requires NamesOk(db, h) && SameFacts(h, h')
    ensures NamesOk(db, h') && Grows(db, h, db, h')
  {
  }

  lemma HistCarry(db: Db, h: History, h': History)
    requires HistOk(db, h) && SameFacts(h, h')
    ensures HistOk(db, h')
  {
  }

  lemma ResolvingHist(db: Db, h: History, x: SagaId)
    requires HistOk(db, h) && Resolved(db, h, x)
    ensures HistOk(db, h.(resolvedBy := h.resolvedBy + {x}))
  {
  }

  lemma ResolvingGrows(db: Db, h: History, x: SagaId)
    requires NamesOk(db, h)
    ensures var h' := h.(resolvedBy := h.resolvedBy + {x}); NamesOk(db, h') && Grows(db, h, db, h')
  {
  }

  /** Recording that a handler returned nil for a resolved saga. */
  lemma ResolvingKeeps(db: Db, h: History, x: SagaId)
    requires Core(db, h) && Resolved(db, h, x)
    ensures var h' := h.(resolvedBy := h.resolvedBy + {x}); Core(db, h') && Grows(db, h, db, h')
  {
    RowsCarry(db, h, h.(resolvedBy := h.resolvedBy + {x}));
    ResolvingHist(db, h, x);
    ResolvingGrows(db, h, x);
  }

  // ------------------------------------------------------------ application

  lemma NamedOnce(db: Db, name: RepoName, repo: RepoId)
    requires if exists r :: r in db.repos && db.repos[r] == name
             then repo in db.repos && db.repos[repo] == name
             else repo !in db.repos
    ensures repo in db.repos ==> db.repos[repo] == name
  {
  }

  lemma RepoKeeps(s: State, t: Tid, repo: RepoId, name: RepoName, next: Option<Pc>)
    requires Inv(s) && t !in s.threads && (repo in s.db.repos ==> s.db.repos[repo] == name)
    requires next.None? || (next.value.SubscribeCheck? && next.value.name == name && next.value.repo == repo)
    ensures var s' := Move(s.(db := WithRepo(s.db, repo, name)), t, next); Inv(s') && Evolves(s, s')
  {
    RepoRows(s.db, s.hist, repo, name);
    RepoHist(s.db, s.hist, repo, name);
    RepoGrows(s.db, s.hist, repo, name);
    TableStep(s, s.(db := WithRepo(s.db, repo, name)), t, next);
  }

  lemma GetOrCreateKeeps(s: State, t: Tid, email: Address, name: RepoName, repo: RepoId, f: Fault)
    requires Inv(s) && CanGetOrCreate(s, t, name, repo)
    ensures var s' := DoGetOrCreate(s, t, email, name, repo, f); Inv(s') && Evolves(s, s')
  {
    NamedOnce(s.db, name, repo);
    assert s.threads - {t} == s.threads;
    match f {
      case Works => RepoKeeps(s, t, repo, name, Some(SubscribeCheck(email, name, repo)));
      case Fails => ThreadStep(s, t, None);
      case FailsAfterEffect => RepoKeeps(s, t, repo, name, None);
    }
  }

  lemma CreateKeeps(s: State, t: Tid, u: SubId, x: SagaId, k: Token, k': Token, f: Fault)
    requires Inv(s) && AppEnabled(s, CreateWithSaga(t, u, x, k, k', f))
    ensures var s' := DoCreate(s, t, u, x, k, k', f); Inv(s') && Evolves(s, s')
  {
    var pc := s.threads[t];
    assert PcOk(s, pc);
    if f.Fails? {
      ThreadStep(s, t, None);
    } else {
      var row := SubRow(pc.repo, pc.email, false, k, k');
      var b := Birth(u, pc.email, pc.repo, pc.name, k, pc.startedAt);
      InsertRows(s.db, s.hist, u, row, x, b);
      InsertNames(s.db, s.hist, u, row, x, b);
      InsertHist(s.db, s.hist, u, row, x, b);
      InsertGrows(s.db, s.hist, u, row, x, b);
      var s1 := s.(db := Inserted(s.db, u, row, x, b), hist := Born(s.hist, u, x, b));
      var next := if f.Works? then Some(PublishCommand(x, PayloadOf(b))) else None;
      assert DoCreate(s, t, u, x, k, k', f) == Move(s1, t, next);
      TableStep(s, s1, t, next);
    }
  }

  lemma SendCommandKeeps(s: State, t: Tid, m: MsgId, f: Fault)
    requires Inv(s) && t in s.threads && s.threads[t].PublishCommand? && m !in s.commands.bodies
    ensures var s' := DoSendCommand(s, t, m, f); Inv(s') && Evolves(s, s')
  {
    var pc := s.threads[t];
    assert PcOk(s, pc);
    var next := if f.Works? then None else Some(FailGet(pc.saga, FromPublish));
    if f.Fails? {
      ThreadStep(s, t, next);
    } else {
      var body := SendConfirmation(pc.saga, pc.payload);
      var s1 := s.(commands := Publish(s.commands, m, body));
      GrowsSelf(s.db, s.hist);
      ExtendsSelf(s.events);
      PublishConserves(s.commands, m, body);
      MoveKeeps(s, s1, t, next);
    }
  }

  lemma DrawStartKeeps(s: State, t: Tid)
    requires Inv(s) && t in s.threads && s.threads[t].SubscribeDraw?
    ensures Inv(DoDrawStart(s, t)) && Evolves(s, DoDrawStart(s, t))
  {
    var pc := s.threads[t];
    assert PcOk(s, pc);
    ThreadStep(s, t, Some(SubscribeWrite(pc.email, pc.name, pc.repo, s.clock)));
  }

  lemma CheckExistsKeeps(s: State, t: Tid, f: Fault)
    requires Inv(s) && t in s.threads && s.threads[t].SubscribeCheck?
    ensures Inv(DoCheckExists(s, t, f)) && Evolves(s, DoCheckExists(s, t, f))
  {
    var pc := s.threads[t];
    assert PcOk(s, pc);
    ThreadStep(s, t, None);
    ThreadStep(s, t, Some(SubscribeDraw(pc.email, pc.name, pc.repo)));
  }

  // ----------------------------------------------------------- orchestrator

  lemma Visited(s: State, sw: Sweep, x: SagaId, ok: bool)
    requires SweepOk(s, sw, {x}) && (ok ==> Resolved(s.db, s.hist, x))
    ensures SweepOk(s, sw.(clean := sw.clean && ok), {})
  {
  }

  lemma FailReturnsOk(s: State, k: Caller, x: SagaId, ok: bool)
    requires x in s.hist.births && CallerOk(s, k, x) && (ok ==> Resolved(s.db, s.hist, x))
    ensures FailReturns(k, ok).Some? ==> PcOk(s, FailReturns(k, ok).value)
  {
    if k.FromSweep? { Visited(s, k.sweep, x, ok); }
  }

  lemma RetryReturnsOk(s: State, x: SagaId, sw: Sweep, ok: bool)
    requires x in s.hist.births && SweepOk(s, sw, {x}) && (ok ==> Resolved(s.db, s.hist, x))
    ensures PcOk(s, RetryReturns(x, sw, ok))
  {
    Visited(s, sw, x, ok);
  }

  /** A terminal update and the record of a nil result. */
  function Marked(s: State, x: SagaId, state: SagaState, f: Fault): State {
    Resolving(DoMark(s, x, state, f), x, !Answer(f, MarkReply(s.db, x)).Error?)
  }

  lemma MarkedKeeps(s: State, x: SagaId, state: SagaState, f: Fault)
    requires Core(s.db, s.hist) && x in s.hist.births
    requires (state.Completed? && Told(s.hist, x)) || (state.Compensated? && Gone(s.db, s.hist, x))
    ensures var s1 := Marked(s, x, state, f);
            && Core(s1.db, s1.hist) && Grows(s.db, s.hist, s1.db, s1.hist)
            && (!Answer(f, MarkReply(s.db, x)).Error? ==> Resolved(s1.db, s1.hist, x))
  {
    var s0 := DoMark(s, x, state, f);
    MarkKeeps(s, x, state, f);
    var ok := !Answer(f, MarkReply(s.db, x)).Error?;
    if ok {
      ResolvingKeeps(s0.db, s0.hist, x);
      var s1 := Resolving(s0, x, true);
      GrowsTransitive(s.db, s.hist, s0.db, s0.hist, s1.db, s1.hist);
    }
  }

  lemma EvolvesTables(s: State, s1: State)
    requires Grows(s.db, s.hist, s1.db, s1.hist) && s1.commands == s.commands && s1.events == s.events
             && s1.clock == s.clock
    ensures Evolves(s, s1)
  {
  }

  lemma SettlesMarked(s: State, t: Tid, f: Fault)
    requires t in s.threads && s.threads[t].SentMark? && PcOk(s, s.threads[t])
    requires Resolved(Marked(s, s.threads[t].saga, Completed, f).db, Marked(s, s.threads[t].saga, Completed, f).hist,
                      s.threads[t].saga)
             || Answer(f, MarkReply(s.db, s.threads[t].saga)).Error?
    ensures var pc := s.threads[t];
            var s1 := Marked(s, pc.saga, Completed, f);
            var next := ReplySettle(pc.tag, pc.msg, pc.event, VerdictOf(!Answer(f, MarkReply(s.db, pc.saga)).Error?));
            PcOk(s1, next) && DoMarkSent(s, t, f) == Move(s1, t, Some(next)) && Claimless(s, t, Some(next))
  {
  }

  lemma MarkSentKeeps(s: State, t: Tid, f: Fault)
    requires Inv(s) && t in s.threads && s.threads[t].SentMark?
    ensures Inv(DoMarkSent(s, t, f)) && Evolves(s, DoMarkSent(s, t, f))
  {
    var pc := s.threads[t];
    assert PcOk(s, pc);
    var ok := !Answer(f, MarkReply(s.db, pc.saga)).Error?;
    MarkedKeeps(s, pc.saga, Completed, f);
    SettlesMarked(s, t, f);
    MarkedStep(s, pc.saga, Completed, f, t, Some(ReplySettle(pc.tag, pc.msg, pc.event, VerdictOf(ok))));
  }

  lemma AfterMarkRetried(s: State, s1: State, x: SagaId, sw: Sweep, ok: bool)
    requires PcOk(s, RetryMark(x, sw)) && Evolves(s, s1) && (ok ==> Resolved(s1.db, s1.hist, x))
    ensures PcOk(s1, RetryReturns(x, sw, ok))
  {
    PcStable(s, s1, RetryMark(x, sw));
    RetryReturnsOk(s1, x, sw, ok);
  }

  lemma MarkRetriedFacts(s: State, t: Tid, f: Fault)
    requires Core(s.db, s.hist) && t in s.threads && s.threads[t].RetryMark? && PcOk(s, s.threads[t])
    ensures var pc := s.threads[t];
            var s1 := Marked(s, pc.saga, Completed, f);
            && Core(s1.db, s1.hist) && Grows(s.db, s.hist, s1.db, s1.hist)
            && PcOk(s1, RetryReturns(pc.saga, pc.sweep, !Answer(f, MarkReply(s.db, pc.saga)).Error?))
  {
    var pc := s.threads[t];
    var s1 := Marked(s, pc.saga, Completed, f);
    MarkedKeeps(s, pc.saga, Completed, f);
    EvolvesTables(s, s1);
    AfterMarkRetried(s, s1, pc.saga, pc.sweep, !Answer(f, MarkReply(s.db, pc.saga)).Error?);
  }

  lemma MarkRetriedMoves(s: State, t: Tid, f: Fault)
    requires t in s.threads && s.threads[t].RetryMark?
    ensures var pc := s.threads[t];
            var next := Some(RetryReturns(pc.saga, pc.sweep, !Answer(f, MarkReply(s.db, pc.saga)).Error?));
            DoMarkRetried(s, t, f) == Move(Marked(s, pc.saga, Completed, f), t, next) && Claimless(s, t, next)
  {
  }

  lemma MarkRetriedKeeps(s: State, t: Tid, f: Fault)
    requires Inv(s) && t in s.threads && s.threads[t].RetryMark?
    ensures Inv(DoMarkRetried(s, t, f)) && Evolves(s, DoMarkRetried(s, t, f))
  {
    var pc := s.threads[t];
    var next := RetryReturns(pc.saga, pc.sweep, !Answer(f, MarkReply(s.db, pc.saga)).Error?);
    MarkRetriedFacts(s, t, f);
    MarkRetriedMoves(s, t, f);
    MarkedStep(s, pc.saga, Completed, f, t, Some(next));
  }

  lemma MarkedStep(s: State, x: SagaId, state: SagaState, f: Fault, t: Tid, next: Option<Pc>)
    requires Inv(s) && Claimless(s, t, next)
    requires var s1 := Marked(s, x, state, f);
             Core(s1.db, s1.hist) && Grows(s.db, s.hist, s1.db, s1.hist) && (next.Some? ==> PcOk(s1, next.value))
    ensures var s' := Move(Marked(s, x, state, f), t, next); Inv(s') && Evolves(s, s')
  {
    TableStep(s, Marked(s, x, state, f), t, next);
  }

  lemma MarkFailedKeeps(s: State, t: Tid, f: Fault)
    requires Inv(s) && t in s.threads && s.threads[t].FailMark?
    ensures Inv(DoMarkFailed(s, t, f)) && Evolves(s, DoMarkFailed(s, t, f))
  {
    var pc := s.threads[t];
    assert PcOk(s, pc);
    var ok := !Answer(f, MarkReply(s.db, pc.saga)).Error?;
    var s1 := Marked(s, pc.saga, Compensated, f);
    MarkedKeeps(s, pc.saga, Compensated, f);
    EvolvesTables(s, s1);
    PcStable(s, s1, pc);
    FailReturnsOk(s1, pc.caller, pc.saga, ok);
    TableStep(s, s1, t, FailReturns(pc.caller, ok));
  }

  lemma GetForFailKeeps(s: State, t: Tid, f: Fault)
    requires Inv(s) && t in s.threads && s.threads[t].FailGet?
    ensures Inv(DoGetForFail(s, t, f)) && Evolves(s, DoGetForFail(s, t, f))
  {
    var pc := s.threads[t];
    assert PcOk(s, pc);
    if !f.Works? {
      FailReturnsOk(s, pc.caller, pc.saga, false);
      ThreadStep(s, t, FailReturns(pc.caller, false));
    } else if IsPending(s.db, pc.saga) {
      assert SagaOk(s.db, s.hist, pc.saga);
      ThreadStep(s, t, Some(FailDelete(pc.saga, s.db.sagas[pc.saga].sub, pc.caller)));
    } else {
      var s1 := Resolving(s, pc.saga, true);
      ResolvingKeeps(s.db, s.hist, pc.saga);
      EvolvesTables(s, s1);
      PcStable(s, s1, pc);
      FailReturnsOk(s1, pc.caller, pc.saga, true);
      TableStep(s, s1, t, FailReturns(pc.caller, true));
    }
  }

  function Compensating(s: State, u: SubId, f: Fault): State {
    s.(db := Commit(f, s.db, DeleteSub(s.db, u)))
  }

  lemma CompensatingKeeps(s: State, u: SubId, f: Fault, pc: Pc)
    requires Core(s.db, s.hist) && PcOk(s, pc)
    ensures var s1 := Compensating(s, u, f);
            && Core(s1.db, s1.hist) && Grows(s.db, s.hist, s1.db, s1.hist) && PcOk(s1, pc)
            && (f.Works? ==> u !in s1.db.subs)
  {
    GrowsSelf(s.db, s.hist);
    DeleteKeeps(s.db, s.hist, u);
    EvolvesTables(s, Compensating(s, u, f));
    PcStable(s, Compensating(s, u, f), pc);
  }

  lemma DeleteForFailKeeps(s: State, t: Tid, f: Fault)
    requires Inv(s) && t in s.threads && s.threads[t].FailDelete?
    ensures Inv(DoDeleteForFail(s, t, f)) && Evolves(s, DoDeleteForFail(s, t, f))
  {
    var pc := s.threads[t];
    var s1 := Compensating(s, pc.sub, f);
    CompensatingKeeps(s, pc.sub, f, pc);
    if !f.Works? {
      FailReturnsOk(s1, pc.caller, pc.saga, false);
      TableStep(s, s1, t, FailReturns(pc.caller, false));
    } else {
      TableStep(s, s1, t, Some(FailMark(pc.saga, pc.caller)));
    }
  }

  /** A failed attempt falls through to compensation. */
  lemma FallsThrough(s: State, t: Tid, x: SagaId, sw: Sweep)
    requires Inv(s) && Claimless(s, t, None) && x in s.hist.births && SweepOk(s, sw, {x})
    ensures var s' := Put(s, t, RetryReturns(x, sw, false)); Inv(s') && Evolves(s, s')
  {
    ThreadStep(s, t, Some(FailGet(x, FromSweep(sw))));
  }

  lemma GetForRetryKeeps(s: State, t: Tid, f: Fault)
    requires Inv(s) && t in s.threads && s.threads[t].RetryGet?
    ensures Inv(DoGetForRetry(s, t, f)) && Evolves(s, DoGetForRetry(s, t, f))
  {
    var pc := s.threads[t];
    assert PcOk(s, pc);
    if !f.Works? || pc.saga !in s.db.sagas {
      FallsThrough(s, t, pc.saga, pc.sweep);
    } else if IsPending(s.db, pc.saga) {
      assert SagaOk(s.db, s.hist, pc.saga);
      ThreadStep(s, t, Some(RetryLoad(pc.saga, s.db.sagas[pc.saga].sub, pc.sweep)));
    } else {
      var s1 := Resolving(s, pc.saga, true);
      ResolvingKeeps(s.db, s.hist, pc.saga);
      EvolvesTables(s, s1);
      PcStable(s, s1, pc);
      RetryReturnsOk(s1, pc.saga, pc.sweep, true);
      TableStep(s, s1, t, Some(RetryReturns(pc.saga, pc.sweep, true)));
    }
  }

  lemma LoadForRetryKeeps(s: State, t: Tid, f: Fault)
    requires Inv(s) && t in s.threads && s.threads[t].RetryLoad?
    ensures Inv(DoLoadForRetry(s, t, f)) && Evolves(s, DoLoadForRetry(s, t, f))
  {
    var pc := s.threads[t];
    assert PcOk(s, pc);
    if !f.Works? || pc.sub !in s.db.subs || s.db.subs[pc.sub].repo !in s.db.repos {
      FallsThrough(s, t, pc.saga, pc.sweep);
    } else {
      var row := s.db.subs[pc.sub];
      assert SubOk(s.db, s.hist, pc.sub);
      ThreadStep(s, t, Some(RetryCall(pc.saga, Payload(row.email, s.db.repos[row.repo], row.confirmToken), pc.sweep)));
    }
  }

  lemma Awaits(s: State, t: Tid, r: Tid)
    requires Inv(s) && t in s.threads && s.threads[t].RetryCall?
    ensures var s' := Put(s, t, RetryAwait(s.threads[t].saga, r, s.threads[t].sweep)); Inv(s') && Evolves(s, s')
  {
    assert PcOk(s, s.threads[t]);
    ThreadStep(s, t, Some(RetryAwait(s.threads[t].saga, r, s.threads[t].sweep)));
  }

  lemma CallNotifierKeeps(s: State, t: Tid, rpc: Option<Tid>)
    requires Inv(s) && t in s.threads && s.threads[t].RetryCall? && (rpc.Some? ==> rpc.value !in s.threads)
    ensures Inv(DoCallNotifier(s, t, rpc)) && Evolves(s, DoCallNotifier(s, t, rpc))
  {
    var pc := s.threads[t];
    assert PcOk(s, pc);
    match rpc {
      case None => FallsThrough(s, t, pc.saga, pc.sweep);
      case Some(r) =>
        var s1 := Put(s, r, GrpcClaim(pc.saga, pc.payload));
        ThreadStep(s, r, Some(GrpcClaim(pc.saga, pc.payload)));
        Awaits(s1, t, r);
        EvolvesTransitive(s, s1, Put(s1, t, RetryAwait(pc.saga, r, pc.sweep)));
    }
  }

  /** A call answered OK accounts for completing the saga. */
  lemma AnswerCounts(s: State, x: SagaId, r: Tid, sw: Sweep)
    requires PcOk(s, RetryAwait(x, r, sw)) && PcOk(s, GrpcReply(x, true))
    ensures PcOk(s, RetryMark(x, sw))
  {
  }

  lemma CallReturnsKeeps(s: State, t: Tid, ok: bool)
    requires Inv(s) && AppEnabled(s, CallReturns(t, ok))
    ensures Inv(DoCallReturns(s, t, ok)) && Evolves(s, DoCallReturns(s, t, ok))
  {
    var pc := s.threads[t];
    assert PcOk(s, pc);
    if ok {
      AnswerCounts(s, pc.saga, pc.rpc, pc.sweep);
      ThreadStep(s, t, Some(RetryMark(pc.saga, pc.sweep)));
    } else {
      FallsThrough(s, t, pc.saga, pc.sweep);
    }
  }

  // ---------------------------------------------------- replies and sweeper

  /** A thread that starts knowing nothing. */
  lemma StartKeeps(s: State, t: Tid, pc: Pc)
    requires Inv(s) && t !in s.threads && (pc.SweepFetch? || pc.ConfirmWrite? || pc.UnsubDelete? || pc.ScanPublish?)
    ensures Inv(Put(s, t, pc)) && Evolves(s, Put(s, t, pc))
  {
    ThreadStep(s, t, Some(pc));
  }

  lemma TakeReplyKeeps(s: State, t: Tid, tag: Tag, m: MsgId)
    requires Inv(s) && t !in s.threads && m in s.events.ready && m in s.events.bodies && tag !in s.events.tags
    ensures Inv(DoTakeReply(s, t, tag, m)) && Evolves(s, DoTakeReply(s, t, tag, m))
  {
    var s' := DoTakeReply(s, t, tag, m);
    var s1 := s.(events := Deliver(s.events, m, tag));
    DeliverConserves(s.events, m, tag);
    GrowsSelf(s.db, s.hist);
    ExtendsSelf(s.commands);
    assert EventOk(s, s.events.bodies[m]);
    MoveKeeps(s, s1, t, Some(s'.threads[t]));
  }

  lemma SettleReplyKeeps(s: State, t: Tid)
    requires Inv(s) && t in s.threads && s.threads[t].ReplySettle? && s.events.unsettled <= s.events.tags.Keys
    ensures Inv(DoSettleReply(s, t)) && Evolves(s, DoSettleReply(s, t))
  {
    var pc := s.threads[t];
    assert PcOk(s, pc);
    var s1 := s.(events := Settle(s.events, pc.tag, pc.verdict));
    SettleConserves(s.events, pc.tag, pc.verdict);
    GrowsSelf(s.db, s.hist);
    ExtendsSelf(s.commands);
    assert MsgsOk(s1);
    MoveKeeps(s, s1, t, None);
  }

  lemma FetchStuckKeeps(s: State, t: Tid, todo: seq<SagaId>, f: Fault)
    requires Inv(s) && t in s.threads && s.threads[t].SweepFetch? && ListsStuck(s.db, s.threads[t].threshold, todo)
    ensures Inv(DoFetchStuck(s, t, todo, f)) && Evolves(s, DoFetchStuck(s, t, todo, f))
  {
    var threshold := s.threads[t].threshold;
    var sw := Sweep(todo, threshold, s.hist.births.Keys, true);
    forall x | x in todo ensures x in s.hist.births {
      assert IsStuck(s.db, threshold, x);
      assert SagaOk(s.db, s.hist, x);
    }
    forall x | x in sw.known && x !in todo && s.hist.births[x].startedAt < threshold ensures Resolved(s.db, s.hist, x) {
      assert !IsStuck(s.db, threshold, x) || x !in s.db.sagas;
      if x in s.db.sagas { assert SagaOk(s.db, s.hist, x); }
    }
    ThreadStep(s, t, if f.Works? then Some(SweepLoop(sw)) else None);
  }

  lemma NextStuckKeeps(s: State, t: Tid, cancelled: bool)
    requires Inv(s) && t in s.threads && s.threads[t].SweepLoop?
    ensures Inv(DoNextStuck(s, t, cancelled)) && Evolves(s, DoNextStuck(s, t, cancelled))
  {
    var sw := s.threads[t].sweep;
    assert PcOk(s, s.threads[t]);
    if sw.todo == [] {
      ThreadStep(s, t, Some(SweepDone(sw)));
    } else if cancelled {
      ThreadStep(s, t, None);
    } else {
      assert SweepOk(s, sw.(todo := sw.todo[1..]), {sw.todo[0]}) by {
        assert sw.todo == [sw.todo[0]] + sw.todo[1..];
      }
      ThreadStep(s, t, Some(RetryGet(sw.todo[0], sw.(todo := sw.todo[1..]))));
    }
  }

  // -------------------------------------------------------- users and scans

  lemma WriteConfirmKeeps(s: State, t: Tid, f: Fault)
    requires Inv(s) && t in s.threads && s.threads[t].ConfirmWrite?
    ensures Inv(DoWriteConfirm(s, t, f)) && Evolves(s, DoWriteConfirm(s, t, f))
  {
    var u := s.threads[t].sub;
    GrowsSelf(s.db, s.hist);
    ConfirmRows(s.db, s.hist, u);
    ConfirmHist(s.db, s.hist, u);
    ConfirmGrows(s.db, s.hist, u);
    TableStep(s, s.(db := Commit(f, s.db, ConfirmSub(s.db, u))), t, None);
  }

  lemma DeleteUnsubKeeps(s: State, t: Tid, f: Fault)
    requires Inv(s) && t in s.threads && s.threads[t].UnsubDelete?
    ensures Inv(DoDeleteUnsub(s, t, f)) && Evolves(s, DoDeleteUnsub(s, t, f))
  {
    var u := s.threads[t].sub;
    GrowsSelf(s.db, s.hist);
    DeleteKeeps(s.db, s.hist, u);
    TableStep(s, s.(db := Commit(f, s.db, DeleteSub(s.db, u))), t, None);
  }

  function Announced(h: History, r: Recipient): History {
    h.(announced := h.announced + {r})
  }

  lemma AnnouncedHist(db: Db, h: History, r: Recipient)
    requires HistOk(db, h)
    ensures HistOk(db, Announced(h, r))
  {
  }

  lemma AnnouncedGrows(db: Db, h: History, r: Recipient)
    requires NamesOk(db, h)
    ensures NamesOk(db, Announced(h, r)) && Grows(db, h, db, Announced(h, r))
  {
  }

  lemma AnnouncedKeeps(db: Db, h: History, r: Recipient)
    requires Core(db, h)
    ensures Core(db, Announced(h, r)) && Grows(db, h, db, Announced(h, r))
  {
    RowsCarry(db, h, Announced(h, r));
    AnnouncedHist(db, h, r);
    AnnouncedGrows(db, h, r);
  }

  lemma AnnounceKeeps(s: State, t: Tid)
    requires Inv(s) && t in s.threads && s.threads[t].ScanPublish?
    ensures Inv(DoAnnounce(s, t)) && Evolves(s, DoAnnounce(s, t))
  {
    var rest := s.threads[t].rest;
    if rest == [] {
      ThreadStep(s, t, None);
    } else {
      AnnouncedKeeps(s.db, s.hist, rest[0]);
      TableStep(s, s.(hist := Announced(s.hist, rest[0])), t, Some(ScanPublish(rest[1..])));
    }
  }

  predicate IsSubscribeStep(a: AppStep) {
    a.GetOrCreateRepo? || a.CheckExists? || a.DrawStart? || a.CreateWithSaga? || a.SendCommand?
  }

  lemma SubscribeStepsKeep(s: State, a: AppStep)
    requires Inv(s) && AppEnabled(s, a) && IsSubscribeStep(a)
    ensures Inv(AppApply(s, a)) && Evolves(s, AppApply(s, a))
  {
    match a {
      case GetOrCreateRepo(t, email, name, repo, f) => GetOrCreateKeeps(s, t, email, name, repo, f);
      case CheckExists(t, f) => CheckExistsKeeps(s, t, f);
      case DrawStart(t) => DrawStartKeeps(s, t);
      case CreateWithSaga(t, u, x, k, k', f) => CreateKeeps(s, t, u, x, k, k', f);
      case SendCommand(t, m, f) => SendCommandKeeps(s, t, m, f);
    }
  }

  predicate IsHandlerStep(a: AppStep) {
    a.MarkSent? || a.GetForFail? || a.DeleteForFail? || a.MarkFailed? || a.TakeReply? || a.SettleReply?
  }

  lemma HandlerStepsKeep(s: State, a: AppStep)
    requires Inv(s) && AppEnabled(s, a) && IsHandlerStep(a)
    ensures Inv(AppApply(s, a)) && Evolves(s, AppApply(s, a))
  {
    match a {
      case MarkSent(t, f) => MarkSentKeeps(s, t, f);
      case GetForFail(t, f) => GetForFailKeeps(s, t, f);
      case DeleteForFail(t, f) => DeleteForFailKeeps(s, t, f);
      case MarkFailed(t, f) => MarkFailedKeeps(s, t, f);
      case TakeReply(t, tag, m) => TakeReplyKeeps(s, t, tag, m);
      case SettleReply(t) => SettleReplyKeeps(s, t);
    }
  }

  predicate IsRetryStep(a: AppStep) {
    a.GetForRetry? || a.LoadForRetry? || a.CallNotifier? || a.CallReturns? || a.MarkRetried?
  }

  lemma RetryStepsKeep(s: State, a: AppStep)
    requires Inv(s) && AppEnabled(s, a) && IsRetryStep(a)
    ensures Inv(AppApply(s, a)) && Evolves(s, AppApply(s, a))
  {
    match a {
      case GetForRetry(t, f) => GetForRetryKeeps(s, t, f);
      case LoadForRetry(t, f) => LoadForRetryKeeps(s, t, f);
      case CallNotifier(t, rpc) => CallNotifierKeeps(s, t, rpc);
      case CallReturns(t, ok) => CallReturnsKeeps(s, t, ok);
      case MarkRetried(t, f) => MarkRetriedKeeps(s, t, f);
    }
  }

  predicate IsSweepStep(a: AppStep) {
    a.StartSweep? || a.FetchStuck? || a.NextStuck?
  }

  lemma SweepStepsKeep(s: State, a: AppStep)
    requires Inv(s) && AppEnabled(s, a) && IsSweepStep(a)
    ensures Inv(AppApply(s, a)) && Evolves(s, AppApply(s, a))
  {
    match a {
      case StartSweep(t, timeout) =>
        assert AppApply(s, a) == Put(s, t, SweepFetch(s.clock - timeout));
        StartKeeps(s, t, SweepFetch(s.clock - timeout));
      case FetchStuck(t, todo, f) =>
        assert AppApply(s, a) == DoFetchStuck(s, t, todo, f);
        FetchStuckKeeps(s, t, todo, f);
      case NextStuck(t, cancelled) =>
        assert AppApply(s, a) == DoNextStuck(s, t, cancelled);
        NextStuckKeeps(s, t, cancelled);
    }
  }

  predicate IsUserStep(a: AppStep) {
    a.LookupConfirm? || a.WriteConfirm? || a.LookupUnsub? || a.DeleteUnsub? || a.ListConfirmed? || a.Announce?
  }

  lemma UserStepsKeep(s: State, a: AppStep)
    requires Inv(s) && AppEnabled(s, a) && IsUserStep(a)
    ensures Inv(AppApply(s, a)) && Evolves(s, AppApply(s, a))
  {
    match a {
      case LookupConfirm(t, k, u) => StartKeeps(s, t, ConfirmWrite(u, k));
      case WriteConfirm(t, f) => WriteConfirmKeeps(s, t, f);
      case LookupUnsub(t, k, u) => StartKeeps(s, t, UnsubDelete(u));
      case DeleteUnsub(t, f) => DeleteUnsubKeeps(s, t, f);
      case ListConfirmed(t, repo, rows) => StartKeeps(s, t, ScanPublish(rows));
      case Announce(t) => AnnounceKeeps(s, t);
    }
  }

  /** Every step of the application. */
  lemma AppKeeps(s: State, a: AppStep)
    requires Inv(s) && AppEnabled(s, a)
    ensures Inv(AppApply(s, a)) && Evolves(s, AppApply(s, a))
  {
    if IsSubscribeStep(a) {
      SubscribeStepsKeep(s, a);
    } else if IsHandlerStep(a) {
      HandlerStepsKeep(s, a);
    } else if IsRetryStep(a) {
      RetryStepsKeep(s, a);
    } else if IsSweepStep(a) {
      SweepStepsKeep(s, a);
    } else {
      UserStepsKeep(s, a);
    }
  }

  // ----------------------------------------------------------------- notifier

  lemma TakeCommandKeeps(s: State, t: Tid, tag: Tag, m: MsgId)
    requires Inv(s) && t !in s.threads && m in s.commands.ready && m in s.commands.bodies && tag !in s.commands.tags
    ensures Inv(DoTakeCommand(s, t, tag, m)) && Evolves(s, DoTakeCommand(s, t, tag, m))
  {
    var s1 := s.(commands := Deliver(s.commands, m, tag));
    DeliverConserves(s.commands, m, tag);
    GrowsSelf(s.db, s.hist);
    ExtendsSelf(s.events);
    assert CmdOk(s, s.commands.bodies[m]);
    MoveKeeps(s, s1, t, Some(DoTakeCommand(s, t, tag, m).threads[t]));
  }

  lemma SettleCommandKeeps(s: State, t: Tid)
    requires Inv(s) && t in s.threads && s.threads[t].WorkerSettle? && s.commands.unsettled <= s.commands.tags.Keys
    ensures Inv(DoSettleCommand(s, t)) && Evolves(s, DoSettleCommand(s, t))
  {
    var pc := s.threads[t];
    var s1 := s.(commands := Settle(s.commands, pc.tag, pc.verdict));
    SettleConserves(s.commands, pc.tag, pc.verdict);
    GrowsSelf(s.db, s.hist);
    ExtendsSelf(s.events);
    MoveKeeps(s, s1, t, None);
  }

  function Mailed(h: History, x: SagaId, p: Payload): History {
    h.(mail := h.mail + {Mail(x, p)}, mailed := h.mailed + {x})
  }

  lemma MailedKeeps(db: Db, h: History, x: SagaId, p: Payload)
    requires Core(db, h) && x in h.births && p == PayloadOf(h.births[x])
    ensures Core(db, Mailed(h, x, p)) && Grows(db, h, db, Mailed(h, x, p))
  {
    RowsCarry(db, h, Mailed(h, x, p));
    assert Grows(db, h, db, Mailed(h, x, p));
  }

  /** Changes to the parts of the history the table invariant does not mention. */
  lemma CountsFree(db: Db, h: History, h': History)
    requires Core(db, h)
    requires h' == h.(asyncOk := h'.asyncOk, grpcOk := h'.grpcOk, claimed := h'.claimed, markedFirst := h'.markedFirst,
                      suppressed := h'.suppressed) && h.suppressed <= h'.suppressed
    ensures Core(db, h') && Grows(db, h, db, h')
  {
    RowsCarry(db, h, h');
    NamesCarry(db, h, h');
    HistCarry(db, h, h');
  }

  lemma SentFacts(s: State, pc: Pc)
    requires pc.WorkerSend? && pc.saga in s.hist.births && pc.saga in s.hist.mailed
    ensures PcOk(s, WorkerMark(pc.tag, pc.msg, pc.saga))
  {
  }

  lemma SentMoves(s: State, t: Tid) returns (s2: State)
    requires t in s.threads && s.threads[t].WorkerSend?
    ensures var pc := s.threads[t];
            var s1 := Delivering(s, pc.saga, pc.payload);
            var next := Some(WorkerMark(pc.tag, pc.msg, pc.saga));
            && s2 == s1.(hist := s1.hist.(asyncOk := s1.hist.asyncOk + multiset{pc.saga}))
            && DoSendMail(s, t, Works) == Move(s2, t, next) && Claimless(s, t, next)
  {
    var s1 := Delivering(s, s.threads[t].saga, s.threads[t].payload);
    s2 := s1.(hist := s1.hist.(asyncOk := s1.hist.asyncOk + multiset{s.threads[t].saga}));
  }

  lemma SentKeeps(s: State, t: Tid)
    requires Inv(s) && t in s.threads && s.threads[t].WorkerSend?
    ensures Inv(DoSendMail(s, t, Works)) && Evolves(s, DoSendMail(s, t, Works))
  {
    var pc := s.threads[t];
    assert PcOk(s, pc);
    var s2 := SentMoves(s, t);
    CountedKeeps(s.db, s.hist, pc.saga, pc.payload, s2.hist);
    SentFacts(s2, pc);
    TableStep(s, s2, t, Some(WorkerMark(pc.tag, pc.msg, pc.saga)));
  }

  lemma NotSentKeeps(s: State, t: Tid, f: Fault)
    requires Inv(s) && t in s.threads && s.threads[t].WorkerSend? && !f.Works?
    ensures Inv(DoSendMail(s, t, f)) && Evolves(s, DoSendMail(s, t, f))
  {
    var pc := s.threads[t];
    assert PcOk(s, pc);
    var next := WorkerReply(pc.tag, pc.msg, pc.saga, false, 1);
    if f.Fails? {
      ThreadStep(s, t, Some(next));
    } else {
      MailedKeeps(s.db, s.hist, pc.saga, pc.payload);
      TableStep(s, Delivering(s, pc.saga, pc.payload), t, Some(next));
    }
  }

  lemma AfterReply(s: State, t: Tid, f: Fault, giveUp: bool)
    requires t in s.threads && s.threads[t].WorkerReply? && PcOk(s, s.threads[t])
    ensures Claimless(s, t, Some(NextReply(s.threads[t], f, giveUp))) && PcOk(s, NextReply(s.threads[t], f, giveUp))
  {
  }

  lemma ReplyPublished(s: State, m: MsgId, body: Event)
    requires MsgsOk(s) && m !in s.events.bodies && EventOk(s, body)
    ensures var s1 := s.(events := Publish(s.events, m, body)); MsgsOk(s1) && Evolves(s, s1)
  {
    PublishConserves(s.events, m, body);
    assert At(s.events, m, Acked) ==> m in s.events.bodies;
    GrowsSelf(s.db, s.hist);
    ExtendsSelf(s.commands);
  }

  lemma PublishReplyKeeps(s: State, t: Tid, m: MsgId, f: Fault, giveUp: bool)
    requires Inv(s) && t in s.threads && s.threads[t].WorkerReply? && m !in s.events.bodies
    ensures Inv(DoPublishReply(s, t, m, f, giveUp)) && Evolves(s, DoPublishReply(s, t, m, f, giveUp))
  {
    var pc := s.threads[t];
    assert PcOk(s, pc);
    var next := NextReply(pc, f, giveUp);
    AfterReply(s, t, f, giveUp);
    if f.Fails? {
      ThreadStep(s, t, Some(next));
    } else {
      var body := if pc.sent then ConfirmationSent(pc.saga) else ConfirmationFailed(pc.saga);
      var s1 := s.(events := Publish(s.events, m, body));
      ReplyPublished(s, m, body);
      PcStable(s, s1, next);
      MoveKeeps(s, s1, t, Some(next));
    }
  }

  // TryClaim, the send under a claim and Release change who holds claims.

  lemma SuppressKeeps(s: State, t: Tid)
    requires Inv(s) && t in s.threads && s.threads[t].GrpcClaim? && s.threads[t].saga in s.dedupe
    ensures Inv(DoClaim(s, t)) && Evolves(s, DoClaim(s, t))
  {
    var pc := s.threads[t];
    assert PcOk(s, pc);
    var s1 := s.(hist := DoClaim(s, t).hist);
    CountsFree(s.db, s.hist, s1.hist);
    TableStep(s, s1, t, Some(GrpcReply(pc.saga, true)));
  }

  /** The facts a claim step needs about the tables and the queues. */
  lemma ClaimStep(s: State, s1: State, t: Tid, next: Pc)
    requires Inv(s) && Core(s1.db, s1.hist) && Grows(s.db, s.hist, s1.db, s1.hist) && PcOk(s1, next)
    requires s1.commands == s.commands && s1.events == s.events && s1.clock == s.clock && s1.threads == s.threads
    ensures var s' := Put(s1, t, next);
            Core(s'.db, s'.hist) && MsgsOk(s') && ThreadsOk(s') && Evolves(s, s')
  {
    var s' := Put(s1, t, next);
    ExtendsSelf(s.commands);
    ExtendsSelf(s.events);
    MsgsKept(s, s');
    PcAnyThreads(s1, s', next);
    ThreadsKept(s, s', {t});
  }

  lemma ClaimKeeps(s: State, t: Tid)
    requires Inv(s) && t in s.threads && s.threads[t].GrpcClaim? && s.threads[t].saga !in s.dedupe
    ensures Inv(DoClaim(s, t)) && Evolves(s, DoClaim(s, t))
  {
    var pc := s.threads[t];
    assert PcOk(s, pc);
    var s' := DoClaim(s, t);
    var s1 := s.(dedupe := s'.dedupe, hist := s'.hist);
    CountsFree(s.db, s.hist, s'.hist);
    ClaimStep(s, s1, t, GrpcSend(pc.saga, pc.payload));
    assert Holds(s'.threads[t], pc.saga);
    DedupeKept(s, s');
  }

  lemma SentIsTold(s: State, x: SagaId)
    requires x in s.hist.births && x in s.hist.mailed
    ensures PcOk(s, GrpcReply(x, true))
  {
  }

  lemma ClaimedOkKeeps(s: State, t: Tid)
    requires Inv(s) && t in s.threads && s.threads[t].GrpcSend?
    ensures Inv(DoSendClaimed(s, t, Works)) && Evolves(s, DoSendClaimed(s, t, Works))
  {
    var pc := s.threads[t];
    assert PcOk(s, pc);
    var s2 := Counted(Delivering(s, pc.saga, pc.payload), pc.saga);
    CountedKeeps(s.db, s.hist, pc.saga, pc.payload, s2.hist);
    assert DoSendClaimed(s, t, Works) == Put(s2, t, GrpcReply(pc.saga, true));
    SentIsTold(s2, pc.saga);
    ClaimStep(s, s2, t, GrpcReply(pc.saga, true));
    SendKeepsDedupe(s, t, Works);
  }

  lemma SendKeepsDedupe(s: State, t: Tid, f: Fault)
    requires DedupeOk(s) && t in s.threads && s.threads[t].GrpcSend?
    ensures DedupeOk(DoSendClaimed(s, t, f))
  {
    DedupeKept(s, DoSendClaimed(s, t, f));
  }

  function Counted(s: State, x: SagaId): State {
    s.(hist := s.hist.(grpcOk := s.hist.grpcOk + multiset{x}))
  }

  /** A delivery that is also counted on one of the two paths. */
  lemma CountedKeeps(db: Db, h: History, x: SagaId, p: Payload, h': History)
    requires Core(db, h) && x in h.births && p == PayloadOf(h.births[x])
    requires h' == Mailed(h, x, p).(asyncOk := h'.asyncOk, grpcOk := h'.grpcOk)
    ensures Core(db, h') && Grows(db, h, db, h')
  {
    MailedKeeps(db, h, x, p);
    CountsFree(db, Mailed(h, x, p), h');
    GrowsTransitive(db, h, db, Mailed(h, x, p), db, h');
  }

  lemma ClaimedErrorKeeps(s: State, t: Tid, f: Fault)
    requires Inv(s) && t in s.threads && s.threads[t].GrpcSend? && !f.Works?
    ensures Inv(DoSendClaimed(s, t, f)) && Evolves(s, DoSendClaimed(s, t, f))
  {
    var pc := s.threads[t];
    assert PcOk(s, pc);
    var s1 := if f.Fails? then s else Delivering(s, pc.saga, pc.payload);
    if f.Fails? { GrowsSelf(s.db, s.hist); } else { MailedKeeps(s.db, s.hist, pc.saga, pc.payload); }
    ClaimStep(s, s1, t, GrpcRelease(pc.saga));
    SendKeepsDedupe(s, t, f);
  }

  lemma ReleaseKeeps(s: State, t: Tid)
    requires Inv(s) && t in s.threads && s.threads[t].GrpcRelease?
    ensures Inv(DoRelease(s, t)) && Evolves(s, DoRelease(s, t))
  {
    var pc := s.threads[t];
    assert PcOk(s, pc);
    var s' := DoRelease(s, t);
    GrowsSelf(s.db, s.hist);
    ClaimStep(s, s.(dedupe := s'.dedupe), t, GrpcReply(pc.saga, false));
    forall x | x in s'.dedupe && x !in s'.hist.mailed ensures exists r :: r in s'.threads && Holds(s'.threads[r], x) {
      var r :| r in s.threads && Holds(s.threads[r], x);
      assert r in s'.threads && Holds(s'.threads[r], x);
    }
  }

  lemma MarkSagaKeeps(s: State, t: Tid)
    requires Inv(s) && t in s.threads && s.threads[t].WorkerMark?
    ensures Inv(DoMarkSaga(s, t)) && Evolves(s, DoMarkSaga(s, t))
  {
    var pc := s.threads[t];
    assert PcOk(s, pc);
    var s' := DoMarkSaga(s, t);
    CountsFree(s.db, s.hist, s'.hist);
    ClaimStep(s, s.(dedupe := s'.dedupe, hist := s'.hist), t, WorkerReply(pc.tag, pc.msg, pc.saga, true, 1));
    DedupeKept(s, s');
  }

  lemma WorkerStepsKeep(s: State, a: NotifierStep)
    requires Inv(s) && NotifierEnabled(s, a)
             && (a.TakeCommand? || a.SendMail? || a.MarkSaga? || a.PublishReply? || a.SettleCommand?)
    ensures Inv(NotifierApply(s, a)) && Evolves(s, NotifierApply(s, a))
  {
    match a {
      case TakeCommand(t, tag, m) => TakeCommandKeeps(s, t, tag, m);
      case SendMail(t, f) => if f.Works? { SentKeeps(s, t); } else { NotSentKeeps(s, t, f); }
      case MarkSaga(t) => MarkSagaKeeps(s, t);
      case PublishReply(t, m, f, giveUp) => PublishReplyKeeps(s, t, m, f, giveUp);
      case SettleCommand(t) => SettleCommandKeeps(s, t);
    }
  }

  /** Every step of the notifier. */
  lemma NotifierKeeps(s: State, a: NotifierStep)
    requires Inv(s) && NotifierEnabled(s, a)
    ensures Inv(NotifierApply(s, a)) && Evolves(s, NotifierApply(s, a))
  {
    match a {
      case ClaimSaga(t) => if s.threads[t].saga in s.dedupe { SuppressKeeps(s, t); } else { ClaimKeeps(s, t); }
      case SendClaimed(t, f) => if f.Works? { ClaimedOkKeeps(s, t); } else { ClaimedErrorKeeps(s, t, f); }
      case ReleaseClaim(t) => ReleaseKeeps(s, t);
      case _ => WorkerStepsKeep(s, a);
    }
  }

  // ------------------------------------------------------------- surroundings

  /** Threads, entries and time may only go; nothing else changes. */
  lemma LossKeeps(s: State, s': State)
    requires Inv(s) && s' == s.(dedupe := s'.dedupe, threads := s'.threads, clock := s'.clock)
    requires Moved(s, s', {}) && s.clock <= s'.clock && DedupeOk(s')
    ensures Inv(s') && Evolves(s, s')
  {
    GrowsSelf(s.db, s.hist);
    ExtendsSelf(s.commands);
    ExtendsSelf(s.events);
    MsgsKept(s, s');
    ThreadsKept(s, s', {});
  }

  lemma CrashKeeps(s: State, a: WorldStep)
    requires Inv(s) && (a.CrashApp? || a.CrashNotifier? || a.DropEntry? || a.Tick?)
    ensures Inv(WorldApply(s, a)) && Evolves(s, WorldApply(s, a))
  {
    var s' := WorldApply(s, a);
    forall x | x in s'.dedupe && x !in s'.hist.mailed ensures exists r :: r in s'.threads && Holds(s'.threads[r], x) {
      var r :| r in s.threads && Holds(s.threads[r], x);
      assert r in s'.threads && Holds(s'.threads[r], x);
    }
    LossKeeps(s, s');
  }

  lemma LeaveKeeps(s: State, t: Tid)
    requires Inv(s) && WorldEnabled(s, Leave(t))
    ensures Inv(Exit(s, t)) && Evolves(s, Exit(s, t))
  {
    ThreadStep(s, t, None);
  }

  lemma QueuesKeep(s: State, s': State)
    requires Inv(s) && s' == s.(commands := s'.commands, events := s'.events)
    requires Extends(s.commands, s'.commands) && Extends(s.events, s'.events) && MsgsOk(s')
    ensures Inv(s') && Evolves(s, s')
  {
    GrowsSelf(s.db, s.hist);
    ThreadsKept(s, s', {});
  }

  lemma RedeliverKeeps(s: State, a: WorldStep)
    requires Inv(s) && WorldEnabled(s, a) && (a.RedeliverCommand? || a.RedeliverEvent?)
    ensures Inv(WorldApply(s, a)) && Evolves(s, WorldApply(s, a))
  {
    SettleConserves(s.commands, a.tag, Requeue);
    SettleConserves(s.events, a.tag, Requeue);
    ExtendsSelf(s.commands);
    ExtendsSelf(s.events);
    QueuesKeep(s, WorldApply(s, a));
  }

  lemma InjectKeeps(s: State, a: WorldStep)
    requires Inv(s) && WorldEnabled(s, a) && (a.InjectCommand? || a.InjectEvent?)
    ensures Inv(WorldApply(s, a)) && Evolves(s, WorldApply(s, a))
  {
    if a.InjectCommand? {
      PublishConserves(s.commands, a.msg, JunkCommand);
      ExtendsSelf(s.events);
      QueuesKeep(s, WorldApply(s, a));
    } else {
      ReplyPublished(s, a.msg, JunkEvent);
      ExtendsSelf(s.commands);
      QueuesKeep(s, WorldApply(s, a));
    }
  }

  /** Every step keeps the invariant and undoes nothing. */
  lemma StepKeeps(s: State, a: Step)
    requires Inv(s) && Enabled(s, a)
    ensures Inv(Apply(s, a)) && Evolves(s, Apply(s, a))
  {
    match a {
      case App(b) => AppKeeps(s, b);
      case Notify(b) => NotifierKeeps(s, b);
      case World(b) =>
        if b.Leave? {
          LeaveKeeps(s, b.t);
        } else if b.RedeliverCommand? || b.RedeliverEvent? {
          RedeliverKeeps(s, b);
        } else if b.InjectCommand? || b.InjectEvent? {
          InjectKeeps(s, b);
        } else {
          CrashKeeps(s, b);
        }
    }
  }
}
