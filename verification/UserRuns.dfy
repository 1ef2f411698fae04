/** What users get when their requests are handled alone: each handler as a run of
    its thread, with the rows and the command it leaves stated outright. */
module UserRuns {
  import opened Domain
  import opened Store
  import opened Queues
  import opened Protocol
  import opened Invariants
  import opened Steps
  import opened Runs
  import opened Orchestration
  import opened HandlerRuns

  // ------------------------------------------------------------------- confirm

  function ConfirmRun(t: Tid, k: Token, u: SubId, f: Fault): seq<Step> {
    [App(LookupConfirm(t, k, u))] + [App(WriteConfirm(t, f))]
  }

  /** `db'` is `db` with the subscription `u` confirmed. */
  ghost predicate Confirms(db: Db, db': Db, u: SubId)
    requires u in db.subs
  {
    && db'.sagas == db.sagas && db'.repos == db.repos && db'.cascade == db.cascade && db'.subs.Keys == db.subs.Keys
    && db'.subs[u].confirmed && db'.subs[u].repo == db.subs[u].repo && db'.subs[u].email == db.subs[u].email
    && db'.subs[u].confirmToken == db.subs[u].confirmToken && db'.subs[u].unsubToken == db.subs[u].unsubToken
    && forall v :: v in db.subs && v != u ==> db'.subs[v] == db.subs[v]
  }

  lemma ConfirmSteps(s: State, t: Tid, k: Token, u: SubId, f: Fault)
    requires t !in s.threads && u in s.db.subs && s.db.subs[u].confirmToken == k
    ensures Valid(s, ConfirmRun(t, k, u, f))
    ensures Exec(s, ConfirmRun(t, k, u, f)) == s.(db := Commit(f, s.db, ConfirmSub(s.db, u)))
  {
    var s1 := Put(s, t, ConfirmWrite(u, k));
    var s2 := DoWriteConfirm(s1, t, f);
    assert AppApply(s, LookupConfirm(t, k, u)) == s1 && AppApply(s1, WriteConfirm(t, f)) == s2;
    OneStepRun(s1, App(WriteConfirm(t, f)));
    OneStep(s, App(LookupConfirm(t, k, u)), [App(WriteConfirm(t, f))]);
    assert s.threads[t := ConfirmWrite(u, k)] - {t} == s.threads;
  }

  /** Confirm with a stored token: the row is confirmed exactly if the update reaches
      the table, and nothing else changes. */
  lemma ConfirmIsARun(s: State, t: Tid, k: Token, u: SubId, f: Fault)
    requires t !in s.threads && u in s.db.subs && s.db.subs[u].confirmToken == k
    ensures Valid(s, ConfirmRun(t, k, u, f))
    ensures var s' := Exec(s, ConfirmRun(t, k, u, f));
            s' == s.(db := s'.db) && if f.Fails? then s'.db == s.db else Confirms(s.db, s'.db, u)
  {
    ConfirmSteps(s, t, k, u, f);
    ConfirmSets(s.db, u);
  }

  /** What the scanner's query returns: the confirmed rows of that repository at
      their addresses, and nothing else. */
  lemma ListedAreTheConfirmed(s: State, t: Tid, repo: RepoId, rows: seq<Recipient>, who: Recipient)
    requires Enabled(s, App(ListConfirmed(t, repo, rows)))
    ensures who in rows <==>
              who.sub in s.db.subs && s.db.subs[who.sub].confirmed && s.db.subs[who.sub].repo == repo
              && s.db.subs[who.sub].email == who.to
  {
  }

  function AnnounceRun(t: Tid, n: nat): seq<Step>
    decreases n
  {
    if n == 0 then [App(Announce(t))] else [App(Announce(t))] + AnnounceRun(t, n - 1)
  }

  lemma AnnouncesFirst(s: State, t: Tid) returns (s1: State)
    requires t in s.threads && s.threads[t].ScanPublish? && s.threads[t].rest != []
    ensures Enabled(s, App(Announce(t))) && Apply(s, App(Announce(t))) == s1
    ensures var rest := s.threads[t].rest;
            s1 == s.(threads := s.threads[t := ScanPublish(rest[1..])],
                     hist := s.hist.(announced := s.hist.announced + {rest[0]}))
  {
    s1 := DoAnnounce(s, t);
    assert AppApply(s, Announce(t)) == s1;
  }

  function AsSet(rows: seq<Recipient>): set<Recipient> {
    set who | who in rows
  }

  lemma AsSetMore(rows: seq<Recipient>, before: set<Recipient>)
    requires rows != []
    ensures before + {rows[0]} + AsSet(rows[1..]) == before + AsSet(rows)
  {
  }

  /** The publish loop announces to every listed row, then ends. */
  lemma {:induction false} AnnounceIsARun(s: State, t: Tid)
    requires t in s.threads && s.threads[t].ScanPublish?
    ensures var rows := s.threads[t].rest; var run := AnnounceRun(t, |rows|);
            && Valid(s, run)
            && Exec(s, run) == s.(threads := s.threads - {t},
                                  hist := s.hist.(announced := s.hist.announced + AsSet(rows)))
    decreases |s.threads[t].rest|
  {
    var rows := s.threads[t].rest;
    if rows == [] {
      assert AppApply(s, Announce(t)) == DoAnnounce(s, t);
      OneStepRun(s, App(Announce(t)));
      assert s.hist.announced + AsSet(rows) == s.hist.announced;
    } else {
      var s1 := AnnouncesFirst(s, t);
      AnnounceIsARun(s1, t);
      OneStep(s, App(Announce(t)), AnnounceRun(t, |rows| - 1));
      AsSetMore(rows, s.hist.announced);
      assert s1.threads - {t} == s.threads - {t};
    }
  }

  /** A confirmed user is told: after Confirm whose update reaches the table, any
      fetch for the repository returns the user, and the publish loop over that fetch
      announces to the address that was stored. */
  lemma ConfirmedUserIsTold(s: State, t: Tid, k: Token, u: SubId, f: Fault, r: Tid, rows: seq<Recipient>)
    requires t !in s.threads && u in s.db.subs && s.db.subs[u].confirmToken == k && !f.Fails?
    requires Valid(s, ConfirmRun(t, k, u, f))
    requires Enabled(Exec(s, ConfirmRun(t, k, u, f)), App(ListConfirmed(r, s.db.subs[u].repo, rows)))
    ensures Recipient(u, s.db.subs[u].email) in rows
    ensures var s1 := Exec(s, ConfirmRun(t, k, u, f));
            var run := [App(ListConfirmed(r, s.db.subs[u].repo, rows))] + AnnounceRun(r, |rows|);
            Valid(s1, run) && Recipient(u, s.db.subs[u].email) in Exec(s1, run).hist.announced
  {
    ConfirmIsARun(s, t, k, u, f);
    var s1 := Exec(s, ConfirmRun(t, k, u, f));
    var repo := s.db.subs[u].repo;
    ListedAreTheConfirmed(s1, r, repo, rows, Recipient(u, s.db.subs[u].email));
    var s2 := Put(s1, r, ScanPublish(rows));
    assert AppApply(s1, ListConfirmed(r, repo, rows)) == s2;
    AnnounceIsARun(s2, r);
    OneStep(s1, App(ListConfirmed(r, repo, rows)), AnnounceRun(r, |rows|));
  }

  // --------------------------------------------------------------- unsubscribe

  function UnsubscribeRun(t: Tid, k: Token, u: SubId, f: Fault): seq<Step> {
    [App(LookupUnsub(t, k, u))] + [App(DeleteUnsub(t, f))]
  }

  lemma UnsubscribeSteps(s: State, t: Tid, k: Token, u: SubId, f: Fault)
    requires t !in s.threads && u in s.db.subs && s.db.subs[u].unsubToken == k
    ensures Valid(s, UnsubscribeRun(t, k, u, f))
    ensures Exec(s, UnsubscribeRun(t, k, u, f)) == s.(db := Commit(f, s.db, DeleteSub(s.db, u)))
  {
    var s1 := Put(s, t, UnsubDelete(u));
    var s2 := DoDeleteUnsub(s1, t, f);
    assert AppApply(s, LookupUnsub(t, k, u)) == s1 && AppApply(s1, DeleteUnsub(t, f)) == s2;
    OneStepRun(s1, App(DeleteUnsub(t, f)));
    OneStep(s, App(LookupUnsub(t, k, u)), [App(DeleteUnsub(t, f))]);
    assert s.threads[t := UnsubDelete(u)] - {t} == s.threads;
  }

  /** Unsubscribe with a stored token removes that subscription, exactly if the delete
      reaches the table, with its sagas where the foreign key cascades, and nothing
      else. */
  lemma UnsubscribeIsARun(s: State, t: Tid, k: Token, u: SubId, f: Fault)
    requires t !in s.threads && u in s.db.subs && s.db.subs[u].unsubToken == k
    ensures Valid(s, UnsubscribeRun(t, k, u, f))
    ensures var s' := Exec(s, UnsubscribeRun(t, k, u, f));
            && s' == s.(db := s'.db) && (if f.Fails? then s'.db == s.db else s'.db.subs == s.db.subs - {u})
            && s'.db.repos == s.db.repos
            && (forall x :: x in s'.db.sagas <==>
                              x in s.db.sagas && (f.Fails? || !s.db.cascade || s.db.sagas[x].sub != u))
            && (forall x :: x in s'.db.sagas ==> s'.db.sagas[x] == s.db.sagas[x])
  {
    UnsubscribeSteps(s, t, k, u, f);
    DeleteRemoves(s.db, u);
  }

  // ----------------------------------------------------------------- subscribe

  /** What one Subscribe asks for and draws. */
  datatype Request = Request(email: Address, name: RepoName, repo: RepoId, sub: SubId, saga: SagaId,
                             confirmToken: Token, unsubToken: Token, msg: MsgId)

  /** The query finds a row of that address and repository. */
  predicate Taken(db: Db, email: Address, repo: RepoId) {
    exists u :: u in db.subs && db.subs[u].email == email && db.subs[u].repo == repo
  }

  /** The names it draws are new. */
  predicate Fresh(s: State, q: Request) {
    && q.sub !in s.hist.owner && q.sub !in s.db.subs && q.saga !in s.hist.births && q.saga !in s.db.sagas
    && FreshToken(s, q.confirmToken) && FreshToken(s, q.unsubToken) && q.confirmToken != q.unsubToken
    && q.msg !in s.commands.bodies && forall x :: x in s.db.sagas ==> s.db.sagas[x].sub != q.sub
  }

  /** From the check on, for a pair that is not stored. */
  function NewPairRun(s: State, t: Tid, q: Request, send: Fault, fail: FailFaults): seq<Step> {
    [App(DrawStart(t))]
    + ([App(CreateWithSaga(t, q.sub, q.saga, q.confirmToken, q.unsubToken, Works))]
       + PublishRun(Asked(s, q), q.saga, t, q.msg, send, fail))
  }

  /** The steps, when the statements work and the publish ends as `send` says. */
  function SubscribeRun(s: State, t: Tid, q: Request, send: Fault, fail: FailFaults): seq<Step> {
    [App(GetOrCreateRepo(t, q.email, q.name, q.repo, Works))]
    + ([App(CheckExists(t, Works))]
       + (if Taken(s.db, q.email, q.repo) then []
          else NewPairRun(s, t, q, send, fail)))
  }

  /** The tables with the request's rows: an unconfirmed subscription with its tokens,
      and its pending saga. */
  function Asked(s: State, q: Request): Db {
    var row := SubRow(q.repo, q.email, false, q.confirmToken, q.unsubToken);
    s.db.(repos := s.db.repos[q.repo := q.name], subs := s.db.subs[q.sub := row],
          sagas := s.db.sagas[q.saga := SagaRow(q.sub, Pending, s.clock)])
  }

  lemma RepoIsThere(s: State, t: Tid, q: Request) returns (s1: State)
    requires CanGetOrCreate(s, t, q.name, q.repo)
    ensures var a := App(GetOrCreateRepo(t, q.email, q.name, q.repo, Works)); Enabled(s, a) && Apply(s, a) == s1
    ensures s1 == s.(db := s.db.(repos := s.db.repos[q.repo := q.name]),
                     threads := s.threads[t := SubscribeCheck(q.email, q.name, q.repo)])
  {
    s1 := DoGetOrCreate(s, t, q.email, q.name, q.repo, Works);
    assert AppApply(s, GetOrCreateRepo(t, q.email, q.name, q.repo, Works)) == s1;
  }

  lemma PairIsChecked(s: State, t: Tid, q: Request) returns (s1: State)
    requires t in s.threads && s.threads[t] == SubscribeCheck(q.email, q.name, q.repo)
    ensures Enabled(s, App(CheckExists(t, Works))) && Apply(s, App(CheckExists(t, Works))) == s1
    ensures s1 == s.(threads := if Taken(s.db, q.email, q.repo) then s.threads - {t}
                                else s.threads[t := SubscribeDraw(q.email, q.name, q.repo)])
  {
    s1 := DoCheckExists(s, t, Works);
    assert AppApply(s, CheckExists(t, Works)) == s1;
  }

  lemma StartIsDrawn(s: State, t: Tid, q: Request) returns (s1: State)
    requires t in s.threads && s.threads[t] == SubscribeDraw(q.email, q.name, q.repo)
    ensures Enabled(s, App(DrawStart(t))) && Apply(s, App(DrawStart(t))) == s1
    ensures s1 == s.(threads := s.threads[t := SubscribeWrite(q.email, q.name, q.repo, s.clock)])
  {
    s1 := DoDrawStart(s, t);
    assert AppApply(s, DrawStart(t)) == s1;
  }

  lemma RowsAreWritten(s: State, t: Tid, q: Request) returns (s1: State)
    requires t in s.threads && s.threads[t] == SubscribeWrite(q.email, q.name, q.repo, s.clock)
    requires Fresh(s, q) && q.repo in s.db.repos && s.db.repos[q.repo] == q.name
    ensures var a := App(CreateWithSaga(t, q.sub, q.saga, q.confirmToken, q.unsubToken, Works));
            Enabled(s, a) && Apply(s, a) == s1
    ensures s1.db == Asked(s, q) && s1.commands == s.commands
    ensures s1.threads == s.threads[t := PublishCommand(q.saga, Payload(q.email, q.name, q.confirmToken))]
  {
    var a := CreateWithSaga(t, q.sub, q.saga, q.confirmToken, q.unsubToken, Works);
    s1 := DoCreate(s, t, q.sub, q.saga, q.confirmToken, q.unsubToken, Works);
    assert AppApply(s, a) == s1;
    assert s.db.repos[q.repo := q.name] == s.db.repos;
  }

  /** The command to mail the token to the address reached the queue. */
  ghost predicate CommandQueued(s: State, s': State, q: Request) {
    && q.msg !in s.commands.bodies
    && s'.commands == Publish(s.commands, q.msg,
                              SendConfirmation(q.saga, Payload(q.email, q.name, q.confirmToken)))
  }

  /** A new pair is stored and its command is published. */
  ghost predicate Subscribes(s: State, s': State, q: Request) {
    s'.db == Asked(s, q) && CommandQueued(s, s', q)
  }

  /** The publish returned an error, whether or not the command reached the queue: the
      subscription is gone again if the compensation's read worked and its delete
      landed, and is otherwise kept with its saga pending. */
  ghost predicate Withdraws(s: State, s': State, q: Request, send: Fault, fail: FailFaults) {
    (if send.Fails? then s'.commands == s.commands else CommandQueued(s, s', q)) &&
    if fail.get.Works? && !fail.delete.Fails?
    then s'.db.subs == s.db.subs && (s.db.cascade ==> s'.db.sagas == s.db.sagas)
    else s'.db == Asked(s, q)
  }

  lemma SentCommand(s: State, t: Tid, q: Request, fail: FailFaults)
    requires t in s.threads && q.msg !in s.commands.bodies
    requires s.threads[t] == PublishCommand(q.saga, Payload(q.email, q.name, q.confirmToken))
    ensures var run := PublishRun(s.db, q.saga, t, q.msg, Works, fail);
            && Valid(s, run) && Exec(s, run).db == s.db && Exec(s, run).threads == s.threads - {t}
            && Exec(s, run).commands == Publish(s.commands, q.msg,
                                                SendConfirmation(q.saga, Payload(q.email, q.name, q.confirmToken)))
  {
    var a := App(SendCommand(t, q.msg, Works));
    assert AppApply(s, a.app) == DoSendCommand(s, t, q.msg, Works);
    OneStepRun(s, a);
    assert PublishRun(s.db, q.saga, t, q.msg, Works, fail) == [a];
  }

  lemma WithdrawnRows(s: State, q: Request, send: Fault, fail: FailFaults, s': State)
    requires Fresh(s, q) && !send.Works? && s'.db == Published(Asked(s, q), q.saga, send, fail).db
    requires if send.Fails? then s'.commands == s.commands else CommandQueued(s, s', q)
    ensures Withdraws(s, s', q, send, fail)
  {
    var db := Asked(s, q);
    assert db.subs - {q.sub} == s.db.subs;
    if s.db.cascade {
      assert DeleteSub(db, q.sub).sagas == s.db.sagas;
    }
  }

  lemma PublishEnds(s0: State, s: State, t: Tid, q: Request, send: Fault, fail: FailFaults)
    requires Fresh(s0, q) && t in s.threads && s.db == Asked(s0, q) && s.commands == s0.commands
    requires s.threads[t] == PublishCommand(q.saga, Payload(q.email, q.name, q.confirmToken))
    ensures var run := PublishRun(s.db, q.saga, t, q.msg, send, fail);
            && Valid(s, run) && Exec(s, run).threads == s.threads - {t}
            && if send.Works? then Subscribes(s0, Exec(s, run), q) else Withdraws(s0, Exec(s, run), q, send, fail)
  {
    if send.Works? {
      SentCommand(s, t, q, fail);
    } else {
      PublishIsARun(s, t, q.msg, send, fail);
      WithdrawnRows(s0, q, send, fail, Exec(s, PublishRun(s.db, q.saga, t, q.msg, send, fail)));
    }
  }

  lemma SameAsked(s0: State, s: State, q: Request)
    requires s.db == s0.db.(repos := s0.db.repos[q.repo := q.name]) && s.clock == s0.clock
    ensures Asked(s, q) == Asked(s0, q)
  {
    assert s.db.repos[q.repo := q.name] == s.db.repos;
  }

  lemma RowsAreDrawnAndWritten(s0: State, s: State, t: Tid, q: Request) returns (s1: State, s2: State)
    requires Fresh(s0, q) && t in s.threads && s.threads[t] == SubscribeDraw(q.email, q.name, q.repo)
    requires s == s0.(db := s0.db.(repos := s0.db.repos[q.repo := q.name]), threads := s.threads)
    ensures Enabled(s, App(DrawStart(t))) && Apply(s, App(DrawStart(t))) == s1
    ensures var a := App(CreateWithSaga(t, q.sub, q.saga, q.confirmToken, q.unsubToken, Works));
            Enabled(s1, a) && Apply(s1, a) == s2
    ensures s2.db == Asked(s0, q) && s2.commands == s0.commands && t in s2.threads
    ensures s2.threads[t] == PublishCommand(q.saga, Payload(q.email, q.name, q.confirmToken))
    ensures s2.threads - {t} == s.threads - {t}
  {
    s1 := StartIsDrawn(s, t, q);
    s2 := RowsAreWritten(s1, t, q);
    SameAsked(s0, s1, q);
  }

  lemma NewPairIsARun(s0: State, s: State, t: Tid, q: Request, send: Fault, fail: FailFaults)
    requires Fresh(s0, q) && t in s.threads && s.threads[t] == SubscribeDraw(q.email, q.name, q.repo)
    requires s == s0.(db := s0.db.(repos := s0.db.repos[q.repo := q.name]), threads := s.threads)
    ensures var run := NewPairRun(s0, t, q, send, fail);
            && Valid(s, run) && Exec(s, run).threads == s.threads - {t}
            && if send.Works? then Subscribes(s0, Exec(s, run), q) else Withdraws(s0, Exec(s, run), q, send, fail)
  {
    var publish := PublishRun(Asked(s0, q), q.saga, t, q.msg, send, fail);
    var create := App(CreateWithSaga(t, q.sub, q.saga, q.confirmToken, q.unsubToken, Works));
    var s1, s2 := RowsAreDrawnAndWritten(s0, s, t, q);
    PublishEnds(s0, s2, t, q, send, fail);
    OneStep(s1, create, publish);
    OneStep(s, App(DrawStart(t)), [create] + publish);
  }

  /** Subscribe handled alone. If the pair is stored nothing is inserted and nothing
      published. If not, and the publish works, there is a new unconfirmed row with
      its tokens, its pending saga, started now, and the command to mail that token
      to that address; if the publish fails, the compensation withdraws the row, or
      leaves its saga to the sweeper. */
  lemma SubscribeIsARun(s: State, t: Tid, q: Request, send: Fault, fail: FailFaults)
    requires CanGetOrCreate(s, t, q.name, q.repo) && Fresh(s, q)
    ensures Valid(s, SubscribeRun(s, t, q, send, fail))
    ensures var s' := Exec(s, SubscribeRun(s, t, q, send, fail));
            && s'.threads == s.threads
            && if Taken(s.db, q.email, q.repo)
               then s'.db == s.db.(repos := s.db.repos[q.repo := q.name]) && s'.commands == s.commands
               else if send.Works? then Subscribes(s, s', q)
               else Withdraws(s, s', q, send, fail)
  {
    var s1 := RepoIsThere(s, t, q);
    var s2 := PairIsChecked(s1, t, q);
    var check, rest := App(CheckExists(t, Works)), NewPairRun(s, t, q, send, fail);
    assert s.threads[t := SubscribeCheck(q.email, q.name, q.repo)] - {t} == s.threads;
    assert s1.threads[t := SubscribeDraw(q.email, q.name, q.repo)] - {t} == s.threads;
    if Taken(s.db, q.email, q.repo) {
      rest := [];
    } else {
      NewPairIsARun(s, s2, t, q, send, fail);
    }
    OneStep(s1, check, rest);
    OneStep(s, App(GetOrCreateRepo(t, q.email, q.name, q.repo, Works)), [check] + rest);
  }

  // --------------------------------------------------------- subscribe failing

  /** The request ended with an error and left no subscription, saga or command. */
  ghost predicate LeavesNothing(s: State, s': State) {
    && s'.db.subs == s.db.subs && s'.db.sagas == s.db.sagas && s'.commands == s.commands && s'.threads == s.threads
  }

  lemma RepoFails(s: State, t: Tid, q: Request, f: Fault)
    requires CanGetOrCreate(s, t, q.name, q.repo) && !f.Works?
    ensures var run := [App(GetOrCreateRepo(t, q.email, q.name, q.repo, f))];
            Valid(s, run) && LeavesNothing(s, Exec(s, run))
  {
    assert AppApply(s, GetOrCreateRepo(t, q.email, q.name, q.repo, f))
           == DoGetOrCreate(s, t, q.email, q.name, q.repo, f);
    OneStepRun(s, App(GetOrCreateRepo(t, q.email, q.name, q.repo, f)));
  }

  lemma CheckFails(s: State, t: Tid, q: Request, f: Fault)
    requires CanGetOrCreate(s, t, q.name, q.repo) && !f.Works?
    ensures var run := [App(GetOrCreateRepo(t, q.email, q.name, q.repo, Works))] + [App(CheckExists(t, f))];
            Valid(s, run) && LeavesNothing(s, Exec(s, run))
  {
    var s1 := RepoIsThere(s, t, q);
    assert AppApply(s1, CheckExists(t, f)) == DoCheckExists(s1, t, f);
    OneStepRun(s1, App(CheckExists(t, f)));
    OneStep(s, App(GetOrCreateRepo(t, q.email, q.name, q.repo, Works)), [App(CheckExists(t, f))]);
    assert s1.threads - {t} == s.threads;
  }

  function CreateFailsRun(t: Tid, q: Request, f: Fault): seq<Step> {
    [App(GetOrCreateRepo(t, q.email, q.name, q.repo, Works))]
    + ([App(CheckExists(t, Works))] + InsertFailsRun(t, q, f))
  }

  function InsertFailsRun(t: Tid, q: Request, f: Fault): seq<Step> {
    [App(DrawStart(t))] + [App(CreateWithSaga(t, q.sub, q.saga, q.confirmToken, q.unsubToken, f))]
  }

  lemma InsertFails(s: State, t: Tid, q: Request, f: Fault) returns (s1: State)
    requires t in s.threads && s.threads[t] == SubscribeWrite(q.email, q.name, q.repo, s.clock)
    requires Fresh(s, q) && q.repo in s.db.repos && s.db.repos[q.repo] == q.name && !f.Works?
    ensures var run := [App(CreateWithSaga(t, q.sub, q.saga, q.confirmToken, q.unsubToken, f))];
            Valid(s, run) && Exec(s, run) == s1
    ensures s1.db == (if f.Fails? then s.db else Asked(s, q)) && s1.commands == s.commands
    ensures s1.threads == s.threads - {t}
  {
    var a := CreateWithSaga(t, q.sub, q.saga, q.confirmToken, q.unsubToken, f);
    s1 := DoCreate(s, t, q.sub, q.saga, q.confirmToken, q.unsubToken, f);
    assert AppApply(s, a) == s1;
    OneStepRun(s, App(a));
    assert s.db.repos[q.repo := q.name] == s.db.repos;
  }

  lemma DrawnInsertFails(s0: State, s: State, t: Tid, q: Request, f: Fault)
    requires Fresh(s0, q) && t in s.threads && s.threads[t] == SubscribeDraw(q.email, q.name, q.repo) && !f.Works?
    requires s == s0.(db := s0.db.(repos := s0.db.repos[q.repo := q.name]), threads := s.threads)
    ensures Valid(s, InsertFailsRun(t, q, f))
    ensures var s' := Exec(s, InsertFailsRun(t, q, f));
            && s'.db == (if f.Fails? then s.db else Asked(s0, q)) && s'.commands == s0.commands
            && s'.threads == s.threads - {t}
  {
    var s1 := StartIsDrawn(s, t, q);
    var s2 := InsertFails(s1, t, q, f);
    OneStep(s, App(DrawStart(t)), [App(CreateWithSaga(t, q.sub, q.saga, q.confirmToken, q.unsubToken, f))]);
    SameAsked(s0, s1, q);
    assert s1.threads - {t} == s.threads - {t};
  }

  /** Both rows land or neither does: a Subscribe whose insert returns an error leaves
      nothing, or, if the transaction committed all the same, both rows, the saga
      pending for the sweeper; it never publishes. */
  lemma CreateFails(s: State, t: Tid, q: Request, f: Fault)
    requires CanGetOrCreate(s, t, q.name, q.repo) && Fresh(s, q) && !Taken(s.db, q.email, q.repo) && !f.Works?
    ensures Valid(s, CreateFailsRun(t, q, f))
    ensures var s' := Exec(s, CreateFailsRun(t, q, f));
            if f.Fails? then LeavesNothing(s, s')
            else s'.db == Asked(s, q) && s'.commands == s.commands && s'.threads == s.threads
  {
    var s1 := RepoIsThere(s, t, q);
    var s2 := PairIsChecked(s1, t, q);
    DrawnInsertFails(s, s2, t, q, f);
    OneStep(s1, App(CheckExists(t, Works)), InsertFailsRun(t, q, f));
    OneStep(s, App(GetOrCreateRepo(t, q.email, q.name, q.repo, Works)),
            [App(CheckExists(t, Works))] + InsertFailsRun(t, q, f));
    assert s2.threads - {t} == s.threads;
  }

  predicate SamePair(row: SubRow, row': SubRow) {
    row.email == row'.email && row.repo == row'.repo
  }

  /** No two rows of one address and repository. */
  ghost predicate PairsUnique(db: Db) {
    forall u, v :: u in db.subs && v in db.subs && SamePair(db.subs[u], db.subs[v]) ==> u == v
  }

  /** Handled one at a time, Subscribes never store a pair twice. */
  lemma SubscribeKeepsPairsUnique(s: State, t: Tid, q: Request, send: Fault, fail: FailFaults)
    requires CanGetOrCreate(s, t, q.name, q.repo) && Fresh(s, q) && PairsUnique(s.db)
    requires Valid(s, SubscribeRun(s, t, q, send, fail))
    ensures PairsUnique(Exec(s, SubscribeRun(s, t, q, send, fail)).db)
  {
    SubscribeIsARun(s, t, q, send, fail);
  }

  // --------------------------------------------------- tokens and repositories

  /** No two stored subscriptions share an unsubscribe token, and none of these is a
      confirm token, even of a subscription that is gone. */
  ghost predicate TokensApart(s: State) {
    && (forall u, v :: u in s.db.subs && v in s.db.subs && s.db.subs[u].unsubToken == s.db.subs[v].unsubToken ==>
          u == v)
    && (forall u, x :: u in s.db.subs && x in s.hist.births ==> s.hist.births[x].token != s.db.subs[u].unsubToken)
  }

  /** A repository name has one row. */
  ghost predicate ReposApart(db: Db) {
    forall r, r' :: r in db.repos && r' in db.repos && db.repos[r] == db.repos[r'] ==> r == r'
  }

  /** No subscription and no repository is inserted. */
  ghost predicate InsertsNothing(s: State, s': State) {
    s'.hist.births == s.hist.births && s'.db.repos == s.db.repos
    && forall u :: u in s'.db.subs ==> u in s.db.subs && s'.db.subs[u].unsubToken == s.db.subs[u].unsubToken
  }

  lemma DeleteInsertsNothing(s: State, t: Tid, f: Fault)
    requires t in s.threads && s.threads[t].FailDelete?
    ensures InsertsNothing(s, DoDeleteForFail(s, t, f))
  {
  }

  lemma MarkInsertsNothing(s: State, x: SagaId, state: SagaState, f: Fault)
    ensures InsertsNothing(s, DoMark(s, x, state, f))
  {
  }

  lemma MarkSentInsertsNothing(s: State, t: Tid, f: Fault)
    requires t in s.threads && s.threads[t].SentMark?
    ensures InsertsNothing(s, DoMarkSent(s, t, f))
  {
    MarkInsertsNothing(s, s.threads[t].saga, Completed, f);
  }

  lemma MarkFailedInsertsNothing(s: State, t: Tid, f: Fault)
    requires t in s.threads && s.threads[t].FailMark?
    ensures InsertsNothing(s, DoMarkFailed(s, t, f))
  {
    MarkInsertsNothing(s, s.threads[t].saga, Compensated, f);
  }

  lemma MarkRetriedInsertsNothing(s: State, t: Tid, f: Fault)
    requires t in s.threads && s.threads[t].RetryMark?
    ensures InsertsNothing(s, DoMarkRetried(s, t, f))
  {
    MarkInsertsNothing(s, s.threads[t].saga, Completed, f);
  }

  lemma HandlerStepsInsertNothing(s: State, a: AppStep)
    requires AppEnabled(s, a) && IsHandlerStep(a)
    ensures InsertsNothing(s, AppApply(s, a))
  {
    match a {
      case MarkSent(t, f) => MarkSentInsertsNothing(s, t, f);
      case GetForFail(t, f) => assert InsertsNothing(s, DoGetForFail(s, t, f));
      case DeleteForFail(t, f) => DeleteInsertsNothing(s, t, f);
      case MarkFailed(t, f) => MarkFailedInsertsNothing(s, t, f);
      case TakeReply(t, tag, m) => assert InsertsNothing(s, DoTakeReply(s, t, tag, m));
      case SettleReply(t) => assert InsertsNothing(s, DoSettleReply(s, t));
    }
  }

  lemma RetryStepsInsertNothing(s: State, a: AppStep)
    requires AppEnabled(s, a) && IsRetryStep(a)
    ensures InsertsNothing(s, AppApply(s, a))
  {
    match a {
      case GetForRetry(t, f) => assert InsertsNothing(s, DoGetForRetry(s, t, f));
      case LoadForRetry(t, f) => assert InsertsNothing(s, DoLoadForRetry(s, t, f));
      case CallNotifier(t, rpc) => assert InsertsNothing(s, DoCallNotifier(s, t, rpc));
      case CallReturns(t, ok) => assert InsertsNothing(s, DoCallReturns(s, t, ok));
      case MarkRetried(t, f) => MarkRetriedInsertsNothing(s, t, f);
    }
  }

  predicate IsUserStep(a: AppStep) {
    a.LookupConfirm? || a.WriteConfirm? || a.LookupUnsub? || a.DeleteUnsub? || a.ListConfirmed? || a.Announce?
  }

  lemma UserWritesInsertNothing(s: State, t: Tid, f: Fault)
    requires t in s.threads
    ensures s.threads[t].ConfirmWrite? ==> InsertsNothing(s, DoWriteConfirm(s, t, f))
    ensures s.threads[t].UnsubDelete? ==> InsertsNothing(s, DoDeleteUnsub(s, t, f))
  {
  }

  lemma UserStepsInsertNothing(s: State, a: AppStep)
    requires AppEnabled(s, a) && IsUserStep(a)
    ensures InsertsNothing(s, AppApply(s, a))
  {
    match a {
      case WriteConfirm(t, f) => UserWritesInsertNothing(s, t, f);
      case DeleteUnsub(t, f) => UserWritesInsertNothing(s, t, f);
      case Announce(t) => assert InsertsNothing(s, DoAnnounce(s, t));
      case LookupConfirm(t, k, u) => assert InsertsNothing(s, Put(s, t, ConfirmWrite(u, k)));
      case LookupUnsub(t, _, u) => assert InsertsNothing(s, Put(s, t, UnsubDelete(u)));
      case ListConfirmed(t, _, rows) => assert InsertsNothing(s, Put(s, t, ScanPublish(rows)));
    }
  }

  lemma OtherAppStepsInsertNothing(s: State, a: AppStep)
    requires AppEnabled(s, a) && !IsRetryStep(a) && !IsHandlerStep(a) && !IsUserStep(a)
    requires !a.CreateWithSaga? && !a.GetOrCreateRepo?
    ensures InsertsNothing(s, AppApply(s, a))
  {
  }

  lemma OtherStepsInsertNothing(s: State, a: Step)
    requires Enabled(s, a) && !a.App?
    ensures InsertsNothing(s, Apply(s, a))
  {
  }

  lemma InsertKeepsTokensApart(s: State, t: Tid, u: SubId, x: SagaId, k: Token, k': Token, f: Fault)
    requires AppEnabled(s, CreateWithSaga(t, u, x, k, k', f)) && TokensApart(s)
    ensures TokensApart(DoCreate(s, t, u, x, k, k', f)) && DoCreate(s, t, u, x, k, k', f).db.repos == s.db.repos
  {
  }

  lemma RepoKeepsReposApart(s: State, t: Tid, email: Address, name: RepoName, repo: RepoId, f: Fault)
    requires CanGetOrCreate(s, t, name, repo) && ReposApart(s.db) && TokensApart(s)
    ensures var s' := DoGetOrCreate(s, t, email, name, repo, f); ReposApart(s'.db) && TokensApart(s')
  {
  }

  lemma StepKeepsNamesApart(s: State, a: Step)
    requires Enabled(s, a) && TokensApart(s) && ReposApart(s.db)
    ensures TokensApart(Apply(s, a)) && ReposApart(Apply(s, a).db)
  {
    if a.App? && a.app.CreateWithSaga? {
      var c := a.app;
      assert AppApply(s, c) == DoCreate(s, c.t, c.sub, c.saga, c.confirmToken, c.unsubToken, c.f);
      InsertKeepsTokensApart(s, c.t, c.sub, c.saga, c.confirmToken, c.unsubToken, c.f);
    } else if a.App? && a.app.GetOrCreateRepo? {
      var c := a.app;
      assert AppApply(s, c) == DoGetOrCreate(s, c.t, c.email, c.name, c.repo, c.f);
      RepoKeepsReposApart(s, c.t, c.email, c.name, c.repo, c.f);
    } else {
      if !a.App? {
        OtherStepsInsertNothing(s, a);
      } else if IsRetryStep(a.app) {
        RetryStepsInsertNothing(s, a.app);
      } else if IsHandlerStep(a.app) {
        HandlerStepsInsertNothing(s, a.app);
      } else if IsUserStep(a.app) {
        UserStepsInsertNothing(s, a.app);
      } else {
        OtherAppStepsInsertNothing(s, a.app);
      }
      assert InsertsNothing(s, Apply(s, a));
    }
  }

  lemma {:induction false} RunKeepsNamesApart(s: State, run: seq<Step>)
    requires Valid(s, run) && TokensApart(s) && ReposApart(s.db)
    ensures TokensApart(Exec(s, run)) && ReposApart(Exec(s, run).db)
    decreases |run|
  {
    if run != [] {
      StepKeepsNamesApart(s, run[0]);
      RunKeepsNamesApart(Apply(s, run[0]), run[1..]);
    }
  }

  lemma ReachableNamesApart(s: State, cascade: bool)
    requires Reachable(s, cascade)
    ensures TokensApart(s) && ReposApart(s.db)
  {
    var run :| Valid(Init(cascade), run) && Exec(Init(cascade), run) == s;
    RunKeepsNamesApart(Init(cascade), run);
  }

  lemma ConfirmTokenIsItsBirths(s: State, u: SubId)
    requires Inv(s) && u in s.db.subs
    ensures u in s.hist.owner && s.hist.owner[u] in s.hist.births && s.hist.births[s.hist.owner[u]].sub == u
    ensures s.db.subs[u].confirmToken == s.hist.births[s.hist.owner[u]].token
  {
    assert SubOk(s.db, s.hist, u);
  }

  lemma StoredTokensApart(s: State, u: SubId, v: SubId)
    requires Inv(s) && TokensApart(s) && u in s.db.subs && v in s.db.subs
    ensures s.db.subs[u].confirmToken == s.db.subs[v].confirmToken ==> u == v
    ensures s.db.subs[u].unsubToken == s.db.subs[v].unsubToken ==> u == v
    ensures s.db.subs[u].confirmToken != s.db.subs[v].unsubToken
  {
    ConfirmTokenIsItsBirths(s, u);
    ConfirmTokenIsItsBirths(s, v);
  }

  /** What a link with token `k` does to the subscription it is looked up for. */
  predicate Confirmable(s: State, t: Tid, k: Token, u: SubId) {
    Enabled(s, App(LookupConfirm(t, k, u)))
  }

  predicate Unsubscribable(s: State, t: Tid, k: Token, u: SubId) {
    Enabled(s, App(LookupUnsub(t, k, u)))
  }

  lemma LookupsMatch(s: State, t: Tid, k: Token, u: SubId)
    ensures Confirmable(s, t, k, u) ==> u in s.db.subs && s.db.subs[u].confirmToken == k
    ensures Unsubscribable(s, t, k, u) ==> u in s.db.subs && s.db.subs[u].unsubToken == k
  {
  }

  /** A token opens one subscription and does one thing: in every reachable state a
      confirm link confirms one subscription only, an unsubscribe link removes one
      only, and no token is both. */
  lemma OneTokenOneSubscription(s: State, cascade: bool, t: Tid, r: Tid, k: Token, u: SubId, v: SubId)
    requires Reachable(s, cascade)
    ensures Confirmable(s, t, k, u) && Confirmable(s, r, k, v) ==> u == v
    ensures Unsubscribable(s, t, k, u) && Unsubscribable(s, r, k, v) ==> u == v
    ensures !(Confirmable(s, t, k, u) && Unsubscribable(s, r, k, v))
  {
    LookupsMatch(s, t, k, u);
    LookupsMatch(s, r, k, v);
    if u in s.db.subs && v in s.db.subs {
      ReachableInv(s, cascade);
      ReachableNamesApart(s, cascade);
      StoredTokensApart(s, u, v);
    }
  }

  /** Get-or-create under any interleaving: a repository name never has two rows, and
      a Subscribe for a name that is stored gets its row. */
  lemma OneRowPerRepository(s: State, cascade: bool, t: Tid, r: RepoId, q: Request)
    requires Reachable(s, cascade) && r in s.db.repos
    ensures forall r' :: r' in s.db.repos && s.db.repos[r'] == s.db.repos[r] ==> r' == r
    ensures CanGetOrCreate(s, t, s.db.repos[r], q.repo) ==> q.repo == r
  {
    ReachableNamesApart(s, cascade);
  }
}
