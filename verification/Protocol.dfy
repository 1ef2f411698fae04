/** The Subscribe saga as an interleaved protocol.

    Every request, reply handler, sweep, scan, command handler and gRPC call is a
    thread with a program counter. One step is one SQL statement, one broker call,
    one mail-provider call or one locked dedupe operation of one thread, or an
    event of the surroundings: a crash, a redelivery, the clock, the loss of a
    dedupe entry. A step carries everything the environment decides. */
module Protocol {
  import opened Domain
  import opened Store
  import opened Queues

  newtype Tid = n: int | 0 <= n

  datatype Command = SendConfirmation(saga: SagaId, payload: Payload) | JunkCommand

  datatype Event = ConfirmationSent(saga: SagaId) | ConfirmationFailed(saga: SagaId) | JunkEvent

  datatype Recipient = Recipient(sub: SubId, to: Address)

  /** A running sweep: sagas still to visit, the age threshold, every saga that
      existed when the stuck ones were fetched, and whether the compensations
      tried so far have all succeeded. */
  datatype Sweep = Sweep(todo: seq<SagaId>, threshold: int, known: set<SagaId>, clean: bool)

  /** Who called HandleFailed and gets its result. */
  datatype Caller = FromPublish | FromReply(tag: Tag, msg: MsgId, event: Event) | FromSweep(sweep: Sweep)

  datatype Pc =
    // Subscribe
    | SubscribeCheck(email: Address, name: RepoName, repo: RepoId)
    | SubscribeDraw(email: Address, name: RepoName, repo: RepoId)
    | SubscribeWrite(email: Address, name: RepoName, repo: RepoId, startedAt: int)
    | PublishCommand(saga: SagaId, payload: Payload)
    // Orchestrator
    | SentMark(saga: SagaId, tag: Tag, msg: MsgId, event: Event)
    | FailGet(saga: SagaId, caller: Caller)
    | FailDelete(saga: SagaId, sub: SubId, caller: Caller)
    | FailMark(saga: SagaId, caller: Caller)
    | RetryGet(saga: SagaId, sweep: Sweep)
    | RetryLoad(saga: SagaId, sub: SubId, sweep: Sweep)
    | RetryCall(saga: SagaId, payload: Payload, sweep: Sweep)
    | RetryAwait(saga: SagaId, rpc: Tid, sweep: Sweep)
    | RetryMark(saga: SagaId, sweep: Sweep)
    | ReplySettle(tag: Tag, msg: MsgId, event: Event, verdict: Verdict)
    // Sweeper
    | SweepFetch(threshold: int)
    | SweepLoop(sweep: Sweep)
    | SweepDone(sweep: Sweep)
    // Confirm, Unsubscribe and the scanner's publish loop
    | ConfirmWrite(sub: SubId, token: Token)
    | UnsubDelete(sub: SubId)
    | ScanPublish(rest: seq<Recipient>)
    // Notifier: command handler
    | WorkerSend(tag: Tag, msg: MsgId, saga: SagaId, payload: Payload)
    | WorkerMark(tag: Tag, msg: MsgId, saga: SagaId)
    | WorkerReply(tag: Tag, msg: MsgId, saga: SagaId, sent: bool, attempt: nat)
    | WorkerSettle(tag: Tag, verdict: Verdict)
    // Notifier: gRPC handler
    | GrpcClaim(saga: SagaId, payload: Payload)
    | GrpcSend(saga: SagaId, payload: Payload)
    | GrpcRelease(saga: SagaId)
    | GrpcReply(saga: SagaId, ok: bool)

  /** What CreateWithSaga wrote for a saga. */
  datatype Birth = Birth(sub: SubId, email: Address, repo: RepoId, name: RepoName, token: Token, startedAt: int)

  datatype Mail = Mail(saga: SagaId, payload: Payload)

  /** What happened so far; no step reads it, apart from drawing fresh names.
      - births, owner: every saga ever inserted, and the saga of every subscription;
      - flips: terminal transitions made, per saga;
      - mail: confirmation e-mails delivered; mailed: their sagas;
      - asyncOk, grpcOk: sends that returned nil, per path and saga;
      - claimed: sagas with a successful TryClaim; markedFirst: sagas marked by
        the command handler before any successful TryClaim;
      - suppressed: sagas answered OK by a gRPC call that found an entry although
        nothing had been delivered;
      - resolvedBy: sagas for which HandleSent, HandleFailed or AttemptSyncRetry
        returned nil;
      - announced: release messages attempted, with the subscription they are for. */
  datatype History = History(births: map<SagaId, Birth>, owner: map<SubId, SagaId>, flips: multiset<SagaId>,
                             mail: set<Mail>, mailed: set<SagaId>, asyncOk: multiset<SagaId>, grpcOk: multiset<SagaId>,
                             claimed: set<SagaId>, markedFirst: set<SagaId>, suppressed: set<SagaId>,
                             resolvedBy: set<SagaId>, announced: set<Recipient>)

  datatype State = State(db: Db, commands: Queue<Command>, events: Queue<Event>, dedupe: set<SagaId>,
                         threads: map<Tid, Pc>, clock: int, hist: History)

  const REPLY_PUBLISH_ATTEMPTS: nat := 5

  function Init(cascade: bool): State {
    State(Db(cascade, map[], map[], map[]), Empty(), Empty(), {}, map[], 0,
          History(map[], map[], multiset{}, {}, {}, multiset{}, multiset{}, {}, {}, {}, {}, {}))
  }

  function PayloadOf(b: Birth): Payload {
    Payload(b.email, b.name, b.token)
  }

  predicate Holds(pc: Pc, x: SagaId) {
    (pc.GrpcSend? || pc.GrpcRelease?) && pc.saga == x
  }

  predicate InFlight(pc: Pc, x: SagaId) {
    (pc.GrpcClaim? && pc.saga == x) || Holds(pc, x)
  }

  predicate IsNotifier(pc: Pc) {
    || pc.WorkerSend? || pc.WorkerMark? || pc.WorkerReply? || pc.WorkerSettle?
    || pc.GrpcClaim? || pc.GrpcSend? || pc.GrpcRelease? || pc.GrpcReply?
  }

  datatype AppStep =
    | GetOrCreateRepo(t: Tid, email: Address, name: RepoName, repo: RepoId, f: Fault)
    | CheckExists(t: Tid, f: Fault)
    | DrawStart(t: Tid)
    | CreateWithSaga(t: Tid, sub: SubId, saga: SagaId, confirmToken: Token, unsubToken: Token, f: Fault)
    | SendCommand(t: Tid, msg: MsgId, f: Fault)
    | MarkSent(t: Tid, f: Fault)
    | GetForFail(t: Tid, f: Fault)
    | DeleteForFail(t: Tid, f: Fault)
    | MarkFailed(t: Tid, f: Fault)
    | GetForRetry(t: Tid, f: Fault)
    | LoadForRetry(t: Tid, f: Fault)
    | CallNotifier(t: Tid, rpc: Option<Tid>)
    | CallReturns(t: Tid, ok: bool)
    | MarkRetried(t: Tid, f: Fault)
    | TakeReply(t: Tid, tag: Tag, msg: MsgId)
    | SettleReply(t: Tid)
    | StartSweep(t: Tid, timeout: nat)
    | FetchStuck(t: Tid, todo: seq<SagaId>, f: Fault)
    | NextStuck(t: Tid, cancelled: bool)
    | LookupConfirm(t: Tid, token: Token, sub: SubId)
    | WriteConfirm(t: Tid, f: Fault)
    | LookupUnsub(t: Tid, token: Token, sub: SubId)
    | DeleteUnsub(t: Tid, f: Fault)
    | ListConfirmed(t: Tid, repo: RepoId, rows: seq<Recipient>)
    | Announce(t: Tid)

  /** A Resend call ends well, ends badly, or delivers the mail and then fails. */
  datatype NotifierStep =
    | TakeCommand(t: Tid, tag: Tag, msg: MsgId)
    | SendMail(t: Tid, f: Fault)
    | MarkSaga(t: Tid)
    | PublishReply(t: Tid, msg: MsgId, f: Fault, giveUp: bool)
    | SettleCommand(t: Tid)
    | ClaimSaga(t: Tid)
    | SendClaimed(t: Tid, f: Fault)
    | ReleaseClaim(t: Tid)

  datatype WorldStep =
    | Tick(d: nat)
    | Leave(t: Tid)
    | CrashApp
    | CrashNotifier
    | DropEntry(saga: SagaId)
    | RedeliverCommand(tag: Tag)
    | RedeliverEvent(tag: Tag)
    | InjectCommand(msg: MsgId)
    | InjectEvent(msg: MsgId)

  datatype Step = App(app: AppStep) | Notify(notify: NotifierStep) | World(world: WorldStep)

  function Put(s: State, t: Tid, pc: Pc): State {
    s.(threads := s.threads[t := pc])
  }

  function Exit(s: State, t: Tid): State {
    s.(threads := s.threads - {t})
  }

  function Move(s: State, t: Tid, next: Option<Pc>): State {
    match next
    case None => Exit(s, t)
    case Some(pc) => Put(s, t, pc)
  }

  predicate FreshToken(s: State, k: Token) {
    && (forall x :: x in s.hist.births ==> s.hist.births[x].token != k)
    && (forall u :: u in s.db.subs ==> s.db.subs[u].unsubToken != k)
  }

  // ---------------------------------------------------------------- Subscribe

  predicate CanGetOrCreate(s: State, t: Tid, name: RepoName, repo: RepoId) {
    && t !in s.threads
    && (if exists r :: r in s.db.repos && s.db.repos[r] == name
        then repo in s.db.repos && s.db.repos[repo] == name
        else repo !in s.db.repos)
  }

  function DoGetOrCreate(s: State, t: Tid, email: Address, name: RepoName, repo: RepoId, f: Fault): State {
    var s1 := s.(db := Commit(f, s.db, s.db.(repos := s.db.repos[repo := name])));
    if f.Works? then Put(s1, t, SubscribeCheck(email, name, repo)) else s1
  }

  function DoCheckExists(s: State, t: Tid, f: Fault): State
    requires t in s.threads && s.threads[t].SubscribeCheck?
  {
    var pc := s.threads[t];
    var exists_ := exists u :: u in s.db.subs && s.db.subs[u].email == pc.email && s.db.subs[u].repo == pc.repo;
    if !f.Works? || exists_ then Exit(s, t) else Put(s, t, SubscribeDraw(pc.email, pc.name, pc.repo))
  }

  function DoDrawStart(s: State, t: Tid): State
    requires t in s.threads && s.threads[t].SubscribeDraw?
  {
    var pc := s.threads[t];
    Put(s, t, SubscribeWrite(pc.email, pc.name, pc.repo, s.clock))
  }

  /** Both rows land or neither does. */
  function DoCreate(s: State, t: Tid, u: SubId, x: SagaId, k: Token, k': Token, f: Fault): State
    requires t in s.threads && s.threads[t].SubscribeWrite?
  {
    var pc := s.threads[t];
    if f.Fails? then Exit(s, t)
    else
      var row := SubRow(pc.repo, pc.email, false, k, k');
      var b := Birth(u, pc.email, pc.repo, pc.name, k, pc.startedAt);
      var s1 := s.(db := InsertPair(s.db, u, row, x, SagaRow(u, Pending, pc.startedAt)),
                   hist := s.hist.(births := s.hist.births[x := b], owner := s.hist.owner[u := x]));
      if f.Works? then Put(s1, t, PublishCommand(x, Payload(pc.email, pc.name, k))) else Exit(s1, t)
  }

  function DoSendCommand(s: State, t: Tid, m: MsgId, f: Fault): State
    requires t in s.threads && s.threads[t].PublishCommand?
    requires m !in s.commands.bodies
  {
    var pc := s.threads[t];
    var s1 := if f.Fails? then s else s.(commands := Publish(s.commands, m, SendConfirmation(pc.saga, pc.payload)));
    if f.Works? then Exit(s1, t) else Put(s1, t, FailGet(pc.saga, FromPublish))
  }

  // ------------------------------------------------------------- Orchestrator

  /** A terminal update of saga `x`, with the history it leaves. */
  function DoMark(s: State, x: SagaId, state: SagaState, f: Fault): State {
    s.(db := Commit(f, s.db, MarkTerminal(s.db, x, state)),
       hist := s.hist.(flips := if !f.Fails? && IsPending(s.db, x) then s.hist.flips + multiset{x} else s.hist.flips))
  }

  function Resolving(s: State, x: SagaId, ok: bool): State {
    if ok then s.(hist := s.hist.(resolvedBy := s.hist.resolvedBy + {x})) else s
  }

  function VerdictOf(ok: bool): Verdict {
    if ok then Ack else Requeue
  }

  function FailReturns(k: Caller, ok: bool): Option<Pc> {
    match k
    case FromPublish => None
    case FromReply(tag, msg, event) => Some(ReplySettle(tag, msg, event, VerdictOf(ok)))
    case FromSweep(sw) => Some(SweepLoop(sw.(clean := sw.clean && ok)))
  }

  function RetryReturns(x: SagaId, sw: Sweep, ok: bool): Pc {
    if ok then SweepLoop(sw) else FailGet(x, FromSweep(sw))
  }

  function DoMarkSent(s: State, t: Tid, f: Fault): State
    requires t in s.threads && s.threads[t].SentMark?
  {
    var pc := s.threads[t];
    var ok := !Answer(f, MarkReply(s.db, pc.saga)).Error?;
    Put(Resolving(DoMark(s, pc.saga, Completed, f), pc.saga, ok), t,
        ReplySettle(pc.tag, pc.msg, pc.event, VerdictOf(ok)))
  }

  function DoGetForFail(s: State, t: Tid, f: Fault): State
    requires t in s.threads && s.threads[t].FailGet?
  {
    var pc := s.threads[t];
    if !f.Works? then Move(s, t, FailReturns(pc.caller, false))
    else if !IsPending(s.db, pc.saga) then Move(Resolving(s, pc.saga, true), t, FailReturns(pc.caller, true))
    else Put(s, t, FailDelete(pc.saga, s.db.sagas[pc.saga].sub, pc.caller))
  }

  function DoDeleteForFail(s: State, t: Tid, f: Fault): State
    requires t in s.threads && s.threads[t].FailDelete?
  {
    var pc := s.threads[t];
    var s1 := s.(db := Commit(f, s.db, DeleteSub(s.db, pc.sub)));
    if Answer(f, DeleteReply(s.db, pc.sub)).Error? then Move(s1, t, FailReturns(pc.caller, false))
    else Put(s1, t, FailMark(pc.saga, pc.caller))
  }

  function DoMarkFailed(s: State, t: Tid, f: Fault): State
    requires t in s.threads && s.threads[t].FailMark?
  {
    var pc := s.threads[t];
    var ok := !Answer(f, MarkReply(s.db, pc.saga)).Error?;
    Move(Resolving(DoMark(s, pc.saga, Compensated, f), pc.saga, ok), t, FailReturns(pc.caller, ok))
  }

  function DoGetForRetry(s: State, t: Tid, f: Fault): State
    requires t in s.threads && s.threads[t].RetryGet?
  {
    var pc := s.threads[t];
    if !f.Works? || pc.saga !in s.db.sagas then Put(s, t, RetryReturns(pc.saga, pc.sweep, false))
    else if !IsPending(s.db, pc.saga) then Put(Resolving(s, pc.saga, true), t, RetryReturns(pc.saga, pc.sweep, true))
    else Put(s, t, RetryLoad(pc.saga, s.db.sagas[pc.saga].sub, pc.sweep))
  }

  /** The subscription joined with its repository. */
  function DoLoadForRetry(s: State, t: Tid, f: Fault): State
    requires t in s.threads && s.threads[t].RetryLoad?
  {
    var pc := s.threads[t];
    if !f.Works? || pc.sub !in s.db.subs || s.db.subs[pc.sub].repo !in s.db.repos then
      Put(s, t, RetryReturns(pc.saga, pc.sweep, false))
    else
      var row := s.db.subs[pc.sub];
      Put(s, t, RetryCall(pc.saga, Payload(row.email, s.db.repos[row.repo], row.confirmToken), pc.sweep))
  }

  /** The request reaches the notifier, which starts a handler, or is lost. */
  function DoCallNotifier(s: State, t: Tid, rpc: Option<Tid>): State
    requires t in s.threads && s.threads[t].RetryCall?
  {
    var pc := s.threads[t];
    match rpc
    case None => Put(s, t, RetryReturns(pc.saga, pc.sweep, false))
    case Some(r) => Put(Put(s, r, GrpcClaim(pc.saga, pc.payload)), t, RetryAwait(pc.saga, r, pc.sweep))
  }

  /** The client may stop waiting at any time; the handler then goes on alone. */
  function DoCallReturns(s: State, t: Tid, ok: bool): State
    requires t in s.threads && s.threads[t].RetryAwait?
  {
    var pc := s.threads[t];
    Put(s, t, if ok then RetryMark(pc.saga, pc.sweep) else RetryReturns(pc.saga, pc.sweep, false))
  }

  function DoMarkRetried(s: State, t: Tid, f: Fault): State
    requires t in s.threads && s.threads[t].RetryMark?
  {
    var pc := s.threads[t];
    var ok := !Answer(f, MarkReply(s.db, pc.saga)).Error?;
    Put(Resolving(DoMark(s, pc.saga, Completed, f), pc.saga, ok), t, RetryReturns(pc.saga, pc.sweep, ok))
  }

  function DoTakeReply(s: State, t: Tid, tag: Tag, m: MsgId): State
    requires m in s.events.ready && m in s.events.bodies && tag !in s.events.tags
  {
    var body := s.events.bodies[m];
    Put(s.(events := Deliver(s.events, m, tag)), t,
        match body
        case ConfirmationSent(x) => SentMark(x, tag, m, body)
        case ConfirmationFailed(x) => FailGet(x, FromReply(tag, m, body))
        case JunkEvent => ReplySettle(tag, m, body, DeadLetter))
  }

  function DoSettleReply(s: State, t: Tid): State
    requires t in s.threads && s.threads[t].ReplySettle?
    requires s.events.unsettled <= s.events.tags.Keys
  {
    Exit(s.(events := Settle(s.events, s.threads[t].tag, s.threads[t].verdict)), t)
  }

  // ------------------------------------------------------------------ Sweeper

  function DoFetchStuck(s: State, t: Tid, todo: seq<SagaId>, f: Fault): State
    requires t in s.threads && s.threads[t].SweepFetch?
  {
    if f.Works? then Put(s, t, SweepLoop(Sweep(todo, s.threads[t].threshold, s.hist.births.Keys, true))) else Exit(s, t)
  }

  function DoNextStuck(s: State, t: Tid, cancelled: bool): State
    requires t in s.threads && s.threads[t].SweepLoop?
  {
    var sw := s.threads[t].sweep;
    if sw.todo == [] then Put(s, t, SweepDone(sw))
    else if cancelled then Exit(s, t)
    else Put(s, t, RetryGet(sw.todo[0], sw.(todo := sw.todo[1..])))
  }

  // ------------------------------------------------- Confirm, Unsubscribe, scan

  function DoWriteConfirm(s: State, t: Tid, f: Fault): State
    requires t in s.threads && s.threads[t].ConfirmWrite?
  {
    Exit(s.(db := Commit(f, s.db, ConfirmSub(s.db, s.threads[t].sub))), t)
  }

  function DoDeleteUnsub(s: State, t: Tid, f: Fault): State
    requires t in s.threads && s.threads[t].UnsubDelete?
  {
    Exit(s.(db := Commit(f, s.db, DeleteSub(s.db, s.threads[t].sub))), t)
  }

  /** The rows GetConfirmedByRepoID returns, in any order. */
  predicate ListsConfirmed(db: Db, repo: RepoId, rows: seq<Recipient>) {
    && (forall i :: 0 <= i < |rows| ==>
         && rows[i].sub in db.subs
         && var row := db.subs[rows[i].sub]; row.repo == repo && row.email == rows[i].to && row.confirmed)
    && (forall u :: u in db.subs && db.subs[u].repo == repo && db.subs[u].confirmed ==>
          Recipient(u, db.subs[u].email) in rows)
  }

  function DoAnnounce(s: State, t: Tid): State
    requires t in s.threads && s.threads[t].ScanPublish?
  {
    var rest := s.threads[t].rest;
    if rest == [] then Exit(s, t)
    else Put(s.(hist := s.hist.(announced := s.hist.announced + {rest[0]})), t, ScanPublish(rest[1..]))
  }

  predicate AppEnabled(s: State, a: AppStep) {
    match a
    case GetOrCreateRepo(t, _, name, repo, _) => CanGetOrCreate(s, t, name, repo)
    case CheckExists(t, _) => t in s.threads && s.threads[t].SubscribeCheck?
    case DrawStart(t) => t in s.threads && s.threads[t].SubscribeDraw?
    case CreateWithSaga(t, u, x, k, k', _) =>
      && t in s.threads && s.threads[t].SubscribeWrite?
      && u !in s.hist.owner && u !in s.db.subs && x !in s.hist.births && x !in s.db.sagas
      && FreshToken(s, k) && FreshToken(s, k') && k != k'
    case SendCommand(t, m, _) => t in s.threads && s.threads[t].PublishCommand? && m !in s.commands.bodies
    case MarkSent(t, _) => t in s.threads && s.threads[t].SentMark?
    case GetForFail(t, _) => t in s.threads && s.threads[t].FailGet?
    case DeleteForFail(t, _) => t in s.threads && s.threads[t].FailDelete?
    case MarkFailed(t, _) => t in s.threads && s.threads[t].FailMark?
    case GetForRetry(t, _) => t in s.threads && s.threads[t].RetryGet?
    case LoadForRetry(t, _) => t in s.threads && s.threads[t].RetryLoad?
    case CallNotifier(t, rpc) => t in s.threads && s.threads[t].RetryCall? && (rpc.Some? ==> rpc.value !in s.threads)
    case CallReturns(t, ok) =>
      && t in s.threads && s.threads[t].RetryAwait?
      && (ok ==> s.threads[t].rpc in s.threads && s.threads[s.threads[t].rpc] == GrpcReply(s.threads[t].saga, true))
    case MarkRetried(t, _) => t in s.threads && s.threads[t].RetryMark?
    case TakeReply(t, tag, m) => t !in s.threads && m in s.events.ready && m in s.events.bodies && tag !in s.events.tags
    case SettleReply(t) => t in s.threads && s.threads[t].ReplySettle? && s.events.unsettled <= s.events.tags.Keys
    case StartSweep(t, _) => t !in s.threads
    case FetchStuck(t, todo, _) =>
      t in s.threads && s.threads[t].SweepFetch? && ListsStuck(s.db, s.threads[t].threshold, todo)
    case NextStuck(t, _) => t in s.threads && s.threads[t].SweepLoop?
    case LookupConfirm(t, k, u) => t !in s.threads && u in s.db.subs && s.db.subs[u].confirmToken == k
    case WriteConfirm(t, _) => t in s.threads && s.threads[t].ConfirmWrite?
    case LookupUnsub(t, k, u) => t !in s.threads && u in s.db.subs && s.db.subs[u].unsubToken == k
    case DeleteUnsub(t, _) => t in s.threads && s.threads[t].UnsubDelete?
    case ListConfirmed(t, repo, rows) => t !in s.threads && ListsConfirmed(s.db, repo, rows)
    case Announce(t) => t in s.threads && s.threads[t].ScanPublish?
  }

  function AppApply(s: State, a: AppStep): State
    requires AppEnabled(s, a)
  {
    match a
    case GetOrCreateRepo(t, email, name, repo, f) => DoGetOrCreate(s, t, email, name, repo, f)
    case CheckExists(t, f) => DoCheckExists(s, t, f)
    case DrawStart(t) => DoDrawStart(s, t)
    case CreateWithSaga(t, u, x, k, k', f) => DoCreate(s, t, u, x, k, k', f)
    case SendCommand(t, m, f) => DoSendCommand(s, t, m, f)
    case MarkSent(t, f) => DoMarkSent(s, t, f)
    case GetForFail(t, f) => DoGetForFail(s, t, f)
    case DeleteForFail(t, f) => DoDeleteForFail(s, t, f)
    case MarkFailed(t, f) => DoMarkFailed(s, t, f)
    case GetForRetry(t, f) => DoGetForRetry(s, t, f)
    case LoadForRetry(t, f) => DoLoadForRetry(s, t, f)
    case CallNotifier(t, rpc) => DoCallNotifier(s, t, rpc)
    case CallReturns(t, ok) => DoCallReturns(s, t, ok)
    case MarkRetried(t, f) => DoMarkRetried(s, t, f)
    case TakeReply(t, tag, m) => DoTakeReply(s, t, tag, m)
    case SettleReply(t) => DoSettleReply(s, t)
    case StartSweep(t, timeout) => Put(s, t, SweepFetch(s.clock - timeout))
    case FetchStuck(t, todo, f) => DoFetchStuck(s, t, todo, f)
    case NextStuck(t, cancelled) => DoNextStuck(s, t, cancelled)
    case LookupConfirm(t, k, u) => Put(s, t, ConfirmWrite(u, k))
    case WriteConfirm(t, f) => DoWriteConfirm(s, t, f)
    case LookupUnsub(t, k, u) => Put(s, t, UnsubDelete(u))
    case DeleteUnsub(t, f) => DoDeleteUnsub(s, t, f)
    case ListConfirmed(t, repo, rows) => Put(s, t, ScanPublish(rows))
    case Announce(t) => DoAnnounce(s, t)
  }

  // ------------------------------------------------------------------ Notifier

  function Delivering(s: State, x: SagaId, p: Payload): State {
    s.(hist := s.hist.(mail := s.hist.mail + {Mail(x, p)}, mailed := s.hist.mailed + {x}))
  }

  function DoTakeCommand(s: State, t: Tid, tag: Tag, m: MsgId): State
    requires m in s.commands.ready && m in s.commands.bodies && tag !in s.commands.tags
  {
    Put(s.(commands := Deliver(s.commands, m, tag)), t,
        match s.commands.bodies[m]
        case SendConfirmation(x, p) => WorkerSend(tag, m, x, p)
        case JunkCommand => WorkerSettle(tag, DeadLetter))
  }

  function DoSendMail(s: State, t: Tid, f: Fault): State
    requires t in s.threads && s.threads[t].WorkerSend?
  {
    var pc := s.threads[t];
    var s1 := if f.Fails? then s else Delivering(s, pc.saga, pc.payload);
    if f.Works? then
      Put(s1.(hist := s1.hist.(asyncOk := s1.hist.asyncOk + multiset{pc.saga})), t, WorkerMark(pc.tag, pc.msg, pc.saga))
    else
      Put(s1, t, WorkerReply(pc.tag, pc.msg, pc.saga, false, 1))
  }

  function DoMarkSaga(s: State, t: Tid): State
    requires t in s.threads && s.threads[t].WorkerMark?
  {
    var pc := s.threads[t];
    Put(s.(dedupe := s.dedupe + {pc.saga},
           hist := s.hist.(markedFirst := s.hist.markedFirst + (if pc.saga in s.hist.claimed then {} else {pc.saga}))),
        t, WorkerReply(pc.tag, pc.msg, pc.saga, true, 1))
  }

  /** After an error the worker tries again until the budget is spent or its
      context is cancelled; then it acks anyway. */
  function NextReply(pc: Pc, f: Fault, giveUp: bool): Pc
    requires pc.WorkerReply?
  {
    if f.Works? || giveUp || pc.attempt >= REPLY_PUBLISH_ATTEMPTS then WorkerSettle(pc.tag, Ack)
    else pc.(attempt := pc.attempt + 1)
  }

  /** One attempt to publish the reply. */
  function DoPublishReply(s: State, t: Tid, m: MsgId, f: Fault, giveUp: bool): State
    requires t in s.threads && s.threads[t].WorkerReply? && m !in s.events.bodies
  {
    var pc := s.threads[t];
    var body := if pc.sent then ConfirmationSent(pc.saga) else ConfirmationFailed(pc.saga);
    var s1 := if f.Fails? then s else s.(events := Publish(s.events, m, body));
    Put(s1, t, NextReply(pc, f, giveUp))
  }

  function DoSettleCommand(s: State, t: Tid): State
    requires t in s.threads && s.threads[t].WorkerSettle?
    requires s.commands.unsettled <= s.commands.tags.Keys
  {
    Exit(s.(commands := Settle(s.commands, s.threads[t].tag, s.threads[t].verdict)), t)
  }

  /** TryClaim: an entry means OK without sending. */
  function DoClaim(s: State, t: Tid): State
    requires t in s.threads && s.threads[t].GrpcClaim?
  {
    var pc := s.threads[t];
    if pc.saga in s.dedupe then
      Put(s.(hist := s.hist.(suppressed := s.hist.suppressed + (if pc.saga in s.hist.mailed then {} else {pc.saga}))),
          t, GrpcReply(pc.saga, true))
    else
      Put(s.(dedupe := s.dedupe + {pc.saga}, hist := s.hist.(claimed := s.hist.claimed + {pc.saga})),
          t, GrpcSend(pc.saga, pc.payload))
  }

  function DoSendClaimed(s: State, t: Tid, f: Fault): State
    requires t in s.threads && s.threads[t].GrpcSend?
  {
    var pc := s.threads[t];
    var s1 := if f.Fails? then s else Delivering(s, pc.saga, pc.payload);
    if f.Works? then Put(s1.(hist := s1.hist.(grpcOk := s1.hist.grpcOk + multiset{pc.saga})), t,
                         GrpcReply(pc.saga, true))
    else Put(s1, t, GrpcRelease(pc.saga))
  }

  function DoRelease(s: State, t: Tid): State
    requires t in s.threads && s.threads[t].GrpcRelease?
  {
    Put(s.(dedupe := s.dedupe - {s.threads[t].saga}), t, GrpcReply(s.threads[t].saga, false))
  }

  predicate NotifierEnabled(s: State, a: NotifierStep) {
    match a
    case TakeCommand(t, tag, m) => t !in s.threads && m in s.commands.ready && m in s.commands.bodies
      && tag !in s.commands.tags
    case SendMail(t, _) => t in s.threads && s.threads[t].WorkerSend?
    case MarkSaga(t) => t in s.threads && s.threads[t].WorkerMark?
    case PublishReply(t, m, _, _) => t in s.threads && s.threads[t].WorkerReply? && m !in s.events.bodies
    case SettleCommand(t) => t in s.threads && s.threads[t].WorkerSettle?
      && s.commands.unsettled <= s.commands.tags.Keys
    case ClaimSaga(t) => t in s.threads && s.threads[t].GrpcClaim?
    case SendClaimed(t, _) => t in s.threads && s.threads[t].GrpcSend?
    case ReleaseClaim(t) => t in s.threads && s.threads[t].GrpcRelease?
  }

  function NotifierApply(s: State, a: NotifierStep): State
    requires NotifierEnabled(s, a)
  {
    match a
    case TakeCommand(t, tag, m) => DoTakeCommand(s, t, tag, m)
    case SendMail(t, f) => DoSendMail(s, t, f)
    case MarkSaga(t) => DoMarkSaga(s, t)
    case PublishReply(t, m, f, giveUp) => DoPublishReply(s, t, m, f, giveUp)
    case SettleCommand(t) => DoSettleCommand(s, t)
    case ClaimSaga(t) => DoClaim(s, t)
    case SendClaimed(t, f) => DoSendClaimed(s, t, f)
    case ReleaseClaim(t) => DoRelease(s, t)
  }

  // -------------------------------------------------------------- Surroundings

  predicate WorldEnabled(s: State, a: WorldStep) {
    match a
    case Tick(_) => true
    case Leave(t) => t in s.threads && (s.threads[t].GrpcReply? || s.threads[t].SweepDone?)
    case CrashApp => true
    case CrashNotifier => true
    case DropEntry(_) => true
    case RedeliverCommand(_) => s.commands.unsettled <= s.commands.tags.Keys
    case RedeliverEvent(_) => s.events.unsettled <= s.events.tags.Keys
    case InjectCommand(m) => m !in s.commands.bodies
    case InjectEvent(m) => m !in s.events.bodies
  }

  function WorldApply(s: State, a: WorldStep): State
    requires WorldEnabled(s, a)
  {
    match a
    case Tick(d) => s.(clock := s.clock + d)
    case Leave(t) => Exit(s, t)
    case CrashApp => s.(threads := map t | t in s.threads && IsNotifier(s.threads[t]) :: s.threads[t])
    case CrashNotifier =>
      s.(dedupe := {}, threads := map t | t in s.threads && !IsNotifier(s.threads[t]) :: s.threads[t])
    case DropEntry(x) => s.(dedupe := s.dedupe - {x})
    case RedeliverCommand(tag) => s.(commands := TakeBack(s.commands, tag))
    case RedeliverEvent(tag) => s.(events := TakeBack(s.events, tag))
    case InjectCommand(m) => s.(commands := Publish(s.commands, m, JunkCommand))
    case InjectEvent(m) => s.(events := Publish(s.events, m, JunkEvent))
  }

  predicate Enabled(s: State, a: Step) {
    match a
    case App(b) => AppEnabled(s, b)
    case Notify(b) => NotifierEnabled(s, b)
    case World(b) => WorldEnabled(s, b)
  }

  function Apply(s: State, a: Step): State
    requires Enabled(s, a)
  {
    match a
    case App(b) => AppApply(s, b)
    case Notify(b) => NotifierApply(s, b)
    case World(b) => WorldApply(s, b)
  }

  /** A run is a sequence of steps, each enabled where it is taken. */
  predicate Valid(s: State, run: seq<Step>)
    decreases |run|
  {
    run == [] || (Enabled(s, run[0]) && Valid(Apply(s, run[0]), run[1..]))
  }

  function Exec(s: State, run: seq<Step>): State
    requires Valid(s, run)
    decreases |run|
  {
    if run == [] then s else Exec(Apply(s, run[0]), run[1..])
  }

  lemma OneStep(s: State, a: Step, rest: seq<Step>)
    requires Enabled(s, a) && Valid(Apply(s, a), rest)
    ensures Valid(s, [a] + rest) && Exec(s, [a] + rest) == Exec(Apply(s, a), rest)
  {
    assert ([a] + rest)[1..] == rest;
  }

  lemma OneStepRun(s: State, a: Step)
    requires Enabled(s, a)
    ensures Valid(s, [a]) && Exec(s, [a]) == Apply(s, a)
  {
    assert Valid(Apply(s, a), []);
    OneStep(s, a, []);
    assert [a] + [] == [a];
  }
}
