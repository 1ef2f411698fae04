/** The inductive invariant of the protocol and the proof that every step keeps it.

    A thread's assertion mentions only facts that never become false again
    (`Evolves`), so a step has to re-establish it for the threads it moves and
    nothing else. */
module Invariants {
  import opened Domain
  import opened Store
  import opened Queues
  import opened Protocol

  /** The saga was inserted once and no row of it is pending now. */
  predicate Resolved(db: Db, h: History, x: SagaId) {
    x in h.births && !IsPending(db, x)
  }

  /** The saga's subscription was inserted once and is not stored now. */
  predicate Gone(db: Db, h: History, x: SagaId) {
    x in h.births && h.births[x].sub !in db.subs
  }

  /** Why a gRPC call may have answered OK. */
  predicate Told(h: History, x: SagaId) {
    x in h.mailed || x in h.suppressed
  }

  /** Inserted names are never used twice and keep what was written with them. */
  ghost predicate NamesOk(db: Db, h: History) {
    && (forall x :: x in h.births ==> h.births[x].sub in h.owner && h.owner[h.births[x].sub] == x)
    && (forall u :: u in h.owner ==> h.owner[u] in h.births && h.births[h.owner[u]].sub == u)
    && (forall x, y :: x in h.births && y in h.births && h.births[x].token == h.births[y].token ==> x == y)
    && (forall x :: x in h.births ==> h.births[x].repo in db.repos && db.repos[h.births[x].repo] == h.births[x].name)
  }

  predicate SubOk(db: Db, h: History, u: SubId)
    requires u in db.subs
  {
    && u in h.owner && h.owner[u] in h.births && h.owner[u] in db.sagas
    && var b := h.births[h.owner[u]];
    && db.subs[u].repo == b.repo && db.subs[u].email == b.email && db.subs[u].confirmToken == b.token
  }

  predicate SagaOk(db: Db, h: History, x: SagaId)
    requires x in db.sagas
  {
    && x in h.births
    && var row := db.sagas[x];
    && row.sub == h.births[x].sub && row.startedAt == h.births[x].startedAt
    && (db.cascade ==> row.sub in db.subs)
    && (row.state.Completed? ==> Told(h, x))
    && (row.state.Compensated? ==> row.sub !in db.subs)
    && !row.state.TimedOut?
    && h.flips[x] == (if row.state.Pending? then 0 else 1)
  }

  ghost predicate RowsOk(db: Db, h: History) {
    && (forall u :: u in db.subs ==> SubOk(db, h, u))
    && (forall x :: x in db.sagas ==> SagaOk(db, h, x))
  }

  ghost predicate HistOk(db: Db, h: History) {
    && (forall x :: x in h.flips ==> h.flips[x] == 1 && x in h.births)
    && (forall x :: x in h.resolvedBy ==> Resolved(db, h, x))
    && (forall m :: m in h.mail ==>
          m.saga in h.mailed && m.saga in h.births && m.payload == PayloadOf(h.births[m.saga]))
    && (forall x :: x in h.mailed ==> x in h.births && Mail(x, PayloadOf(h.births[x])) in h.mail)
  }

  ghost predicate Core(db: Db, h: History) {
    NamesOk(db, h) && RowsOk(db, h) && HistOk(db, h)
  }

  predicate CmdOk(s: State, c: Command) {
    c.SendConfirmation? ==> c.saga in s.hist.births && c.payload == PayloadOf(s.hist.births[c.saga])
  }

  predicate EventOk(s: State, e: Event) {
    match e
    case ConfirmationSent(x) => x in s.hist.births && x in s.hist.mailed
    case ConfirmationFailed(x) => x in s.hist.births
    case JunkEvent => true
  }

  /** An acked reply of a known kind is about a saga that is resolved. */
  predicate Answered(s: State, e: Event) {
    !e.JunkEvent? ==> Resolved(s.db, s.hist, e.saga)
  }

  ghost predicate MsgsOk(s: State) {
    && (forall m :: m in s.commands.bodies ==> CmdOk(s, s.commands.bodies[m]))
    && (forall m :: m in s.events.bodies ==> EventOk(s, s.events.bodies[m]))
    && (forall m :: m in s.events.acked && m in s.events.bodies ==> Answered(s, s.events.bodies[m]))
    && Conserved(s.commands) && Conserved(s.events)
  }

  /** While its compensations succeed, a sweep has resolved every old saga it does
      not still have to visit. */
  ghost predicate SweepOk(s: State, sw: Sweep, visiting: set<SagaId>) {
    && (forall x :: x in sw.todo ==> x in s.hist.births)
    && (forall x :: x in sw.known ==> x in s.hist.births)
    && (sw.clean ==>
          forall x ::
            x in sw.known && x !in visiting && x !in sw.todo && s.hist.births[x].startedAt < sw.threshold ==>
              Resolved(s.db, s.hist, x))
  }

  predicate ReplyOk(s: State, tag: Tag, m: MsgId, e: Event) {
    tag in s.events.tags && s.events.tags[tag] == m && m in s.events.bodies && s.events.bodies[m] == e
  }

  ghost predicate CallerOk(s: State, k: Caller, x: SagaId) {
    match k
    case FromPublish => true
    case FromReply(tag, m, e) => ReplyOk(s, tag, m, e) && e == ConfirmationFailed(x)
    case FromSweep(sw) => SweepOk(s, sw, {x})
  }

  predicate RepoOk(s: State, r: RepoId, name: RepoName) {
    r in s.db.repos && s.db.repos[r] == name
  }

  predicate PayloadOk(s: State, x: SagaId, p: Payload) {
    x in s.hist.births && p == PayloadOf(s.hist.births[x])
  }

  /** What holds whenever a thread is at `pc`. */
  ghost predicate PcOk(s: State, pc: Pc) {
    match pc
    case SubscribeCheck(_, name, r) => RepoOk(s, r, name)
    case SubscribeDraw(_, name, r) => RepoOk(s, r, name)
    case SubscribeWrite(_, name, r, _) => RepoOk(s, r, name)
    case PublishCommand(x, p) => PayloadOk(s, x, p)
    case SentMark(x, tag, m, e) => ReplyOk(s, tag, m, e) && e == ConfirmationSent(x) && x in s.hist.births
      && x in s.hist.mailed
    case FailGet(x, k) => x in s.hist.births && CallerOk(s, k, x)
    case FailDelete(x, u, k) => x in s.hist.births && u == s.hist.births[x].sub && CallerOk(s, k, x)
    case FailMark(x, k) => Gone(s.db, s.hist, x) && CallerOk(s, k, x)
    case RetryGet(x, sw) => x in s.hist.births && SweepOk(s, sw, {x})
    case RetryLoad(x, u, sw) => x in s.hist.births && u == s.hist.births[x].sub && SweepOk(s, sw, {x})
    case RetryCall(x, p, sw) => PayloadOk(s, x, p) && SweepOk(s, sw, {x})
    case RetryAwait(x, _, sw) => x in s.hist.births && SweepOk(s, sw, {x})
    case RetryMark(x, sw) => x in s.hist.births && Told(s.hist, x) && SweepOk(s, sw, {x})
    case ReplySettle(tag, m, e, v) => ReplyOk(s, tag, m, e) && (v.Ack? ==> Answered(s, e))
    case SweepFetch(_) => true
    case SweepLoop(sw) => SweepOk(s, sw, {})
    case SweepDone(sw) => SweepOk(s, sw, {}) && sw.todo == []
    case ConfirmWrite(_, _) => true
    case UnsubDelete(_) => true
    case ScanPublish(_) => true
    case WorkerSend(_, _, x, p) => PayloadOk(s, x, p)
    case WorkerMark(_, _, x) => x in s.hist.births && x in s.hist.mailed
    case WorkerReply(_, _, x, sent, _) => x in s.hist.births && (sent ==> x in s.hist.mailed)
    case WorkerSettle(_, v) => !v.Requeue?
    case GrpcClaim(x, p) => PayloadOk(s, x, p)
    case GrpcSend(x, p) => PayloadOk(s, x, p)
    case GrpcRelease(x) => x in s.hist.births
    case GrpcReply(x, ok) => x in s.hist.births && (ok ==> Told(s.hist, x))
  }

  ghost predicate ThreadsOk(s: State) {
    forall t :: t in s.threads ==> PcOk(s, s.threads[t])
  }

  /** No false suppression: an entry belongs to a saga whose e-mail was delivered
      or whose gRPC claim is still held. */
  ghost predicate DedupeOk(s: State) {
    forall x :: x in s.dedupe ==> x in s.hist.mailed || exists t :: t in s.threads && Holds(s.threads[t], x)
  }

  ghost predicate Inv(s: State) {
    Core(s.db, s.hist) && MsgsOk(s) && ThreadsOk(s) && DedupeOk(s)
  }

  /** What no statement undoes in the tables and the history. */
  ghost predicate Grows(db: Db, h: History, db': Db, h': History) {
    && db'.cascade == db.cascade
    && (forall r :: r in db.repos ==> r in db'.repos && db'.repos[r] == db.repos[r])
    && (forall x :: x in h.births ==> x in h'.births && h'.births[x] == h.births[x])
    && (forall u :: u in h.owner ==> u in h'.owner && h'.owner[u] == h.owner[u])
    && h.mail <= h'.mail && h.mailed <= h'.mailed && h.suppressed <= h'.suppressed
    && h.resolvedBy <= h'.resolvedBy && h.announced <= h'.announced
    && (forall x :: Resolved(db, h, x) ==> Resolved(db', h', x))
    && (forall x :: Gone(db, h, x) ==> Gone(db', h', x))
    && (forall x :: x in h.births && x !in db.sagas ==> x !in db'.sagas)
    && (forall x :: x in db.sagas && x in db'.sagas && !db.sagas[x].state.Pending? ==>
        db'.sagas[x].state == db.sagas[x].state)
  }

  /** What no step undoes. */
  ghost predicate Evolves(s: State, s': State) {
    && s.clock <= s'.clock
    && Grows(s.db, s.hist, s'.db, s'.hist)
    && Extends(s.commands, s'.commands) && Extends(s.events, s'.events)
  }

  lemma GrowsTransitive(db: Db, h: History, db': Db, h': History, db'': Db, h'': History)
    requires RowsOk(db, h) && Grows(db, h, db', h') && Grows(db', h', db'', h'')
    ensures Grows(db, h, db'', h'')
  {
    forall x | Resolved(db, h, x) ensures Resolved(db'', h'', x) {
      assert Resolved(db', h', x);
    }
    forall x | Gone(db, h, x) ensures Gone(db'', h'', x) {
      assert Gone(db', h', x);
    }
    forall x | x in db.sagas && x in db''.sagas ensures x in db'.sagas {
      assert SagaOk(db, h, x);
    }
  }

  lemma EvolvesTransitive(s: State, s': State, s'': State)
    requires RowsOk(s.db, s.hist) && Evolves(s, s') && Evolves(s', s'')
    ensures Evolves(s, s'')
  {
    GrowsTransitive(s.db, s.hist, s'.db, s'.hist, s''.db, s''.hist);
  }

  /** A thread's assertion survives everything other threads do. */
  lemma PcStable(s: State, s': State, pc: Pc)
    requires PcOk(s, pc) && Evolves(s, s')
    ensures PcOk(s', pc)
  {
  }
}
