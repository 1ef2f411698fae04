/** The orchestrator's handlers and the sweeper as the server runs them, one call
    at a time, over a database whose statements may fail. */
module Orchestration {
  import opened Domain
  import opened Store
  import opened Queues
  import opened Protocol
  import opened Invariants

  /** The tables behind the saga and subscription repositories. The fault of each
      statement is a parameter. */
  class Database {
    var db: Db

    constructor (db: Db)
      ensures this.db == db
    {
      this.db := db;
    }

    method Get(x: SagaId, f: Fault) returns (r: Reply, row: Option<SagaRow>)
      ensures r == Answer(f, if x in db.sagas then Ok else NotFound)
      ensures r.Ok? ==> x in db.sagas && row == Some(db.sagas[x])
    {
      if !f.Works? { return Error, None; }
      if x !in db.sagas { return NotFound, None; }
      return Ok, Some(db.sagas[x]);
    }

    method GetByID(u: SubId, f: Fault) returns (r: Reply, payload: Option<Payload>)
      ensures r == Answer(f, if u in db.subs && db.subs[u].repo in db.repos then Ok else NotFound)
      ensures r.Ok? ==> payload == Some(Payload(db.subs[u].email, db.repos[db.subs[u].repo], db.subs[u].confirmToken))
    {
      if !f.Works? { return Error, None; }
      if u !in db.subs || db.subs[u].repo !in db.repos { return NotFound, None; }
      return Ok, Some(Payload(db.subs[u].email, db.repos[db.subs[u].repo], db.subs[u].confirmToken));
    }

    method Delete(u: SubId, f: Fault) returns (r: Reply)
      modifies this
      ensures db == Commit(f, old(db), DeleteSub(old(db), u)) && r == Answer(f, DeleteReply(old(db), u))
    {
      r := Answer(f, DeleteReply(db, u));
      db := Commit(f, db, DeleteSub(db, u));
    }

    method Mark(x: SagaId, state: SagaState, f: Fault) returns (r: Reply)
      modifies this
      ensures db == Commit(f, old(db), MarkTerminal(old(db), x, state)) && r == Answer(f, MarkReply(old(db), x))
    {
      r := Answer(f, MarkReply(db, x));
      db := Commit(f, db, MarkTerminal(db, x, state));
    }
  }

  datatype FailFaults = FailFaults(get: Fault, delete: Fault, mark: Fault)

  /** `rpc` is whether the notifier answered OK. */
  datatype RetryFaults = RetryFaults(get: Fault, load: Fault, rpc: bool, mark: Fault)

  const NO_FAULTS := FailFaults(Works, Works, Works)

  /** The tables and whether nil is returned, after an error or a success. */
  datatype Result = Result(db: Db, ok: bool)

  function Sent(db: Db, x: SagaId, f: Fault): Result {
    Result(Commit(f, db, MarkTerminal(db, x, Completed)), f.Works?)
  }

  function Failed(db: Db, x: SagaId, f: FailFaults): Result {
    if !f.get.Works? then Result(db, false)
    else if !IsPending(db, x) then Result(db, true)
    else
      var db1 := Commit(f.delete, db, DeleteSub(db, db.sagas[x].sub));
      if !f.delete.Works? then Result(db1, false)
      else Result(Commit(f.mark, db1, MarkTerminal(db1, x, Compensated)), f.mark.Works?)
  }

  function Retried(db: Db, x: SagaId, f: RetryFaults): Result {
    if !f.get.Works? || x !in db.sagas then Result(db, false)
    else if !IsPending(db, x) then Result(db, true)
    else
      var u := db.sagas[x].sub;
      if !f.load.Works? || u !in db.subs || db.subs[u].repo !in db.repos || !f.rpc then Result(db, false)
      else Sent(db, x, f.mark)
  }

  /** A failed publish compensates inline and still reports the failure. */
  function Published(db: Db, x: SagaId, send: Fault, f: FailFaults): Result {
    if send.Works? then Result(db, true) else Result(Failed(db, x, f).db, false)
  }

  /** One stuck saga's visit by the sweeper. */
  datatype Visit = Visit(cancelled: bool, retry: RetryFaults, fail: FailFaults)

  function Visited(db: Db, x: SagaId, v: Visit): Db {
    var r := Retried(db, x, v.retry);
    if r.ok then r.db else Failed(r.db, x, v.fail).db
  }

  function Swept(db: Db, todo: seq<SagaId>, visits: seq<Visit>): Db
    requires |visits| == |todo|
    decreases |todo|
  {
    if todo == [] || visits[0].cancelled then db
    else Swept(Visited(db, todo[0], visits[0]), todo[1..], visits[1..])
  }

  class Orchestrator {
    const store: Database

    constructor (store: Database)
      ensures this.store == store
    {
      this.store := store;
    }

    method Publish(x: SagaId, send: Fault, f: FailFaults) returns (ok: bool)
      modifies store
      ensures Result(store.db, ok) == Published(old(store.db), x, send, f)
    {
      if !send.Works? {
        var _ := HandleFailed(x, f);
        return false;
      }
      return true;
    }

    method HandleSent(x: SagaId, f: Fault) returns (ok: bool)
      modifies store
      ensures Result(store.db, ok) == Sent(old(store.db), x, f)
    {
      var r := store.Mark(x, Completed, f);
      return !r.Error?;
    }

    method AttemptSyncRetry(x: SagaId, f: RetryFaults) returns (ok: bool)
      modifies store
      ensures Result(store.db, ok) == Retried(old(store.db), x, f)
    {
      var r, row := store.Get(x, f.get);
      if !r.Ok? { return false; }
      if !row.value.state.Pending? { return true; }
      var r', payload := store.GetByID(row.value.sub, f.load);
      if !r'.Ok? { return false; }
      if !f.rpc { return false; }
      var r'' := store.Mark(x, Completed, f.mark);
      return !r''.Error?;
    }

    method HandleFailed(x: SagaId, f: FailFaults) returns (ok: bool)
      modifies store
      ensures Result(store.db, ok) == Failed(old(store.db), x, f)
    {
      var r, row := store.Get(x, f.get);
      if r.Error? { return false; }
      if r.NotFound? { return true; }
      if !row.value.state.Pending? { return true; }
      var r' := store.Delete(row.value.sub, f.delete);
      if r'.Error? { return false; }
      var r'' := store.Mark(x, Compensated, f.mark);
      return !r''.Error?;
    }

    /** The sweep loop over what the query returned. */
    method Sweep(todo: seq<SagaId>, visits: seq<Visit>)
      requires |visits| == |todo|
      modifies store
      ensures store.db == Swept(old(store.db), todo, visits)
    {
      var i := 0;
      while i < |todo|
        invariant 0 <= i <= |todo|
        invariant Swept(store.db, todo[i..], visits[i..]) == Swept(old(store.db), todo, visits)
      {
        assert todo[i..][1..] == todo[i + 1..] && visits[i..][1..] == visits[i + 1..];
        if visits[i].cancelled { return; }
        var ok := AttemptSyncRetry(todo[i], visits[i].retry);
        if !ok {
          var _ := HandleFailed(todo[i], visits[i].fail);
        }
        i := i + 1;
      }
    }
  }

  // ---------------------------------------------------------- reply deliveries

  datatype ReplyDelivery =
    | SentReply(saga: Option<SagaId>)
    | FailedReply(saga: Option<SagaId>)
    | UnknownReply

  /** Settlements made, in order. */
  class RepliesConsumer {
    const handler: Orchestrator
    var settled: seq<Verdict>

    constructor (handler: Orchestrator)
      ensures this.handler == handler && settled == []
    {
      this.handler := handler;
      settled := [];
    }

    /** A body that does not decode carries no saga. */
    method Handle(d: ReplyDelivery, sent: Fault, fail: FailFaults)
      modifies this, handler.store
      ensures |settled| == |old(settled)| + 1 && settled[..|old(settled)|] == old(settled)
      ensures settled[|old(settled)|].DeadLetter? <==> d.UnknownReply? || d.saga.None?
      ensures var r := Replied(old(handler.store.db), d, sent, fail);
              handler.store.db == r.db && (settled[|old(settled)|].Ack? <==> Understood(d) && r.ok)
      ensures Understood(d) && d.SentReply? ==>
                && SagaCompletes(old(handler.store.db), handler.store.db, d.saga.value, !sent.Fails?)
                && settled[|old(settled)|] == if sent.Works? then Ack else Requeue
      ensures Understood(d) && d.FailedReply? ==>
                var x, v := d.saga.value, settled[|old(settled)|];
                if IsPending(old(handler.store.db), x)
                then v == (if fail == NO_FAULTS then Ack else Requeue)
                     && (v.Ack? ==> Compensation(handler.store.db, x, old(handler.store.db).sagas[x].sub))
                else v == (if fail.get.Works? then Ack else Requeue) && handler.store.db == old(handler.store.db)
    {
      match d {
        case SentReply(saga) =>
          if saga.None? { settled := settled + [DeadLetter]; return; }
          var ok := handler.HandleSent(saga.value, sent);
          if !ok { settled := settled + [Requeue]; return; }
          settled := settled + [Ack];
        case FailedReply(saga) =>
          if saga.None? { settled := settled + [DeadLetter]; return; }
          var ok := handler.HandleFailed(saga.value, fail);
          if !ok { settled := settled + [Requeue]; return; }
          settled := settled + [Ack];
        case UnknownReply => settled := settled + [DeadLetter];
      }
    }
  }

  /** No subscription row changed, and no saga row but a pending one of `x`, which is
      completed if the update landed. */
  ghost predicate SagaCompletes(db: Db, db': Db, x: SagaId, landed: bool) {
    && db'.subs == db.subs && db'.sagas.Keys == db.sagas.Keys
    && forall y :: y in db.sagas ==>
         db'.sagas[y] == if y == x && landed && IsPending(db, x) then db.sagas[y].(state := Completed) else db.sagas[y]
  }

  predicate Understood(d: ReplyDelivery) {
    !d.UnknownReply? && d.saga.Some?
  }

  function Replied(db: Db, d: ReplyDelivery, sent: Fault, fail: FailFaults): Result {
    if !Understood(d) then Result(db, true)
    else if d.SentReply? then Sent(db, d.saga.value, sent)
    else Failed(db, d.saga.value, fail)
  }

  /** An acked reply leaves its saga absent or terminal; no reply makes a saga
      pending or changes a terminal state. */
  lemma AckedReplyResolves(db: Db, d: ReplyDelivery, sent: Fault, fail: FailFaults)
    requires KeysHold(db)
    ensures var r := Replied(db, d, sent, fail);
            && KeysHold(r.db)
            && (Understood(d) && r.ok ==> !IsPending(r.db, d.saga.value))
            && (forall y :: y in r.db.sagas ==> y in db.sagas && (IsPending(db, y) || r.db.sagas[y] == db.sagas[y]))
  {
  }

  // ------------------------------------------------------------ convergence

  /** The foreign key: with the cascade, no saga row outlives its subscription. */
  ghost predicate KeysHold(db: Db) {
    db.cascade ==> forall x :: x in db.sagas ==> db.sagas[x].sub in db.subs
  }

  /** Compensation of `x`, whose subscription is `u`, is over. */
  predicate Compensation(db: Db, x: SagaId, u: SubId) {
    u !in db.subs && (if db.cascade then x !in db.sagas else x in db.sagas && db.sagas[x].state.Compensated?)
  }

  function Attempts(db: Db, x: SagaId, faults: seq<FailFaults>): Db
    decreases |faults|
  {
    if faults == [] then db else Attempts(Failed(db, x, faults[0]).db, x, faults[1..])
  }

  lemma AttemptKeeps(db: Db, x: SagaId, u: SubId, f: FailFaults)
    requires KeysHold(db) && (IsPending(db, x) ==> db.sagas[x].sub == u) && (IsPending(db, x) || Compensation(db, x, u))
    ensures var db' := Failed(db, x, f).db;
            && db'.cascade == db.cascade && KeysHold(db')
            && (IsPending(db', x) ==> db'.sagas[x].sub == u) && (IsPending(db', x) || Compensation(db', x, u))
            && (f == NO_FAULTS ==> Failed(db, x, f).ok && Compensation(db', x, u))
            && (Failed(db, x, f).ok ==> Compensation(db', x, u))
  {
  }

  lemma {:induction false} AttemptsKeep(db: Db, x: SagaId, u: SubId, faults: seq<FailFaults>)
    requires KeysHold(db) && (IsPending(db, x) ==> db.sagas[x].sub == u) && (IsPending(db, x) || Compensation(db, x, u))
    ensures var db' := Attempts(db, x, faults);
            && db'.cascade == db.cascade && KeysHold(db')
            && (IsPending(db', x) ==> db'.sagas[x].sub == u) && (IsPending(db', x) || Compensation(db', x, u))
    decreases |faults|
  {
    if faults != [] {
      AttemptKeeps(db, x, u, faults[0]);
      AttemptsKeep(Failed(db, x, faults[0]).db, x, u, faults[1..]);
    }
  }

  /** Compensation converges: after any attempts at HandleFailed, whatever failed in
      them and whether before or after its effect, one attempt without faults
      returns nil with the subscription gone and the saga compensated, or gone with
      it where the foreign key cascades. An earlier nil means the same. */
  lemma CompensationConverges(db: Db, x: SagaId, faults: seq<FailFaults>, last: FailFaults)
    requires KeysHold(db) && IsPending(db, x)
    ensures var u := db.sagas[x].sub; var r := Failed(Attempts(db, x, faults), x, last);
            && (last == NO_FAULTS ==> r.ok)
            && (r.ok ==> Compensation(r.db, x, u) && r.db.cascade == db.cascade)
  {
    AttemptsKeep(db, x, db.sagas[x].sub, faults);
    AttemptKeeps(Attempts(db, x, faults), x, db.sagas[x].sub, last);
  }

  /** A failed publish is reported and never leaves an orphan: the saga is still
      pending, for the sweeper to finish, or its compensation is over, as it is when
      the inline attempt works. A publish that works changes no row. */
  lemma PublishLeavesNoOrphan(db: Db, x: SagaId, send: Fault, f: FailFaults)
    requires KeysHold(db) && IsPending(db, x)
    ensures var r := Published(db, x, send, f); var u := db.sagas[x].sub;
            && (r.ok <==> send.Works?) && (r.ok ==> r.db == db)
            && (IsPending(r.db, x) || Compensation(r.db, x, u))
            && (!r.ok && f == NO_FAULTS ==> Compensation(r.db, x, u))
  {
    AttemptKeeps(db, x, db.sagas[x].sub, f);
  }

  /** An attempt touches no other subscription and no other subscription's saga. */
  lemma CompensationIsLocal(db: Db, x: SagaId, f: FailFaults, v: SubId, y: SagaId)
    requires IsPending(db, x) && v != db.sagas[x].sub && y in db.sagas && db.sagas[y].sub == v
    ensures var db' := Failed(db, x, f).db;
            && y in db'.sagas && db'.sagas[y] == db.sagas[y] && db'.repos == db.repos
            && (v in db.subs <==> v in db'.subs) && (v in db.subs ==> db'.subs[v] == db.subs[v])
  {
  }

  // ------------------------------------------------------ a sweep on its own

  lemma VisitResolves(db: Db, x: SagaId, v: Visit)
    requires KeysHold(db) && v.fail == NO_FAULTS
    ensures var db' := Visited(db, x, v);
            KeysHold(db') && !IsPending(db', x)
            && forall y :: IsPending(db', y) ==> IsPending(db, y) && db'.sagas[y] == db.sagas[y]
  {
  }

  /** If nobody interferes and its compensations succeed, a sweep leaves none of the
      sagas it was given pending, and makes no saga pending, whatever the retries did. */
  lemma {:induction false} SweepAloneClears(db: Db, todo: seq<SagaId>, visits: seq<Visit>, threshold: int)
    requires |visits| == |todo| && KeysHold(db)
    requires forall i :: 0 <= i < |visits| ==> !visits[i].cancelled && visits[i].fail == NO_FAULTS
    ensures forall x :: IsPending(Swept(db, todo, visits), x) ==>
              x !in todo && IsPending(db, x) && Swept(db, todo, visits).sagas[x] == db.sagas[x]
    ensures ListsStuck(db, threshold, todo) ==> forall x :: !IsStuck(Swept(db, todo, visits), threshold, x)
    decreases |todo|
  {
    if todo != [] {
      VisitResolves(db, todo[0], visits[0]);
      SweepAloneClears(Visited(db, todo[0], visits[0]), todo[1..], visits[1..], threshold);
      assert todo == [todo[0]] + todo[1..];
    }
  }

  /** The sync retry of a pending saga gets as far as completing it: its rows are
      there, its reads and its call work, and its update reaches the table. */
  predicate RetryCompletes(db: Db, x: SagaId, f: RetryFaults)
    requires x in db.sagas
  {
    var u := db.sagas[x].sub;
    f.get.Works? && f.load.Works? && u in db.subs && db.subs[u].repo in db.repos && f.rpc && !f.mark.Fails?
  }

  /** `x` is the only saga row there may be of `u`, and of no other subscription. */
  ghost predicate OnlySaga(db: Db, x: SagaId, u: SubId) {
    forall y :: y in db.sagas ==> (db.sagas[y].sub == u <==> y == x)
  }

  /** The rows of `x` and `u`, stored or not, and every repository are as they were. */
  ghost predicate LeavesAlone(db: Db, db': Db, x: SagaId, u: SubId) {
    && db'.cascade == db.cascade && db'.repos == db.repos
    && (x in db'.sagas <==> x in db.sagas) && (x in db.sagas ==> db'.sagas[x] == db.sagas[x])
    && (u in db'.subs <==> u in db.subs) && (u in db.subs ==> db'.subs[u] == db.subs[u])
  }

  lemma RetryElsewhere(db: Db, y: SagaId, f: RetryFaults, x: SagaId, u: SubId)
    requires OnlySaga(db, x, u) && y != x
    ensures var db' := Retried(db, y, f).db; OnlySaga(db', x, u) && LeavesAlone(db, db', x, u)
  {
  }

  lemma FailElsewhere(db: Db, y: SagaId, f: FailFaults, x: SagaId, u: SubId)
    requires OnlySaga(db, x, u) && y != x
    ensures var db' := Failed(db, y, f).db; OnlySaga(db', x, u) && LeavesAlone(db, db', x, u)
  {
  }

  lemma VisitElsewhere(db: Db, y: SagaId, v: Visit, x: SagaId, u: SubId)
    requires OnlySaga(db, x, u) && y != x
    ensures OnlySaga(Visited(db, y, v), x, u) && LeavesAlone(db, Visited(db, y, v), x, u)
  {
    RetryElsewhere(db, y, v.retry, x, u);
    FailElsewhere(Retried(db, y, v.retry).db, y, v.fail, x, u);
  }

  lemma {:induction false} SweptElsewhere(db: Db, todo: seq<SagaId>, visits: seq<Visit>, x: SagaId, u: SubId)
    requires |visits| == |todo| && x !in todo && OnlySaga(db, x, u)
    ensures LeavesAlone(db, Swept(db, todo, visits), x, u)
    decreases |todo|
  {
    if todo != [] && !visits[0].cancelled {
      VisitElsewhere(db, todo[0], visits[0], x, u);
      SweptElsewhere(Visited(db, todo[0], visits[0]), todo[1..], visits[1..], x, u);
    }
  }

  /** What a visit decides about a pending saga and its subscription. */
  ghost predicate Decided(db: Db, db': Db, x: SagaId, v: Visit)
    requires x in db.sagas
  {
    var u := db.sagas[x].sub;
    if RetryCompletes(db, x, v.retry)
    then x in db'.sagas && db'.sagas[x] == db.sagas[x].(state := Completed)
         && u in db'.subs && db'.subs[u] == db.subs[u]
    else v.fail == NO_FAULTS ==> Compensation(db', x, u)
  }

  lemma VisitDecides(db: Db, x: SagaId, v: Visit)
    requires IsPending(db, x) && OnlySaga(db, x, db.sagas[x].sub)
    ensures var db' := Visited(db, x, v);
            Decided(db, db', x, v) && OnlySaga(db', x, db.sagas[x].sub) && db'.cascade == db.cascade
  {
  }

  /** A sweep decides each listed saga by its own visit alone. One that is reached
      ends completed, its subscription as it was, if its sync retry gets that far;
      only otherwise is it compensated, and its subscription gone. One that the
      sweep is cancelled before keeps both its rows. */
  lemma {:induction false} SweepDecides(db: Db, todo: seq<SagaId>, visits: seq<Visit>, i: nat)
    requires |visits| == |todo| && i < |todo| && forall j :: 0 <= j < |todo| && j != i ==> todo[j] != todo[i]
    requires IsPending(db, todo[i]) && OnlySaga(db, todo[i], db.sagas[todo[i]].sub)
    ensures if forall j :: 0 <= j <= i ==> !visits[j].cancelled
            then Decided(db, Swept(db, todo, visits), todo[i], visits[i])
            else LeavesAlone(db, Swept(db, todo, visits), todo[i], db.sagas[todo[i]].sub)
    decreases i
  {
    var x := todo[i];
    var u := db.sagas[x].sub;
    if visits[0].cancelled {
    } else if i == 0 {
      VisitDecides(db, x, visits[0]);
      assert x !in todo[1..];
      SweptElsewhere(Visited(db, x, visits[0]), todo[1..], visits[1..], x, u);
    } else {
      VisitElsewhere(db, todo[0], visits[0], x, u);
      SweepDecides(Visited(db, todo[0], visits[0]), todo[1..], visits[1..], i - 1);
      assert (forall j :: 0 <= j <= i ==> !visits[j].cancelled) <==>
             (forall j :: 0 <= j <= i - 1 ==> !visits[1..][j].cancelled) by {
        if forall j :: 0 <= j <= i - 1 ==> !visits[1..][j].cancelled {
          forall j | 0 <= j <= i ensures !visits[j].cancelled {
            assert j > 0 ==> visits[1..][j - 1] == visits[j];
          }
        }
      }
    }
  }

  // ---------------------------------------- one call is a run of the protocol

  function DeleteRun(t: Tid, f: FailFaults): seq<Step> {
    [App(DeleteForFail(t, f.delete))] + if !f.delete.Works? then [] else [App(MarkFailed(t, f.mark))]
  }

  function FailRun(db: Db, x: SagaId, t: Tid, f: FailFaults): seq<Step> {
    [App(GetForFail(t, f.get))] + (if !f.get.Works? || !IsPending(db, x) then [] else DeleteRun(t, f))
  }

  /** The sagas for which a handler has returned nil, after one more result. */
  function ResolvedSagas(s: State, x: SagaId, ok: bool): set<SagaId> {
    s.hist.resolvedBy + if ok then {x} else {}
  }

  lemma MarkFailedRun(s: State, t: Tid, f: Fault)
    requires t in s.threads && s.threads[t].FailMark?
    ensures var x, k, run := s.threads[t].saga, s.threads[t].caller, [App(MarkFailed(t, f))];
            && Valid(s, run) && Exec(s, run).db == Commit(f, s.db, MarkTerminal(s.db, x, Compensated))
            && Exec(s, run).threads == Move(s, t, FailReturns(k, f.Works?)).threads
            && Exec(s, run).hist.resolvedBy == ResolvedSagas(s, x, f.Works?)
  {
    assert AppApply(s, MarkFailed(t, f)) == DoMarkFailed(s, t, f);
    OneStepRun(s, App(MarkFailed(t, f)));
  }

  lemma DeleteFailsRun(s: State, t: Tid, f: FailFaults)
    requires t in s.threads && s.threads[t].FailDelete? && !f.delete.Works?
    ensures var pc := s.threads[t];
            && Valid(s, DeleteRun(t, f)) && var s' := Exec(s, DeleteRun(t, f));
            && s'.db == Commit(f.delete, s.db, DeleteSub(s.db, pc.sub))
            && s'.threads == Move(s, t, FailReturns(pc.caller, false)).threads
            && s'.hist.resolvedBy == s.hist.resolvedBy
  {
    assert AppApply(s, DeleteForFail(t, f.delete)) == DoDeleteForFail(s, t, f.delete);
    OneStepRun(s, App(DeleteForFail(t, f.delete)));
    assert DeleteRun(t, f) == [App(DeleteForFail(t, f.delete))];
  }

  lemma DeleteThenMarkRun(s: State, t: Tid, f: FailFaults)
    requires t in s.threads && s.threads[t].FailDelete? && f.delete.Works?
    ensures var pc := s.threads[t]; var db1 := DeleteSub(s.db, pc.sub);
            && Valid(s, DeleteRun(t, f)) && var s' := Exec(s, DeleteRun(t, f));
            && s'.db == Commit(f.mark, db1, MarkTerminal(db1, pc.saga, Compensated))
            && s'.threads == Move(s, t, FailReturns(pc.caller, f.mark.Works?)).threads
            && s'.hist.resolvedBy == ResolvedSagas(s, pc.saga, f.mark.Works?)
  {
    var s1 := DoDeleteForFail(s, t, Works);
    assert AppApply(s, DeleteForFail(t, Works)) == s1;
    MarkFailedRun(s1, t, f.mark);
    OneStep(s, App(DeleteForFail(t, Works)), [App(MarkFailed(t, f.mark))]);
  }

  lemma ReadOnlyRun(s: State, t: Tid, f: FailFaults)
    requires t in s.threads && s.threads[t].FailGet? && (!f.get.Works? || !IsPending(s.db, s.threads[t].saga))
    ensures var x, k := s.threads[t].saga, s.threads[t].caller;
            var run := FailRun(s.db, x, t, f);
            && Valid(s, run) && Exec(s, run).db == s.db
            && Exec(s, run).threads == Move(s, t, FailReturns(k, f.get.Works?)).threads
            && Exec(s, run).hist.resolvedBy == ResolvedSagas(s, x, f.get.Works?)
  {
    assert AppApply(s, GetForFail(t, f.get)) == DoGetForFail(s, t, f.get);
    OneStepRun(s, App(GetForFail(t, f.get)));
    assert FailRun(s.db, s.threads[t].saga, t, f) == [App(GetForFail(t, f.get))];
  }

  lemma PendingIsRead(s: State, t: Tid) returns (s1: State)
    requires t in s.threads && s.threads[t].FailGet? && IsPending(s.db, s.threads[t].saga)
    ensures Enabled(s, App(GetForFail(t, Works))) && Apply(s, App(GetForFail(t, Works))) == s1
    ensures var x := s.threads[t].saga;
            s1 == s.(threads := s.threads[t := FailDelete(x, s.db.sagas[x].sub, s.threads[t].caller)])
  {
    s1 := DoGetForFail(s, t, Works);
    assert AppApply(s, GetForFail(t, Works)) == s1;
  }

  lemma SameMove(s: State, s1: State, t: Tid, pc: Pc, next: Option<Pc>)
    requires s1.threads == s.threads[t := pc]
    ensures Move(s1, t, next).threads == Move(s, t, next).threads
  {
  }

  /** HandleFailed taken alone is a run of its thread: the same tables at the end,
      the caller resumed with the same result, nil recorded, and no other thread
      moved. */
  lemma HandleFailedIsARun(s: State, t: Tid, f: FailFaults)
    requires t in s.threads && s.threads[t].FailGet?
    ensures var x, k := s.threads[t].saga, s.threads[t].caller;
            var run := FailRun(s.db, x, t, f); var r := Failed(s.db, x, f);
            && Valid(s, run) && Exec(s, run).db == r.db
            && Exec(s, run).threads == Move(s, t, FailReturns(k, r.ok)).threads
            && Exec(s, run).hist.resolvedBy == ResolvedSagas(s, x, r.ok)
  {
    if !f.get.Works? || !IsPending(s.db, s.threads[t].saga) {
      ReadOnlyRun(s, t, f);
    } else {
      var s1 := PendingIsRead(s, t);
      if f.delete.Works? { DeleteThenMarkRun(s1, t, f); } else { DeleteFailsRun(s1, t, f); }
      SameMove(s, s1, t, s1.threads[t], FailReturns(s.threads[t].caller, Failed(s.db, s.threads[t].saga, f).ok));
      OneStep(s, App(GetForFail(t, Works)), DeleteRun(t, f));
    }
  }
}
