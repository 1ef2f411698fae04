/** The tables of the subscription service and the statements that touch them.
    Each statement is one atomic step. */
module Store {
  import opened Domain

  datatype SubRow = SubRow(repo: RepoId, email: Address, confirmed: bool, confirmToken: Token, unsubToken: Token)

  datatype SagaRow = SagaRow(sub: SubId, state: SagaState, startedAt: int)

  /** `cascade` is the foreign key of migration 3: true in the shipped schema,
      false in the store the unit tests use. */
  datatype Db = Db(cascade: bool, repos: map<RepoId, RepoName>, subs: map<SubId, SubRow>, sagas: map<SagaId, SagaRow>)

  /** The state after a statement that ended as `f` says. */
  function Commit(f: Fault, before: Db, after: Db): Db {
    if f.Fails? then before else after
  }

  /** What the caller sees of a statement whose own answer is `r`. */
  function Answer(f: Fault, r: Reply): Reply {
    if f.Works? then r else Error
  }

  predicate IsPending(db: Db, x: SagaId) {
    x in db.sagas && db.sagas[x].state.Pending?
  }

  function InsertPair(db: Db, u: SubId, row: SubRow, x: SagaId, saga: SagaRow): Db {
    db.(subs := db.subs[u := row], sagas := db.sagas[x := saga])
  }

  /** DELETE FROM subscriptions WHERE id = u, with the foreign key's effect. */
  function DeleteSub(db: Db, u: SubId): Db {
    db.(subs := db.subs - {u},
        sagas := if db.cascade then map x | x in db.sagas && db.sagas[x].sub != u :: db.sagas[x] else db.sagas)
  }

  function DeleteReply(db: Db, u: SubId): Reply {
    if u in db.subs then Ok else NotFound
  }

  /** UPDATE ... SET state WHERE id = x AND state = 'pending'. */
  function MarkTerminal(db: Db, x: SagaId, state: SagaState): Db {
    if IsPending(db, x) then db.(sagas := db.sagas[x := db.sagas[x].(state := state)]) else db
  }

  function MarkReply(db: Db, x: SagaId): Reply {
    if IsPending(db, x) then Ok else NotFound
  }

  function ConfirmSub(db: Db, u: SubId): Db {
    if u in db.subs then db.(subs := db.subs[u := db.subs[u].(confirmed := true)]) else db
  }

  predicate IsStuck(db: Db, threshold: int, x: SagaId) {
    IsPending(db, x) && db.sagas[x].startedAt < threshold
  }

  /** `todo` lists the rows the sweeper's query selects, in any order. */
  predicate ListsStuck(db: Db, threshold: int, todo: seq<SagaId>) {
    && (forall x :: x in todo ==> IsStuck(db, threshold, x))
    && (forall x :: x in db.sagas && IsStuck(db, threshold, x) ==> x in todo)
  }

  // ------------------------------------------------- what the statements do

  /** A delete removes that subscription and, where the foreign key cascades, its
      sagas and no others; without the cascade it removes no saga. What stays is
      unchanged, and a second delete finds nothing. */
  lemma DeleteRemoves(db: Db, u: SubId)
    ensures var db' := DeleteSub(db, u);
            && db'.subs.Keys == db.subs.Keys - {u} && (forall v :: v in db'.subs ==> db'.subs[v] == db.subs[v])
            && (forall x :: x in db'.sagas <==> x in db.sagas && !(db.cascade && db.sagas[x].sub == u))
            && (forall x :: x in db'.sagas ==> db'.sagas[x] == db.sagas[x])
            && db'.repos == db.repos && db'.cascade == db.cascade
    ensures DeleteReply(db, u) == Ok <==> u in db.subs
    ensures DeleteReply(DeleteSub(db, u), u) == NotFound && DeleteSub(DeleteSub(db, u), u) == DeleteSub(db, u)
  {
    var db' := DeleteSub(db, u);
    assert DeleteSub(db', u).subs == db'.subs && DeleteSub(db', u).sagas == db'.sagas;
  }

  /** A terminal update changes the state of one pending row and nothing else, and
      says so; after it, or on a row that is not pending, any other changes nothing
      and is not found. */
  lemma MarkFlipsOnce(db: Db, x: SagaId, state: SagaState, again: SagaState)
    requires !state.Pending?
    ensures var db' := MarkTerminal(db, x, state);
            && db'.subs == db.subs && db'.repos == db.repos && db'.sagas.Keys == db.sagas.Keys
            && (forall y :: y in db.sagas && y != x ==> db'.sagas[y] == db.sagas[y])
            && (x in db.sagas ==>
                  var row, row' := db.sagas[x], db'.sagas[x];
                  row'.sub == row.sub && row'.startedAt == row.startedAt
                  && row'.state == if row.state.Pending? then state else row.state)
    ensures MarkReply(db, x) == Ok <==> IsPending(db, x)
    ensures MarkReply(MarkTerminal(db, x, state), x) == NotFound
    ensures MarkTerminal(MarkTerminal(db, x, state), x, again) == MarkTerminal(db, x, state)
  {
  }

  /** Confirming sets one row's flag and nothing else; without the row it changes
      nothing. */
  lemma ConfirmSets(db: Db, u: SubId)
    ensures var db' := ConfirmSub(db, u);
            && db'.subs.Keys == db.subs.Keys && db'.sagas == db.sagas && db'.repos == db.repos
            && db'.cascade == db.cascade
            && (forall v :: v in db.subs && v != u ==> db'.subs[v] == db.subs[v])
            && (u in db.subs ==>
                  var row, row' := db.subs[u], db'.subs[u];
                  row'.confirmed && row'.repo == row.repo && row'.email == row.email
                  && row'.confirmToken == row.confirmToken && row'.unsubToken == row.unsubToken)
            && (u !in db.subs ==> db' == db)
  {
  }

  /** The sweeper's query returns the pending rows that started strictly before the
      threshold, all of them and no others. */
  lemma StuckAreOldAndPending(db: Db, threshold: int, todo: seq<SagaId>, x: SagaId)
    requires ListsStuck(db, threshold, todo)
    ensures x in todo <==> x in db.sagas && db.sagas[x].state == Pending && db.sagas[x].startedAt < threshold
  {
  }
}
