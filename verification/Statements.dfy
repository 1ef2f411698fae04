/** Each statement on the tables keeps the table invariant and undoes nothing. */
module Statements {
  import opened Domain
  import opened Store
  import opened Protocol
  import opened Invariants

  function Flipped(h: History, x: SagaId): History {
    h.(flips := h.flips + multiset{x})
  }

  lemma MarkRows(db: Db, h: History, x: SagaId, state: SagaState)
    requires RowsOk(db, h) && IsPending(db, x)
    requires (state.Completed? && Told(h, x)) || (state.Compensated? && Gone(db, h, x))
    ensures RowsOk(MarkTerminal(db, x, state), Flipped(h, x))
  {
    assert SagaOk(db, h, x);
  }

  lemma MarkHist(db: Db, h: History, x: SagaId, state: SagaState)
    requires NamesOk(db, h) && HistOk(db, h) && IsPending(db, x) && SagaOk(db, h, x) && !state.Pending?
    ensures var db' := MarkTerminal(db, x, state);
            HistOk(db', Flipped(h, x)) && NamesOk(db', Flipped(h, x)) && Resolved(db', h, x)
  {
  }

  lemma MarkGrows(db: Db, h: History, x: SagaId, state: SagaState)
    requires IsPending(db, x) && !state.Pending?
    ensures Grows(db, h, MarkTerminal(db, x, state), Flipped(h, x))
  {
  }

  lemma MarkKeeps(s: State, x: SagaId, state: SagaState, f: Fault)
    requires Core(s.db, s.hist) && x in s.hist.births
    requires (state.Completed? && Told(s.hist, x)) || (state.Compensated? && Gone(s.db, s.hist, x))
    ensures var s' := DoMark(s, x, state, f);
            Core(s'.db, s'.hist) && Grows(s.db, s.hist, s'.db, s'.hist)
    ensures !Answer(f, MarkReply(s.db, x)).Error? ==>
            Resolved(DoMark(s, x, state, f).db, DoMark(s, x, state, f).hist, x)
  {
    if !f.Fails? && IsPending(s.db, x) {
      MarkRows(s.db, s.hist, x, state);
      MarkHist(s.db, s.hist, x, state);
      MarkGrows(s.db, s.hist, x, state);
    }
  }

  lemma DeleteRows(db: Db, h: History, u: SubId)
    requires NamesOk(db, h) && RowsOk(db, h)
    ensures RowsOk(DeleteSub(db, u), h)
  {
    var db' := DeleteSub(db, u);
    forall v | v in db'.subs ensures SubOk(db', h, v) {
      assert SubOk(db, h, v) && SagaOk(db, h, h.owner[v]);
    }
  }

  lemma DeleteHist(db: Db, h: History, u: SubId)
    requires NamesOk(db, h) && HistOk(db, h)
    ensures NamesOk(DeleteSub(db, u), h) && HistOk(DeleteSub(db, u), h) && u !in DeleteSub(db, u).subs
  {
  }

  lemma DeleteGrows(db: Db, h: History, u: SubId)
    ensures Grows(db, h, DeleteSub(db, u), h)
  {
  }

  lemma DeleteKeeps(db: Db, h: History, u: SubId)
    requires Core(db, h)
    ensures var db' := DeleteSub(db, u); Core(db', h) && Grows(db, h, db', h) && u !in db'.subs
  {
    DeleteRows(db, h, u);
    DeleteHist(db, h, u);
    DeleteGrows(db, h, u);
  }

  lemma ConfirmRows(db: Db, h: History, u: SubId)
    requires RowsOk(db, h)
    ensures RowsOk(ConfirmSub(db, u), h)
  {
  }

  lemma ConfirmHist(db: Db, h: History, u: SubId)
    requires NamesOk(db, h) && HistOk(db, h)
    ensures NamesOk(ConfirmSub(db, u), h) && HistOk(ConfirmSub(db, u), h)
  {
  }

  lemma ConfirmGrows(db: Db, h: History, u: SubId)
    ensures Grows(db, h, ConfirmSub(db, u), h)
  {
  }

  function WithRepo(db: Db, repo: RepoId, name: RepoName): Db {
    db.(repos := db.repos[repo := name])
  }

  lemma RepoRows(db: Db, h: History, repo: RepoId, name: RepoName)
    requires RowsOk(db, h)
    ensures RowsOk(WithRepo(db, repo, name), h)
  {
  }

  lemma RepoHist(db: Db, h: History, repo: RepoId, name: RepoName)
    requires NamesOk(db, h) && HistOk(db, h) && (repo in db.repos ==> db.repos[repo] == name)
    ensures NamesOk(WithRepo(db, repo, name), h) && HistOk(WithRepo(db, repo, name), h)
  {
  }

  lemma RepoGrows(db: Db, h: History, repo: RepoId, name: RepoName)
    requires repo in db.repos ==> db.repos[repo] == name
    ensures Grows(db, h, WithRepo(db, repo, name), h)
  {
  }

  /** Fresh names and the two rows that go with them. */
  predicate Fits(db: Db, h: History, u: SubId, row: SubRow, x: SagaId, b: Birth) {
    && u !in h.owner && u !in db.subs && x !in h.births && x !in db.sagas
    && (forall y :: y in h.births ==> h.births[y].token != b.token)
    && b.sub == u && b.repo in db.repos && db.repos[b.repo] == b.name
    && row.repo == b.repo && row.email == b.email && row.confirmToken == b.token
  }

  function Inserted(db: Db, u: SubId, row: SubRow, x: SagaId, b: Birth): Db {
    InsertPair(db, u, row, x, SagaRow(u, Pending, b.startedAt))
  }

  function Born(h: History, u: SubId, x: SagaId, b: Birth): History {
    h.(births := h.births[x := b], owner := h.owner[u := x])
  }

  lemma InsertRows(db: Db, h: History, u: SubId, row: SubRow, x: SagaId, b: Birth)
    requires RowsOk(db, h) && NamesOk(db, h) && HistOk(db, h) && Fits(db, h, u, row, x, b)
    ensures RowsOk(Inserted(db, u, row, x, b), Born(h, u, x, b))
  {
    var db', h' := Inserted(db, u, row, x, b), Born(h, u, x, b);
    forall y | y in db'.sagas ensures SagaOk(db', h', y) {
      if y != x { assert SagaOk(db, h, y); }
    }
    forall v | v in db'.subs ensures SubOk(db', h', v) {
      if v != u { assert SubOk(db, h, v); }
    }
  }

  lemma InsertNames(db: Db, h: History, u: SubId, row: SubRow, x: SagaId, b: Birth)
    requires NamesOk(db, h) && Fits(db, h, u, row, x, b)
    ensures NamesOk(Inserted(db, u, row, x, b), Born(h, u, x, b))
  {
  }

  lemma InsertHist(db: Db, h: History, u: SubId, row: SubRow, x: SagaId, b: Birth)
    requires NamesOk(db, h) && HistOk(db, h) && Fits(db, h, u, row, x, b)
    ensures HistOk(Inserted(db, u, row, x, b), Born(h, u, x, b))
  {
  }

  lemma InsertGrows(db: Db, h: History, u: SubId, row: SubRow, x: SagaId, b: Birth)
    requires NamesOk(db, h) && Fits(db, h, u, row, x, b)
    ensures Grows(db, h, Inserted(db, u, row, x, b), Born(h, u, x, b))
  {
  }
}
