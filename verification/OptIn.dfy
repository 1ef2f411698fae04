/** Double opt-in: if users can present only confirm tokens that were e-mailed,
    release messages go only to addresses that received, and confirmed with, the
    token of their own subscription. */
module OptIn {
  import opened Domain
  import opened Store
  import opened Queues
  import opened Protocol
  import opened Invariants
  import opened Steps
  import opened Runs
  import opened Survival

  /** A confirm token comes out of some e-mail that was delivered. */
  ghost predicate Honest(s: State, a: Step) {
    a.App? && a.app.LookupConfirm? ==> exists m :: m in s.hist.mail && m.payload.token == a.app.token
  }

  ghost predicate HonestRun(s: State, run: seq<Step>)
    requires Valid(s, run)
    decreases |run|
  {
    run != [] ==> Honest(s, run[0]) && HonestRun(Apply(s, run[0]), run[1..])
  }

  /** The subscription's own token went to its own address. */
  predicate TokenMailed(h: History, u: SubId) {
    u in h.owner && h.owner[u] in h.births && h.owner[u] in h.mailed
  }

  predicate RecipientOk(h: History, r: Recipient) {
    TokenMailed(h, r.sub) && h.births[h.owner[r.sub]].email == r.to
  }

  predicate PcOptIn(h: History, pc: Pc) {
    match pc
    case ConfirmWrite(u, _) => TokenMailed(h, u)
    case ScanPublish(rest) => forall i :: 0 <= i < |rest| ==> RecipientOk(h, rest[i])
    case _ => true
  }

  ghost predicate OptInOk(s: State) {
    && (forall u :: u in s.db.subs && s.db.subs[u].confirmed ==> TokenMailed(s.hist, u))
    && (forall t :: t in s.threads ==> PcOptIn(s.hist, s.threads[t]))
    && (forall r :: r in s.hist.announced ==> RecipientOk(s.hist, r))
  }

  lemma PcOptInStable(s: State, s': State, pc: Pc)
    requires PcOptIn(s.hist, pc) && Grows(s.db, s.hist, s'.db, s'.hist)
    ensures PcOptIn(s'.hist, pc)
  {
  }

  predicate AboutUsers(a: AppStep) {
    a.LookupConfirm? || a.WriteConfirm? || a.ListConfirmed? || a.Announce?
  }

  /** Rows become confirmed, confirmations and announcements are prepared, and
      announcements are made only by the four steps about users. */
  lemma MarksKeepSubs(s: State, a: AppStep)
    requires AppEnabled(s, a) && (a.MarkSent? || a.MarkFailed? || a.MarkRetried?)
    ensures AppApply(s, a).db.subs == s.db.subs
  {
    var state := if a.MarkFailed? then Compensated else Completed;
    assert AppApply(s, a).db == DoMark(s, s.threads[a.t].saga, state, a.f).db;
  }

  lemma ConfirmedBefore(s: State, a: AppStep, u: SubId)
    requires AppEnabled(s, a) && (a.GetOrCreateRepo? || a.CreateWithSaga? || a.DeleteForFail? || a.DeleteUnsub?)
    requires u in AppApply(s, a).db.subs && AppApply(s, a).db.subs[u].confirmed
    ensures u in s.db.subs && s.db.subs[u].confirmed
  {
  }

  lemma OtherAppStepsConfirmNobody(s: State, a: AppStep, u: SubId)
    requires AppEnabled(s, a) && !AboutUsers(a)
    requires u in AppApply(s, a).db.subs && AppApply(s, a).db.subs[u].confirmed
    ensures u in s.db.subs && s.db.subs[u].confirmed
  {
    if !Writes(a) {
      ReadsKeepDb(s, a);
    } else if a.MarkSent? || a.MarkFailed? || a.MarkRetried? {
      MarksKeepSubs(s, a);
    } else {
      ConfirmedBefore(s, a, u);
    }
  }

  predicate PreparedAt(s: State, t: Tid) {
    t in s.threads && (s.threads[t].ConfirmWrite? || s.threads[t].ScanPublish?)
  }

  lemma HandlersPrepareNothing(s: State, a: AppStep, t: Tid)
    requires AppEnabled(s, a) && IsHandlerStep(a) && PreparedAt(AppApply(s, a), t)
    ensures t in s.threads && s.threads[t] == AppApply(s, a).threads[t]
  {
  }

  lemma RetriesPrepareNothing(s: State, a: AppStep, t: Tid)
    requires AppEnabled(s, a) && IsRetryStep(a) && PreparedAt(AppApply(s, a), t)
    ensures t in s.threads && s.threads[t] == AppApply(s, a).threads[t]
  {
  }

  lemma RequestsPrepareNothing(s: State, a: AppStep, t: Tid)
    requires AppEnabled(s, a) && !AboutUsers(a) && !IsHandlerStep(a) && !IsRetryStep(a)
    requires PreparedAt(AppApply(s, a), t)
    ensures t in s.threads && s.threads[t] == AppApply(s, a).threads[t]
  {
  }

  lemma OtherAppStepsPrepareNothing(s: State, a: AppStep, t: Tid)
    requires AppEnabled(s, a) && !AboutUsers(a) && PreparedAt(AppApply(s, a), t)
    ensures t in s.threads && s.threads[t] == AppApply(s, a).threads[t]
  {
    if IsHandlerStep(a) {
      HandlersPrepareNothing(s, a, t);
    } else if IsRetryStep(a) {
      RetriesPrepareNothing(s, a, t);
    } else {
      RequestsPrepareNothing(s, a, t);
    }
  }

  lemma OtherAppStepsAnnounceNothing(s: State, a: AppStep)
    requires AppEnabled(s, a) && !AboutUsers(a)
    ensures AppApply(s, a).hist.announced == s.hist.announced
  {
  }

  lemma NotifierStepsKeepUsers(s: State, a: NotifierStep)
    requires NotifierEnabled(s, a)
    ensures NotifierApply(s, a).db == s.db && NotifierApply(s, a).hist.announced == s.hist.announced
  {
  }

  lemma NotifierStepsOptIn(s: State, a: NotifierStep, t: Tid)
    requires NotifierEnabled(s, a)
    ensures t in NotifierApply(s, a).threads
            && (NotifierApply(s, a).threads[t].ConfirmWrite? || NotifierApply(s, a).threads[t].ScanPublish?) ==>
              t in s.threads && s.threads[t] == NotifierApply(s, a).threads[t]
  {
  }

  predicate OtherStep(a: Step) {
    !(a.App? && AboutUsers(a.app))
  }

  lemma OtherStepRows(s: State, a: Step, u: SubId)
    requires Enabled(s, a) && OtherStep(a) && u in Apply(s, a).db.subs && Apply(s, a).db.subs[u].confirmed
    ensures u in s.db.subs && s.db.subs[u].confirmed
  {
    if a.App? { OtherAppStepsConfirmNobody(s, a.app, u); } else if a.Notify? { NotifierStepsKeepUsers(s, a.notify); }
  }

  lemma OtherStepThreads(s: State, a: Step, t: Tid)
    requires Enabled(s, a) && OtherStep(a)
    requires t in Apply(s, a).threads && (Apply(s, a).threads[t].ConfirmWrite? || Apply(s, a).threads[t].ScanPublish?)
    ensures t in s.threads && s.threads[t] == Apply(s, a).threads[t]
  {
    if a.App? { OtherAppStepsPrepareNothing(s, a.app, t); } else if a.Notify? { NotifierStepsOptIn(s, a.notify, t); }
  }

  lemma OtherStepAnnounced(s: State, a: Step)
    requires Enabled(s, a) && OtherStep(a)
    ensures Apply(s, a).hist.announced == s.hist.announced
  {
    if a.App? { OtherAppStepsAnnounceNothing(s, a.app); } else if a.Notify? { NotifierStepsKeepUsers(s, a.notify); }
  }

  lemma OtherStepOptIn(s: State, a: Step)
    requires Enabled(s, a) && OptInOk(s) && OtherStep(a) && Grows(s.db, s.hist, Apply(s, a).db, Apply(s, a).hist)
    ensures OptInOk(Apply(s, a))
  {
    var s' := Apply(s, a);
    forall u | u in s'.db.subs && s'.db.subs[u].confirmed ensures TokenMailed(s'.hist, u) {
      OtherStepRows(s, a, u);
      assert TokenMailed(s.hist, u);
    }
    forall t | t in s'.threads ensures PcOptIn(s'.hist, s'.threads[t]) {
      if s'.threads[t].ConfirmWrite? || s'.threads[t].ScanPublish? {
        OtherStepThreads(s, a, t);
        PcOptInStable(s, s', s.threads[t]);
      }
    }
    OtherStepAnnounced(s, a);
  }

  /** A token that was e-mailed and that a row carries was e-mailed for that row. */
  lemma LookupFindsMailed(s: State, k: Token, u: SubId, m: Mail)
    requires Core(s.db, s.hist) && u in s.db.subs && s.db.subs[u].confirmToken == k
    requires m in s.hist.mail && m.payload.token == k
    ensures TokenMailed(s.hist, u)
  {
    assert SubOk(s.db, s.hist, u);
  }

  lemma StartOptIn(s: State, t: Tid, pc: Pc)
    requires OptInOk(s) && t !in s.threads && PcOptIn(s.hist, pc)
    ensures OptInOk(Put(s, t, pc))
  {
  }

  lemma WriteOptIn(s: State, t: Tid, f: Fault)
    requires OptInOk(s) && t in s.threads && s.threads[t].ConfirmWrite?
    ensures OptInOk(DoWriteConfirm(s, t, f))
  {
    assert PcOptIn(s.hist, s.threads[t]);
  }

  lemma ListedAreConfirmed(s: State, repo: RepoId, rows: seq<Recipient>)
    requires RowsOk(s.db, s.hist) && OptInOk(s) && ListsConfirmed(s.db, repo, rows)
    ensures PcOptIn(s.hist, ScanPublish(rows))
  {
    forall i | 0 <= i < |rows| ensures RecipientOk(s.hist, rows[i]) {
      assert SubOk(s.db, s.hist, rows[i].sub);
    }
  }

  lemma UserStepOptIn(s: State, a: AppStep)
    requires Core(s.db, s.hist) && AppEnabled(s, a) && AboutUsers(a) && OptInOk(s) && Honest(s, App(a))
    ensures OptInOk(AppApply(s, a))
  {
    match a {
      case LookupConfirm(t, k, u) =>
        var m :| m in s.hist.mail && m.payload.token == k;
        LookupFindsMailed(s, k, u, m);
        StartOptIn(s, t, ConfirmWrite(u, k));
      case WriteConfirm(t, f) => WriteOptIn(s, t, f);
      case ListConfirmed(t, repo, rows) =>
        ListedAreConfirmed(s, repo, rows);
        StartOptIn(s, t, ScanPublish(rows));
      case Announce(t) => AnnounceOptIn(s, t);
    }
  }

  lemma AnnounceOptIn(s: State, t: Tid)
    requires OptInOk(s) && t in s.threads && s.threads[t].ScanPublish?
    ensures OptInOk(DoAnnounce(s, t))
  {
    var rest := s.threads[t].rest;
    assert PcOptIn(s.hist, s.threads[t]);
    var s' := DoAnnounce(s, t);
    forall r | r in s'.threads ensures PcOptIn(s'.hist, s'.threads[r]) {
      assert r != t ==> PcOptIn(s.hist, s.threads[r]);
    }
  }

  lemma {:induction false} HonestRunKeeps(s: State, run: seq<Step>)
    requires Inv(s) && Valid(s, run) && HonestRun(s, run) && OptInOk(s)
    ensures OptInOk(Exec(s, run))
    decreases |run|
  {
    if run != [] {
      var a := run[0];
      StepKeeps(s, a);
      if a.App? && AboutUsers(a.app) { UserStepOptIn(s, a.app); } else { OtherStepOptIn(s, a); }
      HonestRunKeeps(Apply(s, a), run[1..]);
    }
  }

  /** The e-mail that carried a stored subscription's own confirm token. */
  ghost predicate HasConfirmMail(s: State, to: Address, k: Token) {
    exists m :: m in s.hist.mail && m.payload.to == to && m.payload.token == k
  }

  lemma MailedToOwner(s: State, u: SubId)
    requires HistOk(s.db, s.hist) && TokenMailed(s.hist, u)
    ensures var b := s.hist.births[s.hist.owner[u]]; HasConfirmMail(s, b.email, b.token)
  {
    var x := s.hist.owner[u];
    assert Mail(x, PayloadOf(s.hist.births[x])) in s.hist.mail;
  }

  /** With honest users, a confirmed row's own confirm token was e-mailed to its own
      address, and so was the token of every subscription for which a release
      message is ever addressed. */
  lemma ReleasesGoToConfirmedAddresses(cascade: bool, run: seq<Step>, u: SubId, r: Recipient)
    requires Valid(Init(cascade), run) && HonestRun(Init(cascade), run)
    ensures var s := Exec(Init(cascade), run);
            && (u in s.db.subs && s.db.subs[u].confirmed ==>
                HasConfirmMail(s, s.db.subs[u].email, s.db.subs[u].confirmToken))
            && (r in s.hist.announced ==>
                  r.sub in s.hist.owner && s.hist.owner[r.sub] in s.hist.births
                  && HasConfirmMail(s, r.to, s.hist.births[s.hist.owner[r.sub]].token))
  {
    var s := Exec(Init(cascade), run);
    InitInv(cascade);
    RunKeeps(Init(cascade), run);
    HonestRunKeeps(Init(cascade), run);
    if u in s.db.subs && s.db.subs[u].confirmed {
      assert SubOk(s.db, s.hist, u);
      MailedToOwner(s, u);
    }
    if r in s.hist.announced {
      assert RecipientOk(s.hist, r);
      MailedToOwner(s, r.sub);
    }
  }

  // ----------------------------------------------------- confirmed at the fetch

  /** The recipient's subscription is stored, confirmed and at this address, and its
      confirm token has been e-mailed there. */
  ghost predicate ConfirmedNow(s: State, r: Recipient) {
    r.sub in s.db.subs && s.db.subs[r.sub].confirmed && s.db.subs[r.sub].email == r.to
    && HasConfirmMail(s, r.to, s.db.subs[r.sub].confirmToken)
  }

  /** The query for confirmed subscribers returns the recipient, at a moment when it
      is confirmed. */
  ghost predicate FetchesConfirmed(s: State, a: Step, r: Recipient) {
    a.App? && a.app.ListConfirmed? && r in a.app.rows && ConfirmedNow(s, r)
  }

  /** Some step of the run is such a fetch. */
  ghost predicate FetchedConfirmed(s: State, run: seq<Step>, r: Recipient)
    requires Valid(s, run)
    decreases |run|
  {
    run != [] && (FetchesConfirmed(s, run[0], r) || FetchedConfirmed(Apply(s, run[0]), run[1..], r))
  }

  predicate QueuedAt(s: State, t: Tid, r: Recipient) {
    t in s.threads && s.threads[t].ScanPublish? && r in s.threads[t].rest
  }

  /** Announced already, or still to be announced by a scan. */
  ghost predicate Due(s: State, r: Recipient) {
    r in s.hist.announced || exists t :: QueuedAt(s, t, r)
  }

  lemma FetchedWereConfirmed(s: State, repo: RepoId, rows: seq<Recipient>, r: Recipient)
    requires Core(s.db, s.hist) && OptInOk(s) && ListsConfirmed(s.db, repo, rows) && r in rows
    ensures ConfirmedNow(s, r)
  {
    assert SubOk(s.db, s.hist, r.sub) && TokenMailed(s.hist, r.sub);
    var x := s.hist.owner[r.sub];
    assert Mail(x, PayloadOf(s.hist.births[x])) in s.hist.mail;
  }

  lemma AnnounceDues(s: State, t: Tid, r: Recipient)
    requires t in s.threads && s.threads[t].ScanPublish? && Due(DoAnnounce(s, t), r)
    ensures Due(s, r)
  {
    var s' := DoAnnounce(s, t);
    if r !in s.hist.announced {
      if r in s'.hist.announced {
        assert QueuedAt(s, t, r);
      } else {
        var q :| QueuedAt(s', q, r);
        assert QueuedAt(s, q, r);
      }
    }
  }

  lemma PutDues(s: State, t: Tid, pc: Pc, r: Recipient)
    requires t !in s.threads && Due(Put(s, t, pc), r)
    ensures Due(s, r) || (pc.ScanPublish? && r in pc.rest)
  {
    if r !in s.hist.announced {
      var q :| QueuedAt(Put(s, t, pc), q, r);
      assert q == t || QueuedAt(s, q, r);
    }
  }

  lemma WriteDues(s: State, t: Tid, f: Fault, r: Recipient)
    requires t in s.threads && s.threads[t].ConfirmWrite? && Due(DoWriteConfirm(s, t, f), r)
    ensures Due(s, r)
  {
    var s' := DoWriteConfirm(s, t, f);
    if r !in s.hist.announced {
      var q :| QueuedAt(s', q, r);
      assert QueuedAt(s, q, r);
    }
  }

  lemma OtherStepDues(s: State, a: Step, r: Recipient)
    requires Enabled(s, a) && OtherStep(a) && Due(Apply(s, a), r)
    ensures Due(s, r)
  {
    OtherStepAnnounced(s, a);
    if r !in s.hist.announced {
      var q :| QueuedAt(Apply(s, a), q, r);
      OtherStepThreads(s, a, q);
      assert QueuedAt(s, q, r);
    }
  }

  lemma StepDues(s: State, a: Step, r: Recipient)
    requires Core(s.db, s.hist) && OptInOk(s) && Enabled(s, a) && Due(Apply(s, a), r)
    ensures Due(s, r) || FetchesConfirmed(s, a, r)
  {
    if OtherStep(a) {
      OtherStepDues(s, a, r);
    } else {
      match a.app {
        case LookupConfirm(t, k, u) => PutDues(s, t, ConfirmWrite(u, k), r);
        case WriteConfirm(t, f) => WriteDues(s, t, f, r);
        case ListConfirmed(t, repo, rows) =>
          PutDues(s, t, ScanPublish(rows), r);
          if !Due(s, r) { FetchedWereConfirmed(s, repo, rows, r); }
        case Announce(t) => AnnounceDues(s, t, r);
      }
    }
  }

  lemma {:induction false} RunDues(s: State, run: seq<Step>, r: Recipient)
    requires Inv(s) && Valid(s, run) && HonestRun(s, run) && OptInOk(s) && Due(Exec(s, run), r)
    ensures Due(s, r) || FetchedConfirmed(s, run, r)
    decreases |run|
  {
    if run != [] {
      var a := run[0];
      StepKeeps(s, a);
      if a.App? && AboutUsers(a.app) { UserStepOptIn(s, a.app); } else { OtherStepOptIn(s, a); }
      RunDues(Apply(s, a), run[1..], r);
      if Due(Apply(s, a), r) { StepDues(s, a, r); }
    }
  }

  /** Double opt-in: with honest users every release message goes to a recipient that
      some fetch of the run returned, and at that fetch the subscription was stored
      and confirmed at that address, its confirm token e-mailed there before. */
  lemma AnnouncedWereConfirmed(cascade: bool, run: seq<Step>, r: Recipient)
    requires Valid(Init(cascade), run) && HonestRun(Init(cascade), run)
    requires r in Exec(Init(cascade), run).hist.announced
    ensures FetchedConfirmed(Init(cascade), run, r)
  {
    InitInv(cascade);
    RunDues(Init(cascade), run, r);
  }
}
