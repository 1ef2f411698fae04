/** How many confirmation e-mails one saga can get in any run at all: redeliveries,
    lost entries, restarts and sends that deliver and then report an error included. */
module DeliveryBound {
  import opened Domain
  import opened Store
  import opened Queues
  import opened Protocol
  import opened Invariants
  import opened Steps
  import opened Runs
  import opened EmailBound

  // -------------------------------------------------------- what is counted

  predicate SendsCommand(s: State, a: Step, x: SagaId) {
    && a.Notify? && a.notify.SendMail? && !a.notify.f.Fails?
    && a.notify.t in s.threads && s.threads[a.notify.t].WorkerSend? && s.threads[a.notify.t].saga == x
  }

  predicate SendsCall(s: State, a: Step, x: SagaId) {
    && a.Notify? && a.notify.SendClaimed? && !a.notify.f.Fails?
    && a.notify.t in s.threads && s.threads[a.notify.t].GrpcSend? && s.threads[a.notify.t].saga == x
  }

  /** The gRPC handler is told that an e-mail failed that was delivered. */
  predicate SendsUnsure(s: State, a: Step, x: SagaId) {
    SendsCall(s, a, x) && a.notify.f.FailsAfterEffect?
  }

  /** The saga's command goes back to its queue. */
  predicate Redelivers(s: State, a: Step, x: SagaId) {
    && a.World? && a.world.RedeliverCommand?
    && var tag := a.world.tag;
    && tag in s.commands.unsettled && tag in s.commands.tags && s.commands.tags[tag] in s.commands.bodies
    && var body := s.commands.bodies[s.commands.tags[tag]];
    body.SendConfirmation? && body.saga == x
  }

  /** The saga's entry may be lost. */
  predicate Loses(a: Step, x: SagaId) {
    a.World? && (a.world.CrashNotifier? || a.world == DropEntry(x))
  }

  function One(b: bool): nat {
    if b then 1 else 0
  }

  /** E-mails delivered for `x` in a run, by command and by call. */
  function ByCommand(s: State, run: seq<Step>, x: SagaId): nat
    requires Valid(s, run)
    decreases |run|
  {
    if run == [] then 0 else One(SendsCommand(s, run[0], x)) + ByCommand(Apply(s, run[0]), run[1..], x)
  }

  function ByCall(s: State, run: seq<Step>, x: SagaId): nat
    requires Valid(s, run)
    decreases |run|
  {
    if run == [] then 0 else One(SendsCall(s, run[0], x)) + ByCall(Apply(s, run[0]), run[1..], x)
  }

  function Redeliveries(s: State, run: seq<Step>, x: SagaId): nat
    requires Valid(s, run)
    decreases |run|
  {
    if run == [] then 0 else One(Redelivers(s, run[0], x)) + Redeliveries(Apply(s, run[0]), run[1..], x)
  }

  function Losses(run: seq<Step>, x: SagaId): nat
    decreases |run|
  {
    if run == [] then 0 else One(Loses(run[0], x)) + Losses(run[1..], x)
  }

  function Unsure(s: State, run: seq<Step>, x: SagaId): nat
    requires Valid(s, run)
    decreases |run|
  {
    if run == [] then 0 else One(SendsUnsure(s, run[0], x)) + Unsure(Apply(s, run[0]), run[1..], x)
  }

  // ------------------------------------------------------------- by gRPC call

  ghost function Holders(s: State, x: SagaId): set<Tid> {
    set t | t in s.threads && Holds(s.threads[t], x)
  }

  /** Sends the gRPC path has in store: one for each claim that is held, and one more
      while there is no entry. */
  ghost function CallCredit(s: State, x: SagaId): nat {
    |Holders(s, x)| + One(x !in s.dedupe)
  }

  lemma RemoveOne<T>(a: set<T>, b: set<T>, x: T)
    requires x in b && a <= b - {x}
    ensures |a| + 1 <= |b|
  {
    SubsetSize(a, b - {x});
  }

  lemma AddAtMostOne<T>(a: set<T>, b: set<T>, x: T)
    requires a <= b + {x}
    ensures |a| <= |b| + 1
  {
    SubsetSize(a, b + {x});
  }

  lemma ClaimCredit(s: State, t: Tid, x: SagaId)
    requires t in s.threads && s.threads[t].GrpcClaim?
    ensures CallCredit(DoClaim(s, t), x) <= CallCredit(s, x)
  {
    var s' := DoClaim(s, t);
    if s.threads[t].saga == x && x !in s.dedupe {
      AddAtMostOne(Holders(s', x), Holders(s, x), t);
    } else {
      SubsetSize(Holders(s', x), Holders(s, x));
    }
  }

  lemma SendCredit(s: State, t: Tid, f: Fault, x: SagaId)
    requires t in s.threads && s.threads[t].GrpcSend?
    ensures var mine := s.threads[t].saga == x;
            CallCredit(DoSendClaimed(s, t, f), x) + One(mine && !f.Fails?) <=
            CallCredit(s, x) + One(mine && f.FailsAfterEffect?)
  {
    var s' := DoSendClaimed(s, t, f);
    if s.threads[t].saga == x && f.Works? {
      RemoveOne(Holders(s', x), Holders(s, x), t);
    } else {
      SubsetSize(Holders(s', x), Holders(s, x));
    }
  }

  lemma ReleaseCredit(s: State, t: Tid, x: SagaId)
    requires t in s.threads && s.threads[t].GrpcRelease?
    ensures CallCredit(DoRelease(s, t), x) <= CallCredit(s, x)
  {
    var s' := DoRelease(s, t);
    if s.threads[t].saga == x {
      RemoveOne(Holders(s', x), Holders(s, x), t);
    } else {
      SubsetSize(Holders(s', x), Holders(s, x));
    }
  }

  lemma MarkCredit(s: State, t: Tid, x: SagaId)
    requires t in s.threads && s.threads[t].WorkerMark?
    ensures CallCredit(DoMarkSaga(s, t), x) <= CallCredit(s, x)
  {
    SubsetSize(Holders(DoMarkSaga(s, t), x), Holders(s, x));
  }

  lemma LossCredit(s: State, a: Step, x: SagaId)
    requires Enabled(s, a) && !KeepsEntries(a)
    ensures CallCredit(Apply(s, a), x) <= CallCredit(s, x) + One(Loses(a, x))
  {
    SubsetSize(Holders(Apply(s, a), x), Holders(s, x));
  }

  lemma OtherStepCredit(s: State, a: Step, x: SagaId)
    requires Enabled(s, a) && KeepsEntries(a) && !TouchesClaims(a)
    ensures CallCredit(Apply(s, a), x) <= CallCredit(s, x)
  {
    OtherStepLeavesClaims(s, a);
    forall t | t in Holders(Apply(s, a), x) ensures t in Holders(s, x) {
      assert Claims(Apply(s, a), AtThread(t), x) ==> Claims(s, AtThread(t), x);
    }
    SubsetSize(Holders(Apply(s, a), x), Holders(s, x));
  }

  /** Every gRPC delivery uses credit, unless it is reported as a failure, and only
      the loss of an entry or a restart gives any. */
  lemma StepCallCredit(s: State, a: Step, x: SagaId)
    requires Enabled(s, a)
    ensures CallCredit(Apply(s, a), x) + One(SendsCall(s, a, x)) <=
            CallCredit(s, x) + One(Loses(a, x)) + One(SendsUnsure(s, a, x))
  {
    if !KeepsEntries(a) {
      LossCredit(s, a, x);
    } else if TouchesClaims(a) {
      match a.notify {
        case ClaimSaga(t) => ClaimCredit(s, t, x);
        case SendClaimed(t, f) => SendCredit(s, t, f, x);
        case ReleaseClaim(t) => ReleaseCredit(s, t, x);
        case MarkSaga(t) => MarkCredit(s, t, x);
      }
    } else {
      OtherStepCredit(s, a, x);
    }
  }

  lemma {:induction false} RunCallCredit(s: State, run: seq<Step>, x: SagaId)
    requires Valid(s, run)
    ensures CallCredit(Exec(s, run), x) + ByCall(s, run, x) <= CallCredit(s, x) + Losses(run, x) + Unsure(s, run, x)
    decreases |run|
  {
    if run != [] {
      StepCallCredit(s, run[0], x);
      RunCallCredit(Apply(s, run[0]), run[1..], x);
    }
  }

  // -------------------------------------------------------------- by command

  /** The rights to send by command that exist now. */
  ghost function Rights(s: State, x: SagaId): set<Spot> {
    (set t | t in s.threads && Carries(s, AtThread(t), x) :: AtThread(t))
    + (set m | m in s.commands.ready && Carries(s, InReady(m), x) :: InReady(m))
  }

  lemma RightsAre(s: State, x: SagaId, c: Spot)
    ensures c in Rights(s, x) <==> !c.InLog? && Carries(s, c, x)
  {
  }

  /** And the one that comes with the saga. */
  ghost function CommandCredit(s: State, x: SagaId): nat {
    |Rights(s, x)| + One(x !in s.hist.births)
  }

  lemma SameRights(s: State, s': State, x: SagaId)
    requires forall c: Spot :: !c.InLog? && Carries(s', c, x) ==> Carries(s, c, x)
    requires x in s.hist.births ==> x in s'.hist.births
    ensures CommandCredit(s', x) <= CommandCredit(s, x)
  {
    forall c | c in Rights(s', x) ensures c in Rights(s, x) {
      RightsAre(s', x, c);
      RightsAre(s, x, c);
    }
    SubsetSize(Rights(s', x), Rights(s, x));
  }

  /** A right moves from one place to another, or is used. */
  lemma MovedRight(s: State, s': State, x: SagaId, from: Spot, to: Option<Spot>)
    requires !from.InLog? && Carries(s, from, x)
    requires forall c: Spot :: !c.InLog? && Carries(s', c, x) && to != Some(c) ==> Carries(s, c, x) && c != from
    requires x in s.hist.births ==> x in s'.hist.births
    ensures CommandCredit(s', x) + One(to.None?) <= CommandCredit(s, x)
  {
    var r, r' := Rights(s, x), Rights(s', x);
    RightsAre(s, x, from);
    forall c | c in r' && to != Some(c) ensures c in r - {from} {
      RightsAre(s', x, c);
      RightsAre(s, x, c);
    }
    if to.None? {
      RemoveOne(r', r, from);
    } else {
      AddAtMostOne(r', r - {from}, to.value);
    }
  }

  lemma CreateCredit(s: State, t: Tid, u: SubId, y: SagaId, k: Token, k': Token, f: Fault, x: SagaId)
    requires AppEnabled(s, CreateWithSaga(t, u, y, k, k', f))
    ensures CommandCredit(DoCreate(s, t, u, y, k, k', f), x) <= CommandCredit(s, x)
  {
    var s' := DoCreate(s, t, u, y, k, k', f);
    forall c | Carries(s', c, x) ensures Carries(s, c, x) || (x == y && c == AtThread(t)) {
      CreateCarries(s, t, u, y, k, k', f, c, x);
    }
    if x == y && Carries(s', AtThread(t), x) && !Carries(s, AtThread(t), x) {
      forall c | c in Rights(s', x) ensures c in Rights(s, x) + {AtThread(t)} {
        RightsAre(s', x, c);
        RightsAre(s, x, c);
      }
      AddAtMostOne(Rights(s', x), Rights(s, x), AtThread(t));
      assert x in s'.hist.births;
    } else {
      SameRights(s, s', x);
    }
  }

  lemma SendCommandCredit(s: State, t: Tid, m: MsgId, f: Fault, x: SagaId)
    requires Conserved(s.commands) && t in s.threads && s.threads[t].PublishCommand? && m !in s.commands.bodies
    ensures CommandCredit(DoSendCommand(s, t, m, f), x) <= CommandCredit(s, x)
  {
    var s' := DoSendCommand(s, t, m, f);
    forall c | Carries(s', c, x)
      ensures Carries(s, if c == InReady(m) then AtThread(t) else c, x) && c != AtThread(t)
    {
      SendCommandCarries(s, t, m, f, c, x);
    }
    if Carries(s', InReady(m), x) {
      MovedRight(s, s', x, AtThread(t), Some(InReady(m)));
    } else {
      SameRights(s, s', x);
    }
  }

  lemma TakeCommandCredit(s: State, t: Tid, tag: Tag, m: MsgId, x: SagaId)
    requires t !in s.threads && m in s.commands.ready && m in s.commands.bodies && tag !in s.commands.tags
    ensures CommandCredit(DoTakeCommand(s, t, tag, m), x) <= CommandCredit(s, x)
  {
    var s' := DoTakeCommand(s, t, tag, m);
    forall c | Carries(s', c, x)
      ensures Carries(s, if c == AtThread(t) then InReady(m) else c, x) && c != InReady(m)
    {
      TakeCommandCarries(s, t, tag, m, c, x);
    }
    if Carries(s', AtThread(t), x) {
      MovedRight(s, s', x, InReady(m), Some(AtThread(t)));
    } else {
      SameRights(s, s', x);
    }
  }

  lemma SendMailCredit(s: State, t: Tid, f: Fault, x: SagaId)
    requires t in s.threads && s.threads[t].WorkerSend?
    ensures CommandCredit(DoSendMail(s, t, f), x) + One(s.threads[t].saga == x) <= CommandCredit(s, x)
  {
    var s' := DoSendMail(s, t, f);
    forall c: Spot | !c.InLog? && Carries(s', c, x) ensures Carries(s, c, x) && c != AtThread(t) {
      SendMailCarries(s, t, f, c, x);
    }
    if s.threads[t].saga == x {
      MovedRight(s, s', x, AtThread(t), None);
    } else {
      SameRights(s, s', x);
    }
  }

  lemma RedeliveryCredit(s: State, tag: Tag, x: SagaId)
    requires Enabled(s, World(RedeliverCommand(tag)))
    ensures CommandCredit(Apply(s, World(RedeliverCommand(tag))), x) <=
            CommandCredit(s, x) + One(Redelivers(s, World(RedeliverCommand(tag)), x))
  {
    var a := World(RedeliverCommand(tag));
    var s' := Apply(s, a);
    if Redelivers(s, a, x) {
      var m := s.commands.tags[tag];
      forall c | c in Rights(s', x) ensures c in Rights(s, x) + {InReady(m)} {
        RightsAre(s', x, c);
        RightsAre(s, x, c);
      }
      AddAtMostOne(Rights(s', x), Rights(s, x), InReady(m));
    } else {
      SameRights(s, s', x);
    }
  }

  lemma MovingStepCredit(s: State, a: Step, x: SagaId)
    requires Inv(s) && Enabled(s, a) && MovesRight(a)
    ensures CommandCredit(Apply(s, a), x) + One(SendsCommand(s, a, x)) <= CommandCredit(s, x)
  {
    match a {
      case App(CreateWithSaga(t, u, y, k, k', f)) => CreateCredit(s, t, u, y, k, k', f, x);
      case App(SendCommand(t, m, f)) => SendCommandCredit(s, t, m, f, x);
      case Notify(TakeCommand(t, tag, m)) => TakeCommandCredit(s, t, tag, m, x);
      case Notify(SendMail(t, f)) => SendMailCredit(s, t, f, x);
    }
  }

  lemma OtherStepCommandCredit(s: State, a: Step, x: SagaId)
    requires Inv(s) && Enabled(s, a) && !MovesRight(a) && !(a.World? && a.world.RedeliverCommand?)
    ensures CommandCredit(Apply(s, a), x) <= CommandCredit(s, x)
  {
    StepKeeps(s, a);
    forall c: Spot | !c.InLog? && Carries(Apply(s, a), c, x) ensures Carries(s, c, x) {
      if Calm(a) { OtherStepsCarry(s, a, c, x); }
    }
    SameRights(s, Apply(s, a), x);
  }

  /** Every delivery by command uses a right, and only a redelivery gives one. */
  lemma StepCommandCredit(s: State, a: Step, x: SagaId)
    requires Inv(s) && Enabled(s, a)
    ensures CommandCredit(Apply(s, a), x) + One(SendsCommand(s, a, x)) <= CommandCredit(s, x) + One(Redelivers(s, a, x))
  {
    if MovesRight(a) {
      MovingStepCredit(s, a, x);
    } else if a.World? && a.world.RedeliverCommand? {
      RedeliveryCredit(s, a.world.tag, x);
    } else {
      OtherStepCommandCredit(s, a, x);
    }
  }

  lemma {:induction false} RunCommandCredit(s: State, run: seq<Step>, x: SagaId)
    requires Inv(s) && Valid(s, run)
    ensures CommandCredit(Exec(s, run), x) + ByCommand(s, run, x) <= CommandCredit(s, x) + Redeliveries(s, run, x)
    decreases |run|
  {
    if run != [] {
      StepKeeps(s, run[0]);
      StepCommandCredit(s, run[0], x);
      RunCommandCredit(Apply(s, run[0]), run[1..], x);
    }
  }

  // ------------------------------------------------------------------ the bound

  /** In every run whatsoever: a saga gets at most one e-mail by command and one for
      each redelivery of its command, and at most one by gRPC call and one for each
      loss of its entry, each restart of the notifier and each call that delivered
      and was told it failed. */
  lemma DeliveriesAreBounded(cascade: bool, run: seq<Step>, x: SagaId)
    requires Valid(Init(cascade), run)
    ensures var s := Init(cascade);
            && ByCommand(s, run, x) <= 1 + Redeliveries(s, run, x)
            && ByCall(s, run, x) <= 1 + Losses(run, x) + Unsure(s, run, x)
            && ByCommand(s, run, x) + ByCall(s, run, x) <=
                 2 + Redeliveries(s, run, x) + Losses(run, x) + Unsure(s, run, x)
  {
    var s := Init(cascade);
    InitInv(cascade);
    assert Holders(s, x) == {} && Rights(s, x) == {};
    RunCallCredit(s, run, x);
    RunCommandCredit(s, run, x);
  }
}
