/** The notifier's two delivery paths, each as the sequence of calls it makes: the
    AMQP command handler and the gRPC handler, with the dedupe cache they share. */
module Notifier {
  import opened Domain
  import opened Queues
  import opened Protocol
  import opened Backoff
  import opened Runs
  import D = DedupeCache

  const INITIAL_REPLY: nat := 200

  /** Calls in the order they are made, with how they ended. A release goes to one
      address; what it says is not modelled. */
  datatype Effect =
    | Mailed(saga: SagaId, payload: Payload, f: Fault)
    | ReleaseMailed(to: Address, f: Fault)
    | Marked(saga: SagaId)
    | Replied(saga: SagaId, sent: bool, f: Fault)
    | Waited(ms: nat)
    | Settled(verdict: Verdict)

  /** The routing key, and the body if it decodes. */
  datatype Delivery =
    | CommandDelivery(command: Option<(SagaId, Payload)>)
    | ReleaseDelivery(to: Option<Address>)
    | UnknownDelivery

  /** What the environment decides about one publish attempt: how the call ends,
      whether the context is done right after it, and whether it ends the wait
      that follows. */
  datatype Attempt = Attempt(f: Fault, done: bool, doneWaiting: bool)

  /** Nothing is attempted after attempt `k` out of `n`. */
  predicate Last(env: nat -> Attempt, n: nat, k: nat) {
    env(k).f.Works? || env(k).done || k + 1 >= n || env(k).doneWaiting
  }

  /** `k` attempts are made out of a budget of `n`. */
  ghost predicate Attempts(env: nat -> Attempt, n: nat, k: nat) {
    && k <= n && (n > 0 ==> k > 0 && Last(env, n, k - 1))
    && forall j: nat :: j + 1 < k ==> !Last(env, n, j)
  }

  /** `k` publish attempts with the full waits between them, the first `b` long. */
  function Replies(x: SagaId, sent: bool, env: nat -> Attempt, b: nat, k: nat): (r: seq<Effect>)
    ensures forall i :: 0 <= i < |r| ==> r[i].Waited? || (r[i].Replied? && r[i].saga == x && r[i].sent == sent)
  {
    if k == 0 then []
    else if k == 1 then [Replied(x, sent, env(0).f)]
    else Replies(x, sent, env, b, k - 1) + [Waited(b * Pow2(k - 2)), Replied(x, sent, env(k - 1).f)]
  }

  lemma RepliesGrow(log: seq<Effect>, x: SagaId, sent: bool, env: nat -> Attempt, b: nat, k: nat)
    ensures var wait := if k == 0 then [] else [Waited(b * Pow2(k - 1))];
            log + Replies(x, sent, env, b, k) + wait + [Replied(x, sent, env(k).f)]
            == log + Replies(x, sent, env, b, k + 1)
  {
    if k == 0 {
      assert log + [] + [] == log;
    }
  }

  class Consumer {
    const marker: D.Dedupe
    var log: seq<Effect>

    constructor (marker: D.Dedupe)
      ensures this.marker == marker && log == []
    {
      this.marker := marker;
      log := [];
    }

    /** An empty budget publishes nothing and reports no error. */
    method PublishReplyWithRetry(x: SagaId, sent: bool, env: nat -> Attempt, n: nat, b: nat)
      returns (ok: bool, ghost calls: nat)
      modifies this
      ensures Attempts(env, n, calls) && log == old(log) + Replies(x, sent, env, b, calls)
      ensures ok <==> n == 0 || env(calls - 1).f.Works?
    {
      var backoff := b;
      var attempt := 1;
      calls := 0;
      while attempt <= n
        invariant 1 <= attempt <= n || (n == 0 && attempt == 1)
        invariant calls == attempt - 1 && backoff == b * Pow2(calls)
        invariant log == old(log) + Replies(x, sent, env, b, calls)
                  + (if calls == 0 then [] else [Waited(b * Pow2(calls - 1))])
        invariant forall j: nat :: j < calls ==> !Last(env, n, j)
      {
        RepliesGrow(old(log), x, sent, env, b, calls);
        log := log + [Replied(x, sent, env(attempt - 1).f)];
        calls := calls + 1;
        if env(attempt - 1).f.Works? { return true, calls; }
        if env(attempt - 1).done { return false, calls; }
        if attempt == n { return false, calls; }
        if env(attempt - 1).doneWaiting { return false, calls; }
        log := log + [Waited(backoff)];
        backoff := backoff * 2;
        attempt := attempt + 1;
      }
      ok := true;
    }

    method Dispatch(d: Delivery, send: Fault, env: nat -> Attempt, cutoff: int, stamp: int) returns (ghost calls: nat)
      modifies this, marker
      ensures d.CommandDelivery? && d.command.Some? ==> Attempts(env, REPLY_PUBLISH_ATTEMPTS, calls)
      ensures log == old(log) + Handling(d, send, env, calls)
      ensures d.CommandDelivery? && d.command.Some? ==>
                && |log| >= |old(log)| + 2 && log[..|old(log)|] == old(log)
                && log[|old(log)|] == Mailed(d.command.value.0, d.command.value.1, send)
                && log[|log| - 1] == Settled(Ack)
      ensures d.ReleaseDelivery? && d.to.Some? ==>
                log == old(log) + [ReleaseMailed(d.to.value, send), Settled(if send.Works? then Ack else DeadLetter)]
      ensures !Decoded(d) ==> log == old(log) + [Settled(DeadLetter)]
      ensures if d.CommandDelivery? && d.command.Some? && send.Works?
              then D.OpStep(old(marker.entries), D.Mark(d.command.value.0, cutoff, stamp), marker.entries, true,
                            marker.max, marker.ttl)
              else marker.entries == old(marker.entries)
    {
      calls := 0;
      match d {
        case CommandDelivery(command) =>
          if command.None? {
            log := log + [Settled(DeadLetter)];
            return;
          }
          var x, p := command.value.0, command.value.1;
          log := log + [Mailed(x, p, send)];
          if send.Works? {
            marker.Mark(x, cutoff, stamp);
            log := log + [Marked(x)];
            var _, c := PublishReplyWithRetry(x, true, env, REPLY_PUBLISH_ATTEMPTS, INITIAL_REPLY);
            calls := c;
            assert log == old(log) + ([Mailed(x, p, send)] + [Marked(x)] + Replies(x, true, env, INITIAL_REPLY, calls));
          } else {
            var _, c := PublishReplyWithRetry(x, false, env, REPLY_PUBLISH_ATTEMPTS, INITIAL_REPLY);
            calls := c;
            assert log == old(log) + ([Mailed(x, p, send)] + [] + Replies(x, false, env, INITIAL_REPLY, calls));
          }
          log := log + [Settled(Ack)];
        case ReleaseDelivery(to) =>
          if to.None? {
            log := log + [Settled(DeadLetter)];
            return;
          }
          log := log + [ReleaseMailed(to.value, send)];
          if !send.Works? {
            log := log + [Settled(DeadLetter)];
            return;
          }
          log := log + [Settled(Ack)];
        case UnknownDelivery =>
          log := log + [Settled(DeadLetter)];
      }
    }
  }

  /** A delivery of a known routing key whose body decodes. */
  predicate Decoded(d: Delivery) {
    (d.CommandDelivery? && d.command.Some?) || (d.ReleaseDelivery? && d.to.Some?)
  }

  /** The calls for one delivery, `k` of them publishes of the reply. */
  function Handling(d: Delivery, send: Fault, env: nat -> Attempt, k: nat): seq<Effect> {
    match d
    case CommandDelivery(Some((x, p))) =>
      [Mailed(x, p, send)] + (if send.Works? then [Marked(x)] else [])
        + Replies(x, send.Works?, env, INITIAL_REPLY, k) + [Settled(Ack)]
    case ReleaseDelivery(Some(to)) => [ReleaseMailed(to, send), Settled(if send.Works? then Ack else DeadLetter)]
    case _ => [Settled(DeadLetter)]
  }

  // ------------------------------------------------------------ what it means

  /** Every delivery is settled exactly once, by the last call made for it, and is
      never requeued. */
  lemma SettledOnceAndLast(d: Delivery, send: Fault, env: nat -> Attempt, k: nat, i: nat)
    requires i < |Handling(d, send, env, k)|
    ensures var h := Handling(d, send, env, k);
            (h[i].Settled? <==> i == |h| - 1) && (h[i].Settled? ==> !h[i].verdict.Requeue?)
  {
  }

  /** The e-mail comes first and once; the saga is marked exactly when the provider
      returned nil, before any reply; every reply reports that outcome. */
  lemma MarkedBeforeReplies(x: SagaId, p: Payload, send: Fault, env: nat -> Attempt, k: nat, i: nat)
    requires i < |Handling(CommandDelivery(Some((x, p))), send, env, k)|
    ensures var h := Handling(CommandDelivery(Some((x, p))), send, env, k);
            && (h[i].Mailed? <==> i == 0) && h[0] == Mailed(x, p, send)
            && (h[i].Marked? <==> i == 1 && send.Works?)
            && (h[i].Replied? ==>
                  h[i].saga == x && (h[i].sent <==> send.Works?)
                  && (if h[i].sent then h[1] == Marked(x) && i > 1 else i > 0))
  {
  }

  /** How many publishes and how much waiting a trace holds. */
  function PublishCount(h: seq<Effect>): nat {
    if h == [] then 0 else PublishCount(h[..|h| - 1]) + (if h[|h| - 1].Replied? then 1 else 0)
  }

  function WaitTotal(h: seq<Effect>): nat {
    if h == [] then 0 else WaitTotal(h[..|h| - 1]) + (if h[|h| - 1].Waited? then h[|h| - 1].ms else 0)
  }

  lemma Doubles(b: int, p: int)
    ensures b * (p - 1) + b * p == b * (2 * p - 1)
  {
  }

  /** The first `k - 1` waits added up, each twice the one before. */
  function FullWaits(b: nat, k: nat): nat {
    if k <= 1 then 0 else FullWaits(b, k - 1) + b * Pow2(k - 2)
  }

  lemma {:induction false} FullWaitsClosedForm(b: nat, k: nat)
    requires k > 0
    ensures FullWaits(b, k) == b * (Pow2(k - 1) - 1)
  {
    if k == 1 {
      assert Pow2(0) == 1;
    } else {
      FullWaitsClosedForm(b, k - 1);
      Doubles(b, Pow2(k - 2));
      assert Pow2(k - 1) == 2 * Pow2(k - 2);
    }
  }

  lemma CountsMore(h: seq<Effect>, e: Effect)
    ensures PublishCount(h + [e]) == PublishCount(h) + (if e.Replied? then 1 else 0)
    ensures WaitTotal(h + [e]) == WaitTotal(h) + (if e.Waited? then e.ms else 0)
  {
    assert (h + [e])[..|h|] == h;
  }

  lemma {:induction false} CountsJoin(h: seq<Effect>, more: seq<Effect>)
    ensures PublishCount(h + more) == PublishCount(h) + PublishCount(more)
    ensures WaitTotal(h + more) == WaitTotal(h) + WaitTotal(more)
    decreases |more|
  {
    if more == [] {
      assert h + more == h;
    } else {
      var n := |more| - 1;
      CountsJoin(h, more[..n]);
      CountsMore(h + more[..n], more[n]);
      assert h + more == h + more[..n] + [more[n]];
    }
  }

  lemma RepliesMore(x: SagaId, sent: bool, env: nat -> Attempt, b: nat, k: nat)
    requires k > 1
    ensures var r := Replies(x, sent, env, b, k - 1);
            var w, p := Waited(b * Pow2(k - 2)), Replied(x, sent, env(k - 1).f);
            Replies(x, sent, env, b, k) == r + [w] + [p]
  {
  }

  lemma CountsRound(h: seq<Effect>, w: Effect, p: Effect)
    requires w.Waited? && p.Replied?
    ensures PublishCount(h + [w] + [p]) == PublishCount(h) + 1 && WaitTotal(h + [w] + [p]) == WaitTotal(h) + w.ms
  {
    CountsMore(h, w);
    CountsMore(h + [w], p);
  }

  lemma OneReplyCounted(p: Effect)
    requires p.Replied?
    ensures PublishCount([p]) == 1 && WaitTotal([p]) == 0
  {
    assert [p][..0] == [];
  }

  lemma {:induction false} RepliesCounted(x: SagaId, sent: bool, env: nat -> Attempt, b: nat, k: nat)
    ensures PublishCount(Replies(x, sent, env, b, k)) == k
    ensures WaitTotal(Replies(x, sent, env, b, k)) == FullWaits(b, k)
    decreases k
  {
    if k == 1 {
      OneReplyCounted(Replied(x, sent, env(0).f));
    } else if k > 1 {
      RepliesCounted(x, sent, env, b, k - 1);
      RepliesMore(x, sent, env, b, k);
      CountsRound(Replies(x, sent, env, b, k - 1), Waited(b * Pow2(k - 2)), Replied(x, sent, env(k - 1).f));
    }
  }

  /** A decoded command is answered: every attempt made publishes its reply, there is
      at least one, and the ack comes after them, whatever became of the e-mail and
      of the replies. The waits are those of the attempts. */
  lemma CommandIsAnswered(x: SagaId, p: Payload, send: Fault, env: nat -> Attempt, k: nat)
    requires Attempts(env, REPLY_PUBLISH_ATTEMPTS, k)
    ensures var h := Handling(CommandDelivery(Some((x, p))), send, env, k);
            && PublishCount(h) == k && 1 <= k <= 5 && WaitTotal(h) == FullWaits(200, k)
            && h[|h| - 1] == Settled(Ack)
  {
    var first := [Mailed(x, p, send)] + (if send.Works? then [Marked(x)] else []);
    var replies := Replies(x, send.Works?, env, INITIAL_REPLY, k);
    CountsMore([], Mailed(x, p, send));
    assert [] + [Mailed(x, p, send)] == [Mailed(x, p, send)];
    if send.Works? { CountsMore([Mailed(x, p, send)], Marked(x)); }
    CountsJoin(first, replies);
    CountsMore(first + replies, Settled(Ack));
    RepliesCounted(x, send.Works?, env, INITIAL_REPLY, k);
  }

  /** For any first wait `b`: `k` attempts wait b * (2^(k-1) - 1) in total. */
  lemma RepliesWait(x: SagaId, sent: bool, env: nat -> Attempt, b: nat, k: nat)
    ensures PublishCount(Replies(x, sent, env, b, k)) == k
    ensures WaitTotal(Replies(x, sent, env, b, k)) == if k == 0 then 0 else b * (Pow2(k - 1) - 1)
  {
    RepliesCounted(x, sent, env, b, k);
    if k > 0 { FullWaitsClosedForm(b, k); }
  }

  /** With the shipped budget and first wait the waits come to 3.0 s exactly when
      no attempt but the fifth ends the loop, and to less otherwise. */
  lemma ShippedWindow(x: SagaId, sent: bool, env: nat -> Attempt, k: nat)
    requires Attempts(env, REPLY_PUBLISH_ATTEMPTS, k)
    ensures WaitTotal(Replies(x, sent, env, INITIAL_REPLY, k)) <= 3000
    ensures WaitTotal(Replies(x, sent, env, INITIAL_REPLY, k)) == 3000 <==>
              forall j: nat :: j < 4 ==> !Last(env, REPLY_PUBLISH_ATTEMPTS, j)
  {
    RepliesWait(x, sent, env, INITIAL_REPLY, k);
    assert Pow2(4) == 16 && Pow2(3) == 8;
    Pow2Monotone(k - 1, 4);
    if k < 5 { Pow2Monotone(k - 1, 3); }
  }

  // ------------------------------------------------------- the gRPC handler

  /** Answered OK without sending, sent, or failed with the claim released. */
  datatype Outcome = AlreadySent | SentNow | SendFailed

  class Server {
    const dedupe: D.Dedupe
    var log: seq<Effect>

    constructor (dedupe: D.Dedupe)
      ensures this.dedupe == dedupe && log == []
    {
      this.dedupe := dedupe;
      log := [];
    }

    method SendConfirmation(x: SagaId, p: Payload, send: Fault, check: int, cutoff: int, stamp: int)
      returns (ok: bool, ghost o: Outcome)
      modifies this, dedupe
      ensures Serves(old(dedupe.entries), x, send, check, cutoff, stamp, dedupe.max, dedupe.ttl, dedupe.entries, o)
      ensures ok <==> !o.SendFailed?
      ensures ok <==> D.Live(old(dedupe.entries), x, check, dedupe.ttl) || send.Works?
      ensures log == old(log) + if D.Live(old(dedupe.entries), x, check, dedupe.ttl) then [] else [Mailed(x, p, send)]
      ensures if D.Live(old(dedupe.entries), x, check, dedupe.ttl) then dedupe.entries == old(dedupe.entries)
              else if send.Works? then x in dedupe.entries && dedupe.entries[x] == stamp
              else x !in dedupe.entries
    {
      var claimed := dedupe.TryClaim(x, check, cutoff, stamp);
      if !claimed {
        return true, AlreadySent;
      }
      log := log + [Mailed(x, p, send)];
      ghost var e1 := dedupe.entries;
      D.InsertsKeepOthers(old(dedupe.entries), e1, x, dedupe.max, dedupe.ttl, cutoff, stamp);
      if !send.Works? {
        dedupe.Release(x);
        assert D.Inserts(old(dedupe.entries), e1, x, dedupe.max, dedupe.ttl, cutoff, stamp)
               && dedupe.entries == e1 - {x};
        return false, SendFailed;
      }
      return true, SentNow;
    }
  }

  /** One call taken alone, with the cache before and after it. */
  ghost predicate Serves(e: D.Entries, x: SagaId, send: Fault, check: int, cutoff: int, stamp: int, max: int, ttl: int,
                         e': D.Entries, o: Outcome) {
    match o
    case AlreadySent => D.Live(e, x, check, ttl) && e' == e
    case SentNow => !D.Live(e, x, check, ttl) && send.Works? && D.Inserts(e, e', x, max, ttl, cutoff, stamp)
    case SendFailed => !D.Live(e, x, check, ttl) && !send.Works?
                       && exists e1 :: D.Inserts(e, e1, x, max, ttl, cutoff, stamp) && e' == e1 - {x}
  }

  /** A call that sent makes the next call within the time to live answer OK and
      send nothing; a call that failed leaves the next one free to send. */
  lemma NextCall(e: D.Entries, x: SagaId, send: Fault, check: int, cutoff: int, stamp: int, max: int, ttl: int,
                 e': D.Entries, o: Outcome,
                 send': Fault, check': int, cutoff': int, stamp': int, e'': D.Entries, o': Outcome)
    requires Serves(e, x, send, check, cutoff, stamp, max, ttl, e', o)
    requires Serves(e', x, send', check', cutoff', stamp', max, ttl, e'', o')
    ensures o.SentNow? ==> (o'.AlreadySent? <==> check' - stamp <= ttl)
    ensures o.SendFailed? ==> !o'.AlreadySent?
  {
    if o.SentNow? {
      D.InsertsKeepOthers(e, e', x, max, ttl, cutoff, stamp);
    }
  }

  /** A command the AMQP path delivered and marked makes a gRPC call for the same
      saga within the time to live answer OK without sending. */
  lemma MarkStopsCall(e: D.Entries, x: SagaId, cutoff: int, stamp: int, max: int, ttl: int, e': D.Entries,
                      send: Fault, check: int, cutoff': int, stamp': int, e'': D.Entries, o: Outcome)
    requires D.OpStep(e, D.Mark(x, cutoff, stamp), e', true, max, ttl)
    requires Serves(e', x, send, check, cutoff', stamp', max, ttl, e'', o) && check - stamp <= ttl
    ensures o.AlreadySent?
  {
    D.InsertsKeepOthers(e, e', x, max, ttl, cutoff, stamp);
  }

  // --------------------------------------- one delivery is a run of the protocol

  /** The protocol's step for one call by thread `t`; a wait is no step. Message
      `m` is the reply a publish would create. */
  function StepsOf(t: Tid, env: nat -> Attempt, ids: nat -> MsgId, j: nat, k: nat): seq<Step>
    requires j <= k
    decreases k - j
  {
    if j == k then []
    else [Notify(PublishReply(t, ids(j), env(j).f, env(j).done || env(j).doneWaiting))] + StepsOf(t, env, ids, j + 1, k)
  }

  ghost predicate FreshIds(s: State, ids: nat -> MsgId, j: nat, k: nat) {
    && (forall i: nat :: j <= i < k ==> ids(i) !in s.events.bodies)
    && (forall i: nat, i': nat :: j <= i < i' < k ==> ids(i) != ids(i'))
  }

  /** Events published by the attempts from `j` on, over those of `s`. */
  function EventsAfter(q: Queue<Event>, x: SagaId, sent: bool, env: nat -> Attempt, ids: nat -> MsgId, j: nat,
                       k: nat): Queue<Event>
    requires j <= k && (forall i: nat :: j <= i < k ==> ids(i) !in q.bodies)
    requires forall i: nat, i': nat :: j <= i < i' < k ==> ids(i) != ids(i')
    decreases k - j
  {
    if j == k then q
    else
      var body := if sent then ConfirmationSent(x) else ConfirmationFailed(x);
      EventsAfter(if env(j).f.Fails? then q else Publish(q, ids(j), body), x, sent, env, ids, j + 1, k)
  }

  lemma OneReply(s: State, t: Tid, tag: Tag, m: MsgId, x: SagaId, sent: bool, env: nat -> Attempt, id: MsgId, j: nat,
                 k: nat)
    requires t in s.threads && s.threads[t] == WorkerReply(tag, m, x, sent, j + 1) && id !in s.events.bodies
    requires j < k <= REPLY_PUBLISH_ATTEMPTS && (Last(env, REPLY_PUBLISH_ATTEMPTS, j) <==> j + 1 == k)
    ensures var a := Notify(PublishReply(t, id, env(j).f, env(j).done || env(j).doneWaiting));
            Enabled(s, a)
            && var s' := Apply(s, a);
            var next := if j + 1 == k then WorkerSettle(tag, Ack) else WorkerReply(tag, m, x, sent, j + 2);
            s' == s.(threads := s.threads[t := next],
                     events := if env(j).f.Fails? then s.events
                               else Publish(s.events, id, if sent then ConfirmationSent(x) else ConfirmationFailed(x)))
  {
    var a := PublishReply(t, id, env(j).f, env(j).done || env(j).doneWaiting);
    assert NotifierApply(s, a) == DoPublishReply(s, t, id, env(j).f, env(j).done || env(j).doneWaiting);
  }

  lemma LastReplyIsARun(s: State, t: Tid, tag: Tag, m: MsgId, x: SagaId, sent: bool, env: nat -> Attempt,
                        ids: nat -> MsgId, k: nat)
    requires t in s.threads && k > 0 && s.threads[t] == WorkerReply(tag, m, x, sent, k)
    requires Attempts(env, REPLY_PUBLISH_ATTEMPTS, k) && FreshIds(s, ids, k - 1, k)
    ensures var run := StepsOf(t, env, ids, k - 1, k);
            Valid(s, run) && Exec(s, run) == s.(threads := s.threads[t := WorkerSettle(tag, Ack)],
                                               events := EventsAfter(s.events, x, sent, env, ids, k - 1, k))
  {
    var j := k - 1;
    OneReply(s, t, tag, m, x, sent, env, ids(j), j, k);
    OneStepRun(s, Notify(PublishReply(t, ids(j), env(j).f, env(j).done || env(j).doneWaiting)));
    assert StepsOf(t, env, ids, k, k) == [];
  }

  /** The publish attempts, taken alone, are steps of the command handler's thread:
      they end before the ack, with the reply published once for each attempt that
      took effect and nothing else touched. */
  lemma {:induction false} RepliesAreARun(s: State, t: Tid, tag: Tag, m: MsgId, x: SagaId, sent: bool,
                                          env: nat -> Attempt,
                                          ids: nat -> MsgId, j: nat, k: nat)
    requires t in s.threads && j < k && s.threads[t] == WorkerReply(tag, m, x, sent, j + 1)
    requires Attempts(env, REPLY_PUBLISH_ATTEMPTS, k) && FreshIds(s, ids, j, k)
    ensures var run := StepsOf(t, env, ids, j, k);
            Valid(s, run) && Exec(s, run) == s.(threads := s.threads[t := WorkerSettle(tag, Ack)],
                                               events := EventsAfter(s.events, x, sent, env, ids, j, k))
    decreases k - j
  {
    if j + 1 == k {
      LastReplyIsARun(s, t, tag, m, x, sent, env, ids, k);
    } else {
      assert !Last(env, REPLY_PUBLISH_ATTEMPTS, j);
      OneReply(s, t, tag, m, x, sent, env, ids(j), j, k);
      var a := Notify(PublishReply(t, ids(j), env(j).f, env(j).done || env(j).doneWaiting));
      RepliesAreARun(Apply(s, a), t, tag, m, x, sent, env, ids, j + 1, k);
      OneStep(s, a, StepsOf(t, env, ids, j + 1, k));
    }
  }

  /** The attempts and the settlement after them. */
  lemma RepliesThenSettle(s: State, t: Tid, tag: Tag, m: MsgId, x: SagaId, sent: bool, env: nat -> Attempt,
                          ids: nat -> MsgId, k: nat)
    requires t in s.threads && s.threads[t] == WorkerReply(tag, m, x, sent, 1)
             && s.commands.unsettled <= s.commands.tags.Keys
    requires Attempts(env, REPLY_PUBLISH_ATTEMPTS, k) && FreshIds(s, ids, 0, k)
    ensures var run := StepsOf(t, env, ids, 0, k) + [Notify(SettleCommand(t))];
            Valid(s, run) && Exec(s, run) == s.(threads := s.threads - {t}, commands := Settle(s.commands, tag, Ack),
                                               events := EventsAfter(s.events, x, sent, env, ids, 0, k))
  {
    RepliesAreARun(s, t, tag, m, x, sent, env, ids, 0, k);
    var s1 := Exec(s, StepsOf(t, env, ids, 0, k));
    var a := Notify(SettleCommand(t));
    var s2 := DoSettleCommand(s1, t);
    assert Enabled(s1, a) && Apply(s1, a) == s2;
    assert Valid(s2, []) && Exec(s2, []) == s2;
    OneStep(s1, a, []);
    assert [a] + [] == [a];
    RunsJoin(s, StepsOf(t, env, ids, 0, k), [a]);
    assert s.threads[t := WorkerSettle(tag, Ack)] - {t} == s.threads - {t};
  }

  /** Sagas marked before any claim, once `x` is marked as well. */
  function MarkedBy(s: State, x: SagaId): set<SagaId> {
    s.hist.markedFirst + if x in s.hist.claimed then {} else {x}
  }

  function DispatchRun(t: Tid, send: Fault, env: nat -> Attempt, ids: nat -> MsgId, k: nat): seq<Step> {
    [Notify(SendMail(t, send))]
    + ((if send.Works? then [Notify(MarkSaga(t))] else []) + (StepsOf(t, env, ids, 0, k) + [Notify(SettleCommand(t))]))
  }

  lemma MarkIsMade(s: State, t: Tid) returns (s1: State)
    requires t in s.threads && s.threads[t].WorkerMark?
    ensures var a, pc := Notify(MarkSaga(t)), s.threads[t];
            && Enabled(s, a) && Apply(s, a) == s1 && s1.db == s.db && s1.commands == s.commands && s1.events == s.events
            && s1.dedupe == s.dedupe + {pc.saga} && s1.hist.mail == s.hist.mail && s1.hist.asyncOk == s.hist.asyncOk
            && s1.hist.markedFirst == MarkedBy(s, pc.saga)
            && s1.threads == s.threads[t := WorkerReply(pc.tag, pc.msg, pc.saga, true, 1)]
  {
    s1 := DoMarkSaga(s, t);
    assert NotifierApply(s, MarkSaga(t)) == s1;
  }

  lemma MarkThenReplies(s: State, t: Tid, tag: Tag, m: MsgId, x: SagaId, env: nat -> Attempt, ids: nat -> MsgId, k: nat)
    requires t in s.threads && s.threads[t] == WorkerMark(tag, m, x) && s.commands.unsettled <= s.commands.tags.Keys
    requires Attempts(env, REPLY_PUBLISH_ATTEMPTS, k) && FreshIds(s, ids, 0, k)
    ensures var run := [Notify(MarkSaga(t))] + (StepsOf(t, env, ids, 0, k) + [Notify(SettleCommand(t))]);
            && Valid(s, run)
            && var s' := Exec(s, run);
            && s'.db == s.db && s'.threads == s.threads - {t} && s'.commands == Settle(s.commands, tag, Ack)
            && s'.events == EventsAfter(s.events, x, true, env, ids, 0, k)
            && s'.dedupe == s.dedupe + {x} && s'.hist.mail == s.hist.mail && s'.hist.asyncOk == s.hist.asyncOk
            && s'.hist.markedFirst == MarkedBy(s, x)
  {
    var tail := StepsOf(t, env, ids, 0, k) + [Notify(SettleCommand(t))];
    var s2 := MarkIsMade(s, t);
    RepliesThenSettle(s2, t, tag, m, x, true, env, ids, k);
    OneStep(s, Notify(MarkSaga(t)), tail);
    assert s2.threads - {t} == s.threads - {t};
  }

  ghost predicate DispatchedFrom(s: State, t: Tid, send: Fault, env: nat -> Attempt, ids: nat -> MsgId, k: nat,
                                 s': State)
    requires t in s.threads && s.threads[t].WorkerSend? && s.commands.unsettled <= s.commands.tags.Keys
    requires FreshIds(s, ids, 0, k)
  {
    var pc := s.threads[t];
    && s'.db == s.db && s'.threads == s.threads - {t} && s'.commands == Settle(s.commands, pc.tag, Ack)
    && s'.events == EventsAfter(s.events, pc.saga, send.Works?, env, ids, 0, k)
    && s'.dedupe == s.dedupe + (if send.Works? then {pc.saga} else {})
    && s'.hist.mail == s.hist.mail + (if send.Fails? then {} else {Mail(pc.saga, pc.payload)})
    && s'.hist.asyncOk == s.hist.asyncOk + (if send.Works? then multiset{pc.saga} else multiset{})
    && s'.hist.markedFirst == if send.Works? then MarkedBy(s, pc.saga) else s.hist.markedFirst
  }

  lemma DeliveredRun(s: State, t: Tid, env: nat -> Attempt, ids: nat -> MsgId, k: nat)
    requires t in s.threads && s.threads[t].WorkerSend? && s.commands.unsettled <= s.commands.tags.Keys
    requires Attempts(env, REPLY_PUBLISH_ATTEMPTS, k) && FreshIds(s, ids, 0, k)
    ensures Valid(s, DispatchRun(t, Works, env, ids, k))
    ensures DispatchedFrom(s, t, Works, env, ids, k, Exec(s, DispatchRun(t, Works, env, ids, k)))
  {
    var pc := s.threads[t];
    var s1 := DoSendMail(s, t, Works);
    assert Enabled(s, Notify(SendMail(t, Works))) && Apply(s, Notify(SendMail(t, Works))) == s1;
    MarkThenReplies(s1, t, pc.tag, pc.msg, pc.saga, env, ids, k);
    var tail := StepsOf(t, env, ids, 0, k) + [Notify(SettleCommand(t))];
    OneStep(s, Notify(SendMail(t, Works)), [Notify(MarkSaga(t))] + tail);
    assert s1.threads - {t} == s.threads - {t};
  }

  lemma UndeliveredSteps(t: Tid, send: Fault, env: nat -> Attempt, ids: nat -> MsgId, k: nat)
    requires !send.Works?
    ensures DispatchRun(t, send, env, ids, k) ==
            [Notify(SendMail(t, send))] + (StepsOf(t, env, ids, 0, k) + [Notify(SettleCommand(t))])
  {
  }

  lemma SendFails(s: State, t: Tid, send: Fault) returns (s1: State)
    requires t in s.threads && s.threads[t].WorkerSend? && !send.Works?
    ensures var a, pc := Notify(SendMail(t, send)), s.threads[t];
            && Enabled(s, a) && Apply(s, a) == s1 && s1.db == s.db && s1.commands == s.commands && s1.events == s.events
            && s1.dedupe == s.dedupe && s1.threads == s.threads[t := WorkerReply(pc.tag, pc.msg, pc.saga, false, 1)]
            && s1.hist.mail == s.hist.mail + (if send.Fails? then {} else {Mail(pc.saga, pc.payload)})
            && s1.hist.asyncOk == s.hist.asyncOk && s1.hist.markedFirst == s.hist.markedFirst
  {
    s1 := DoSendMail(s, t, send);
    assert NotifierApply(s, SendMail(t, send)) == s1;
  }

  lemma UndeliveredRun(s: State, t: Tid, send: Fault, env: nat -> Attempt, ids: nat -> MsgId, k: nat)
    requires t in s.threads && s.threads[t].WorkerSend? && s.commands.unsettled <= s.commands.tags.Keys && !send.Works?
    requires Attempts(env, REPLY_PUBLISH_ATTEMPTS, k) && FreshIds(s, ids, 0, k)
    ensures Valid(s, DispatchRun(t, send, env, ids, k))
    ensures DispatchedFrom(s, t, send, env, ids, k, Exec(s, DispatchRun(t, send, env, ids, k)))
  {
    var pc := s.threads[t];
    var tail := StepsOf(t, env, ids, 0, k) + [Notify(SettleCommand(t))];
    var s1 := SendFails(s, t, send);
    RepliesThenSettle(s1, t, pc.tag, pc.msg, pc.saga, false, env, ids, k);
    OneStep(s, Notify(SendMail(t, send)), tail);
    UndeliveredSteps(t, send, env, ids, k);
    assert s1.threads - {t} == s.threads - {t};
  }

  /** One command delivery handled without interference is a run of the protocol:
      the mail, the mark, the replies and the ack, in the order of `Handling`. */
  lemma DispatchIsARun(s: State, t: Tid, send: Fault, env: nat -> Attempt, ids: nat -> MsgId, k: nat)
    requires t in s.threads && s.threads[t].WorkerSend? && s.commands.unsettled <= s.commands.tags.Keys
    requires Attempts(env, REPLY_PUBLISH_ATTEMPTS, k) && FreshIds(s, ids, 0, k)
    ensures Valid(s, DispatchRun(t, send, env, ids, k))
    ensures DispatchedFrom(s, t, send, env, ids, k, Exec(s, DispatchRun(t, send, env, ids, k)))
  {
    if send.Works? {
      DeliveredRun(s, t, env, ids, k);
    } else {
      UndeliveredRun(s, t, send, env, ids, k);
    }
  }
}
