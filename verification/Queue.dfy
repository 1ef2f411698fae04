/** One durable queue of the broker. A delivery has a tag of its own; the message
    stays unsettled until it is acked, dead-lettered, requeued, or handed back
    because the channel it was delivered on was lost. */
module Queues {
  newtype MsgId = n: int | 0 <= n
  newtype Tag = n: int | 0 <= n

  datatype Verdict = Ack | Requeue | DeadLetter

  /** `bodies` holds every message ever routed here and `tags` every delivery
      ever made; both only grow. */
  datatype Queue<M> = Queue(bodies: map<MsgId, M>, ready: set<MsgId>, unsettled: set<Tag>, tags: map<Tag, MsgId>,
                            acked: set<MsgId>, dead: set<MsgId>)

  function Empty<M>(): Queue<M> {
    Queue(map[], {}, {}, map[], {}, {})
  }

  function Publish<M>(q: Queue<M>, m: MsgId, body: M): Queue<M>
    requires m !in q.bodies
  {
    q.(bodies := q.bodies[m := body], ready := q.ready + {m})
  }

  function Deliver<M>(q: Queue<M>, m: MsgId, tag: Tag): Queue<M>
    requires m in q.ready && tag !in q.tags
  {
    q.(ready := q.ready - {m}, unsettled := q.unsettled + {tag}, tags := q.tags[tag := m])
  }

  /** Settling a delivery that is no longer open has no effect. */
  function Settle<M>(q: Queue<M>, tag: Tag, v: Verdict): Queue<M>
    requires q.unsettled <= q.tags.Keys
  {
    if tag !in q.unsettled then q
    else
      var closed := q.(unsettled := q.unsettled - {tag});
      match v
      case Ack => closed.(acked := q.acked + {q.tags[tag]})
      case Requeue => closed.(ready := q.ready + {q.tags[tag]})
      case DeadLetter => closed.(dead := q.dead + {q.tags[tag]})
  }

  /** The broker takes back a delivery whose channel was lost. */
  function TakeBack<M>(q: Queue<M>, tag: Tag): Queue<M>
    requires q.unsettled <= q.tags.Keys
  {
    Settle(q, tag, Requeue)
  }

  datatype Place = Ready | Unsettled(tag: Tag) | Acked | Dead

  predicate At<M>(q: Queue<M>, m: MsgId, p: Place) {
    match p
    case Ready => m in q.ready
    case Unsettled(tag) => tag in q.unsettled && tag in q.tags && q.tags[tag] == m
    case Acked => m in q.acked
    case Dead => m in q.dead
  }

  /** Message conservation: every routed message is in exactly one place, and
      nothing else is anywhere. */
  ghost predicate Conserved<M>(q: Queue<M>) {
    && q.unsettled <= q.tags.Keys
    && (forall m :: m in q.bodies ==> exists p :: At(q, m, p))
    && (forall m, p :: At(q, m, p) ==> m in q.bodies)
    && (forall m, p, p' :: At(q, m, p) && At(q, m, p') ==> p == p')
  }

  /** Nothing a queue has recorded about a message or a delivery changes. */
  ghost predicate Extends<M>(q: Queue<M>, q': Queue<M>) {
    && (forall m :: m in q.bodies ==> m in q'.bodies && q'.bodies[m] == q.bodies[m])
    && (forall t :: t in q.tags ==> t in q'.tags && q'.tags[t] == q.tags[t])
    && q.acked <= q'.acked
    && q.dead <= q'.dead
  }

  lemma PublishConserves<M>(q: Queue<M>, m: MsgId, body: M)
    requires Conserved(q) && m !in q.bodies
    ensures Conserved(Publish(q, m, body)) && Extends(q, Publish(q, m, body))
    ensures Publish(q, m, body).ready == q.ready + {m}
  {
    var q' := Publish(q, m, body);
    forall m', p ensures At(q', m', p) <==> At(q, m', p) || (m' == m && p == Ready) {
    }
    forall m' | m' in q'.bodies ensures exists p :: At(q', m', p) {
      if m' == m {
        assert At(q', m, Ready);
      } else {
        var p :| At(q, m', p);
        assert At(q', m', p);
      }
    }
  }

  lemma DeliverConserves<M>(q: Queue<M>, m: MsgId, tag: Tag)
    requires Conserved(q) && m in q.ready && tag !in q.tags
    ensures Conserved(Deliver(q, m, tag)) && Extends(q, Deliver(q, m, tag))
  {
    var q' := Deliver(q, m, tag);
    assert At(q, m, Ready);
    forall m', p ensures At(q', m', p) <==> (if m' == m then p == Unsettled(tag) else At(q, m', p)) {
      assert m' == m && At(q, m', p) ==> p == Ready;
    }
    forall m' | m' in q'.bodies ensures exists p :: At(q', m', p) {
      if m' == m {
        assert At(q', m, Unsettled(tag));
      } else {
        var p :| At(q, m', p);
        assert At(q', m', p);
      }
    }
  }

  function PlaceAfter(v: Verdict): Place {
    match v
    case Ack => Acked
    case Requeue => Ready
    case DeadLetter => Dead
  }

  /** An open delivery is settled into the place its verdict names; every other
      message stays where it was. */
  lemma SettleConserves<M>(q: Queue<M>, tag: Tag, v: Verdict)
    requires Conserved(q)
    ensures Conserved(Settle(q, tag, v)) && Extends(q, Settle(q, tag, v))
    ensures forall m, p :: At(Settle(q, tag, v), m, p) <==>
              if tag in q.unsettled && m == q.tags[tag] then p == PlaceAfter(v) else At(q, m, p)
  {
    var q' := Settle(q, tag, v);
    if tag in q.unsettled {
      var m0 := q.tags[tag];
      assert At(q, m0, Unsettled(tag));
      forall m, p ensures At(q', m, p) <==> (if m == m0 then p == PlaceAfter(v) else At(q, m, p)) {
        assert m == m0 && At(q, m, p) ==> p == Unsettled(tag);
      }
      forall m | m in q'.bodies ensures exists p :: At(q', m, p) {
        if m == m0 {
          assert At(q', m, PlaceAfter(v));
        } else {
          var p :| At(q, m, p);
          assert At(q', m, p);
        }
      }
    }
  }

  // ------------------------------------------------------- any queue, any run

  datatype QueueStep<M> = PutIn(m: MsgId, body: M) | HandOut(m: MsgId, tag: Tag) | Close(tag: Tag, verdict: Verdict)

  predicate CanStep<M>(q: Queue<M>, a: QueueStep<M>) {
    match a
    case PutIn(m, _) => m !in q.bodies
    case HandOut(m, tag) => m in q.ready && tag !in q.tags
    case Close(_, _) => q.unsettled <= q.tags.Keys
  }

  function Stepped<M>(q: Queue<M>, a: QueueStep<M>): Queue<M>
    requires CanStep(q, a)
  {
    match a
    case PutIn(m, body) => Publish(q, m, body)
    case HandOut(m, tag) => Deliver(q, m, tag)
    case Close(tag, v) => Settle(q, tag, v)
  }

  predicate IsQueueRun<M(==)>(states: seq<Queue<M>>, steps: seq<QueueStep<M>>) {
    && |states| == |steps| + 1 && states[0] == Empty()
    && forall i :: 0 <= i < |steps| ==> CanStep(states[i], steps[i]) && states[i + 1] == Stepped(states[i], steps[i])
  }

  /** Message conservation for any queue, whatever it carries: after any deliveries,
      settlements and requeues every routed message is in exactly one place. */
  lemma {:induction false} QueueRunConserves<M>(states: seq<Queue<M>>, steps: seq<QueueStep<M>>, n: nat)
    requires IsQueueRun(states, steps) && n <= |steps|
    ensures Conserved(states[n])
  {
    if n > 0 {
      QueueRunConserves(states, steps, n - 1);
      assert CanStep(states[n - 1], steps[n - 1]) && states[n] == Stepped(states[n - 1], steps[n - 1]);
      match steps[n - 1] {
        case PutIn(m, body) => PublishConserves(states[n - 1], m, body);
        case HandOut(m, tag) => DeliverConserves(states[n - 1], m, tag);
        case Close(tag, v) => SettleConserves(states[n - 1], tag, v);
      }
    }
  }
}
