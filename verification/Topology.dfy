/** Exchanges, queues and bindings set up at startup, and which queue a routing key
    reaches: topic matching of section 3.1.3.3 of the AMQP 0-9-1 specification. */
module Topology {
  import opened Domain

  const EXCHANGE := "notifications"
  const DEAD_LETTER_EXCHANGE := "notifications.dlx"
  const QUEUE_DELIVERIES := "notifier.deliveries"
  const QUEUE_COMMANDS := "notifier.commands"
  const QUEUE_EVENTS := "app.saga.events"
  const QUEUE_DEAD_LETTERS := "notifier.dead_letters"
  const BIND_DELIVERIES := "notification.*"
  const BIND_COMMANDS := "notification.command.*"
  const BIND_EVENTS := "notification.event.*"
  const KEY_RELEASE := "notification.release"
  const KEY_COMMAND := "notification.command.send_confirmation"
  const KEY_SENT := "notification.event.confirmation_sent"
  const KEY_FAILED := "notification.event.confirmation_failed"

  // ------------------------------------------------------------------- words

  predicate IsWord(w: string) {
    forall i :: 0 <= i < |w| ==> w[i] != '.'
  }

  /** The pieces between the dots; at least one. */
  function Pieces(s: string): (r: seq<string>)
    ensures |r| > 0 && forall i :: 0 <= i < |r| ==> IsWord(r[i])
  {
    if s == "" then [""]
    else if s[0] == '.' then [""] + Pieces(s[1..])
    else
      var r := Pieces(s[1..]);
      [[s[0]] + r[0]] + r[1..]
  }

  /** A routing key is zero or more words; the empty key has none. */
  function Words(s: string): seq<string> {
    if s == "" then [] else Pieces(s)
  }

  function Join(ws: seq<string>): string {
    if ws == [] then "" else if |ws| == 1 then ws[0] else ws[0] + "." + Join(ws[1..])
  }

  lemma {:induction false} JoinPieces(s: string)
    ensures Join(Pieces(s)) == s
  {
    if s != "" {
      var r := Pieces(s[1..]);
      JoinPieces(s[1..]);
      if s[0] == '.' {
        assert ([""] + r)[1..] == r;
        assert "" + "." + s[1..] == s;
      } else {
        var c := [s[0]];
        var r' := [c + r[0]] + r[1..];
        assert r'[1..] == r[1..];
        if |r| == 1 {
          assert c + s[1..] == s;
        } else {
          assert c + r[0] + "." + Join(r[1..]) == c + (r[0] + "." + Join(r[1..])) == s;
        }
      }
    }
  }

  lemma {:induction false} OneWord(w: string)
    requires IsWord(w)
    ensures Pieces(w) == [w]
  {
    if w != "" {
      OneWord(w[1..]);
      assert [w[0]] + w[1..] == w;
    }
  }

  lemma {:induction false} FirstWord(w: string, rest: string)
    requires IsWord(w)
    ensures Pieces(w + "." + rest) == [w] + Pieces(rest)
  {
    var s := w + "." + rest;
    if w == "" {
      assert s[1..] == rest;
    } else {
      assert s[0] == w[0] && s[1..] == w[1..] + "." + rest;
      FirstWord(w[1..], rest);
      assert [w[0]] + w[1..] == w;
    }
  }

  lemma {:induction false} PiecesJoin(ws: seq<string>)
    requires ws != [] && forall i :: 0 <= i < |ws| ==> IsWord(ws[i])
    ensures Pieces(Join(ws)) == ws
  {
    if |ws| == 1 {
      OneWord(ws[0]);
    } else {
      PiecesJoin(ws[1..]);
      FirstWord(ws[0], Join(ws[1..]));
      assert ws == [ws[0]] + ws[1..];
    }
  }

  /** Keys and word sequences correspond: joining undoes splitting for every key,
      splitting undoes joining for every sequence of words but the one empty word. */
  lemma WordsRoundTrip(s: string, ws: seq<string>)
    requires forall i :: 0 <= i < |ws| ==> IsWord(ws[i])
    ensures Join(Words(s)) == s
    ensures Words(Join(ws)) == ws <==> ws != [""]
  {
    JoinPieces(s);
    if ws != [] {
      PiecesJoin(ws);
      if Join(ws) == "" { assert Pieces("") == [""]; }
    }
  }

  // ---------------------------------------------------------------- matching

  predicate MatchWords(p: seq<string>, k: seq<string>)
    decreases |p| + |k|
  {
    if p == [] then k == []
    else if p[0] == "#" then MatchWords(p[1..], k) || (k != [] && MatchWords(p, k[1..]))
    else k != [] && (p[0] == "*" || p[0] == k[0]) && MatchWords(p[1..], k[1..])
  }

  predicate Matches(binding: string, key: string) {
    MatchWords(Words(binding), Words(key))
  }

  /** Without `#` the words match one to one. */
  lemma {:induction false} MatchesOneToOne(p: seq<string>, k: seq<string>)
    requires "#" !in p
    ensures MatchWords(p, k) <==> |p| == |k| && forall i :: 0 <= i < |p| ==> p[i] == "*" || p[i] == k[i]
    decreases |p|
  {
    if p != [] && k != [] {
      assert p[0] in p;
      MatchesOneToOne(p[1..], k[1..]);
      assert p == [p[0]] + p[1..] && k == [k[0]] + k[1..];
    }
  }

  lemma TwoWords(a: string, b: string)
    requires IsWord(a) && IsWord(b)
    ensures Words(a + ("." + b)) == [a, b]
  {
    FirstWord(a, b);
    OneWord(b);
    assert a + ("." + b) == a + "." + b;
  }

  lemma ThreeWords(a: string, b: string, c: string)
    requires IsWord(a) && IsWord(b) && IsWord(c)
    ensures Words(a + ("." + (b + ("." + c)))) == [a, b, c]
  {
    TwoWords(b, c);
    FirstWord(a, b + ("." + c));
    assert a + ("." + (b + ("." + c))) == a + "." + (b + ("." + c));
  }

  lemma DeliveriesWords()
    ensures Words(BIND_DELIVERIES) == ["notification", "*"]
  {
    TwoWords("notification", "*");
    assert BIND_DELIVERIES == "notification" + ("." + "*");
  }

  lemma ReleaseWords()
    ensures Words(KEY_RELEASE) == ["notification", "release"]
  {
    TwoWords("notification", "release");
    assert KEY_RELEASE == "notification" + ("." + "release");
  }

  lemma CommandsWords()
    ensures Words(BIND_COMMANDS) == ["notification", "command", "*"]
  {
    ThreeWords("notification", "command", "*");
    assert BIND_COMMANDS == "notification" + ("." + ("command" + ("." + "*")));
  }

  lemma CommandWords()
    ensures Words(KEY_COMMAND) == ["notification", "command", "send_confirmation"]
  {
    ThreeWords("notification", "command", "send_confirmation");
    assert KEY_COMMAND == "notification" + ("." + ("command" + ("." + "send_confirmation")));
  }

  lemma EventsWords()
    ensures Words(BIND_EVENTS) == ["notification", "event", "*"]
  {
    ThreeWords("notification", "event", "*");
    assert BIND_EVENTS == "notification" + ("." + ("event" + ("." + "*")));
  }

  lemma SentWords()
    ensures Words(KEY_SENT) == ["notification", "event", "confirmation_sent"]
  {
    ThreeWords("notification", "event", "confirmation_sent");
    assert KEY_SENT == "notification" + ("." + ("event" + ("." + "confirmation_sent")));
  }

  lemma FailedWords()
    ensures Words(KEY_FAILED) == ["notification", "event", "confirmation_failed"]
  {
    ThreeWords("notification", "event", "confirmation_failed");
    assert KEY_FAILED == "notification" + ("." + ("event" + ("." + "confirmation_failed")));
  }

  lemma MatchesTwo(a: string, k: seq<string>)
    requires a != "#" && a != "*"
    ensures MatchWords([a, "*"], k) <==> |k| == 2 && k[0] == a
  {
    var p := [a, "*"];
    assert "*"[0] != "#"[0];
    MatchesOneToOne(p, k);
    assert p[1] == "*";
  }

  lemma MatchesThree(a: string, b: string, k: seq<string>)
    requires a != "#" && a != "*" && b != "#" && b != "*"
    ensures MatchWords([a, b, "*"], k) <==> |k| == 3 && k[0] == a && k[1] == b
  {
    var p := [a, b, "*"];
    assert "*"[0] != "#"[0];
    MatchesOneToOne(p, k);
    assert p[1] == b && p[2] == "*";
  }

  /** What each binding matches, for every key. */
  lemma WhatBindingsMatch(key: string)
    ensures var k := Words(key);
            && (Matches(BIND_DELIVERIES, key) <==> |k| == 2 && k[0] == "notification")
            && (Matches(BIND_COMMANDS, key) <==> |k| == 3 && k[0] == "notification" && k[1] == "command")
            && (Matches(BIND_EVENTS, key) <==> |k| == 3 && k[0] == "notification" && k[1] == "event")
  {
    DeliveriesWords();
    CommandsWords();
    EventsWords();
    MatchesTwo("notification", Words(key));
    MatchesThree("notification", "command", Words(key));
    MatchesThree("notification", "event", Words(key));
  }

  // ------------------------------------------------------------- declaration

  datatype Kind = Topic | Fanout

  datatype Binding = Binding(exchange: string, key: string, queue: string)

  /** The broker as the channel sees it. A queue keeps the exchange its rejected
      messages go to. */
  class Broker {
    var exchanges: map<string, Kind>
    var queues: map<string, Option<string>>
    var bindings: set<Binding>

    constructor ()
      ensures exchanges == map[] && queues == map[] && bindings == {}
    {
      exchanges, queues, bindings := map[], map[], {};
    }

    /** Declaring again is fine, unless the properties differ. */
    method ExchangeDeclare(name: string, kind: Kind, up: bool) returns (ok: bool)
      modifies this`exchanges
      ensures ok <==> up && (name in old(exchanges) ==> old(exchanges)[name] == kind)
      ensures exchanges == if ok then old(exchanges)[name := kind] else old(exchanges)
    {
      ok := up && (name in exchanges ==> exchanges[name] == kind);
      if ok { exchanges := exchanges[name := kind]; }
    }

    method QueueDeclare(name: string, deadLetter: Option<string>, up: bool) returns (ok: bool)
      modifies this`queues
      ensures ok <==> up && (name in old(queues) ==> old(queues)[name] == deadLetter)
      ensures queues == if ok then old(queues)[name := deadLetter] else old(queues)
    {
      ok := up && (name in queues ==> queues[name] == deadLetter);
      if ok { queues := queues[name := deadLetter]; }
    }

    method QueueBind(queue: string, key: string, exchange: string, up: bool) returns (ok: bool)
      modifies this`bindings
      ensures ok <==> up
      ensures bindings == if ok then old(bindings) + {Binding(exchange, key, queue)} else old(bindings)
    {
      ok := up;
      if ok { bindings := bindings + {Binding(exchange, key, queue)}; }
    }
  }

  /** Everything Declare sets up; the business queues and their bindings are in the
      order they are declared. */
  datatype Layout = Layout(exchange: string, deadLetterExchange: string, deadLetters: string,
                           business: seq<(string, string)>)

  const SHIPPED := Layout(EXCHANGE, DEAD_LETTER_EXCHANGE, QUEUE_DEAD_LETTERS,
                          [(QUEUE_DELIVERIES, BIND_DELIVERIES), (QUEUE_COMMANDS, BIND_COMMANDS),
                           (QUEUE_EVENTS, BIND_EVENTS)])

  function AllExchanges(l: Layout): map<string, Kind> {
    map[l.exchange := Topic, l.deadLetterExchange := Fanout]
  }

  function Names(business: seq<(string, string)>): set<string> {
    set b | b in business :: b.0
  }

  /** The business queues, which dead-letter, and the queue of dead letters. */
  function AllQueues(l: Layout, business: seq<(string, string)>): map<string, Option<string>> {
    map k | k in Names(business) + {l.deadLetters} :: if k == l.deadLetters then None else Some(l.deadLetterExchange)
  }

  function AllBindings(l: Layout, business: seq<(string, string)>): set<Binding> {
    {Binding(l.deadLetterExchange, "", l.deadLetters)} + set b | b in business :: Binding(l.exchange, b.1, b.0)
  }

  /** No two things of one kind are declared under one name with two meanings. */
  predicate Distinct(l: Layout) {
    l.exchange != l.deadLetterExchange && l.deadLetters !in Names(l.business)
  }

  lemma ShippedDistinct()
    ensures Distinct(SHIPPED)
  {
    assert |EXCHANGE| != |DEAD_LETTER_EXCHANGE|;
    assert |QUEUE_DEAD_LETTERS| > |QUEUE_DELIVERIES| && |QUEUE_DEAD_LETTERS| > |QUEUE_COMMANDS|
           && |QUEUE_DEAD_LETTERS| > |QUEUE_EVENTS|;
  }

  /** Nothing there contradicts what is about to be declared. */
  predicate Agree<V(==)>(have: map<string, V>, want: map<string, V>) {
    forall k :: k in have && k in want ==> have[k] == want[k]
  }

  predicate Compatible(l: Layout, exchanges: map<string, Kind>, queues: map<string, Option<string>>) {
    Agree(exchanges, AllExchanges(l)) && Agree(queues, AllQueues(l, l.business))
  }

  /** The whole layout is there, whatever else is. */
  predicate Declared(l: Layout, exchanges: map<string, Kind>, queues: map<string, Option<string>>,
                     bindings: set<Binding>)
  {
    && (forall k :: k in AllExchanges(l) ==> k in exchanges && exchanges[k] == AllExchanges(l)[k])
    && (forall k :: k in AllQueues(l, l.business) ==> k in queues && queues[k] == AllQueues(l, l.business)[k])
    && AllBindings(l, l.business) <= bindings
  }

  /** Adding a layout to a broker puts it there, and adding it where it is changes
      nothing. */
  lemma DeclaredOnce(l: Layout, exchanges: map<string, Kind>, queues: map<string, Option<string>>,
                     bindings: set<Binding>)
    ensures var e, q := exchanges + AllExchanges(l), queues + AllQueues(l, l.business);
            var b := bindings + AllBindings(l, l.business);
            && Declared(l, e, q, b)
            && (Declared(l, exchanges, queues, bindings) ==>
                  e == exchanges && q == queues && b == bindings
                  && Compatible(l, exchanges, queues))
  {
  }

  lemma OneMore(l: Layout, i: nat)
    requires i < |l.business|
    ensures Names(l.business[..i + 1]) == Names(l.business[..i]) + {l.business[i].0}
            && l.business[i].0 in Names(l.business)
    ensures AllBindings(l, l.business[..i + 1]) ==
            AllBindings(l, l.business[..i]) + {Binding(l.exchange, l.business[i].1, l.business[i].0)}
    ensures AllBindings(l, l.business[..i + 1]) <= AllBindings(l, l.business)
  {
    assert l.business[i] in l.business;
    assert l.business[..i + 1] == l.business[..i] + [l.business[i]];
    forall b | b in l.business[..i + 1] ensures b in l.business {
    }
  }

  lemma OneMoreQueue(l: Layout, i: nat)
    requires Distinct(l) && i < |l.business|
    ensures AllQueues(l, l.business[..i + 1]) ==
            AllQueues(l, l.business[..i])[l.business[i].0 := Some(l.deadLetterExchange)]
    ensures var all := AllQueues(l, l.business);
            l.business[i].0 in all && all[l.business[i].0] == Some(l.deadLetterExchange)
    ensures l.business[i].0 in AllQueues(l, l.business[..i]) ==>
              AllQueues(l, l.business[..i])[l.business[i].0] == Some(l.deadLetterExchange)
  {
    OneMore(l, i);
  }

  lemma QueueStep(l: Layout, have: map<string, Option<string>>, i: nat)
    requires Distinct(l) && i < |l.business|
    ensures var now := have + AllQueues(l, l.business[..i]);
            && now[l.business[i].0 := Some(l.deadLetterExchange)] == have + AllQueues(l, l.business[..i + 1])
            && (Agree(have, AllQueues(l, l.business)) && l.business[i].0 in now ==>
                now[l.business[i].0] == Some(l.deadLetterExchange))
  {
    OneMoreQueue(l, i);
  }

  /** `up(i)`: the broker accepts the i-th call. Success means the whole layout is
      there beside what was; a failure leaves a part of it. Declaring succeeds on
      any broker that holds nothing contrary, and declaring again, as the publisher
      and the consumer of each process do, succeeds and changes nothing. */
  method Declare(ch: Broker, l: Layout, up: nat -> bool) returns (ok: bool)
    requires Distinct(l)
    modifies ch
    ensures ok ==> Declared(l, ch.exchanges, ch.queues, ch.bindings)
    ensures ok ==> ch.exchanges == old(ch.exchanges) + AllExchanges(l)
    ensures ok ==> ch.queues == old(ch.queues) + AllQueues(l, l.business)
    ensures ok ==> ch.bindings == old(ch.bindings) + AllBindings(l, l.business)
    ensures old(ch.bindings) <= ch.bindings <= old(ch.bindings) + AllBindings(l, l.business)
    ensures (forall i: nat :: up(i)) && old(Compatible(l, ch.exchanges, ch.queues)) ==> ok
    ensures (forall i: nat :: up(i)) && old(Declared(l, ch.exchanges, ch.queues, ch.bindings)) ==>
              ok && ch.exchanges == old(ch.exchanges) && ch.queues == old(ch.queues) && ch.bindings == old(ch.bindings)
  {
    DeclaredOnce(l, ch.exchanges, ch.queues, ch.bindings);
    ok := ch.ExchangeDeclare(l.exchange, Topic, up(0));
    if !ok { return; }
    ok := ch.ExchangeDeclare(l.deadLetterExchange, Fanout, up(1));
    if !ok { return; }
    ok := DeclareQueues(ch, l, up);
  }

  /** One queue with its binding: the body of the loop. */
  method DeclareQueue(ch: Broker, l: Layout, i: nat, up: nat -> bool) returns (ok: bool)
    requires i < |l.business|
    modifies ch`queues, ch`bindings
    ensures var name, q := l.business[i].0, Some(l.deadLetterExchange);
            && (ok ==> ch.queues == old(ch.queues)[name := q])
            && (ok <==> up(4 + 2 * i) && up(5 + 2 * i) && (name in old(ch.queues) ==> old(ch.queues)[name] == q))
    ensures ch.bindings == old(ch.bindings)
            + (if ok then {Binding(l.exchange, l.business[i].1, l.business[i].0)} else {})
  {
    ok := ch.QueueDeclare(l.business[i].0, Some(l.deadLetterExchange), up(4 + 2 * i));
    if !ok { return; }
    ok := ch.QueueBind(l.business[i].0, l.business[i].1, l.exchange, up(5 + 2 * i));
  }

  method DeclareDeadLetters(ch: Broker, l: Layout, up: nat -> bool) returns (ok: bool)
    modifies ch`queues, ch`bindings
    ensures ok ==> ch.queues == old(ch.queues) + AllQueues(l, [])
    ensures ok <==> up(2) && up(3) && (l.deadLetters in old(ch.queues) ==> old(ch.queues)[l.deadLetters] == None)
    ensures ch.bindings == if ok then old(ch.bindings) + AllBindings(l, []) else old(ch.bindings)
  {
    ok := ch.QueueDeclare(l.deadLetters, None, up(2));
    if !ok { return; }
    ok := ch.QueueBind(l.deadLetters, "", l.deadLetterExchange, up(3));
  }

  method DeclareQueues(ch: Broker, l: Layout, up: nat -> bool) returns (ok: bool)
    requires Distinct(l)
    modifies ch`queues, ch`bindings
    ensures ok ==> ch.queues == old(ch.queues) + AllQueues(l, l.business)
    ensures ok ==> ch.bindings == old(ch.bindings) + AllBindings(l, l.business)
    ensures old(ch.bindings) <= ch.bindings <= old(ch.bindings) + AllBindings(l, l.business)
    ensures (forall i: nat :: up(i)) && Agree(old(ch.queues), AllQueues(l, l.business)) ==> ok
  {
    ok := DeclareDeadLetters(ch, l, up);
    if !ok { return; }
    var i := 0;
    assert l.business[..0] == [];
    while i < |l.business|
      invariant 0 <= i <= |l.business| && ok
      invariant ch.queues == old(ch.queues) + AllQueues(l, l.business[..i])
                && ch.bindings == old(ch.bindings) + AllBindings(l, l.business[..i])
    {
      OneMore(l, i);
      QueueStep(l, old(ch.queues), i);
      ok := DeclareQueue(ch, l, i, up);
      if !ok { return; }
      i := i + 1;
    }
    assert l.business[..i] == l.business;
  }

  // ----------------------------------------------------------------- routing

  /** The queues a message published to an exchange is put in. */
  function Route(bindings: set<Binding>, exchange: string, kind: Kind, key: string): set<string> {
    set b | b in bindings && b.exchange == exchange && (kind.Fanout? || Matches(b.key, key)) :: b.queue
  }

  lemma RoutedByBinding(l: Layout, key: string, q: string) returns (b: (string, string))
    requires Distinct(l) && q in Route(AllBindings(l, l.business), l.exchange, Topic, key)
    ensures b in l.business && b.0 == q && Matches(b.1, key)
  {
    var c :| c in AllBindings(l, l.business) && c.exchange == l.exchange && Matches(c.key, key) && c.queue == q;
    b :| b in l.business && Binding(l.exchange, b.1, b.0) == c;
  }

  /** No cross-delivery: with the declared bindings every routing key reaches at
      most one queue. */
  lemma NoCrossDelivery(key: string, q: string, q': string)
    requires q in Route(AllBindings(SHIPPED, SHIPPED.business), EXCHANGE, Topic, key)
    requires q' in Route(AllBindings(SHIPPED, SHIPPED.business), EXCHANGE, Topic, key)
    ensures q == q'
  {
    ShippedDistinct();
    var b := RoutedByBinding(SHIPPED, key, q);
    var b' := RoutedByBinding(SHIPPED, key, q');
    WhatBindingsMatch(key);
    assert "command"[0] != "event"[0];
  }

  /** A key that matches a binding reaches that binding's queue and no other. */
  lemma ReachesItsQueue(key: string, b: (string, string))
    requires b in SHIPPED.business && Matches(b.1, key)
    ensures Route(AllBindings(SHIPPED, SHIPPED.business), EXCHANGE, Topic, key) == {b.0}
  {
    var bs := AllBindings(SHIPPED, SHIPPED.business);
    assert Binding(SHIPPED.exchange, b.1, b.0) in bs;
    assert b.0 in Route(bs, EXCHANGE, Topic, key);
    forall q | q in Route(bs, EXCHANGE, Topic, key) ensures q == b.0 {
      NoCrossDelivery(key, q, b.0);
    }
  }

  lemma ReleaseMatches()
    ensures Matches(BIND_DELIVERIES, KEY_RELEASE)
  {
    ReleaseWords();
    WhatBindingsMatch(KEY_RELEASE);
  }

  lemma CommandMatches()
    ensures Matches(BIND_COMMANDS, KEY_COMMAND)
  {
    CommandWords();
    WhatBindingsMatch(KEY_COMMAND);
  }

  lemma SentMatches()
    ensures Matches(BIND_EVENTS, KEY_SENT)
  {
    SentWords();
    WhatBindingsMatch(KEY_SENT);
  }

  lemma FailedMatches()
    ensures Matches(BIND_EVENTS, KEY_FAILED)
  {
    FailedWords();
    WhatBindingsMatch(KEY_FAILED);
  }

  /** Each of the four published keys reaches exactly its own queue. */
  lemma ReleaseReachesDeliveries()
    ensures Route(AllBindings(SHIPPED, SHIPPED.business), EXCHANGE, Topic, KEY_RELEASE) == {QUEUE_DELIVERIES}
  {
    ReleaseMatches();
    assert SHIPPED.business[0] in SHIPPED.business;
    ReachesItsQueue(KEY_RELEASE, SHIPPED.business[0]);
  }

  lemma CommandReachesCommands()
    ensures Route(AllBindings(SHIPPED, SHIPPED.business), EXCHANGE, Topic, KEY_COMMAND) == {QUEUE_COMMANDS}
  {
    CommandMatches();
    assert SHIPPED.business[1] in SHIPPED.business;
    ReachesItsQueue(KEY_COMMAND, SHIPPED.business[1]);
  }

  lemma SentReachesEvents()
    ensures Route(AllBindings(SHIPPED, SHIPPED.business), EXCHANGE, Topic, KEY_SENT) == {QUEUE_EVENTS}
  {
    SentMatches();
    assert SHIPPED.business[2] in SHIPPED.business;
    ReachesItsQueue(KEY_SENT, SHIPPED.business[2]);
  }

  lemma FailedReachesEvents()
    ensures Route(AllBindings(SHIPPED, SHIPPED.business), EXCHANGE, Topic, KEY_FAILED) == {QUEUE_EVENTS}
  {
    FailedMatches();
    assert SHIPPED.business[2] in SHIPPED.business;
    ReachesItsQueue(KEY_FAILED, SHIPPED.business[2]);
  }

  /** A rejected message, whatever its key, goes to the dead letters alone. */
  lemma RejectedReachesDeadLetters(l: Layout, key: string)
    requires Distinct(l)
    ensures Route(AllBindings(l, l.business), l.deadLetterExchange, Fanout, key) == {l.deadLetters}
  {
    assert Binding(l.deadLetterExchange, "", l.deadLetters) in AllBindings(l, l.business);
  }

  /** Where the broker puts a message that `queue` rejects: it is published, under the
      key it had, to the exchange the queue was declared with. */
  function DeadLettered(exchanges: map<string, Kind>, queues: map<string, Option<string>>, bindings: set<Binding>,
                        queue: string, key: string): set<string> {
    if queue !in queues || queues[queue].None? || queues[queue].value !in exchanges then {}
    else Route(bindings, queues[queue].value, exchanges[queues[queue].value], key)
  }

  /** Once declared, no message rejected from a business queue is lost, whatever its
      key and whatever else the broker holds: it reaches the dead letters, and
      nothing else if nothing else is bound. What the dead letters reject is gone. */
  lemma RejectedIsKept(l: Layout, exchanges: map<string, Kind>, queues: map<string, Option<string>>,
                       bindings: set<Binding>, queue: string, key: string)
    requires Distinct(l) && Declared(l, exchanges, queues, bindings)
    ensures queue in Names(l.business) ==> l.deadLetters in DeadLettered(exchanges, queues, bindings, queue, key)
    ensures queue in Names(l.business) && bindings == AllBindings(l, l.business) ==>
              DeadLettered(exchanges, queues, bindings, queue, key) == {l.deadLetters}
    ensures DeadLettered(exchanges, queues, bindings, l.deadLetters, key) == {}
  {
    assert l.deadLetters in AllQueues(l, l.business);
    if queue in Names(l.business) {
      assert queue in AllQueues(l, l.business) && l.deadLetterExchange in AllExchanges(l);
      assert Binding(l.deadLetterExchange, "", l.deadLetters) in bindings;
      RejectedReachesDeadLetters(l, key);
    }
  }
}
