/** The read-through cache in front of the release checker, and why it changes no
    announcement. Times are milliseconds. */
module ReleaseCache {
  import opened Domain
  import opened Scanner
  import opened Announcements

  const TTL := 300000
  const PREFIX := "github:release:"

  /** What Redis stores: an encoded release, or the sentinel. Decoding undoes
      encoding, and no encoded release is the sentinel. */
  datatype Value = Json(tag: TagName) | NotFoundMark

  datatype Entry = Entry(value: Value, at: int)

  /** What the surroundings decide about one call: the time, whether Redis has lost
      the key since the last call, whether Get fails, what the inner fetcher would
      answer, and when and how Set ends. */
  datatype Call = Call(now: int, lost: bool, down: bool, inner: Answer, setAt: int, write: Fault)

  function Decode(v: Value): Answer {
    match v
    case Json(tag) => Found(tag)
    case NotFoundMark => NoRelease
  }

  function Encode(a: Answer): Option<Value> {
    match a
    case Found(tag) => Some(Json(tag))
    case NoRelease => Some(NotFoundMark)
    case _ => None
  }

  /** The key as a call finds it: Redis drops an expired key. */
  function Kept(e: Option<Entry>, c: Call): Option<Entry> {
    if c.lost || (e.Some? && c.now - e.value.at >= TTL) then None else e
  }

  predicate Hit(e: Option<Entry>, c: Call) {
    !c.down && Kept(e, c).Some?
  }

  function Given(e: Option<Entry>, c: Call): Answer {
    if Hit(e, c) then Decode(Kept(e, c).value.value) else c.inner
  }

  function Next(e: Option<Entry>, c: Call): Option<Entry> {
    if !Hit(e, c) && Encode(c.inner).Some? && !c.write.Fails? then Some(Entry(Encode(c.inner).value, c.setAt))
    else Kept(e, c)
  }

  function Lookup(data: map<string, Entry>, key: string): Option<Entry> {
    if key in data then Some(data[key]) else None
  }

  function CacheKey(owner: string, repo: string): string {
    PREFIX + owner + "/" + repo
  }

  class Redis {
    var data: map<string, Entry>

    constructor ()
      ensures data == map[]
    {
      data := map[];
    }

    method Get(key: string, c: Call) returns (v: Option<Value>)
      modifies this
      ensures data - {key} == old(data) - {key} && Lookup(data, key) == Kept(Lookup(old(data), key), c)
      ensures v == if c.down || Lookup(data, key).None? then None else Some(data[key].value)
    {
      if key in data && (c.lost || c.now - data[key].at >= TTL) {
        data := data - {key};
      }
      if c.down || key !in data { return None; }
      return Some(data[key].value);
    }

    method Set(key: string, v: Value, c: Call)
      modifies this
      ensures data == if c.write.Fails? then old(data) else old(data)[key := Entry(v, c.setAt)]
    {
      if !c.write.Fails? {
        data := data[key := Entry(v, c.setAt)];
      }
    }
  }

  class CachedReleaseFetcher {
    const redis: Redis

    constructor (redis: Redis)
      ensures this.redis == redis
    {
      this.redis := redis;
    }

    method GetLatestRelease(owner: string, repo: string, c: Call) returns (a: Answer, ghost called: bool)
      modifies redis
      ensures var key := CacheKey(owner, repo); var e := Lookup(old(redis.data), key);
              && a == Given(e, c) && called == !Hit(e, c)
              && Lookup(redis.data, key) == Next(e, c) && redis.data - {key} == old(redis.data) - {key}
    {
      var key := CacheKey(owner, repo);
      var cached := redis.Get(key, c);
      if cached.Some? {
        match cached.value {
          case NotFoundMark => return NoRelease, false;
          case Json(tag) => return Found(tag), false;
        }
      }
      match c.inner {
        case Found(tag) => redis.Set(key, Json(tag), c);
        case NoRelease => redis.Set(key, NotFoundMark, c);
        case _ =>
      }
      return c.inner, true;
    }
  }

  // ------------------------------------------------------------------- the key

  /** The scanner's split at the first slash. */
  function SplitName(fullName: string): (r: (string, string))
    requires Splits(fullName)
    ensures r.0 + "/" + r.1 == fullName && !Splits(r.0)
  {
    if fullName[0] == '/' then ("", fullName[1..])
    else
      var rest := SplitName(fullName[1..]);
      assert fullName == [fullName[0]] + (rest.0 + "/" + rest.1);
      ([fullName[0]] + rest.0, rest.1)
  }

  /** Repositories have their own keys. */
  lemma KeysAreDistinct(a: string, b: string)
    requires Splits(a) && Splits(b)
    ensures CacheKey(SplitName(a).0, SplitName(a).1) == CacheKey(SplitName(b).0, SplitName(b).1) <==> a == b
  {
    KeyOfName(a);
    KeyOfName(b);
    assert (PREFIX + a)[|PREFIX|..] == a && (PREFIX + b)[|PREFIX|..] == b;
  }

  lemma KeyOfName(a: string)
    requires Splits(a)
    ensures CacheKey(SplitName(a).0, SplitName(a).1) == PREFIX + a
  {
    var (o, r) := SplitName(a);
    assert PREFIX + o + "/" + r == PREFIX + (o + "/" + r);
  }

  /** What a miss on an absent key stores: the answer it got, if that was a release or
      that there is none and Set worked, until the time to live is over. Only such an
      answer, never an error, is given to a later call in place of asking. */
  lemma WhatIsCached(e: Option<Entry>, c: Call, later: Call)
    requires Kept(e, c).None?
    ensures var e' := Next(e, c);
            && Given(e, c) == c.inner
            && (Hit(e', later) <==>
                  (c.inner.Found? || c.inner.NoRelease?) && !c.write.Fails?
                  && !later.lost && !later.down && later.now - c.setAt < TTL)
            && (Hit(e', later) ==> Given(e', later) == c.inner && Next(e', later) == e')
            && (!Hit(e', later) ==> Given(e', later) == later.inner)
  {
  }

  // ------------------------------------------------------------ runs of one key

  /** The key after some calls, starting without it. */
  function KeyAfter(calls: seq<Call>): Option<Entry> {
    if calls == [] then None else Next(KeyAfter(calls[..|calls| - 1]), calls[|calls| - 1])
  }

  predicate HitAt(calls: seq<Call>, k: nat)
    requires k < |calls|
  {
    Hit(KeyAfter(calls[..k]), calls[k])
  }

  function GivenAt(calls: seq<Call>, k: nat): Answer
    requires k < |calls|
  {
    Given(KeyAfter(calls[..k]), calls[k])
  }

  /** Answers the scanner saw. */
  function Answers(calls: seq<Call>): seq<Answer> {
    if calls == [] then [] else Answers(calls[..|calls| - 1]) + [GivenAt(calls, |calls| - 1)]
  }

  /** Answers the inner fetcher gave, one for each miss. */
  function InnerAnswers(calls: seq<Call>): seq<Answer> {
    if calls == [] then []
    else
      var n := |calls| - 1;
      InnerAnswers(calls[..n]) + (if HitAt(calls, n) then [] else [calls[n].inner])
  }

  lemma {:induction false} EntrySource(calls: seq<Call>) returns (j: nat)
    requires KeyAfter(calls).Some?
    ensures j < |calls| && !HitAt(calls, j) && !calls[j].write.Fails?
    ensures Decode(KeyAfter(calls).value.value) == calls[j].inner && KeyAfter(calls).value.at == calls[j].setAt
    decreases |calls|
  {
    var n := |calls| - 1;
    if !HitAt(calls, n) && Encode(calls[n].inner).Some? && !calls[n].write.Fails? {
      j := n;
    } else {
      j := EntrySource(calls[..n]);
      assert calls[..n][..j] == calls[..j];
    }
  }

  /** Every cached answer is one the inner fetcher gave to an earlier call and that
      was stored less than the time to live ago. */
  lemma CachedAnswersAreFresh(calls: seq<Call>, k: nat) returns (j: nat)
    requires k < |calls| && HitAt(calls, k)
    ensures j < k && !HitAt(calls, j) && GivenAt(calls, k) == calls[j].inner && calls[k].now - calls[j].setAt < TTL
  {
    j := EntrySource(calls[..k]);
    assert calls[..k][..j] == calls[..j];
  }

  /** `seen` is `given` in order, each item once or several times in a row. */
  predicate Stutters(given: seq<Answer>, seen: seq<Answer>)
    decreases |seen|
  {
    if seen == [] then given == []
    else
      var m, n := |given| - 1, |seen| - 1;
      given != [] && given[m] == seen[n] && (Stutters(given, seen[..n]) || Stutters(given[..m], seen[..n]))
  }

  predicate EndsWith(s: seq<Answer>, a: Answer) {
    s != [] && s[|s| - 1] == a
  }

  lemma StutterNew(given: seq<Answer>, seen: seq<Answer>, a: Answer)
    requires Stutters(given, seen)
    ensures Stutters(given + [a], seen + [a])
  {
    assert (given + [a])[..|given|] == given;
    assert (seen + [a])[..|seen|] == seen;
  }

  lemma StutterAgain(given: seq<Answer>, seen: seq<Answer>, a: Answer)
    requires Stutters(given, seen) && EndsWith(given, a)
    ensures Stutters(given, seen + [a])
  {
    assert (seen + [a])[..|seen|] == seen;
  }

  /** Redis misses only on absent or expired keys. Set may fail at will. */
  ghost predicate Punctual(calls: seq<Call>) {
    forall k :: 0 <= k < |calls| ==> HitAt(calls, k) || Kept(KeyAfter(calls[..k]), calls[k]).None?
  }

  lemma PunctualPrefix(calls: seq<Call>, n: nat)
    requires Punctual(calls) && n <= |calls|
    ensures Punctual(calls[..n])
  {
    forall k | 0 <= k < n ensures HitAt(calls[..n], k) || Kept(KeyAfter(calls[..n][..k]), calls[..n][k]).None? {
      assert calls[..n][..k] == calls[..k];
    }
  }

  lemma CallsMore(calls: seq<Call>, c: Call)
    ensures KeyAfter(calls + [c]) == Next(KeyAfter(calls), c)
    ensures Answers(calls + [c]) == Answers(calls) + [Given(KeyAfter(calls), c)]
    ensures InnerAnswers(calls + [c]) ==
            if Hit(KeyAfter(calls), c) then InnerAnswers(calls) else InnerAnswers(calls) + [c.inner]
  {
    assert (calls + [c])[..|calls|] == calls;
    assert InnerAnswers(calls) + [] == InnerAnswers(calls);
  }

  /** The observed answers are the inner answers in order, with repeats. */
  lemma {:induction false} CacheStutters(calls: seq<Call>)
    requires Punctual(calls)
    ensures Stutters(InnerAnswers(calls), Answers(calls))
    ensures KeyAfter(calls).Some? ==> EndsWith(InnerAnswers(calls), Decode(KeyAfter(calls).value.value))
    decreases |calls|
  {
    if calls != [] {
      var n := |calls| - 1;
      assert calls == calls[..n] + [calls[n]];
      PunctualPrefix(calls, n);
      CacheStutters(calls[..n]);
      assert HitAt(calls, n) || Kept(KeyAfter(calls[..n]), calls[n]).None?;
      if HitAt(calls, n) {
        StutterAgain(InnerAnswers(calls[..n]), Answers(calls[..n]), GivenAt(calls, n));
      } else {
        StutterNew(InnerAnswers(calls[..n]), Answers(calls[..n]), GivenAt(calls, n));
      }
      CallsMore(calls[..n], calls[n]);
    }
  }

  // ------------------------------------------------------ no other announcement

  function Tags(answers: seq<Answer>): seq<TagName> {
    if answers == [] then []
    else
      var n := |answers| - 1;
      Tags(answers[..n]) + (if answers[n].Found? then [answers[n].tag] else [])
  }

  lemma OneMoreKept(s: seq<TagName>, tag: TagName)
    ensures LastOf(s + [tag]) == Some(tag)
            && Dedup(s + [tag]) == Dedup(s) + (if LastOf(s) == Some(tag) then [] else [tag])
  {
    assert (s + [tag])[..|s|] == s;
  }

  lemma TagsMore(start: seq<TagName>, answers: seq<Answer>)
    requires answers != []
    ensures var n := |answers| - 1;
            start + Tags(answers) ==
            if answers[n].Found? then start + Tags(answers[..n]) + [answers[n].tag] else start + Tags(answers[..n])
  {
  }

  /** A key that holds no release, or the one just found. */
  predicate KeepsUp(e: Option<Entry>, tag: TagName) {
    e.None? || e.value.value.NotFoundMark? || e.value.value.tag == tag
  }

  /** A call that found a release by asking leaves no other release in the cache. */
  predicate UpToDate(e: Option<Entry>, c: Call) {
    !Hit(e, c) && c.inner.Found? ==> KeepsUp(Next(e, c), c.inner.tag)
  }

  /** Get may fail on a live entry, as long as what is found meanwhile is stored, or
      is the release stored already. */
  ghost predicate Orderly(calls: seq<Call>) {
    forall k :: 0 <= k < |calls| ==> UpToDate(KeyAfter(calls[..k]), calls[k])
  }

  lemma PunctualIsOrderly(calls: seq<Call>)
    requires Punctual(calls)
    ensures Orderly(calls)
  {
    forall k | 0 <= k < |calls| ensures UpToDate(KeyAfter(calls[..k]), calls[k]) {
      assert HitAt(calls, k) || Kept(KeyAfter(calls[..k]), calls[k]).None?;
    }
  }

  lemma OrderlyMore(calls: seq<Call>, c: Call)
    ensures Orderly(calls + [c]) <==> Orderly(calls) && UpToDate(KeyAfter(calls), c)
  {
    var more := calls + [c];
    assert more[..|calls|] == calls;
    forall k | 0 <= k < |calls| ensures more[..k] == calls[..k] && more[k] == calls[k] {
    }
  }

  lemma TagsOneMore(start: seq<TagName>, answers: seq<Answer>, a: Answer)
    ensures start + Tags(answers + [a]) == if a.Found? then start + Tags(answers) + [a.tag] else start + Tags(answers)
  {
    TagsMore(start, answers + [a]);
    assert (answers + [a])[..|answers|] == answers;
  }

  /** The tags seen and the tags given agree once repeats are removed, and a stored
      release is the last one given. */
  predicate Matched(seen: seq<TagName>, given: seq<TagName>, e: Option<Entry>) {
    && Dedup(seen) == Dedup(given) && LastOf(seen) == LastOf(given)
    && (e.Some? && e.value.value.Json? ==> LastOf(given) == Some(e.value.value.tag))
  }

  predicate InStep(start: seq<TagName>, calls: seq<Call>) {
    Matched(start + Tags(Answers(calls)), start + Tags(InnerAnswers(calls)), KeyAfter(calls))
  }

  lemma BothMore(seen: seq<TagName>, given: seq<TagName>, tag: TagName)
    requires Dedup(seen) == Dedup(given) && LastOf(seen) == LastOf(given)
    ensures Dedup(seen + [tag]) == Dedup(given + [tag]) && LastOf(seen + [tag]) == LastOf(given + [tag]) == Some(tag)
  {
    OneMoreKept(seen, tag);
    OneMoreKept(given, tag);
  }

  lemma HitKeepsStep(start: seq<TagName>, calls: seq<Call>, c: Call)
    requires InStep(start, calls) && Hit(KeyAfter(calls), c)
    ensures InStep(start, calls + [c])
  {
    var a := Given(KeyAfter(calls), c);
    CallsMore(calls, c);
    TagsOneMore(start, Answers(calls), a);
    if a.Found? { OneMoreKept(start + Tags(Answers(calls)), a.tag); }
  }

  /** A miss adds what it found, if it found a release. */
  function Adding(s: seq<TagName>, a: Answer): seq<TagName> {
    if a.Found? then s + [a.tag] else s
  }

  lemma MissKeepsMatch(seen: seq<TagName>, given: seq<TagName>, e: Option<Entry>, c: Call)
    requires Matched(seen, given, e) && !Hit(e, c) && UpToDate(e, c)
    ensures Matched(Adding(seen, c.inner), Adding(given, c.inner), Next(e, c))
  {
    if c.inner.Found? { BothMore(seen, given, c.inner.tag); }
  }

  lemma MissSeen(start: seq<TagName>, calls: seq<Call>, c: Call)
    requires !Hit(KeyAfter(calls), c)
    ensures start + Tags(Answers(calls + [c])) == Adding(start + Tags(Answers(calls)), c.inner)
  {
    CallsMore(calls, c);
    TagsOneMore(start, Answers(calls), c.inner);
  }

  lemma MissGiven(start: seq<TagName>, calls: seq<Call>, c: Call)
    requires !Hit(KeyAfter(calls), c)
    ensures start + Tags(InnerAnswers(calls + [c])) == Adding(start + Tags(InnerAnswers(calls)), c.inner)
    ensures KeyAfter(calls + [c]) == Next(KeyAfter(calls), c)
  {
    CallsMore(calls, c);
    TagsOneMore(start, InnerAnswers(calls), c.inner);
  }

  lemma MissKeepsStep(start: seq<TagName>, calls: seq<Call>, c: Call)
    requires InStep(start, calls) && !Hit(KeyAfter(calls), c) && UpToDate(KeyAfter(calls), c)
    ensures InStep(start, calls + [c])
  {
    MissSeen(start, calls, c);
    MissGiven(start, calls, c);
    MissKeepsMatch(start + Tags(Answers(calls)), start + Tags(InnerAnswers(calls)), KeyAfter(calls), c);
  }

  lemma CallKeepsStep(start: seq<TagName>, calls: seq<Call>, c: Call)
    requires InStep(start, calls) && UpToDate(KeyAfter(calls), c)
    ensures InStep(start, calls + [c])
  {
    if Hit(KeyAfter(calls), c) { HitKeepsStep(start, calls, c); } else { MissKeepsStep(start, calls, c); }
  }

  lemma {:induction false} OrderlyInStep(start: seq<TagName>, calls: seq<Call>)
    requires Orderly(calls)
    ensures InStep(start, calls)
    decreases |calls|
  {
    if calls != [] {
      var n := |calls| - 1;
      assert calls == calls[..n] + [calls[n]];
      OrderlyMore(calls[..n], calls[n]);
      OrderlyInStep(start, calls[..n]);
      CallKeepsStep(start, calls[..n], calls[n]);
    }
  }

  lemma {:induction false} DedupLast(s: seq<TagName>)
    ensures LastOf(Dedup(s)) == LastOf(s)
    decreases |s|
  {
    if |s| > 1 { DedupLast(s[..|s| - 1]); }
  }

  predicate SameTags(calls: seq<Call>) {
    Dedup(Tags(Answers(calls))) == Dedup(Tags(InnerAnswers(calls)))
  }

  /** No answer out of the cache to a next call, at `now` or later, brings back an
      older release. */
  ghost predicate NextHitHarmless(calls: seq<Call>, now: int) {
    forall h: Call :: h.now >= now && Hit(KeyAfter(calls), h) ==> SameTags(calls + [h])
  }

  lemma EndsInTag(answers: seq<Answer>, tag: TagName)
    ensures LastOf(Tags(answers + [Found(tag)])) == Some(tag)
  {
    assert (answers + [Found(tag)])[..|answers|] == answers;
  }

  lemma LastsDiffer(s: seq<TagName>, s': seq<TagName>)
    requires LastOf(s) != LastOf(s')
    ensures Dedup(s) != Dedup(s')
  {
    DedupLast(s);
    DedupLast(s');
  }

  /** A call that leaves another release behind, and a hit at once. */
  lemma StaleIsSeen(calls: seq<Call>, c: Call) returns (h: Call)
    requires !UpToDate(KeyAfter(calls), c)
    ensures h.now >= c.now && Hit(KeyAfter(calls + [c]), h) && !SameTags(calls + [c] + [h])
  {
    CallsMore(calls, c);
    var e := KeyAfter(calls + [c]).value;
    h := Call(c.now, false, false, NoRelease, c.now, Works);
    CallsMore(calls + [c], h);
    EndsInTag(Answers(calls + [c]), e.value.tag);
    EndsInTag(InnerAnswers(calls), c.inner.tag);
    LastsDiffer(Tags(Answers(calls + [c] + [h])), Tags(InnerAnswers(calls + [c] + [h])));
  }

  /** The exact condition, at the call where it can fail: after an orderly history
      the next hit is harmless exactly when this call leaves no other release in the
      cache than the one it found. */
  lemma HarmlessIffUpToDate(calls: seq<Call>, c: Call)
    requires Orderly(calls)
    ensures NextHitHarmless(calls + [c], c.now) <==> UpToDate(KeyAfter(calls), c)
  {
    if UpToDate(KeyAfter(calls), c) {
      OrderlyMore(calls, c);
      forall h: Call | h.now >= c.now && Hit(KeyAfter(calls + [c]), h) ensures SameTags(calls + [c] + [h]) {
        OrderlyMore(calls + [c], h);
        OrderlyInStep([], calls + [c] + [h]);
        var seen, given := Tags(Answers(calls + [c] + [h])), Tags(InnerAnswers(calls + [c] + [h]));
        assert [] + seen == seen && [] + given == given;
      }
    } else {
      var h := StaleIsSeen(calls, c);
    }
  }

  function AnswerSeen(r: RepoId): Effect -> seq<Answer> {
    (e: Effect) => if e.Fetched? && e.repo == r then [e.answer] else []
  }

  lemma {:induction false} ObservedAreTags(log: seq<Effect>, r: RepoId)
    ensures Observed(log, r) == Tags(Flat(log, AnswerSeen(r)))
  {
    if log != [] {
      var n := |log| - 1;
      ObservedAreTags(log[..n], r);
      var before, now := Flat(log[..n], AnswerSeen(r)), AnswerSeen(r)(log[n]);
      if now != [] {
        assert (before + now)[..|before|] == before;
      } else {
        assert before + now == before;
      }
    }
  }

  /** Caching changes no announcement: if the answers the scanner got for `r` came
      through the cache and the calls were orderly, the tags announced are those
      computed from the inner fetcher's answers alone. */
  lemma CachingChangesNoAnnouncement(repos: Repos, rounds: seq<Round>, r: RepoId, calls: seq<Call>)
    requires r in repos && SmoothFor(rounds, r) && Orderly(calls)
    requires Flat(RunLog(repos, rounds), AnswerSeen(r)) == Answers(calls)
    ensures AnnouncedTags(RunLog(repos, rounds), r) ==
            DropFirst(Dedup(Start(repos[r].last) + Tags(InnerAnswers(calls))))
  {
    TagsAnnounced(repos, rounds, r);
    ObservedAreTags(RunLog(repos, rounds), r);
    OrderlyInStep(Start(repos[r].last), calls);
  }

  /** In particular if Redis misses only on absent or expired keys, whatever Set does. */
  lemma PunctualCachingChangesNothing(repos: Repos, rounds: seq<Round>, r: RepoId, calls: seq<Call>)
    requires r in repos && SmoothFor(rounds, r) && Punctual(calls)
    requires Flat(RunLog(repos, rounds), AnswerSeen(r)) == Answers(calls)
    ensures AnnouncedTags(RunLog(repos, rounds), r) ==
            DropFirst(Dedup(Start(repos[r].last) + Tags(InnerAnswers(calls))))
  {
    PunctualIsOrderly(calls);
    CachingChangesNoAnnouncement(repos, rounds, r, calls);
  }

  // --------------------------------------------- a scanner behind the cache

  lemma ProcessingFetchesNothing(row: RepoRow, r: RepoId, tag: TagName, turn: Turn)
    ensures Flat(Processing(row, r, tag, turn), AnswerSeen(r)) == []
  {
    FlatNothing(Processing(row, r, tag, turn), AnswerSeen(r));
  }

  lemma TurnShowsAnswer(row: RepoRow, r: RepoId, turn: Turn)
    requires Splits(row.fullName)
    ensures Flat(TurnEffects(row, r, turn), AnswerSeen(r)) == [turn.answer]
  {
    var a := [Fetched(r, turn.answer)];
    var b := if turn.answer.Found? then Processing(row, r, turn.answer.tag, turn) else [];
    FlatJoin(a, b, AnswerSeen(r));
    FlatOne(a, AnswerSeen(r));
    if turn.answer.Found? { ProcessingFetchesNothing(row, r, turn.answer.tag, turn); }
  }

  lemma OneMoreRoundSeen(repos: Repos, r: RepoId, rounds: seq<Round>, turn: Turn)
    requires r in repos && Splits(repos[r].fullName) && SameNames(repos, After(repos, RunLog(repos, rounds)))
    ensures var more := RunLog(repos, rounds + [Round(r, turn, None)]);
            && Flat(more, AnswerSeen(r)) == Flat(RunLog(repos, rounds), AnswerSeen(r)) + [turn.answer]
            && SameNames(repos, After(repos, more))
  {
    var before := RunLog(repos, rounds);
    var now := After(repos, before);
    OneMoreRound(repos, rounds, r, turn);
    FlatJoin(before, TurnEffects(now[r], r, turn), AnswerSeen(r));
    TurnShowsAnswer(now[r], r, turn);
    TurnIsLocal(now, r, turn);
  }

  lemma SmoothMore(rounds: seq<Round>, d: Round, r: RepoId)
    requires SmoothFor(rounds, r) && Smooth(d, r)
    ensures SmoothFor(rounds + [d], r)
  {
  }

  /** The answers seen in these rounds, none of which failed. */
  ghost predicate See(repos: Repos, r: RepoId, rounds: seq<Round>, answers: seq<Answer>) {
    && SmoothFor(rounds, r) && SameNames(repos, After(repos, RunLog(repos, rounds)))
    && Flat(RunLog(repos, rounds), AnswerSeen(r)) == answers
  }

  lemma NothingSeen(repos: Repos, r: RepoId)
    ensures See(repos, r, [], [])
  {
  }

  lemma OneMoreSeen(repos: Repos, r: RepoId, before: seq<Round>, given: seq<Answer>, last: Answer)
    returns (rounds: seq<Round>)
    requires r in repos && Splits(repos[r].fullName) && See(repos, r, before, given)
    ensures See(repos, r, rounds, given + [last])
  {
    var turn := Turn(false, last, Some([]), Works);
    OneMoreRoundSeen(repos, r, before, turn);
    SmoothMore(before, Round(r, turn, None), r);
    rounds := before + [Round(r, turn, None)];
  }

  lemma WithLast<T>(s: seq<T>)
    requires s != []
    ensures s[..|s| - 1] + [s[|s| - 1]] == s
  {
  }

  /** Any answers are what some scans see, one round for each. */
  lemma {:induction false} ScansSee(repos: Repos, r: RepoId, answers: seq<Answer>) returns (rounds: seq<Round>)
    requires r in repos && Splits(repos[r].fullName)
    ensures See(repos, r, rounds, answers)
    decreases |answers|
  {
    if answers == [] {
      NothingSeen(repos, r);
      return [];
    }
    var before := ScansSee(repos, r, answers[..|answers| - 1]);
    WithLast(answers);
    rounds := OneMoreSeen(repos, r, before, answers[..|answers| - 1], answers[|answers| - 1]);
  }

  // The condition matters: if Get and Set fail while a live entry is stored, the
  // scanner sees the newer release, then the older one again.

  const OLD := Found(TagName(1))
  const NEW := Found(TagName(2))
  const OUTAGE: seq<Call> :=
    [Call(0, false, false, OLD, 0, Works), Call(1, false, true, NEW, 1, Fails), Call(2, false, false, NEW, 2, Works)]

  lemma OutageAnswers()
    ensures Answers(OUTAGE) == [OLD, NEW, OLD] && InnerAnswers(OUTAGE) == [OLD, NEW]
  {
    var o := OUTAGE;
    assert o[..2][..1] == o[..1] && o[..1][..0] == [];
    assert KeyAfter(o[..1]) == Some(Entry(Json(TagName(1)), 0)) && KeyAfter(o[..2]) == KeyAfter(o[..1]);
    assert Answers(o[..1]) == [OLD] && InnerAnswers(o[..1]) == [OLD];
    assert Answers(o[..2]) == [OLD, NEW] && InnerAnswers(o[..2]) == [OLD, NEW];
  }

  lemma OutageTags()
    ensures Tags([OLD, NEW]) == [TagName(1), TagName(2)]
            && Tags([OLD, NEW, OLD]) == [TagName(1), TagName(2), TagName(1)]
  {
    assert [OLD, NEW, OLD][..2] == [OLD, NEW] && [OLD, NEW][..1] == [OLD] && [OLD][..0] == [];
    assert Tags([OLD]) == [TagName(1)];
  }

  lemma DedupOfDistinct(a: TagName, b: TagName)
    requires a != b
    ensures Dedup([a, b]) == [a, b] && Dedup([a, b, a]) == [a, b, a]
  {
    OneMoreKept([], a);
    OneMoreKept([a], b);
    OneMoreKept([a, b], a);
    assert [] + [a] == [a] && [a] + [b] == [a, b] && [a, b] + [a] == [a, b, a];
  }

  /** Scans that see these answers, with a database that works, announce the newer
      release and then the older one again; the inner answers alone would have had
      the newer one announced and nothing more. */
  lemma OutageBringsBackTheOld(repos: Repos, r: RepoId) returns (rounds: seq<Round>)
    requires r in repos && Splits(repos[r].fullName) && repos[r].last.None?
    ensures SmoothFor(rounds, r) && Flat(RunLog(repos, rounds), AnswerSeen(r)) == Answers(OUTAGE)
    ensures AnnouncedTags(RunLog(repos, rounds), r) == [TagName(2), TagName(1)]
    ensures DropFirst(Dedup(Tags(InnerAnswers(OUTAGE)))) == [TagName(2)]
  {
    rounds := ScansSee(repos, r, Answers(OUTAGE));
    NewTagsAnnounced(repos, rounds, r);
    ObservedAreTags(RunLog(repos, rounds), r);
    OutageAnswers();
    OutageTags();
    DedupOfDistinct(TagName(1), TagName(2));
  }
}
