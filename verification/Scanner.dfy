/** The release scanner: what it announces over any number of scans, and what a
    crash at any point of any scan can lose. */
module Scanner {
  import opened Domain

  datatype TagName = TagName(n: nat)

  datatype Subscriber = Subscriber(email: Address, unsubToken: Token)

  datatype RepoRow = RepoRow(fullName: string, last: Option<TagName>)

  type Repos = map<RepoId, RepoRow>

  /** What the release checker answers. */
  datatype Answer = Found(tag: TagName) | NoRelease | RateLimited | FetchFailed

  /** What the surroundings decide about one repository's turn: whether the context
      is done before it, the release checker's answer, the confirmed subscribers
      (none if the query fails), and how the update of the tag ends. */
  datatype Turn = Turn(cancelled: bool, answer: Answer, confirmed: Option<seq<Subscriber>>, update: Fault)

  /** The scanner's calls in the order they are made. How an announcement ends
      changes nothing the scanner does. */
  datatype Effect =
    | Fetched(repo: RepoId, answer: Answer)
    | Listed(repo: RepoId, tag: TagName, all: seq<Subscriber>)
    | Announced(repo: RepoId, tag: TagName, to: Subscriber)
    | Stored(repo: RepoId, tag: TagName, f: Fault)

  predicate Splits(fullName: string) {
    '/' in fullName
  }

  /** The update reached the table. */
  predicate Lands(e: Effect) {
    e.Stored? && !e.f.Fails?
  }

  function Set(repos: Repos, e: Effect): Repos {
    if Lands(e) && e.repo in repos then repos[e.repo := repos[e.repo].(last := Some(e.tag))] else repos
  }

  /** The table after some calls. */
  function After(repos: Repos, log: seq<Effect>): Repos {
    if log == [] then repos else Set(After(repos, log[..|log| - 1]), log[|log| - 1])
  }

  function AnnouncedTo(r: RepoId, tag: TagName, to: seq<Subscriber>): (e: seq<Effect>)
    ensures |e| == |to| && forall i :: 0 <= i < |to| ==> e[i] == Announced(r, tag, to[i])
  {
    if to == [] then [] else AnnouncedTo(r, tag, to[..|to| - 1]) + [Announced(r, tag, to[|to| - 1])]
  }

  /** What is done about a release that was found. */
  function Processing(row: RepoRow, r: RepoId, tag: TagName, turn: Turn): seq<Effect> {
    if row.last.None? then [Stored(r, tag, turn.update)]
    else if row.last.value == tag || turn.confirmed.None? then []
    else [Listed(r, tag, turn.confirmed.value)] + AnnouncedTo(r, tag, turn.confirmed.value)
         + [Stored(r, tag, turn.update)]
  }

  function TurnEffects(row: RepoRow, r: RepoId, turn: Turn): seq<Effect> {
    if !Splits(row.fullName) then []
    else [Fetched(r, turn.answer)] + (if turn.answer.Found? then Processing(row, r, turn.answer.tag, turn) else [])
  }

  class Scanner {
    var repos: Repos
    var log: seq<Effect>

    constructor (repos: Repos)
      ensures this.repos == repos && log == []
    {
      this.repos := repos;
      log := [];
    }

    method UpdateLastSeenTag(r: RepoId, tag: TagName, f: Fault)
      modifies this
      ensures log == old(log) + [Stored(r, tag, f)] && repos == Set(old(repos), Stored(r, tag, f))
    {
      log := log + [Stored(r, tag, f)];
      if r in repos && !f.Fails? {
        repos := repos[r := repos[r].(last := Some(tag))];
      }
    }

    /** One scan over the repositories the query listed, each once. Rows are used as
        they were when listed. */
    method Scan(listed: seq<RepoId>, turns: seq<Turn>)
      requires |turns| == |listed| && EachOnce(listed) && forall r :: r in listed ==> r in repos
      modifies this
      ensures log == old(log) + RunLog(old(repos), ScanRounds(listed, turns, old(repos), 0))
      ensures repos == After(old(repos), RunLog(old(repos), ScanRounds(listed, turns, old(repos), 0)))
    {
      var rows := repos;
      var i := 0;
      ghost var done: seq<Round> := [];
      while i < |listed|
        invariant 0 <= i <= |listed| && SameNames(rows, repos)
        invariant forall j :: i <= j < |listed| ==> repos[listed[j]] == rows[listed[j]]
        invariant ScanRounds(listed, turns, rows, 0) == done + ScanRounds(listed, turns, rows, i)
        invariant log == old(log) + RunLog(rows, done) && repos == After(rows, RunLog(rows, done))
      {
        var r, turn := listed[i], turns[i];
        if turn.cancelled {
          assert done + [] == done;
          return;
        }
        ghost var next := done + [Round(r, turn, None)];
        OneMoreRound(rows, done, r, turn);
        TurnIsLocal(repos, r, turn);
        Appended(old(log), RunLog(rows, done), TurnEffects(rows[r], r, turn));
        var stop := CheckRepo(rows[r], r, turn);
        Appended(done, [Round(r, turn, None)], RoundsAfter(listed, turns, rows, i));
        done := next;
        if stop {
          assert done + [] == done;
          return;
        }
        i := i + 1;
      }
      assert done + [] == done;
    }

    /** The body of the scan loop; `stop` ends the scan. */
    method CheckRepo(row: RepoRow, r: RepoId, turn: Turn) returns (stop: bool)
      modifies this
      ensures log == old(log) + TurnEffects(row, r, turn) && repos == After(old(repos), TurnEffects(row, r, turn))
      ensures stop <==> Splits(row.fullName) && turn.answer.RateLimited?
    {
      if !Splits(row.fullName) { return false; }
      log := log + [Fetched(r, turn.answer)];
      QuietKeeps(repos, [Fetched(r, turn.answer)]);
      if turn.answer.Found? {
        AfterJoin(repos, [Fetched(r, turn.answer)], Processing(row, r, turn.answer.tag, turn));
        ProcessRepo(row, r, turn.answer.tag, turn);
      }
      stop := turn.answer.RateLimited?;
    }

    method ProcessRepo(row: RepoRow, r: RepoId, tag: TagName, turn: Turn)
      modifies this
      ensures log == old(log) + Processing(row, r, tag, turn)
              && repos == After(old(repos), Processing(row, r, tag, turn))
    {
      if row.last.None? {
        UpdateLastSeenTag(r, tag, turn.update);
        return;
      }
      if row.last.value == tag { return; }
      if turn.confirmed.None? { return; }
      var to := turn.confirmed.value;
      log := log + [Listed(r, tag, to)];
      AnnounceAll(r, tag, to);
      ghost var quiet := [Listed(r, tag, to)] + AnnouncedTo(r, tag, to);
      Appended(old(log), [Listed(r, tag, to)], AnnouncedTo(r, tag, to));
      Appended(old(log), quiet, [Stored(r, tag, turn.update)]);
      QuietKeeps(repos, quiet);
      AfterMore(repos, quiet, Stored(r, tag, turn.update));
      UpdateLastSeenTag(r, tag, turn.update);
    }

    method AnnounceAll(r: RepoId, tag: TagName, to: seq<Subscriber>)
      modifies this`log
      ensures log == old(log) + AnnouncedTo(r, tag, to)
    {
      var i := 0;
      while i < |to|
        invariant 0 <= i <= |to| && log == old(log) + AnnouncedTo(r, tag, to[..i])
      {
        assert to[..i + 1][..i] == to[..i];
        log := log + [Announced(r, tag, to[i])];
        i := i + 1;
      }
      assert to[..i] == to;
    }
  }

  predicate EachOnce(listed: seq<RepoId>) {
    forall i, j :: 0 <= i < j < |listed| ==> listed[i] != listed[j]
  }

  // ------------------------------------------------------------------- rounds

  /** One repository's turn, cut off after some calls if the process crashes in it. */
  datatype Round = Round(repo: RepoId, turn: Turn, crash: Option<nat>)

  function Cut(e: seq<Effect>, crash: Option<nat>): seq<Effect> {
    if crash.Some? && crash.value < |e| then e[..crash.value] else e
  }

  function RoundLog(repos: Repos, d: Round): seq<Effect> {
    if d.repo in repos then Cut(TurnEffects(repos[d.repo], d.repo, d.turn), d.crash) else []
  }

  /** The calls of rounds made one after another, over as many scans and restarts as
      they come from; each reads the row the ones before left. */
  function RunLog(repos: Repos, rounds: seq<Round>): seq<Effect> {
    if rounds == [] then []
    else
      var before := RunLog(repos, rounds[..|rounds| - 1]);
      before + RoundLog(After(repos, before), rounds[|rounds| - 1])
  }

  /** The rounds of one scan: it ends early when the context is done or GitHub's
      rate limit is hit. */
  function ScanRounds(listed: seq<RepoId>, turns: seq<Turn>, rows: Repos, i: nat): seq<Round>
    requires |turns| == |listed| && i <= |listed| && forall r :: r in listed ==> r in rows
    decreases |listed| - i, 0
  {
    if i == |listed| || turns[i].cancelled then []
    else [Round(listed[i], turns[i], None)] + RoundsAfter(listed, turns, rows, i)
  }

  function RoundsAfter(listed: seq<RepoId>, turns: seq<Turn>, rows: Repos, i: nat): seq<Round>
    requires |turns| == |listed| && i < |listed| && forall r :: r in listed ==> r in rows
    decreases |listed| - i - 1, 1
  {
    if Splits(rows[listed[i]].fullName) && turns[i].answer.RateLimited? then []
    else ScanRounds(listed, turns, rows, i + 1)
  }

  lemma Appended<T>(a: seq<T>, b: seq<T>, c: seq<T>)
    ensures a + b + c == a + (b + c)
  {
  }

  lemma RunLogMore(repos: Repos, rounds: seq<Round>, d: Round)
    ensures RunLog(repos, rounds + [d]) == RunLog(repos, rounds) + RoundLog(After(repos, RunLog(repos, rounds)), d)
  {
    assert (rounds + [d])[..|rounds|] == rounds;
  }

  lemma {:induction false} AfterJoin(repos: Repos, log: seq<Effect>, more: seq<Effect>)
    ensures After(repos, log + more) == After(After(repos, log), more)
  {
    if more == [] {
      assert log + more == log;
    } else {
      var n := |more| - 1;
      AfterJoin(repos, log, more[..n]);
      assert (log + more)[..|log + more| - 1] == log + more[..n];
    }
  }

  /** Calls that store nothing leave the table alone. */
  lemma {:induction false} QuietKeeps(repos: Repos, log: seq<Effect>)
    requires forall i :: 0 <= i < |log| ==> !Lands(log[i])
    ensures After(repos, log) == repos
  {
    if log != [] { QuietKeeps(repos, log[..|log| - 1]); }
  }

  lemma AfterMore(repos: Repos, log: seq<Effect>, e: Effect)
    ensures After(repos, log + [e]) == Set(After(repos, log), e)
  {
    assert (log + [e])[..|log|] == log;
  }

  predicate SameNames(repos: Repos, repos': Repos) {
    repos'.Keys == repos.Keys && forall r :: r in repos ==> repos'[r].fullName == repos[r].fullName
  }

  /** Calls about `r` alone change no other row, and no name. */
  lemma {:induction false} AboutOne(repos: Repos, log: seq<Effect>, r: RepoId)
    requires forall i :: 0 <= i < |log| ==> log[i].repo == r
    ensures SameNames(repos, After(repos, log))
    ensures forall q :: q in repos && q != r ==> After(repos, log)[q] == repos[q]
  {
    if log != [] { AboutOne(repos, log[..|log| - 1], r); }
  }

  lemma TurnIsLocal(repos: Repos, r: RepoId, turn: Turn)
    requires r in repos
    ensures var repos' := After(repos, TurnEffects(repos[r], r, turn));
            SameNames(repos, repos') && forall q :: q in repos && q != r ==> repos'[q] == repos[q]
  {
    AboutOne(repos, TurnEffects(repos[r], r, turn), r);
  }

  lemma OneMoreRound(repos: Repos, done: seq<Round>, r: RepoId, turn: Turn)
    requires r in After(repos, RunLog(repos, done))
    ensures var now := After(repos, RunLog(repos, done));
            var e := TurnEffects(now[r], r, turn);
            RunLog(repos, done + [Round(r, turn, None)]) == RunLog(repos, done) + e
            && After(repos, RunLog(repos, done + [Round(r, turn, None)])) == After(now, e)
  {
    var now := After(repos, RunLog(repos, done));
    RunLogMore(repos, done, Round(r, turn, None));
    AfterJoin(repos, RunLog(repos, done), TurnEffects(now[r], r, turn));
  }

  lemma SplitLast<T>(a: seq<T>, b: seq<T>)
    requires b != []
    ensures a + b == a + b[..|b| - 1] + [b[|b| - 1]]
  {
  }

  lemma PrefixOfJoin<T>(a: seq<T>, b: seq<T>, n: nat)
    requires n <= |a| + |b|
    ensures (a + b)[..n] == if n <= |a| then a[..n] else a + b[..n - |a|]
  {
  }

  /** Scans one after another are one sequence of rounds. */
  lemma {:induction false} ScansJoin(repos: Repos, rounds: seq<Round>, more: seq<Round>)
    ensures RunLog(repos, rounds + more) == RunLog(repos, rounds) + RunLog(After(repos, RunLog(repos, rounds)), more)
  {
    if more == [] {
      assert rounds + more == rounds;
    } else {
      var n := |more| - 1;
      var now := After(repos, RunLog(repos, rounds));
      var b := RunLog(now, more[..n]);
      ScansJoin(repos, rounds, more[..n]);
      SplitLast(rounds, more);
      RunLogMore(repos, rounds + more[..n], more[n]);
      AfterJoin(repos, RunLog(repos, rounds), b);
      Appended(RunLog(repos, rounds), b, RoundLog(After(now, b), more[n]));
    }
  }

  lemma CutTwice(now: Repos, d: Round, calls: nat)
    requires calls <= |RoundLog(now, d)|
    ensures RoundLog(now, d.(crash := Some(calls))) == RoundLog(now, d)[..calls]
  {
  }

  lemma CutLast(repos: Repos, rounds: seq<Round>, d: Round, calls: nat)
    requires calls <= |RoundLog(After(repos, RunLog(repos, rounds)), d)|
    ensures var before := RunLog(repos, rounds);
            RunLog(repos, rounds + [d.(crash := Some(calls))]) == before + RoundLog(After(repos, before), d)[..calls]
  {
    CutTwice(After(repos, RunLog(repos, rounds)), d, calls);
    RunLogMore(repos, rounds, d.(crash := Some(calls)));
  }

  /** Stopping after any number of calls is a crash in one of the rounds. */
  lemma {:induction false} CrashIsACutRound(repos: Repos, rounds: seq<Round>, calls: nat) returns (cut: seq<Round>)
    requires calls <= |RunLog(repos, rounds)|
    ensures RunLog(repos, cut) == RunLog(repos, rounds)[..calls]
    decreases |rounds|
  {
    if rounds == [] {
      return [];
    }
    var n := |rounds| - 1;
    var init, d := rounds[..n], rounds[n];
    assert RunLog(repos, rounds) == RunLog(repos, init) + RoundLog(After(repos, RunLog(repos, init)), d);
    PrefixOfJoin(RunLog(repos, init), RoundLog(After(repos, RunLog(repos, init)), d), calls);
    if calls <= |RunLog(repos, init)| {
      cut := CrashIsACutRound(repos, init, calls);
    } else {
      CutLast(repos, init, d, calls - |RunLog(repos, init)|);
      cut := init + [d.(crash := Some(calls - |RunLog(repos, init)|))];
    }
  }
}
