/** What the stored tags mean if the process may crash, and any call fail, at any
    point of any scan, and what a scan that stops early leaves alone. */
module CrashSafety {
  import opened Domain
  import opened Scanner

  /** Just before call `i`, `tag` was announced to everybody the query for its
      confirmed subscribers had returned. */
  ghost predicate AnnouncedToAll(log: seq<Effect>, i: nat, r: RepoId, tag: TagName) {
    exists to: seq<Subscriber> :: JustAnnounced(log, i, r, tag, to)
  }

  predicate JustAnnounced(log: seq<Effect>, i: nat, r: RepoId, tag: TagName, to: seq<Subscriber>) {
    |to| < i <= |log| && log[i - |to| - 1] == Listed(r, tag, to) && log[i - |to|..i] == AnnouncedTo(r, tag, to)
  }

  /** Call `i` updates the stored tag of `r`. */
  predicate StoresAt(log: seq<Effect>, i: nat, r: RepoId, tag: TagName) {
    i < |log| && log[i].Stored? && log[i].repo == r && log[i].tag == tag
  }

  /** In one turn: the update is the last call, and made for the baseline or after
      the announcements. */
  lemma TurnStoresLast(row: RepoRow, r: RepoId, turn: Turn, i: nat)
    requires i < |TurnEffects(row, r, turn)| && TurnEffects(row, r, turn)[i].Stored?
    ensures var e := TurnEffects(row, r, turn);
            && i == |e| - 1 && turn.answer.Found? && e[i] == Stored(r, turn.answer.tag, turn.update)
            && (row.last.Some? ==>
                  turn.confirmed.Some? && JustAnnounced(e, i, r, turn.answer.tag, turn.confirmed.value))
  {
    var e := TurnEffects(row, r, turn);
    if row.last.Some? {
      var to := turn.confirmed.value;
      var tag := turn.answer.tag;
      assert e == [Fetched(r, turn.answer)]
             + ([Listed(r, tag, to)] + AnnouncedTo(r, tag, to) + [Stored(r, tag, turn.update)]);
      assert e[i - |to|..i] == AnnouncedTo(r, tag, to);
    }
  }

  lemma JustAnnouncedShift(before: seq<Effect>, e: seq<Effect>, i: nat, r: RepoId, tag: TagName, to: seq<Subscriber>)
    requires JustAnnounced(e, i, r, tag, to)
    ensures JustAnnounced(before + e, |before| + i, r, tag, to)
  {
    var log, k := before + e, |before| + i;
    assert log[k - |to|..k] == e[i - |to|..i];
  }

  lemma JustAnnouncedPrefix(log: seq<Effect>, n: nat, i: nat, r: RepoId, tag: TagName, to: seq<Subscriber>)
    requires n <= |log| && i <= n
    ensures JustAnnounced(log[..n], i, r, tag, to) <==> JustAnnounced(log, i, r, tag, to)
  {
    if |to| < i { assert log[..n][i - |to|..i] == log[i - |to|..i]; }
  }

  lemma TurnPrefixQuiet(row: RepoRow, r: RepoId, turn: Turn, now: Repos, k: nat)
    requires k < |TurnEffects(row, r, turn)|
    ensures After(now, TurnEffects(row, r, turn)[..k]) == now
  {
    var e := TurnEffects(row, r, turn);
    forall i | 0 <= i < k ensures !Lands(e[i]) {
      if e[i].Stored? { TurnStoresLast(row, r, turn, i); }
    }
    QuietKeeps(now, e[..k]);
  }

  /** No tag was stored before call `i`, or `tag` was just announced. */
  ghost predicate Justified(repos: Repos, log: seq<Effect>, i: nat, r: RepoId, tag: TagName)
    requires i <= |log|
  {
    var now := After(repos, log[..i]);
    r in now && (now[r].last.None? || AnnouncedToAll(log, i, r, tag))
  }

  /** One round, cut anywhere. */
  lemma RoundStores(now: Repos, d: Round, i: nat, r: RepoId, tag: TagName)
    requires StoresAt(RoundLog(now, d), i, r, tag)
    ensures Justified(now, RoundLog(now, d), i, r, tag)
  {
    var e := TurnEffects(now[d.repo], d.repo, d.turn);
    var log := RoundLog(now, d);
    assert log == e[..|log|] && log[i] == e[i];
    TurnStoresLast(now[d.repo], d.repo, d.turn, i);
    TurnPrefixQuiet(now[d.repo], d.repo, d.turn, now, i);
    assert log[..i] == e[..i];
    if now[r].last.Some? {
      JustAnnouncedPrefix(e, |log|, i, r, tag, d.turn.confirmed.value);
    }
  }

  lemma JustifiedExtends(repos: Repos, before: seq<Effect>, e: seq<Effect>, i: nat, r: RepoId, tag: TagName)
    requires i <= |before| && Justified(repos, before, i, r, tag)
    ensures Justified(repos, before + e, i, r, tag)
  {
    PrefixOfJoin(before, e, i);
    PrefixOfJoin(before, e, |before|);
    assert before[..|before|] == before;
    if AnnouncedToAll(before, i, r, tag) {
      var to :| JustAnnounced(before, i, r, tag, to);
      JustAnnouncedPrefix(before + e, |before|, i, r, tag, to);
    }
  }

  lemma JustifiedShifts(repos: Repos, before: seq<Effect>, e: seq<Effect>, k: nat, r: RepoId, tag: TagName)
    requires k <= |e| && Justified(After(repos, before), e, k, r, tag)
    ensures Justified(repos, before + e, |before| + k, r, tag)
  {
    PrefixOfJoin(before, e, |before| + k);
    AfterJoin(repos, before, e[..k]);
    if AnnouncedToAll(e, k, r, tag) {
      var to :| JustAnnounced(e, k, r, tag, to);
      JustAnnouncedShift(before, e, k, r, tag, to);
    }
  }

  lemma StoresSplit(before: seq<Effect>, e: seq<Effect>, i: nat, r: RepoId, tag: TagName)
    requires StoresAt(before + e, i, r, tag)
    ensures if i < |before| then StoresAt(before, i, r, tag) else StoresAt(e, i - |before|, r, tag)
  {
  }

  lemma RoundJustified(repos: Repos, before: seq<Effect>, d: Round, i: nat, r: RepoId, tag: TagName)
    requires StoresAt(before + RoundLog(After(repos, before), d), i, r, tag)
    requires i < |before| ==> Justified(repos, before, i, r, tag)
    ensures Justified(repos, before + RoundLog(After(repos, before), d), i, r, tag)
  {
    var e := RoundLog(After(repos, before), d);
    StoresSplit(before, e, i, r, tag);
    if i < |before| {
      JustifiedExtends(repos, before, e, i, r, tag);
    } else {
      RoundStores(After(repos, before), d, i - |before|, r, tag);
      JustifiedShifts(repos, before, e, i - |before|, r, tag);
    }
  }

  /** Crash safety, call by call: in any sequence of rounds, cut off anywhere, the
      tag of a repository is updated only when none was stored, or right after it
      was announced to everybody in the fetched list. */
  lemma {:induction false} UpdatesFollowAnnouncements(repos: Repos, rounds: seq<Round>, i: nat, r: RepoId, tag: TagName)
    requires StoresAt(RunLog(repos, rounds), i, r, tag)
    ensures Justified(repos, RunLog(repos, rounds), i, r, tag)
    decreases |rounds|
  {
    var init, d := rounds[..|rounds| - 1], rounds[|rounds| - 1];
    var before := RunLog(repos, init);
    var e := RoundLog(After(repos, before), d);
    assert RunLog(repos, rounds) == before + e;
    StoresSplit(before, e, i, r, tag);
    if i < |before| { UpdatesFollowAnnouncements(repos, init, i, r, tag); }
    RoundJustified(repos, before, d, i, r, tag);
  }

  /** Where the tag now stored was written, if it was not there at the start. */
  lemma {:induction false} WrittenAt(repos: Repos, log: seq<Effect>, r: RepoId) returns (i: nat)
    requires r in repos && r in After(repos, log) && After(repos, log)[r].last != repos[r].last
    ensures After(repos, log)[r].last.Some? && StoresAt(log, i, r, After(repos, log)[r].last.value)
  {
    var n := |log| - 1;
    if Lands(log[n]) && log[n].repo == r {
      i := n;
    } else {
      i := WrittenAt(repos, log[..n], r);
    }
  }

  lemma {:induction false} RowsStay(repos: Repos, log: seq<Effect>)
    ensures SameNames(repos, After(repos, log))
  {
    if log != [] { RowsStay(repos, log[..|log| - 1]); }
  }

  /** Crash safety: after any scans, with a crash or a failed call possible at any
      point, the stored tag of a repository is the one it started with, a baseline
      written when none was stored, or one announced to everybody who was in the
      fetched list. */
  lemma StoredTagsWereAnnounced(repos: Repos, rounds: seq<Round>, r: RepoId) returns (i: nat)
    requires r in repos
    ensures var log := RunLog(repos, rounds); var now := After(repos, log);
            && r in now
            && (now[r].last != repos[r].last ==>
                  && now[r].last.Some? && StoresAt(log, i, r, now[r].last.value)
                  && Justified(repos, log, i, r, now[r].last.value))
  {
    var log := RunLog(repos, rounds);
    RowsStay(repos, log);
    i := 0;
    if After(repos, log)[r].last != repos[r].last {
      i := WrittenAt(repos, log, r);
      UpdatesFollowAnnouncements(repos, rounds, i, r, After(repos, log)[r].last.value);
    }
  }

  // ------------------------------------------------------------ early stops

  predicate Avoids(log: seq<Effect>, r: RepoId) {
    forall i :: 0 <= i < |log| ==> log[i].repo != r
  }

  lemma AvoidsJoin(a: seq<Effect>, b: seq<Effect>, r: RepoId)
    requires Avoids(a, r) && Avoids(b, r)
    ensures Avoids(a + b, r)
  {
  }

  lemma RoundAvoids(now: Repos, d: Round, r: RepoId)
    requires r in now && d.repo != r
    ensures var e := RoundLog(now, d);
            Avoids(e, r) && SameNames(now, After(now, e)) && After(now, e)[r] == now[r]
  {
    AboutOne(now, RoundLog(now, d), d.repo);
  }

  /** Rounds of other repositories leave a repository and its calls alone. */
  lemma {:induction false} NotVisited(repos: Repos, rounds: seq<Round>, r: RepoId)
    requires r in repos && forall i :: 0 <= i < |rounds| ==> rounds[i].repo != r
    ensures var log := RunLog(repos, rounds);
            Avoids(log, r) && SameNames(repos, After(repos, log)) && After(repos, log)[r] == repos[r]
    decreases |rounds|
  {
    if rounds != [] {
      var init, d := rounds[..|rounds| - 1], rounds[|rounds| - 1];
      NotVisited(repos, init, r);
      var before := RunLog(repos, init);
      var now := After(repos, before);
      AfterJoin(repos, before, RoundLog(now, d));
      RoundAvoids(now, d, r);
      AvoidsJoin(before, RoundLog(now, d), r);
    }
  }

  predicate StopsAt(listed: seq<RepoId>, turns: seq<Turn>, rows: Repos, k: nat)
    requires |turns| == |listed| && k < |listed| && forall r :: r in listed ==> r in rows
  {
    turns[k].cancelled || (Splits(rows[listed[k]].fullName) && turns[k].answer.RateLimited?)
  }

  predicate InOrder(listed: seq<RepoId>, turns: seq<Turn>, i: nat, rounds: seq<Round>)
    requires |turns| == |listed|
  {
    i + |rounds| <= |listed| && forall j :: 0 <= j < |rounds| ==> rounds[j] == Round(listed[i + j], turns[i + j], None)
  }

  lemma NextRounds(listed: seq<RepoId>, turns: seq<Turn>, rows: Repos, i: nat)
    requires |turns| == |listed| && i < |listed| && (forall r :: r in listed ==> r in rows)
             && !StopsAt(listed, turns, rows, i)
    requires InOrder(listed, turns, i + 1, ScanRounds(listed, turns, rows, i + 1))
    ensures |ScanRounds(listed, turns, rows, i)| == 1 + |ScanRounds(listed, turns, rows, i + 1)|
    ensures InOrder(listed, turns, i, ScanRounds(listed, turns, rows, i))
  {
    var rest := ScanRounds(listed, turns, rows, i + 1);
    var rounds := ScanRounds(listed, turns, rows, i);
    assert RoundsAfter(listed, turns, rows, i) == rest;
    assert rounds == [Round(listed[i], turns[i], None)] + rest;
    forall j | 0 <= j < |rounds| ensures rounds[j] == Round(listed[i + j], turns[i + j], None) {
      if j > 0 { assert rounds[j] == rest[j - 1]; }
    }
  }

  lemma {:induction false} RoundsBeforeStop(listed: seq<RepoId>, turns: seq<Turn>, rows: Repos, i: nat, k: nat)
    requires |turns| == |listed| && i <= k < |listed| && forall r :: r in listed ==> r in rows
    requires StopsAt(listed, turns, rows, k)
    ensures var rounds := ScanRounds(listed, turns, rows, i);
            |rounds| <= k - i + (if turns[k].cancelled then 0 else 1) && InOrder(listed, turns, i, rounds)
    decreases k - i
  {
    if i < k && !StopsAt(listed, turns, rows, i) {
      RoundsBeforeStop(listed, turns, rows, i + 1, k);
      NextRounds(listed, turns, rows, i);
    }
  }

  /** A scan stopped at repository `k`, by the rate limit or a context that is done,
      makes no call for any later repository and leaves its row alone. */
  lemma StopLeavesTheRest(repos: Repos, listed: seq<RepoId>, turns: seq<Turn>, k: nat, j: nat)
    requires |turns| == |listed| && k < j < |listed| && EachOnce(listed) && forall r :: r in listed ==> r in repos
    requires StopsAt(listed, turns, repos, k)
    ensures var log := RunLog(repos, ScanRounds(listed, turns, repos, 0));
            && listed[j] in After(repos, log) && After(repos, log)[listed[j]] == repos[listed[j]]
            && Avoids(log, listed[j])
  {
    RoundsBeforeStop(listed, turns, repos, 0, k);
    NotVisited(repos, ScanRounds(listed, turns, repos, 0), listed[j]);
  }

  /** No other answer stops a scan: every listed repository gets its turn, in order. */
  lemma {:induction false} EveryRepositoryGetsATurn(listed: seq<RepoId>, turns: seq<Turn>, rows: Repos, i: nat)
    requires |turns| == |listed| && i <= |listed| && forall r :: r in listed ==> r in rows
    requires forall k :: 0 <= k < |listed| ==> !StopsAt(listed, turns, rows, k)
    ensures var rounds := ScanRounds(listed, turns, rows, i);
            |rounds| == |listed| - i && InOrder(listed, turns, i, rounds)
    decreases |listed| - i
  {
    if i < |listed| {
      assert !StopsAt(listed, turns, rows, i);
      EveryRepositoryGetsATurn(listed, turns, rows, i + 1);
      NextRounds(listed, turns, rows, i);
    }
  }
}
