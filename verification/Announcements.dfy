/** Which tags the scanner announces, to whom, and what survives a crash. */
module Announcements {
  import opened Domain
  import opened Scanner

  // -------------------------------------------------------- reading the calls

  /** What `f` makes of each call, in order. */
  function Flat<T>(log: seq<Effect>, f: Effect -> seq<T>): seq<T> {
    if log == [] then [] else Flat(log[..|log| - 1], f) + f(log[|log| - 1])
  }

  function TagSeen(r: RepoId): Effect -> seq<TagName> {
    (e: Effect) => if e.Fetched? && e.repo == r && e.answer.Found? then [e.answer.tag] else []
  }

  function TagListed(r: RepoId): Effect -> seq<TagName> {
    (e: Effect) => if e.Listed? && e.repo == r then [e.tag] else []
  }

  function Told(r: RepoId): Effect -> seq<Effect> {
    (e: Effect) => if e.Announced? && e.repo == r then [e] else []
  }

  function ToTell(r: RepoId): Effect -> seq<Effect> {
    (e: Effect) => if e.Listed? && e.repo == r then AnnouncedTo(r, e.tag, e.all) else []
  }

  /** Tags the release checker returned for `r`. */
  function Observed(log: seq<Effect>, r: RepoId): seq<TagName> {
    Flat(log, TagSeen(r))
  }

  /** Tags announced for `r`: those whose confirmed subscribers were fetched. */
  function AnnouncedTags(log: seq<Effect>, r: RepoId): seq<TagName> {
    Flat(log, TagListed(r))
  }

  lemma {:induction false} FlatJoin<T>(log: seq<Effect>, more: seq<Effect>, f: Effect -> seq<T>)
    ensures Flat(log + more, f) == Flat(log, f) + Flat(more, f)
  {
    if more == [] {
      assert log + more == log;
    } else {
      var n := |more| - 1;
      FlatJoin(log, more[..n], f);
      assert (log + more)[..|log + more| - 1] == log + more[..n];
    }
  }

  lemma {:induction false} FlatNothing<T>(log: seq<Effect>, f: Effect -> seq<T>)
    requires forall i :: 0 <= i < |log| ==> f(log[i]) == []
    ensures Flat(log, f) == []
  {
    if log != [] { FlatNothing(log[..|log| - 1], f); }
  }

  lemma FlatThree<T>(a: seq<Effect>, b: seq<Effect>, c: seq<Effect>, f: Effect -> seq<T>)
    ensures Flat(a + b + c, f) == Flat(a, f) + Flat(b, f) + Flat(c, f)
  {
    FlatJoin(a + b, c, f);
    FlatJoin(a, b, f);
  }

  lemma FlatOne<T>(log: seq<Effect>, f: Effect -> seq<T>)
    requires |log| == 1
    ensures Flat(log, f) == f(log[0])
  {
    assert log[..0] == [];
  }

  lemma MiddlePiece<T>(a: seq<Effect>, b: seq<Effect>, c: seq<Effect>, f: Effect -> seq<T>)
    requires Flat(a, f) == [] && Flat(c, f) == []
    ensures Flat(a + b + c, f) == Flat(b, f)
  {
    FlatThree(a, b, c, f);
  }

  lemma FirstPiece<T>(a: seq<Effect>, b: seq<Effect>, c: seq<Effect>, f: Effect -> seq<T>)
    requires Flat(b, f) == [] && Flat(c, f) == []
    ensures Flat(a + b + c, f) == Flat(a, f)
  {
    FlatThree(a, b, c, f);
  }

  // ------------------------------------------------------- removing repeats

  /** Consecutive repeats removed. */
  function Dedup(s: seq<TagName>): seq<TagName> {
    if s == [] then []
    else
      var n := |s| - 1;
      if n > 0 && s[n] == s[n - 1] then Dedup(s[..n]) else Dedup(s[..n]) + [s[n]]
  }

  function DropFirst(s: seq<TagName>): seq<TagName> {
    if s == [] then [] else s[1..]
  }

  lemma {:induction false} DedupSize(s: seq<TagName>)
    ensures s != [] ==> Dedup(s) != []
  {
    if |s| > 1 { DedupSize(s[..|s| - 1]); }
  }

  function Start(last: Option<TagName>): seq<TagName> {
    if last.None? then [] else [last.value]
  }

  function LastOf(s: seq<TagName>): Option<TagName> {
    if s == [] then None else Some(s[|s| - 1])
  }

  /** One more observation is announced exactly when it differs from the last and
      is not the first. */
  lemma OneMoreTag(s: seq<TagName>, tag: TagName)
    ensures LastOf(s + [tag]) == Some(tag)
    ensures DropFirst(Dedup(s + [tag])) ==
            DropFirst(Dedup(s)) + (if s == [] || LastOf(s) == Some(tag) then [] else [tag])
  {
    assert (s + [tag])[..|s|] == s;
    DedupSize(s);
  }

  // ------------------------------------------------------------ announcements

  /** The database and the process do not fail in rounds of `r`. The release
      checker and the broker may. */
  predicate Smooth(d: Round, r: RepoId) {
    d.repo == r ==> d.crash.None? && d.turn.confirmed.Some? && !d.turn.update.Fails?
  }

  ghost predicate SmoothFor(rounds: seq<Round>, r: RepoId) {
    forall i :: 0 <= i < |rounds| ==> Smooth(rounds[i], r)
  }

  lemma TurnIsAboutOne(row: RepoRow, r: RepoId, turn: Turn, i: nat)
    requires i < |TurnEffects(row, r, turn)|
    ensures TurnEffects(row, r, turn)[i].repo == r
  {
  }

  /** A round of another repository. */
  lemma ElsewhereNothing(now: Repos, d: Round, r: RepoId)
    requires d.repo != r && r in now
    ensures var e := RoundLog(now, d);
            Observed(e, r) == [] && AnnouncedTags(e, r) == [] && Flat(e, Told(r)) == [] && Flat(e, ToTell(r)) == []
            && SameNames(now, After(now, e)) && After(now, e)[r] == now[r]
  {
    var e := RoundLog(now, d);
    if d.repo in now {
      forall i | 0 <= i < |e| ensures e[i].repo == d.repo {
        TurnIsAboutOne(now[d.repo], d.repo, d.turn, i);
      }
    }
    FlatNothing(e, TagSeen(r));
    FlatNothing(e, TagListed(r));
    FlatNothing(e, Told(r));
    FlatNothing(e, ToTell(r));
    AboutOne(now, e, d.repo);
  }

  /** The calls of a turn that announces, in three pieces. */
  predicate ArePieces(a: seq<Effect>, b: seq<Effect>, c: seq<Effect>, r: RepoId) {
    |a| == |c| == 1 && a[0].Listed? && a[0].repo == r && b == AnnouncedTo(r, a[0].tag, a[0].all) && c[0].Stored?
  }

  lemma PiecesObserve(a: seq<Effect>, b: seq<Effect>, c: seq<Effect>, r: RepoId)
    requires ArePieces(a, b, c, r)
    ensures Observed(a + b + c, r) == []
  {
    FlatOne(a, TagSeen(r));
    FlatNothing(b, TagSeen(r));
    FlatOne(c, TagSeen(r));
    FirstPiece(a, b, c, TagSeen(r));
  }

  lemma PiecesAnnounce(a: seq<Effect>, b: seq<Effect>, c: seq<Effect>, r: RepoId)
    requires ArePieces(a, b, c, r)
    ensures AnnouncedTags(a + b + c, r) == [a[0].tag]
  {
    FlatOne(a, TagListed(r));
    FlatNothing(b, TagListed(r));
    FlatOne(c, TagListed(r));
    FirstPiece(a, b, c, TagListed(r));
  }

  lemma QuietPieces(now: Repos, a: seq<Effect>, b: seq<Effect>, c: seq<Effect>)
    requires exists r :: ArePieces(a, b, c, r)
    ensures After(now, a + b + c) == Set(now, c[0])
  {
    QuietKeeps(now, a);
    QuietKeeps(now, b);
    AfterJoin(now, a, b);
    AfterMore(now, a + b, c[0]);
    assert c == [c[0]];
  }

  lemma ProcessingObserves(now: Repos, r: RepoId, tag: TagName, turn: Turn)
    requires r in now && turn.confirmed.Some?
    ensures var e, last := Processing(now[r], r, tag, turn), now[r].last;
            && Observed(e, r) == []
            && AnnouncedTags(e, r) == (if last.None? || last == Some(tag) then [] else [tag])
            && (!turn.update.Fails? ==> r in After(now, e) && After(now, e)[r].last == Some(tag))
  {
    var e, last := Processing(now[r], r, tag, turn), now[r].last;
    if last.None? {
      FlatNothing(e, TagSeen(r));
      FlatNothing(e, TagListed(r));
      assert e == [Stored(r, tag, turn.update)];
      AfterMore(now, [], e[0]);
      assert [] + e == e;
    } else if last.value != tag {
      var to := turn.confirmed.value;
      var a, b, c := [Listed(r, tag, to)], AnnouncedTo(r, tag, to), [Stored(r, tag, turn.update)];
      assert ArePieces(a, b, c, r);
      PiecesObserve(a, b, c, r);
      PiecesAnnounce(a, b, c, r);
      QuietPieces(now, a, b, c);
    }
  }

  lemma TurnObserves(now: Repos, r: RepoId, turn: Turn)
    requires r in now && turn.confirmed.Some? && !turn.update.Fails?
    ensures var e, last := TurnEffects(now[r], r, turn), now[r].last;
            if Splits(now[r].fullName) && turn.answer.Found? then
              && Observed(e, r) == [turn.answer.tag]
              && AnnouncedTags(e, r) == (if last.None? || last == Some(turn.answer.tag) then [] else [turn.answer.tag])
              && r in After(now, e) && After(now, e)[r].last == Some(turn.answer.tag)
            else
              Observed(e, r) == [] && AnnouncedTags(e, r) == [] && After(now, e) == now
  {
    var e := TurnEffects(now[r], r, turn);
    if Splits(now[r].fullName) {
      var a := [Fetched(r, turn.answer)];
      var b := if turn.answer.Found? then Processing(now[r], r, turn.answer.tag, turn) else [];
      FlatJoin(a, b, TagSeen(r));
      FlatJoin(a, b, TagListed(r));
      FlatOne(a, TagSeen(r));
      FlatOne(a, TagListed(r));
      QuietKeeps(now, a);
      AfterJoin(now, a, b);
      if turn.answer.Found? { ProcessingObserves(now, r, turn.answer.tag, turn); }
    }
  }

  /** One more round after the tags `s`, the stored tag first. */
  lemma RoundAnnounces(now: Repos, d: Round, r: RepoId, s: seq<TagName>)
    requires r in now && Smooth(d, r) && now[r].last == LastOf(s)
    ensures var e := RoundLog(now, d);
            && DropFirst(Dedup(s + Observed(e, r))) == DropFirst(Dedup(s)) + AnnouncedTags(e, r)
            && r in After(now, e) && After(now, e)[r].last == LastOf(s + Observed(e, r))
  {
    assert s + [] == s && DropFirst(Dedup(s)) + [] == DropFirst(Dedup(s));
    if d.repo != r {
      ElsewhereNothing(now, d, r);
    } else {
      TurnObserves(now, r, d.turn);
      if d.turn.answer.Found? {
        OneMoreTag(s, d.turn.answer.tag);
      }
    }
  }

  /** Announced tags, from any stored tag: over any number of scans whose database
      calls succeed, the tags announced for a repository are the observed ones,
      after the stored one if there is one, with consecutive repeats removed and the
      first dropped; the stored tag is the last of them. */
  lemma {:induction false} TagsAnnounced(repos: Repos, rounds: seq<Round>, r: RepoId)
    requires r in repos && SmoothFor(rounds, r)
    ensures var log := RunLog(repos, rounds); var seen := Start(repos[r].last) + Observed(log, r);
            && AnnouncedTags(log, r) == DropFirst(Dedup(seen))
            && r in After(repos, log) && After(repos, log)[r].last == LastOf(seen)
  {
    var log := RunLog(repos, rounds);
    if rounds == [] {
      assert Dedup(Start(repos[r].last)) == Start(repos[r].last);
      assert Start(repos[r].last) + [] == Start(repos[r].last);
    } else {
      var n := |rounds| - 1;
      TagsAnnounced(repos, rounds[..n], r);
      var before := RunLog(repos, rounds[..n]);
      var now := After(repos, before);
      var e := RoundLog(now, rounds[n]);
      assert Smooth(rounds[n], r);
      RoundAnnounces(now, rounds[n], r, Start(repos[r].last) + Observed(before, r));
      Appended(Start(repos[r].last), Observed(before, r), Observed(e, r));
      FlatJoin(before, e, TagSeen(r));
      FlatJoin(before, e, TagListed(r));
      AfterJoin(repos, before, e);
    }
  }

  /** From no stored tag, the observed tags with consecutive repeats removed and the
      first, the baseline, dropped. */
  lemma NewTagsAnnounced(repos: Repos, rounds: seq<Round>, r: RepoId)
    requires r in repos && SmoothFor(rounds, r) && repos[r].last.None?
    ensures var log := RunLog(repos, rounds); AnnouncedTags(log, r) == DropFirst(Dedup(Observed(log, r)))
  {
    TagsAnnounced(repos, rounds, r);
    var log := RunLog(repos, rounds);
    assert [] + Observed(log, r) == Observed(log, r);
  }

  // -------------------------------------------------- each subscriber once

  ghost predicate NoCrash(rounds: seq<Round>, r: RepoId) {
    forall i :: 0 <= i < |rounds| && rounds[i].repo == r ==> rounds[i].crash.None?
  }

  lemma {:induction false} AllTold(r: RepoId, tag: TagName, to: seq<Subscriber>)
    ensures Flat(AnnouncedTo(r, tag, to), Told(r)) == AnnouncedTo(r, tag, to)
  {
    if to != [] {
      var n := |to| - 1;
      AllTold(r, tag, to[..n]);
      assert AnnouncedTo(r, tag, to)[..n] == AnnouncedTo(r, tag, to[..n]);
    }
  }

  lemma PiecesTell(a: seq<Effect>, b: seq<Effect>, c: seq<Effect>, r: RepoId)
    requires ArePieces(a, b, c, r)
    ensures Flat(a + b + c, Told(r)) == b
  {
    FlatOne(a, Told(r));
    FlatOne(c, Told(r));
    MiddlePiece(a, b, c, Told(r));
    AllTold(r, a[0].tag, a[0].all);
  }

  lemma PiecesOwe(a: seq<Effect>, b: seq<Effect>, c: seq<Effect>, r: RepoId)
    requires ArePieces(a, b, c, r)
    ensures Flat(a + b + c, ToTell(r)) == b
  {
    FlatOne(a, ToTell(r));
    FlatNothing(b, ToTell(r));
    FlatOne(c, ToTell(r));
    FirstPiece(a, b, c, ToTell(r));
  }

  lemma ProcessingTells(row: RepoRow, r: RepoId, tag: TagName, turn: Turn)
    ensures var e := Processing(row, r, tag, turn); Flat(e, Told(r)) == Flat(e, ToTell(r))
  {
    if row.last.None? || row.last.value == tag || turn.confirmed.None? {
      FlatNothing(Processing(row, r, tag, turn), Told(r));
      FlatNothing(Processing(row, r, tag, turn), ToTell(r));
    } else {
      var to := turn.confirmed.value;
      var a, b, c := [Listed(r, tag, to)], AnnouncedTo(r, tag, to), [Stored(r, tag, turn.update)];
      assert ArePieces(a, b, c, r);
      PiecesTell(a, b, c, r);
      PiecesOwe(a, b, c, r);
    }
  }

  lemma ProcessingAnnounces(row: RepoRow, r: RepoId, tag: TagName, turn: Turn)
    ensures var e := Processing(row, r, tag, turn);
            Flat(e, Told(r)) ==
              if row.last.Some? && row.last.value != tag && turn.confirmed.Some?
              then AnnouncedTo(r, tag, turn.confirmed.value) else []
  {
    if row.last.None? || row.last.value == tag || turn.confirmed.None? {
      FlatNothing(Processing(row, r, tag, turn), Told(r));
    } else {
      var to := turn.confirmed.value;
      var a, b, c := [Listed(r, tag, to)], AnnouncedTo(r, tag, to), [Stored(r, tag, turn.update)];
      assert ArePieces(a, b, c, r);
      PiecesTell(a, b, c, r);
    }
  }

  /** A turn that announces: a release other than the stored one was found, and the
      query for subscribers worked. */
  predicate IsNews(row: RepoRow, turn: Turn) {
    && Splits(row.fullName) && turn.answer.Found? && row.last.Some? && row.last.value != turn.answer.tag
    && turn.confirmed.Some?
  }

  lemma TurnTellsNews(row: RepoRow, r: RepoId, turn: Turn)
    ensures Flat(TurnEffects(row, r, turn), Told(r)) ==
            if IsNews(row, turn) then AnnouncedTo(r, turn.answer.tag, turn.confirmed.value) else []
  {
    if Splits(row.fullName) {
      var a := [Fetched(r, turn.answer)];
      var b := if turn.answer.Found? then Processing(row, r, turn.answer.tag, turn) else [];
      FlatJoin(a, b, Told(r));
      FlatNothing(a, Told(r));
      if turn.answer.Found? { ProcessingAnnounces(row, r, turn.answer.tag, turn); }
    }
  }

  /** Who is told in a turn: if it announces, each subscriber the query returned, in
      order and once, is sent that tag; in every other turn nobody is sent anything. */
  lemma TurnAnnounces(row: RepoRow, r: RepoId, turn: Turn)
    ensures var told := Flat(TurnEffects(row, r, turn), Told(r));
            if IsNews(row, turn)
            then |told| == |turn.confirmed.value|
                 && forall i :: 0 <= i < |told| ==> told[i] == Announced(r, turn.answer.tag, turn.confirmed.value[i])
            else told == []
  {
    TurnTellsNews(row, r, turn);
  }

  lemma TurnTells(row: RepoRow, r: RepoId, turn: Turn)
    ensures var e := TurnEffects(row, r, turn); Flat(e, Told(r)) == Flat(e, ToTell(r))
  {
    if Splits(row.fullName) {
      var a := [Fetched(r, turn.answer)];
      var b := if turn.answer.Found? then Processing(row, r, turn.answer.tag, turn) else [];
      FlatJoin(a, b, Told(r));
      FlatJoin(a, b, ToTell(r));
      FlatNothing(a, Told(r));
      FlatNothing(a, ToTell(r));
      if turn.answer.Found? { ProcessingTells(row, r, turn.answer.tag, turn); }
    }
  }

  /** Unless the process crashes in a round of `r`, its announcements are, in order
      and each once, those owed to the subscribers fetched with each announced tag,
      whatever else fails. */
  lemma {:induction false} EachSubscriberOnce(repos: Repos, rounds: seq<Round>, r: RepoId)
    requires r in repos && NoCrash(rounds, r)
    ensures var log := RunLog(repos, rounds);
            Flat(log, Told(r)) == Flat(log, ToTell(r)) && SameNames(repos, After(repos, log))
  {
    if rounds != [] {
      var n := |rounds| - 1;
      EachSubscriberOnce(repos, rounds[..n], r);
      var before := RunLog(repos, rounds[..n]);
      var now := After(repos, before);
      var e := RoundLog(now, rounds[n]);
      FlatJoin(before, e, Told(r));
      FlatJoin(before, e, ToTell(r));
      AfterJoin(repos, before, e);
      if rounds[n].repo == r {
        TurnTells(now[r], r, rounds[n].turn);
        TurnIsLocal(now, r, rounds[n].turn);
      } else {
        ElsewhereNothing(now, rounds[n], r);
      }
    }
  }
}
