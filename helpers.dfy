/**
 The general helpers of the service: encoding a tag for a URL,
 canonicalising a deck, counting wins and losses, per-mode statistics, and
 the database table that caches a player's analysed battle log.
 */
module Helpers {
  import opened Common
  import opened Upstream
  import Config
  import CardOrder
  import UrlQuote

  // ---------------------------------------------------------------- enc_tag

  function EnsureHash(t: string): (r: string)
    ensures "#" <= r
  {
    if "#" <= t then t else "#" + t
  }

  /** Decode any escape, make sure the tag starts with '#', then encode once. */
  function EncTag(tag: string): (r: string)
    ensures UrlQuote.Unquote(r) == EnsureHash(UrlQuote.Unquote(tag))
  {
    UrlQuote.UnquoteQuote(EnsureHash(UrlQuote.Unquote(tag)));
    UrlQuote.Quote(EnsureHash(UrlQuote.Unquote(tag)))
  }

  lemma EncTagStartsWithEscapedHash(tag: string)
    ensures "%23" <= EncTag(tag)
  {
    var u := EnsureHash(UrlQuote.Unquote(tag));
    assert u == "#" + u[1..];
    UrlQuote.QuoteHash(u[1..]);
  }

  /** Encoding an encoded tag changes nothing. */
  lemma EncTagIdempotent(tag: string)
    ensures EncTag(EncTag(tag)) == EncTag(tag)
  {
    var u := EnsureHash(UrlQuote.Unquote(tag));
    UrlQuote.UnquoteQuote(u);
    assert EnsureHash(u) == u;
  }

  /** A bare tag, the same tag behind '#' and behind "%23" encode alike. */
  lemma EncTagPrefixForms(t: string)
    requires !("#" <= UrlQuote.Unquote(t))
    ensures EncTag("#" + t) == EncTag(t)
    ensures EncTag("%23" + t) == EncTag(t)
  {
    UrlQuote.UnquoteHash(t);
    UrlQuote.UnquoteEscapedHash(t);
    assert "#" <= "#" + UrlQuote.Unquote(t);
  }

  // ---------------------------------------------------------------- canon

  /** The sorted tuple of a deck's card names. */
  function Canon(cards: seq<string>): (r: seq<string>)
    ensures CardOrder.Sorted(r)
    ensures multiset(r) == multiset(cards) && |r| == |cards|
  {
    CardOrder.Sort(cards)
  }

  /** The same cards in any order give the same canonical deck. */
  lemma CanonOrderIndependent(a: seq<string>, b: seq<string>)
    requires multiset(a) == multiset(b)
    ensures Canon(a) == Canon(b)
  {
    CardOrder.SortedUnique(Canon(a), Canon(b));
  }

  /** A sorted deck is its own canonical form. */
  lemma CanonOfSorted(a: seq<string>)
    requires CardOrder.Sorted(a)
    ensures Canon(a) == a
  {
    CardOrder.SortedUnique(Canon(a), a);
  }

  // ---------------------------------------------------------------- calculate_wins_losses

  predicate IsPvpType(b: Battle) {
    b.battleType.Some? &&
    b.battleType.value in ["pathOfLegend", "ladder", "challenge", "tournament"]
  }

  /** A battle that counts toward the record: it has a team and a PvP type. */
  predicate CountsForRecord(b: Battle) { HasTeam(b) && IsPvpType(b) }

  /** Counted battles of s, won and lost (each as Dafny counts them, last battle last). */
  function RecordBattles(s: seq<Battle>): nat {
    if s == [] then 0
    else RecordBattles(s[..|s| - 1]) + (if CountsForRecord(s[|s| - 1]) then 1 else 0)
  }

  function RecordWins(s: seq<Battle>): nat {
    if s == [] then 0
    else
      RecordWins(s[..|s| - 1])
      + (if CountsForRecord(s[|s| - 1]) && OutcomeOf(s[|s| - 1]) == Win then 1 else 0)
  }

  function RecordLosses(s: seq<Battle>): nat {
    if s == [] then 0
    else
      RecordLosses(s[..|s| - 1])
      + (if CountsForRecord(s[|s| - 1]) && OutcomeOf(s[|s| - 1]) == Loss then 1 else 0)
  }

  method CalculateWinsLosses(battles: seq<Battle>) returns (wins: nat, losses: nat)
    ensures wins == RecordWins(battles) && losses == RecordLosses(battles)
    ensures wins + losses <= RecordBattles(battles)
  {
    wins, losses := 0, 0;
    var i := 0;
    while i < |battles|
      invariant 0 <= i <= |battles|
      invariant wins == RecordWins(battles[..i]) && losses == RecordLosses(battles[..i])
    {
      var b := battles[i];
      assert battles[..i + 1][..i] == battles[..i];
      if HasTeam(b) && IsPvpType(b) {
        var teamCrowns := TeamCrowns(b);
        var opponentCrowns := OpponentCrowns(b);
        if teamCrowns > opponentCrowns {
          wins := wins + 1;
        } else if opponentCrowns > teamCrowns {
          losses := losses + 1;
        }
      }
      i := i + 1;
    }
    assert battles[..i] == battles;
    RecordBounded(battles);
  }

  /** Draws count as neither, so at most every counted battle is a win or a loss. */
  lemma {:induction false} RecordBounded(s: seq<Battle>)
    ensures RecordWins(s) + RecordLosses(s) <= RecordBattles(s)
  {
    if s != [] { RecordBounded(s[..|s| - 1]); }
  }

  /** Only counted battles move the record: wins and losses ignore everything else. */
  lemma {:induction false} RecordIgnoresUncounted(s: seq<Battle>, b: Battle)
    requires !CountsForRecord(b)
    ensures RecordWins(s + [b]) == RecordWins(s) && RecordLosses(s + [b]) == RecordLosses(s)
    ensures RecordBattles(s + [b]) == RecordBattles(s)
  {
    assert (s + [b])[..|s|] == s;
  }

  /** A missing opponent or missing crowns count as zero crowns. */
  lemma NoOpponentWithCrownsIsWin(b: Battle)
    requires CountsForRecord(b) && b.opponent == []
    requires b.team[0].crowns.Some? && b.team[0].crowns.value > 0
    ensures RecordWins([b]) == 1 && RecordLosses([b]) == 0
  {
    assert [b][..0] == [];
  }

  // ---------------------------------------------------------------- calculate_mode_stats

  datatype ModeStats = ModeStats(battles: nat, wins: nat, losses: nat, totalCrowns: int)

  predicate InMode(b: Battle, battleType: string) { IsType(b, battleType) && HasTeam(b) }

  /** The statistics of the battles of s of this exact type that have a team. */
  function ModeTally(s: seq<Battle>, battleType: string): ModeStats {
    if s == [] then ModeStats(0, 0, 0, 0)
    else
      var m := ModeTally(s[..|s| - 1], battleType);
      var b := s[|s| - 1];
      if !InMode(b, battleType) then m
      else ModeStats(m.battles + 1,
                     m.wins + (if OutcomeOf(b) == Win then 1 else 0),
                     m.losses + (if OutcomeOf(b) == Loss then 1 else 0),
                     m.totalCrowns + TeamCrowns(b))
  }

  /** avg_crowns as a fraction: zero when there are no battles. */
  function AvgCrowns(m: ModeStats): (r: Ratio)
    ensures r.den > 0
    ensures m.battles == 0 ==> r.num == 0
  {
    if m.battles > 0 then Ratio(m.totalCrowns, m.battles) else Ratio(0, 1)
  }

  method CalculateModeStats(battles: seq<Battle>, battleType: string) returns (stats: ModeStats)
    ensures stats == ModeTally(battles, battleType)
    ensures stats.wins + stats.losses <= stats.battles
  {
    var modeBattles, modeWins, modeLosses, totalCrowns := 0, 0, 0, 0;
    var i := 0;
    while i < |battles|
      invariant 0 <= i <= |battles|
      invariant ModeStats(modeBattles, modeWins, modeLosses, totalCrowns) == ModeTally(battles[..i], battleType)
    {
      var b := battles[i];
      assert battles[..i + 1][..i] == battles[..i];
      if IsType(b, battleType) && HasTeam(b) {
        var teamCrowns := TeamCrowns(b);
        var opponentCrowns := OpponentCrowns(b);
        modeBattles := modeBattles + 1;
        totalCrowns := totalCrowns + teamCrowns;
        if teamCrowns > opponentCrowns {
          modeWins := modeWins + 1;
        } else if opponentCrowns > teamCrowns {
          modeLosses := modeLosses + 1;
        }
      }
      i := i + 1;
    }
    assert battles[..i] == battles;
    stats := ModeStats(modeBattles, modeWins, modeLosses, totalCrowns);
    ModeTallyBounded(battles, battleType);
  }

  lemma {:induction false} ModeTallyBounded(s: seq<Battle>, battleType: string)
    ensures var m := ModeTally(s, battleType); m.wins + m.losses <= m.battles <= |s|
  {
    if s != [] { ModeTallyBounded(s[..|s| - 1], battleType); }
  }

  /** A battle of another type, or one without a team, leaves every mode statistic unchanged. */
  lemma ModeTallyIgnoresOthers(s: seq<Battle>, b: Battle, battleType: string)
    requires !InMode(b, battleType)
    ensures ModeTally(s + [b], battleType) == ModeTally(s, battleType)
  {
    assert (s + [b])[..|s|] == s;
  }

  // ---------------------------------------------------------------- battle-log table

  /** A row of the battle-log table: the battles, the analysis and when they were fetched (seconds). */
  datatype LogRow<A> = LogRow(battles: seq<Battle>, analysis: A, fetchedAt: int)

  /** What get_cached_battle_log returns on a hit. */
  datatype CachedLog<A> = CachedLog(battles: seq<Battle>, analysis: A)

  /** A row is served only while strictly younger than cacheMinutes. */
  function LookupFresh<A>(logs: map<string, LogRow<A>>, key: string, now: int, cacheMinutes: int)
    : (r: Option<CachedLog<A>>)
  {
    if key in logs && now - logs[key].fetchedAt < cacheMinutes * 60
    then Some(CachedLog(logs[key].battles, logs[key].analysis))
    else None
  }

  /** A saved row is served back, unchanged, for exactly cacheMinutes after it was saved. */
  lemma SaveThenLookup<A>(logs: map<string, LogRow<A>>, key: string, battles: seq<Battle>,
                          analysis: A, savedAt: int, now: int, cacheMinutes: int)
    ensures var r := LookupFresh(logs[key := LogRow(battles, analysis, savedAt)], key, now, cacheMinutes);
      (r.Some? <==> now - savedAt < cacheMinutes * 60) &&
      (r.Some? ==> r.value == CachedLog(battles, analysis))
  {
  }

  /** Saving under one key never changes what another key serves. */
  lemma SaveKeepsOtherKeys<A>(logs: map<string, LogRow<A>>, key: string, other: string,
                              row: LogRow<A>, now: int, cacheMinutes: int)
    requires other != key
    ensures LookupFresh(logs[key := row], other, now, cacheMinutes) == LookupFresh(logs, other, now, cacheMinutes)
  {
  }

  /** The battle_logs table, keyed by its primary key. */
  class BattleLogStore<A> {
    var logs: map<string, LogRow<A>>

    constructor ()
      ensures logs == map[]
    {
      logs := map[];
    }

    /** db.merge: insert the row, or replace the row already under that key. */
    method SaveBattleLog(key: string, battles: seq<Battle>, analysis: A, now: int)
      modifies this
      ensures logs == old(logs)[key := LogRow(battles, analysis, now)]
    {
      logs := logs[key := LogRow(battles, analysis, now)];
    }

    method GetCachedBattleLog(key: string, now: int, cacheMinutes: int) returns (r: Option<CachedLog<A>>)
      ensures r.Some? <==> key in logs && now - logs[key].fetchedAt < cacheMinutes * 60
      ensures r.Some? ==> r.value == CachedLog(logs[key].battles, logs[key].analysis)
      ensures r == LookupFresh(logs, key, now, cacheMinutes)
    {
      if key in logs {
        var log := logs[key];
        if now - log.fetchedAt < cacheMinutes * 60 {
          return Some(CachedLog(log.battles, log.analysis));
        }
      }
      return None;
    }
  }
}
