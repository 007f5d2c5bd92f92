/**
 The player flow: resolving a typed player name to a player tag by fuzzy
 matching it against clan rosters, predicting a player's top three decks
 from the battle log (with a database cache in front), and assembling a
 player's statistics.

 Every upstream call is an input here: the payload the call returned, or
 the HTTP error it raised. The fuzzy scorer is a parameter.
 */
module PlayerService {
  import opened Common
  import opened Upstream
  import Config
  import Helpers
  import DeckRanking

  // ---------------------------------------------------------------- fuzzy matching

  /** A similarity score, 0 to 100. */
  type Score = r: real | 0.0 <= r <= 100.0

  /** The best-scoring name: its text, score and position. */
  datatype Match = Match(choice: string, score: Score, index: nat)

  /** process.extractOne: the first name with the highest score, or nothing for no names. */
  function ExtractOne(query: string, names: seq<string>, scorer: (string, string) -> Score): (r: Option<Match>)
    ensures r.None? <==> names == []
    ensures r.Some? ==>
      r.value.index < |names| && r.value.choice == names[r.value.index] &&
      r.value.score == scorer(query, names[r.value.index])
    ensures r.Some? ==> forall j :: 0 <= j < |names| ==> scorer(query, names[j]) <= r.value.score
    ensures r.Some? ==> forall j :: 0 <= j < r.value.index ==> scorer(query, names[j]) < r.value.score
  {
    if names == [] then None
    else
      var n := |names| - 1;
      var best := ExtractOne(query, names[..n], scorer);
      var score := scorer(query, names[n]);
      if best.None? || score > best.value.score then Some(Match(names[n], score, n))
      else best
  }

  datatype ResolvedPlayer = ResolvedPlayer(playerTag: string, name: string, confidence: int)

  function Names(members: seq<Member>): (names: seq<string>)
    ensures |names| == |members|
    ensures forall i :: 0 <= i < |members| ==> names[i] == members[i].name
  {
    seq(|members|, i requires 0 <= i < |members| => members[i].name)
  }

  /** `next(m for m in members if m["name"] == name)`: the first member with that name. */
  function FirstWithName(members: seq<Member>, name: string): (i: nat)
    requires exists k :: 0 <= k < |members| && members[k].name == name
    ensures i < |members| && members[i].name == name
    ensures forall k :: 0 <= k < i ==> members[k].name != name
  {
    if members[0].name == name then 0
    else
      assert exists k :: 0 <= k < |members[1..]| && members[1..][k].name == name by {
        var k :| 0 <= k < |members| && members[k].name == name;
        assert members[1..][k - 1] == members[k];
      }
      1 + FirstWithName(members[1..], name)
  }

  /** The member a match designates, reported with confidence int(score). */
  function Chosen(members: seq<Member>, m: Match): (p: ResolvedPlayer)
    requires m.index < |members| && members[m.index].name == m.choice
  {
    var c := members[FirstWithName(members, m.choice)];
    ResolvedPlayer(c.tag, c.name, m.score.Floor)
  }

  /** The first member with the matched name is the matched member itself: an earlier
      namesake would have scored the same, and the match is the first best score. */
  lemma ChosenIsMatched(query: string, members: seq<Member>, scorer: (string, string) -> Score)
    requires members != []
    ensures var m := ExtractOne(query, Names(members), scorer).value;
      FirstWithName(members, m.choice) == m.index
  {
    var m := ExtractOne(query, Names(members), scorer).value;
    var i := FirstWithName(members, m.choice);
    assert Names(members)[i] == members[i].name;
  }

  /** The best match over a roster, stated on the members: the first member with the best score. */
  lemma BestMember(query: string, members: seq<Member>, scorer: (string, string) -> Score)
    requires members != []
    ensures var m := ExtractOne(query, Names(members), scorer).value;
      m.index < |members| && members[m.index].name == m.choice &&
      m.score == scorer(query, members[m.index].name) &&
      Chosen(members, m) == ResolvedPlayer(members[m.index].tag, members[m.index].name, m.score.Floor) &&
      (forall j :: 0 <= j < |members| ==> scorer(query, members[j].name) <= m.score) &&
      (forall j :: 0 <= j < m.index ==> scorer(query, members[j].name) < m.score)
  {
    var names := Names(members);
    var m := ExtractOne(query, names, scorer).value;
    ChosenIsMatched(query, members, scorer);
    assert names[m.index] == members[m.index].name;
    forall j | 0 <= j < |members| ensures scorer(query, members[j].name) <= m.score {
      assert names[j] == members[j].name;
    }
    forall j | 0 <= j < m.index ensures scorer(query, members[j].name) < m.score {
      assert names[j] == members[j].name;
    }
  }

  /** resolve_player_by_clan_tag, given the roster fetch for the clan. */
  function ResolvePlayerByClanTag(playerName: string, roster: Result<seq<Member>, Error>,
                                  scorer: (string, string) -> Score): (r: Result<ResolvedPlayer, Error>)
    ensures roster.Err? ==> r == Err(roster.error)
    ensures roster == Ok([]) ==> r == Err(Error(404, NoMembersForClanTag))
    ensures roster.Ok? && roster.value != [] ==>
      var members := roster.value;
      (r.Err? <==> forall i :: 0 <= i < |members| ==> scorer(playerName, members[i].name) < Config.MatchThreshold) &&
      (r.Err? ==> r.error == Error(404, NoCloseMatch)) &&
      (r.Ok? ==>
         exists i :: 0 <= i < |members| &&
           r.value == ResolvedPlayer(members[i].tag, members[i].name, scorer(playerName, members[i].name).Floor) &&
           (forall j :: 0 <= j < |members| ==> scorer(playerName, members[j].name) <= scorer(playerName, members[i].name)) &&
           (forall j :: 0 <= j < i ==> scorer(playerName, members[j].name) < scorer(playerName, members[i].name)))
    ensures r.Ok? ==> 70 <= r.value.confidence <= 100
  {
    if roster.Err? then Err(roster.error)
    else
      var members := roster.value;
      if members == [] then Err(Error(404, NoMembersForClanTag))
      else
        var m := ExtractOne(playerName, Names(members), scorer).value;
        BestMember(playerName, members, scorer);
        if m.score < Config.MatchThreshold then Err(Error(404, NoCloseMatch))
        else Ok(Chosen(members, m))
  }

  /** What one clan contributes to the search by clan name: a resolved player if its roster
      was fetched and some member scores at least 70; a failed fetch or an empty roster gives nothing. */
  function ClanMatch(playerName: string, roster: Result<seq<Member>, Error>,
                     scorer: (string, string) -> Score): (r: Option<ResolvedPlayer>)
    ensures r.Some? <==>
      roster.Ok? && roster.value != [] &&
      exists i :: 0 <= i < |roster.value| && scorer(playerName, roster.value[i].name) >= Config.MatchThreshold
    ensures r.Some? ==> r == Some(ResolvePlayerByClanTag(playerName, roster, scorer).value)
  {
    if roster.Err? then None
    else
      var m := ExtractOne(playerName, Names(roster.value), scorer);
      if m.Some? && m.value.score >= Config.MatchThreshold then
        assert Names(roster.value)[m.value.index] == roster.value[m.value.index].name;
        assert forall j :: 0 <= j < |roster.value| ==> Names(roster.value)[j] == roster.value[j].name;
        Some(Chosen(roster.value, m.value))
      else
        assert forall j :: 0 <= j < |roster.value| ==> Names(roster.value)[j] == roster.value[j].name;
        None
  }

  /** The first clan, in search order, whose roster yields a match. */
  function FirstClanMatch(playerName: string, clans: seq<ClanHit>,
                          rosterOf: string -> Result<seq<Member>, Error>,
                          scorer: (string, string) -> Score): (r: Option<ResolvedPlayer>)
    ensures r.Some? ==> 70 <= r.value.confidence <= 100
  {
    if clans == [] then None
    else
      var here := ClanMatch(playerName, rosterOf(clans[0].tag), scorer);
      if here.Some? then here else FirstClanMatch(playerName, clans[1..], rosterOf, scorer)
  }

  /** The search stops at the first clan that matches, whatever later clans would score. */
  lemma {:induction false} FirstClanWins(playerName: string, clans: seq<ClanHit>,
                                          rosterOf: string -> Result<seq<Member>, Error>,
                                          scorer: (string, string) -> Score, k: nat)
    requires k < |clans|
    requires ClanMatch(playerName, rosterOf(clans[k].tag), scorer).Some?
    requires forall j :: 0 <= j < k ==> ClanMatch(playerName, rosterOf(clans[j].tag), scorer).None?
    ensures FirstClanMatch(playerName, clans, rosterOf, scorer) == ClanMatch(playerName, rosterOf(clans[k].tag), scorer)
  {
    if k > 0 {
      assert forall j :: 0 <= j < k - 1 ==> clans[1..][j] == clans[j + 1];
      FirstClanWins(playerName, clans[1..], rosterOf, scorer, k - 1);
    }
  }

  /** The search fails only when no clan matches. */
  lemma {:induction false} NoClanMatches(playerName: string, clans: seq<ClanHit>,
                                          rosterOf: string -> Result<seq<Member>, Error>,
                                          scorer: (string, string) -> Score)
    ensures FirstClanMatch(playerName, clans, rosterOf, scorer).None? <==>
      forall j :: 0 <= j < |clans| ==> ClanMatch(playerName, rosterOf(clans[j].tag), scorer).None?
  {
    if clans != [] {
      NoClanMatches(playerName, clans[1..], rosterOf, scorer);
      assert forall j :: 0 < j < |clans| ==> clans[j] == clans[1..][j - 1];
    }
  }

  /** resolve_player_by_clan_name: search clans, then try them in order. */
  method ResolvePlayerByClanName(playerName: string, search: Result<seq<ClanHit>, Error>,
                                 rosterOf: string -> Result<seq<Member>, Error>,
                                 scorer: (string, string) -> Score)
    returns (r: Result<ResolvedPlayer, Error>)
    ensures search.Err? ==> r == Err(search.error)
    ensures search == Ok([]) ==> r == Err(Error(404, NoClansFound))
    ensures search.Ok? && search.value != [] ==>
      r == match FirstClanMatch(playerName, search.value, rosterOf, scorer)
           case Some(p) => Ok(p)
           case None => Err(Error(404, PlayerNotInAnyClan))
  {
    if search.Err? {
      return Err(search.error);
    }
    var clans := search.value;
    if clans == [] {
      return Err(Error(404, NoClansFound));
    }
    var i := 0;
    while i < |clans|
      invariant 0 <= i <= |clans|
      invariant FirstClanMatch(playerName, clans, rosterOf, scorer) == FirstClanMatch(playerName, clans[i..], rosterOf, scorer)
    {
      var roster := rosterOf(clans[i].tag);
      assert clans[i..][1..] == clans[i + 1..];
      if roster.Ok? {
        var members := roster.value;
        var m := ExtractOne(playerName, Names(members), scorer);
        if m.Some? && m.value.score >= Config.MatchThreshold {
          return Ok(Chosen(members, m.value));
        }
      }
      i := i + 1;
    }
    return Err(Error(404, PlayerNotInAnyClan));
  }

  // ---------------------------------------------------------------- predict_player_decks

  predicate IsGameMode(mode: string) { mode in ["ladder", "ranked", "all"] }

  function FilterType(s: seq<Battle>, t: string): (r: seq<Battle>)
    ensures |r| <= |s|
    ensures forall b :: b in r <==> b in s && IsType(b, t)
  {
    if s == [] then []
    else
      (if IsType(s[0], t) then [s[0]] else []) + FilterType(s[1..], t)
  }

  /** Each battle of the type is kept as many times as it occurs, and no other. */
  lemma {:induction false} FilterTypeCounts(s: seq<Battle>, t: string, x: Battle)
    ensures multiset(FilterType(s, t))[x] == if IsType(x, t) then multiset(s)[x] else 0
  {
    if s != [] {
      assert s == [s[0]] + s[1..];
      FilterTypeCounts(s[1..], t, x);
    }
  }

  /** The filter keeps the log's order: filtering a concatenation filters each part. */
  lemma {:induction false} FilterTypeAppend(a: seq<Battle>, b: seq<Battle>, t: string)
    ensures FilterType(a + b, t) == FilterType(a, t) + FilterType(b, t)
    ensures forall x :: FilterType([x], t) == if IsType(x, t) then [x] else []
  {
    if a == [] {
      assert a + b == b;
    } else {
      assert (a + b)[0] == a[0] && (a + b)[1..] == a[1..] + b;
      FilterTypeAppend(a[1..], b, t);
      var h := if IsType(a[0], t) then [a[0]] else [];
      assert FilterType(a + b, t) == h + (FilterType(a[1..], t) + FilterType(b, t));
      assert h + (FilterType(a[1..], t) + FilterType(b, t)) == (h + FilterType(a[1..], t)) + FilterType(b, t);
    }
    forall x ensures FilterType([x], t) == if IsType(x, t) then [x] else [] {
      assert [x][1..] == [];
    }
  }

  /** ladder keeps Trophy Road ("trail") battles, ranked keeps Path of Legend, all keeps everything. */
  function FilterByMode(battles: seq<Battle>, mode: string): (r: seq<Battle>)
    ensures mode == "all" ==> r == battles
    ensures mode == "ladder" ==> r == FilterType(battles, "trail")
    ensures mode == "ranked" ==> r == FilterType(battles, "pathOfLegend")
  {
    if mode == "ladder" then FilterType(battles, "trail")
    else if mode == "ranked" then FilterType(battles, "pathOfLegend")
    else battles
  }

  /** The deck_analysis stored with a battle log. */
  datatype DeckAnalysis = DeckAnalysis(top3: seq<DeckRanking.RankedDeck>, gameMode: string)

  datatype Prediction = Prediction(playerTag: string, top3: seq<DeckRanking.RankedDeck>, cached: bool)

  function CacheKey(playerTag: string, mode: string): string { playerTag + ":" + mode }

  /** What a cache miss computes from the fetched battle log. */
  function PredictFromBattles(battles: seq<Battle>, mode: string): (r: Result<seq<DeckRanking.RankedDeck>, Error>)
    ensures r.Err? ==> r.error.status == 404
    ensures r.Ok? ==> 0 < |r.value| <= 3
  {
    var filtered := FilterByMode(battles, mode);
    if filtered == [] then Err(Error(404, NoBattlesForMode))
    else if DeckRanking.Tally(filtered) == [] then Err(Error(404, NoValidDeckData))
    else Ok(DeckRanking.RankDecks(DeckRanking.Tally(filtered)))
  }

  /** A miss fails with 404 exactly when the mode has no battles or none has a readable deck;
      otherwise it reports at most three canonical decks with their shares. */
  lemma PredictOutcome(battles: seq<Battle>, mode: string)
    ensures var filtered := FilterByMode(battles, mode); var r := PredictFromBattles(battles, mode);
      (r == Err(Error(404, NoBattlesForMode)) <==> filtered == []) &&
      (r == Err(Error(404, NoValidDeckData)) <==> filtered != [] && DeckRanking.WithDeck(filtered) == 0) &&
      (r.Ok? ==> 0 < |r.value| <= 3 && forall i :: 0 <= i < |r.value| ==>
          r.value[i].confidence == Ratio(DeckRanking.Occurrences(filtered, r.value[i].deck), DeckRanking.WithDeck(filtered)))
  {
    var filtered := FilterByMode(battles, mode);
    DeckRanking.TallyEmpty(filtered);
    DeckRanking.RankedTally(filtered);
  }

  /** The counted battles never exceed the battles of the mode. */
  lemma PredictCountsBounded(battles: seq<Battle>, mode: string)
    ensures DeckRanking.Sum(DeckRanking.Tally(FilterByMode(battles, mode))) <= |FilterByMode(battles, mode)| <= |battles|
  {
    DeckRanking.TallySum(FilterByMode(battles, mode));
  }

  /** predict_player_decks: validate the mode, serve a fresh cached analysis, otherwise fetch,
      filter, count and rank, and store the analysis under "tag:mode". */
  method PredictPlayerDecks(playerTag: string, gameMode: string,
                            store: Helpers.BattleLogStore<DeckAnalysis>,
                            fetched: Result<seq<Battle>, Error>, now: int)
    returns (r: Result<Prediction, Error>)
    modifies store
    ensures !IsGameMode(gameMode) ==> r == Err(Error(400, InvalidGameMode)) && store.logs == old(store.logs)
    ensures IsGameMode(gameMode) ==>
      var key := CacheKey(playerTag, gameMode);
      var hit := Helpers.LookupFresh(old(store.logs), key, now, Config.BattleLogCacheMinutes);
      if hit.Some? then
        r == Ok(Prediction(playerTag, hit.value.analysis.top3, true)) && store.logs == old(store.logs)
      else if fetched.Err? then
        r == Err(fetched.error) && store.logs == old(store.logs)
      else
        var outcome := PredictFromBattles(fetched.value, gameMode);
        if outcome.Err? then
          r == Err(outcome.error) && store.logs == old(store.logs)
        else
          r == Ok(Prediction(playerTag, outcome.value, false)) &&
          store.logs == old(store.logs)[key := Helpers.LogRow(FilterByMode(fetched.value, gameMode),
                                                              DeckAnalysis(outcome.value, gameMode), now)]
  {
    if !IsGameMode(gameMode) {
      return Err(Error(400, InvalidGameMode));
    }
    var cacheKey := CacheKey(playerTag, gameMode);
    var cachedData := store.GetCachedBattleLog(cacheKey, now, Config.BattleLogCacheMinutes);
    if cachedData.Some? {
      return Ok(Prediction(playerTag, cachedData.value.analysis.top3, true));
    }
    if fetched.Err? {
      return Err(fetched.error);
    }
    var battles := fetched.value;
    var filteredBattles := FilterByMode(battles, gameMode);
    if filteredBattles == [] {
      return Err(Error(404, NoBattlesForMode));
    }
    var counts := DeckRanking.CountDecks(filteredBattles);
    if counts == [] {
      return Err(Error(404, NoValidDeckData));
    }
    var decks := DeckRanking.RankDecks(counts);
    store.SaveBattleLog(cacheKey, filteredBattles, DeckAnalysis(decks, gameMode), now);
    return Ok(Prediction(playerTag, decks, false));
  }

  // ---------------------------------------------------------------- get_player_stats

  datatype RecentBattle = RecentBattle(
    battleType: string,
    battleTime: string,
    result: Outcome,
    crowns: int,
    opponentCrowns: int,
    deck: seq<string>,
    arena: Option<string>,
    playerTrophies: Option<int>,
    opponentName: Option<string>,
    opponentTrophies: Option<int>)

  /** The summary of one battle that has a team. */
  function Summarize(b: Battle): (rb: RecentBattle)
    requires HasTeam(b)
    ensures rb.result == Win <==> TeamCrowns(b) > OpponentCrowns(b)
    ensures rb.result == Loss <==> OpponentCrowns(b) > TeamCrowns(b)
    ensures rb.result == Draw <==> TeamCrowns(b) == OpponentCrowns(b)
  {
    var team := b.team[0];
    var opponent := FirstSide(b.opponent);
    RecentBattle(
      if b.battleType.Some? then b.battleType.value else "unknown",
      if b.battleTime.Some? then b.battleTime.value.raw else "",
      OutcomeOf(b), TeamCrowns(b), OpponentCrowns(b),
      if team.cards.Some? then team.cards.value else [],
      b.arena, team.startingTrophies, opponent.name, opponent.startingTrophies)
  }

  /** The summaries of the battles of s that have a team, in order. */
  function Summaries(s: seq<Battle>): (r: seq<RecentBattle>)
    ensures |r| <= |s|
  {
    if s == [] then []
    else Summaries(s[..|s| - 1]) + (if HasTeam(s[|s| - 1]) then [Summarize(s[|s| - 1])] else [])
  }

  /** The summaries keep log order: a concatenation is summarised part by part, and one battle
      gives its summary iff it has a team entry. */
  lemma {:induction false} SummariesAppend(a: seq<Battle>, b: seq<Battle>)
    ensures Summaries(a + b) == Summaries(a) + Summaries(b)
    decreases |b|
  {
    if b == [] {
      assert a + b == a;
    } else {
      var n := |b| - 1;
      assert (a + b)[..|a| + n] == a + b[..n];
      assert (a + b)[|a| + n] == b[n];
      SummariesAppend(a, b[..n]);
      var tail := if HasTeam(b[n]) then [Summarize(b[n])] else [];
      assert Summaries(a + b) == (Summaries(a) + Summaries(b[..n])) + tail;
      assert Summaries(b) == Summaries(b[..n]) + tail;
    }
  }

  /** One battle gives its summary iff it has a team entry. */
  lemma SummariesOne(x: Battle)
    ensures Summaries([x]) == if HasTeam(x) then [Summarize(x)] else []
  {
    assert [x][..0] == [];
  }

  /** Each summary is that of a battle of the log that has a team entry. */
  lemma {:induction false} SummariesFromTeams(s: seq<Battle>)
    ensures forall x :: x in Summaries(s) ==> exists b :: b in s && HasTeam(b) && x == Summarize(b)
  {
    if s != [] {
      var init, last := s[..|s| - 1], s[|s| - 1];
      var tail := if HasTeam(last) then [Summarize(last)] else [];
      assert Summaries(s) == Summaries(init) + tail;
      SummariesFromTeams(init);
      forall x | x in Summaries(s)
        ensures exists b :: b in s && HasTeam(b) && x == Summarize(b)
      {
        if x in Summaries(init) {
          var b :| b in init && HasTeam(b) && x == Summarize(b);
          assert b in s;
        } else {
          assert x in tail;
          assert last in s;
        }
      }
    }
  }

  /** When every battle has a team entry, the summaries are the battles' summaries one for one. */
  lemma {:induction false} SummariesOneForOne(s: seq<Battle>)
    requires forall i :: 0 <= i < |s| ==> HasTeam(s[i])
    ensures |Summaries(s)| == |s|
    ensures forall i :: 0 <= i < |s| ==> Summaries(s)[i] == Summarize(s[i])
  {
    if s != [] {
      var init, last := s[..|s| - 1], s[|s| - 1];
      assert forall i :: 0 <= i < |init| ==> HasTeam(init[i]) by {
        forall i | 0 <= i < |init| ensures HasTeam(init[i]) { assert init[i] == s[i]; }
      }
      SummariesOneForOne(init);
      assert HasTeam(last);
      assert Summaries(s) == Summaries(init) + [Summarize(last)];
      forall i | 0 <= i < |s| ensures Summaries(s)[i] == Summarize(s[i]) {
        if i < |init| { assert s[i] == init[i]; }
      }
    }
  }

  /** The battles whose decks make up a player's top decks. */
  function RankedBattles(s: seq<Battle>): (r: seq<Battle>)
    ensures forall b :: b in r <==> b in s && IsRanked(b)
  {
    if s == [] then []
    else
      (if IsRanked(s[0]) then [s[0]] else []) + RankedBattles(s[1..])
  }

  predicate IsRanked(b: Battle) {
    b.battleType.Some? && b.battleType.value in ["pathOfLegend", "ladder"]
  }

  /** Each ranked or ladder battle is kept as many times as it occurs, and no other. */
  lemma {:induction false} RankedBattlesCounts(s: seq<Battle>, x: Battle)
    ensures multiset(RankedBattles(s))[x] == if IsRanked(x) then multiset(s)[x] else 0
  {
    if s != [] {
      assert s == [s[0]] + s[1..];
      RankedBattlesCounts(s[1..], x);
    }
  }

  /** The filter keeps the log's order: filtering a concatenation filters each part. */
  lemma {:induction false} RankedBattlesAppend(a: seq<Battle>, b: seq<Battle>)
    ensures RankedBattles(a + b) == RankedBattles(a) + RankedBattles(b)
    ensures forall x :: RankedBattles([x]) == if IsRanked(x) then [x] else []
  {
    if a == [] {
      assert a + b == b;
    } else {
      assert (a + b)[0] == a[0] && (a + b)[1..] == a[1..] + b;
      RankedBattlesAppend(a[1..], b);
      var h := if IsRanked(a[0]) then [a[0]] else [];
      assert RankedBattles(a + b) == h + (RankedBattles(a[1..]) + RankedBattles(b));
      assert h + (RankedBattles(a[1..]) + RankedBattles(b)) == (h + RankedBattles(a[1..])) + RankedBattles(b);
    }
    forall x ensures RankedBattles([x]) == if IsRanked(x) then [x] else [] {
      assert [x][1..] == [];
    }
  }

  datatype PlayerStats = PlayerStats(
    playerTag: string,
    name: string,
    trophies: int,
    bestTrophies: int,
    level: int,
    arena: string,
    clan: Option<string>,
    clanTag: Option<string>,
    totalBattles: nat,
    wins: nat,
    losses: nat,
    winRate: Ratio,
    recentBattles: seq<RecentBattle>,
    topDecks: seq<DeckRanking.RankedDeck>)

  /** The recent-battles loop: one summary per battle of the window that has a team entry. */
  method RecentBattles(window: seq<Battle>) returns (recentBattles: seq<RecentBattle>)
    ensures recentBattles == Summaries(window)
  {
    recentBattles := [];
    var i := 0;
    while i < |window|
      invariant 0 <= i <= |window|
      invariant recentBattles == Summaries(window[..i])
    {
      assert window[..i + 1][..i] == window[..i];
      var battle := window[i];
      if HasTeam(battle) {
        recentBattles := recentBattles + [Summarize(battle)];
      }
      i := i + 1;
    }
    assert window[..i] == window;
  }

  method GetPlayerStats(playerTag: string, profile: Result<Profile, Error>, log: Result<seq<Battle>, Error>)
    returns (r: Result<PlayerStats, Error>)
    ensures profile.Err? ==> r == Err(profile.error)
    ensures profile.Ok? && log.Err? ==> r == Err(log.error)
    ensures profile.Ok? && log.Ok? ==>
      r.Ok? &&
      var battles := log.value; var st := r.value;
      st.wins == Helpers.RecordWins(battles) && st.losses == Helpers.RecordLosses(battles) &&
      st.totalBattles == st.wins + st.losses &&
      st.recentBattles == Summaries(battles[..DeckRanking.Min(10, |battles|)]) &&
      |st.recentBattles| <= 10 &&
      st.topDecks == DeckRanking.RankDecks(DeckRanking.Tally(RankedBattles(battles))) &&
      st.name == (if profile.value.name.Some? then profile.value.name.value else "Unknown")
  {
    if profile.Err? {
      return Err(profile.error);
    }
    if log.Err? {
      return Err(log.error);
    }
    var playerData := profile.value;
    var battles := log.value;

    var totalWins, totalLosses := Helpers.CalculateWinsLosses(battles);
    var totalBattles := totalWins + totalLosses;
    var winRate := if totalBattles > 0 then Ratio(100 * totalWins, totalBattles) else Ratio(0, 1);

    var recentBattles := RecentBattles(battles[..DeckRanking.Min(10, |battles|)]);

    var counts := DeckRanking.CountDecks(RankedBattles(battles));
    var topDecks := DeckRanking.RankDecks(counts);

    r := Ok(PlayerStats(
      playerTag,
      if playerData.name.Some? then playerData.name.value else "Unknown",
      GetOr(playerData.trophies, 0),
      GetOr(playerData.bestTrophies, 0),
      GetOr(playerData.expLevel, 1),
      if playerData.arena.Some? then playerData.arena.value else "Unknown Arena",
      playerData.clanName,
      playerData.clanTag,
      totalBattles, totalWins, totalLosses, winRate,
      recentBattles, topDecks));
  }
}
