/**
 The clan endpoints: starting to track a clan, reading its tracking status,
 capturing a snapshot on demand, and the live clan statistics with their
 period filter, rate limit and response cache.

 Each upstream call is an input: the payload or the error it raised. The
 clock (seconds) and the day number are inputs too.
 */
module ClanRoutes {
  import opened Common
  import opened Upstream
  import opened Text
  import Config
  import Validation
  import Helpers
  import ClanStore
  import RateLimiting

  // ---------------------------------------------------------------- tracking

  datatype TrackMessage = AlreadyTracked | TrackingStarted

  datatype TrackResponse = TrackResponse(
    message: TrackMessage,
    clanTag: string,
    clanName: string,
    trackingStarted: int,
    snapshotCreated: bool)

  /** start_tracking_clan: a clan with a row already (active or not) is reported as tracked and
      nothing is written; otherwise the clan is stored, active, and a first snapshot attempted. */
  method StartTrackingClan(db: ClanStore.Database, clanTag: string, now: int, today: int,
                           clanInfo: Result<ClanInfo, Error>, userId: Option<int>,
                           membersFetch: Result<seq<Member>, Error>,
                           riverFetch: Result<seq<Race>, Error>,
                           logOf: string -> Result<seq<Battle>, Error>)
    returns (r: Result<TrackResponse, Error>)
    requires db.Valid()
    modifies db
    ensures db.Valid()
    ensures var v := Validation.ValidatePlayerTag(clanTag);
      if v.Err? then
        r == Err(v.error) && db.tracked == old(db.tracked) && db.snapshots == old(db.snapshots)
      else if v.value in old(db.tracked) then
        var t := old(db.tracked)[v.value];
        r == Ok(TrackResponse(AlreadyTracked, t.clanTag, t.clanName, t.trackingStarted, false)) &&
        db.tracked == old(db.tracked) && db.snapshots == old(db.snapshots)
      else if clanInfo.Err? then
        r == Err(clanInfo.error) && db.tracked == old(db.tracked) && db.snapshots == old(db.snapshots)
      else
        var name := if clanInfo.value.name.Some? then clanInfo.value.name.value else "Unknown";
        db.tracked == old(db.tracked)[v.value := ClanStore.TrackedClan(v.value, name, now, userId, true)] &&
        r.Ok? && r.value.message == TrackingStarted && r.value.clanTag == v.value &&
        r.value.clanName == name && r.value.trackingStarted == now &&
        (r.value.snapshotCreated <==> !ClanStore.HasSnapshot(old(db.snapshots), v.value, today) && membersFetch.Ok?) &&
        db.snapshots == if r.value.snapshotCreated
                        then old(db.snapshots) + ClanStore.SnapshotRows(v.value, today, membersFetch.value,
                                                   if riverFetch.Ok? then riverFetch.value else [], logOf)
                        else old(db.snapshots)
  {
    var validated := Validation.ValidatePlayerTag(clanTag);
    if validated.Err? {
      return Err(validated.error);
    }
    var validatedClanTag := validated.value;
    if validatedClanTag in db.tracked {
      var tracked := db.tracked[validatedClanTag];
      return Ok(TrackResponse(AlreadyTracked, tracked.clanTag, tracked.clanName, tracked.trackingStarted, false));
    }
    if clanInfo.Err? {
      return Err(clanInfo.error);
    }
    var clanName := if clanInfo.value.name.Some? then clanInfo.value.name.value else "Unknown";
    var trackedClan := ClanStore.TrackedClan(validatedClanTag, clanName, now, userId, true);
    db.tracked := db.tracked[validatedClanTag := trackedClan];
    var snapshotCreated := db.CreateClanSnapshot(validatedClanTag, today, membersFetch, riverFetch, logOf);
    return Ok(TrackResponse(TrackingStarted, validatedClanTag, clanName, now, snapshotCreated));
  }

  datatype TrackingStatus = TrackingStatus(isTracked: bool, trackingSince: Option<int>, clanName: Option<string>)

  /** get_tracking_status: tracked means a row that is active. */
  function GetTrackingStatus(db: ClanStore.Database, clanTag: string): (r: Result<TrackingStatus, Error>)
    reads db
    ensures Validation.ValidatePlayerTag(clanTag).Err? ==> r == Err(Validation.ValidatePlayerTag(clanTag).error)
    ensures r.Ok? ==>
      var v := Validation.ValidatePlayerTag(clanTag).value;
      (r.value.isTracked <==> v in db.tracked && db.tracked[v].isActive) &&
      (r.value.isTracked ==> r.value == TrackingStatus(true, Some(db.tracked[v].trackingStarted), Some(db.tracked[v].clanName))) &&
      (!r.value.isTracked ==> r.value == TrackingStatus(false, None, None))
  {
    var validated := Validation.ValidatePlayerTag(clanTag);
    if validated.Err? then Err(validated.error)
    else
      var v := validated.value;
      if v in db.tracked && db.tracked[v].isActive then
        Ok(TrackingStatus(true, Some(db.tracked[v].trackingStarted), Some(db.tracked[v].clanName)))
      else Ok(TrackingStatus(false, None, None))
  }

  datatype SnapshotMessage = SnapshotCreated | SnapshotAlreadyExists

  /** The response echoes the clan tag as it was given, not the validated form. */
  datatype SnapshotResponse = SnapshotResponse(message: SnapshotMessage, created: bool, clanTag: string, date: int)

  /** create_snapshot: 404 unless the clan is tracked and active; otherwise the service decides. */
  method CreateSnapshot(db: ClanStore.Database, clanTag: string, today: int,
                        membersFetch: Result<seq<Member>, Error>,
                        riverFetch: Result<seq<Race>, Error>,
                        logOf: string -> Result<seq<Battle>, Error>)
    returns (r: Result<SnapshotResponse, Error>)
    requires db.Valid()
    modifies db
    ensures db.Valid() && db.tracked == old(db.tracked)
    ensures var v := Validation.ValidatePlayerTag(clanTag);
      if v.Err? then r == Err(v.error) && db.snapshots == old(db.snapshots)
      else if !(v.value in old(db.tracked) && old(db.tracked)[v.value].isActive) then
        r == Err(Error(404, ClanNotTracked)) && db.snapshots == old(db.snapshots)
      else
        var created := !ClanStore.HasSnapshot(old(db.snapshots), v.value, today) && membersFetch.Ok?;
        r == Ok(SnapshotResponse(if created then SnapshotCreated else SnapshotAlreadyExists, created, clanTag, today)) &&
        db.snapshots == if created
                        then old(db.snapshots) + ClanStore.SnapshotRows(v.value, today, membersFetch.value,
                                                   if riverFetch.Ok? then riverFetch.value else [], logOf)
                        else old(db.snapshots)
  {
    var validated := Validation.ValidatePlayerTag(clanTag);
    if validated.Err? {
      return Err(validated.error);
    }
    var validatedClanTag := validated.value;
    if !(validatedClanTag in db.tracked && db.tracked[validatedClanTag].isActive) {
      return Err(Error(404, ClanNotTracked));
    }
    var created := db.CreateClanSnapshot(validatedClanTag, today, membersFetch, riverFetch, logOf);
    return Ok(SnapshotResponse(if created then SnapshotCreated else SnapshotAlreadyExists, created, clanTag, today));
  }

  // ---------------------------------------------------------------- get_clan_stats

  predicate IsPeriod(period: string) { period in ["week", "2weeks", "month", "all"] }

  /** The cache key "clan_stats:{tag}:{period}". */
  function StatsKey(validatedTag: string, period: string): string {
    "clan_stats:" + validatedTag + ":" + period
  }

  /** The text before the first ':' of v + ":" + rest is v, when v has no ':'. */
  lemma {:induction false} FirstFieldOfJoin(v: string, rest: string)
    requires ':' !in v
    ensures FirstField(v + ":" + rest, ':') == v
  {
    if v != [] {
      assert (v + ":" + rest)[1..] == v[1..] + ":" + rest;
      FirstFieldOfJoin(v[1..], rest);
    }
  }

  lemma SplitAtColon(a: string, b: string, c: string, d: string)
    requires ':' !in a && ':' !in c
    requires a + ":" + b == c + ":" + d
    ensures a == c && b == d
  {
    FirstFieldOfJoin(a, b);
    FirstFieldOfJoin(c, d);
    var x := a + ":" + b;
    assert b == x[|a| + 1..];
    assert d == (c + ":" + d)[|c| + 1..];
  }

  /** An accepted tag is '#' and then letters and digits only. */
  lemma ValidatedTagHasNoColon(tag: string)
    requires Validation.ValidatePlayerTag(tag).Ok?
    ensures ':' !in Validation.ValidatePlayerTag(tag).value
  {
    Validation.ValidatePlayerTagAccepts(tag);
    Validation.UpperAlnum(Validation.TagBody(tag));
  }

  /** Different accepted tags or different periods never share a cache entry. */
  lemma StatsKeyInjective(tag1: string, period1: string, tag2: string, period2: string)
    requires Validation.ValidatePlayerTag(tag1).Ok? && Validation.ValidatePlayerTag(tag2).Ok?
    ensures var v1 := Validation.ValidatePlayerTag(tag1).value; var v2 := Validation.ValidatePlayerTag(tag2).value;
      StatsKey(v1, period1) == StatsKey(v2, period2) ==> v1 == v2 && period1 == period2
  {
    ValidatedTagHasNoColon(tag1);
    ValidatedTagHasNoColon(tag2);
    StatsKeySplits(Validation.ValidatePlayerTag(tag1).value, period1, Validation.ValidatePlayerTag(tag2).value, period2);
  }

  /** Keys built from colon-free tags determine the tag and the period. */
  lemma StatsKeySplits(v1: string, period1: string, v2: string, period2: string)
    requires ':' !in v1 && ':' !in v2
    ensures StatsKey(v1, period1) == StatsKey(v2, period2) ==> v1 == v2 && period1 == period2
  {
    var prefix := "clan_stats:";
    if StatsKey(v1, period1) == StatsKey(v2, period2) {
      assert StatsKey(v1, period1) == prefix + (v1 + ":" + period1);
      assert StatsKey(v2, period2) == prefix + (v2 + ":" + period2);
      assert v1 + ":" + period1 == StatsKey(v1, period1)[|prefix|..];
      assert v2 + ":" + period2 == StatsKey(v2, period2)[|prefix|..];
      SplitAtColon(v1, period1, v2, period2);
    }
  }

  /** A battle with no battleTime is skipped; one whose time does not parse raises. */
  predicate Malformed(b: Battle) { b.battleTime.Some? && b.battleTime.value.parsed.None? }

  predicate KeptSince(b: Battle, cutoff: int) {
    b.battleTime.Some? && b.battleTime.value.parsed.Some? && b.battleTime.value.parsed.value >= cutoff
  }

  /** The battles at or after the cutoff, in order, or None when some battleTime does not parse. */
  function Since(battles: seq<Battle>, cutoff: int): (r: Option<seq<Battle>>)
    ensures r.None? <==> exists i :: 0 <= i < |battles| && Malformed(battles[i])
    ensures r.Some? ==> forall b :: b in r.value <==> b in battles && KeptSince(b, cutoff)
    ensures r.Some? ==> |r.value| <= |battles|
  {
    if battles == [] then Some([])
    else
      var n := |battles| - 1;
      var b := battles[n];
      var head := Since(battles[..n], cutoff);
      assert forall i :: 0 <= i < n ==> battles[..n][i] == battles[i];
      if head.None? then None
      else if Malformed(b) then None
      else
        assert battles == battles[..n] + [b];
        Some(head.value + if KeptSince(b, cutoff) then [b] else [])
  }

  /** The filter keeps the log's order: a concatenation keeps each part's battles in turn,
      and fails when either part does. */
  lemma {:induction false} SinceAppend(a: seq<Battle>, b: seq<Battle>, cutoff: int)
    ensures Since(a + b, cutoff) ==
      if Since(a, cutoff).None? || Since(b, cutoff).None? then None
      else Some(Since(a, cutoff).value + Since(b, cutoff).value)
    decreases |b|
  {
    if b == [] {
      assert a + b == a;
      assert Since(a, cutoff).Some? ==> Since(a, cutoff).value + [] == Since(a, cutoff).value;
    } else {
      var n := |b| - 1;
      assert (a + b)[..|a| + n] == a + b[..n];
      assert (a + b)[|a| + n] == b[n];
      SinceAppend(a, b[..n], cutoff);
      var sa, sb := Since(a, cutoff), Since(b[..n], cutoff);
      if sa.Some? && sb.Some? && !Malformed(b[n]) {
        var tail := if KeptSince(b[n], cutoff) then [b[n]] else [];
        assert Since(a + b, cutoff) == Some((sa.value + sb.value) + tail);
        assert Since(b, cutoff) == Some(sb.value + tail);
        assert (sa.value + sb.value) + tail == sa.value + (sb.value + tail);
      }
    }
  }

  /** Each battle at or after the cutoff is kept as many times as it occurs, and no other. */
  lemma {:induction false} SinceCounts(battles: seq<Battle>, cutoff: int, x: Battle)
    requires Since(battles, cutoff).Some?
    ensures multiset(Since(battles, cutoff).value)[x] == if KeptSince(x, cutoff) then multiset(battles)[x] else 0
  {
    if battles != [] {
      var n := |battles| - 1;
      assert battles == battles[..n] + [battles[n]];
      SinceCounts(battles[..n], cutoff, x);
    }
  }

  /** The time filter loop; a malformed time ends it with the error. */
  method FilterSince(battles: seq<Battle>, cutoff: int) returns (r: Option<seq<Battle>>)
    ensures r == Since(battles, cutoff)
  {
    var filteredBattles: seq<Battle> := [];
    var i := 0;
    while i < |battles|
      invariant 0 <= i <= |battles|
      invariant Since(battles[..i], cutoff) == Some(filteredBattles)
    {
      var battle := battles[i];
      assert battles[..i + 1][..i] == battles[..i];
      if battle.battleTime.Some? {
        if battle.battleTime.value.parsed.None? {
          assert Malformed(battles[i]);
          return None;
        }
        if battle.battleTime.value.parsed.value >= cutoff {
          filteredBattles := filteredBattles + [battle];
        } else {
          assert filteredBattles + [] == filteredBattles;
        }
      } else {
        assert filteredBattles + [] == filteredBattles;
      }
      i := i + 1;
    }
    assert battles[..i] == battles;
    r := Some(filteredBattles);
  }

  datatype ClanMemberStats = ClanMemberStats(
    name: string,
    tag: string,
    donations: int,
    donationsReceived: int,
    warAttacks: int,
    totalWarAttacks: int,
    battles: nat,
    wins: nat,
    losses: nat,
    rankedBattles: nat,
    rankedWins: nat,
    rankedLosses: nat,
    rankedAvgCrowns: Ratio,
    ladderBattles: nat,
    ladderWins: nat,
    ladderLosses: nat,
    ladderAvgCrowns: Ratio,
    lastSeen: Option<string>)

  /** The row of a member whose details could not be fetched: roster donations, zeros elsewhere. */
  function ZeroRow(m: Member): ClanMemberStats {
    ClanMemberStats(m.name, m.tag, GetOr(m.donations, 0), GetOr(m.donationsReceived, 0),
                    0, 0, 0, 0, 0, 0, 0, 0, Ratio(0, 1), 0, 0, 0, Ratio(0, 1), None)
  }

  /** One member's row. The war tally matches standings against the clan tag as given
      in the request, rawClanTag, not the validated tag. */
  function MemberStatsOf(m: Member, rawClanTag: string, races: seq<Race>,
                         profile: Result<Profile, Error>, log: Result<seq<Battle>, Error>, cutoff: int)
    : (row: ClanMemberStats)
    ensures row.name == m.name && row.tag == m.tag
    ensures row.donations == GetOr(m.donations, 0) && row.donationsReceived == GetOr(m.donationsReceived, 0)
    ensures profile.Err? || log.Err? || Since(log.value, cutoff).None? ==> row == ZeroRow(m)
    ensures profile.Ok? && log.Ok? && Since(log.value, cutoff).Some? ==>
      var kept := Since(log.value, cutoff).value;
      row.battles == |kept| <= |log.value| && row.wins + row.losses <= row.battles &&
      row.wins == Helpers.RecordWins(kept) && row.losses == Helpers.RecordLosses(kept) &&
      row.rankedBattles <= row.battles && row.ladderBattles <= row.battles &&
      var ranked := Helpers.ModeTally(kept, "pathOfLegend");
      var ladder := Helpers.ModeTally(kept, "trail");
      row.rankedBattles == ranked.battles && row.rankedWins == ranked.wins &&
      row.rankedLosses == ranked.losses && row.rankedAvgCrowns == Helpers.AvgCrowns(ranked) &&
      row.ladderBattles == ladder.battles && row.ladderWins == ladder.wins &&
      row.ladderLosses == ladder.losses && row.ladderAvgCrowns == Helpers.AvgCrowns(ladder) &&
      row.warAttacks == ClanStore.WarStatsOf(races, rawClanTag, m.tag).warAttacks &&
      row.totalWarAttacks == 4 * ClanStore.Appearances(ClanStore.RaceEntries(ClanStore.FirstRaces(races), rawClanTag), m.tag) &&
      row.lastSeen == profile.value.lastSeen
  {
    if profile.Err? || log.Err? then ZeroRow(m)
    else
      var filtered := Since(log.value, cutoff);
      if filtered.None? then ZeroRow(m)
      else
        var kept := filtered.value;
        var war := ClanStore.WarStatsOf(races, rawClanTag, m.tag);
        ClanStore.TallyCountsAppearances(ClanStore.RaceEntries(ClanStore.FirstRaces(races), rawClanTag), m.tag);
        var ranked := Helpers.ModeTally(kept, "pathOfLegend");
        var ladder := Helpers.ModeTally(kept, "trail");
        Helpers.RecordBounded(kept);
        ClanStore.RecordBattlesBounded(kept);
        Helpers.ModeTallyBounded(kept, "pathOfLegend");
        Helpers.ModeTallyBounded(kept, "trail");
        ClanMemberStats(m.name, m.tag, GetOr(m.donations, 0), GetOr(m.donationsReceived, 0),
                        war.warAttacks, war.totalWarAttacks, |kept|,
                        Helpers.RecordWins(kept), Helpers.RecordLosses(kept),
                        ranked.battles, ranked.wins, ranked.losses, Helpers.AvgCrowns(ranked),
                        ladder.battles, ladder.wins, ladder.losses, Helpers.AvgCrowns(ladder),
                        profile.value.lastSeen)
  }

  /** The per-member block: fetch the profile and the battle log, filter by time, count. */
  method MemberStats(m: Member, rawClanTag: string, races: seq<Race>,
                     profile: Result<Profile, Error>, log: Result<seq<Battle>, Error>, cutoff: int)
    returns (row: ClanMemberStats)
    ensures row == MemberStatsOf(m, rawClanTag, races, profile, log, cutoff)
  {
    if profile.Err? || log.Err? {
      return ZeroRow(m);
    }
    var filteredBattles := FilterSince(log.value, cutoff);
    if filteredBattles.None? {
      return ZeroRow(m);
    }
    var kept := filteredBattles.value;
    var wins, losses := Helpers.CalculateWinsLosses(kept);
    var rankedStats := Helpers.CalculateModeStats(kept, "pathOfLegend");
    var ladderStats := Helpers.CalculateModeStats(kept, "trail");
    var medals, warAttacks, totalWarAttacks := ClanStore.WarTally(races, rawClanTag, m.tag);
    row := ClanMemberStats(m.name, m.tag, GetOr(m.donations, 0), GetOr(m.donationsReceived, 0),
                           warAttacks, totalWarAttacks, |kept|, wins, losses,
                           rankedStats.battles, rankedStats.wins, rankedStats.losses, Helpers.AvgCrowns(rankedStats),
                           ladderStats.battles, ladderStats.wins, ladderStats.losses, Helpers.AvgCrowns(ladderStats),
                           profile.value.lastSeen);
  }

  /** The loop over the roster: one row per member, in roster order. */
  method MemberRows(members: seq<Member>, rawClanTag: string, races: seq<Race>,
                    profileOf: string -> Result<Profile, Error>,
                    logOf: string -> Result<seq<Battle>, Error>, cutoff: int)
    returns (rows: seq<ClanMemberStats>)
    ensures |rows| == |members|
    ensures forall j :: 0 <= j < |members| ==>
      rows[j] == MemberStatsOf(members[j], rawClanTag, races, profileOf(members[j].tag), logOf(members[j].tag), cutoff)
  {
    rows := [];
    var i := 0;
    while i < |members|
      invariant 0 <= i <= |members|
      invariant |rows| == i
      invariant forall j :: 0 <= j < i ==>
        rows[j] == MemberStatsOf(members[j], rawClanTag, races, profileOf(members[j].tag), logOf(members[j].tag), cutoff)
    {
      var member := members[i];
      var row := MemberStats(member, rawClanTag, races, profileOf(member.tag), logOf(member.tag), cutoff);
      rows := rows + [row];
      i := i + 1;
    }
  }

  datatype ClanStats = ClanStats(
    clanName: string,
    clanTag: string,
    members: seq<ClanMemberStats>,
    timePeriod: string,
    isTracked: bool,
    trackingSince: Option<int>)

  /** The cutoff: the period's day count before now. */
  function Cutoff(period: string, now: int): int {
    now - ClanStore.PeriodDays(period) * 86400
  }

  /** The response built on a cache miss: one row per roster member, in roster order. */
  function BuildStats(rawClanTag: string, validatedTag: string, period: string, clanName: string,
                      members: seq<Member>, races: seq<Race>,
                      profileOf: string -> Result<Profile, Error>,
                      logOf: string -> Result<seq<Battle>, Error>, now: int): (st: ClanStats)
    ensures st.clanName == clanName && st.clanTag == validatedTag && st.timePeriod == period
    ensures !st.isTracked && st.trackingSince.None?
    ensures |st.members| == |members|
    ensures forall i :: 0 <= i < |members| ==>
      st.members[i] == MemberStatsOf(members[i], rawClanTag, races, profileOf(members[i].tag),
                                     logOf(members[i].tag), Cutoff(period, now))
  {
    ClanStats(clanName, validatedTag,
              seq(|members|, i requires 0 <= i < |members| =>
                MemberStatsOf(members[i], rawClanTag, races, profileOf(members[i].tag),
                              logOf(members[i].tag), Cutoff(period, now))),
              period, false, None)
  }

  datatype StatsEntry = StatsEntry(response: ClanStats, expiresAt: int)

  function ReadStats(entries: map<string, StatsEntry>, key: string, now: int): Option<ClanStats> {
    if key in entries && now < entries[key].expiresAt then Some(entries[key].response) else None
  }

  /** The clan-statistics entries of the response cache. */
  class StatsCache {
    var entries: map<string, StatsEntry>

    constructor ()
      ensures entries == map[]
    {
      entries := map[];
    }
  }

  /** get_clan_stats: validate the tag, then the period, then the client's rate limit (only when
      there is a request), then serve a live cached response; otherwise fetch and build the
      response and cache it for CLAN_STATS_CACHE_TTL. */
  method GetClanStats(clanTag: string, timePeriod: string, client: Option<string>,
                      limiter: RateLimiting.RateLimiter, cache: StatsCache, now: int,
                      clanInfo: Result<ClanInfo, Error>, membersFetch: Result<seq<Member>, Error>,
                      riverFetch: Result<seq<Race>, Error>,
                      profileOf: string -> Result<Profile, Error>,
                      logOf: string -> Result<seq<Battle>, Error>)
    returns (r: Result<ClanStats, Error>)
    requires limiter.Valid()
    modifies limiter, cache
    ensures limiter.Valid()
    ensures var v := Validation.ValidatePlayerTag(clanTag);
      if v.Err? then
        r == Err(v.error) && limiter.counters == old(limiter.counters) && cache.entries == old(cache.entries)
      else if !IsPeriod(timePeriod) then
        r == Err(Error(400, InvalidTimePeriod)) &&
        limiter.counters == old(limiter.counters) && cache.entries == old(cache.entries)
      else
        var step := RateLimiting.Admit(old(limiter.counters), RateLimiting.General(if client.Some? then client.value else ""), now);
        limiter.counters == (if client.Some? then step.1 else old(limiter.counters)) &&
        if client.Some? && !step.0 then
          r == Err(Error(429, RateLimitExceeded)) && cache.entries == old(cache.entries)
        else
          var key := StatsKey(v.value, timePeriod);
          var hit := ReadStats(old(cache.entries), key, now);
          if hit.Some? then
            r == Ok(hit.value) && cache.entries == old(cache.entries)
          else if clanInfo.Err? then
            r == Err(clanInfo.error) && cache.entries == old(cache.entries)
          else if membersFetch.Err? then
            r == Err(membersFetch.error) && cache.entries == old(cache.entries)
          else
            var name := if clanInfo.value.name.Some? then clanInfo.value.name.value else "Unknown";
            var races := if riverFetch.Ok? then riverFetch.value else [];
            r == Ok(BuildStats(clanTag, v.value, timePeriod, name, membersFetch.value, races, profileOf, logOf, now)) &&
            cache.entries == old(cache.entries)[key := StatsEntry(r.value, now + Config.ClanStatsCacheTtl)]
  {
    var validated := Validation.ValidatePlayerTag(clanTag);
    if validated.Err? {
      return Err(validated.error);
    }
    var validatedClanTag := validated.value;
    if !IsPeriod(timePeriod) {
      return Err(Error(400, InvalidTimePeriod));
    }
    if client.Some? {
      var allowed := limiter.CheckRateLimit(client.value, now);
      if !allowed {
        return Err(Error(429, RateLimitExceeded));
      }
    }
    var cacheKey := StatsKey(validatedClanTag, timePeriod);
    var cached := ReadStats(cache.entries, cacheKey, now);
    if cached.Some? {
      return Ok(cached.value);
    }
    if clanInfo.Err? {
      return Err(clanInfo.error);
    }
    var clanName := if clanInfo.value.name.Some? then clanInfo.value.name.value else "Unknown";
    if membersFetch.Err? {
      return Err(membersFetch.error);
    }
    var members := membersFetch.value;
    var riverRace := if riverFetch.Ok? then riverFetch.value else [];
    var cutoffDate := Cutoff(timePeriod, now);
    var memberStatsList := MemberRows(members, clanTag, riverRace, profileOf, logOf, cutoffDate);
    var responseData := ClanStats(clanName, validatedClanTag, memberStatsList, timePeriod, false, None);
    assert responseData == BuildStats(clanTag, validatedClanTag, timePeriod, clanName, members, riverRace, profileOf, logOf, now);
    cache.entries := cache.entries[cacheKey := StatsEntry(responseData, now + Config.ClanStatsCacheTtl)];
    return Ok(responseData);
  }

  /** Because standings are matched against the tag as given, a clan requested without its '#'
      (say "abc", validated to "#ABC") gets no war attacks from a race in which it took part under
      its validated tag, while the same request with the validated tag gets them. */
  lemma RawTagMissesWarAttacks(rawTag: string, p: Participant, memberTag: string)
    requires Validation.ValidatePlayerTag(rawTag).Ok? && rawTag[0] != '#'
    requires p.tag == Some(memberTag)
    ensures var v := Validation.ValidatePlayerTag(rawTag).value;
      var races := [Race([Standing(Some(v), [p])])];
      ClanStore.WarStatsOf(races, rawTag, memberTag) == ClanStore.WarStats(0, 0, 0) &&
      ClanStore.WarStatsOf(races, v, memberTag) == ClanStore.WarStats(GetOr(p.fame, 0), GetOr(p.decksUsed, 0), 4)
  {
    var v := Validation.ValidatePlayerTag(rawTag).value;
    var races := [Race([Standing(Some(v), [p])])];
    assert v != rawTag by { assert v[0] == '#'; }
    ClanStore.SingleStandingEntries(v, [p], rawTag);
    ClanStore.SingleStandingEntries(v, [p], v);
    assert ClanStore.FirstRaces(races) == races;
    ClanStore.TallyStep([], p, memberTag);
    assert [] + [p] == [p];
  }
}
