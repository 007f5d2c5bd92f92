/**
 Clan tracking: the tracked-clan and member-snapshot tables, the war tally
 over a clan's river-race log, the daily snapshot capture, and the
 historical deltas between today's snapshot and the start of a period.

 Dates are day numbers and times are seconds; "today" and "now" are inputs.
 The tables are in-memory: query results come back in insertion order.
 */
module ClanStore {
  import opened Common
  import opened Upstream
  import Helpers

  /** A row of tracked_clans, keyed by its clan tag. */
  datatype TrackedClan = TrackedClan(
    clanTag: string,
    clanName: string,
    trackingStarted: int,
    trackedByUserId: Option<int>,
    isActive: bool)

  /** A row of clan_member_snapshots (the surrogate id and creation time left out). */
  datatype SnapshotRow = SnapshotRow(
    clanTag: string,
    playerTag: string,
    playerName: string,
    donationsGiven: int,
    donationsReceived: int,
    warAttacks: int,
    totalWarAttacks: int,
    medals: int,
    battles: int,
    wins: int,
    losses: int,
    snapshotDate: int)

  /** Period names to day counts; any other name counts as a week. */
  function PeriodDays(period: string): (days: nat)
    ensures period !in {"2weeks", "month", "all"} ==> days == 7
    ensures period == "2weeks" ==> days == 14
    ensures period == "month" ==> days == 30
    ensures period == "all" ==> days == 9999
  {
    if period == "week" then 7
    else if period == "2weeks" then 14
    else if period == "month" then 30
    else if period == "all" then 9999
    else 7
  }

  // ---------------------------------------------------------------- war tally

  datatype WarStats = WarStats(medals: int, warAttacks: int, totalWarAttacks: int)

  function Plus(a: WarStats, b: WarStats): WarStats {
    WarStats(a.medals + b.medals, a.warAttacks + b.warAttacks, a.totalWarAttacks + b.totalWarAttacks)
  }

  lemma PlusAssoc(a: WarStats, b: WarStats, c: WarStats)
    ensures Plus(Plus(a, b), c) == Plus(a, Plus(b, c))
  {
  }

  /** The participant entries of the standings that belong to the clan, in order. */
  function StandingEntries(standings: seq<Standing>, clanTag: string): seq<Participant> {
    if standings == [] then []
    else
      var last := standings[|standings| - 1];
      StandingEntries(standings[..|standings| - 1], clanTag)
      + (if last.clanTag == Some(clanTag) then last.participants else [])
  }

  /** The clan's participant entries across races, in order. */
  function RaceEntries(races: seq<Race>, clanTag: string): seq<Participant> {
    if races == [] then []
    else RaceEntries(races[..|races| - 1], clanTag) + StandingEntries(races[|races| - 1].standings, clanTag)
  }

  /** The five most recent races of the log. */
  function FirstRaces(races: seq<Race>): (r: seq<Race>)
    ensures |r| <= 5 && r <= races
    ensures |races| <= 5 ==> r == races
    ensures |r| == if |races| < 5 then |races| else 5
  {
    if |races| <= 5 then races else races[..5]
  }

  /** How many of the entries are the member's. */
  function Appearances(entries: seq<Participant>, memberTag: string): nat {
    if entries == [] then 0
    else Appearances(entries[..|entries| - 1], memberTag) + (if entries[|entries| - 1].tag == Some(memberTag) then 1 else 0)
  }

  /** Each of the member's entries adds its fame, its decks used and 4 possible attacks. */
  function Tally(entries: seq<Participant>, memberTag: string): WarStats {
    if entries == [] then WarStats(0, 0, 0)
    else Plus(Tally(entries[..|entries| - 1], memberTag), Contribution(entries[|entries| - 1], memberTag))
  }

  /** Every appearance of the member counts 4 possible attacks, and a member who never
      appears gets all zeros. */
  lemma {:induction false} TallyCountsAppearances(entries: seq<Participant>, memberTag: string)
    ensures Tally(entries, memberTag).totalWarAttacks == 4 * Appearances(entries, memberTag)
    ensures Appearances(entries, memberTag) == 0 ==> Tally(entries, memberTag) == WarStats(0, 0, 0)
  {
    if entries != [] {
      TallyCountsAppearances(entries[..|entries| - 1], memberTag);
    }
  }

  /** What one participant entry adds to the member's tally. */
  function Contribution(p: Participant, memberTag: string): WarStats {
    if p.tag == Some(memberTag) then WarStats(GetOr(p.fame, 0), GetOr(p.decksUsed, 0), 4)
    else WarStats(0, 0, 0)
  }

  lemma TallyStep(s: seq<Participant>, p: Participant, memberTag: string)
    ensures Tally(s + [p], memberTag) == Plus(Tally(s, memberTag), Contribution(p, memberTag))
  {
    assert (s + [p])[..|s|] == s;
  }

  lemma {:induction false} TallyAppend(a: seq<Participant>, b: seq<Participant>, memberTag: string)
    ensures Tally(a + b, memberTag) == Plus(Tally(a, memberTag), Tally(b, memberTag))
    decreases |b|
  {
    if b == [] {
      assert a + b == a;
    } else {
      var n := |b| - 1;
      var init, x := b[..n], b[n];
      assert b == init + [x];
      assert a + b == (a + init) + [x];
      TallyAppend(a, init, memberTag);
      TallyAppendStep(a, init, x, memberTag);
    }
  }

  lemma TallyPrefixStep(s: seq<Participant>, k: nat, memberTag: string)
    requires k < |s|
    ensures Tally(s[..k + 1], memberTag) == Plus(Tally(s[..k], memberTag), Contribution(s[k], memberTag))
  {
    assert s[..k + 1] == s[..k] + [s[k]];
    TallyStep(s[..k], s[k], memberTag);
  }

  lemma TallyAppendStep(a: seq<Participant>, init: seq<Participant>, x: Participant, memberTag: string)
    requires Tally(a + init, memberTag) == Plus(Tally(a, memberTag), Tally(init, memberTag))
    ensures Tally((a + init) + [x], memberTag) == Plus(Tally(a, memberTag), Tally(init + [x], memberTag))
  {
    TallyStep(a + init, x, memberTag);
    TallyStep(init, x, memberTag);
  }

  /** A log of one race with one standing yields that standing's entries exactly when its tag matches. */
  lemma SingleStandingEntries(t: string, ps: seq<Participant>, clanTag: string)
    ensures RaceEntries([Race([Standing(Some(t), ps)])], clanTag) == if t == clanTag then ps else []
  {
    var st := Standing(Some(t), ps);
    var own := if t == clanTag then ps else [];
    assert [st][..0] == [];
    assert StandingEntries([st], clanTag) == StandingEntries([], clanTag) + own;
    assert StandingEntries([st], clanTag) == own;
    assert [Race([st])][..0] == [];
    assert RaceEntries([Race([st])], clanTag) == RaceEntries([], clanTag) + StandingEntries([st], clanTag);
  }

  /** The war statistics one member gets from a clan's river-race log. */
  function WarStatsOf(races: seq<Race>, clanTag: string, memberTag: string): WarStats {
    Tally(RaceEntries(FirstRaces(races), clanTag), memberTag)
  }

  /** Standings of other clans never count: a race whose standings all belong to
      other clans leaves the tally unchanged. */
  lemma {:induction false} OtherClansIgnored(standings: seq<Standing>, clanTag: string)
    requires forall i :: 0 <= i < |standings| ==> standings[i].clanTag != Some(clanTag)
    ensures StandingEntries(standings, clanTag) == []
  {
    if standings != [] {
      OtherClansIgnored(standings[..|standings| - 1], clanTag);
    }
  }

  /** Races after the fifth never count. */
  lemma OnlyFiveRaces(races: seq<Race>, later: seq<Race>, clanTag: string, memberTag: string)
    requires |races| >= 5
    ensures WarStatsOf(races + later, clanTag, memberTag) == WarStatsOf(races, clanTag, memberTag)
  {
    assert (races + later)[..5] == races[..5];
    if |races| == 5 {
      assert races[..5] == races;
    }
    assert FirstRaces(races + later) == FirstRaces(races);
  }

  /** One participant entry: the member's entry adds its fame, its decks used and 4 attacks. */
  method AddEntry(total: WarStats, p: Participant, memberTag: string) returns (next: WarStats)
    ensures next == Plus(total, Contribution(p, memberTag))
    ensures p.tag != Some(memberTag) ==> next == total
  {
    next := total;
    if p.tag == Some(memberTag) {
      next := WarStats(total.medals + GetOr(p.fame, 0), total.warAttacks + GetOr(p.decksUsed, 0),
                       total.totalWarAttacks + 4);
    }
  }

  /** The innermost loop: add what the member's entries among the participants contribute. */
  method AddParticipants(participants: seq<Participant>, memberTag: string, acc: WarStats)
    returns (total: WarStats)
    ensures total == Plus(acc, Tally(participants, memberTag))
  {
    total := acc;
    var k := 0;
    while k < |participants|
      invariant 0 <= k <= |participants|
      invariant total == Plus(acc, Tally(participants[..k], memberTag))
    {
      var p := participants[k];
      TallyPrefixStep(participants, k, memberTag);
      PlusAssoc(acc, Tally(participants[..k], memberTag), Contribution(p, memberTag));
      total := AddEntry(total, p, memberTag);
      k := k + 1;
    }
    assert participants[..k] == participants;
  }

  /** The middle loop: only the standings whose clan tag is clanTag contribute. */
  method AddStandings(standings: seq<Standing>, clanTag: string, memberTag: string, acc: WarStats)
    returns (total: WarStats)
    ensures total == Plus(acc, Tally(StandingEntries(standings, clanTag), memberTag))
  {
    total := acc;
    var j := 0;
    while j < |standings|
      invariant 0 <= j <= |standings|
      invariant total == Plus(acc, Tally(StandingEntries(standings[..j], clanTag), memberTag))
    {
      var standing := standings[j];
      ghost var mid := StandingEntries(standings[..j], clanTag);
      assert standings[..j + 1][..j] == standings[..j];
      if standing.clanTag == Some(clanTag) {
        total := AddParticipants(standing.participants, memberTag, total);
        TallyAppend(mid, standing.participants, memberTag);
      } else {
        assert StandingEntries(standings[..j + 1], clanTag) == mid + [];
        assert mid + [] == mid;
      }
      j := j + 1;
    }
    assert standings[..j] == standings;
  }

  /** The war tally of one member: nested loops over the five latest races, their standings
      and their participants. */
  method WarTally(races: seq<Race>, clanTag: string, memberTag: string)
    returns (medals: int, warAttacks: int, totalWarAttacks: int)
    ensures WarStats(medals, warAttacks, totalWarAttacks) == WarStatsOf(races, clanTag, memberTag)
    ensures totalWarAttacks == 4 * Appearances(RaceEntries(FirstRaces(races), clanTag), memberTag)
  {
    var stats := WarStats(0, 0, 0);
    var window := FirstRaces(races);
    var i := 0;
    while i < |window|
      invariant 0 <= i <= |window|
      invariant stats == Tally(RaceEntries(window[..i], clanTag), memberTag)
    {
      ghost var before := RaceEntries(window[..i], clanTag);
      ghost var added := StandingEntries(window[i].standings, clanTag);
      assert window[..i + 1][..i] == window[..i];
      assert RaceEntries(window[..i + 1], clanTag) == before + added;
      stats := AddStandings(window[i].standings, clanTag, memberTag, stats);
      TallyAppend(before, added, memberTag);
      i := i + 1;
    }
    assert window[..i] == window;
    assert stats == WarStatsOf(races, clanTag, memberTag);
    TallyCountsAppearances(RaceEntries(window, clanTag), memberTag);
    medals, warAttacks, totalWarAttacks := stats.medals, stats.warAttacks, stats.totalWarAttacks;
  }

  // ---------------------------------------------------------------- snapshots

  /** The row captured for one member on a day, given the race log and the member's battle log
      (a failed battle-log fetch zeroes battles, wins and losses). */
  function SnapshotOf(clanTag: string, today: int, m: Member, races: seq<Race>,
                      log: Result<seq<Battle>, Error>): (row: SnapshotRow)
    ensures row.clanTag == clanTag && row.snapshotDate == today
    ensures row.playerTag == m.tag && row.playerName == m.name
    ensures log.Err? ==> row.battles == 0 && row.wins == 0 && row.losses == 0
    ensures log.Ok? ==> row.battles == |log.value| &&
                        row.wins == Helpers.RecordWins(log.value) &&
                        row.losses == Helpers.RecordLosses(log.value) &&
                        row.wins + row.losses <= row.battles
    ensures row.donationsGiven == GetOr(m.donations, 0) && row.donationsReceived == GetOr(m.donationsReceived, 0)
    ensures row.medals == WarStatsOf(races, clanTag, m.tag).medals
    ensures row.warAttacks == WarStatsOf(races, clanTag, m.tag).warAttacks
    ensures row.totalWarAttacks == 4 * Appearances(RaceEntries(FirstRaces(races), clanTag), m.tag)
  {
    var war := WarStatsOf(races, clanTag, m.tag);
    TallyCountsAppearances(RaceEntries(FirstRaces(races), clanTag), m.tag);
    var battles := if log.Ok? then |log.value| else 0;
    var wins := if log.Ok? then Helpers.RecordWins(log.value) else 0;
    var losses := if log.Ok? then Helpers.RecordLosses(log.value) else 0;
    assert log.Ok? ==> wins + losses <= battles by {
      if log.Ok? {
        Helpers.RecordBounded(log.value);
        RecordBattlesBounded(log.value);
      }
    }
    SnapshotRow(clanTag, m.tag, m.name, GetOr(m.donations, 0), GetOr(m.donationsReceived, 0),
                war.warAttacks, war.totalWarAttacks, war.medals, battles, wins, losses, today)
  }

  /** The body of the capture loop for one member: the war tally, then the battle counts
      (left at zero when the battle-log fetch failed). */
  method CaptureMember(clanTag: string, today: int, member: Member, riverRace: seq<Race>,
                       battleLog: Result<seq<Battle>, Error>)
    returns (snapshot: SnapshotRow)
    ensures snapshot == SnapshotOf(clanTag, today, member, riverRace, battleLog)
  {
    var medals, warAttacks, totalWarAttacks := WarTally(riverRace, clanTag, member.tag);
    var battleCount, wins, losses := 0, 0, 0;
    if battleLog.Ok? {
      battleCount := |battleLog.value|;
      wins, losses := Helpers.CalculateWinsLosses(battleLog.value);
    }
    snapshot := SnapshotRow(clanTag, member.tag, member.name,
                            GetOr(member.donations, 0), GetOr(member.donationsReceived, 0),
                            warAttacks, totalWarAttacks, medals, battleCount, wins, losses, today);
  }

  lemma {:induction false} RecordBattlesBounded(s: seq<Battle>)
    ensures Helpers.RecordBattles(s) <= |s|
  {
    if s != [] { RecordBattlesBounded(s[..|s| - 1]); }
  }

  /** One row per roster member, in roster order. */
  function SnapshotRows(clanTag: string, today: int, members: seq<Member>, races: seq<Race>,
                        logOf: string -> Result<seq<Battle>, Error>): (rows: seq<SnapshotRow>)
    ensures |rows| == |members|
    ensures forall i :: 0 <= i < |members| ==> rows[i] == SnapshotOf(clanTag, today, members[i], races, logOf(members[i].tag))
  {
    seq(|members|, i requires 0 <= i < |members| => SnapshotOf(clanTag, today, members[i], races, logOf(members[i].tag)))
  }

  /** Whether some row is the clan's for that day. */
  predicate HasSnapshot(rows: seq<SnapshotRow>, clanTag: string, date: int) {
    exists i :: 0 <= i < |rows| && rows[i].clanTag == clanTag && rows[i].snapshotDate == date
  }

  /** After a capture with at least one member the day is taken, so a second capture that
      day writes nothing; an empty roster leaves the day open. */
  lemma CaptureTakesTheDay(rows: seq<SnapshotRow>, clanTag: string, today: int, members: seq<Member>,
                           races: seq<Race>, logOf: string -> Result<seq<Battle>, Error>)
    ensures HasSnapshot(rows + SnapshotRows(clanTag, today, members, races, logOf), clanTag, today) <==>
      HasSnapshot(rows, clanTag, today) || members != []
  {
    var added := SnapshotRows(clanTag, today, members, races, logOf);
    if members != [] {
      assert (rows + added)[|rows|] == added[0];
    }
    if HasSnapshot(rows, clanTag, today) {
      var i :| 0 <= i < |rows| && rows[i].clanTag == clanTag && rows[i].snapshotDate == today;
      assert (rows + added)[i] == rows[i];
    }
    if HasSnapshot(rows + added, clanTag, today) && !HasSnapshot(rows, clanTag, today) {
      var i :| 0 <= i < |rows + added| && (rows + added)[i].clanTag == clanTag && (rows + added)[i].snapshotDate == today;
      if i < |rows| {
        assert (rows + added)[i] == rows[i];
      } else {
        assert |added| > 0;
      }
    }
  }

  /** The tracked-clan and snapshot tables. */
  class Database {
    var tracked: map<string, TrackedClan>
    var snapshots: seq<SnapshotRow>

    /** Every tracked clan is stored under its own tag. */
    predicate Valid()
      reads this
    {
      forall tag :: tag in tracked ==> tracked[tag].clanTag == tag
    }

    constructor ()
      ensures Valid() && tracked == map[] && snapshots == []
    {
      tracked := map[];
      snapshots := [];
    }

    /** create_clan_snapshot: refuse a second capture of the same day, otherwise fetch the roster
        (a failure rolls back) and the race log (a failure counts as no races), and add one row
        per member. */
    method CreateClanSnapshot(clanTag: string, today: int, membersFetch: Result<seq<Member>, Error>,
                              riverFetch: Result<seq<Race>, Error>,
                              logOf: string -> Result<seq<Battle>, Error>)
      returns (created: bool)
      modifies this
      ensures tracked == old(tracked)
      ensures HasSnapshot(old(snapshots), clanTag, today) ==> !created && snapshots == old(snapshots)
      ensures !HasSnapshot(old(snapshots), clanTag, today) && membersFetch.Err? ==>
        !created && snapshots == old(snapshots)
      ensures !HasSnapshot(old(snapshots), clanTag, today) && membersFetch.Ok? ==>
        created &&
        snapshots == old(snapshots) + SnapshotRows(clanTag, today, membersFetch.value,
                                                   if riverFetch.Ok? then riverFetch.value else [], logOf)
    {
      var existing := FindSnapshot(clanTag, today);
      if existing {
        return false;
      }
      if membersFetch.Err? {
        return false;
      }
      var members := membersFetch.value;
      var riverRace := if riverFetch.Ok? then riverFetch.value else [];
      ghost var rows := SnapshotRows(clanTag, today, members, riverRace, logOf);
      var i := 0;
      while i < |members|
        invariant 0 <= i <= |members|
        invariant tracked == old(tracked)
        invariant snapshots == old(snapshots) + rows[..i]
      {
        var member := members[i];
        var snapshot := CaptureMember(clanTag, today, member, riverRace, logOf(member.tag));
        assert snapshot == rows[i];
        assert rows[..i + 1] == rows[..i] + [rows[i]];
        snapshots := snapshots + [snapshot];
        i := i + 1;
      }
      assert rows[..i] == rows;
      return true;
    }

    /** The "already captured today" query. */
    method FindSnapshot(clanTag: string, today: int) returns (found: bool)
      ensures found <==> HasSnapshot(snapshots, clanTag, today)
    {
      found := false;
      var i := 0;
      while i < |snapshots|
        invariant 0 <= i <= |snapshots|
        invariant !found
        invariant forall j :: 0 <= j < i ==> !(snapshots[j].clanTag == clanTag && snapshots[j].snapshotDate == today)
      {
        if snapshots[i].clanTag == clanTag && snapshots[i].snapshotDate == today {
          return true;
        }
        i := i + 1;
      }
    }
  }

  // ---------------------------------------------------------------- historical deltas

  /** A member's change over the period; totalWarAttacks is today's value, not a change. */
  datatype MemberDelta = MemberDelta(
    name: string,
    tag: string,
    donations: int,
    donationsReceived: int,
    warAttacks: int,
    totalWarAttacks: int,
    medals: int,
    battles: int,
    wins: int,
    losses: int)

  /** The clan's rows dated from lo (inclusive) to hi (exclusive), in query order. */
  function RowsBetween(rows: seq<SnapshotRow>, clanTag: string, lo: int, hi: int): (r: seq<SnapshotRow>)
    ensures forall x :: x in r <==> x in rows && InRange(x, clanTag, lo, hi)
  {
    if rows == [] then []
    else
      var x := rows[0];
      (if InRange(x, clanTag, lo, hi) then [x] else []) + RowsBetween(rows[1..], clanTag, lo, hi)
  }

  predicate InRange(x: SnapshotRow, clanTag: string, lo: int, hi: int) {
    x.clanTag == clanTag && lo <= x.snapshotDate < hi
  }

  /** Each row of the clan in the range is returned as many times as it is stored, and no other. */
  lemma {:induction false} RowsBetweenCounts(rows: seq<SnapshotRow>, clanTag: string, lo: int, hi: int, x: SnapshotRow)
    ensures multiset(RowsBetween(rows, clanTag, lo, hi))[x] == if InRange(x, clanTag, lo, hi) then multiset(rows)[x] else 0
  {
    if rows != [] {
      assert rows == [rows[0]] + rows[1..];
      RowsBetweenCounts(rows[1..], clanTag, lo, hi, x);
    }
  }

  /** The query keeps insertion order: a concatenation of tables gives each part's rows in turn. */
  lemma {:induction false} RowsBetweenAppend(a: seq<SnapshotRow>, b: seq<SnapshotRow>, clanTag: string, lo: int, hi: int)
    ensures RowsBetween(a + b, clanTag, lo, hi) == RowsBetween(a, clanTag, lo, hi) + RowsBetween(b, clanTag, lo, hi)
  {
    if a == [] {
      assert a + b == b;
    } else {
      assert (a + b)[0] == a[0] && (a + b)[1..] == a[1..] + b;
      RowsBetweenAppend(a[1..], b, clanTag, lo, hi);
      var h := if InRange(a[0], clanTag, lo, hi) then [a[0]] else [];
      var ra, rb := RowsBetween(a[1..], clanTag, lo, hi), RowsBetween(b, clanTag, lo, hi);
      assert RowsBetween(a + b, clanTag, lo, hi) == h + (ra + rb);
      assert h + (ra + rb) == (h + ra) + rb;
    }
  }

  /** The first row of s for the player, if any. */
  function FirstFor(s: seq<SnapshotRow>, playerTag: string): (r: Option<SnapshotRow>)
    ensures r.None? <==> forall i :: 0 <= i < |s| ==> s[i].playerTag != playerTag
    ensures r.Some? ==> exists i :: 0 <= i < |s| && s[i] == r.value && s[i].playerTag == playerTag &&
                                    forall j :: 0 <= j < i ==> s[j].playerTag != playerTag
  {
    if s == [] then None
    else
      var head := FirstFor(s[..|s| - 1], playerTag);
      if head.Some? then head
      else if s[|s| - 1].playerTag == playerTag then Some(s[|s| - 1])
      else None
  }

  /** The first row of the table, in insertion order, of the clan and player dated in [lo, hi):
      the baseline the source's old_lookup keeps for the player. */
  function Baseline(rows: seq<SnapshotRow>, clanTag: string, lo: int, hi: int, playerTag: string)
    : (r: Option<SnapshotRow>)
    ensures r.None? <==> forall i :: 0 <= i < |rows| ==> !(InRange(rows[i], clanTag, lo, hi) && rows[i].playerTag == playerTag)
    ensures r.Some? ==> exists i :: 0 <= i < |rows| && rows[i] == r.value &&
                          InRange(rows[i], clanTag, lo, hi) && rows[i].playerTag == playerTag &&
                          forall j :: 0 <= j < i ==> !(InRange(rows[j], clanTag, lo, hi) && rows[j].playerTag == playerTag)
  {
    if rows == [] then None
    else if InRange(rows[0], clanTag, lo, hi) && rows[0].playerTag == playerTag then Some(rows[0])
    else
      var rest := Baseline(rows[1..], clanTag, lo, hi, playerTag);
      assert forall i :: 0 < i < |rows| ==> rows[i] == rows[1..][i - 1];
      rest
  }

  lemma {:induction false} FirstForAppend(a: seq<SnapshotRow>, b: seq<SnapshotRow>, playerTag: string)
    ensures FirstFor(a + b, playerTag) ==
      if FirstFor(a, playerTag).Some? then FirstFor(a, playerTag) else FirstFor(b, playerTag)
    decreases |b|
  {
    if b == [] {
      assert a + b == a;
    } else {
      var n := |b| - 1;
      assert (a + b)[..|a| + n] == a + b[..n];
      assert (a + b)[|a| + n] == b[n];
      FirstForAppend(a, b[..n], playerTag);
    }
  }

  /** The player's first row among the clan's rows of the period is the player's first
      qualifying row of the whole table. */
  lemma {:induction false} FirstForWindow(rows: seq<SnapshotRow>, clanTag: string, lo: int, hi: int, playerTag: string)
    ensures FirstFor(RowsBetween(rows, clanTag, lo, hi), playerTag) == Baseline(rows, clanTag, lo, hi, playerTag)
  {
    if rows != [] {
      var x := rows[0];
      var head := if InRange(x, clanTag, lo, hi) then [x] else [];
      FirstForAppend(head, RowsBetween(rows[1..], clanTag, lo, hi), playerTag);
      FirstForWindow(rows[1..], clanTag, lo, hi, playerTag);
      if head != [] {
        assert head[..0] == [];
      }
    }
  }

  /** Today's row against the player's baseline: differences when there is one,
      today's values when there is none. */
  function Delta(latest: SnapshotRow, baseline: Option<SnapshotRow>): (d: MemberDelta)
    ensures d.name == latest.playerName && d.tag == latest.playerTag
    ensures d.totalWarAttacks == latest.totalWarAttacks
    ensures baseline.None? ==>
      d.donations == latest.donationsGiven && d.donationsReceived == latest.donationsReceived &&
      d.warAttacks == latest.warAttacks && d.medals == latest.medals &&
      d.battles == latest.battles && d.wins == latest.wins && d.losses == latest.losses
  {
    match baseline
    case Some(b) =>
      MemberDelta(latest.playerName, latest.playerTag,
                  latest.donationsGiven - b.donationsGiven, latest.donationsReceived - b.donationsReceived,
                  latest.warAttacks - b.warAttacks, latest.totalWarAttacks, latest.medals - b.medals,
                  latest.battles - b.battles, latest.wins - b.wins, latest.losses - b.losses)
    case None =>
      MemberDelta(latest.playerName, latest.playerTag,
                  latest.donationsGiven, latest.donationsReceived, latest.warAttacks,
                  latest.totalWarAttacks, latest.medals, latest.battles, latest.wins, latest.losses)
  }

  /** Each delta adds back to today's value from the baseline, or from zero without one. */
  lemma DeltaReconstructs(latest: SnapshotRow, baseline: Option<SnapshotRow>)
    ensures var d := Delta(latest, baseline);
      var base := if baseline.Some? then baseline.value else SnapshotRow("", "", "", 0, 0, 0, 0, 0, 0, 0, 0, 0);
      d.name == latest.playerName && d.tag == latest.playerTag &&
      base.donationsGiven + d.donations == latest.donationsGiven &&
      base.donationsReceived + d.donationsReceived == latest.donationsReceived &&
      base.warAttacks + d.warAttacks == latest.warAttacks &&
      base.medals + d.medals == latest.medals &&
      base.battles + d.battles == latest.battles &&
      base.wins + d.wins == latest.wins &&
      base.losses + d.losses == latest.losses &&
      d.totalWarAttacks == latest.totalWarAttacks
  {
  }

  /** get_historical_stats: nothing when today has no rows for the clan; otherwise one delta
      per row of today, against the player's first row in [today - days, today). */
  function HistoricalStats(rows: seq<SnapshotRow>, clanTag: string, period: string, today: int)
    : (r: Option<seq<MemberDelta>>)
    ensures r.None? <==> RowsBetween(rows, clanTag, today, today + 1) == []
    ensures r.Some? ==>
      var latest := RowsBetween(rows, clanTag, today, today + 1);
      var window := RowsBetween(rows, clanTag, today - PeriodDays(period), today);
      |r.value| == |latest| &&
      forall i :: 0 <= i < |latest| ==> r.value[i] == Delta(latest[i], FirstFor(window, latest[i].playerTag))
    ensures r.Some? ==>
      var latest := RowsBetween(rows, clanTag, today, today + 1);
      forall i :: 0 <= i < |latest| ==>
        r.value[i] == Delta(latest[i], Baseline(rows, clanTag, today - PeriodDays(period), today, latest[i].playerTag))
  {
    var latest := RowsBetween(rows, clanTag, today, today + 1);
    if latest == [] then None
    else
      var window := RowsBetween(rows, clanTag, today - PeriodDays(period), today);
      assert forall p :: FirstFor(window, p) == Baseline(rows, clanTag, today - PeriodDays(period), today, p) by {
        forall p ensures FirstFor(window, p) == Baseline(rows, clanTag, today - PeriodDays(period), today, p) {
          FirstForWindow(rows, clanTag, today - PeriodDays(period), today, p);
        }
      }
      Some(seq(|latest|, i requires 0 <= i < |latest| => Delta(latest[i], FirstFor(window, latest[i].playerTag))))
  }

  /** The deltas are taken against rows strictly before today and no older than the period. */
  lemma BaselineInPeriod(rows: seq<SnapshotRow>, clanTag: string, period: string, today: int, playerTag: string)
    ensures var b := FirstFor(RowsBetween(rows, clanTag, today - PeriodDays(period), today), playerTag);
      b.Some? ==> b.value in rows && b.value.clanTag == clanTag && b.value.playerTag == playerTag &&
                  today - PeriodDays(period) <= b.value.snapshotDate < today
  {
    var w := RowsBetween(rows, clanTag, today - PeriodDays(period), today);
    var b := FirstFor(w, playerTag);
    if b.Some? {
      var i :| 0 <= i < |w| && w[i] == b.value && w[i].playerTag == playerTag &&
        forall j :: 0 <= j < i ==> w[j].playerTag != playerTag;
      assert w[i] in w;
    }
  }

  lemma FirstForStep(s: seq<SnapshotRow>, x: SnapshotRow, playerTag: string)
    ensures FirstFor(s + [x], playerTag) ==
      if FirstFor(s, playerTag).Some? then FirstFor(s, playerTag)
      else if x.playerTag == playerTag then Some(x) else None
  {
    assert (s + [x])[..|s|] == s;
  }

  /** The old_lookup loop: each player's first row in query order. */
  method BaselineLookup(oldSnapshots: seq<SnapshotRow>) returns (oldLookup: map<string, SnapshotRow>)
    ensures forall tag :: tag in oldLookup <==> FirstFor(oldSnapshots, tag).Some?
    ensures forall tag :: tag in oldLookup ==> oldLookup[tag] == FirstFor(oldSnapshots, tag).value
  {
    oldLookup := map[];
    var i := 0;
    while i < |oldSnapshots|
      invariant 0 <= i <= |oldSnapshots|
      invariant forall tag :: tag in oldLookup <==> FirstFor(oldSnapshots[..i], tag).Some?
      invariant forall tag :: tag in oldLookup ==> oldLookup[tag] == FirstFor(oldSnapshots[..i], tag).value
    {
      var snap := oldSnapshots[i];
      assert oldSnapshots[..i + 1] == oldSnapshots[..i] + [snap];
      forall tag {
        FirstForStep(oldSnapshots[..i], snap, tag);
      }
      if snap.playerTag !in oldLookup {
        oldLookup := oldLookup[snap.playerTag := snap];
      }
      i := i + 1;
    }
    assert oldSnapshots[..i] == oldSnapshots;
  }

  /** The results loop: one delta per row of today, against the looked-up baseline. */
  method Deltas(latestSnapshots: seq<SnapshotRow>, oldSnapshots: seq<SnapshotRow>,
                oldLookup: map<string, SnapshotRow>)
    returns (results: seq<MemberDelta>)
    requires forall tag :: tag in oldLookup <==> FirstFor(oldSnapshots, tag).Some?
    requires forall tag :: tag in oldLookup ==> oldLookup[tag] == FirstFor(oldSnapshots, tag).value
    ensures |results| == |latestSnapshots|
    ensures forall i :: 0 <= i < |latestSnapshots| ==>
      results[i] == Delta(latestSnapshots[i], FirstFor(oldSnapshots, latestSnapshots[i].playerTag))
  {
    results := [];
    var k := 0;
    while k < |latestSnapshots|
      invariant 0 <= k <= |latestSnapshots|
      invariant |results| == k
      invariant forall i :: 0 <= i < k ==>
        results[i] == Delta(latestSnapshots[i], FirstFor(oldSnapshots, latestSnapshots[i].playerTag))
    {
      var latest := latestSnapshots[k];
      var baseline := if latest.playerTag in oldLookup then Some(oldLookup[latest.playerTag]) else None;
      assert baseline == FirstFor(oldSnapshots, latest.playerTag);
      results := results + [Delta(latest, baseline)];
      k := k + 1;
    }
  }

  /** The loops of get_historical_stats: first a lookup of each player's first baseline row,
      then one delta per row of today. */
  method GetHistoricalStats(rows: seq<SnapshotRow>, clanTag: string, period: string, today: int)
    returns (r: Option<seq<MemberDelta>>)
    ensures r == HistoricalStats(rows, clanTag, period, today)
  {
    var daysAgo := PeriodDays(period);
    var startDate := today - daysAgo;
    var latestSnapshots := RowsBetween(rows, clanTag, today, today + 1);
    if latestSnapshots == [] {
      return None;
    }
    var oldSnapshots := RowsBetween(rows, clanTag, startDate, today);
    var oldLookup := BaselineLookup(oldSnapshots);
    var results := Deltas(latestSnapshots, oldSnapshots, oldLookup);
    assert results == HistoricalStats(rows, clanTag, period, today).value;
    return Some(results);
  }
}
