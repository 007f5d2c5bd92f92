/**
 The shapes of the upstream game-statistics payloads the core reads:
 battle-log entries, roster members, player profiles and river-race logs.
 A key the payload may lack is an Option; a list that may be absent is a
 seq, absent and empty behaving alike wherever the source reads them.
 */
module Upstream {
  import opened Common

  /** One side of a battle ("team"[0] or "opponent"[0]). */
  datatype Side = Side(
    name: Option<string>,
    crowns: Option<int>,
    startingTrophies: Option<int>,
    cards: Option<seq<string>>)  // the "name" of each card, in the order listed

  /** A battle's "battleTime": the raw text and what parsing it with the API's date format gives. */
  datatype BattleTime = BattleTime(raw: string, parsed: Option<int>)

  /** An entry of a battle log. */
  datatype Battle = Battle(
    battleType: Option<string>,
    battleTime: Option<BattleTime>,
    team: seq<Side>,
    opponent: seq<Side>,
    arena: Option<string>)

  /** An entry of a clan's "members" list. */
  datatype Member = Member(
    tag: string,
    name: string,
    donations: Option<int>,
    donationsReceived: Option<int>)

  /** An entry of a clan search result. */
  datatype ClanHit = ClanHit(tag: string, name: string)

  /** A clan's own record ("/clans/{tag}"). */
  datatype ClanInfo = ClanInfo(name: Option<string>)

  /** A player's profile ("/players/{tag}"). */
  datatype Profile = Profile(
    name: Option<string>,
    trophies: Option<int>,
    bestTrophies: Option<int>,
    expLevel: Option<int>,
    arena: Option<string>,
    clanName: Option<string>,
    clanTag: Option<string>,
    lastSeen: Option<string>)

  /** A participant of a clan's river race. */
  datatype Participant = Participant(tag: Option<string>, fame: Option<int>, decksUsed: Option<int>)

  /** A clan's standing in a race: its "clan"."tag" and "clan"."participants". */
  datatype Standing = Standing(clanTag: Option<string>, participants: seq<Participant>)

  /** An entry of a river-race log. */
  datatype Race = Race(standings: seq<Standing>)

  function GetOr(o: Option<int>, default: int): int {
    if o.Some? then o.value else default
  }

  /** `battle["team"][0] if battle["team"] else {}`, and the same for "opponent". */
  function FirstSide(sides: seq<Side>): Side {
    if sides == [] then Side(None, None, None, None) else sides[0]
  }

  function TeamCrowns(b: Battle): int { GetOr(FirstSide(b.team).crowns, 0) }
  function OpponentCrowns(b: Battle): int { GetOr(FirstSide(b.opponent).crowns, 0) }

  predicate HasTeam(b: Battle) { b.team != [] }

  predicate IsType(b: Battle, t: string) { b.battleType == Some(t) }

  datatype Outcome = Win | Loss | Draw

  /** Crown comparison: more crowns wins, fewer loses, equal is a draw. */
  function OutcomeOf(b: Battle): Outcome {
    if TeamCrowns(b) > OpponentCrowns(b) then Win
    else if OpponentCrowns(b) > TeamCrowns(b) then Loss
    else Draw
  }
}
