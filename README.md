# cr-decktracker-api core, modelled in Dafny

This project models the core of the Clash Royale deck-tracker backend:

- **Input validation** covers player and clan tags, password strength and trimming of free text.
- **General helpers:**
  - encoding a tag for a URL;
  - canonicalising a deck as its sorted card names;
  - win/loss counting and per-mode statistics over a battle log;
  - the battle-log table that caches a deck analysis for ten minutes.
- **Rate limiter:** fixed-window counters, at 100 requests an hour in general and 5 a minute for authentication, keyed by client address.
- **Supercell API client:**
  - the response cache, 300 seconds;
  - a single retry after an upstream 429;
  - mapping upstream replies and failures to HTTP errors.
- **Player service** has three operations:
  - resolving a player name to a tag by fuzzy matching against a clan roster, found by clan tag or by clan name;
  - predicting a player's top three decks for a game mode;
  - assembling a player's statistics.
- **Clan service:**
  - daily snapshots of clan members, with war totals from the last five river races;
  - historical deltas between today's snapshot and the first snapshot in the period.
- **Clan routes:** tracking a clan, its tracking status, manual snapshots, and live clan statistics with their cache.

## How the model is built

- **Upstream calls.** Every call to the Supercell API that a service or route makes becomes an input of the model, either the value the call returned or the HTTP error it raised. This is a `Result<T, Error>` parameter, or a function from a tag to such a result when there is one call per member. `SupercellApi.ApiClient.Get` models the client itself, with the first reply and the retry reply as inputs.
- **Stores.**
  - Redis becomes one in-memory map per use: `RateLimiter.counters`, `ApiClient.cache` and `StatsCache.entries`.
  - The database becomes `ClanStore.Database`, holding a tracked-clan map keyed by clan tag and a sequence of snapshot rows.
  - The battle-log table becomes `Helpers.BattleLogStore`.
  - Time is a parameter, in seconds for instants and in days for snapshot dates.
- **Python semantics that are written out:**
  - Python's string ordering, used by `sorted`;
  - `str.lstrip`, `strip`, `upper`, `lower`, `replace`, `isalnum` and `split(",")[0]`, all on ASCII;
  - `s[:n]` with negative `n`;
  - `urllib.parse.quote(s, safe="")` on ASCII, and `unquote` for escapes of ASCII characters;
  - the stable sort by count in descending order that ranks decks.
- **Raising an exception** becomes an `Err` with the HTTP status and a reason (`Common.Reason`). Code that swallows an exception becomes the fallback value the source uses:
  - an empty river-race log;
  - a zero battle record;
  - a zero statistics row.
- **The fuzzy scorer** (`rapidfuzz`'s `WRatio`) is a parameter that returns a score between 0 and 100. `process.extractOne` is modelled as "the first name with the highest score".

Behaviour of the code that the model keeps as written:

- **Tag validation upper-cases after checking.** It deletes every `0` and `O` and requires the rest to be alphanumeric. So the lower-case tag `o` is accepted as `#O`, and `#O` itself is rejected. Validating a validated tag is therefore idempotent only when its body has some character other than `0`, `O` and `o`. Both facts are proved.
- **Live clan statistics use the raw clan tag.** The route compares river-race standings with the path's `clan_tag` as the client typed it, not with the validated tag. So `abc` finds no war attacks for a standing tagged `#ABC`, while `#ABC` finds them. `ClanRoutes.RawTagMissesWarAttacks` states this for every accepted tag typed without `#`.
- **An empty roster leaves the day open.** A snapshot of an empty roster reports success but writes no row, so a later snapshot on the same day is still allowed (`ClanStore.CaptureTakesTheDay`).
- **Behaviour of the code a reader might not expect:**
  - the match threshold is 70;
  - a second snapshot on the same day is refused and the first is kept;
  - members without a baseline get their current totals and carry no partial flag;
  - the upstream client retries once, and only after a 429.

## Model

| member | source | states |
|---|---|---|
| Validation.ValidatePlayerTag | cr-decktracker-api/utils/validation.py:13-45 | empty tag is a 400 TagEmpty; every error is a 400; an accepted tag is `#` plus the upper-cased body after the leading `#`s, at most 16 characters, with no lower-case letter |
| Validation.ValidatePlayerTagAccepts | cr-decktracker-api/utils/validation.py:30-45 | a tag is accepted iff it is non-empty, its body has at most 15 characters, all alphanumeric, and some character that is neither `0` nor `O` |
| Validation.RemoveCharAlnum | cr-decktracker-api/utils/validation.py:41 | deleting two alphanumeric characters leaves an alphanumeric string iff all characters are alphanumeric and some character is neither of the two |
| Validation.ZeroAndOhOnlyRejected | cr-decktracker-api/utils/validation.py:41-42 | a short body made only of `0` and `O` is rejected with TagNotAlphanumeric |
| Validation.TagBodyOfValidated | cr-decktracker-api/utils/validation.py:34-45 | the body of a validated tag is the upper-cased original body |
| Validation.UpperUpper | cr-decktracker-api/utils/validation.py:45 | upper-casing is idempotent |
| Validation.UpperAlnum | cr-decktracker-api/utils/validation.py:45 | upper-casing keeps a string alphanumeric |
| Validation.ValidatePlayerTagIdempotent | cr-decktracker-api/utils/validation.py:34-45 | validating an accepted tag again returns it unchanged when its body has a character other than `0`, `O`, `o` |
| Validation.ValidatePlayerTagNotIdempotent | cr-decktracker-api/utils/validation.py:41-45 | a tag whose body is made of `0`, `O` and `o` with at least one `o` is accepted, and its validated form is then rejected as not alphanumeric |
| Validation.UpperZeroOh | cr-decktracker-api/utils/validation.py:45 | upper-casing a body made of `0`, `O` and `o` leaves only `0` and `O` |
| Validation.ValidatePassword | cr-decktracker-api/utils/validation.py:48-84 | accepted iff the length is 8 to 128 and there is an upper-case letter, a lower-case letter, a digit and a special character; otherwise exactly the first failing rule in the order length-short, length-long, uppercase, lowercase, digit, special gives its 400 (each error iff the earlier rules hold and its own fails) |
| Validation.ValidPasswordAccepted | cr-decktracker-api/utils/validation.py:67-84 | `Passw0rd!` passes every rule |
| Validation.LowercasePasswordNeedsUppercase | cr-decktracker-api/utils/validation.py:73-74 | `password` fails with the missing-uppercase error |
| Validation.PyPrefix | cr-decktracker-api/utils/validation.py:108 | Python's `s[:n]` is a prefix of `s`, of length `min(n, len(s))` for `n >= 0` |
| Validation.SanitizeString | cr-decktracker-api/utils/validation.py:87-110 | the result is a prefix of the stripped value, at most `max_length` long: the whole stripped value when it fits, else its first `max_length` characters |
| Validation.SanitizeStringTwice | cr-decktracker-api/utils/validation.py:104-108 | a second sanitize only strips the first result again, since it is already within the length |
| Text.UpperChar | cr-decktracker-api/utils/validation.py:45 | a lower-case letter becomes upper-case; every other character is unchanged |
| Text.Upper | cr-decktracker-api/utils/validation.py:45 | `str.upper` maps each character, keeping the length |
| Text.LowerChar | cr-decktracker-api/services/supercell_api.py:86 | an upper-case letter becomes lower-case; every other character is unchanged |
| Text.Lower | cr-decktracker-api/services/supercell_api.py:86 | `str.lower` maps each character, keeping the length |
| Text.LStripChar | cr-decktracker-api/utils/validation.py:34 | `lstrip('#')` drops exactly the leading run of `#`: a suffix not starting with `#`, preceded only by `#` |
| Text.LStrip | cr-decktracker-api/utils/validation.py:104 | a suffix that does not start with whitespace, and everything dropped is whitespace |
| Text.RStrip | cr-decktracker-api/utils/validation.py:104 | a prefix that does not end with whitespace, and everything dropped is whitespace |
| Text.Strip | cr-decktracker-api/utils/validation.py:104 | `str.strip()`: the input with its leading and trailing whitespace removed, so a contiguous slice whose surroundings are all whitespace and whose ends are not |
| Text.StripChars | cr-decktracker-api/utils/rate_limiting.py:87 | stripping only removes characters |
| Text.RemoveChar | cr-decktracker-api/utils/validation.py:41 | `replace(ch, '')` keeps exactly the characters other than `ch` |
| Text.FirstField | cr-decktracker-api/utils/rate_limiting.py:87 | `split(sep)[0]`: the prefix up to the first `sep`, or the whole string when there is none |
| Text.ContainsAt | cr-decktracker-api/services/supercell_api.py:86 | an occurrence at a position makes `sub in s` true |
| UrlQuote.HexValue | cr-decktracker-api/utils/helpers.py:24 | a hex digit's value is in 0..15, and -1 for any other character |
| UrlQuote.QuoteChar | cr-decktracker-api/utils/helpers.py:27 | a character encodes to itself or to a three-character escape |
| UrlQuote.Quote | cr-decktracker-api/utils/helpers.py:27 | `quote(s, safe="")` is between one and three times as long as its input |
| UrlQuote.Unquote | cr-decktracker-api/utils/helpers.py:24 | `unquote` never lengthens its input |
| UrlQuote.HexRoundTrip | cr-decktracker-api/utils/helpers.py:24-27 | the digit written for a value decodes back to that value |
| UrlQuote.UnquoteQuote | cr-decktracker-api/utils/helpers.py:24-27 | `unquote(quote(s, safe="")) == s` |
| UrlQuote.QuoteHash | cr-decktracker-api/utils/helpers.py:27 | `#` encodes as `%23` |
| UrlQuote.UnquoteHash | cr-decktracker-api/utils/helpers.py:24 | a literal `#` decodes to itself |
| UrlQuote.UnquoteEscapedHash | cr-decktracker-api/utils/helpers.py:24 | `%23` decodes to `#` |
| Helpers.EnsureHash | cr-decktracker-api/utils/helpers.py:25-26 | the result starts with `#` |
| Helpers.EncTag | cr-decktracker-api/utils/helpers.py:24-27 | decoding the encoded tag gives the decoded input with a `#` in front |
| Helpers.EncTagStartsWithEscapedHash | cr-decktracker-api/utils/helpers.py:24-27 | every encoded tag starts with `%23` |
| Helpers.EncTagIdempotent | cr-decktracker-api/utils/helpers.py:24-27 | encoding an encoded tag changes nothing |
| Helpers.EncTagPrefixForms | cr-decktracker-api/utils/helpers.py:24-27 | a bare tag, the tag after `#` and the tag after `%23` encode alike |
| CardOrder.LessEqTotal | cr-decktracker-api/utils/helpers.py:42 | Python's string order is total |
| CardOrder.LessEqAntisymmetric | cr-decktracker-api/utils/helpers.py:42 | the string order is antisymmetric |
| CardOrder.LessEqTransitive | cr-decktracker-api/utils/helpers.py:42 | the string order is transitive |
| CardOrder.Insert | cr-decktracker-api/utils/helpers.py:42 | inserting into a sorted list keeps it sorted and adds exactly that element |
| CardOrder.Sort | cr-decktracker-api/utils/helpers.py:42 | `sorted` returns a sorted permutation of its input |
| CardOrder.HeadIsLeast | cr-decktracker-api/utils/helpers.py:42 | the head of a sorted list is at most each element |
| CardOrder.TailMultiset | cr-decktracker-api/utils/helpers.py:42 | equal multisets with equal heads have equal tails |
| CardOrder.SortedUnique | cr-decktracker-api/utils/helpers.py:42 | two sorted lists with the same multiset are equal |
| Helpers.Canon | cr-decktracker-api/utils/helpers.py:30-42 | the canonical deck is sorted and is a permutation of the card names |
| Helpers.CanonOrderIndependent | cr-decktracker-api/utils/helpers.py:30-42 | the same cards in any order give the same canonical deck |
| Helpers.CanonOfSorted | cr-decktracker-api/utils/helpers.py:30-42 | a sorted deck is its own canonical form |
| Helpers.CalculateWinsLosses | cr-decktracker-api/utils/helpers.py:45-90 | the loop's wins and losses are the counts of PvP battles with a team won and lost; their sum is at most the number of counted battles |
| Helpers.RecordBounded | cr-decktracker-api/utils/helpers.py:80-85 | draws count as neither: wins + losses is at most the counted battles |
| Helpers.RecordIgnoresUncounted | cr-decktracker-api/utils/helpers.py:62-70 | a battle without a team, or not of a PvP type, changes no count |
| Helpers.NoOpponentWithCrownsIsWin | cr-decktracker-api/utils/helpers.py:74-82 | a missing opponent counts as zero crowns, so a team with crowns wins |
| Helpers.AvgCrowns | cr-decktracker-api/utils/helpers.py:137 | the average has a positive denominator and is zero with no battles |
| Helpers.CalculateModeStats | cr-decktracker-api/utils/helpers.py:93-144 | the loop computes the battles, wins, losses and crowns of the battles of that exact type with a team; wins + losses is at most battles |
| Helpers.ModeTallyBounded | cr-decktracker-api/utils/helpers.py:125-132 | wins + losses ≤ battles ≤ the length of the log |
| Helpers.ModeTallyIgnoresOthers | cr-decktracker-api/utils/helpers.py:109-116 | a battle of another type, or without a team, changes no mode statistic |
| Helpers.SaveThenLookup | cr-decktracker-api/utils/helpers.py:147-197 | a saved row is served back unchanged iff fewer than `cache_minutes` have passed since it was saved |
| Helpers.SaveKeepsOtherKeys | cr-decktracker-api/utils/helpers.py:159-166 | saving under one key does not change what another key serves |
| Helpers.BattleLogStore.constructor | cr-decktracker-api/models/battle_log.py:10-17 | the table starts empty |
| Helpers.BattleLogStore.SaveBattleLog | cr-decktracker-api/utils/helpers.py:147-169 | merge inserts or replaces the row under the key with the battles, analysis and fetch time |
| Helpers.BattleLogStore.GetCachedBattleLog | cr-decktracker-api/utils/helpers.py:172-197 | a hit iff a row exists and is strictly younger than the window, returning its battles and analysis |
| DeckRanking.FirstSeen | cr-decktracker-api/services/player_service.py:169-177 | the dict's keys: distinct, exactly the decks that occur, each sorted |
| DeckRanking.FirstSeenStep | cr-decktracker-api/services/player_service.py:170-177 | one more battle appends its deck to the keys iff it has a deck not seen before |
| DeckRanking.OccurrenceWitness | cr-decktracker-api/services/player_service.py:170-177 | a deck that is counted is the deck of some battle of the log |
| DeckRanking.OccurrencesPrefix | cr-decktracker-api/services/player_service.py:170-177 | a prefix of the log counts a deck at most as often as the whole log |
| DeckRanking.FirstSeenOrder | cr-decktracker-api/services/player_service.py:169-177 | the keys are in first-insertion order: an earlier key is the deck of a battle played before the later key's deck was played at all |
| DeckRanking.Counted | cr-decktracker-api/services/player_service.py:169-177 | each key is paired with its number of occurrences |
| DeckRanking.CountStep | cr-decktracker-api/services/player_service.py:170-177 | one more battle adds one to its deck's count and appends the deck if it is new |
| DeckRanking.CountDecks | cr-decktracker-api/services/player_service.py:169-177 | the counting loop builds exactly the insertion-ordered tally |
| DeckRanking.SumCountedStep | cr-decktracker-api/services/player_service.py:191 | one more battle adds one to the sum of the counts of keys that include its deck |
| DeckRanking.OccurrencesStep | cr-decktracker-api/services/player_service.py:191 | one more battle adds one to the count of its own deck and nothing to any other |
| DeckRanking.SumCountedCons | cr-decktracker-api/services/player_service.py:191 | the sum of the counts is the first key's count plus the sum over the other keys |
| DeckRanking.SumAppend | cr-decktracker-api/services/player_service.py:191 | the sum of counts is additive |
| DeckRanking.CountedUnchanged | cr-decktracker-api/services/player_service.py:172-173 | a battle without a deck changes no count |
| DeckRanking.TallySum | cr-decktracker-api/services/player_service.py:191 | the counts add up to the number of battles with a deck, at most the number of battles |
| DeckRanking.TallyEmpty | cr-decktracker-api/services/player_service.py:184-188 | no deck counted iff no battle has a deck |
| DeckRanking.InsertByCount | cr-decktracker-api/services/player_service.py:192 | inserting by count keeps the order non-increasing and adds exactly that element |
| DeckRanking.ConsNonIncreasing | cr-decktracker-api/services/player_service.py:192 | an entry at least the first of a non-increasing sequence can go in front of it |
| DeckRanking.AllAtMost | cr-decktracker-api/services/player_service.py:192 | a bound on the entries and on the inserted one bounds every entry of the result |
| DeckRanking.SortByCount | cr-decktracker-api/services/player_service.py:192 | the reverse sort by count is non-increasing and a permutation |
| DeckRanking.WithCountCons | cr-decktracker-api/services/player_service.py:192 | the subsequence of entries with a count distributes over a leading element |
| DeckRanking.InsertByCountStable | cr-decktracker-api/services/player_service.py:192 | insertion keeps entries of equal count in their original order |
| DeckRanking.SortByCountStable | cr-decktracker-api/services/player_service.py:192 | the sort is stable: ties stay in first-seen order |
| DeckRanking.WithCountPrefix | cr-decktracker-api/services/player_service.py:192 | a prefix's entries of one count are a prefix of the whole's |
| DeckRanking.Top3Ranked | cr-decktracker-api/services/player_service.py:192 | the top three are at most three, taken from the items, ordered by count, and ties come in first-seen order |
| DeckRanking.Top3Outranks | cr-decktracker-api/services/player_service.py:192 | no entry left out of the top three ranks above any of them |
| DeckRanking.Top3 | cr-decktracker-api/services/player_service.py:192 | `[:3]` of the sorted items: three entries, or all of them when there are fewer |
| DeckRanking.Report | cr-decktracker-api/services/player_service.py:193 | each reported deck carries its count over the total as confidence |
| DeckRanking.RankDecks | cr-decktracker-api/services/player_service.py:191-193 | one reported deck per top entry, each with a non-negative count over a positive total |
| DeckRanking.SortByCountElements | cr-decktracker-api/services/player_service.py:192 | every sorted entry is an entry of the input |
| DeckRanking.RankedTally | cr-decktracker-api/services/player_service.py:190-193 | every ranked deck occurs in the battles, with its confidence as its number of occurrences over the total, a ratio of at most one |
| DeckRanking.SumAtLeastEach | cr-decktracker-api/services/player_service.py:191-193 | each count is at most the total |
| PlayerService.ExtractOne | cr-decktracker-api/services/player_service.py:39 | nothing iff no names; otherwise the first name with the highest score, with its index and score |
| PlayerService.Names | cr-decktracker-api/services/player_service.py:38 | the names of the members, in order |
| PlayerService.FirstWithName | cr-decktracker-api/services/player_service.py:44 | the first member with that name |
| PlayerService.ChosenIsMatched | cr-decktracker-api/services/player_service.py:44 | the first member carrying the matched name is the matched member itself |
| PlayerService.BestMember | cr-decktracker-api/services/player_service.py:38-44 | the match is a member's name and score, every member scores at most it, every earlier member less, and the chosen member is that one |
| PlayerService.ResolvePlayerByClanTag | cr-decktracker-api/services/player_service.py:13-49 | a failed roster fetch propagates; an empty roster is a 404; otherwise a 404 iff every member scores below 70, and else the first best-scoring member with its floored score, which is 70 to 100 |
| PlayerService.ClanMatch | cr-decktracker-api/services/player_service.py:82-94 | a clan yields a player iff its roster was fetched and is non-empty and some member scores at least 70, and the player is that clan's resolution by tag |
| PlayerService.FirstClanMatch | cr-decktracker-api/services/player_service.py:80-94 | a match found in the clans has a confidence of 70 to 100 |
| PlayerService.FirstClanWins | cr-decktracker-api/services/player_service.py:80-94 | the first clan (in search order) that yields a player decides the result |
| PlayerService.NoClanMatches | cr-decktracker-api/services/player_service.py:80-99 | nothing found iff no clan yields a player |
| PlayerService.ResolvePlayerByClanName | cr-decktracker-api/services/player_service.py:52-99 | a failed search propagates; no clans is a 404; otherwise the first clan's match, skipping clans whose fetch fails, else a 404 PlayerNotInAnyClan |
| PlayerService.FilterType | cr-decktracker-api/services/player_service.py:150 | keeps exactly the battles of that type |
| PlayerService.FilterTypeCounts | cr-decktracker-api/services/player_service.py:150 | each battle of the type is kept as often as it occurs, and every other battle not at all |
| PlayerService.FilterTypeAppend | cr-decktracker-api/services/player_service.py:150 | the filter keeps log order: a concatenation filters to the concatenation of the filtered parts, and one battle is kept iff it has the type |
| PlayerService.FilterByMode | cr-decktracker-api/services/player_service.py:149-157 | ladder keeps `trail` battles, ranked keeps `pathOfLegend` battles, all keeps everything |
| PlayerService.PredictFromBattles | cr-decktracker-api/services/player_service.py:149-193 | every error is a 404; a success reports one to three decks |
| PlayerService.PredictOutcome | cr-decktracker-api/services/player_service.py:161-193 | 404 iff no battle of the mode, or none with a deck; otherwise the ranked tally of the filtered battles |
| PlayerService.PredictCountsBounded | cr-decktracker-api/services/player_service.py:168-191 | the counted decks add up to at most the filtered battles, at most all battles |
| PlayerService.PredictPlayerDecks | cr-decktracker-api/services/player_service.py:102-203 | bad mode is a 400 with no change; a fresh cached analysis under `tag:mode` is served as cached with no change; a fetch error or empty result propagates with no change; otherwise the prediction is returned uncached and the filtered battles with the analysis are saved under the key |
| PlayerService.Summaries | cr-decktracker-api/services/player_service.py:233-263 | at most one summary per battle |
| PlayerService.Summarize | cr-decktracker-api/services/player_service.py:235-262 | the result is a win iff the team has more crowns, a loss iff the opponent has more, a draw iff they are equal |
| PlayerService.SummariesAppend | cr-decktracker-api/services/player_service.py:233-263 | summaries keep log order: a concatenation is summarised as its two parts in turn |
| PlayerService.SummariesOne | cr-decktracker-api/services/player_service.py:234-235 | one battle gives its summary iff it has a team entry, and nothing otherwise |
| PlayerService.SummariesFromTeams | cr-decktracker-api/services/player_service.py:234-235 | each summary is that of a battle of the log that has a team |
| PlayerService.SummariesOneForOne | cr-decktracker-api/services/player_service.py:233-263 | when every battle has a team, the summaries are exactly theirs, in order |
| PlayerService.RecentBattles | cr-decktracker-api/services/player_service.py:233-263 | the loop builds exactly the summaries of the window |
| PlayerService.RankedBattles | cr-decktracker-api/services/player_service.py:266 | keeps exactly the `pathOfLegend` and `ladder` battles |
| PlayerService.RankedBattlesCounts | cr-decktracker-api/services/player_service.py:266 | each `pathOfLegend` or `ladder` battle is kept as often as it occurs, and every other battle not at all |
| PlayerService.RankedBattlesAppend | cr-decktracker-api/services/player_service.py:266 | the filter keeps log order: a concatenation filters to the concatenation of the filtered parts, and one battle is kept iff it is ranked or ladder |
| PlayerService.GetPlayerStats | cr-decktracker-api/services/player_service.py:206-301 | fetch errors propagate in call order; otherwise wins and losses are the record of the whole log, the total is their sum, the recent battles summarise the first ten, the top decks rank the ranked battles, and the name defaults to `Unknown` |
| RateLimiting.RedisKeyInjective | cr-decktracker-api/utils/rate_limiting.py:27-55 | general and auth keys never collide, and each identifies its client |
| RateLimiting.AdmitKeepsCounts | cr-decktracker-api/utils/rate_limiting.py:27-37 | a check keeps every count between 1 and its limit and does not change what any other key reads |
| RateLimiting.Decisions | cr-decktracker-api/utils/rate_limiting.py:27-37 | one decision per request |
| RateLimiting.DecisionsWhileLive | cr-decktracker-api/utils/rate_limiting.py:33-37 | while a counter at `c` is live, request `i` passes iff `c + i` is below the limit |
| RateLimiting.FirstLimitRequestsPass | cr-decktracker-api/utils/rate_limiting.py:27-37 | starting with no live counter, within one window exactly the first `limit` requests pass |
| RateLimiting.ClientIdentifier | cr-decktracker-api/utils/rate_limiting.py:84-87 | the host when the header is absent or empty; otherwise the stripped first comma field of X-Forwarded-For, with no comma, made of header characters |
| RateLimiting.RateLimiter.constructor | cr-decktracker-api/utils/rate_limiting.py:14-37 | no counters |
| RateLimiting.RateLimiter.Check | cr-decktracker-api/utils/rate_limiting.py:27-37 | absent or expired key: set to 1 for the window and allow; below the limit: increment and allow; at the limit: refuse with no change |
| RateLimiting.RateLimiter.CheckRateLimit | cr-decktracker-api/utils/rate_limiting.py:14-37 | the general check on `ratelimit:<id>`, limit 100 per 3600 s |
| RateLimiting.RateLimiter.CheckAuthRateLimit | cr-decktracker-api/utils/rate_limiting.py:40-65 | the auth check on `auth_ratelimit:<id>`, limit 5 per 60 s |
| RateLimiting.RateLimiter.RequireAuthRateLimit | cr-decktracker-api/utils/rate_limiting.py:68-94 | the auth check for the client address; a refusal is a 429 TooManyAuthAttempts, else true |
| SupercellApi.NotFound | cr-decktracker-api/services/supercell_api.py:80-100 | a 404 whose reason is ClanNotFound when the lower-cased path contains `clan`, else PlayerNotFound when it contains `player`, else ResourceNotFound |
| SupercellApi.Dispatch | cr-decktracker-api/services/supercell_api.py:80-127 | timeout is a 504, connection failure a 503; a reply succeeds iff its status is not 4xx/5xx, giving its body; a 404 is the path's not-found error, a 403 is AccessDenied, and any other error keeps the reply's status with its body text |
| SupercellApi.ClanPathNotFound | cr-decktracker-api/services/supercell_api.py:86-90 | a 404 on any `/clans/` path is the clan-not-found error |
| SupercellApi.RetryStillLimited | cr-decktracker-api/services/supercell_api.py:69-77 | two 429s in a row make two requests and surface the 429 |
| SupercellApi.NoRetryOtherwise | cr-decktracker-api/services/supercell_api.py:69-77 | any first outcome other than a 429 makes one request and ignores the retry |
| SupercellApi.ApiClient.constructor | cr-decktracker-api/services/supercell_api.py:17-26 | the cache starts empty |
| SupercellApi.ApiClient.Get | cr-decktracker-api/services/supercell_api.py:28-127 | a live cache entry for (path, params) is returned with no request and no change; otherwise the dispatched result of the effective reply after at most one retry, and only a success is cached, for 300 s; never more than two requests |
| SupercellApi.CachedPayloadServed | cr-decktracker-api/services/supercell_api.py:48-120 | a cached payload is served for 300 s after it is stored and not after |
| ClanStore.PeriodDays | cr-decktracker-api/services/clan_service.py:128-133 | week 7, 2weeks 14, month 30, all 9999, anything else 7 |
| ClanStore.FirstRaces | cr-decktracker-api/services/clan_service.py:61 | `river_race[:5]`: a prefix of exactly five races, or all when there are fewer |
| ClanStore.TallyCountsAppearances | cr-decktracker-api/services/clan_service.py:66-70 | four possible attacks per appearance of the member; zero for a member who never appears |
| ClanStore.TallyStep | cr-decktracker-api/services/clan_service.py:66-70 | one more entry adds exactly its contribution |
| ClanStore.TallyAppend | cr-decktracker-api/services/clan_service.py:61-70 | war totals add up over concatenated standings |
| ClanStore.SingleStandingEntries | cr-decktracker-api/services/clan_service.py:61-65 | a log of one race with one standing yields that standing's entries exactly when its tag is the clan's |
| ClanStore.OtherClansIgnored | cr-decktracker-api/services/clan_service.py:64 | standings of other clans contribute nothing |
| ClanStore.OnlyFiveRaces | cr-decktracker-api/services/clan_service.py:61 | races after the fifth have no effect |
| ClanStore.AddEntry | cr-decktracker-api/services/clan_service.py:67-70 | the member's entry adds its fame, decks used and 4; any other entry adds nothing |
| ClanStore.AddParticipants | cr-decktracker-api/services/clan_service.py:66-70 | the participant loop adds the member's fame, decks used and 4 per appearance |
| ClanStore.AddStandings | cr-decktracker-api/services/clan_service.py:63-70 | the standings loop adds the member's totals from this clan's standings |
| ClanStore.WarTally | cr-decktracker-api/services/clan_service.py:56-70 | the nested loops compute the member's war totals over the first five races |
| ClanStore.SnapshotOf | cr-decktracker-api/services/clan_service.py:53-97 | the row has the clan, date, member tag and name and the roster donations; medals and war attacks are the member's war totals and total attacks are 4 per appearance; a failed battle-log fetch gives zero battles, wins and losses, otherwise the battle count is the log length and wins and losses are the record of the log |
| ClanStore.RecordBattlesBounded | cr-decktracker-api/services/clan_service.py:76-77 | counted battles are at most the log length |
| ClanStore.SnapshotRows | cr-decktracker-api/services/clan_service.py:53-98 | one row per member, in roster order |
| ClanStore.CaptureTakesTheDay | cr-decktracker-api/services/clan_service.py:31-102 | after a capture the day has a snapshot iff it had one before or the roster was non-empty |
| ClanStore.Database.constructor | cr-decktracker-api/models/clan.py:10-49 | both tables start empty |
| ClanStore.CaptureMember | cr-decktracker-api/services/clan_service.py:54-97 | the row built inside the capture loop is the member's snapshot row |
| ClanStore.Database.CreateClanSnapshot | cr-decktracker-api/services/clan_service.py:12-107 | an existing snapshot for the day, or a failed roster fetch, gives false with no change; otherwise true and the day's rows are appended, with no races when the river-race fetch failed; the tracked table is never changed |
| ClanStore.Database.FindSnapshot | cr-decktracker-api/services/clan_service.py:31-37 | found iff a row for the clan and day exists |
| ClanStore.RowsBetween | cr-decktracker-api/services/clan_service.py:138-151 | exactly the rows of the clan dated in the half-open range |
| ClanStore.RowsBetweenCounts | cr-decktracker-api/services/clan_service.py:138-151 | each row of the clan in the range is returned as often as it is stored, and no other row |
| ClanStore.RowsBetweenAppend | cr-decktracker-api/services/clan_service.py:138-151 | the query keeps insertion order: a concatenation of tables gives each part's rows in turn |
| ClanStore.FirstFor | cr-decktracker-api/services/clan_service.py:154-157 | none iff no row for the player; else the earliest such row |
| ClanStore.Baseline | cr-decktracker-api/services/clan_service.py:147-157 | none iff no row of the table has the clan and player and a date in the range; otherwise the first such row in insertion order |
| ClanStore.FirstForAppend | cr-decktracker-api/services/clan_service.py:154-157 | the first row for a player of a concatenation is the first part's when it has one, else the second's |
| ClanStore.FirstForWindow | cr-decktracker-api/services/clan_service.py:147-157 | the player's first row among the clan's rows of the period is the first qualifying row of the whole table |
| ClanStore.Delta | cr-decktracker-api/services/clan_service.py:164-189 | name, tag and total war attacks come from today's row; without a baseline every counting field is today's value |
| ClanStore.DeltaReconstructs | cr-decktracker-api/services/clan_service.py:164-189 | baseline plus delta is the latest value of each counting field; with no baseline the delta is the latest value; total war attacks are the latest |
| ClanStore.HistoricalStats | cr-decktracker-api/services/clan_service.py:110-197 | none iff no row for the clan today; else one entry per row of today, in order, each the delta against the member's first row, in insertion order of the whole table, of the clan dated in the period before today |
| ClanStore.BaselineInPeriod | cr-decktracker-api/services/clan_service.py:135-151 | a baseline is a row of the same clan, player and period, dated before today |
| ClanStore.FirstForStep | cr-decktracker-api/services/clan_service.py:155-157 | appending a row only sets a player's first row when there was none |
| ClanStore.BaselineLookup | cr-decktracker-api/services/clan_service.py:153-157 | the lookup loop maps each player to their first old row |
| ClanStore.Deltas | cr-decktracker-api/services/clan_service.py:159-195 | the delta loop gives each latest row its delta against the lookup |
| ClanStore.GetHistoricalStats | cr-decktracker-api/services/clan_service.py:110-197 | the method computes the historical statistics above |
| ClanRoutes.StartTrackingClan | cr-decktracker-api/routes/clan.py:22-84 | an invalid tag is a 400 with no change; an already tracked clan is reported with its row and no snapshot; a failed clan fetch propagates; otherwise the clan is tracked actively with its name (default `Unknown`) and the first snapshot is attempted, reporting whether it was created |
| ClanRoutes.GetTrackingStatus | cr-decktracker-api/routes/clan.py:87-113 | an invalid tag propagates its error; tracked iff an active row exists, with its start and name, else both none |
| ClanRoutes.CreateSnapshot | cr-decktracker-api/routes/clan.py:116-152 | an invalid tag is a 400; untracked or inactive is a 404 ClanNotTracked with no change; otherwise the snapshot result, echoing the raw tag |
| ClanRoutes.FirstFieldOfJoin | cr-decktracker-api/routes/clan.py:199 | the part of a cache key before the first colon is the tag |
| ClanRoutes.SplitAtColon | cr-decktracker-api/routes/clan.py:199 | colon-joined keys with colon-free heads split uniquely |
| ClanRoutes.ValidatedTagHasNoColon | cr-decktracker-api/routes/clan.py:179-199 | a validated tag has no colon |
| ClanRoutes.StatsKeyInjective | cr-decktracker-api/routes/clan.py:179-199 | two requests share a stats cache key iff they have the same validated tag and period |
| ClanRoutes.StatsKeySplits | cr-decktracker-api/routes/clan.py:199 | for tags without a colon, equal stats keys mean equal tags and equal periods |
| ClanRoutes.Since | cr-decktracker-api/routes/clan.py:251-256 | fails iff some battle time does not parse; else exactly the timed battles at or after the cutoff, at most as many as the log |
| ClanRoutes.SinceCounts | cr-decktracker-api/routes/clan.py:251-256 | each battle at or after the cutoff is kept as often as it occurs, every other battle not at all, so the kept count is the row's battles |
| ClanRoutes.SinceAppend | cr-decktracker-api/routes/clan.py:251-256 | the filter keeps log order: a concatenation gives each part's kept battles in turn, and fails iff either part fails |
| ClanRoutes.FilterSince | cr-decktracker-api/routes/clan.py:251-256 | the filter loop computes that result |
| ClanRoutes.MemberStatsOf | cr-decktracker-api/routes/clan.py:239-324 | name, tag and donations always come from the roster; a failed fetch or unparsable time gives the zero row; otherwise battles is the number of kept battles, wins and losses are the record of the kept battles, the ranked and ladder fields are the `pathOfLegend` and `trail` mode statistics of the kept battles with their average crowns, war totals are matched against the raw clan tag, and last-seen comes from the profile |
| ClanRoutes.MemberStats | cr-decktracker-api/routes/clan.py:242-324 | the per-member body computes that row |
| ClanRoutes.MemberRows | cr-decktracker-api/routes/clan.py:238-324 | the member loop gives one row per member, in order |
| ClanRoutes.BuildStats | cr-decktracker-api/routes/clan.py:326-333 | the response carries the clan name, validated tag, period, one row per member, not tracked, no tracking date |
| ClanRoutes.StatsCache.constructor | cr-decktracker-api/routes/clan.py:198-205 | the cache starts empty |
| ClanRoutes.GetClanStats | cr-decktracker-api/routes/clan.py:155-350 | checks in order: tag (400), period (400), the general rate limit when a client address is present (429), a cache hit (no change), clan info error, roster error; otherwise the built statistics are returned and cached under `clan_stats:tag:period` for 300 s |
| ClanRoutes.RawTagMissesWarAttacks | cr-decktracker-api/routes/clan.py:271-279 | for any accepted tag typed without `#`, a standing under its validated tag counts nothing for the raw tag, while the validated tag counts the member's fame, decks used and 4 attacks |

## Left out

- Network, Redis and database I/O: every upstream payload, Redis value and database row is an input or an in-memory field. JSON (de)serialisation and the `hashlib.md5` of the query parameters are replaced by keying the cache on the path and parameters themselves.
- The cached JSON round trip and its truthiness tests (`if cached:`): a stored value is assumed to be served back intact.
- Floating point: average crowns, win rate and deck confidence are kept as numerator/denominator pairs, and `round(x, 2)` is not modelled. The fuzzy score is a real number, and `int()` of it is modelled as its floor.
- The fuzzy `WRatio` scorer is a parameter, because its string-similarity arithmetic is outside the core.
- `asyncio.sleep(1)` before the retry: time is a parameter, and the delay changes no result.
- Concurrency: the race between the rate limiter's get and its incr, and concurrent snapshot writes, are not modelled. Each check is one atomic step.
- TTL expiry in Redis is modelled by comparing an expiry time with `now`; eviction is not modelled.
- Authentication: JWT decoding, the user lookup that yields `tracked_by_user_id` (a parameter here) and the routes' `Depends` wiring.
- Upstream payloads that are malformed in shape: KeyError, TypeError and JSON-decode failures on a response. Payloads here are already typed, with absent fields as `None`; a battle log is always a list of battles.
- `get_clan_stats`'s generic 500 path for unexpected exceptions is not modelled, because typed payloads leave no unexpected exception. Per-member failures (fetch errors and unparsable battle times) are modelled as the zero row.
- SQL ordering: query results are taken in insertion order.
- Database commit and rollback failures in `create_clan_snapshot` are not modelled. Only a failed roster fetch is modelled as its failure path; a failed river-race fetch falls back to no races.
- Logging through `print` and `traceback`.
- Text is ASCII: character classes, case mapping and `strip` follow Python only on ASCII, and `quote` passes non-ASCII characters through instead of encoding them as UTF-8. `unquote` decodes only escapes of ASCII characters (`%00` to `%7F`); Python also decodes `%80` to `%FF` as UTF-8 (`%C3%A9` becomes `é`, a lone `%FF` becomes U+FFFD), so `EncTag` differs from `enc_tag` on tags holding such escapes.
- Date arithmetic: snapshot dates are day numbers and instants are seconds, so calendar conversion and timestamp formatting (`isoformat`) are not modelled.
- `PlayerService.ExtractOne`: rapidfuzz's `score_cutoff` handling and the tie-breaking choices inside its C implementation are taken as "first maximum".
