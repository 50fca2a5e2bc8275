# Battlefy stage ingestion, modelled in Dafny

This project models the ingestion endpoint of a Valorant leaderboard
site. A `POST` to `/api/valorant/newgame` names a Battlefy stage
(`bracket_id`). The handler then:

1. fetches the stage, its match list, each match's detail and the team
   roster from the Battlefy API;
2. validates every response with zod schemas;
3. builds run-scoped registries of the teams and players seen in the
   game stats;
4. writes tournament, match, game, team, player and statline rows to the
   database.

## Modules

- `JsonData`: the JSON value the API returns. It also holds the field
  predicates the schemas are built from: required field, and
  optional-or-null field (`.optional()` of a union with `z.null()`).
- `MatchesSchema`, `MatchSchema`, `TeamsSchema`, `BracketSchema`: one
  module per schema file. Each schema is a predicate over JSON. Each
  `safeParse` becomes a `Parse…` function that returns a `Result`.
  - The match-list and match-detail files share their statistics
    shapes. They differ only in the per-site counter object: sites A, B
    and C in the list, A and B in the detail. The shared shapes take that
    variant (`SiteShape`) as a parameter.
  - `z.coerce.date()` is a parameter `DateRule` (a predicate on the raw
    value). The model does not fix JavaScript's `Date` parsing.
- `Records`: the typed values the handler reads after validation.
- `Fetch`: the four retrieval helpers. The network call is an input:
  `None` is a request or `res.json()` that rejected. The schema check is
  modelled exactly.
- `Store`: the six tables as one map from primary key to row. Every
  write is an insert that does nothing when the key is already stored:
  - the match, game, tournament and statline tables have primary keys
    that refuse a duplicate;
  - for teams and players, the handler's existence check skips it.
- `Registry`: the two `Map`s of the first pass. `Map.set` over a
  sequence of values is `Register`.
- `Ingest`: the handler as one sequential function `Run`.
  - `Plan` lists the rows in the nesting order of the handler's loops:
    tournament, then per entry in list order the match, then per game
    the game row, then per team the team row, then per player the player
    row and the statline. The handler's actual order of issue differs
    (see "## Left out").
  - `Apply` performs them.
- `IngestProperties`: properties relating several runs or inputs:
  - idempotence;
  - skipped entries contribute nothing;
  - the stored matches and teams are exactly the expected ones;
  - one statline per game for every resolving player.
- `Findings`: two steps of the handler as written, each next to the
  corrected step that `Ingest` uses (see Findings below).

## Behaviour of the handler worth knowing

- **The model runs the corrected team and player steps.** Two steps of
  the handler do not do what they evidently intend (see Findings). The
  code never inserts a team (+server.ts:106-116). It also skips the
  statline of a player who is already stored (+server.ts:137). The model
  uses the corrected forms: `Ingest.TeamRows` always plans the team's
  insert-if-absent, and `Ingest.PlayerRows` writes the statline whether
  or not the player row already exists. `Ingest.Run` is built from them.
  The steps as written are `Findings.TeamStepAsWritten` and
  `Findings.PlayerStepAsWritten`.
- **Registry values.** The registries are `Map`s filled with `set`, so
  the last value stored under a key wins (`Registry.RegisterLastWins`).
  Only their sizes are used, for the tournament row's counts.
- **Which players are stored.** The player registry is keyed by the
  game-stats `puuid` and is not resolved against the roster. Player rows
  are keyed by the roster entry's `_id`. A player is persisted only when
  a roster entry with the same `inGameName` exists and has a truthy
  `_id` and `username`. An empty string is falsy, so it stops the step
  as a missing value would.
- **The response.** A run that gets past the stage and match-list
  fetches always answers 200 `OK`, whatever happens to individual
  entries. The `catch` blocks at +server.ts:64-67 and +server.ts:167-170
  cannot fire: with validated data nothing in the first pass throws, and
  the second pass's callbacks are `async`, so what they throw is never
  synchronous.
- **A failed detail fetch.** The first pass skips the entry. The second
  pass throws inside the entry's callback before any write. Nothing
  observes that rejection, so the entry writes nothing.
- **Nullable dates.** `readyAt` in the detail schema is declared
  non-nullable, but `z.coerce.date()` turns `null` into the epoch. A
  null `readyAt` is therefore accepted exactly when the date rule
  accepts null (`MatchSchema.DetailSideFields`).
- **The game row's `match_id`.** It is the list entry's `_id`
  (+server.ts:97). The match row's `id` is the detail's `_id`
  (+server.ts:85). The model keeps the two apart.

## Model

| member | source | states |
|---|---|---|
| MatchesSchema.ParseSide | src/lib/types/battlefy/matches.ts:3 | accepts exactly the JSON strings "Blue" and "Red" and returns the side whose label is the input |
| MatchesSchema.SideLabels | src/lib/types/battlefy/matches.ts:3 | a value is a valid side iff it is the label of some side, and parsing a label returns that side |
| MatchesSchema.ValidPlayer | src/lib/types/battlefy/matches.ts:19-38 | the player object: eighteen required fields, with per-site counters of the given shape |
| MatchesSchema.PlayerFields | src/lib/types/battlefy/matches.ts:19-38 | in a valid player, `puuid` and `inGameName` must be strings, the five statistics numbers and `teamId` a side label; replacing one keeps the player valid iff the new value has that type, and removing one invalidates it |
| MatchesSchema.ValidTeam | src/lib/types/battlefy/matches.ts:41-55 | a team in a game's stats: thirteen required fields including an array of players |
| MatchesSchema.TeamFields | src/lib/types/battlefy/matches.ts:44-46 | `battlefyTeamID` and `name` are required strings and `players` a required array of valid players |
| MatchesSchema.ValidStats | src/lib/types/battlefy/matches.ts:64-78 | the game statistics object: both side scores, the teams and the totals |
| MatchesSchema.ValidStat | src/lib/types/battlefy/matches.ts:81-90 | one game entry of a match: ids, game number, statistics and creation date |
| MatchesSchema.ValidListSide | src/lib/types/battlefy/matches.ts:125-133 | a side of a list entry: two required flags, the rest optional or null |
| MatchesSchema.ListSideFields | src/lib/types/battlefy/matches.ts:125-133 | `winner` and `disqualified` are required booleans; `seedNumber`, `teamID`, `readyAt`, `score` and `team` may each be removed or set to null without invalidating the side |
| MatchesSchema.ValidListEntry | src/lib/types/battlefy/matches.ts:137-155 | one entry of the match list |
| MatchesSchema.ListEntryFields | src/lib/types/battlefy/matches.ts:137-155 | `_id`, `isBye`, `matchNumber` and `roundNumber` are required with their types; `next`, `completedAt`, `isMarkedLive` and `stats` may be absent or null, and `stats` otherwise must be an array of valid three-site stats |
| MatchesSchema.ValidMatchList | src/lib/types/battlefy/matches.ts:136-156 | the match list: an array of valid entries |
| MatchesSchema.PerSiteCounters | src/lib/types/battlefy/matches.ts:12-16 | each of `A`, `B` (and `C` in the three-site shape) may be absent, null or a number and nothing else; the two-site shape accepts any `C` |
| MatchesSchema.PerSiteThreeNarrowsTwo | src/lib/types/battlefy/match.ts:12-15 | every three-site counter object also satisfies the two-site object of the detail schema |
| MatchesSchema.MatchListElements | src/lib/types/battlefy/matches.ts:136-156 | the empty array is a valid match list, appending an element keeps it valid iff the element is a valid entry, and no object is a match list |
| MatchesSchema.PlayerThreeNarrowsTwo | src/lib/types/battlefy/match.ts:18-37 | a player valid under the list schema is valid under the detail schema |
| MatchesSchema.TeamThreeNarrowsTwo | src/lib/types/battlefy/match.ts:40-54 | a stats team valid under the list schema is valid under the detail schema, player by player |
| MatchesSchema.StatsThreeNarrowsTwo | src/lib/types/battlefy/match.ts:63-77 | game stats valid under the list schema are valid under the detail schema, team by team |
| MatchesSchema.StatThreeNarrowsTwo | src/lib/types/battlefy/match.ts:80-89 | a game entry valid under the list schema is valid under the detail schema |
| MatchesSchema.ToStatPlayer | src/lib/types/battlefy/matches.ts:19-38 | the typed player carries the `puuid`, `inGameName` and the five statistics of the validated object |
| MatchesSchema.ToGameTeam | src/lib/types/battlefy/matches.ts:41-55 | the typed team carries `battlefyTeamID`, `name`, and the conversion of each player element, in order |
| MatchesSchema.ToSideScore | src/lib/types/battlefy/matches.ts:58-61 | the typed side score carries the validated `score` and `winner` |
| MatchesSchema.ToGame | src/lib/types/battlefy/matches.ts:81-90 | the typed game carries `gameID`, the score and winner flag of both sides, and the conversion of each element of `stats.teams`, in order |
| MatchesSchema.ToListEntry | src/lib/types/battlefy/matches.ts:137-155 | the typed entry carries the validated `_id` and `isBye` |
| MatchesSchema.ParseMatchList | src/routes/api/valorant/newgame/+server.ts:185-194 | succeeds iff the body satisfies the match-list schema, failing with the schema's error otherwise; on success one entry per element with the same id and bye flag |
| MatchSchema.DetailSideIsListSide | src/lib/types/battlefy/match.ts:109-116 | a detail side is also a list side, provided the `team` key the detail schema ignores is absent, null or a valid list team |
| MatchSchema.ListSideNotDetailSide | src/lib/types/battlefy/match.ts:112 | a list side with a null `seedNumber` stays a list side but is not a detail side |
| MatchSchema.ToMatchSide | src/lib/types/battlefy/match.ts:109-116 | the typed side carries the validated `teamID`, `score` and `winner` |
| MatchSchema.ValidDetailSide | src/lib/types/battlefy/match.ts:109-117 | a side of a match detail: six required fields, all declared non-nullable (a null `readyAt` still passes when `z.coerce.date()` accepts it) |
| MatchSchema.DetailSideFields | src/lib/types/battlefy/match.ts:109-116 | each of the six fields is required and accepts exactly its type, so none may be null except `readyAt` when the date rule accepts null |
| MatchSchema.ValidMatch | src/lib/types/battlefy/match.ts:119-137 | the match detail: all seventeen fields required, with two-site statistics |
| MatchSchema.MatchRequiredFields | src/lib/types/battlefy/match.ts:127-136 | `next`, `stats`, `completedAt` and `inConsolationBracket` are required and accept exactly a valid next object, an array of two-site stats, a date and a boolean |
| MatchSchema.SideScoreFields | src/lib/types/battlefy/match.ts:57-60 | a game side score requires a numeric `score` and a boolean `winner` |
| MatchSchema.ToMatchDetail | src/lib/types/battlefy/match.ts:119-137 | the typed detail carries `_id`, both sides converted from `top` and `bottom`, and the conversion of each element of `stats`, in order |
| MatchSchema.ParseMatch | src/routes/api/valorant/newgame/+server.ts:174-183 | succeeds iff the body satisfies the match-detail schema, failing with the schema's error otherwise; on success the id, both sides' `teamID`, `score` and `winner`, and each game's `gameID` and top winner flag are the body's |
| TeamsSchema.HeaderUrl | src/lib/types/battlefy/teams.ts:12-14 | any JSON value is a valid header iff it is an object with a string `url`, whatever other keys it has; an empty object is not a header |
| TeamsSchema.ValidRosterPlayer | src/lib/types/battlefy/teams.ts:45-63 | a roster player (the captain shape) |
| TeamsSchema.RosterPlayerFields | src/lib/types/battlefy/teams.ts:45-63 | `_id`, `inGameName` and the three flags are required with their types; `persistentPlayerID`, `userID`, `userSlug`, `username` and `avatarUrl` may be absent, and otherwise accept exactly null or a string; `equipment` may be absent, null or valid |
| TeamsSchema.ValidEquipment | src/lib/types/battlefy/teams.ts:38-42 | equipment |
| TeamsSchema.EquipmentFields | src/lib/types/battlefy/teams.ts:38-42 | `face` is a required string; `head` and `body` may be absent, and otherwise accept exactly null or a string |
| TeamsSchema.ValidPersistentTeam | src/lib/types/battlefy/teams.ts:17-35 | the persistent team of a roster team |
| TeamsSchema.PersistentTeamHeaders | src/lib/types/battlefy/teams.ts:20-22 | `logo`, `header` and `sponsor` are required and accept exactly valid headers |
| TeamsSchema.ValidRosterTeam | src/lib/types/battlefy/teams.ts:66-82 | one roster team |
| TeamsSchema.RosterTeamFields | src/lib/types/battlefy/teams.ts:66-82 | `_id` and `name` are required strings, `captain`, `players` and `persistentTeam` required and valid; `checkedInAt` may be absent, and otherwise accepts exactly null or a date |
| TeamsSchema.ToRosterPlayer | src/lib/types/battlefy/teams.ts:45-63 | the typed player carries `_id` and `inGameName`; its username is present iff the object holds a string `username`, and then equals it |
| TeamsSchema.ParseRosterTeam | src/routes/api/valorant/newgame/+server.ts:207-216 | succeeds iff the body satisfies the roster schema, failing with the schema's error otherwise; on success one typed player per array element, in order |
| BracketSchema.ParseBracket | src/routes/api/valorant/newgame/+server.ts:196-205 | succeeds iff the body satisfies the stage schema, failing with the schema's error otherwise; on success the id and name are the body's |
| BracketSchema.ValidBracket | src/lib/types/battlefy/bracket.ts:33-51 | the stage returned by the stage endpoint |
| BracketSchema.BracketFields | src/lib/types/battlefy/bracket.ts:33-51 | `_id` and `name` are required strings, the four timestamps required dates, `teamIDs` an array of strings, the other id lists arrays, and `bracket` and `schedule` required and valid |
| BracketSchema.ValidBracketClass | src/lib/types/battlefy/bracket.ts:22-30 | the bracket description of a stage |
| BracketSchema.BracketClassFields | src/lib/types/battlefy/bracket.ts:25-29 | `teamsCount` and `roundsCount` are required numbers, `hasThirdPlaceMatch` a required boolean and `series` a required array of valid series |
| BracketSchema.SeriesFields | src/lib/types/battlefy/bracket.ts:15-19 | `round` and `numGames` are required numbers and `roundType` a required string |
| BracketSchema.ScheduleFields | src/lib/types/battlefy/bracket.ts:9-12 | `rounds` is a required array of valid rounds and `allowRescheduling` a required boolean |
| BracketSchema.RoundFields | src/lib/types/battlefy/bracket.ts:3-6 | `roundNumber` is a required number and `startTime` a required string |
| Store.Insert | src/routes/api/valorant/newgame/+server.ts:138-142 | an insert adds its row's key, writes the row only when the key is new, and leaves every stored row unchanged |
| Store.KeyOfPrimaryKeys | src/lib/server/schema.ts:206-226 | rows of different tables never share a key; two statlines share one iff they have the same game and player (the statline's composite primary key); two teams iff the same `battlefy_id`, the column the existence check at +server.ts:106-111 looks up, since the team table's own primary key is a generated `id` (schema.ts:118) the handler never writes; two players iff the same `id`, looked up at +server.ts:132-136 |
| Store.Apply | src/routes/api/valorant/newgame/+server.ts:68-171 | the writes add exactly their keys, keep every stored row, and every new key holds one of the written rows under its own key |
| Store.ApplyWellKeyed | src/routes/api/valorant/newgame/+server.ts:68-171 | writing keeps every row stored under its own primary key |
| Store.ApplyNoop | src/routes/api/valorant/newgame/+server.ts:68-171 | writes whose keys are all stored change nothing |
| Store.ApplyIdempotent | src/routes/api/valorant/newgame/+server.ts:68-171 | performing the same writes twice stores the same as performing them once |
| Store.ApplyConcat | src/routes/api/valorant/newgame/+server.ts:68-171 | writing `a` then `b` is the same as writing `a + b` |
| Store.ApplyFirstWins | src/routes/api/valorant/newgame/+server.ts:68-171 | a key that was not stored ends up holding the first row written under it |
| Registry.Register | src/routes/api/valorant/newgame/+server.ts:57-59 | `Map.set` over a sequence: the key set grows by exactly the new keys, untouched keys keep their value, and each new key holds a value set under it |
| Registry.TeamRegistry | src/routes/api/valorant/newgame/+server.ts:55-58 | the team registry holds exactly the `battlefyTeamID`s of the teams of the processed games, each under a team that carries it |
| Registry.PlayerRegistry | src/routes/api/valorant/newgame/+server.ts:58-60 | the player registry holds exactly the `puuid`s of the players of those teams, each under a player that carries it |
| Registry.RegisterOne | src/routes/api/valorant/newgame/+server.ts:57 | setting an existing key adds no key, setting a new one adds exactly one, and the key then holds the value set |
| Registry.RegistrySize | src/routes/api/valorant/newgame/+server.ts:71-72 | the registry size is the number of distinct keys set, never more than the number of values set |
| Registry.RegisterLastWins | src/routes/api/valorant/newgame/+server.ts:57-59 | each key holds the last value set under it |
| Registry.RegisterKeepsUntouched | src/routes/api/valorant/newgame/+server.ts:57-59 | a key no later value carries keeps its stored value |
| Fetch.GetBracket | src/routes/api/valorant/newgame/+server.ts:196-205 | fails with a network error when there is no body, otherwise succeeds iff the body satisfies the stage schema |
| Fetch.GetMatchList | src/routes/api/valorant/newgame/+server.ts:185-194 | fails with a network error when there is no body, otherwise succeeds iff the body satisfies the match-list schema, with one entry per element |
| Fetch.GetMatch | src/routes/api/valorant/newgame/+server.ts:174-183 | fails with a network error when the request did not complete, otherwise succeeds iff the body satisfies the match-detail schema |
| Fetch.GetTeams | src/routes/api/valorant/newgame/+server.ts:207-216 | fails with a network error when there is no body, otherwise succeeds iff the body satisfies the roster schema |
| Fetch.FetchedDetails | src/routes/api/valorant/newgame/+server.ts:48-54 | an id has a detail iff `getMatch` succeeds for it, and the detail is the one `getMatch` returns |
| Ingest.FirstByInGameName | src/routes/api/valorant/newgame/+server.ts:128 | the index of the first roster entry with the in-game name, the roster length when none has it |
| Ingest.Resolve | src/routes/api/valorant/newgame/+server.ts:119-129 | no player iff the roster request failed or no roster entry has the name; otherwise the first roster entry that has it |
| Ingest.Persistable | src/routes/api/valorant/newgame/+server.ts:130-131 | the step goes on only when the roster entry has a truthy `_id` and a truthy `username`; an empty string stops it |
| Ingest.PlayerRows | src/routes/api/valorant/newgame/+server.ts:130-152 | a player that resolves to an entry with a non-empty id and username yields its player row and its statline for the game; any other player yields nothing |
| Ingest.PlayersRows | src/routes/api/valorant/newgame/+server.ts:118-153 | every statline of a team's players is for this game and team and comes with its player row, and every resolving player gets one |
| Ingest.TeamRows | src/routes/api/valorant/newgame/+server.ts:105-116 | a team writes its own row (id and name) first, then its players; every statline has its team and player written, all for this game |
| Ingest.TeamsRows | src/routes/api/valorant/newgame/+server.ts:105-158 | the teams of a game write exactly their distinct team ids, each statline backed by its player and team, and every resolving player gets a statline |
| Ingest.GameRowOf | src/routes/api/valorant/newgame/+server.ts:95-103 | the game row takes both teams from the match detail, the scores from the game, the list entry's id as `match_id`, and names the top team winner iff the game's top side won |
| Ingest.GameRows | src/routes/api/valorant/newgame/+server.ts:94-104 | one game's writes name one of their two teams as winner, are closed (every statline's player, team and game written), and cover every resolving player |
| Ingest.GamesRows | src/routes/api/valorant/newgame/+server.ts:94-162 | the same three properties for all games of a match, with the written team ids being those seen in the games |
| Ingest.MatchRowOf | src/routes/api/valorant/newgame/+server.ts:84-92 | the match row is keyed by the detail's id and the stage id, top team first, and names the top team winner iff its `winner` flag is set |
| Ingest.EntryRows | src/routes/api/valorant/newgame/+server.ts:75-92 | a bye and an entry whose detail could not be fetched write nothing; otherwise the match row and its games, with the properties above |
| Ingest.EntriesRows | src/routes/api/valorant/newgame/+server.ts:75-166 | the writes of all entries in list order keep every winner among the row's teams, are closed, write exactly the teams seen, and cover every resolving player of every processed game |
| Ingest.Plan | src/routes/api/valorant/newgame/+server.ts:68-73 | the first write is the tournament row, whose team and player counts are the distinct team ids and puuids of the first pass; the team rows written are exactly the team registry |
| Ingest.RosterOf | src/routes/api/valorant/newgame/+server.ts:119-126 | the roster is present iff `getTeams` and its schema check succeed |
| Ingest.Run | src/routes/api/valorant/newgame/+server.ts:17-172 | 400 with nothing written iff the stage or the match list cannot be obtained, otherwise 200 `OK`; stored rows are never changed; every new statline's player, team and game are stored |
| IngestProperties.RunIdempotent | src/routes/api/valorant/newgame/+server.ts:68-171 | running the handler a second time on the same responses returns the same response and changes nothing |
| IngestProperties.Kept | src/routes/api/valorant/newgame/+server.ts:46-54 | the entries kept are exactly the list entries that are not byes and whose detail was fetched |
| IngestProperties.SkippedEntriesContributeNothing | src/routes/api/valorant/newgame/+server.ts:75-83 | the handler writes the same rows for the list without its byes and failed entries as for the whole list |
| IngestProperties.RunMatchRowsAreProcessedEntries | src/routes/api/valorant/newgame/+server.ts:75-92 | on an empty store the stored match ids are exactly the detail ids of the entries that are not byes and whose detail was obtained |
| IngestProperties.RunTeamRowsMatchRegistry | src/routes/api/valorant/newgame/+server.ts:68-116 | on an empty store the stored team ids are exactly the first pass's team registry, and the tournament row counts exactly them |
| IngestProperties.RunWritesStatlinePerGame | src/routes/api/valorant/newgame/+server.ts:143-152 | a player that resolves gets a statline stored for every processed game they play in |
| Findings.TeamNeverInsertedAsWritten | src/routes/api/valorant/newgame/+server.ts:106-116 | as written the team check tests a promise, which is truthy, so the team step never inserts a missing team |
| Findings.TeamStepAsWritten | src/routes/api/valorant/newgame/+server.ts:106-116 | the team step as written keeps every stored row and stores the team only if it was already stored |
| Findings.TeamLookup | src/routes/api/valorant/newgame/+server.ts:106-111 | the awaited lookup is truthy iff a team with that `battlefy_id` is stored |
| Findings.TeamStep | src/routes/api/valorant/newgame/+server.ts:106-116 | the corrected team step always leaves the team stored, inserting it exactly when it was missing |
| Findings.StatlineSuppressedAsWritten | src/routes/api/valorant/newgame/+server.ts:132-152 | as written a player already stored gets no statline for a further game |
| Findings.PlayerStepAsWritten | src/routes/api/valorant/newgame/+server.ts:118-152 | the player step as written keeps every stored row, does nothing when the player does not resolve or is already stored, and otherwise stores the player and the statline |
| Findings.PlayerStep | src/routes/api/valorant/newgame/+server.ts:130-152 | the corrected step keeps every stored row and stores both the player and the statline for the game whenever the player resolves |
| Findings.SecondGameLosesStatline | src/routes/api/valorant/newgame/+server.ts:132-152 | one player in two games: as written only the first game's statline is stored, corrected both are |

## Left out

- Request parsing: the JSON body that carries `bracket_id`, and the URL
  templating of the four endpoints. The responses of the endpoints are
  inputs to `Ingest.Run`.
- `console.log` output: it has no effect on the result.
- Concurrency. The source runs `forEach(async …)` callbacks and
  un-awaited inserts concurrently, and answers before they finish. The
  model performs every write sequentially, in the nesting order of the
  loops. Interleavings between players of the same game are not
  modelled.
- The actual order of issue. Each entry's callback suspends at
  `await getMatch` (+server.ts:77), so match rows are issued in the
  order those requests resolve, not in list order. Each player callback
  suspends at `await getTeams` (+server.ts:119), so a match's player and
  statline inserts (+server.ts:138-152) come after all of that match's
  game rows and team lookups. Since `Store.Insert` keeps the first row
  written under a key, the order matters only for rows that share a key
  but differ in content. An example is one `battlefyTeamID` with two
  names in two matches: the model stores the name from the earlier
  entry in the list, the source the one from whichever `getMatch`
  resolves first. Properties about keys (`RunTeamRowsMatchRegistry`,
  `RunMatchRowsAreProcessedEntries`, `Closed`) do not depend on the
  order.
- Drizzle query builders. Their inserts are never awaited or executed in
  the source. The model treats each insert as performed, which is the
  handler's evident intent.
- `findFirst` lookups. They pass the key under `with` (relation loading)
  rather than `where`. The model treats them as lookups by that key.
- Repeated fetches. `getMatch` is called twice per entry (+server.ts:48
  and +server.ts:77), and `getTeams` once per player (+server.ts:119).
  The model uses one response per match id for both passes, and one
  roster response for the whole run.
- Column types and NOT NULL constraints of src/lib/server/schema.ts.
  Ids are `int` columns, but the handler writes Battlefy string ids.
  Scores are `tinyint`. Some inserts omit NOT NULL columns:
  `battlefy_id` of tournament and player, and the team's `id`. Rows
  keep the values as given and are keyed by the value the handler's
  checks and the primary keys use.
- Numeric types: all numbers are `real`. JavaScript's floating point
  rounding is not modelled.
- zod's output transformations: unknown keys are accepted (zod strips
  them), and the typed records keep only the fields the handler reads.
  Error diagnostics are reduced to the name of the schema that failed.
- Authentication hooks (src/hooks.server.ts) are not part of this model.

## Findings

| source | as written | input that shows it | evidently intended | confidence | as-written member | corrected member |
|---|---|---|---|---|---|---|
| src/routes/api/valorant/newgame/+server.ts:106-116 | `findFirst` is not awaited, so `teamCheck` is a promise, which is always truthy. `if (!teamCheck)` never inserts the team | any game team whose `battlefy_id` is not yet stored, e.g. on an empty database | insert the team when no team with that `battlefy_id` is stored | not executed; high | Findings.TeamNeverInsertedAsWritten | Findings.TeamStep |
| src/routes/api/valorant/newgame/+server.ts:132-152 | the early `return` for an already stored player also skips the statline insert, so a player gets a statline only for the first game processed | roster player `u1` named "Ace" playing games `g1` and `g2` | skip only the player insert, and write one statline per game | not executed; medium | Findings.SecondGameLosesStatline | Findings.PlayerStep |
