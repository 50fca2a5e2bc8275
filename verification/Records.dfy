/** The typed values the handler works with once a remote response has
    passed its schema: only the fields the ingestion reads are kept. */
module Records {
  import opened Wrappers

  /** The stage metadata (bracket.ts): the tournament row's id and name. */
  datatype Bracket = Bracket(id: string, name: string)

  /** One element of the stage's match list (matches.ts). */
  datatype ListEntry = ListEntry(id: string, isBye: bool)

  /** One player's statline inside a game's stats. */
  datatype StatPlayer = StatPlayer(
    puuid: string,
    inGameName: string,
    kills: real,
    deaths: real,
    assists: real,
    kda: real,
    headshotPercent: real)

  /** One team inside a game's stats, with its players. */
  datatype GameTeam = GameTeam(battlefyTeamID: string, name: string, players: seq<StatPlayer>)

  /** A side's score and winner flag in one game (`stats.top`, `stats.bottom`). */
  datatype SideScore = SideScore(score: real, winner: bool)

  /** One element of a match's `stats` array: one played map. */
  datatype Game = Game(gameID: string, top: SideScore, bottom: SideScore, teams: seq<GameTeam>)

  /** A side of a match detail (`top`, `bottom`). */
  datatype MatchSide = MatchSide(teamID: string, score: real, winner: bool)

  /** A match detail (match.ts) with its games. */
  datatype MatchDetail = MatchDetail(id: string, top: MatchSide, bottom: MatchSide, games: seq<Game>)

  /** A roster entry (teams.ts `CaptainSchema`). */
  datatype RosterPlayer = RosterPlayer(id: string, inGameName: string, username: Option<string>)

  /** A roster team (teams.ts `TeamElementSchema`). */
  datatype RosterTeam = RosterTeam(id: string, name: string, players: seq<RosterPlayer>)

  /** Why a remote response was rejected: the transport failed, or the
      named schema refused the body. */
  datatype FetchError = NetworkError | SchemaError(schema: string)
}
