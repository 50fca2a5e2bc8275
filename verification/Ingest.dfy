/** The `POST` handler of src/routes/api/valorant/newgame/+server.ts as one
    sequential pure function: the fetch results come in, the rows the
    handler writes are planned in the nesting order of its loops, and the
    plan is applied to the store. */
module Ingest {
  import opened Wrappers
  import opened JsonData
  import opened Records
  import opened Store
  import opened Registry
  import opened Fetch

  // Player resolution against the roster

  /** `Array.prototype.find` by `inGameName`: the index of the first
      matching roster entry, or the roster length when none matches. */
  function FirstByInGameName(roster: seq<RosterPlayer>, name: string): (i: nat)
    decreases |roster|
    ensures i <= |roster|
    ensures forall j | 0 <= j < i :: roster[j].inGameName != name
    ensures i < |roster| ==> roster[i].inGameName == name
  {
    if |roster| == 0 then 0
    else if roster[0].inGameName == name then 0
    else 1 + FirstByInGameName(roster[1..], name)
  }

  /** The roster entry a statline's player resolves to: none when the
      roster request failed or no entry carries the in-game name. */
  function Resolve(roster: Option<RosterTeam>, name: string): (r: Option<RosterPlayer>)
    ensures r.None? <==> roster.None? || forall p | p in roster.value.players :: p.inGameName != name
    ensures r.Some? ==> r.value in roster.value.players && r.value.inGameName == name
    ensures r.Some? ==> exists i | 0 <= i < |roster.value.players| ::
      roster.value.players[i] == r.value && forall j | 0 <= j < i :: roster.value.players[j].inGameName != name
  {
    if roster.None? then None
    else
      var ps := roster.value.players;
      var i := FirstByInGameName(ps, name);
      if i < |ps| then Some(ps[i]) else None
  }

  /** `!playerId?._id` and `!playerId?.username` stop the step: a missing
      or null username and an empty string are all falsy. */
  predicate Persistable(rp: RosterPlayer) {
    rp.id != "" && rp.username.Some? && rp.username.value != ""
  }

  /** The player resolves to a roster entry the step can persist. */
  predicate Resolved(roster: Option<RosterTeam>, p: StatPlayer) {
    var rp := Resolve(roster, p.inGameName);
    rp.Some? && Persistable(rp.value)
  }

  // Per-row invariants

  /** A match or game row names one of its two teams as winner. */
  predicate WinnerOk(r: Row) {
    (r.MatchRow? || r.GameRow?) ==> r.winner == r.team1 || r.winner == r.team2
  }

  /** Every statline among the writes comes with a write for its player. */
  predicate PlayersBacked(rows: seq<Row>) {
    forall r | r in rows && r.StatlineRow? :: PlayerKey(r.playerId) in KeysOf(rows)
  }

  /** Every statline among the writes comes with a write for its team. */
  predicate TeamsBacked(rows: seq<Row>) {
    forall r | r in rows && r.StatlineRow? :: TeamKey(r.teamId) in KeysOf(rows)
  }

  /** Every statline among the writes comes with a write for its game. */
  predicate GamesBacked(rows: seq<Row>) {
    forall r | r in rows && r.StatlineRow? :: GameKey(r.gameId) in KeysOf(rows)
  }

  /** No statline among the writes refers to a player, team or game the
      same writes do not also create (or find present). */
  predicate Closed(rows: seq<Row>) {
    PlayersBacked(rows) && TeamsBacked(rows) && GamesBacked(rows)
  }

  lemma BackedConcat(a: seq<Row>, b: seq<Row>)
    ensures PlayersBacked(a) && PlayersBacked(b) ==> PlayersBacked(a + b)
    ensures TeamsBacked(a) && TeamsBacked(b) ==> TeamsBacked(a + b)
    ensures GamesBacked(a) && GamesBacked(b) ==> GamesBacked(a + b)
  {
    KeysOfConcat(a, b);
  }

  /** Every statline among the writes belongs to the given game. */
  predicate StatlinesOfGame(rows: seq<Row>, gameId: string) {
    forall r | r in rows && r.StatlineRow? :: r.gameId == gameId
  }

  /** Every player of the given teams that resolves gets a statline for the game. */
  predicate CoversTeams(rows: seq<Row>, gameId: string, ts: seq<GameTeam>, roster: Option<RosterTeam>) {
    forall t, p | t in ts && p in t.players && Resolved(roster, p) ::
      StatlineKey(gameId, Resolve(roster, p.inGameName).value.id) in KeysOf(rows)
  }

  // The rows the second pass writes, innermost first

  /** One player of one team in one game (+server.ts:118-152): the player
      row is an insert-if-absent and the statline is written for every
      game the player resolves in. */
  function PlayerRows(gameId: string, teamId: string, p: StatPlayer, roster: Option<RosterTeam>): (rows: seq<Row>)
    ensures Resolved(roster, p) ==> |rows| == 2
    ensures !Resolved(roster, p) ==> rows == []
    ensures Resolved(roster, p) ==>
      var rp := Resolve(roster, p.inGameName).value;
      && rows[0] == PlayerRow(rp.id, rp.username.value, p.puuid)
      && rows[1] == StatlineRow(gameId, rp.id, teamId, p.kills, p.deaths, p.assists, p.kda, p.headshotPercent)
  {
    var rp := Resolve(roster, p.inGameName);
    if rp.None? || !Persistable(rp.value) then []
    else
      [PlayerRow(rp.value.id, rp.value.username.value, p.puuid),
       StatlineRow(gameId, rp.value.id, teamId, p.kills, p.deaths, p.assists, p.kda, p.headshotPercent)]
  }

  function PlayersRows(gameId: string, teamId: string, ps: seq<StatPlayer>, roster: Option<RosterTeam>): (rows: seq<Row>)
    decreases |ps|
    ensures forall r | r in rows ::
      r.PlayerRow? || (r.StatlineRow? && r.gameId == gameId && r.teamId == teamId && PlayerKey(r.playerId) in KeysOf(rows))
    ensures forall p | p in ps && Resolved(roster, p) ::
      StatlineKey(gameId, Resolve(roster, p.inGameName).value.id) in KeysOf(rows)
  {
    if |ps| == 0 then []
    else
      var head := PlayerRows(gameId, teamId, ps[0], roster);
      var tail := PlayersRows(gameId, teamId, ps[1..], roster);
      KeysOfConcat(head, tail);
      KeysOfMembers(head);
      assert forall p | p in ps :: p == ps[0] || p in ps[1..];
      head + tail
  }

  /** One team of one game (+server.ts:105-116): an insert-if-absent of the
      team by `battlefy_id`, then its players. */
  function TeamRows(gameId: string, t: GameTeam, roster: Option<RosterTeam>): (rows: seq<Row>)
    ensures |rows| > 0 && rows[0] == TeamRow(t.battlefyTeamID, t.name)
    ensures forall r | r in rows :: r.TeamRow? || r.PlayerRow? || r.StatlineRow?
    ensures PlayersBacked(rows) && TeamsBacked(rows) && StatlinesOfGame(rows, gameId)
    ensures TeamIdsOf(rows) == {t.battlefyTeamID}
    ensures CoversTeams(rows, gameId, [t], roster)
  {
    var players := PlayersRows(gameId, t.battlefyTeamID, t.players, roster);
    var rows := [TeamRow(t.battlefyTeamID, t.name)] + players;
    KeysOfConcat([TeamRow(t.battlefyTeamID, t.name)], players);
    assert KeysOf([TeamRow(t.battlefyTeamID, t.name)]) == {TeamKey(t.battlefyTeamID)};
    rows
  }

  /** The teams of one game, in order. */
  function TeamsRows(gameId: string, ts: seq<GameTeam>, roster: Option<RosterTeam>): (rows: seq<Row>)
    decreases |ts|
    ensures forall r | r in rows :: r.TeamRow? || r.PlayerRow? || r.StatlineRow?
    ensures PlayersBacked(rows) && TeamsBacked(rows) && StatlinesOfGame(rows, gameId)
    ensures TeamIdsOf(rows) == KeySet(ts, TeamIdOf)
    ensures CoversTeams(rows, gameId, ts, roster)
  {
    if |ts| == 0 then []
    else
      var head := TeamRows(gameId, ts[0], roster);
      var tail := TeamsRows(gameId, ts[1..], roster);
      BackedConcat(head, tail);
      CoversTeamsConcat(head, tail, gameId, ts, roster);
      KeySetCons(ts, TeamIdOf);
      head + tail
  }

  lemma CoversTeamsConcat(head: seq<Row>, tail: seq<Row>, gameId: string, ts: seq<GameTeam>, roster: Option<RosterTeam>)
    requires |ts| > 0
    requires CoversTeams(head, gameId, [ts[0]], roster)
    requires CoversTeams(tail, gameId, ts[1..], roster)
    ensures CoversTeams(head + tail, gameId, ts, roster)
  {
    KeysOfConcat(head, tail);
    assert forall u | u in ts :: u == ts[0] || u in ts[1..];
  }

  /** Every match or game row among the writes names one of its teams as winner. */
  predicate WinnersOk(rows: seq<Row>) {
    forall r | r in rows :: WinnerOk(r)
  }

  /** Every resolving player of every team of the given games gets a
      statline for that game. */
  predicate CoversGames(rows: seq<Row>, gs: seq<Game>, roster: Option<RosterTeam>) {
    forall g, t, p | g in gs && t in g.teams && p in t.players && Resolved(roster, p) ::
      StatlineKey(g.gameID, Resolve(roster, p.inGameName).value.id) in KeysOf(rows)
  }

  lemma CoversGamesConcat(head: seq<Row>, tail: seq<Row>, gs: seq<Game>, roster: Option<RosterTeam>)
    requires |gs| > 0
    requires CoversGames(head, [gs[0]], roster)
    requires CoversGames(tail, gs[1..], roster)
    ensures CoversGames(head + tail, gs, roster)
  {
    KeysOfConcat(head, tail);
    assert forall g | g in gs :: g == gs[0] || g in gs[1..];
  }

  /** The game row (+server.ts:95-103): both teams come from the match
      detail, the scores from the game's own sides, and the winner is
      chosen by the game's `top.winner` flag. Its `match_id` is the id of
      the list entry, not of the detail. */
  function GameRowOf(entryId: string, m: MatchDetail, g: Game): (r: Row)
    ensures r.GameRow? && KeyOf(r) == GameKey(g.gameID) && r.matchId == entryId
    ensures r.team1 == m.top.teamID && r.team2 == m.bottom.teamID
    ensures r.team1Score == g.top.score && r.team2Score == g.bottom.score
    ensures WinnerOk(r)
    ensures g.top.winner ==> r.winner == m.top.teamID
    ensures !g.top.winner ==> r.winner == m.bottom.teamID
  {
    GameRow(g.gameID, entryId, m.top.teamID, m.bottom.teamID, g.top.score, g.bottom.score,
      if g.top.winner then m.top.teamID else m.bottom.teamID)
  }

  /** One game: its row, then its teams. */
  function GameRows(entryId: string, m: MatchDetail, g: Game, roster: Option<RosterTeam>): (rows: seq<Row>)
    ensures WinnersOk(rows) && Closed(rows)
    ensures TeamIdsOf(rows) == KeySet(g.teams, TeamIdOf)
    ensures MatchIdsOf(rows) == {}
    ensures CoversGames(rows, [g], roster)
  {
    var head := [GameRowOf(entryId, m, g)];
    var teams := TeamsRows(g.gameID, g.teams, roster);
    KeysOfConcat(head, teams);
    assert KeysOf(head) == {GameKey(g.gameID)};
    head + teams
  }

  /** The games of one match (+server.ts:94-165), in order. */
  function GamesRows(entryId: string, m: MatchDetail, gs: seq<Game>, roster: Option<RosterTeam>): (rows: seq<Row>)
    decreases |gs|
    ensures WinnersOk(rows) && Closed(rows)
    ensures TeamIdsOf(rows) == KeySet(SeenTeams(gs), TeamIdOf)
    ensures MatchIdsOf(rows) == {}
    ensures CoversGames(rows, gs, roster)
  {
    if |gs| == 0 then []
    else
      var head := GameRows(entryId, m, gs[0], roster);
      var tail := GamesRows(entryId, m, gs[1..], roster);
      BackedConcat(head, tail);
      CoversGamesConcat(head, tail, gs, roster);
      KeySetConcat(gs[0].teams, SeenTeams(gs[1..]), TeamIdOf);
      head + tail
  }

  /** The ids of the match details of the processed entries. */
  function ProcessedMatchIds(es: seq<ListEntry>, fetched: map<string, MatchDetail>): set<string> {
    set e | e in es && Processed(e, fetched) :: fetched[e.id].id
  }

  lemma ProcessedMatchIdsCons(es: seq<ListEntry>, fetched: map<string, MatchDetail>)
    requires |es| > 0
    ensures ProcessedMatchIds(es, fetched) == ProcessedMatchIds([es[0]], fetched) + ProcessedMatchIds(es[1..], fetched)
    ensures ProcessedMatchIds([es[0]], fetched) ==
      (if Processed(es[0], fetched) then {fetched[es[0].id].id} else {})
  {
    assert forall e | e in es :: e == es[0] || e in es[1..];
  }

  /** The match row (+server.ts:84-92): team 1 is the top side, team 2 the
      bottom side, and the winner is the top side exactly when its
      `winner` flag is set. */
  function MatchRowOf(b: Bracket, m: MatchDetail): (r: Row)
    ensures r.MatchRow? && KeyOf(r) == MatchKey(m.id) && r.tournamentId == b.id
    ensures r.team1 == m.top.teamID && r.team2 == m.bottom.teamID
    ensures r.team1Score == m.top.score && r.team2Score == m.bottom.score
    ensures WinnerOk(r)
    ensures m.top.winner ==> r.winner == m.top.teamID
    ensures !m.top.winner ==> r.winner == m.bottom.teamID
  {
    MatchRow(m.id, b.id, m.top.teamID, m.bottom.teamID, m.top.score, m.bottom.score,
      if m.top.winner then m.top.teamID else m.bottom.teamID)
  }

  /** One list entry of the second pass (+server.ts:75-166): a bye returns
      at once, a detail that cannot be fetched rejects the entry's callback
      before any write, otherwise the match row and then its games. */
  function EntryRows(b: Bracket, e: ListEntry, fetched: map<string, MatchDetail>, roster: Option<RosterTeam>): (rows: seq<Row>)
    ensures e.isBye ==> rows == []
    ensures e.id !in fetched ==> rows == []
    ensures WinnersOk(rows) && Closed(rows)
    ensures TeamIdsOf(rows) == KeySet(SeenTeams(SeenGames([e], fetched)), TeamIdOf)
    ensures MatchIdsOf(rows) == ProcessedMatchIds([e], fetched)
    ensures CoversGames(rows, SeenGames([e], fetched), roster)
  {
    assert [e][1..] == [];
    if !Processed(e, fetched) then
      ProcessedMatchIdsCons([e], fetched);
      []
    else
      var m := fetched[e.id];
      var head := [MatchRowOf(b, m)];
      var games := GamesRows(e.id, m, m.games, roster);
      ProcessedMatchIdsCons([e], fetched);
      MatchIdsOfConcat(head, games);
      KeysOfConcat(head, games);
      BackedConcat(head, games);
      assert SeenGames([e], fetched) == m.games;
      head + games
  }

  /** Every list entry of the second pass, in list order. */
  function EntriesRows(b: Bracket, es: seq<ListEntry>, fetched: map<string, MatchDetail>, roster: Option<RosterTeam>): (rows: seq<Row>)
    decreases |es|
    ensures WinnersOk(rows) && Closed(rows)
    ensures TeamIdsOf(rows) == KeySet(SeenTeams(SeenGames(es, fetched)), TeamIdOf)
    ensures MatchIdsOf(rows) == ProcessedMatchIds(es, fetched)
    ensures CoversGames(rows, SeenGames(es, fetched), roster)
  {
    if |es| == 0 then []
    else
      var head := EntryRows(b, es[0], fetched, roster);
      var tail := EntriesRows(b, es[1..], fetched, roster);
      BackedConcat(head, tail);
      KeysOfConcat(head, tail);
      MatchIdsOfConcat(head, tail);
      ProcessedMatchIdsCons(es, fetched);
      SeenGamesConcat([es[0]], es[1..], fetched);
      assert [es[0]] + es[1..] == es;
      SeenTeamsConcat(SeenGames([es[0]], fetched), SeenGames(es[1..], fetched));
      KeySetConcat(SeenTeams(SeenGames([es[0]], fetched)), SeenTeams(SeenGames(es[1..], fetched)), TeamIdOf);
      head + tail
  }

  /** Every row the handler writes after the early exits, in the nesting
      order of its loops: the tournament row (+server.ts:68-73), whose
      counts are the sizes of the first pass's registries, then every entry
      in list order. */
  function Plan(b: Bracket, es: seq<ListEntry>, fetched: map<string, MatchDetail>, roster: Option<RosterTeam>): (rows: seq<Row>)
    ensures |rows| > 0
    ensures rows[0] == TournamentRow(b.id, b.name,
      |KeySet(SeenTeams(SeenGames(es, fetched)), TeamIdOf)|,
      |KeySet(SeenPlayers(SeenTeams(SeenGames(es, fetched))), PuuidOf)|)
    ensures WinnersOk(rows) && Closed(rows)
    ensures TeamIdsOf(rows) == TeamRegistry(es, fetched).Keys
    ensures MatchIdsOf(rows) == ProcessedMatchIds(es, fetched)
    ensures CoversGames(rows, SeenGames(es, fetched), roster)
  {
    var teams := TeamRegistry(es, fetched);
    var players := PlayerRegistry(es, fetched);
    RegistrySize(SeenTeams(SeenGames(es, fetched)), TeamIdOf);
    RegistrySize(SeenPlayers(SeenTeams(SeenGames(es, fetched))), PuuidOf);
    var head := [TournamentRow(b.id, b.name, |teams|, |players|)];
    var tail := EntriesRows(b, es, fetched, roster);
    BackedConcat(head, tail);
    KeysOfConcat(head, tail);
    head + tail
  }

  // The handler

  datatype Response = Response(status: nat, body: Option<string>)

  const BadRequest := Response(400, None)
  const Ok := Response(200, Some("OK"))

  datatype Outcome = Outcome(response: Response, db: Db)

  /** The roster the player step resolves against: `getTeams` and the
      `TeamElementSchema` check repeated on its result, none on failure. */
  function RosterOf(dr: DateRule, rosterResponse: Option<Json>): (r: Option<RosterTeam>)
    ensures r.Some? <==> GetTeams(dr, rosterResponse).Success?
  {
    var roster := GetTeams(dr, rosterResponse);
    if roster.Success? then Some(roster.value) else None
  }

  /** The `POST` handler. Both the stage and its match list are requested
      first; if either cannot be obtained the response is 400 and nothing
      is written. Otherwise every planned row is inserted and the response
      is 200 `OK`. */
  function Run(dr: DateRule, bracketResponse: Option<Json>, listResponse: Option<Json>,
               detailResponses: map<string, Json>, rosterResponse: Option<Json>, db: Db): (o: Outcome)
    ensures o.response == BadRequest <==> GetBracket(dr, bracketResponse).Failure? || GetMatchList(dr, listResponse).Failure?
    ensures o.response == BadRequest ==> o.db == db
    ensures o.response != BadRequest ==> o.response == Ok
    ensures forall k | k in db :: k in o.db && o.db[k] == db[k]
    ensures WellKeyed(db) ==> WellKeyed(o.db)
    ensures forall k | k in o.db && k !in db :: WinnerOk(o.db[k])
    ensures forall k | k in o.db && k !in db && o.db[k].StatlineRow? ::
      var s := o.db[k];
      PlayerKey(s.playerId) in o.db && TeamKey(s.teamId) in o.db && GameKey(s.gameId) in o.db
  {
    var bracket := GetBracket(dr, bracketResponse);
    var list := GetMatchList(dr, listResponse);
    if bracket.Failure? || list.Failure? then Outcome(BadRequest, db)
    else
      var fetched := FetchedDetails(dr, detailResponses);
      var rows := Plan(bracket.value, list.value, fetched, RosterOf(dr, rosterResponse));
      Outcome(Ok, Apply(db, rows))
  }
}
