/** Two steps of the handler's second pass as they are written, next to the
    corrected steps the rest of the model uses. */
module Findings {
  import opened Wrappers
  import opened Records
  import opened Store
  import opened Ingest

  /** The JavaScript value a persistence lookup evaluates to. */
  datatype JsValue = Undefined | Found(row: Row) | PendingPromise

  /** JavaScript truthiness: `undefined` is falsy, every object (a row, a
      promise) is truthy. */
  predicate Truthy(v: JsValue) {
    !v.Undefined?
  }

  // Team insert-if-absent (+server.ts:106-116)

  /** `db.query.team.findFirst(...)` without `await`: whatever is stored,
      the expression is a promise object. */
  function UnawaitedTeamLookup(db: Db, battlefyId: string): JsValue {
    PendingPromise
  }

  /** The team step as written: `if (!teamCheck)` tests the promise. */
  function TeamStepAsWritten(db: Db, t: GameTeam): (d: Db)
    ensures forall k | k in db :: k in d && d[k] == db[k]
    ensures TeamKey(t.battlefyTeamID) in d <==> TeamKey(t.battlefyTeamID) in db
  {
    var teamCheck := UnawaitedTeamLookup(db, t.battlefyTeamID);
    if !Truthy(teamCheck) then Insert(db, TeamRow(t.battlefyTeamID, t.name)) else db
  }

  /** As written, the team step never inserts, so a team that is not
      stored yet stays missing. */
  lemma TeamNeverInsertedAsWritten(db: Db, t: GameTeam)
    ensures TeamStepAsWritten(db, t) == db
    ensures TeamKey(t.battlefyTeamID) !in db ==> TeamKey(t.battlefyTeamID) !in TeamStepAsWritten(db, t)
  {
  }

  /** The awaited lookup the check means: the stored team or `undefined`. */
  function TeamLookup(db: Db, battlefyId: string): (v: JsValue)
    ensures Truthy(v) <==> TeamKey(battlefyId) in db
  {
    if TeamKey(battlefyId) in db then Found(db[TeamKey(battlefyId)]) else Undefined
  }

  /** The corrected team step: insert only when no team with that
      `battlefy_id` is found. It is the keyed insert the plan performs. */
  function TeamStep(db: Db, t: GameTeam): (d: Db)
    ensures TeamKey(t.battlefyTeamID) in d
    ensures TeamKey(t.battlefyTeamID) in db ==> d == db
    ensures TeamKey(t.battlefyTeamID) !in db ==> d == db[TeamKey(t.battlefyTeamID) := TeamRow(t.battlefyTeamID, t.name)]
    ensures d == Insert(db, TeamRow(t.battlefyTeamID, t.name))
  {
    var teamCheck := TeamLookup(db, t.battlefyTeamID);
    if !Truthy(teamCheck) then db[TeamKey(t.battlefyTeamID) := TeamRow(t.battlefyTeamID, t.name)] else db
  }

  // Player and statline (+server.ts:118-152)

  /** The player step as written: once a player with the resolved id is
      stored, the callback returns before the statline insert too. */
  function PlayerStepAsWritten(db: Db, gameId: string, teamId: string, p: StatPlayer, roster: Option<RosterTeam>): (d: Db)
    ensures forall k | k in db :: k in d && d[k] == db[k]
    ensures !Resolved(roster, p) ==> d == db
    ensures Resolved(roster, p) && PlayerKey(Resolve(roster, p.inGameName).value.id) in db ==> d == db
    ensures Resolved(roster, p) && PlayerKey(Resolve(roster, p.inGameName).value.id) !in db ==>
      var id := Resolve(roster, p.inGameName).value.id;
      PlayerKey(id) in d && StatlineKey(gameId, id) in d
  {
    var rp := Resolve(roster, p.inGameName);
    if rp.None? || !Persistable(rp.value) then db
    else if PlayerKey(rp.value.id) in db then db
    else
      var withPlayer := Insert(db, PlayerRow(rp.value.id, rp.value.username.value, p.puuid));
      Insert(withPlayer, StatlineRow(gameId, rp.value.id, teamId, p.kills, p.deaths, p.assists, p.kda, p.headshotPercent))
  }

  /** As written, a stored player gets no statline for a new game. */
  lemma StatlineSuppressedAsWritten(db: Db, gameId: string, teamId: string, p: StatPlayer, roster: Option<RosterTeam>)
    requires Resolved(roster, p)
    requires PlayerKey(Resolve(roster, p.inGameName).value.id) in db
    requires StatlineKey(gameId, Resolve(roster, p.inGameName).value.id) !in db
    ensures StatlineKey(gameId, Resolve(roster, p.inGameName).value.id) !in PlayerStepAsWritten(db, gameId, teamId, p, roster)
  {
  }

  /** The corrected player step: the player row is an insert-if-absent and
      the statline is written whatever the player lookup finds. */
  function PlayerStep(db: Db, gameId: string, teamId: string, p: StatPlayer, roster: Option<RosterTeam>): (d: Db)
    ensures forall k | k in db :: k in d && d[k] == db[k]
    ensures Resolved(roster, p) ==>
      var id := Resolve(roster, p.inGameName).value.id;
      PlayerKey(id) in d && StatlineKey(gameId, id) in d
    ensures !Resolved(roster, p) ==> d == db
  {
    var rows := PlayerRows(gameId, teamId, p, roster);
    KeysOfMembers(rows);
    Apply(db, rows)
  }

  /** The same player in two games: as written one statline is stored, the
      corrected step stores one per game. */
  lemma SecondGameLosesStatline()
    ensures
      var roster := Some(RosterTeam("team", "Team", [RosterPlayer("u1", "Ace", Some("ace"))]));
      var p := StatPlayer("puuid-1", "Ace", 10.0, 5.0, 3.0, 2.6, 25.0);
      var asWritten := PlayerStepAsWritten(PlayerStepAsWritten(map[], "g1", "t1", p, roster), "g2", "t1", p, roster);
      var corrected := PlayerStep(PlayerStep(map[], "g1", "t1", p, roster), "g2", "t1", p, roster);
      && StatlineKey("g1", "u1") in asWritten
      && StatlineKey("g2", "u1") !in asWritten
      && StatlineKey("g1", "u1") in corrected
      && StatlineKey("g2", "u1") in corrected
  {
    var roster := Some(RosterTeam("team", "Team", [RosterPlayer("u1", "Ace", Some("ace"))]));
    var p := StatPlayer("puuid-1", "Ace", 10.0, 5.0, 3.0, 2.6, 25.0);
    assert Resolve(roster, "Ace") == Some(RosterPlayer("u1", "Ace", Some("ace")));
    assert Resolved(roster, p);
  }
}
