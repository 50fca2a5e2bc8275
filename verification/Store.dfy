/** The persistence state the handler writes to (the six tables of
    src/lib/server/schema.ts that the ingestion touches), as one map from
    primary key to row. Every write is an insert that does nothing when a
    row with the same key is already stored: for matches, games, the
    tournament and statlines the table's primary key refuses the duplicate,
    for teams and players the handler's existence check skips it. */
module Store {

  datatype Key =
    | TournamentKey(tournamentId: string)
    | MatchKey(matchId: string)
    | GameKey(gameId: string)
    | TeamKey(battlefyId: string)
    | PlayerKey(playerId: string)
    | StatlineKey(statGameId: string, statPlayerId: string)

  datatype Row =
    | TournamentRow(id: string, name: string, teams: nat, players: nat)
    | MatchRow(id: string, tournamentId: string, team1: string, team2: string,
               team1Score: real, team2Score: real, winner: string)
    | GameRow(id: string, matchId: string, team1: string, team2: string,
              team1Score: real, team2Score: real, winner: string)
    | TeamRow(battlefyId: string, name: string)
    | PlayerRow(id: string, name: string, linkedUserId: string)
    | StatlineRow(gameId: string, playerId: string, teamId: string,
                  kills: real, deaths: real, assists: real,
                  kda: real, headshotPercentage: real)

  /** The primary key of a row: the statline key is (game_id, player_id). */
  function KeyOf(r: Row): Key {
    match r
    case TournamentRow(id, _, _, _) => TournamentKey(id)
    case MatchRow(id, _, _, _, _, _, _) => MatchKey(id)
    case GameRow(id, _, _, _, _, _, _) => GameKey(id)
    case TeamRow(battlefyId, _) => TeamKey(battlefyId)
    case PlayerRow(id, _, _) => PlayerKey(id)
    case StatlineRow(gameId, playerId, _, _, _, _, _, _) => StatlineKey(gameId, playerId)
  }

  /** Rows of different tables never share a key, and two statlines share a
      key exactly when they are for the same game and player. */
  lemma KeyOfPrimaryKeys(a: Row, b: Row)
    ensures KeyOf(a) == KeyOf(b) ==>
      && a.TournamentRow? == b.TournamentRow? && a.MatchRow? == b.MatchRow?
      && a.GameRow? == b.GameRow? && a.TeamRow? == b.TeamRow?
      && a.PlayerRow? == b.PlayerRow? && a.StatlineRow? == b.StatlineRow?
    ensures a.StatlineRow? && b.StatlineRow? ==>
      (KeyOf(a) == KeyOf(b) <==> a.gameId == b.gameId && a.playerId == b.playerId)
    ensures a.TeamRow? && b.TeamRow? ==> (KeyOf(a) == KeyOf(b) <==> a.battlefyId == b.battlefyId)
    ensures a.PlayerRow? && b.PlayerRow? ==> (KeyOf(a) == KeyOf(b) <==> a.id == b.id)
  {
  }

  type Db = map<Key, Row>

  /** Every stored row sits under its own key. */
  predicate WellKeyed(db: Db) {
    forall k | k in db :: KeyOf(db[k]) == k
  }

  /** The set of keys a sequence of writes targets. */
  function KeysOf(rows: seq<Row>): set<Key> {
    if |rows| == 0 then {} else {KeyOf(rows[0])} + KeysOf(rows[1..])
  }

  /** Insert-if-absent: a write under a stored key changes nothing. */
  function Insert(db: Db, r: Row): (d: Db)
    ensures d.Keys == db.Keys + {KeyOf(r)}
    ensures forall k | k in db :: d[k] == db[k]
    ensures KeyOf(r) !in db ==> d[KeyOf(r)] == r
  {
    if KeyOf(r) in db then db else db[KeyOf(r) := r]
  }

  /** The writes performed one after the other. */
  function Apply(db: Db, rows: seq<Row>): (d: Db)
    decreases |rows|
    ensures d.Keys == db.Keys + KeysOf(rows)
    ensures forall k | k in db :: d[k] == db[k]
    ensures forall k | k in d && k !in db :: d[k] in rows && KeyOf(d[k]) == k
  {
    if |rows| == 0 then db else Apply(Insert(db, rows[0]), rows[1..])
  }

  lemma {:induction false} KeysOfConcat(a: seq<Row>, b: seq<Row>)
    ensures KeysOf(a + b) == KeysOf(a) + KeysOf(b)
    decreases |a|
  {
    if |a| == 0 {
      assert a + b == b;
    } else {
      assert (a + b)[1..] == a[1..] + b;
      KeysOfConcat(a[1..], b);
    }
  }

  lemma {:induction false} KeysOfMembers(rows: seq<Row>)
    ensures forall r | r in rows :: KeyOf(r) in KeysOf(rows)
    ensures forall k | k in KeysOf(rows) :: exists r | r in rows :: KeyOf(r) == k
    decreases |rows|
  {
    if |rows| > 0 {
      KeysOfMembers(rows[1..]);
      assert forall r | r in rows :: r == rows[0] || r in rows[1..];
    }
  }

  /** Writes into a well-keyed store keep it well keyed. */
  lemma ApplyWellKeyed(db: Db, rows: seq<Row>)
    requires WellKeyed(db)
    ensures WellKeyed(Apply(db, rows))
  {
  }

  /** When every key the writes target is already stored, they change nothing. */
  lemma {:induction false} ApplyNoop(db: Db, rows: seq<Row>)
    requires KeysOf(rows) <= db.Keys
    ensures Apply(db, rows) == db
    decreases |rows|
  {
    if |rows| > 0 {
      assert Insert(db, rows[0]) == db;
      ApplyNoop(db, rows[1..]);
    }
  }

  /** Performing the same writes a second time changes nothing. */
  lemma ApplyIdempotent(db: Db, rows: seq<Row>)
    ensures Apply(Apply(db, rows), rows) == Apply(db, rows)
  {
    ApplyNoop(Apply(db, rows), rows);
  }

  /** Writing `a` then `b` is writing `a + b`. */
  lemma {:induction false} ApplyConcat(db: Db, a: seq<Row>, b: seq<Row>)
    ensures Apply(db, a + b) == Apply(Apply(db, a), b)
    decreases |a|
  {
    if |a| == 0 {
      assert a + b == b;
    } else {
      assert (a + b)[1..] == a[1..] + b;
      ApplyConcat(Insert(db, a[0]), a[1..], b);
    }
  }

  /** A key that was not stored ends up holding the first row written under it. */
  lemma {:induction false} ApplyFirstWins(db: Db, rows: seq<Row>, i: nat)
    requires i < |rows|
    requires KeyOf(rows[i]) !in db
    requires forall j | 0 <= j < i :: KeyOf(rows[j]) != KeyOf(rows[i])
    ensures KeyOf(rows[i]) in Apply(db, rows) && Apply(db, rows)[KeyOf(rows[i])] == rows[i]
    decreases |rows|
  {
    KeysOfMembers(rows);
    if i == 0 {
      var d := Insert(db, rows[0]);
      assert d[KeyOf(rows[0])] == rows[0];
    } else {
      assert KeyOf(rows[0]) != KeyOf(rows[i]);
      ApplyFirstWins(Insert(db, rows[0]), rows[1..], i - 1);
    }
  }

  /** The external ids of the stored teams. */
  function TeamIds(db: Db): set<string> {
    set k | k in db && k.TeamKey? :: k.battlefyId
  }

  /** The team ids a sequence of writes targets. */
  function TeamIdsOf(rows: seq<Row>): set<string> {
    set r | r in rows && r.TeamRow? :: r.battlefyId
  }

  /** The ids of the stored matches. */
  function MatchIds(db: Db): set<string> {
    set k | k in db && k.MatchKey? :: k.matchId
  }

  /** The match ids a sequence of writes targets. */
  function MatchIdsOf(rows: seq<Row>): set<string> {
    set r | r in rows && r.MatchRow? :: r.id
  }

  lemma MatchIdsOfConcat(a: seq<Row>, b: seq<Row>)
    ensures MatchIdsOf(a + b) == MatchIdsOf(a) + MatchIdsOf(b)
  {
    assert forall r | r in a + b :: r in a || r in b;
  }
}
