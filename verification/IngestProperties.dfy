/** Properties of the ingestion that relate several runs or several inputs. */
module IngestProperties {
  import opened Wrappers
  import opened JsonData
  import opened Records
  import opened Store
  import opened Registry
  import opened Fetch
  import opened Ingest

  /** Running the handler a second time on the same responses changes
      nothing: every row it would write is already stored, so no team,
      player or other row is duplicated. */
  lemma RunIdempotent(dr: DateRule, bracketResponse: Option<Json>, listResponse: Option<Json>,
                      detailResponses: map<string, Json>, rosterResponse: Option<Json>, db: Db)
    ensures
      var first := Run(dr, bracketResponse, listResponse, detailResponses, rosterResponse, db);
      Run(dr, bracketResponse, listResponse, detailResponses, rosterResponse, first.db) == first
  {
    var bracket := GetBracket(dr, bracketResponse);
    var list := GetMatchList(dr, listResponse);
    if bracket.Success? && list.Success? {
      var rows := Plan(bracket.value, list.value, FetchedDetails(dr, detailResponses), RosterOf(dr, rosterResponse));
      ApplyIdempotent(db, rows);
    }
  }

  /** The entries both passes actually process: no byes and no entry whose
      detail could not be obtained. */
  function Kept(es: seq<ListEntry>, fetched: map<string, MatchDetail>): (ks: seq<ListEntry>)
    decreases |es|
    ensures forall e | e in ks :: e in es && Processed(e, fetched)
    ensures forall e | e in es && Processed(e, fetched) :: e in ks
  {
    if |es| == 0 then []
    else
      assert forall e | e in es :: e == es[0] || e in es[1..];
      (if Processed(es[0], fetched) then [es[0]] else []) + Kept(es[1..], fetched)
  }

  lemma {:induction false} SeenGamesKept(es: seq<ListEntry>, fetched: map<string, MatchDetail>)
    ensures SeenGames(Kept(es, fetched), fetched) == SeenGames(es, fetched)
    decreases |es|
  {
    if |es| > 0 {
      SeenGamesKept(es[1..], fetched);
      var head := if Processed(es[0], fetched) then [es[0]] else [];
      SeenGamesConcat(head, Kept(es[1..], fetched), fetched);
      assert SeenGames(head, fetched) == (if Processed(es[0], fetched) then fetched[es[0].id].games else []) by {
        if Processed(es[0], fetched) {
          assert head[1..] == [];
        }
      }
    }
  }

  lemma {:induction false} EntriesRowsKept(b: Bracket, es: seq<ListEntry>, fetched: map<string, MatchDetail>, roster: Option<RosterTeam>)
    ensures EntriesRows(b, Kept(es, fetched), fetched, roster) == EntriesRows(b, es, fetched, roster)
    decreases |es|
  {
    if |es| > 0 {
      EntriesRowsKept(b, es[1..], fetched, roster);
      var ks := Kept(es[1..], fetched);
      if Processed(es[0], fetched) {
        assert Kept(es, fetched) == [es[0]] + ks;
        assert ([es[0]] + ks)[1..] == ks;
      } else {
        assert Kept(es, fetched) == ks;
      }
    }
  }

  /** Byes and entries whose detail fetch failed contribute nothing: the
      handler writes exactly what it writes for the list without them. */
  lemma SkippedEntriesContributeNothing(b: Bracket, es: seq<ListEntry>, fetched: map<string, MatchDetail>, roster: Option<RosterTeam>)
    ensures Plan(b, Kept(es, fetched), fetched, roster) == Plan(b, es, fetched, roster)
  {
    SeenGamesKept(es, fetched);
    EntriesRowsKept(b, es, fetched, roster);
  }

  lemma {:induction false} TeamIdsOfApply(rows: seq<Row>)
    ensures TeamIds(Apply(map[], rows)) == TeamIdsOf(rows)
  {
    var d := Apply(map[], rows);
    KeysOfMembers(rows);
    forall id | id in TeamIdsOf(rows) ensures id in TeamIds(d) {
      var r :| r in rows && r.TeamRow? && r.battlefyId == id;
      assert TeamKey(id) in d;
    }
    forall id | id in TeamIds(d) ensures id in TeamIdsOf(rows) {
      assert TeamKey(id) in KeysOf(rows);
      var r :| r in rows && KeyOf(r) == TeamKey(id);
      assert r.TeamRow? && r.battlefyId == id;
    }
  }

  /** Applied to a fresh store, the plan stores one team row per key of the
      team registry and a tournament row that counts them. */
  lemma PlanTeamRows(b: Bracket, es: seq<ListEntry>, fetched: map<string, MatchDetail>, roster: Option<RosterTeam>)
    ensures
      var d := Apply(map[], Plan(b, es, fetched, roster));
      && TeamIds(d) == TeamRegistry(es, fetched).Keys
      && TournamentKey(b.id) in d
      && d[TournamentKey(b.id)].TournamentRow?
      && d[TournamentKey(b.id)].teams == |TeamIds(d)|
  {
    var rows := Plan(b, es, fetched, roster);
    var d := Apply(map[], rows);
    TeamIdsOfApply(rows);
    ApplyFirstWins(map[], rows, 0);
    var seen := SeenTeams(SeenGames(es, fetched));
    RegistrySize(seen, TeamIdOf);
    assert TeamIds(d) == Register(map[], seen, TeamIdOf).Keys;
  }

  /** On a fresh store the team rows written are exactly the team registry:
      one row per distinct `battlefyTeamID`, as many as the tournament row
      counts. */
  lemma RunTeamRowsMatchRegistry(dr: DateRule, bracketResponse: Option<Json>, listResponse: Option<Json>,
                                 detailResponses: map<string, Json>, rosterResponse: Option<Json>)
    requires GetBracket(dr, bracketResponse).Success? && GetMatchList(dr, listResponse).Success?
    ensures
      var b := GetBracket(dr, bracketResponse).value;
      var es := GetMatchList(dr, listResponse).value;
      var o := Run(dr, bracketResponse, listResponse, detailResponses, rosterResponse, map[]);
      && TeamIds(o.db) == TeamRegistry(es, FetchedDetails(dr, detailResponses)).Keys
      && TournamentKey(b.id) in o.db
      && o.db[TournamentKey(b.id)].TournamentRow?
      && o.db[TournamentKey(b.id)].teams == |TeamIds(o.db)|
  {
    PlanTeamRows(GetBracket(dr, bracketResponse).value, GetMatchList(dr, listResponse).value,
                 FetchedDetails(dr, detailResponses), RosterOf(dr, rosterResponse));
  }

  lemma {:induction false} MatchIdsOfApply(rows: seq<Row>)
    ensures MatchIds(Apply(map[], rows)) == MatchIdsOf(rows)
  {
    var d := Apply(map[], rows);
    KeysOfMembers(rows);
    forall id | id in MatchIdsOf(rows) ensures id in MatchIds(d) {
      var r :| r in rows && r.MatchRow? && r.id == id;
      assert MatchKey(id) in d;
    }
    forall id | id in MatchIds(d) ensures id in MatchIdsOf(rows) {
      assert MatchKey(id) in KeysOf(rows);
      var r :| r in rows && KeyOf(r) == MatchKey(id);
      assert r.MatchRow? && r.id == id;
    }
  }

  /** On a fresh store a match row is stored exactly for the detail of each
      list entry that is not a bye and whose detail was obtained: byes and
      failed details produce no match row. */
  lemma RunMatchRowsAreProcessedEntries(dr: DateRule, bracketResponse: Option<Json>, listResponse: Option<Json>,
                                        detailResponses: map<string, Json>, rosterResponse: Option<Json>)
    requires GetBracket(dr, bracketResponse).Success? && GetMatchList(dr, listResponse).Success?
    ensures
      var es := GetMatchList(dr, listResponse).value;
      var fetched := FetchedDetails(dr, detailResponses);
      var o := Run(dr, bracketResponse, listResponse, detailResponses, rosterResponse, map[]);
      MatchIds(o.db) == set e | e in es && !e.isBye && e.id in fetched :: fetched[e.id].id
  {
    var b := GetBracket(dr, bracketResponse).value;
    var es := GetMatchList(dr, listResponse).value;
    var fetched := FetchedDetails(dr, detailResponses);
    MatchIdsOfApply(Plan(b, es, fetched, RosterOf(dr, rosterResponse)));
  }

  /** A player who resolves against the roster gets one statline for every
      game they play in, each under that game's id. */
  lemma RunWritesStatlinePerGame(dr: DateRule, bracketResponse: Option<Json>, listResponse: Option<Json>,
                                 detailResponses: map<string, Json>, rosterResponse: Option<Json>, db: Db,
                                 g: Game, t: GameTeam, p: StatPlayer)
    requires GetBracket(dr, bracketResponse).Success? && GetMatchList(dr, listResponse).Success?
    requires g in SeenGames(GetMatchList(dr, listResponse).value, FetchedDetails(dr, detailResponses))
    requires t in g.teams && p in t.players
    requires Resolved(RosterOf(dr, rosterResponse), p)
    ensures
      var o := Run(dr, bracketResponse, listResponse, detailResponses, rosterResponse, db);
      StatlineKey(g.gameID, Resolve(RosterOf(dr, rosterResponse), p.inGameName).value.id) in o.db
  {
  }
}
