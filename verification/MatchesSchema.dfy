/** The match-list schemas (src/lib/types/battlefy/matches.ts). The game
    statistics shapes are shared with the match-detail schemas
    (src/lib/types/battlefy/match.ts), which differ only in the per-site
    counter object; those shapes take the per-site variant as a parameter. */
module MatchesSchema {
  import opened Wrappers
  import opened JsonData
  import opened Records

  /** `TeamEnumSchema` / `BottomEnumSchema`: the two side labels. */
  datatype Side = Blue | Red

  function SideLabel(s: Side): string {
    match s
    case Blue => "Blue"
    case Red => "Red"
  }

  predicate ValidSide(j: Json) {
    j == JString("Blue") || j == JString("Red")
  }

  function ParseSide(j: Json): (r: Option<Side>)
    ensures r.Some? <==> ValidSide(j)
    ensures r.Some? ==> j == JString(SideLabel(r.value))
  {
    if j == JString("Blue") then Some(Blue)
    else if j == JString("Red") then Some(Red)
    else None
  }

  predicate HasSide(o: Fields, k: string) {
    k in o && ValidSide(o[k])
  }

  /** The per-site counter object: matches.ts declares sites A, B and C,
      match.ts only A and B. */
  datatype SiteShape = ThreeSites | TwoSites

  predicate ValidPerSite(shape: SiteShape, j: Json) {
    && j.JObject?
    && OptNullNumber(j.fields, "B")
    && OptNullNumber(j.fields, "A")
    && (shape == ThreeSites ==> OptNullNumber(j.fields, "C"))
  }

  predicate HasPerSite(shape: SiteShape, o: Fields, k: string) {
    k in o && ValidPerSite(shape, o[k])
  }

  /** `ValorantTeamIDsByPositionSchema` */
  predicate ValidTeamIDsByPosition(j: Json) {
    j.JObject? && HasSide(j.fields, "top") && HasSide(j.fields, "bottom")
  }

  /** `PlayerSchema`: one player's statline in a game. */
  predicate ValidPlayer(shape: SiteShape, j: Json) {
    && j.JObject?
    && var o := j.fields;
    && HasString(o, "characterId")
    && HasString(o, "character")
    && HasString(o, "puuid")
    && HasNumber(o, "kills")
    && HasNumber(o, "deaths")
    && HasNumber(o, "assists")
    && HasNumber(o, "rounds")
    && HasNumber(o, "kda")
    && HasPerSite(shape, o, "bombPlantsPerSite")
    && HasPerSite(shape, o, "bombDefusesPerSite")
    && HasNumber(o, "totalDamage")
    && HasSide(o, "teamId")
    && HasNumber(o, "headshots")
    && HasNumber(o, "bodyshots")
    && HasNumber(o, "legshots")
    && HasNumber(o, "totalHits")
    && HasNumber(o, "headshotPercent")
    && HasString(o, "inGameName")
  }

  predicate ValidPlayers(shape: SiteShape, j: Json) {
    j.JArray? && forall i | 0 <= i < |j.items| :: ValidPlayer(shape, j.items[i])
  }

  /** `TeamElementSchema` (matches.ts) / `TeamSchema` (match.ts): a team in a game. */
  predicate ValidTeam(shape: SiteShape, j: Json) {
    && j.JObject?
    && var o := j.fields;
    && HasBool(o, "isWinner")
    && HasSide(o, "teamId")
    && HasString(o, "battlefyTeamID")
    && HasString(o, "name")
    && "players" in o && ValidPlayers(shape, o["players"])
    && HasPerSite(shape, o, "teamPostPlantWinsPerSite")
    && HasPerSite(shape, o, "teamBombPlantsPerSite")
    && HasPerSite(shape, o, "teamBombDefusesPerSite")
    && HasNumber(o, "teamKills")
    && HasNumber(o, "teamAssists")
    && HasNumber(o, "teamDeaths")
    && HasNumber(o, "teamDamage")
    && HasNumber(o, "teamKda")
  }

  predicate ValidTeams(shape: SiteShape, j: Json) {
    j.JArray? && forall i | 0 <= i < |j.items| :: ValidTeam(shape, j.items[i])
  }

  /** `StatsBottomSchema`: a side's score and winner flag in one game. */
  predicate ValidSideScore(j: Json) {
    j.JObject? && HasNumber(j.fields, "score") && HasBool(j.fields, "winner")
  }

  /** `StatsSchema`: the statistics of one game. */
  predicate ValidStats(shape: SiteShape, j: Json) {
    && j.JObject?
    && var o := j.fields;
    && HasBool(o, "isComplete")
    && "top" in o && ValidSideScore(o["top"])
    && "bottom" in o && ValidSideScore(o["bottom"])
    && "valorantTeamIDsByPosition" in o && ValidTeamIDsByPosition(o["valorantTeamIDsByPosition"])
    && HasString(o, "valorantMatchID")
    && "teams" in o && ValidTeams(shape, o["teams"])
    && HasNumber(o, "gameStartMillis")
    && HasNumber(o, "gameLengthMillis")
    && HasString(o, "gameId")
    && HasString(o, "mapName")
    && HasString(o, "mapSlug")
    && HasPerSite(shape, o, "totalBombPlantsPerSite")
    && HasPerSite(shape, o, "totalBombDefusesPerSite")
  }

  /** `StatSchema`: one element of a match's `stats` array. */
  predicate ValidStat(shape: SiteShape, dr: DateRule, j: Json) {
    && j.JObject?
    && var o := j.fields;
    && HasString(o, "matchID")
    && HasString(o, "gameID")
    && HasString(o, "tournamentID")
    && HasString(o, "stageID")
    && HasNumber(o, "gameNumber")
    && "stats" in o && ValidStats(shape, o["stats"])
    && HasDate(dr, o, "createdAt")
    && HasString(o, "_id")
  }

  predicate ValidStatArray(shape: SiteShape, dr: DateRule, j: Json) {
    j.JArray? && forall i | 0 <= i < |j.items| :: ValidStat(shape, dr, j.items[i])
  }

  /** `ScheduleSchema` */
  predicate ValidSchedule(j: Json) {
    j.JObject? && HasString(j.fields, "startTime") && HasBool(j.fields, "reschedulingRequested")
  }

  /** `WinnerSchema` */
  predicate ValidWinner(j: Json) {
    j.JObject? && HasString(j.fields, "position") && HasString(j.fields, "matchID")
  }

  /** `NextSchema` */
  predicate ValidNext(j: Json) {
    j.JObject? && "winner" in j.fields && ValidWinner(j.fields["winner"])
  }

  /** `BottomTeamSchema`: the team object a list-entry side may embed. */
  predicate ValidBottomTeam(dr: DateRule, j: Json) {
    && j.JObject?
    && var o := j.fields;
    && HasString(o, "_id")
    && HasString(o, "name")
    && HasString(o, "pendingTeamID")
    && HasString(o, "persistentTeamID")
    && HasString(o, "tournamentID")
    && HasString(o, "userID")
    && HasArray(o, "customFields")
    && HasString(o, "ownerID")
    && HasDate(dr, o, "createdAt")
    && HasStringArray(o, "playerIDs")
    && HasString(o, "captainID")
  }

  /** `BattlefyBottomSchema`: a side of a match-list entry. Only the two
      flags are required; the rest may be absent or null. */
  predicate ValidListSide(dr: DateRule, j: Json) {
    && j.JObject?
    && var o := j.fields;
    && HasBool(o, "winner")
    && HasBool(o, "disqualified")
    && OptNullNumber(o, "seedNumber")
    && OptNullString(o, "teamID")
    && OptNullDate(dr, o, "readyAt")
    && OptNullNumber(o, "score")
    && ("team" !in o || o["team"].JNull? || ValidBottomTeam(dr, o["team"]))
  }

  /** One element of `BattlefyMatchList`. */
  predicate ValidListEntry(dr: DateRule, j: Json) {
    && j.JObject?
    && var o := j.fields;
    && HasString(o, "_id")
    && "top" in o && ValidListSide(dr, o["top"])
    && "bottom" in o && ValidListSide(dr, o["bottom"])
    && HasString(o, "matchType")
    && HasNumber(o, "matchNumber")
    && HasNumber(o, "roundNumber")
    && HasBool(o, "isBye")
    && ("next" !in o || o["next"].JNull? || ValidNext(o["next"]))
    && HasDate(dr, o, "createdAt")
    && HasDate(dr, o, "updatedAt")
    && HasBool(o, "doubleLoss")
    && HasString(o, "stageID")
    && HasBool(o, "isComplete")
    && "schedule" in o && ValidSchedule(o["schedule"])
    && ("stats" !in o || o["stats"].JNull? || ValidStatArray(ThreeSites, dr, o["stats"]))
    && OptNullDate(dr, o, "completedAt")
    && OptNullBool(o, "isMarkedLive")
  }

  /** `BattlefyMatchList`: the whole response of the match-list endpoint. */
  predicate ValidMatchList(dr: DateRule, j: Json) {
    j.JArray? && forall i | 0 <= i < |j.items| :: ValidListEntry(dr, j.items[i])
  }

  // Extraction of the fields the handler reads

  function ToStatPlayer(shape: SiteShape, j: Json): (p: StatPlayer)
    requires ValidPlayer(shape, j)
    ensures JString(p.puuid) == j.fields["puuid"]
    ensures JString(p.inGameName) == j.fields["inGameName"]
    ensures JNumber(p.kills) == j.fields["kills"]
    ensures JNumber(p.deaths) == j.fields["deaths"]
    ensures JNumber(p.assists) == j.fields["assists"]
    ensures JNumber(p.kda) == j.fields["kda"]
    ensures JNumber(p.headshotPercent) == j.fields["headshotPercent"]
  {
    var o := j.fields;
    StatPlayer(
      o["puuid"].s, o["inGameName"].s,
      o["kills"].n, o["deaths"].n, o["assists"].n,
      o["kda"].n, o["headshotPercent"].n)
  }

  function ToGameTeam(shape: SiteShape, j: Json): (t: GameTeam)
    requires ValidTeam(shape, j)
    ensures JString(t.battlefyTeamID) == j.fields["battlefyTeamID"]
    ensures JString(t.name) == j.fields["name"]
    ensures |t.players| == |j.fields["players"].items|
    ensures forall i | 0 <= i < |t.players| :: t.players[i] == ToStatPlayer(shape, j.fields["players"].items[i])
  {
    var o := j.fields;
    var ps := o["players"].items;
    GameTeam(o["battlefyTeamID"].s, o["name"].s,
      seq(|ps|, i requires 0 <= i < |ps| => ToStatPlayer(shape, ps[i])))
  }

  function ToSideScore(j: Json): (s: SideScore)
    requires ValidSideScore(j)
    ensures JNumber(s.score) == j.fields["score"]
    ensures JBool(s.winner) == j.fields["winner"]
  {
    SideScore(j.fields["score"].n, j.fields["winner"].b)
  }

  function ToGame(shape: SiteShape, dr: DateRule, j: Json): (g: Game)
    requires ValidStat(shape, dr, j)
    ensures JString(g.gameID) == j.fields["gameID"]
    ensures JNumber(g.top.score) == j.fields["stats"].fields["top"].fields["score"]
    ensures JBool(g.top.winner) == j.fields["stats"].fields["top"].fields["winner"]
    ensures JNumber(g.bottom.score) == j.fields["stats"].fields["bottom"].fields["score"]
    ensures JBool(g.bottom.winner) == j.fields["stats"].fields["bottom"].fields["winner"]
    ensures |g.teams| == |j.fields["stats"].fields["teams"].items|
    ensures forall i | 0 <= i < |g.teams| :: g.teams[i] == ToGameTeam(shape, j.fields["stats"].fields["teams"].items[i])
  {
    var o := j.fields;
    var st := o["stats"].fields;
    var ts := st["teams"].items;
    Game(o["gameID"].s, ToSideScore(st["top"]), ToSideScore(st["bottom"]),
      seq(|ts|, i requires 0 <= i < |ts| => ToGameTeam(shape, ts[i])))
  }

  function ToListEntry(dr: DateRule, j: Json): (e: ListEntry)
    requires ValidListEntry(dr, j)
    ensures JString(e.id) == j.fields["_id"]
    ensures JBool(e.isBye) == j.fields["isBye"]
  {
    ListEntry(j.fields["_id"].s, j.fields["isBye"].b)
  }

  /** The validate-or-throw half of `getMatchList`. */
  function ParseMatchList(dr: DateRule, j: Json): (r: Result<seq<ListEntry>, FetchError>)
    ensures r.Success? <==> ValidMatchList(dr, j)
    ensures r.Failure? ==> r.error == SchemaError("BattlefyMatchList")
    ensures r.Success? ==> |r.value| == |j.items|
    ensures r.Success? ==> forall i | 0 <= i < |r.value| ::
      JString(r.value[i].id) == j.items[i].fields["_id"] && JBool(r.value[i].isBye) == j.items[i].fields["isBye"]
  {
    if ValidMatchList(dr, j) then
      Success(seq(|j.items|, i requires 0 <= i < |j.items| => ToListEntry(dr, j.items[i])))
    else
      Failure(SchemaError("BattlefyMatchList"))
  }

  // Properties of the match-list schemas

  /** The side enum accepts exactly the labels of the two sides, and parsing
      a label gives back its side. */
  lemma SideLabels(j: Json)
    ensures ValidSide(j) <==> exists s: Side :: j == JString(SideLabel(s))
    ensures forall s: Side :: ParseSide(JString(SideLabel(s))) == Some(s)
  {
    if j == JString("Blue") {
      assert j == JString(SideLabel(Blue));
    } else if j == JString("Red") {
      assert j == JString(SideLabel(Red));
    }
  }

  /** Each declared site counter may be absent, null or a number and nothing
      else; the two-site object does not look at `C` at all. */
  lemma PerSiteA(shape: SiteShape, j: Json, v: Json)
    requires ValidPerSite(shape, j)
    ensures ValidPerSite(shape, Without(j, "A"))
    ensures ValidPerSite(shape, With(j, "A", v)) <==> v.JNull? || v.JNumber?
  {
  }

  lemma PerSiteB(shape: SiteShape, j: Json, v: Json)
    requires ValidPerSite(shape, j)
    ensures ValidPerSite(shape, Without(j, "B"))
    ensures ValidPerSite(shape, With(j, "B", v)) <==> v.JNull? || v.JNumber?
  {
  }

  lemma PerSiteC(shape: SiteShape, j: Json, v: Json)
    requires ValidPerSite(shape, j)
    ensures ValidPerSite(ThreeSites, Without(j, "C"))
    ensures ValidPerSite(TwoSites, Without(j, "C"))
    ensures ValidPerSite(ThreeSites, With(j, "C", v)) <==> v.JNull? || v.JNumber?
    ensures ValidPerSite(TwoSites, With(j, "C", v))
  {
  }

  lemma PerSiteCounters(shape: SiteShape, j: Json, v: Json)
    requires ValidPerSite(shape, j)
    ensures ValidPerSite(shape, Without(j, "A")) && ValidPerSite(shape, Without(j, "B"))
    ensures ValidPerSite(shape, With(j, "A", v)) <==> v.JNull? || v.JNumber?
    ensures ValidPerSite(shape, With(j, "B", v)) <==> v.JNull? || v.JNumber?
    ensures ValidPerSite(ThreeSites, Without(j, "C")) && ValidPerSite(TwoSites, Without(j, "C"))
    ensures ValidPerSite(ThreeSites, With(j, "C", v)) <==> v.JNull? || v.JNumber?
    ensures ValidPerSite(TwoSites, With(j, "C", v))
  {
    PerSiteA(shape, j, v);
    PerSiteB(shape, j, v);
    PerSiteC(shape, j, v);
  }

  /** A three-site counter object is also a valid two-site one. */
  lemma PerSiteThreeNarrowsTwo(j: Json)
    requires ValidPerSite(ThreeSites, j)
    ensures ValidPerSite(TwoSites, j)
  {
  }

  /** The player fields the handler reads are required: string `puuid` and
      `inGameName`, numeric statistics, and a side label in `teamId`. */
  lemma PlayerPuuid(shape: SiteShape, j: Json, v: Json)
    requires ValidPlayer(shape, j)
    ensures ValidPlayer(shape, With(j, "puuid", v)) <==> v.JString?
    ensures !ValidPlayer(shape, Without(j, "puuid"))
  {
  }

  lemma PlayerInGameName(shape: SiteShape, j: Json, v: Json)
    requires ValidPlayer(shape, j)
    ensures ValidPlayer(shape, With(j, "inGameName", v)) <==> v.JString?
    ensures !ValidPlayer(shape, Without(j, "inGameName"))
  {
  }

  lemma PlayerKills(shape: SiteShape, j: Json, v: Json)
    requires ValidPlayer(shape, j)
    ensures ValidPlayer(shape, With(j, "kills", v)) <==> v.JNumber?
    ensures !ValidPlayer(shape, Without(j, "kills"))
  {
  }

  lemma PlayerDeaths(shape: SiteShape, j: Json, v: Json)
    requires ValidPlayer(shape, j)
    ensures ValidPlayer(shape, With(j, "deaths", v)) <==> v.JNumber?
    ensures !ValidPlayer(shape, Without(j, "deaths"))
  {
  }

  lemma PlayerAssists(shape: SiteShape, j: Json, v: Json)
    requires ValidPlayer(shape, j)
    ensures ValidPlayer(shape, With(j, "assists", v)) <==> v.JNumber?
    ensures !ValidPlayer(shape, Without(j, "assists"))
  {
  }

  lemma PlayerKda(shape: SiteShape, j: Json, v: Json)
    requires ValidPlayer(shape, j)
    ensures ValidPlayer(shape, With(j, "kda", v)) <==> v.JNumber?
    ensures !ValidPlayer(shape, Without(j, "kda"))
  {
  }

  lemma PlayerHeadshotPercent(shape: SiteShape, j: Json, v: Json)
    requires ValidPlayer(shape, j)
    ensures ValidPlayer(shape, With(j, "headshotPercent", v)) <==> v.JNumber?
    ensures !ValidPlayer(shape, Without(j, "headshotPercent"))
  {
  }

  lemma PlayerTeamId(shape: SiteShape, j: Json, v: Json)
    requires ValidPlayer(shape, j)
    ensures ValidPlayer(shape, With(j, "teamId", v)) <==> ValidSide(v)
    ensures !ValidPlayer(shape, Without(j, "teamId"))
  {
  }

  /** A team in a game's stats needs string `battlefyTeamID` and `name` and
      an array of valid players. */
  lemma TeamBattlefyTeamID(shape: SiteShape, j: Json, v: Json)
    requires ValidTeam(shape, j)
    ensures ValidTeam(shape, With(j, "battlefyTeamID", v)) <==> v.JString?
    ensures !ValidTeam(shape, Without(j, "battlefyTeamID"))
  {
  }

  lemma TeamName(shape: SiteShape, j: Json, v: Json)
    requires ValidTeam(shape, j)
    ensures ValidTeam(shape, With(j, "name", v)) <==> v.JString?
    ensures !ValidTeam(shape, Without(j, "name"))
  {
  }

  lemma TeamPlayers(shape: SiteShape, j: Json, v: Json)
    requires ValidTeam(shape, j)
    ensures ValidTeam(shape, With(j, "players", v)) <==> v.JArray? && forall i | 0 <= i < |v.items| :: ValidPlayer(shape, v.items[i])
    ensures !ValidTeam(shape, Without(j, "players"))
  {
  }

  /** A list-entry side needs its two flags; every other field may be
      absent or null. */
  lemma ListSideWinner(dr: DateRule, j: Json, v: Json)
    requires ValidListSide(dr, j)
    ensures ValidListSide(dr, With(j, "winner", v)) <==> v.JBool?
    ensures !ValidListSide(dr, Without(j, "winner"))
  {
  }

  lemma ListSideDisqualified(dr: DateRule, j: Json, v: Json)
    requires ValidListSide(dr, j)
    ensures ValidListSide(dr, With(j, "disqualified", v)) <==> v.JBool?
    ensures !ValidListSide(dr, Without(j, "disqualified"))
  {
  }

  lemma ListSideSeedNumberOptional(dr: DateRule, j: Json)
    requires ValidListSide(dr, j)
    ensures ValidListSide(dr, Without(j, "seedNumber"))
    ensures ValidListSide(dr, With(j, "seedNumber", JNull))
  {
  }

  lemma ListSideTeamIDOptional(dr: DateRule, j: Json)
    requires ValidListSide(dr, j)
    ensures ValidListSide(dr, Without(j, "teamID"))
    ensures ValidListSide(dr, With(j, "teamID", JNull))
  {
  }

  lemma ListSideReadyAtOptional(dr: DateRule, j: Json)
    requires ValidListSide(dr, j)
    ensures ValidListSide(dr, Without(j, "readyAt"))
    ensures ValidListSide(dr, With(j, "readyAt", JNull))
  {
  }

  lemma ListSideScoreOptional(dr: DateRule, j: Json)
    requires ValidListSide(dr, j)
    ensures ValidListSide(dr, Without(j, "score"))
    ensures ValidListSide(dr, With(j, "score", JNull))
  {
  }

  lemma ListSideTeamOptional(dr: DateRule, j: Json)
    requires ValidListSide(dr, j)
    ensures ValidListSide(dr, Without(j, "team"))
    ensures ValidListSide(dr, With(j, "team", JNull))
  {
  }

  /** A list entry needs string `_id`, boolean `isBye` and numeric match and
      round numbers. */
  lemma ListEntryId(dr: DateRule, j: Json, v: Json)
    requires ValidListEntry(dr, j)
    ensures ValidListEntry(dr, With(j, "_id", v)) <==> v.JString?
    ensures !ValidListEntry(dr, Without(j, "_id"))
  {
  }

  lemma ListEntryIsBye(dr: DateRule, j: Json, v: Json)
    requires ValidListEntry(dr, j)
    ensures ValidListEntry(dr, With(j, "isBye", v)) <==> v.JBool?
    ensures !ValidListEntry(dr, Without(j, "isBye"))
  {
  }

  lemma ListEntryMatchNumber(dr: DateRule, j: Json, v: Json)
    requires ValidListEntry(dr, j)
    ensures ValidListEntry(dr, With(j, "matchNumber", v)) <==> v.JNumber?
    ensures !ValidListEntry(dr, Without(j, "matchNumber"))
  {
  }

  lemma ListEntryRoundNumber(dr: DateRule, j: Json, v: Json)
    requires ValidListEntry(dr, j)
    ensures ValidListEntry(dr, With(j, "roundNumber", v)) <==> v.JNumber?
    ensures !ValidListEntry(dr, Without(j, "roundNumber"))
  {
  }

  /** `stats`, `next`, `completedAt` and `isMarkedLive` may be absent or null;
      `stats`, when it is neither, must be an array of valid stats. */
  lemma ListEntryStats(dr: DateRule, j: Json, v: Json)
    requires ValidListEntry(dr, j)
    ensures ValidListEntry(dr, With(j, "stats", v)) <==> v.JNull? || ValidStatArray(ThreeSites, dr, v)
    ensures ValidListEntry(dr, Without(j, "stats"))
  {
  }

  lemma ListEntryNextOptional(dr: DateRule, j: Json)
    requires ValidListEntry(dr, j)
    ensures ValidListEntry(dr, Without(j, "next"))
    ensures ValidListEntry(dr, With(j, "next", JNull))
  {
  }

  lemma ListEntryCompletedAtOptional(dr: DateRule, j: Json)
    requires ValidListEntry(dr, j)
    ensures ValidListEntry(dr, Without(j, "completedAt"))
    ensures ValidListEntry(dr, With(j, "completedAt", JNull))
  {
  }

  lemma ListEntryIsMarkedLiveOptional(dr: DateRule, j: Json)
    requires ValidListEntry(dr, j)
    ensures ValidListEntry(dr, Without(j, "isMarkedLive"))
    ensures ValidListEntry(dr, With(j, "isMarkedLive", JNull))
  {
  }

  /** The match list is an array whose every element is a valid entry: the
      empty array is one, an object never is. */
  lemma MatchListElements(dr: DateRule, items: seq<Json>, j: Json, o: map<string, Json>)
    ensures ValidMatchList(dr, JArray([]))
    ensures ValidMatchList(dr, JArray(items + [j])) <==> ValidMatchList(dr, JArray(items)) && ValidListEntry(dr, j)
    ensures !ValidMatchList(dr, JObject(o))
  {
    assert forall i | 0 <= i < |items| :: (items + [j])[i] == items[i];
    assert (items + [j])[|items|] == j;
  }

  // Stats accepted by the match list are accepted by the match detail

  lemma PlayerThreeNarrowsTwo(j: Json)
    requires ValidPlayer(ThreeSites, j)
    ensures ValidPlayer(TwoSites, j)
  {
    PerSiteThreeNarrowsTwo(j.fields["bombPlantsPerSite"]);
    PerSiteThreeNarrowsTwo(j.fields["bombDefusesPerSite"]);
  }

  lemma TeamThreeNarrowsTwo(j: Json)
    requires ValidTeam(ThreeSites, j)
    ensures ValidTeam(TwoSites, j)
  {
    var ps := j.fields["players"].items;
    forall i | 0 <= i < |ps| ensures ValidPlayer(TwoSites, ps[i]) {
      PlayerThreeNarrowsTwo(ps[i]);
    }
    PerSiteThreeNarrowsTwo(j.fields["teamPostPlantWinsPerSite"]);
    PerSiteThreeNarrowsTwo(j.fields["teamBombPlantsPerSite"]);
    PerSiteThreeNarrowsTwo(j.fields["teamBombDefusesPerSite"]);
  }

  lemma StatsThreeNarrowsTwo(j: Json)
    requires ValidStats(ThreeSites, j)
    ensures ValidStats(TwoSites, j)
  {
    var ts := j.fields["teams"].items;
    forall i | 0 <= i < |ts| ensures ValidTeam(TwoSites, ts[i]) {
      TeamThreeNarrowsTwo(ts[i]);
    }
    PerSiteThreeNarrowsTwo(j.fields["totalBombPlantsPerSite"]);
    PerSiteThreeNarrowsTwo(j.fields["totalBombDefusesPerSite"]);
  }

  /** A game's stats that pass the match-list schema pass the match-detail
      schema: the two-site counters only drop the check on `C`. */
  lemma StatThreeNarrowsTwo(dr: DateRule, j: Json)
    requires ValidStat(ThreeSites, dr, j)
    ensures ValidStat(TwoSites, dr, j)
  {
    StatsThreeNarrowsTwo(j.fields["stats"]);
  }

  // Each schema as a whole, from the field lemmas above

  /** The player fields the handler reads are required and typed: string `puuid`
      and `inGameName`, numeric statistics, and a side label in `teamId`. */
  lemma PlayerFields(shape: SiteShape, j: Json, v: Json)
    requires ValidPlayer(shape, j)
    ensures ValidPlayer(shape, With(j, "puuid", v)) <==> v.JString?
    ensures !ValidPlayer(shape, Without(j, "puuid"))
    ensures ValidPlayer(shape, With(j, "inGameName", v)) <==> v.JString?
    ensures !ValidPlayer(shape, Without(j, "inGameName"))
    ensures ValidPlayer(shape, With(j, "kills", v)) <==> v.JNumber?
    ensures !ValidPlayer(shape, Without(j, "kills"))
    ensures ValidPlayer(shape, With(j, "deaths", v)) <==> v.JNumber?
    ensures !ValidPlayer(shape, Without(j, "deaths"))
    ensures ValidPlayer(shape, With(j, "assists", v)) <==> v.JNumber?
    ensures !ValidPlayer(shape, Without(j, "assists"))
    ensures ValidPlayer(shape, With(j, "kda", v)) <==> v.JNumber?
    ensures !ValidPlayer(shape, Without(j, "kda"))
    ensures ValidPlayer(shape, With(j, "headshotPercent", v)) <==> v.JNumber?
    ensures !ValidPlayer(shape, Without(j, "headshotPercent"))
    ensures ValidPlayer(shape, With(j, "teamId", v)) <==> ValidSide(v)
    ensures !ValidPlayer(shape, Without(j, "teamId"))
  {
    PlayerPuuid(shape, j, v);
    PlayerInGameName(shape, j, v);
    PlayerKills(shape, j, v);
    PlayerDeaths(shape, j, v);
    PlayerAssists(shape, j, v);
    PlayerKda(shape, j, v);
    PlayerHeadshotPercent(shape, j, v);
    PlayerTeamId(shape, j, v);
  }

  /** A team in a game's stats needs string `battlefyTeamID` and `name` and an
      array of valid players. */
  lemma TeamFields(shape: SiteShape, j: Json, v: Json)
    requires ValidTeam(shape, j)
    ensures ValidTeam(shape, With(j, "battlefyTeamID", v)) <==> v.JString?
    ensures !ValidTeam(shape, Without(j, "battlefyTeamID"))
    ensures ValidTeam(shape, With(j, "name", v)) <==> v.JString?
    ensures !ValidTeam(shape, Without(j, "name"))
    ensures ValidTeam(shape, With(j, "players", v)) <==> v.JArray? && forall i | 0 <= i < |v.items| :: ValidPlayer(shape, v.items[i])
    ensures !ValidTeam(shape, Without(j, "players"))
  {
    TeamBattlefyTeamID(shape, j, v);
    TeamName(shape, j, v);
    TeamPlayers(shape, j, v);
  }

  /** A list-entry side needs its two flags; every other field may be absent
      or null. */
  lemma ListSideFields(dr: DateRule, j: Json, v: Json)
    requires ValidListSide(dr, j)
    ensures ValidListSide(dr, With(j, "winner", v)) <==> v.JBool?
    ensures !ValidListSide(dr, Without(j, "winner"))
    ensures ValidListSide(dr, With(j, "disqualified", v)) <==> v.JBool?
    ensures !ValidListSide(dr, Without(j, "disqualified"))
    ensures ValidListSide(dr, Without(j, "seedNumber"))
    ensures ValidListSide(dr, With(j, "seedNumber", JNull))
    ensures ValidListSide(dr, Without(j, "teamID"))
    ensures ValidListSide(dr, With(j, "teamID", JNull))
    ensures ValidListSide(dr, Without(j, "readyAt"))
    ensures ValidListSide(dr, With(j, "readyAt", JNull))
    ensures ValidListSide(dr, Without(j, "score"))
    ensures ValidListSide(dr, With(j, "score", JNull))
    ensures ValidListSide(dr, Without(j, "team"))
    ensures ValidListSide(dr, With(j, "team", JNull))
  {
    ListSideWinner(dr, j, v);
    ListSideDisqualified(dr, j, v);
    ListSideSeedNumberOptional(dr, j);
    ListSideTeamIDOptional(dr, j);
    ListSideReadyAtOptional(dr, j);
    ListSideScoreOptional(dr, j);
    ListSideTeamOptional(dr, j);
  }

  /** A list entry needs string `_id`, boolean `isBye` and numeric match and
      round numbers; `stats`, `next`, `completedAt` and `isMarkedLive` may be
      absent or null, and `stats` otherwise holds valid three-site stats. */
  lemma ListEntryFields(dr: DateRule, j: Json, v: Json)
    requires ValidListEntry(dr, j)
    ensures ValidListEntry(dr, With(j, "_id", v)) <==> v.JString?
    ensures !ValidListEntry(dr, Without(j, "_id"))
    ensures ValidListEntry(dr, With(j, "isBye", v)) <==> v.JBool?
    ensures !ValidListEntry(dr, Without(j, "isBye"))
    ensures ValidListEntry(dr, With(j, "matchNumber", v)) <==> v.JNumber?
    ensures !ValidListEntry(dr, Without(j, "matchNumber"))
    ensures ValidListEntry(dr, With(j, "roundNumber", v)) <==> v.JNumber?
    ensures !ValidListEntry(dr, Without(j, "roundNumber"))
    ensures ValidListEntry(dr, With(j, "stats", v)) <==> v.JNull? || ValidStatArray(ThreeSites, dr, v)
    ensures ValidListEntry(dr, Without(j, "stats"))
    ensures ValidListEntry(dr, Without(j, "next"))
    ensures ValidListEntry(dr, With(j, "next", JNull))
    ensures ValidListEntry(dr, Without(j, "completedAt"))
    ensures ValidListEntry(dr, With(j, "completedAt", JNull))
    ensures ValidListEntry(dr, Without(j, "isMarkedLive"))
    ensures ValidListEntry(dr, With(j, "isMarkedLive", JNull))
  {
    ListEntryId(dr, j, v);
    ListEntryIsBye(dr, j, v);
    ListEntryMatchNumber(dr, j, v);
    ListEntryRoundNumber(dr, j, v);
    ListEntryStats(dr, j, v);
    ListEntryNextOptional(dr, j);
    ListEntryCompletedAtOptional(dr, j);
    ListEntryIsMarkedLiveOptional(dr, j);
  }
}
