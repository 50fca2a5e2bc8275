/** The match-detail schemas (src/lib/types/battlefy/match.ts). The game
    statistics shapes it shares with the match list are the ones of
    `MatchesSchema` instantiated with the two-site counter object. */
module MatchSchema {
  import opened Wrappers
  import opened JsonData
  import opened Records
  import opened MatchesSchema

  /** `MatchBottomSchema`: a side of a match detail. Every field is
      required and none may be null. */
  predicate ValidDetailSide(dr: DateRule, j: Json) {
    && j.JObject?
    && var o := j.fields;
    && HasBool(o, "winner")
    && HasBool(o, "disqualified")
    && HasNumber(o, "seedNumber")
    && HasDate(dr, o, "readyAt")
    && HasNumber(o, "score")
    && HasString(o, "teamID")
  }

  /** `MatchSchema`: the response of the match-detail endpoint. */
  predicate ValidMatch(dr: DateRule, j: Json) {
    && j.JObject?
    && var o := j.fields;
    && HasString(o, "_id")
    && "top" in o && ValidDetailSide(dr, o["top"])
    && "bottom" in o && ValidDetailSide(dr, o["bottom"])
    && HasString(o, "matchType")
    && HasNumber(o, "matchNumber")
    && HasNumber(o, "roundNumber")
    && HasBool(o, "isBye")
    && "next" in o && ValidNext(o["next"])
    && HasDate(dr, o, "createdAt")
    && HasDate(dr, o, "updatedAt")
    && HasBool(o, "doubleLoss")
    && HasString(o, "stageID")
    && "schedule" in o && ValidSchedule(o["schedule"])
    && "stats" in o && ValidStatArray(TwoSites, dr, o["stats"])
    && HasBool(o, "isComplete")
    && HasDate(dr, o, "completedAt")
    && HasBool(o, "inConsolationBracket")
  }

  function ToMatchSide(dr: DateRule, j: Json): (s: MatchSide)
    requires ValidDetailSide(dr, j)
    ensures JString(s.teamID) == j.fields["teamID"]
    ensures JNumber(s.score) == j.fields["score"]
    ensures JBool(s.winner) == j.fields["winner"]
  {
    MatchSide(j.fields["teamID"].s, j.fields["score"].n, j.fields["winner"].b)
  }

  function ToMatchDetail(dr: DateRule, j: Json): (m: MatchDetail)
    requires ValidMatch(dr, j)
    ensures JString(m.id) == j.fields["_id"]
    ensures m.top == ToMatchSide(dr, j.fields["top"]) && m.bottom == ToMatchSide(dr, j.fields["bottom"])
    ensures |m.games| == |j.fields["stats"].items|
    ensures forall i | 0 <= i < |m.games| :: m.games[i] == ToGame(TwoSites, dr, j.fields["stats"].items[i])
  {
    var o := j.fields;
    var ss := o["stats"].items;
    MatchDetail(o["_id"].s, ToMatchSide(dr, o["top"]), ToMatchSide(dr, o["bottom"]),
      seq(|ss|, i requires 0 <= i < |ss| => ToGame(TwoSites, dr, ss[i])))
  }

  /** The validate-or-throw half of `getMatch`. */
  function ParseMatch(dr: DateRule, j: Json): (r: Result<MatchDetail, FetchError>)
    ensures r.Success? <==> ValidMatch(dr, j)
    ensures r.Failure? ==> r.error == SchemaError("MatchSchema")
    ensures r.Success? ==> JString(r.value.id) == j.fields["_id"]
    ensures r.Success? ==> |r.value.games| == |j.fields["stats"].items|
    ensures r.Success? ==>
      && JString(r.value.top.teamID) == j.fields["top"].fields["teamID"]
      && JNumber(r.value.top.score) == j.fields["top"].fields["score"]
      && JBool(r.value.top.winner) == j.fields["top"].fields["winner"]
      && JString(r.value.bottom.teamID) == j.fields["bottom"].fields["teamID"]
      && JNumber(r.value.bottom.score) == j.fields["bottom"].fields["score"]
      && JBool(r.value.bottom.winner) == j.fields["bottom"].fields["winner"]
    ensures r.Success? ==> forall i | 0 <= i < |r.value.games| ::
      && JString(r.value.games[i].gameID) == j.fields["stats"].items[i].fields["gameID"]
      && JBool(r.value.games[i].top.winner) == j.fields["stats"].items[i].fields["stats"].fields["top"].fields["winner"]
      && r.value.games[i] == ToGame(TwoSites, dr, j.fields["stats"].items[i])
  {
    if ValidMatch(dr, j) then Success(ToMatchDetail(dr, j)) else Failure(SchemaError("MatchSchema"))
  }

  // Properties of the match-detail schemas

  /** Every field of a match-detail side is required and typed; the
      booleans, numbers and strings cannot be null, and `readyAt` takes
      exactly the values the date rule accepts. */
  lemma DetailSideWinner(dr: DateRule, j: Json, v: Json)
    requires ValidDetailSide(dr, j)
    ensures ValidDetailSide(dr, With(j, "winner", v)) <==> v.JBool?
    ensures !ValidDetailSide(dr, Without(j, "winner"))
  {
  }

  lemma DetailSideDisqualified(dr: DateRule, j: Json, v: Json)
    requires ValidDetailSide(dr, j)
    ensures ValidDetailSide(dr, With(j, "disqualified", v)) <==> v.JBool?
    ensures !ValidDetailSide(dr, Without(j, "disqualified"))
  {
  }

  lemma DetailSideSeedNumber(dr: DateRule, j: Json, v: Json)
    requires ValidDetailSide(dr, j)
    ensures ValidDetailSide(dr, With(j, "seedNumber", v)) <==> v.JNumber?
    ensures !ValidDetailSide(dr, Without(j, "seedNumber"))
  {
  }

  lemma DetailSideScore(dr: DateRule, j: Json, v: Json)
    requires ValidDetailSide(dr, j)
    ensures ValidDetailSide(dr, With(j, "score", v)) <==> v.JNumber?
    ensures !ValidDetailSide(dr, Without(j, "score"))
  {
  }

  lemma DetailSideTeamID(dr: DateRule, j: Json, v: Json)
    requires ValidDetailSide(dr, j)
    ensures ValidDetailSide(dr, With(j, "teamID", v)) <==> v.JString?
    ensures !ValidDetailSide(dr, Without(j, "teamID"))
  {
  }

  lemma DetailSideReadyAt(dr: DateRule, j: Json, v: Json)
    requires ValidDetailSide(dr, j)
    ensures ValidDetailSide(dr, With(j, "readyAt", v)) <==> dr(v)
    ensures !ValidDetailSide(dr, Without(j, "readyAt"))
  {
  }

  /** A detail side is a list side, provided its unknown `team` key (which
      the detail schema strips) is absent, null or a valid list team. */
  lemma DetailSideIsListSide(dr: DateRule, j: Json)
    requires ValidDetailSide(dr, j)
    requires "team" !in j.fields || j.fields["team"].JNull? || ValidBottomTeam(dr, j.fields["team"])
    ensures ValidListSide(dr, j)
  {
  }

  /** The converse fails: a list side with a null seed number is not a
      detail side. */
  lemma ListSideNotDetailSide(dr: DateRule, j: Json)
    requires ValidListSide(dr, j)
    ensures ValidListSide(dr, With(j, "seedNumber", JNull))
    ensures !ValidDetailSide(dr, With(j, "seedNumber", JNull))
  {
  }

  /** A match detail requires `next`, `stats`, `completedAt` and
      `inConsolationBracket`, none of which the list entry requires. */
  lemma MatchNext(dr: DateRule, j: Json, v: Json)
    requires ValidMatch(dr, j)
    ensures ValidMatch(dr, With(j, "next", v)) <==> ValidNext(v)
    ensures !ValidMatch(dr, Without(j, "next"))
  {
  }

  lemma MatchStats(dr: DateRule, j: Json, v: Json)
    requires ValidMatch(dr, j)
    ensures ValidMatch(dr, With(j, "stats", v)) <==> ValidStatArray(TwoSites, dr, v)
    ensures !ValidMatch(dr, Without(j, "stats"))
  {
  }

  lemma MatchCompletedAt(dr: DateRule, j: Json, v: Json)
    requires ValidMatch(dr, j)
    ensures ValidMatch(dr, With(j, "completedAt", v)) <==> dr(v)
    ensures !ValidMatch(dr, Without(j, "completedAt"))
  {
  }

  lemma MatchInConsolationBracket(dr: DateRule, j: Json, v: Json)
    requires ValidMatch(dr, j)
    ensures ValidMatch(dr, With(j, "inConsolationBracket", v)) <==> v.JBool?
    ensures !ValidMatch(dr, Without(j, "inConsolationBracket"))
  {
  }

  /** The side scores of a game in the stats: numeric `score` and boolean
      `winner`, both required. */
  lemma SideScoreScore(j: Json, v: Json)
    requires ValidSideScore(j)
    ensures ValidSideScore(With(j, "score", v)) <==> v.JNumber?
    ensures !ValidSideScore(Without(j, "score"))
  {
  }

  lemma SideScoreWinner(j: Json, v: Json)
    requires ValidSideScore(j)
    ensures ValidSideScore(With(j, "winner", v)) <==> v.JBool?
    ensures !ValidSideScore(Without(j, "winner"))
  {
  }

  // Each schema as a whole, from the field lemmas above

  /** Every field of a match-detail side is required and typed; only `readyAt`
      can be null, and only when the date rule accepts null. */
  lemma DetailSideFields(dr: DateRule, j: Json, v: Json)
    requires ValidDetailSide(dr, j)
    ensures ValidDetailSide(dr, With(j, "winner", v)) <==> v.JBool?
    ensures !ValidDetailSide(dr, Without(j, "winner"))
    ensures ValidDetailSide(dr, With(j, "disqualified", v)) <==> v.JBool?
    ensures !ValidDetailSide(dr, Without(j, "disqualified"))
    ensures ValidDetailSide(dr, With(j, "seedNumber", v)) <==> v.JNumber?
    ensures !ValidDetailSide(dr, Without(j, "seedNumber"))
    ensures ValidDetailSide(dr, With(j, "score", v)) <==> v.JNumber?
    ensures !ValidDetailSide(dr, Without(j, "score"))
    ensures ValidDetailSide(dr, With(j, "teamID", v)) <==> v.JString?
    ensures !ValidDetailSide(dr, Without(j, "teamID"))
    ensures ValidDetailSide(dr, With(j, "readyAt", v)) <==> dr(v)
    ensures !ValidDetailSide(dr, Without(j, "readyAt"))
  {
    DetailSideWinner(dr, j, v);
    DetailSideDisqualified(dr, j, v);
    DetailSideSeedNumber(dr, j, v);
    DetailSideScore(dr, j, v);
    DetailSideTeamID(dr, j, v);
    DetailSideReadyAt(dr, j, v);
  }

  /** A match detail requires `next`, `stats`, `completedAt` and
      `inConsolationBracket`, none of which the list entry requires. */
  lemma MatchRequiredFields(dr: DateRule, j: Json, v: Json)
    requires ValidMatch(dr, j)
    ensures ValidMatch(dr, With(j, "next", v)) <==> ValidNext(v)
    ensures !ValidMatch(dr, Without(j, "next"))
    ensures ValidMatch(dr, With(j, "stats", v)) <==> ValidStatArray(TwoSites, dr, v)
    ensures !ValidMatch(dr, Without(j, "stats"))
    ensures ValidMatch(dr, With(j, "completedAt", v)) <==> dr(v)
    ensures !ValidMatch(dr, Without(j, "completedAt"))
    ensures ValidMatch(dr, With(j, "inConsolationBracket", v)) <==> v.JBool?
    ensures !ValidMatch(dr, Without(j, "inConsolationBracket"))
  {
    MatchNext(dr, j, v);
    MatchStats(dr, j, v);
    MatchCompletedAt(dr, j, v);
    MatchInConsolationBracket(dr, j, v);
  }

  /** The side scores of a game: numeric `score` and boolean `winner`, both
      required. */
  lemma SideScoreFields(j: Json, v: Json)
    requires ValidSideScore(j)
    ensures ValidSideScore(With(j, "score", v)) <==> v.JNumber?
    ensures !ValidSideScore(Without(j, "score"))
    ensures ValidSideScore(With(j, "winner", v)) <==> v.JBool?
    ensures !ValidSideScore(Without(j, "winner"))
  {
    SideScoreScore(j, v);
    SideScoreWinner(j, v);
  }
}
