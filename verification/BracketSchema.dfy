/** The stage schemas (src/lib/types/battlefy/bracket.ts). */
module BracketSchema {
  import opened Wrappers
  import opened JsonData
  import opened Records

  /** `RoundSchema` */
  predicate ValidRound(j: Json) {
    j.JObject? && HasNumber(j.fields, "roundNumber") && HasString(j.fields, "startTime")
  }

  /** `ScheduleSchemaBracket` */
  predicate ValidBracketSchedule(j: Json) {
    && j.JObject?
    && "rounds" in j.fields
    && j.fields["rounds"].JArray?
    && (forall i | 0 <= i < |j.fields["rounds"].items| :: ValidRound(j.fields["rounds"].items[i]))
    && HasBool(j.fields, "allowRescheduling")
  }

  /** `SeriesSchema` */
  predicate ValidSeries(j: Json) {
    && j.JObject?
    && HasNumber(j.fields, "round")
    && HasString(j.fields, "roundType")
    && HasNumber(j.fields, "numGames")
  }

  /** `BracketClassSchema` */
  predicate ValidBracketClass(j: Json) {
    && j.JObject?
    && var o := j.fields;
    && HasString(o, "type")
    && HasString(o, "seriesStyle")
    && "series" in o && o["series"].JArray?
    && (forall i | 0 <= i < |o["series"].items| :: ValidSeries(o["series"].items[i]))
    && HasString(o, "style")
    && HasNumber(o, "teamsCount")
    && HasBool(o, "hasThirdPlaceMatch")
    && HasNumber(o, "roundsCount")
  }

  /** `BracketSchema`: the response of the stage endpoint. */
  predicate ValidBracket(dr: DateRule, j: Json) {
    && j.JObject?
    && var o := j.fields;
    && HasString(o, "_id")
    && HasString(o, "name")
    && HasDate(dr, o, "startTime")
    && HasBool(o, "hasMatchCheckin")
    && HasBool(o, "hasCheckinTimer")
    && HasBool(o, "hasConfirmScore")
    && "bracket" in o && ValidBracketClass(o["bracket"])
    && HasNumber(o, "matchCheckinDuration")
    && "schedule" in o && ValidBracketSchedule(o["schedule"])
    && HasDate(dr, o, "createdAt")
    && HasDate(dr, o, "updatedAt")
    && HasBool(o, "hasStarted")
    && HasStringArray(o, "teamIDs")
    && HasArray(o, "groupIDs")
    && HasArray(o, "matchIDs")
    && HasArray(o, "pickBan")
    && HasDate(dr, o, "startedAt")
  }

  /** The validate-or-throw half of `getBracket`. */
  function ParseBracket(dr: DateRule, j: Json): (r: Result<Bracket, FetchError>)
    ensures r.Success? <==> ValidBracket(dr, j)
    ensures r.Failure? ==> r.error == SchemaError("BracketSchema")
    ensures r.Success? ==> JString(r.value.id) == j.fields["_id"] && JString(r.value.name) == j.fields["name"]
  {
    if ValidBracket(dr, j) then Success(Bracket(j.fields["_id"].s, j.fields["name"].s))
    else Failure(SchemaError("BracketSchema"))
  }

  // Properties of the stage schemas

  /** The stage's identity, the only part the handler keeps, is required. */
  lemma BracketId(dr: DateRule, j: Json, v: Json)
    requires ValidBracket(dr, j)
    ensures ValidBracket(dr, With(j, "_id", v)) <==> v.JString?
    ensures !ValidBracket(dr, Without(j, "_id"))
  {
  }

  lemma BracketName(dr: DateRule, j: Json, v: Json)
    requires ValidBracket(dr, j)
    ensures ValidBracket(dr, With(j, "name", v)) <==> v.JString?
    ensures !ValidBracket(dr, Without(j, "name"))
  {
  }

  /** The stage's four timestamps are required dates. */
  lemma BracketStartTime(dr: DateRule, j: Json, v: Json)
    requires ValidBracket(dr, j)
    ensures ValidBracket(dr, With(j, "startTime", v)) <==> dr(v)
    ensures !ValidBracket(dr, Without(j, "startTime"))
  {
  }

  lemma BracketCreatedAt(dr: DateRule, j: Json, v: Json)
    requires ValidBracket(dr, j)
    ensures ValidBracket(dr, With(j, "createdAt", v)) <==> dr(v)
    ensures !ValidBracket(dr, Without(j, "createdAt"))
  {
  }

  lemma BracketUpdatedAt(dr: DateRule, j: Json, v: Json)
    requires ValidBracket(dr, j)
    ensures ValidBracket(dr, With(j, "updatedAt", v)) <==> dr(v)
    ensures !ValidBracket(dr, Without(j, "updatedAt"))
  {
  }

  lemma BracketStartedAt(dr: DateRule, j: Json, v: Json)
    requires ValidBracket(dr, j)
    ensures ValidBracket(dr, With(j, "startedAt", v)) <==> dr(v)
    ensures !ValidBracket(dr, Without(j, "startedAt"))
  {
  }

  /** `teamIDs` is an array of strings; the other id lists are arrays of
      anything. */
  lemma BracketTeamIDs(dr: DateRule, j: Json, v: Json)
    requires ValidBracket(dr, j)
    ensures ValidBracket(dr, With(j, "teamIDs", v)) <==> v.JArray? && forall i | 0 <= i < |v.items| :: v.items[i].JString?
    ensures !ValidBracket(dr, Without(j, "teamIDs"))
  {
  }

  lemma BracketGroupIDs(dr: DateRule, j: Json, v: Json)
    requires ValidBracket(dr, j)
    ensures ValidBracket(dr, With(j, "groupIDs", v)) <==> v.JArray?
    ensures !ValidBracket(dr, Without(j, "groupIDs"))
  {
  }

  lemma BracketMatchIDs(dr: DateRule, j: Json, v: Json)
    requires ValidBracket(dr, j)
    ensures ValidBracket(dr, With(j, "matchIDs", v)) <==> v.JArray?
    ensures !ValidBracket(dr, Without(j, "matchIDs"))
  {
  }

  lemma BracketPickBan(dr: DateRule, j: Json, v: Json)
    requires ValidBracket(dr, j)
    ensures ValidBracket(dr, With(j, "pickBan", v)) <==> v.JArray?
    ensures !ValidBracket(dr, Without(j, "pickBan"))
  {
  }

  /** The nested bracket description and schedule. */
  lemma BracketBracket(dr: DateRule, j: Json, v: Json)
    requires ValidBracket(dr, j)
    ensures ValidBracket(dr, With(j, "bracket", v)) <==> ValidBracketClass(v)
    ensures !ValidBracket(dr, Without(j, "bracket"))
  {
  }

  lemma BracketSchedule(dr: DateRule, j: Json, v: Json)
    requires ValidBracket(dr, j)
    ensures ValidBracket(dr, With(j, "schedule", v)) <==> ValidBracketSchedule(v)
    ensures !ValidBracket(dr, Without(j, "schedule"))
  {
  }

  lemma BracketClassTeamsCount(j: Json, v: Json)
    requires ValidBracketClass(j)
    ensures ValidBracketClass(With(j, "teamsCount", v)) <==> v.JNumber?
    ensures !ValidBracketClass(Without(j, "teamsCount"))
  {
  }

  lemma BracketClassRoundsCount(j: Json, v: Json)
    requires ValidBracketClass(j)
    ensures ValidBracketClass(With(j, "roundsCount", v)) <==> v.JNumber?
    ensures !ValidBracketClass(Without(j, "roundsCount"))
  {
  }

  lemma BracketClassHasThirdPlaceMatch(j: Json, v: Json)
    requires ValidBracketClass(j)
    ensures ValidBracketClass(With(j, "hasThirdPlaceMatch", v)) <==> v.JBool?
    ensures !ValidBracketClass(Without(j, "hasThirdPlaceMatch"))
  {
  }

  lemma BracketClassSeries(j: Json, v: Json)
    requires ValidBracketClass(j)
    ensures ValidBracketClass(With(j, "series", v)) <==> v.JArray? && forall i | 0 <= i < |v.items| :: ValidSeries(v.items[i])
    ensures !ValidBracketClass(Without(j, "series"))
  {
  }

  lemma SeriesRound(j: Json, v: Json)
    requires ValidSeries(j)
    ensures ValidSeries(With(j, "round", v)) <==> v.JNumber?
    ensures !ValidSeries(Without(j, "round"))
  {
  }

  lemma SeriesRoundType(j: Json, v: Json)
    requires ValidSeries(j)
    ensures ValidSeries(With(j, "roundType", v)) <==> v.JString?
    ensures !ValidSeries(Without(j, "roundType"))
  {
  }

  lemma SeriesNumGames(j: Json, v: Json)
    requires ValidSeries(j)
    ensures ValidSeries(With(j, "numGames", v)) <==> v.JNumber?
    ensures !ValidSeries(Without(j, "numGames"))
  {
  }

  lemma ScheduleRounds(j: Json, v: Json)
    requires ValidBracketSchedule(j)
    ensures ValidBracketSchedule(With(j, "rounds", v)) <==> v.JArray? && forall i | 0 <= i < |v.items| :: ValidRound(v.items[i])
    ensures !ValidBracketSchedule(Without(j, "rounds"))
  {
  }

  lemma ScheduleAllowRescheduling(j: Json, v: Json)
    requires ValidBracketSchedule(j)
    ensures ValidBracketSchedule(With(j, "allowRescheduling", v)) <==> v.JBool?
    ensures !ValidBracketSchedule(Without(j, "allowRescheduling"))
  {
  }

  lemma RoundRoundNumber(j: Json, v: Json)
    requires ValidRound(j)
    ensures ValidRound(With(j, "roundNumber", v)) <==> v.JNumber?
    ensures !ValidRound(Without(j, "roundNumber"))
  {
  }

  lemma RoundStartTime(j: Json, v: Json)
    requires ValidRound(j)
    ensures ValidRound(With(j, "startTime", v)) <==> v.JString?
    ensures !ValidRound(Without(j, "startTime"))
  {
  }

  // Each schema as a whole, from the field lemmas above

  /** A stage needs string `_id` and `name`, its four timestamps as dates,
      `teamIDs` as an array of strings, the other id lists as arrays, and a
      valid bracket description and schedule. */
  lemma BracketFields(dr: DateRule, j: Json, v: Json)
    requires ValidBracket(dr, j)
    ensures ValidBracket(dr, With(j, "_id", v)) <==> v.JString?
    ensures !ValidBracket(dr, Without(j, "_id"))
    ensures ValidBracket(dr, With(j, "name", v)) <==> v.JString?
    ensures !ValidBracket(dr, Without(j, "name"))
    ensures ValidBracket(dr, With(j, "startTime", v)) <==> dr(v)
    ensures !ValidBracket(dr, Without(j, "startTime"))
    ensures ValidBracket(dr, With(j, "createdAt", v)) <==> dr(v)
    ensures !ValidBracket(dr, Without(j, "createdAt"))
    ensures ValidBracket(dr, With(j, "updatedAt", v)) <==> dr(v)
    ensures !ValidBracket(dr, Without(j, "updatedAt"))
    ensures ValidBracket(dr, With(j, "startedAt", v)) <==> dr(v)
    ensures !ValidBracket(dr, Without(j, "startedAt"))
    ensures ValidBracket(dr, With(j, "teamIDs", v)) <==> v.JArray? && forall i | 0 <= i < |v.items| :: v.items[i].JString?
    ensures !ValidBracket(dr, Without(j, "teamIDs"))
    ensures ValidBracket(dr, With(j, "groupIDs", v)) <==> v.JArray?
    ensures !ValidBracket(dr, Without(j, "groupIDs"))
    ensures ValidBracket(dr, With(j, "matchIDs", v)) <==> v.JArray?
    ensures !ValidBracket(dr, Without(j, "matchIDs"))
    ensures ValidBracket(dr, With(j, "pickBan", v)) <==> v.JArray?
    ensures !ValidBracket(dr, Without(j, "pickBan"))
    ensures ValidBracket(dr, With(j, "bracket", v)) <==> ValidBracketClass(v)
    ensures !ValidBracket(dr, Without(j, "bracket"))
    ensures ValidBracket(dr, With(j, "schedule", v)) <==> ValidBracketSchedule(v)
    ensures !ValidBracket(dr, Without(j, "schedule"))
  {
    BracketId(dr, j, v);
    BracketName(dr, j, v);
    BracketStartTime(dr, j, v);
    BracketCreatedAt(dr, j, v);
    BracketUpdatedAt(dr, j, v);
    BracketStartedAt(dr, j, v);
    BracketTeamIDs(dr, j, v);
    BracketGroupIDs(dr, j, v);
    BracketMatchIDs(dr, j, v);
    BracketPickBan(dr, j, v);
    BracketBracket(dr, j, v);
    BracketSchedule(dr, j, v);
  }

  /** A bracket description needs numeric team and round counts, the
      third-place flag and an array of valid series. */
  lemma BracketClassFields(j: Json, v: Json)
    requires ValidBracketClass(j)
    ensures ValidBracketClass(With(j, "teamsCount", v)) <==> v.JNumber?
    ensures !ValidBracketClass(Without(j, "teamsCount"))
    ensures ValidBracketClass(With(j, "roundsCount", v)) <==> v.JNumber?
    ensures !ValidBracketClass(Without(j, "roundsCount"))
    ensures ValidBracketClass(With(j, "hasThirdPlaceMatch", v)) <==> v.JBool?
    ensures !ValidBracketClass(Without(j, "hasThirdPlaceMatch"))
    ensures ValidBracketClass(With(j, "series", v)) <==> v.JArray? && forall i | 0 <= i < |v.items| :: ValidSeries(v.items[i])
    ensures !ValidBracketClass(Without(j, "series"))
  {
    BracketClassTeamsCount(j, v);
    BracketClassRoundsCount(j, v);
    BracketClassHasThirdPlaceMatch(j, v);
    BracketClassSeries(j, v);
  }

  /** A series needs numeric `round` and `numGames` and a string `roundType`. */
  lemma SeriesFields(j: Json, v: Json)
    requires ValidSeries(j)
    ensures ValidSeries(With(j, "round", v)) <==> v.JNumber?
    ensures !ValidSeries(Without(j, "round"))
    ensures ValidSeries(With(j, "roundType", v)) <==> v.JString?
    ensures !ValidSeries(Without(j, "roundType"))
    ensures ValidSeries(With(j, "numGames", v)) <==> v.JNumber?
    ensures !ValidSeries(Without(j, "numGames"))
  {
    SeriesRound(j, v);
    SeriesRoundType(j, v);
    SeriesNumGames(j, v);
  }

  /** A stage schedule needs an array of valid rounds and the rescheduling flag. */
  lemma ScheduleFields(j: Json, v: Json)
    requires ValidBracketSchedule(j)
    ensures ValidBracketSchedule(With(j, "rounds", v)) <==> v.JArray? && forall i | 0 <= i < |v.items| :: ValidRound(v.items[i])
    ensures !ValidBracketSchedule(Without(j, "rounds"))
    ensures ValidBracketSchedule(With(j, "allowRescheduling", v)) <==> v.JBool?
    ensures !ValidBracketSchedule(Without(j, "allowRescheduling"))
  {
    ScheduleRounds(j, v);
    ScheduleAllowRescheduling(j, v);
  }

  /** A round needs a numeric `roundNumber` and a string `startTime`. */
  lemma RoundFields(j: Json, v: Json)
    requires ValidRound(j)
    ensures ValidRound(With(j, "roundNumber", v)) <==> v.JNumber?
    ensures !ValidRound(Without(j, "roundNumber"))
    ensures ValidRound(With(j, "startTime", v)) <==> v.JString?
    ensures !ValidRound(Without(j, "startTime"))
  {
    RoundRoundNumber(j, v);
    RoundStartTime(j, v);
  }
}
