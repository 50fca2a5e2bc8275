/** The roster schemas (src/lib/types/battlefy/teams.ts). */
module TeamsSchema {
  import opened Wrappers
  import opened JsonData
  import opened Records

  /** `HeaderSchema`: an image reference. */
  predicate ValidHeader(j: Json) {
    j.JObject? && HasString(j.fields, "url")
  }

  predicate HasHeader(o: Fields, k: string) {
    k in o && ValidHeader(o[k])
  }

  /** `PersistentTeamSchema` */
  predicate ValidPersistentTeam(dr: DateRule, j: Json) {
    && j.JObject?
    && var o := j.fields;
    && HasString(o, "_id")
    && HasString(o, "name")
    && HasHeader(o, "logo")
    && HasHeader(o, "header")
    && HasHeader(o, "sponsor")
    && HasString(o, "logoUrl")
    && HasString(o, "shortDescription")
    && HasString(o, "bannerUrl")
    && HasString(o, "sponsorBannerUrl")
    && HasDate(dr, o, "createdAt")
    && HasDate(dr, o, "updatedAt")
    && HasArray(o, "teamIDs")
    && HasString(o, "gameID")
    && HasStringArray(o, "persistentPlayerIDs")
    && HasString(o, "persistentCaptainID")
    && HasArray(o, "pendingPlayerIDs")
    && HasString(o, "ownerID")
  }

  /** `EquipmentSchema` */
  predicate ValidEquipment(j: Json) {
    && j.JObject?
    && HasString(j.fields, "face")
    && OptNullString(j.fields, "head")
    && OptNullString(j.fields, "body")
  }

  /** `CaptainSchema`: a roster player (also the team's captain). */
  predicate ValidRosterPlayer(dr: DateRule, j: Json) {
    && j.JObject?
    && var o := j.fields;
    && HasString(o, "_id")
    && HasBool(o, "onTeam")
    && HasBool(o, "isFreeAgent")
    && HasBool(o, "beCaptain")
    && HasString(o, "inGameName")
    && HasString(o, "gameID")
    && OptNullString(o, "persistentPlayerID")
    && OptNullString(o, "userID")
    && HasString(o, "ownerID")
    && HasDate(dr, o, "createdAt")
    && HasDate(dr, o, "updatedAt")
    && HasString(o, "organizationID")
    && HasString(o, "tournamentID")
    && OptNullString(o, "userSlug")
    && ("equipment" !in o || o["equipment"].JNull? || ValidEquipment(o["equipment"]))
    && OptNullString(o, "username")
    && OptNullString(o, "avatarUrl")
  }

  predicate ValidRosterPlayers(dr: DateRule, j: Json) {
    j.JArray? && forall i | 0 <= i < |j.items| :: ValidRosterPlayer(dr, j.items[i])
  }

  /** `TeamElementSchema`: one roster team. */
  predicate ValidRosterTeam(dr: DateRule, j: Json) {
    && j.JObject?
    && var o := j.fields;
    && HasString(o, "_id")
    && HasString(o, "name")
    && HasString(o, "pendingTeamID")
    && HasString(o, "persistentTeamID")
    && HasString(o, "tournamentID")
    && HasString(o, "userID")
    && HasArray(o, "customFields")
    && HasString(o, "ownerID")
    && HasDate(dr, o, "createdAt")
    && HasStringArray(o, "playerIDs")
    && HasString(o, "captainID")
    && "captain" in o && ValidRosterPlayer(dr, o["captain"])
    && "players" in o && ValidRosterPlayers(dr, o["players"])
    && "persistentTeam" in o && ValidPersistentTeam(dr, o["persistentTeam"])
    && OptNullDate(dr, o, "checkedInAt")
  }

  function ToRosterPlayer(dr: DateRule, j: Json): (p: RosterPlayer)
    requires ValidRosterPlayer(dr, j)
    ensures JString(p.id) == j.fields["_id"]
    ensures JString(p.inGameName) == j.fields["inGameName"]
    ensures p.username.Some? <==> "username" in j.fields && j.fields["username"].JString?
    ensures p.username.Some? ==> j.fields["username"] == JString(p.username.value)
  {
    var o := j.fields;
    var username := if "username" in o && o["username"].JString? then Some(o["username"].s) else None;
    RosterPlayer(o["_id"].s, o["inGameName"].s, username)
  }

  /** The validate-or-throw half of `getTeams`, and the same check the
      player step repeats on its result. */
  function ParseRosterTeam(dr: DateRule, j: Json): (r: Result<RosterTeam, FetchError>)
    ensures r.Success? <==> ValidRosterTeam(dr, j)
    ensures r.Failure? ==> r.error == SchemaError("TeamElementSchema")
    ensures r.Success? ==> |r.value.players| == |j.fields["players"].items|
    ensures r.Success? ==> forall i | 0 <= i < |r.value.players| ::
      r.value.players[i] == ToRosterPlayer(dr, j.fields["players"].items[i])
  {
    if ValidRosterTeam(dr, j) then
      var ps := j.fields["players"].items;
      Success(RosterTeam(j.fields["_id"].s, j.fields["name"].s,
        seq(|ps|, i requires 0 <= i < |ps| => ToRosterPlayer(dr, ps[i]))))
    else
      Failure(SchemaError("TeamElementSchema"))
  }

  // Properties of the roster schemas

  /** The roster-player fields the player step reads, and its flags, are
      required and typed. */
  lemma RosterPlayerId(dr: DateRule, j: Json, v: Json)
    requires ValidRosterPlayer(dr, j)
    ensures ValidRosterPlayer(dr, With(j, "_id", v)) <==> v.JString?
    ensures !ValidRosterPlayer(dr, Without(j, "_id"))
  {
  }

  lemma RosterPlayerInGameName(dr: DateRule, j: Json, v: Json)
    requires ValidRosterPlayer(dr, j)
    ensures ValidRosterPlayer(dr, With(j, "inGameName", v)) <==> v.JString?
    ensures !ValidRosterPlayer(dr, Without(j, "inGameName"))
  {
  }

  lemma RosterPlayerOnTeam(dr: DateRule, j: Json, v: Json)
    requires ValidRosterPlayer(dr, j)
    ensures ValidRosterPlayer(dr, With(j, "onTeam", v)) <==> v.JBool?
    ensures !ValidRosterPlayer(dr, Without(j, "onTeam"))
  {
  }

  lemma RosterPlayerIsFreeAgent(dr: DateRule, j: Json, v: Json)
    requires ValidRosterPlayer(dr, j)
    ensures ValidRosterPlayer(dr, With(j, "isFreeAgent", v)) <==> v.JBool?
    ensures !ValidRosterPlayer(dr, Without(j, "isFreeAgent"))
  {
  }

  lemma RosterPlayerBeCaptain(dr: DateRule, j: Json, v: Json)
    requires ValidRosterPlayer(dr, j)
    ensures ValidRosterPlayer(dr, With(j, "beCaptain", v)) <==> v.JBool?
    ensures !ValidRosterPlayer(dr, Without(j, "beCaptain"))
  {
  }

  /** The identity and display fields of a roster player may be absent,
      null or a string; the equipment may be absent, null or valid. */
  lemma RosterPlayerPersistentPlayerID(dr: DateRule, j: Json, v: Json)
    requires ValidRosterPlayer(dr, j)
    ensures ValidRosterPlayer(dr, With(j, "persistentPlayerID", v)) <==> v.JNull? || v.JString?
    ensures ValidRosterPlayer(dr, Without(j, "persistentPlayerID"))
  {
  }

  lemma RosterPlayerUserID(dr: DateRule, j: Json, v: Json)
    requires ValidRosterPlayer(dr, j)
    ensures ValidRosterPlayer(dr, With(j, "userID", v)) <==> v.JNull? || v.JString?
    ensures ValidRosterPlayer(dr, Without(j, "userID"))
  {
  }

  lemma RosterPlayerUserSlug(dr: DateRule, j: Json, v: Json)
    requires ValidRosterPlayer(dr, j)
    ensures ValidRosterPlayer(dr, With(j, "userSlug", v)) <==> v.JNull? || v.JString?
    ensures ValidRosterPlayer(dr, Without(j, "userSlug"))
  {
  }

  lemma RosterPlayerUsername(dr: DateRule, j: Json, v: Json)
    requires ValidRosterPlayer(dr, j)
    ensures ValidRosterPlayer(dr, With(j, "username", v)) <==> v.JNull? || v.JString?
    ensures ValidRosterPlayer(dr, Without(j, "username"))
  {
  }

  lemma RosterPlayerAvatarUrl(dr: DateRule, j: Json, v: Json)
    requires ValidRosterPlayer(dr, j)
    ensures ValidRosterPlayer(dr, With(j, "avatarUrl", v)) <==> v.JNull? || v.JString?
    ensures ValidRosterPlayer(dr, Without(j, "avatarUrl"))
  {
  }

  lemma RosterPlayerEquipment(dr: DateRule, j: Json, v: Json)
    requires ValidRosterPlayer(dr, j)
    ensures ValidRosterPlayer(dr, With(j, "equipment", v)) <==> v.JNull? || ValidEquipment(v)
    ensures ValidRosterPlayer(dr, Without(j, "equipment"))
  {
  }

  /** Equipment needs a string `face`; `head` and `body` are optional. */
  lemma EquipmentFace(j: Json, v: Json)
    requires ValidEquipment(j)
    ensures ValidEquipment(With(j, "face", v)) <==> v.JString?
    ensures !ValidEquipment(Without(j, "face"))
  {
  }

  lemma EquipmentHead(j: Json, v: Json)
    requires ValidEquipment(j)
    ensures ValidEquipment(With(j, "head", v)) <==> v.JNull? || v.JString?
    ensures ValidEquipment(Without(j, "head"))
  {
  }

  lemma EquipmentBody(j: Json, v: Json)
    requires ValidEquipment(j)
    ensures ValidEquipment(With(j, "body", v)) <==> v.JNull? || v.JString?
    ensures ValidEquipment(Without(j, "body"))
  {
  }

  /** The three image fields of a persistent team are required headers. */
  lemma PersistentTeamLogo(dr: DateRule, j: Json, v: Json)
    requires ValidPersistentTeam(dr, j)
    ensures ValidPersistentTeam(dr, With(j, "logo", v)) <==> ValidHeader(v)
    ensures !ValidPersistentTeam(dr, Without(j, "logo"))
  {
  }

  lemma PersistentTeamHeader(dr: DateRule, j: Json, v: Json)
    requires ValidPersistentTeam(dr, j)
    ensures ValidPersistentTeam(dr, With(j, "header", v)) <==> ValidHeader(v)
    ensures !ValidPersistentTeam(dr, Without(j, "header"))
  {
  }

  lemma PersistentTeamSponsor(dr: DateRule, j: Json, v: Json)
    requires ValidPersistentTeam(dr, j)
    ensures ValidPersistentTeam(dr, With(j, "sponsor", v)) <==> ValidHeader(v)
    ensures !ValidPersistentTeam(dr, Without(j, "sponsor"))
  {
  }

  /** A header is any object whose `url` is a string; other keys are
      accepted and stripped. */
  lemma HeaderUrl(j: Json, v: Json)
    ensures ValidHeader(j) <==> j.JObject? && "url" in j.fields && j.fields["url"].JString?
    ensures ValidHeader(JObject(map["url" := v])) <==> v.JString?
    ensures !ValidHeader(JObject(map[]))
  {
  }

  /** A roster team needs its identity, captain, players and persistent
      team; `checkedInAt` may be absent, null or a date. */
  lemma RosterTeamId(dr: DateRule, j: Json, v: Json)
    requires ValidRosterTeam(dr, j)
    ensures ValidRosterTeam(dr, With(j, "_id", v)) <==> v.JString?
    ensures !ValidRosterTeam(dr, Without(j, "_id"))
  {
  }

  lemma RosterTeamName(dr: DateRule, j: Json, v: Json)
    requires ValidRosterTeam(dr, j)
    ensures ValidRosterTeam(dr, With(j, "name", v)) <==> v.JString?
    ensures !ValidRosterTeam(dr, Without(j, "name"))
  {
  }

  lemma RosterTeamCaptain(dr: DateRule, j: Json, v: Json)
    requires ValidRosterTeam(dr, j)
    ensures ValidRosterTeam(dr, With(j, "captain", v)) <==> ValidRosterPlayer(dr, v)
    ensures !ValidRosterTeam(dr, Without(j, "captain"))
  {
  }

  lemma RosterTeamPlayers(dr: DateRule, j: Json, v: Json)
    requires ValidRosterTeam(dr, j)
    ensures ValidRosterTeam(dr, With(j, "players", v)) <==> v.JArray? && forall i | 0 <= i < |v.items| :: ValidRosterPlayer(dr, v.items[i])
    ensures !ValidRosterTeam(dr, Without(j, "players"))
  {
  }

  lemma RosterTeamPersistentTeam(dr: DateRule, j: Json, v: Json)
    requires ValidRosterTeam(dr, j)
    ensures ValidRosterTeam(dr, With(j, "persistentTeam", v)) <==> ValidPersistentTeam(dr, v)
    ensures !ValidRosterTeam(dr, Without(j, "persistentTeam"))
  {
  }

  lemma RosterTeamCheckedInAt(dr: DateRule, j: Json, v: Json)
    requires ValidRosterTeam(dr, j)
    ensures ValidRosterTeam(dr, With(j, "checkedInAt", v)) <==> v.JNull? || dr(v)
    ensures ValidRosterTeam(dr, Without(j, "checkedInAt"))
  {
  }

  // Each schema as a whole, from the field lemmas above

  /** A roster player needs string `_id` and `inGameName` and its three flags;
      its identity and display fields may be absent, null or a string, and
      its equipment absent, null or valid. */
  lemma RosterPlayerFields(dr: DateRule, j: Json, v: Json)
    requires ValidRosterPlayer(dr, j)
    ensures ValidRosterPlayer(dr, With(j, "_id", v)) <==> v.JString?
    ensures !ValidRosterPlayer(dr, Without(j, "_id"))
    ensures ValidRosterPlayer(dr, With(j, "inGameName", v)) <==> v.JString?
    ensures !ValidRosterPlayer(dr, Without(j, "inGameName"))
    ensures ValidRosterPlayer(dr, With(j, "onTeam", v)) <==> v.JBool?
    ensures !ValidRosterPlayer(dr, Without(j, "onTeam"))
    ensures ValidRosterPlayer(dr, With(j, "isFreeAgent", v)) <==> v.JBool?
    ensures !ValidRosterPlayer(dr, Without(j, "isFreeAgent"))
    ensures ValidRosterPlayer(dr, With(j, "beCaptain", v)) <==> v.JBool?
    ensures !ValidRosterPlayer(dr, Without(j, "beCaptain"))
    ensures ValidRosterPlayer(dr, With(j, "persistentPlayerID", v)) <==> v.JNull? || v.JString?
    ensures ValidRosterPlayer(dr, Without(j, "persistentPlayerID"))
    ensures ValidRosterPlayer(dr, With(j, "userID", v)) <==> v.JNull? || v.JString?
    ensures ValidRosterPlayer(dr, Without(j, "userID"))
    ensures ValidRosterPlayer(dr, With(j, "userSlug", v)) <==> v.JNull? || v.JString?
    ensures ValidRosterPlayer(dr, Without(j, "userSlug"))
    ensures ValidRosterPlayer(dr, With(j, "username", v)) <==> v.JNull? || v.JString?
    ensures ValidRosterPlayer(dr, Without(j, "username"))
    ensures ValidRosterPlayer(dr, With(j, "avatarUrl", v)) <==> v.JNull? || v.JString?
    ensures ValidRosterPlayer(dr, Without(j, "avatarUrl"))
    ensures ValidRosterPlayer(dr, With(j, "equipment", v)) <==> v.JNull? || ValidEquipment(v)
    ensures ValidRosterPlayer(dr, Without(j, "equipment"))
  {
    RosterPlayerId(dr, j, v);
    RosterPlayerInGameName(dr, j, v);
    RosterPlayerOnTeam(dr, j, v);
    RosterPlayerIsFreeAgent(dr, j, v);
    RosterPlayerBeCaptain(dr, j, v);
    RosterPlayerPersistentPlayerID(dr, j, v);
    RosterPlayerUserID(dr, j, v);
    RosterPlayerUserSlug(dr, j, v);
    RosterPlayerUsername(dr, j, v);
    RosterPlayerAvatarUrl(dr, j, v);
    RosterPlayerEquipment(dr, j, v);
  }

  /** Equipment needs a string `face`; `head` and `body` are optional. */
  lemma EquipmentFields(j: Json, v: Json)
    requires ValidEquipment(j)
    ensures ValidEquipment(With(j, "face", v)) <==> v.JString?
    ensures !ValidEquipment(Without(j, "face"))
    ensures ValidEquipment(With(j, "head", v)) <==> v.JNull? || v.JString?
    ensures ValidEquipment(Without(j, "head"))
    ensures ValidEquipment(With(j, "body", v)) <==> v.JNull? || v.JString?
    ensures ValidEquipment(Without(j, "body"))
  {
    EquipmentFace(j, v);
    EquipmentHead(j, v);
    EquipmentBody(j, v);
  }

  /** The three image fields of a persistent team are required headers. */
  lemma PersistentTeamHeaders(dr: DateRule, j: Json, v: Json)
    requires ValidPersistentTeam(dr, j)
    ensures ValidPersistentTeam(dr, With(j, "logo", v)) <==> ValidHeader(v)
    ensures !ValidPersistentTeam(dr, Without(j, "logo"))
    ensures ValidPersistentTeam(dr, With(j, "header", v)) <==> ValidHeader(v)
    ensures !ValidPersistentTeam(dr, Without(j, "header"))
    ensures ValidPersistentTeam(dr, With(j, "sponsor", v)) <==> ValidHeader(v)
    ensures !ValidPersistentTeam(dr, Without(j, "sponsor"))
  {
    PersistentTeamLogo(dr, j, v);
    PersistentTeamHeader(dr, j, v);
    PersistentTeamSponsor(dr, j, v);
  }

  /** A roster team needs its identity, captain, players and persistent team;
      `checkedInAt` may be absent, null or a date. */
  lemma RosterTeamFields(dr: DateRule, j: Json, v: Json)
    requires ValidRosterTeam(dr, j)
    ensures ValidRosterTeam(dr, With(j, "_id", v)) <==> v.JString?
    ensures !ValidRosterTeam(dr, Without(j, "_id"))
    ensures ValidRosterTeam(dr, With(j, "name", v)) <==> v.JString?
    ensures !ValidRosterTeam(dr, Without(j, "name"))
    ensures ValidRosterTeam(dr, With(j, "captain", v)) <==> ValidRosterPlayer(dr, v)
    ensures !ValidRosterTeam(dr, Without(j, "captain"))
    ensures ValidRosterTeam(dr, With(j, "players", v)) <==> v.JArray? && forall i | 0 <= i < |v.items| :: ValidRosterPlayer(dr, v.items[i])
    ensures !ValidRosterTeam(dr, Without(j, "players"))
    ensures ValidRosterTeam(dr, With(j, "persistentTeam", v)) <==> ValidPersistentTeam(dr, v)
    ensures !ValidRosterTeam(dr, Without(j, "persistentTeam"))
    ensures ValidRosterTeam(dr, With(j, "checkedInAt", v)) <==> v.JNull? || dr(v)
    ensures ValidRosterTeam(dr, Without(j, "checkedInAt"))
  {
    RosterTeamId(dr, j, v);
    RosterTeamName(dr, j, v);
    RosterTeamCaptain(dr, j, v);
    RosterTeamPlayers(dr, j, v);
    RosterTeamPersistentTeam(dr, j, v);
    RosterTeamCheckedInAt(dr, j, v);
  }
}
