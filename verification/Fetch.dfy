/** The four retrieval helpers of src/routes/api/valorant/newgame/+server.ts
    (`getMatch`, `getMatchList`, `getBracket`, `getTeams`). The network
    call is an input: `None` stands for a fetch or `res.json()` that
    rejected; the schema check that follows is modelled exactly. */
module Fetch {
  import opened Wrappers
  import opened JsonData
  import opened Records
  import opened MatchesSchema
  import opened MatchSchema
  import opened TeamsSchema
  import opened BracketSchema

  function GetBracket(dr: DateRule, response: Option<Json>): (r: Result<Bracket, FetchError>)
    ensures r.Success? <==> response.Some? && ValidBracket(dr, response.value)
    ensures response.None? ==> r == Failure(NetworkError)
    ensures r.Success? ==> JString(r.value.id) == response.value.fields["_id"]
  {
    match response
    case None => Failure(NetworkError)
    case Some(j) => ParseBracket(dr, j)
  }

  function GetMatchList(dr: DateRule, response: Option<Json>): (r: Result<seq<ListEntry>, FetchError>)
    ensures r.Success? <==> response.Some? && ValidMatchList(dr, response.value)
    ensures response.None? ==> r == Failure(NetworkError)
    ensures r.Success? ==> |r.value| == |response.value.items|
  {
    match response
    case None => Failure(NetworkError)
    case Some(j) => ParseMatchList(dr, j)
  }

  /** `getMatch(bracket_id, id)`: `responses` holds the body of every
      detail request that completed; a missing id is a failed request. */
  function GetMatch(dr: DateRule, responses: map<string, Json>, id: string): (r: Result<MatchDetail, FetchError>)
    ensures r.Success? <==> id in responses && ValidMatch(dr, responses[id])
    ensures id !in responses ==> r == Failure(NetworkError)
  {
    if id in responses then ParseMatch(dr, responses[id]) else Failure(NetworkError)
  }

  function GetTeams(dr: DateRule, response: Option<Json>): (r: Result<RosterTeam, FetchError>)
    ensures r.Success? <==> response.Some? && ValidRosterTeam(dr, response.value)
    ensures response.None? ==> r == Failure(NetworkError)
  {
    match response
    case None => Failure(NetworkError)
    case Some(j) => ParseRosterTeam(dr, j)
  }

  /** The details `getMatch` returns successfully, by requested id. */
  function FetchedDetails(dr: DateRule, responses: map<string, Json>): (fetched: map<string, MatchDetail>)
    ensures forall id :: id in fetched <==> GetMatch(dr, responses, id).Success?
    ensures forall id | id in fetched :: fetched[id] == GetMatch(dr, responses, id).value
  {
    map id | id in responses && ValidMatch(dr, responses[id]) :: ToMatchDetail(dr, responses[id])
  }
}
