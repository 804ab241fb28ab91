/**
 * Values exchanged with the sports-data API. The network itself is not modelled:
 * an `Api` value says what every request would answer, so each component becomes a
 * function of the names it is given and of that `Api`.
 */
module Upstream {
  import opened Wrappers

  /** One candidate of the team search: its `team_id` and display name. */
  datatype Team = Team(teamId: int, name: string)

  /**
   * What the team search yields: a transport or JSON failure, or a parsed body whose
   * `api.teams` field may be missing (`None`) or hold a list of candidates.
   */
  datatype SearchReply = SearchFailed | SearchOk(teams: Option<seq<Team>>)

  /** A parsed JSON body, kept opaque: the component passes it on without looking inside. */
  datatype Payload = Payload(json: string)

  /** The outcome of one data request: fetching or parsing failed, or a parsed body. */
  datatype Fetched = FetchFailed | FetchOk(payload: Payload)

  /** The three data requests issued for a resolved team, with their query parameters. */
  datatype DataRequest =
    | Fixtures(team: int, next: nat)
    | Standings(season: nat, team: int)
    | InjuriesOf(season: nat, team: int)

  /** A request the component sends: a search by URL segment, or a data request. */
  datatype Call = SearchCall(segment: string) | DataCall(request: DataRequest)

  /** The upstream service as seen by one submission: the reply to every possible request. */
  datatype Api = Api(search: string -> SearchReply, get: DataRequest -> Fetched)
}
