/**
 * Fetching the data for a resolved team: three requests (upcoming fixtures, standings,
 * injuries) are joined, and a bundle exists only if all three succeeded.
 */
module ResourceFetcher {
  import opened Wrappers
  import opened Upstream

  /** Number of upcoming fixtures asked for. */
  const UpcomingFixtures: nat := 15
  /** The season the standings and injuries are asked for. */
  const Season: nat := 2024

  /** The message stored in the shared error field when any of the three requests fails. */
  const DataErrorMessage := "Failed to fetch data for the team"

  /** The data shown for one team. */
  datatype Bundle = Bundle(fixtures: Payload, standings: Payload, injuries: Payload)

  /** The bundle (absent is the component's `null`) and the error it writes, if any. */
  datatype DataResult = DataResult(bundle: Option<Bundle>, error: Option<string>)

  /** The three requests issued for a team, in the order of the component's URL list. */
  function DataRequests(teamId: int): (requests: seq<DataRequest>)
    ensures |requests| == 3
    ensures forall k :: 0 <= k < 3 ==> requests[k].team == teamId
    ensures requests[0].Fixtures? && requests[0].next == UpcomingFixtures
    ensures requests[1].Standings? && requests[1].season == Season
    ensures requests[2].InjuriesOf? && requests[2].season == Season
  {
    [Fixtures(teamId, UpcomingFixtures), Standings(Season, teamId), InjuriesOf(Season, teamId)]
  }

  /**
   * The all-or-nothing join: a bundle of the three payloads when every outcome is a
   * success; otherwise no bundle, and the error is set. A partial bundle never exists.
   */
  function AssembleBundle(fixtures: Fetched, standings: Fetched, injuries: Fetched): (r: DataResult)
    ensures r.bundle.Some? <==> fixtures.FetchOk? && standings.FetchOk? && injuries.FetchOk?
    ensures r.bundle.Some? ==>
      r.bundle.value.fixtures == fixtures.payload &&
      r.bundle.value.standings == standings.payload &&
      r.bundle.value.injuries == injuries.payload
    ensures r.error == if r.bundle.Some? then None else Some(DataErrorMessage)
  {
    match (fixtures, standings, injuries)
    case (FetchOk(f), FetchOk(s), FetchOk(i)) => DataResult(Some(Bundle(f, s, i)), None)
    case _ => DataResult(None, Some(DataErrorMessage))
  }

  /** The outcomes under which the component would have produced exactly `b`. */
  function Unbundle(b: Bundle): (Fetched, Fetched, Fetched)
  {
    (FetchOk(b.fixtures), FetchOk(b.standings), FetchOk(b.injuries))
  }

  /** Assembling a bundle from its own parts gives it back, and nothing is lost or reordered. */
  lemma AssembleUnbundle(b: Bundle)
    ensures var (f, s, i) := Unbundle(b); AssembleBundle(f, s, i) == DataResult(Some(b), None)
  {
  }

  /** Every bundle the join yields is the one its three successful outcomes describe. */
  lemma UnbundleAssemble(fixtures: Fetched, standings: Fetched, injuries: Fetched)
    ensures var r := AssembleBundle(fixtures, standings, injuries);
            r.bundle.Some? ==> Unbundle(r.bundle.value) == (fixtures, standings, injuries)
  {
  }

  /** Every one of the three requests for `teamId` succeeds. */
  predicate AllSucceed(teamId: int, api: Api)
  {
    var requests := DataRequests(teamId);
    api.get(requests[0]).FetchOk? && api.get(requests[1]).FetchOk? && api.get(requests[2]).FetchOk?
  }

  /** `fetchTeamData(teamId)`: issue the three requests for `teamId` and join their outcomes. */
  function FetchTeamData(teamId: int, api: Api): (r: DataResult)
    ensures r.bundle.Some? <==> AllSucceed(teamId, api)
    ensures r.bundle.Some? ==>
      r.bundle.value == Bundle(api.get(Fixtures(teamId, UpcomingFixtures)).payload,
                               api.get(Standings(Season, teamId)).payload,
                               api.get(InjuriesOf(Season, teamId)).payload)
    ensures r.error.Some? <==> r.bundle.None?
    ensures r.error.Some? ==> r.error.value == DataErrorMessage
  {
    var requests := DataRequests(teamId);
    AssembleBundle(api.get(requests[0]), api.get(requests[1]), api.get(requests[2]))
  }

  /** A failed standings request loses the whole bundle, whatever the other two returned. */
  lemma StandingsFailureLosesBundle(teamId: int, api: Api)
    requires api.get(Standings(Season, teamId)).FetchFailed?
    ensures FetchTeamData(teamId, api) == DataResult(None, Some(DataErrorMessage))
  {
  }
}
