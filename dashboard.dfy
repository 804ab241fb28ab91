/**
 * The submission handler of the dashboard: each of the three team names runs its own
 * pipeline (resolve the name, then fetch the data if an id came back), the results are
 * stored positionally, and the shared `loading` and `error` fields are kept around the
 * work. The pipelines are taken one after the other, in slot order.
 */
module Dashboard {
  import opened Wrappers
  import opened Upstream
  import opened NameResolver
  import opened ResourceFetcher

  /** JavaScript truthiness of the resolved id: `null` and `0` both count as absent. */
  predicate Truthy(teamId: Option<int>)
  {
    teamId.Some? && teamId.value != 0
  }

  /** The name lookup for one team, against the reply to its search segment. */
  function Resolve(teamName: string, api: Api): Lookup
  {
    FetchTeamId(teamName, api.search(SearchSegment(teamName)))
  }

  /** What one team's pipeline leaves behind: its slot, the error it wrote, the requests it sent. */
  datatype TeamRun = TeamRun(slot: Option<Bundle>, error: Option<string>, calls: seq<Call>)

  /** One team's pipeline: resolve the name and, only for a truthy id, fetch the team's data. */
  function RunTeam(teamName: string, api: Api): TeamRun
  {
    var lookup := Resolve(teamName, api);
    var search := SearchCall(SearchSegment(teamName));
    if Truthy(lookup.teamId) then
      var teamId := lookup.teamId.value;
      var requests := DataRequests(teamId);
      var data := FetchTeamData(teamId, api);
      TeamRun(data.bundle, data.error, [search, DataCall(requests[0]), DataCall(requests[1]), DataCall(requests[2])])
    else
      TeamRun(None, lookup.error, [search])
  }

  /**
   * The requests a pipeline sends: first the search for the name's URL segment; then the
   * three data requests for the resolved id, and none at all when the id is falsy.
   */
  lemma RunTeamCalls(teamName: string, api: Api)
    ensures var r, lookup := RunTeam(teamName, api), Resolve(teamName, api);
      && |r.calls| >= 1 && r.calls[0] == SearchCall(SearchSegment(teamName))
      && (!Truthy(lookup.teamId) ==> |r.calls| == 1)
      && (Truthy(lookup.teamId) ==>
            |r.calls| == 4 &&
            forall k :: 0 <= k < 3 ==> r.calls[k + 1] == DataCall(DataRequests(lookup.teamId.value)[k]))
  {
  }

  /**
   * A pipeline depends on the network only through the replies to the requests it logs:
   * two networks that answer its search segment and its logged data requests alike give
   * the same slot, error and log.
   */
  lemma RunDependsOnLoggedReplies(teamName: string, a1: Api, a2: Api)
    requires a1.search(SearchSegment(teamName)) == a2.search(SearchSegment(teamName))
    requires forall request :: DataCall(request) in RunTeam(teamName, a1).calls ==> a1.get(request) == a2.get(request)
    ensures RunTeam(teamName, a1) == RunTeam(teamName, a2)
  {
  }

  /**
   * The data fetcher is not invoked for a falsy id: whatever the network would answer to
   * data requests, the pipeline comes out the same.
   */
  lemma FalsyIdFetchesNothing(teamName: string, a1: Api, a2: Api)
    requires a1.search(SearchSegment(teamName)) == a2.search(SearchSegment(teamName))
    requires !Truthy(Resolve(teamName, a1).teamId)
    ensures RunTeam(teamName, a1) == RunTeam(teamName, a2)
  {
  }

  /**
   * What a pipeline leaves: a bundle exactly when the id is truthy and all three data
   * requests succeed; otherwise an absent slot, with the lookup's error when the name did
   * not resolve, the data error when a request failed, and no error at all only for the
   * falsy id `0`.
   */
  lemma RunTeamOutcome(teamName: string, api: Api)
    ensures var r, lookup := RunTeam(teamName, api), Resolve(teamName, api);
      && (r.slot.Some? <==> Truthy(lookup.teamId) && AllSucceed(lookup.teamId.value, api))
      && (Truthy(lookup.teamId) ==> r.slot == FetchTeamData(lookup.teamId.value, api).bundle)
      && (!Truthy(lookup.teamId) ==> r.error == lookup.error)
      && (Truthy(lookup.teamId) ==> r.error == if r.slot.None? then Some(DataErrorMessage) else None)
      && (r.error.Some? ==> r.slot.None?)
      && (r.slot.None? && r.error.None? <==> lookup.teamId == Some(0))
  {
  }

  /** The pipelines of a submission, one per name, in slot order. */
  function Runs(names: seq<string>, api: Api): (r: seq<TeamRun>)
    ensures |r| == |names|
    ensures forall i :: 0 <= i < |names| ==> r[i] == RunTeam(names[i], api)
  {
    if names == [] then []
    else Runs(names[..|names| - 1], api) + [RunTeam(names[|names| - 1], api)]
  }

  /** The slots the pipelines fill, in order. */
  function SlotsOf(runs: seq<TeamRun>): seq<Option<Bundle>>
  {
    seq(|runs|, i requires 0 <= i < |runs| => runs[i].slot)
  }

  /** The result list of a submission: slot `i` holds what team name `i`'s pipeline produced. */
  function Slots(names: seq<string>, api: Api): (r: seq<Option<Bundle>>)
    ensures |r| == |names|
    ensures forall i :: 0 <= i < |names| ==> r[i] == RunTeam(names[i], api).slot
  {
    SlotsOf(Runs(names, api))
  }

  /** The shared error field after the pipelines have written theirs in order: the last write wins. */
  function LastError(runs: seq<TeamRun>): Option<string>
  {
    if runs == [] then None
    else
      var e := runs[|runs| - 1].error;
      if e.Some? then e else LastError(runs[..|runs| - 1])
  }

  /** The error stays cleared exactly when no pipeline of the submission wrote one. */
  lemma {:induction false} NoErrorIffNoFailure(runs: seq<TeamRun>)
    ensures LastError(runs).None? <==> forall i :: 0 <= i < |runs| ==> runs[i].error.None?
  {
    if runs != [] {
      var init := runs[..|runs| - 1];
      NoErrorIffNoFailure(init);
      assert forall i :: 0 <= i < |init| ==> init[i] == runs[i];
    }
  }

  /** A reported error is the one written by the last pipeline that wrote one. */
  lemma {:induction false} LastErrorIsMostRecent(runs: seq<TeamRun>)
    requires LastError(runs).Some?
    ensures exists i :: 0 <= i < |runs| && runs[i].error == LastError(runs) &&
                        forall j :: i < j < |runs| ==> runs[j].error.None?
  {
    var n := |runs|;
    var init := runs[..n - 1];
    if runs[n - 1].error.None? {
      LastErrorIsMostRecent(init);
      var i :| 0 <= i < |init| && init[i].error == LastError(init) &&
               forall j :: i < j < |init| ==> init[j].error.None?;
      assert runs[i] == init[i];
      forall j | i < j < n
        ensures runs[j].error.None?
      {
        if j < n - 1 {
          assert runs[j] == init[j];
        }
      }
    } else {
      assert runs[n - 1].error == LastError(runs);
    }
  }

  /** Slot `i` depends on team name `i` only: the other names cannot change it. */
  lemma SlotIsolation(names: seq<string>, others: seq<string>, api: Api, i: nat)
    requires i < |names| && i < |others| && names[i] == others[i]
    ensures Slots(names, api)[i] == Slots(others, api)[i]
  {
  }

  /** A name that resolves to a truthy id whose three data requests succeed fills its slot silently. */
  lemma SucceedingRun(teamName: string, api: Api)
    requires Truthy(Resolve(teamName, api).teamId)
    requires AllSucceed(Resolve(teamName, api).teamId.value, api)
    ensures RunTeam(teamName, api).slot.Some? && RunTeam(teamName, api).error.None?
  {
    RunTeamOutcome(teamName, api);
  }

  /** A name that does not resolve leaves its slot absent and writes the lookup message. */
  lemma UnresolvedRun(teamName: string, api: Api)
    requires Resolve(teamName, api).teamId.None?
    ensures RunTeam(teamName, api).slot.None?
    ensures RunTeam(teamName, api).error == Some(LookupErrorMessage(teamName))
  {
    RunTeamOutcome(teamName, api);
  }

  /**
   * Partial failure does not abort the submission: when one name cannot be resolved and
   * the others resolve and fetch successfully, only that slot is absent, and the error
   * left behind is the lookup message naming that team.
   */
  lemma {:induction false} OneFailedLookup(names: seq<string>, api: Api, k: nat)
    requires k < |names|
    requires Resolve(names[k], api).teamId.None?
    requires forall i :: 0 <= i < |names| && i != k ==>
      Truthy(Resolve(names[i], api).teamId) && AllSucceed(Resolve(names[i], api).teamId.value, api)
    ensures forall i :: 0 <= i < |names| ==> (Slots(names, api)[i].None? <==> i == k)
    ensures LastError(Runs(names, api)) == Some(LookupErrorMessage(names[k]))
  {
    var runs := Runs(names, api);
    forall i | 0 <= i < |names|
      ensures runs[i].slot.None? <==> i == k
      ensures i > k ==> runs[i].error.None?
    {
      if i == k {
        UnresolvedRun(names[i], api);
      } else {
        SucceedingRun(names[i], api);
      }
    }
    UnresolvedRun(names[k], api);
    LastErrorAfter(runs, k);
  }

  /** When pipeline `k` wrote an error and no later one did, that error is the one left. */
  lemma {:induction false} LastErrorAfter(runs: seq<TeamRun>, k: nat)
    requires k < |runs| && runs[k].error.Some?
    requires forall j :: k < j < |runs| ==> runs[j].error.None?
    ensures LastError(runs) == runs[k].error
  {
    var n := |runs|;
    if k < n - 1 {
      var init := runs[..n - 1];
      assert init[k] == runs[k];
      LastErrorAfter(init, k);
    }
  }

  /** The three form fields. */
  datatype TeamNames = TeamNames(team1: string, team2: string, team3: string)

  /** The fields in slot order. */
  function NameList(t: TeamNames): (names: seq<string>)
    ensures |names| == 3 && names[0] == t.team1 && names[1] == t.team2 && names[2] == t.team3
  {
    [t.team1, t.team2, t.team3]
  }

  /** The component's state: the form fields, the last result list, and the two shared flags. */
  class App {
    var teamNames: TeamNames
    var data: seq<Option<Bundle>>
    var loading: bool
    var error: Option<string>

    constructor ()
      ensures teamNames == TeamNames("", "", "") && data == [] && !loading && error == None
    {
      teamNames := TeamNames("", "", "");
      data := [];
      loading := false;
      error := None;
    }

    /** Entry of a submission: show the loading indicator and clear the previous error. */
    method BeginSubmit()
      modifies this
      ensures loading && error == None
      ensures teamNames == old(teamNames) && data == old(data)
    {
      loading := true;
      error := None;
    }

    /** A pipeline settles: the error it wrote, if any, replaces the shared one. */
    method SettleTeam(run: TeamRun)
      requires loading
      modifies this
      ensures error == if run.error.Some? then run.error else old(error)
      ensures teamNames == old(teamNames) && data == old(data) && loading == old(loading)
    {
      if run.error.Some? {
        error := run.error;
      }
    }

    /** End of a submission: the result list replaces `data` wholesale and loading stops. */
    method FinishSubmit(results: seq<Option<Bundle>>)
      modifies this
      ensures data == results && !loading
      ensures teamNames == old(teamNames) && error == old(error)
    {
      data := results;
      loading := false;
    }

    /** The pipelines settle in order, each writing its error, if any, over the shared one. */
    method SettleTeams(runs: seq<TeamRun>)
      requires loading
      modifies this
      ensures error == if LastError(runs).Some? then LastError(runs) else old(error)
      ensures teamNames == old(teamNames) && data == old(data) && loading == old(loading)
    {
      for i := 0 to |runs|
        invariant error == if LastError(runs[..i]).Some? then LastError(runs[..i]) else old(error)
        invariant teamNames == old(teamNames) && data == old(data) && loading == old(loading)
      {
        assert runs[..i + 1] == runs[..i] + [runs[i]];
        SettleTeam(runs[i]);
      }
      assert runs[..|runs|] == runs;
    }

    /**
     * `handleSubmit`: three positionally aligned slots, each filled by its own name's
     * pipeline; the error is the last one written during this submission (none if no
     * pipeline failed); loading is off at the end.
     */
    method HandleSubmit(api: Api)
      modifies this
      ensures teamNames == old(teamNames)
      ensures |data| == 3 && data == Slots(NameList(teamNames), api)
      ensures error == LastError(Runs(NameList(teamNames), api))
      ensures !loading
    {
      BeginSubmit();
      var runs := Runs(NameList(teamNames), api);
      SettleTeams(runs);
      FinishSubmit(SlotsOf(runs));
    }
  }
}
