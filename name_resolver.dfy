/**
 * Resolution of a free-text team name to the API's `team_id`: the name becomes a URL
 * segment, the search reply is inspected, and the first candidate wins.
 */
module NameResolver {
  import opened Wrappers
  import opened Upstream

  /** Position of the first space of `s`, or `|s|` when there is none. */
  function FirstSpace(s: string): (i: nat)
    ensures i <= |s|
    ensures forall k :: 0 <= k < i ==> s[k] != ' '
    ensures i < |s| ==> s[i] == ' '
  {
    if s == [] || s[0] == ' ' then 0 else 1 + FirstSpace(s[1..])
  }

  /**
   * The URL segment for a team name. JavaScript's `String.prototype.replace` with a
   * string pattern substitutes the first match only: the first space becomes `_` and
   * every other character, later spaces included, is kept.
   */
  function SearchSegment(teamName: string): (segment: string)
    ensures |segment| == |teamName|
    ensures forall j :: 0 <= j < |teamName| ==>
      segment[j] == if j == FirstSpace(teamName) then '_' else teamName[j]
    ensures ' ' !in teamName ==> segment == teamName
  {
    if teamName == [] then []
    else if teamName[0] == ' ' then "_" + teamName[1..]
    else [teamName[0]] + SearchSegment(teamName[1..])
  }

  /** Number of occurrences of `c` in `s`. */
  function Count(s: string, c: char): nat
  {
    if s == [] then 0 else (if s[0] == c then 1 else 0) + Count(s[1..], c)
  }

  /**
   * Exactly one space is consumed by the segment, and exactly one underscore
   * produced, when the name has a space; otherwise nothing changes.
   */
  lemma {:induction false} SegmentReplacesOneSpace(teamName: string)
    ensures Count(SearchSegment(teamName), ' ') ==
            if ' ' in teamName then Count(teamName, ' ') - 1 else Count(teamName, ' ')
    ensures Count(SearchSegment(teamName), '_') ==
            if ' ' in teamName then Count(teamName, '_') + 1 else Count(teamName, '_')
  {
    if teamName != [] {
      var segment := SearchSegment(teamName);
      if teamName[0] == ' ' {
        assert segment[1..] == teamName[1..];
        assert Count(teamName, ' ') >= 1;
      } else {
        SegmentReplacesOneSpace(teamName[1..]);
        assert segment[1..] == SearchSegment(teamName[1..]);
        assert ' ' in teamName <==> ' ' in teamName[1..];
      }
    }
  }

  /** Only the first of several spaces is replaced. */
  lemma SegmentExample()
    ensures SearchSegment("A B C") == "A_B C"
  {
    assert "A B C"[1..] == " B C";
    assert " B C"[1..] == "B C";
    assert SearchSegment(" B C") == "_B C";
  }

  /** The message stored in the shared error field when a name cannot be resolved. */
  function LookupErrorMessage(teamName: string): string
  {
    "Error fetching team ID for " + teamName
  }

  /** The id found for a name (absent is the component's `null`) and the error it writes, if any. */
  datatype Lookup = Lookup(teamId: Option<int>, error: Option<string>)

  /**
   * The handling of a search reply: the first candidate's `team_id` when `api.teams`
   * is present and non-empty; otherwise (no candidates, field missing, or the request
   * or parsing failed) the thrown error is caught, turned into a message naming the
   * team, and the result is `null`.
   */
  function FetchTeamId(teamName: string, reply: SearchReply): (r: Lookup)
    ensures r.teamId.Some? <==> reply.SearchOk? && reply.teams.Some? && |reply.teams.value| > 0
    ensures r.teamId.Some? ==> r.teamId.value == reply.teams.value[0].teamId
    ensures r.error.Some? <==> r.teamId.None?
    ensures r.error.Some? ==> r.error.value == LookupErrorMessage(teamName)
  {
    match reply
    case SearchOk(Some(teams)) =>
      if |teams| > 0 then Lookup(Some(teams[0].teamId), None)
      else Lookup(None, Some(LookupErrorMessage(teamName)))
    case _ => Lookup(None, Some(LookupErrorMessage(teamName)))
  }

  /** Later candidates never matter: the first one wins whatever follows it. */
  lemma FirstCandidateWins(teamName: string, first: Team, rest: seq<Team>, other: seq<Team>)
    ensures FetchTeamId(teamName, SearchOk(Some([first] + rest))) ==
            FetchTeamId(teamName, SearchOk(Some([first] + other)))
    ensures FetchTeamId(teamName, SearchOk(Some([first] + rest))).teamId == Some(first.teamId)
  {
  }

  /** A failed lookup is never silent: it yields no id and an error that ends with the name. */
  lemma FailedLookupNamesTeam(teamName: string, reply: SearchReply)
    requires reply.SearchFailed? || reply == SearchOk(None) || reply == SearchOk(Some([]))
    ensures FetchTeamId(teamName, reply).teamId == None
    ensures var e := FetchTeamId(teamName, reply).error;
            e.Some? && |e.value| >= |teamName| && e.value[|e.value| - |teamName|..] == teamName
  {
  }
}
