/**
 * `POST /api/figma/team`: the files of a team named by id or by team URL.
 * The server's token is a parameter, and so are the two remote listings the
 * API client makes for the team.
 */
module TeamRoute {
  import opened Wrappers
  import opened Text
  import opened Drafts
  import opened UrlPatterns
  import opened FigmaClient

  /** The JSON body: `teamId` and `teamUrl`, each possibly absent. */
  datatype TeamBody = TeamBody(teamId: Option<string>, teamUrl: Option<string>)

  datatype TeamReply =
    | TeamFound(teamId: string, filesCount: nat, files: seq<Draft>)
    | TeamError(status: int, error: string)

  const TOKEN_MISSING: string := "Figma access token not configured"
  const INVALID_TEAM_URL: string := "Invalid team URL format"
  const TEAM_REQUIRED: string := "Team ID or team URL is required"
  const ACCESS_DENIED: string := "Access denied. You need admin permissions for this team."
  const TEAM_NOT_FOUND: string := "Team not found or not accessible."
  const FETCH_FAILED: string := "Failed to fetch team files"

  /**
   * The team id a body names: a truthy `teamId` as it is, whatever `teamUrl`
   * says; otherwise the id in a truthy `teamUrl`, which must have one;
   * otherwise none, which is an error.
   */
  function ResolveTeam(body: TeamBody): (r: Result<string, TeamReply>)
    ensures Truthy(body.teamId) ==> r == Success(body.teamId.value)
    ensures !Truthy(body.teamId) && Truthy(body.teamUrl) && ExtractTeamId(body.teamUrl.value).Some? ==>
              r == Success(ExtractTeamId(body.teamUrl.value).value)
    ensures !Truthy(body.teamId) && Truthy(body.teamUrl) && ExtractTeamId(body.teamUrl.value).None? ==>
              r == Failure(TeamError(400, INVALID_TEAM_URL))
    ensures !Truthy(body.teamId) && !Truthy(body.teamUrl) ==> r == Failure(TeamError(400, TEAM_REQUIRED))
    ensures r.Success? ==> r.value != ""
  {
    if Truthy(body.teamUrl) && !Truthy(body.teamId) then
      match ExtractTeamId(body.teamUrl.value)
      case None => Failure(TeamError(400, INVALID_TEAM_URL))
      case Some(id) => Success(id)
    else if !Truthy(body.teamId) then Failure(TeamError(400, TEAM_REQUIRED))
    else Success(body.teamId.value)
  }

  /** The status of a thrown error, by what its message contains; "403" is looked for first. */
  function MapTeamError(message: string): (r: TeamReply)
    ensures r.TeamError?
    ensures r.status == 403 <==> Contains(message, "403")
    ensures r.status == 404 <==> !Contains(message, "403") && Contains(message, "404")
    ensures r.status == 500 <==> !Contains(message, "403") && !Contains(message, "404")
    ensures r.status == 403 ==> r.error == ACCESS_DENIED
    ensures r.status == 404 ==> r.error == TEAM_NOT_FOUND
    ensures r.status == 500 ==> r.error == FETCH_FAILED
  {
    if Contains(message, "403") then TeamError(403, ACCESS_DENIED)
    else if Contains(message, "404") then TeamError(404, TEAM_NOT_FOUND)
    else TeamError(500, FETCH_FAILED)
  }

  /**
   * The route. A missing server token is reported before the body is read;
   * a body that is not JSON (`Failure`) and a failed listing both go through
   * the error mapping.
   */
  function TeamPost(
    token: Option<string>,
    body: Result<TeamBody, string>,
    teamProjects: string -> Result<seq<Project>, string>,
    projectFiles: string -> Option<seq<FigmaFile>>): (r: TeamReply)
    ensures !Truthy(token) ==> r == TeamError(500, TOKEN_MISSING)
    ensures Truthy(token) && body.Failure? ==> r == MapTeamError(body.error)
    ensures Truthy(token) && body.Success? && ResolveTeam(body.value).Failure? ==> r == ResolveTeam(body.value).error
    ensures r.TeamFound? ==>
              Truthy(token) && body.Success? && ResolveTeam(body.value) == Success(r.teamId)
              && TeamListing(r.teamId, teamProjects, projectFiles) == Success(r.files)
              && r.filesCount == |r.files|
    ensures Truthy(token) && body.Success? && ResolveTeam(body.value).Success? ==>
              var listing := TeamListing(ResolveTeam(body.value).value, teamProjects, projectFiles);
              (listing.Success? <==> r.TeamFound?) && (listing.Failure? ==> r == MapTeamError(listing.error))
  {
    if !Truthy(token) then TeamError(500, TOKEN_MISSING)
    else match body
      case Failure(e) => MapTeamError(e)
      case Success(b) =>
        match ResolveTeam(b)
        case Failure(reply) => reply
        case Success(teamId) =>
          match TeamListing(teamId, teamProjects, projectFiles)
          case Failure(e) => MapTeamError(e)
          case Success(files) => TeamFound(teamId, |files|, files)
  }

  /** A message naming both codes is reported as 403. */
  lemma ForbiddenBeforeNotFound(message: string)
    requires Contains(message, "403") && Contains(message, "404")
    ensures MapTeamError(message).status == 403
  {
  }

  /** When a team id is given, the team URL has no effect on the reply. */
  lemma TeamIdWinsOverUrl(
    token: Option<string>, id: string, url1: Option<string>, url2: Option<string>,
    teamProjects: string -> Result<seq<Project>, string>,
    projectFiles: string -> Option<seq<FigmaFile>>)
    requires id != ""
    ensures TeamPost(token, Success(TeamBody(Some(id), url1)), teamProjects, projectFiles)
         == TeamPost(token, Success(TeamBody(Some(id), url2)), teamProjects, projectFiles)
  {
  }

  /** A request rejected before the lookup gets the same reply whatever the remote listings would have said. */
  lemma NoLookupOnRejectedInput(
    token: Option<string>, body: Result<TeamBody, string>,
    p1: string -> Result<seq<Project>, string>, f1: string -> Option<seq<FigmaFile>>,
    p2: string -> Result<seq<Project>, string>, f2: string -> Option<seq<FigmaFile>>)
    requires !Truthy(token) || body.Failure? || ResolveTeam(body.value).Failure?
    ensures TeamPost(token, body, p1, f1) == TeamPost(token, body, p2, f2)
  {
  }

  /** A canonical team URL alone reaches the listing for the id it was built from. */
  lemma TeamUrlResolves(id: string, rest: string)
    requires id != [] && forall i :: 0 <= i < |id| ==> IsDigit(id[i])
    requires rest == [] || !IsDigit(rest[0])
    ensures ResolveTeam(TeamBody(None, Some(WWW + TEAM_PREFIX + id + rest))) == Success(id)
  {
    TeamIdRoundTrip(id, rest);
  }
}
