/**
 * The file discovery page: checking one file URL through the verify route,
 * listing a team's files through the team route, and adding a found file to
 * the user's own list. The routes' replies are parameters.
 */
module Discovery {
  import opened Wrappers
  import opened Text
  import opened Drafts
  import opened UrlPatterns
  import opened FigmaClient
  import opened TeamRoute
  import opened VerifyRoute
  import opened UserFiles

  /** The file fields a result keeps. */
  datatype FileData = FileData(key: string, name: string, role: string)

  /** `FileDiscoveryResult` */
  datatype DiscoveryResult = DiscoveryResult(
    url: string,
    fileKey: string,
    accessible: bool,
    fileData: Option<FileData>,
    error: Option<string>)

  function DataOf(d: Draft): FileData { FileData(d.key, d.name, d.role) }

  /** The key shown for a URL the route did not verify: the URL's file key, or "" when it has none. */
  function FallbackKey(url: string): (r: string)
    ensures r == "" <==> ExtractFileKey(url).None?
    ensures r != "" ==> ExtractFileKey(url) == Some(r)
  {
    ExtractFileKey(url).GetOr("")
  }

  /**
   * `discoverFileByUrl`: the verify route's reply turned into a result. A
   * request that threw (`Failure`, with the message of an `Error`) has no
   * key at all.
   */
  function DiscoverFileByUrl(url: string, response: Result<VerifyReply, Option<string>>): (r: DiscoveryResult)
    ensures r.url == url
    ensures r.accessible <==> response.Success? && response.value.Verified?
    ensures r.accessible ==> r.fileKey == response.value.file.key && r.fileData == Some(DataOf(response.value.file))
    ensures response.Success? && response.value.VerifyError? ==>
              r.fileKey == FallbackKey(url) && r.error == Some(response.value.error) && r.fileData.None?
    ensures response.Failure? ==> r.fileKey == "" && r.error == Some(response.error.GetOr("Unknown error"))
  {
    match response
    case Failure(m) => DiscoveryResult(url, "", false, None, Some(m.GetOr("Unknown error")))
    case Success(Verified(file, _)) => DiscoveryResult(url, file.key, true, Some(DataOf(file)), None)
    case Success(VerifyError(_, e, _)) => DiscoveryResult(url, FallbackKey(url), false, None, Some(e))
  }

  /**
   * Whatever the verify route answers for a URL, the result's key is the
   * URL's own file key (or "" when it has none): on success the route
   * returns the file under the key it extracted, and on failure the page
   * extracts it itself.
   */
  lemma DiscoveredKeyIsUrlKey(token: Option<string>, url: string, getFile: string -> Option<FileDetails>)
    ensures DiscoverFileByUrl(url, Success(VerifyPost(token, Success(VerifyBody(Some(url))), getFile))).fileKey
         == FallbackKey(url)
  {
  }

  /** The team id the page asks for: the trimmed input, or the default team when that is empty. */
  function FinalTeamId(input: string): (r: string)
    ensures r != ""
    ensures !AllSpaces(input) ==> r == Trim(input)
    ensures AllSpaces(input) ==> r == DEFAULT_TEAM_ID
  {
    TrimEmptyIff(input);
    if Trim(input) != "" then Trim(input) else DEFAULT_TEAM_ID
  }

  /** The page always sends a team id, so the team route never answers that one is required. */
  lemma PageRequestResolves(input: string)
    ensures ResolveTeam(TeamBody(Some(FinalTeamId(input)), None)) == Success(FinalTeamId(input))
  {
  }

  /** The link of a team file: the design URL of its key, followed by its name with each whitespace run turned into `-`. */
  function TeamFileUrl(key: string, name: string): string {
    WWW + DESIGN_PREFIX + key + ("/" + Slug(name))
  }

  /** A link built for a file leads back to that file's key, whatever its name. */
  lemma TeamFileUrlRoundTrip(key: string, name: string)
    requires key != [] && forall i :: 0 <= i < |key| ==> IsAlnum(key[i])
    ensures ExtractFileKey(TeamFileUrl(key, name)) == Some(key)
  {
    FileKeyRoundTrip(DESIGN_PREFIX, key, "/" + Slug(name));
  }

  /** The team's files as results: one each, in order, all accessible. */
  function TeamResults(files: seq<Draft>): (r: seq<DiscoveryResult>)
    ensures |r| == |files|
    ensures forall i :: 0 <= i < |r| ==>
              r[i].fileKey == files[i].key && r[i].accessible
              && r[i].fileData == Some(DataOf(files[i])) && r[i].error.None?
              && r[i].url == TeamFileUrl(files[i].key, files[i].name)
  {
    seq(|files|, i requires 0 <= i < |files| =>
      DiscoveryResult(TeamFileUrl(files[i].key, files[i].name), files[i].key, true, Some(DataOf(files[i])), None))
  }

  /** The draft "Add" stores: the file's key, name and role, the current time, and the default project label. */
  function AddPayload(f: FileData, now: string): (r: Draft)
    ensures r.key == f.key && r.name == f.name && r.role == f.role && r.lastModified == now
    ensures r.projectName == Some(DEFAULT_PROJECT) && r.projectId.None? && r.thumbnailUrl.None?
  {
    Draft(f.key, f.name, None, now, f.role, None, Some(DEFAULT_PROJECT))
  }

  /** `addToMyFiles`: the payload handed to the user's file list. */
  method AddToMyFiles(list: UserFileList, f: FileData, now: string, writeOk: bool)
    modifies list
    ensures list.userFiles == PrependNew(old(list.userFiles), AddPayload(f, now))
    ensures f.key in KeySet(list.userFiles)
    ensures f.key in KeySet(old(list.userFiles)) ==> list.storage == old(list.storage)
    ensures f.key !in KeySet(old(list.userFiles)) ==>
              list.storage == (if writeOk then old(list.storage)[STORAGE_KEY := Saved(list.userFiles)] else old(list.storage))
    ensures list.loading == old(list.loading)
  {
    list.AddUserFile(AddPayload(f, now), writeOk);
  }

  class DiscoveryPage {
    var fileUrl: string
    var results: seq<DiscoveryResult>
    var loading: bool

    constructor()
      ensures fileUrl == "" && results == [] && !loading
    {
      fileUrl := "";
      results := [];
      loading := false;
    }

    /**
     * `handleManualDiscovery`: an empty or whitespace-only URL is ignored;
     * otherwise the trimmed URL is checked, its result goes in front of the
     * earlier ones and the input is cleared.
     */
    method ManualDiscovery(response: Result<VerifyReply, Option<string>>)
      modifies this
      ensures AllSpaces(old(fileUrl)) ==> fileUrl == old(fileUrl) && results == old(results) && loading == old(loading)
      ensures !AllSpaces(old(fileUrl)) ==>
                results == [DiscoverFileByUrl(Trim(old(fileUrl)), response)] + old(results)
                && |results| == |old(results)| + 1
                && fileUrl == "" && !loading
    {
      TrimEmptyIff(fileUrl);
      if Trim(fileUrl) == "" {
        return;
      }
      loading := true;
      var result := DiscoverFileByUrl(Trim(fileUrl), response);
      results := [result] + results;
      fileUrl := "";
      loading := false;
    }

    /**
     * `handleTeamDiscovery`: the team route is asked about the final team
     * id (`reply` gives its answer for an id); on a successful reply the
     * results are replaced by the team's files, otherwise they are kept.
     */
    method TeamDiscovery(teamIdInput: string, reply: string -> Result<TeamReply, Option<string>>)
      modifies this
      ensures var response := reply(FinalTeamId(teamIdInput));
              (response.Success? && response.value.TeamFound? ==> results == TeamResults(response.value.files))
              && (!(response.Success? && response.value.TeamFound?) ==> results == old(results))
      ensures !loading && fileUrl == old(fileUrl)
    {
      var finalTeamId := FinalTeamId(teamIdInput);
      loading := true;
      match reply(finalTeamId) {
        case Success(TeamFound(_, _, files)) =>
          results := TeamResults(files);
        case _ =>
      }
      loading := false;
    }
  }
}
