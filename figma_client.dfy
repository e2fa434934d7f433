/**
 * The sequence logic of the API client `FigmaClient`. Every remote call is a
 * parameter: a lookup that yields `None` stands for a request that threw, and
 * `getRecentFiles`, whose data is hard-coded in the client, is an input.
 */
module FigmaClient {
  import opened Wrappers
  import opened Drafts
  import opened UrlPatterns
  import opened Search

  /** An entry of a project's file listing (`FigmaFile`). */
  datatype FigmaFile = FigmaFile(key: string, name: string, thumbnailUrl: string, lastModified: string)

  /** A project of a team's listing (`FigmaProject`). */
  datatype Project = Project(id: string, name: string)

  /** What `GET /files/:key` reports about a file. */
  datatype FileDetails = FileDetails(name: string, thumbnailUrl: string, lastModified: string, role: string)

  /** The one team `getAllAccessibleFiles` lists. */
  const DEFAULT_TEAM_ID: string := "958458320512591682"

  // ----- getFileImages -----

  datatype ImageFormat = Jpg | Png | Svg

  /** One entry of the query string of an image request. */
  datatype QueryParam = Ids(fileKey: string) | Format(format: ImageFormat) | Scale(scale: real)

  /**
   * The query parameters of `getFileImages`: always `ids`, then `format`
   * when one is given, then `scale` when it is truthy (a scale of 0 is left out).
   */
  function ImageParams(fileKey: string, format: Option<ImageFormat>, scale: Option<real>): (r: seq<QueryParam>)
    ensures |r| >= 1 && r[0] == Ids(fileKey)
    ensures forall i :: 1 <= i < |r| ==> !r[i].Ids?
    ensures forall f :: Format(f) in r <==> format == Some(f)
    ensures forall x :: Scale(x) in r <==> scale == Some(x) && x != 0.0
    ensures forall i, j :: 0 <= i < j < |r| && r[j].Format? ==> !r[i].Scale?
  {
    [Ids(fileKey)]
    + (match format case Some(f) => [Format(f)] case None => [])
    + (if scale.Some? && scale.value != 0.0 then [Scale(scale.value)] else [])
  }

  // ----- getTeamFiles -----

  /** A project file as a draft: tagged with its project and the role "viewer". */
  function ToTeamDraft(p: Project, f: FigmaFile): Draft {
    Draft(f.key, f.name, Some(f.thumbnailUrl), f.lastModified, "viewer", Some(p.id), Some(p.name))
  }

  /** What one project adds: its files in order, or nothing when fetching them failed. */
  function Contribution(p: Project, projectFiles: string -> Option<seq<FigmaFile>>): (r: seq<Draft>)
    ensures projectFiles(p.id).None? ==> r == []
    ensures projectFiles(p.id).Some? ==> |r| == |projectFiles(p.id).value|
  {
    match projectFiles(p.id)
    case None => []
    case Some(fs) => seq(|fs|, i requires 0 <= i < |fs| => ToTeamDraft(p, fs[i]))
  }

  /** A project's contribution converts its files one for one, in order. */
  lemma ContributionSpec(p: Project, projectFiles: string -> Option<seq<FigmaFile>>)
    requires projectFiles(p.id).Some?
    ensures forall i :: 0 <= i < |Contribution(p, projectFiles)| ==>
              Contribution(p, projectFiles)[i] == ToTeamDraft(p, projectFiles(p.id).value[i])
  {
  }

  /** Every project's contribution, in project order. */
  function TeamFiles(ps: seq<Project>, projectFiles: string -> Option<seq<FigmaFile>>): seq<Draft> {
    if ps == [] then []
    else Contribution(ps[0], projectFiles) + TeamFiles(ps[1..], projectFiles)
  }

  /** Every listed file has the role "viewer" and is tagged with one of the team's projects. */
  lemma {:induction false} TeamFilesTagged(ps: seq<Project>, projectFiles: string -> Option<seq<FigmaFile>>, d: Draft)
    requires d in TeamFiles(ps, projectFiles)
    ensures d.role == "viewer"
    ensures exists p :: p in ps && d.projectId == Some(p.id) && d.projectName == Some(p.name)
  {
    var c := Contribution(ps[0], projectFiles);
    if d in c {
      var j :| 0 <= j < |c| && c[j] == d;
      assert ps[0] in ps;
    } else {
      TeamFilesTagged(ps[1..], projectFiles, d);
      var p :| p in ps[1..] && d.projectId == Some(p.id) && d.projectName == Some(p.name);
      assert p in ps;
    }
  }

  /** The listing of a longer project list continues the listing of its prefix. */
  lemma {:induction false} TeamFilesAppend(a: seq<Project>, b: seq<Project>, projectFiles: string -> Option<seq<FigmaFile>>)
    ensures TeamFiles(a + b, projectFiles) == TeamFiles(a, projectFiles) + TeamFiles(b, projectFiles)
  {
    if a == [] {
      assert a + b == b;
    } else {
      assert (a + b)[0] == a[0];
      assert (a + b)[1..] == a[1..] + b;
      TeamFilesAppend(a[1..], b, projectFiles);
      var c, x, y := Contribution(a[0], projectFiles), TeamFiles(a[1..], projectFiles), TeamFiles(b, projectFiles);
      assert TeamFiles(a + b, projectFiles) == c + (x + y);
      assert c + (x + y) == (c + x) + y;
    }
  }

  lemma TeamFilesSingle(p: Project, projectFiles: string -> Option<seq<FigmaFile>>)
    ensures TeamFiles([p], projectFiles) == Contribution(p, projectFiles)
  {
    assert [p][1..] == [];
  }

  /** One more project adds its contribution at the end. */
  lemma TeamFilesSnoc(ps: seq<Project>, p: Project, projectFiles: string -> Option<seq<FigmaFile>>)
    ensures TeamFiles(ps + [p], projectFiles) == TeamFiles(ps, projectFiles) + Contribution(p, projectFiles)
  {
    TeamFilesAppend(ps, [p], projectFiles);
    TeamFilesSingle(p, projectFiles);
  }

  /** A project whose fetch fails contributes nothing, and the projects after it still do. */
  lemma SkipsFailedProject(a: seq<Project>, p: Project, b: seq<Project>, projectFiles: string -> Option<seq<FigmaFile>>)
    requires projectFiles(p.id).None?
    ensures TeamFiles(a + [p] + b, projectFiles) == TeamFiles(a, projectFiles) + TeamFiles(b, projectFiles)
  {
    TeamFilesAppend(a + [p], b, projectFiles);
    TeamFilesSnoc(a, p, projectFiles);
  }

  /** Every file of every project that could be fetched is listed. */
  lemma {:induction false} TeamFilesComplete(ps: seq<Project>, projectFiles: string -> Option<seq<FigmaFile>>, i: nat, j: nat)
    requires i < |ps| && projectFiles(ps[i].id).Some? && j < |projectFiles(ps[i].id).value|
    ensures ToTeamDraft(ps[i], projectFiles(ps[i].id).value[j]) in TeamFiles(ps, projectFiles)
  {
    if i == 0 {
      assert Contribution(ps[0], projectFiles)[j] == ToTeamDraft(ps[0], projectFiles(ps[0].id).value[j]);
    } else {
      assert ps[1..][i - 1] == ps[i];
      TeamFilesComplete(ps[1..], projectFiles, i - 1, j);
    }
  }

  /** The outcome of `getTeamFiles` for a team: its files, or the error of listing its projects. */
  function TeamListing(
    teamId: string,
    teamProjects: string -> Result<seq<Project>, string>,
    projectFiles: string -> Option<seq<FigmaFile>>): Result<seq<Draft>, string>
  {
    match teamProjects(teamId)
    case Success(ps) => Success(TeamFiles(ps, projectFiles))
    case Failure(e) => Failure(e)
  }

  /**
   * `getTeamFiles`: list the team's projects, then fetch each project's files
   * in turn, skipping a project whose fetch fails. A failed project listing
   * is passed on to the caller.
   */
  method GetTeamFiles(
    teamId: string,
    teamProjects: string -> Result<seq<Project>, string>,
    projectFiles: string -> Option<seq<FigmaFile>>)
    returns (r: Result<seq<Draft>, string>)
    ensures teamProjects(teamId).Failure? ==> r == Failure(teamProjects(teamId).error)
    ensures teamProjects(teamId).Success? ==> r == Success(TeamFiles(teamProjects(teamId).value, projectFiles))
    ensures r == TeamListing(teamId, teamProjects, projectFiles)
  {
    match teamProjects(teamId)
    case Failure(e) =>
      return Failure(e);
    case Success(projects) =>
      var allFiles: seq<Draft> := [];
      var i := 0;
      while i < |projects|
        invariant 0 <= i <= |projects|
        invariant allFiles == TeamFiles(projects[..i], projectFiles)
      {
        var project := projects[i];
        match projectFiles(project.id) {
          case Some(files) =>
            var converted := seq(|files|, k requires 0 <= k < |files| => ToTeamDraft(project, files[k]));
            allFiles := allFiles + converted;
          case None =>
        }
        assert projects[..i + 1] == projects[..i] + [project];
        TeamFilesSnoc(projects[..i], project, projectFiles);
        i := i + 1;
      }
      assert projects[..|projects|] == projects;
      return Success(allFiles);
  }

  // ----- getAllAccessibleFiles -----

  /** The team part of `getAllAccessibleFiles`: empty when listing the team failed. */
  function TeamPart(
    teamProjects: string -> Result<seq<Project>, string>,
    projectFiles: string -> Option<seq<FigmaFile>>): seq<Draft>
  {
    match teamProjects(DEFAULT_TEAM_ID)
    case Success(ps) => TeamFiles(ps, projectFiles)
    case Failure(_) => []
  }

  /**
   * `getAllAccessibleFiles`: the recent files (none when they could not be
   * fetched), then the files of the default team whose key is not among them.
   */
  method GetAllAccessibleFiles(
    recent: Option<seq<Draft>>,
    teamProjects: string -> Result<seq<Project>, string>,
    projectFiles: string -> Option<seq<FigmaFile>>)
    returns (allFiles: seq<Draft>)
    ensures allFiles == AppendNew(recent.GetOr([]), TeamPart(teamProjects, projectFiles))
    ensures allFiles[..|recent.GetOr([])|] == recent.GetOr([])
    ensures KeySet(allFiles) == KeySet(recent.GetOr([])) + KeySet(TeamPart(teamProjects, projectFiles))
  {
    allFiles := [];
    match recent {
      case Some(files) =>
        allFiles := allFiles + files;
      case None =>
    }
    var base := allFiles;
    assert base == recent.GetOr([]);
    var team := GetTeamFiles(DEFAULT_TEAM_ID, teamProjects, projectFiles);
    match team {
      case Success(teamFiles) =>
        var newTeamFiles := DropKeys(teamFiles, KeySet(allFiles));
        allFiles := allFiles + newTeamFiles;
      case Failure(_) =>
        AppendNewNothingNew(allFiles, []);
    }
    AppendNewKeys(base, TeamPart(teamProjects, projectFiles));
  }

  // ----- getFileThumbnails -----

  /** The request parameters of every thumbnail request: PNG at scale 1. */
  const THUMBNAIL_PARAMS_FORMAT: Option<ImageFormat> := Some(Png)
  const THUMBNAIL_PARAMS_SCALE: Option<real> := Some(1.0)

  /**
   * The thumbnail a key's image request yields: the URL the response maps
   * the key to, when the request (`fileImages` of its query parameters)
   * succeeded and that URL is not empty.
   */
  function Thumbnail(fileKey: string, fileImages: seq<QueryParam> -> Option<map<string, string>>): Option<string> {
    match fileImages(ImageParams(fileKey, THUMBNAIL_PARAMS_FORMAT, THUMBNAIL_PARAMS_SCALE))
    case None => None
    case Some(images) => if fileKey in images && images[fileKey] != "" then Some(images[fileKey]) else None
  }

  /**
   * `getFileThumbnails`: one image request per key, keeping the keys that
   * produced a non-empty image URL and skipping the requests that failed.
   * `fileImages(ps)` is the outcome of the image request with parameters `ps`.
   */
  method GetFileThumbnails(fileKeys: seq<string>, fileImages: seq<QueryParam> -> Option<map<string, string>>)
    returns (thumbnails: map<string, string>)
    ensures forall k :: k in thumbnails <==> k in fileKeys && Thumbnail(k, fileImages).Some?
    ensures forall k :: k in thumbnails ==> thumbnails[k] == Thumbnail(k, fileImages).value && thumbnails[k] != ""
  {
    thumbnails := map[];
    for i := 0 to |fileKeys|
      invariant forall k :: k in thumbnails <==> k in fileKeys[..i] && Thumbnail(k, fileImages).Some?
      invariant forall k :: k in thumbnails ==> thumbnails[k] == Thumbnail(k, fileImages).value && thumbnails[k] != ""
    {
      var fileKey := fileKeys[i];
      assert fileKeys[..i + 1] == fileKeys[..i] + [fileKey];
      match fileImages(ImageParams(fileKey, THUMBNAIL_PARAMS_FORMAT, THUMBNAIL_PARAMS_SCALE)) {
        case Some(images) =>
          if fileKey in images && images[fileKey] != "" {
            thumbnails := thumbnails[fileKey := images[fileKey]];
          }
        case None =>
      }
    }
    assert fileKeys[..|fileKeys|] == fileKeys;
  }

  // ----- verifyFile, addFileByUrl, searchFiles -----

  /**
   * `verifyFile`: the draft built from a file lookup, keyed by the key that
   * was asked for; `None` when the lookup failed.
   */
  function VerifyFile(fileKey: string, getFile: string -> Option<FileDetails>): (r: Option<Draft>)
    ensures r.Some? <==> getFile(fileKey).Some?
    ensures r.Some? ==> r.value.key == fileKey && r.value.name == getFile(fileKey).value.name
                        && r.value.role == getFile(fileKey).value.role
                        && r.value.lastModified == getFile(fileKey).value.lastModified
                        && r.value.thumbnailUrl == Some(getFile(fileKey).value.thumbnailUrl)
                        && r.value.projectId.None? && r.value.projectName.None?
  {
    match getFile(fileKey)
    case None => None
    case Some(f) => Some(Draft(fileKey, f.name, Some(f.thumbnailUrl), f.lastModified, f.role, None, None))
  }

  /**
   * `addFileByUrl`: the draft of the file a URL names. A URL without a file
   * key yields `None` without any lookup.
   */
  function AddFileByUrl(url: string, getFile: string -> Option<FileDetails>): (r: Option<Draft>)
    ensures ExtractFileKey(url).None? ==> r.None?
    ensures r.Some? ==> ExtractFileKey(url) == Some(r.value.key)
    ensures ExtractFileKey(url).Some? ==> r == VerifyFile(ExtractFileKey(url).value, getFile)
  {
    match ExtractFileKey(url)
    case None => None
    case Some(fileKey) => VerifyFile(fileKey, getFile)
  }

  /** A URL without a file key gives the same answer whatever the lookup would have said. */
  lemma AddFileByUrlNoLookup(url: string, g1: string -> Option<FileDetails>, g2: string -> Option<FileDetails>)
    requires ExtractFileKey(url).None?
    ensures AddFileByUrl(url, g1) == AddFileByUrl(url, g2) == None
  {
  }

  /** A canonical design URL adds the file under the key it was built from. */
  lemma AddFileByUrlOfCanonical(key: string, rest: string, getFile: string -> Option<FileDetails>)
    requires key != [] && forall i :: 0 <= i < |key| ==> IsAlnumKey(key[i])
    requires rest == [] || !IsAlnumKey(rest[0])
    requires getFile(key).Some?
    ensures AddFileByUrl(WWW + DESIGN_PREFIX + key + rest, getFile).Some?
    ensures AddFileByUrl(WWW + DESIGN_PREFIX + key + rest, getFile).value.key == key
  {
    FileKeyRoundTrip(DESIGN_PREFIX, key, rest);
  }

  predicate IsAlnumKey(c: char) { InClass(FileKey, c) }

  /**
   * The search keeps the order of the recent files: searching a list made
   * of two parts gives the results of the first part, then those of the second.
   */
  lemma SearchFilesKeepsOrder(a: seq<Draft>, b: seq<Draft>, query: string)
    ensures SearchFiles(Success(a + b), query).value
         == SearchFiles(Success(a), query).value + SearchFiles(Success(b), query).value
  {
    FilterAppend(a, b, ByName, query);
  }

  /**
   * `searchFiles`: the recent files whose name contains the query, ignoring
   * case, in their original order; a failure to get the recent files is
   * passed on.
   */
  function SearchFiles(recent: Result<seq<Draft>, string>, query: string): (r: Result<seq<Draft>, string>)
    ensures r.Failure? <==> recent.Failure?
    ensures r.Failure? ==> r.error == recent.error
    ensures r.Success? ==> forall d :: d in r.value <==> d in recent.value && MatchesText(d.name, query)
    ensures r.Success? ==> r.value == Filter(recent.value, ByName, query)
  {
    match recent
    case Failure(e) => Failure(e)
    case Success(files) =>
      FilterMembers(files, ByName, query);
      Success(Filter(files, ByName, query))
  }
}
