/**
 * `POST /api/figma/verify`: checks that a file URL names a file the server's
 * token can read, and returns that file. The server's token and the remote
 * file lookup are parameters.
 */
module VerifyRoute {
  import opened Wrappers
  import opened Drafts
  import opened UrlPatterns
  import opened FigmaClient

  /** The JSON body: its `url`, possibly absent. */
  datatype VerifyBody = VerifyBody(url: Option<string>)

  datatype VerifyReply =
    | Verified(file: Draft, originalUrl: string)
    | VerifyError(status: int, error: string, details: Option<string>)

  const TOKEN_MISSING: string := "Figma access token not configured"
  const URL_REQUIRED: string := "Figma URL is required"
  const INVALID_URL: string := "Invalid Figma URL format"
  const FILE_NOT_FOUND: string := "File not found or not accessible"
  const VERIFY_FAILED: string := "Failed to verify Figma file"

  /**
   * The route, checks in order: the server token, a readable body, a truthy
   * `url`, a file key in it; only then the lookup, whose failure is a 404.
   */
  function VerifyPost(token: Option<string>, body: Result<VerifyBody, string>, getFile: string -> Option<FileDetails>): (r: VerifyReply)
    ensures !Truthy(token) ==> r == VerifyError(500, TOKEN_MISSING, None)
    ensures Truthy(token) && body.Failure? ==> r == VerifyError(500, VERIFY_FAILED, Some(body.error))
    ensures Truthy(token) && body.Success? && !Truthy(body.value.url) ==> r == VerifyError(400, URL_REQUIRED, None)
    ensures Truthy(token) && body.Success? && Truthy(body.value.url) && ExtractFileKey(body.value.url.value).None? ==>
              r == VerifyError(400, INVALID_URL, None)
    ensures Truthy(token) && body.Success? && Truthy(body.value.url) && ExtractFileKey(body.value.url.value).Some? ==>
              var key := ExtractFileKey(body.value.url.value).value;
              (getFile(key).None? ==> r == VerifyError(404, FILE_NOT_FOUND, None))
              && (getFile(key).Some? ==> r.Verified?)
    ensures r.Verified? ==>
              Truthy(token) && body.Success? && Truthy(body.value.url)
              && r.originalUrl == body.value.url.value
              && ExtractFileKey(r.originalUrl) == Some(r.file.key)
              && Some(r.file) == VerifyFile(r.file.key, getFile)
    ensures r.VerifyError? ==> r.status == 400 || r.status == 404 || r.status == 500
  {
    if !Truthy(token) then VerifyError(500, TOKEN_MISSING, None)
    else match body
      case Failure(e) => VerifyError(500, VERIFY_FAILED, Some(e))
      case Success(b) =>
        if !Truthy(b.url) then VerifyError(400, URL_REQUIRED, None)
        else match ExtractFileKey(b.url.value)
          case None => VerifyError(400, INVALID_URL, None)
          case Some(fileKey) =>
            match VerifyFile(fileKey, getFile)
            case None => VerifyError(404, FILE_NOT_FOUND, None)
            case Some(file) => Verified(file, b.url.value)
  }

  /** Until all three checks pass, the lookup is not made: the reply does not depend on it. */
  lemma NoLookupBeforeChecks(token: Option<string>, body: Result<VerifyBody, string>, g1: string -> Option<FileDetails>, g2: string -> Option<FileDetails>)
    requires !Truthy(token) || body.Failure? || !Truthy(body.value.url) || ExtractFileKey(body.value.url.value).None?
    ensures VerifyPost(token, body, g1) == VerifyPost(token, body, g2)
  {
  }

  /** With a token and a URL, the route verifies exactly the files the client's `addFileByUrl` would add, and returns the same draft. */
  lemma AgreesWithAddFileByUrl(token: string, url: string, getFile: string -> Option<FileDetails>)
    requires token != "" && url != ""
    ensures var r := VerifyPost(Some(token), Success(VerifyBody(Some(url))), getFile);
            (r.Verified? <==> AddFileByUrl(url, getFile).Some?)
            && (r.Verified? ==> Some(r.file) == AddFileByUrl(url, getFile))
  {
  }
}
