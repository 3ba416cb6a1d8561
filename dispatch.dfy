/**
 * The handlers of the two repository routes: `repo_home` (app.py:91-94) and
 * `view_page` (app.py:97-114). The sub-path's ending picks a directory
 * listing, a raw `.html` fetch or a redirect to the file's page on GitHub.
 */
module Dispatch {
  import opened Wrappers
  import opened Strings
  import opened Urls
  import opened Http
  import opened Listing

  const RawOrigin: string := "https://raw.githubusercontent.com/"
  const RawMiddle: string := "/master/"
  const WebOrigin: string := "https://github.com/"
  const BlobMiddle: string := "/blob/master/"

  /** The raw-content host's answer: its HTTP status and the body text. */
  datatype RawReply = RawReply(status: int, text: string)

  /** The three things `view_page` can do with a sub-path. */
  datatype Route = ListRoute | HtmlRoute | BlobRoute

  /** The raw-content URL of a file on the master branch. */
  function RawUrl(owner: string, repo: string, subpath: string): string {
    RepoUrl(RawOrigin, owner, repo, RawMiddle, subpath)
  }

  /** The GitHub web page of a file on the master branch. */
  function BlobUrl(owner: string, repo: string, subpath: string): string {
    RepoUrl(WebOrigin, owner, repo, BlobMiddle, subpath)
  }

  /** The `endswith` tests of `view_page`, in the order it makes them. */
  function RouteOf(subpath: string): (route: Route)
    ensures route == ListRoute <==> EndsWith(subpath, "/")
    ensures route == HtmlRoute <==> EndsWith(subpath, ".html")
    ensures route == BlobRoute <==> !EndsWith(subpath, "/") && !EndsWith(subpath, ".html")
  {
    EndingsExclusive(subpath);
    if EndsWith(subpath, "/") then ListRoute
    else if EndsWith(subpath, ".html") then HtmlRoute
    else BlobRoute
  }

  /**
   * `view_page` once the gate has let the request through. `api` and `raw`
   * give the upstream's answer to each URL asked for.
   */
  function ViewPage(owner: string, repo: string, subpath: string,
                    api: string -> ContentsReply, raw: string -> RawReply): (r: Response)
    ensures EndsWith(subpath, "/") ==> r == ListDirectory(owner, repo, subpath, api)
    ensures EndsWith(subpath, ".html") ==>
      && (r == Abort(StatusNotFound) <==> raw(RawUrl(owner, repo, subpath)).status != StatusOk)
      && (r != Abort(StatusNotFound) ==> r == Text(raw(RawUrl(owner, repo, subpath)).text))
    ensures !EndsWith(subpath, "/") && !EndsWith(subpath, ".html") ==>
      r == Redirect(BlobUrl(owner, repo, subpath))
  {
    match RouteOf(subpath)
    case ListRoute => ListDirectory(owner, repo, subpath, api)
    case HtmlRoute =>
      var reply := raw(RawUrl(owner, repo, subpath));
      if reply.status != StatusOk then Abort(StatusNotFound) else Text(reply.text)
    case BlobRoute => Redirect(BlobUrl(owner, repo, subpath))
  }

  /** `repo_home`: the listing of the repository's root, whose sub-path is empty. */
  function RepoHome(owner: string, repo: string, api: string -> ContentsReply): (r: Response)
    ensures r == Abort(StatusNotFound) <==> api(ContentsUrl(owner, repo, "")).status != StatusOk
    ensures var reply := api(ContentsUrl(owner, repo, ""));
      reply.status == StatusOk ==>
        r == Page(Tree(owner, repo, "", Folders(reply.entries), Files(reply.entries)))
    ensures r.Page? ==> forall n :: n in r.tree.folders <==>
      Entry(DirKind, n) in api(ContentsUrl(owner, repo, "")).entries && !IsDotName(n)
    ensures r.Page? ==> forall n :: n in r.tree.files <==>
      Entry(FileKind, n) in api(ContentsUrl(owner, repo, "")).entries && !IsDotName(n)
  {
    ListDirectory(owner, repo, "", api)
  }

  /**
   * The redirect of `view_page` carries the file it came from: its URL string parses
   * back to the owner, repository and sub-path of the request.
   */
  lemma BlobRedirectNamesTheFile(owner: string, repo: string, subpath: string,
                                 api: string -> ContentsReply, raw: string -> RawReply)
    requires PathSegment(owner) && PathSegment(repo)
    requires RouteOf(subpath) == BlobRoute
    ensures ViewPage(owner, repo, subpath, api, raw).Redirect?
    ensures ParseRepoUrl(WebOrigin, BlobMiddle, ViewPage(owner, repo, subpath, api, raw).url)
            == Some(RepoPath(owner, repo, subpath))
  {
    RepoUrlRoundTrip(WebOrigin, owner, repo, BlobMiddle, subpath);
  }

  /**
   * For an `.html` sub-path, `view_page` answers from the raw host's reply to
   * one URL, and that URL string parses back to the requested owner, repository
   * and file.
   */
  lemma RawFetchNamesTheFile(owner: string, repo: string, subpath: string,
                             api: string -> ContentsReply, raw: string -> RawReply)
    requires PathSegment(owner) && PathSegment(repo)
    requires EndsWith(subpath, ".html")
    ensures exists url ::
      && ParseRepoUrl(RawOrigin, RawMiddle, url) == Some(RepoPath(owner, repo, subpath))
      && ViewPage(owner, repo, subpath, api, raw)
         == (if raw(url).status == StatusOk then Text(raw(url).text) else Abort(StatusNotFound))
  {
    var url := RawUrl(owner, repo, subpath);
    RepoUrlRoundTrip(RawOrigin, owner, repo, RawMiddle, subpath);
    assert ParseRepoUrl(RawOrigin, RawMiddle, url) == Some(RepoPath(owner, repo, subpath));
  }

  /**
   * A directory listing is built from the contents API's reply to one URL,
   * and that URL string parses back to the requested owner, repository and
   * directory.
   */
  lemma ContentsFetchNamesTheDirectory(owner: string, repo: string, subpath: string,
                                       api: string -> ContentsReply)
    requires PathSegment(owner) && PathSegment(repo)
    ensures exists url ::
      && ParseRepoUrl(ApiOrigin, ContentsMiddle, url) == Some(RepoPath(owner, repo, subpath))
      && ListDirectory(owner, repo, subpath, api)
         == (if api(url).status != StatusOk then Abort(StatusNotFound)
             else Page(Tree(owner, repo, subpath, Folders(api(url).entries), Files(api(url).entries))))
  {
    var url := ContentsUrl(owner, repo, subpath);
    RepoUrlRoundTrip(ApiOrigin, owner, repo, ContentsMiddle, subpath);
    assert ParseRepoUrl(ApiOrigin, ContentsMiddle, url) == Some(RepoPath(owner, repo, subpath));
  }
}
