/**
 * Every URL the app builds has one shape: an origin, the owner, a slash, the
 * repository, a fixed middle part beginning with '/', then the sub-path. This
 * module builds that shape and parses it back, so that the strings the routes
 * build can be shown to parse back to their parts. URL quoting
 * (percent-encoding, fragments, queries) is not interpreted.
 */
module Urls {
  import opened Wrappers
  import opened Strings

  /** The three pieces a repository URL carries. */
  datatype RepoPath = RepoPath(owner: string, repo: string, subpath: string)

  /**
   * What Flask's default `<name>` converter matches: a non-empty run of
   * characters without '/'. `owner` and `repo` are always such segments.
   */
  predicate PathSegment(s: string) {
    s != "" && '/' !in s
  }

  /** Origin, owner, a slash, repository, middle part and sub-path, concatenated. */
  function RepoUrl(origin: string, owner: string, repo: string, middle: string, subpath: string): string {
    origin + owner + "/" + repo + middle + subpath
  }

  /**
   * Reads a URL of the `RepoUrl` shape back: the owner ends at the first '/'
   * after the origin, the repository at the next '/', and what follows the
   * middle part is the sub-path.
   */
  function ParseRepoUrl(origin: string, middle: string, url: string): (p: Option<RepoPath>)
    ensures p.Some? ==> '/' !in p.value.owner && '/' !in p.value.repo
  {
    if !StartsWith(url, origin) then None
    else
      var rest := url[|origin|..];
      var i := IndexOfSlash(rest);
      if i == |rest| then None
      else
        var owner := rest[..i];
        var tail := rest[i + 1..];
        var j := IndexOfSlash(tail);
        var repo := tail[..j];
        var after := tail[j..];
        if StartsWith(after, middle) then
          assert forall c :: c in owner ==> c != '/';
          assert forall c :: c in repo ==> c != '/';
          Some(RepoPath(owner, repo, after[|middle|..]))
        else None
  }

  /** Parsing a built URL gives back exactly the owner, repository and sub-path. */
  lemma RepoUrlRoundTrip(origin: string, owner: string, repo: string, middle: string, subpath: string)
    requires PathSegment(owner) && PathSegment(repo)
    requires StartsWith(middle, "/")
    ensures ParseRepoUrl(origin, middle, RepoUrl(origin, owner, repo, middle, subpath))
            == Some(RepoPath(owner, repo, subpath))
  {
    var url := RepoUrl(origin, owner, repo, middle, subpath);
    var rest := url[|origin|..];
    assert url == origin + (owner + ("/" + (repo + middle + subpath)));
    assert rest == owner + ("/" + (repo + middle + subpath));
    IndexOfSlashSkips(owner, "/" + (repo + middle + subpath));
    assert rest[..|owner|] == owner;
    var tail := rest[|owner| + 1..];
    assert tail == repo + (middle + subpath);
    IndexOfSlashSkips(repo, middle + subpath);
    assert tail[..|repo|] == repo;
    var after := tail[|repo|..];
    assert after == middle + subpath;
    assert after[|middle|..] == subpath;
  }

  /** Two different repository paths never share a URL. */
  lemma RepoUrlInjective(origin: string, middle: string, a: RepoPath, b: RepoPath)
    requires PathSegment(a.owner) && PathSegment(a.repo)
    requires PathSegment(b.owner) && PathSegment(b.repo)
    requires StartsWith(middle, "/")
    requires RepoUrl(origin, a.owner, a.repo, middle, a.subpath) == RepoUrl(origin, b.owner, b.repo, middle, b.subpath)
    ensures a == b
  {
    RepoUrlRoundTrip(origin, a.owner, a.repo, middle, a.subpath);
    RepoUrlRoundTrip(origin, b.owner, b.repo, middle, b.subpath);
  }
}
