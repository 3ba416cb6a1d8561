/**
 * The request-handling side of app.py: a browser session whose map the gate
 * and `home` update in place, and the two repository routes wrapped by the
 * gate. The handlers themselves are the functions of `Dispatch`.
 */
module App {
  import opened Gate
  import Http
  import Listing
  import Dispatch
  import DeepLink

  /** `request.path` of `repo_home`. */
  function RepoHomePath(owner: string, repo: string): string {
    "/" + owner + "/" + repo + "/"
  }

  /** `request.path` of `view_page`. */
  function ViewPagePath(owner: string, repo: string, subpath: string): string {
    "/" + owner + "/" + repo + "/" + subpath
  }

  /**
   * What the decorated route returns for a gate decision: the handler's own
   * response when allowed, otherwise the gate's redirect or abort.
   */
  function Guard(d: Decision, handler: Http.Response): (r: Http.Response)
    ensures d == Allow ==> r == handler
    ensures d == RedirectToLogin ==> r == Http.LoginRedirect
    ensures d.Abort? ==> r == Http.Abort(d.status)
  {
    match d
    case RedirectToLogin => Http.LoginRedirect
    case Abort(status) => Http.Abort(status)
    case Allow => handler
  }

  /** Unless the gate allows, the response is the same whatever the handler would have done. */
  lemma GuardIgnoresRefusedHandler(d: Decision, handler: Http.Response, other: Http.Response)
    requires d != Allow
    ensures Guard(d, handler) == Guard(d, other)
    ensures Guard(d, handler) == if d == RedirectToLogin then Http.LoginRedirect else Http.Abort(d.status)
  {
  }

  /** One browser's session, which Flask keeps between requests. */
  class Session {
    var data: SessionData

    constructor ()
      ensures data == map[]
    {
      data := map[];
    }

    /**
     * The body of `login_required`'s wrapper: decides the request and updates
     * the session. `calls` counts the `/user` calls made, and `replies[i]` is
     * the answer to the (i+1)-th of them.
     */
    method LoginRequired(authorized: bool, path: string, replies: seq<Reply>) returns (d: Decision, calls: nat)
      requires |replies| >= AttemptLimit
      modifies this
      ensures GateStep(d, data, calls) == Authorize(old(data), authorized, path, replies)
    {
      calls := 0;
      if !authorized {
        data := data[PreviousUrlKey := path];
        return RedirectToLogin, calls;
      }

      if LoginKey !in data {
        var resp := Failed;
        for i := 0 to AttemptLimit
          invariant calls == i
          invariant resp.Failed?
          invariant forall j :: 0 <= j < i ==> replies[j].Failed?
        {
          resp := replies[i];
          calls := calls + 1;
          if resp.Fetched? {
            break;
          }
        }
        assert forall j :: 0 <= j < AttemptLimit ==> replies[..AttemptLimit][j] == replies[j];
        if !resp.Fetched? {
          return Abort(Http.StatusServerError), calls;
        }
        data := data[LoginKey := resp.login];
      }

      var login := data[LoginKey];
      if login !in Whitelist {
        return Abort(Http.StatusNotFound), calls;
      }
      return Allow, calls;
    }

    /** `home`: pops `previous_url`, and follows it only when authorized. */
    method Home(authorized: bool) returns (r: Http.Response)
      modifies this
      ensures DeepLink.HomeStep(r, data) == DeepLink.Restore(old(data), authorized)
    {
      r := Http.Text("");
      if PreviousUrlKey in data {
        var previousUrl := data[PreviousUrlKey];
        data := data - {PreviousUrlKey};
        if authorized {
          r := Http.Redirect(previousUrl);
        }
      }
    }

    /** `repo_home` behind the gate. `ran` tells whether the handler ran. */
    method RepoHome(authorized: bool, owner: string, repo: string, replies: seq<Reply>,
                    api: string -> Listing.ContentsReply)
      returns (r: Http.Response, calls: nat, ran: bool)
      requires |replies| >= AttemptLimit
      modifies this
      ensures var g := Authorize(old(data), authorized, RepoHomePath(owner, repo), replies);
        && data == g.session && calls == g.calls
        && ran == (g.decision == Allow)
        && r == Guard(g.decision, Dispatch.RepoHome(owner, repo, api))
    {
      var d;
      d, calls := LoginRequired(authorized, RepoHomePath(owner, repo), replies);
      ran := false;
      match d
      case RedirectToLogin => r := Http.LoginRedirect;
      case Abort(status) => r := Http.Abort(status);
      case Allow =>
        ran := true;
        r := Dispatch.RepoHome(owner, repo, api);
    }

    /** `view_page` behind the gate. `ran` tells whether the handler ran. */
    method ViewPage(authorized: bool, owner: string, repo: string, subpath: string, replies: seq<Reply>,
                    api: string -> Listing.ContentsReply, raw: string -> Dispatch.RawReply)
      returns (r: Http.Response, calls: nat, ran: bool)
      requires |replies| >= AttemptLimit
      modifies this
      ensures var g := Authorize(old(data), authorized, ViewPagePath(owner, repo, subpath), replies);
        && data == g.session && calls == g.calls
        && ran == (g.decision == Allow)
        && r == Guard(g.decision, Dispatch.ViewPage(owner, repo, subpath, api, raw))
    {
      var d;
      d, calls := LoginRequired(authorized, ViewPagePath(owner, repo, subpath), replies);
      ran := false;
      match d
      case RedirectToLogin => r := Http.LoginRedirect;
      case Abort(status) => r := Http.Abort(status);
      case Allow =>
        ran := true;
        r := Dispatch.ViewPage(owner, repo, subpath, api, raw);
    }
  }

  /**
   * A fresh browser asks for a page before logging in: it is sent to the
   * login flow, comes back to `home` authorized and is redirected to that
   * page once; a further visit to `home` stays there.
   */
  method DeepLinkScenario(owner: string, repo: string, subpath: string, replies: seq<Reply>,
                          api: string -> Listing.ContentsReply, raw: string -> Dispatch.RawReply)
    returns (first: Http.Response, second: Http.Response, third: Http.Response, ran: bool)
    requires |replies| >= AttemptLimit
    ensures first == Http.LoginRedirect && !ran
    ensures second == Http.Redirect(ViewPagePath(owner, repo, subpath))
    ensures third == Http.Text("")
  {
    var session := new Session();
    var calls;
    first, calls, ran := session.ViewPage(false, owner, repo, subpath, replies, api, raw);
    second := session.Home(true);
    third := session.Home(true);
  }

  /**
   * A signed-in user outside the whitelist gets a 404 from every repository
   * route, after one `/user` call, and the handler never runs; the next
   * request uses the cached login and makes no call.
   */
  method StrangerScenario(owner: string, repo: string, subpath: string, stranger: string,
                          api: string -> Listing.ContentsReply, raw: string -> Dispatch.RawReply)
    returns (first: Http.Response, firstCalls: nat, second: Http.Response, secondCalls: nat, ran: bool)
    requires stranger !in Whitelist
    ensures first == Http.Abort(Http.StatusNotFound) && firstCalls == 1
    ensures second == Http.Abort(Http.StatusNotFound) && secondCalls == 0
    ensures !ran
  {
    var session := new Session();
    var ranFirst, ranSecond;
    first, firstCalls, ranFirst := session.RepoHome(true, owner, repo, [Fetched(stranger), Failed, Failed], api);
    second, secondCalls, ranSecond := session.ViewPage(true, owner, repo, subpath, [Failed, Failed, Failed], api, raw);
    ran := ranFirst || ranSecond;
  }

  /**
   * The identity endpoint fails three times: the request ends in a 500 after
   * three calls, no login is stored, and the next request asks again.
   */
  method IdentityOutageScenario(owner: string, repo: string, login: string,
                                api: string -> Listing.ContentsReply)
    returns (first: Http.Response, firstCalls: nat, second: Http.Response, secondCalls: nat)
    requires login in Whitelist
    ensures first == Http.Abort(Http.StatusServerError) && firstCalls == 3
    ensures secondCalls == 2 && second == Dispatch.RepoHome(owner, repo, api)
  {
    var session := new Session();
    var ran;
    first, firstCalls, ran := session.RepoHome(true, owner, repo, [Failed, Failed, Failed], api);
    var retry := [Failed, Fetched(login), Failed];
    FetchStopsAtFirstSuccess(session.data, RepoHomePath(owner, repo), retry, 1);
    second, secondCalls, ran := session.RepoHome(true, owner, repo, retry, api);
  }
}
