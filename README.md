# repoview: a verified model of the gate and the routes

repoview is a small Flask app (`app.py`) that lets a fixed whitelist of GitHub
users browse repositories: it lists directories through the GitHub contents
API, serves `.html` files raw, and redirects every other file to its page on
GitHub. Every repository route sits behind a `login_required` gate. The gate
checks OAuth authorization, resolves the user's login with up to three calls
to `/user`, caches it in the session and checks it against the whitelist.
The home route replays a deep link saved by the gate.

This project models that core in Dafny and proves what it promises:

- `Gate` gives the decision of `login_required` as a function `Authorize` of
  the session, the `authorized` flag and the script of `/user` answers. The
  lemmas about it cover the gate's ordering, retries, caching and whitelist.
- `App.Session` is the browser session as an object whose map `data` the gate
  and `home` update in place. `LoginRequired` runs the retry loop with an
  early exit. Each method is proved to compute exactly the matching
  specification function.
- `Listing` models `list_directory`: type selection, dot-name filtering, order
  and the 404 rule.
- `Dispatch` models `view_page` and `repo_home`: the choice by sub-path ending
  and the URLs built.
- `Urls` holds the URL builder and a parser for it. The parser shows that the
  concatenated URL strings parse back to their owner, repository and
  sub-path under `Urls.ParseRepoUrl`. This is a statement about strings; URL
  quoting is not modelled.
- `DeepLink` models the deep-link restore of `home`.

External calls become inputs. The `/user` answers are a sequence of `Reply`
values: the i-th element answers the i-th call. The contents API and the
raw-content host are total functions from URL to reply. The model therefore
records which URL the code asks for.

## Model

| member | source | states |
|---|---|---|
| Strings.EndingsExclusive | app.py:102-105 | no sub-path ends in both "/" and ".html", so the two tests of `view_page` never overlap |
| Urls.RepoUrl | app.py:73 | no contract: the concatenation shape shared by the three URL f-strings; `Urls.RepoUrlRoundTrip` proves the string parses back under `ParseRepoUrl` |
| Listing.ContentsUrl | app.py:73 | no contract: the contents API URL; `Dispatch.ContentsFetchNamesTheDirectory` proves the string parses back under `ParseRepoUrl` to the requested owner, repo and directory |
| Dispatch.RawUrl | app.py:107 | no contract: the raw-content URL; `Dispatch.RawFetchNamesTheFile` proves the string parses back under `ParseRepoUrl` to the requested owner, repo and file |
| Dispatch.BlobUrl | app.py:114 | no contract: the GitHub page URL; `Dispatch.BlobRedirectNamesTheFile` proves the string parses back under `ParseRepoUrl` to the requested owner, repo and file |
| App.RepoHomePath | app.py:47 | no contract: `request.path` of `repo_home`, the value the gate saves as `previous_url`; `App.Session.RepoHome` passes it to the gate |
| App.ViewPagePath | app.py:47 | no contract: `request.path` of `view_page`, the value the gate saves as `previous_url`; `App.DeepLinkScenario` shows it replayed by `home` |
| Urls.RepoUrlRoundTrip | app.py:73 | a URL built from origin, owner, repo, middle part and sub-path parses back under `ParseRepoUrl` to that owner, repo and sub-path, when owner and repo are slash-free route segments |
| Urls.RepoUrlInjective | app.py:107 | two different (owner, repo, sub-path) triples never give the same URL |
| Listing.SelectNames | app.py:39-40 | the selected names are exactly the names of the entries of the requested type, and there are no more of them than entries |
| Listing.DropDotNames | app.py:84-86 | a name is kept exactly when it was present and does not start with '.' |
| Listing.Folders | app.py:84 | a name is a folder exactly when a `dir` entry has it and it does not start with '.' |
| Listing.Files | app.py:86 | a name is a file exactly when a `file` entry has it and it does not start with '.' |
| Listing.ListDirectory | app.py:69-88 | 404 exactly when the contents API does not answer 200; on 200 the page for that owner, repo and sub-path with `Folders` and `Files` of the reply (in upstream order, by `ListingPreservesOrder`), i.e. exactly the visible `dir` and `file` names |
| Listing.SelectNamesAppend | app.py:39-40 | type selection distributes over concatenation of entry runs (it keeps upstream order) |
| Listing.DropDotNamesAppend | app.py:84-86 | the dot filter distributes over concatenation (it keeps order) |
| Listing.ListingPreservesOrder | app.py:84-87 | folders and files of two consecutive runs of entries are those of the first run followed by those of the second |
| Listing.ListingOfOneEntry | app.py:84-87 | a single entry is listed exactly when it has the right type and no leading dot; with the order lemma this fixes every listing |
| Listing.NoDotNamesKeepsAll | app.py:84-86 | with no dot-names in the input, the filter drops nothing |
| Dispatch.RouteOf | app.py:102-114 | the route is a listing exactly when the sub-path ends in "/", a raw fetch exactly when it ends in ".html", and a redirect otherwise |
| Dispatch.ViewPage | app.py:97-114 | "/" endings give the directory listing; ".html" endings give the raw text on 200 and 404 otherwise; anything else redirects to the file's GitHub page |
| Dispatch.RepoHome | app.py:91-94 | the repository root listing: 404 exactly when the contents API does not answer 200 for the empty sub-path; on 200 the root page with `Folders` and `Files` of the reply, exactly the visible `dir` and `file` names |
| Dispatch.BlobRedirectNamesTheFile | app.py:114 | the response is a redirect whose URL string parses back under `ParseRepoUrl` to the requested owner, repo and sub-path |
| Dispatch.RawFetchNamesTheFile | app.py:105-112 | for an `.html` sub-path the response is the raw host's text on 200 and 404 otherwise, from its reply to a URL string that parses back under `ParseRepoUrl` to the requested owner, repo and file |
| Dispatch.ContentsFetchNamesTheDirectory | app.py:72-87 | the listing is 404 or the page built from the contents API's reply to a URL string that parses back under `ParseRepoUrl` to the requested owner, repo and directory |
| Gate.FirstFetched | app.py:52-55 | finds the first successful answer: it is a success and every earlier answer failed; no result exactly when every answer failed |
| Gate.Admit | app.py:60-62 | allows exactly the whitelisted logins and answers 404 to all others |
| Gate.Authorize | app.py:43-66 | makes at most three `/user` calls, and allows only when the session ends up holding a whitelisted login |
| Gate.UnauthenticatedIsRedirected | app.py:46-48 | the gate redirects to login exactly when not authorized, then with no call and with only `previous_url` set to the path |
| Gate.CachedLoginIsNotFetched | app.py:50-64 | with a cached login: no call, session unchanged, allowed exactly when whitelisted, otherwise 404 |
| Gate.FetchStopsAtFirstSuccess | app.py:50-58 | without a cached login, the gate stops at the first successful answer, after that many calls, and stores its login with no other key changed |
| Gate.AllAttemptsFailed | app.py:52-57 | three failed answers give 500 after three calls, with the session unchanged and no login |
| Gate.ServerErrorOnlyAfterThreeFailures | app.py:50-57 | a 500 only happens to an authorized session without a login whose three calls all failed |
| Gate.AllowExactlyWhenWhitelisted | app.py:60-64 | allowed exactly when authorized and the resulting session's login, cached or fetched, is whitelisted |
| Gate.NotFoundMeansNotWhitelisted | app.py:60-62 | a 404 means authentication passed, a login was resolved, and that login is not whitelisted |
| Gate.LoginComesFromIdentityCall | app.py:50-58 | a login in the session afterwards was either already there or is the login of a successful `/user` answer on an authorized request |
| Gate.AdmittedSessionIsCached | app.py:50-60 | after an allowed request, later authorized requests are allowed with no call and no session change |
| DeepLink.Restore | app.py:117-125 | `previous_url` is always removed; the response redirects to it exactly when it was present and the visitor is authorized, else it is the empty body |
| DeepLink.RestoreExactlyOnce | app.py:119-125 | a second visit to `home` answers with the empty body and changes nothing |
| DeepLink.GateRedirectIsReplayed | app.py:46-48 | a path turned away for lack of authorization is replayed by the next authorized visit to `home` |
| DeepLink.UnauthorizedVisitDiscards | app.py:119-122 | an unauthorized visit to `home` drops the pending deep link, so the later authorized visit does not redirect |
| App.Guard | app.py:45-64 | the decorated route returns the handler's response when allowed, the login redirect or the abort status otherwise |
| App.GuardIgnoresRefusedHandler | app.py:45-62 | when the gate refuses, the response does not depend on the handler: it is the login redirect or the gate's abort status |
| App.Session.LoginRequired | app.py:43-66 | the retry loop's decision, call count and new session equal `Gate.Authorize` of the old session |
| App.Session.Home | app.py:117-125 | the response and new session equal `DeepLink.Restore` of the old session |
| App.Session.RepoHome | app.py:91-94 | the gate runs with the route's path, the handler runs exactly when allowed, and the response is the guarded root listing |
| App.Session.ViewPage | app.py:97-114 | the gate runs with the route's path, the handler runs exactly when allowed, and the response is the guarded `view_page` result |
| App.DeepLinkScenario | app.py:43-125 | a fresh session: login redirect, then one redirect to the saved page, then the empty body |
| App.StrangerScenario | app.py:60-62 | a signed-in non-whitelisted user gets 404 on every route; the first request makes one call and the next none; the handler never runs |
| App.IdentityOutageScenario | app.py:52-58 | three failures give 500 and store no login, so the next request fetches again and succeeds at the second call |

## Behaviour of app.py worth noting

- `home` pops `previous_url` (app.py:121) before it checks authorization
  (app.py:122). An unauthorized visit to `home` therefore loses the pending
  deep link for good; `DeepLink.UnauthorizedVisitDiscards` states this.
- Every gate denial is a 404 (app.py:62), and only logins are whitelisted
  (app.py:13-16, 61); no check looks at the owner or repository.
- The sub-path Flask hands to `view_page` is already decoded, and the URL
  f-strings (app.py:73, 107, 114) do not percent-encode it. A file name
  containing '#', '?' or '%' (requested as `%23`, `%3F`, `%25`) is therefore
  fetched or redirected to a different target than the file asked for: for
  `/o/r/a%23b.html` the raw host is asked for `.../master/a#b.html`, which an
  HTTP client reads as file `a` with a fragment. The replayed `previous_url`
  (app.py:123) is affected the same way.

## Left out

- Flask app setup, ProxyFix, the random secret key, dotenv and the OAuth blueprint configuration (app.py:11-37): configuration and I/O.
- The network calls to `/user`, the contents API and the raw-content host: their answers are inputs. Transport exceptions raised by `requests` are not modelled.
- The `/user` script has at least three answers (`requires |replies| >= AttemptLimit`). It describes the upstream, not a demand on callers: the gate never makes more than three calls.
- A `/user` answer that is ok but has no `login` field would raise an error in the source. The model assumes every ok answer carries a login.
- The jq compilation (app.py:39-40): its effect is modelled as type selection over entries with only a `type` and a `name`. A contents answer that is a JSON object, not an array (the path names a file), is not modelled.
- The OAuth token lookup and the `Authorization` header (app.py:70, 74, 100, 108): the token is a credential, and the upstream oracles answer regardless of it.
- Template rendering (app.py:88): `Http.Page` carries the template's context instead of HTML.
- The login redirect's target URL is kept abstract as `Http.LoginRedirect`. It is produced by the OAuth library's blueprint, which is not part of this model.
- The request path is built as "/" + owner + "/" + repo + "/" + sub-path. The model does not do URL decoding or handle a mount prefix.
- Server start-up (app.py:128-130).
- Outgoing URLs and `previous_url` are modelled as plain strings: percent-encoding, fragments, query strings and `..` segments are not interpreted. The URL lemmas state that the string parses back under `Urls.ParseRepoUrl`, not which resource an HTTP client would fetch from it.
