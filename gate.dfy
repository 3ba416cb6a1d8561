/**
 * The `login_required` decorator (app.py:43-66) as a function of the session
 * it finds, the OAuth `authorized` flag and the answers the `/user` endpoint
 * would give to successive calls. The class method `App.Session.LoginRequired`
 * runs it step by step; this module states what it computes and proves the
 * gate's promises about that.
 */
module Gate {
  import opened Wrappers
  import Http

  /** The users who may pass the gate (app.py:13-16). */
  const Whitelist: seq<string> := ["randy3k", "randybot"]

  /** The identity is asked for at most this many times per request. */
  const AttemptLimit: nat := 3

  const PreviousUrlKey: string := "previous_url"
  const LoginKey: string := "login"

  /** The browser's session: string keys to string values. */
  type SessionData = map<string, string>

  /** One `github.get("/user")` answer: `resp.ok` with the JSON's `login`, or not ok. */
  datatype Reply = Fetched(login: string) | Failed

  /** What the gate decides for one request. */
  datatype Decision = RedirectToLogin | Abort(status: int) | Allow

  /** The decision, the session afterwards and the number of `/user` calls made. */
  datatype GateStep = GateStep(decision: Decision, session: SessionData, calls: nat)

  /** The position of the first successful answer, if any. */
  function FirstFetched(replies: seq<Reply>): (k: Option<nat>)
    ensures k.Some? ==> k.value < |replies| && replies[k.value].Fetched?
    ensures k.Some? ==> forall j :: 0 <= j < k.value ==> replies[j].Failed?
    ensures k.None? <==> forall j :: 0 <= j < |replies| ==> replies[j].Failed?
  {
    if replies == [] then None
    else if replies[0].Fetched? then Some(0)
    else match FirstFetched(replies[1..])
      case None => None
      case Some(k) => Some(k + 1)
  }

  /** The whitelist check of a resolved login. */
  function Admit(login: string): (d: Decision)
    ensures d == Allow <==> login in Whitelist
    ensures d != Allow ==> d == Abort(Http.StatusNotFound)
  {
    if login in Whitelist then Allow else Abort(Http.StatusNotFound)
  }

  /**
   * The gate. `replies[i]` is the answer to the (i+1)-th `/user` call; the
   * script covers every call the gate may make.
   */
  function Authorize(session: SessionData, authorized: bool, path: string, replies: seq<Reply>): (g: GateStep)
    requires |replies| >= AttemptLimit
    ensures g.calls <= AttemptLimit
    ensures g.decision == Allow ==> LoginKey in g.session && g.session[LoginKey] in Whitelist
  {
    if !authorized then
      GateStep(RedirectToLogin, session[PreviousUrlKey := path], 0)
    else if LoginKey in session then
      GateStep(Admit(session[LoginKey]), session, 0)
    else
      match FirstFetched(replies[..AttemptLimit])
      case None => GateStep(Abort(Http.StatusServerError), session, AttemptLimit)
      case Some(k) => GateStep(Admit(replies[k].login), session[LoginKey := replies[k].login], k + 1)
  }

  /**
   * Without OAuth authorization the gate redirects to the login flow, records
   * the requested path as `previous_url`, touches no other key and calls
   * nothing; and this is the only way it redirects.
   */
  lemma UnauthenticatedIsRedirected(session: SessionData, authorized: bool, path: string, replies: seq<Reply>)
    requires |replies| >= AttemptLimit
    ensures Authorize(session, authorized, path, replies).decision == RedirectToLogin <==> !authorized
    ensures !authorized ==>
      && Authorize(session, authorized, path, replies).calls == 0
      && Authorize(session, authorized, path, replies).session == session[PreviousUrlKey := path]
  {
  }

  /**
   * With `login` cached the gate asks nothing upstream, leaves the session as
   * it was and decides by the whitelist alone.
   */
  lemma CachedLoginIsNotFetched(session: SessionData, path: string, replies: seq<Reply>)
    requires |replies| >= AttemptLimit
    requires LoginKey in session
    ensures Authorize(session, true, path, replies).calls == 0
    ensures Authorize(session, true, path, replies).session == session
    ensures Authorize(session, true, path, replies).decision == Allow <==> session[LoginKey] in Whitelist
    ensures Authorize(session, true, path, replies).decision != Allow ==> Authorize(session, true, path, replies).decision == Abort(Http.StatusNotFound)
  {
  }

  /**
   * Without a cached login, the gate stops at the first successful answer
   * among the first three: it has made exactly that many calls, stores that
   * answer's login and changes no other key.
   */
  lemma FetchStopsAtFirstSuccess(session: SessionData, path: string, replies: seq<Reply>, k: nat)
    requires |replies| >= AttemptLimit
    requires LoginKey !in session
    requires k < AttemptLimit && replies[k].Fetched?
    requires forall j :: 0 <= j < k ==> replies[j].Failed?
    ensures Authorize(session, true, path, replies).calls == k + 1
    ensures Authorize(session, true, path, replies).session == session[LoginKey := replies[k].login]
    ensures Authorize(session, true, path, replies).decision == Admit(replies[k].login)
  {
  }

  /**
   * When all three calls fail the request ends in a 500, after exactly three
   * calls, and the session is left without a login.
   */
  lemma AllAttemptsFailed(session: SessionData, path: string, replies: seq<Reply>)
    requires |replies| >= AttemptLimit
    requires LoginKey !in session
    requires forall j :: 0 <= j < AttemptLimit ==> replies[j].Failed?
    ensures Authorize(session, true, path, replies) == GateStep(Abort(Http.StatusServerError), session, AttemptLimit)
    ensures LoginKey !in Authorize(session, true, path, replies).session
  {
  }

  /**
   * A 500 happens only after three failed calls for an authorized session
   * without a login.
   */
  lemma ServerErrorOnlyAfterThreeFailures(session: SessionData, authorized: bool, path: string, replies: seq<Reply>)
    requires |replies| >= AttemptLimit
    requires Authorize(session, authorized, path, replies).decision == Abort(Http.StatusServerError)
    ensures authorized && LoginKey !in session
    ensures forall j :: 0 <= j < AttemptLimit ==> replies[j].Failed?
    ensures Authorize(session, authorized, path, replies).calls == AttemptLimit
  {
  }

  /**
   * The handler runs exactly when the request is authorized and the login the
   * session ends up holding is whitelisted, whether it was cached or fetched.
   */
  lemma AllowExactlyWhenWhitelisted(session: SessionData, authorized: bool, path: string, replies: seq<Reply>)
    requires |replies| >= AttemptLimit
    ensures var g := Authorize(session, authorized, path, replies);
      g.decision == Allow <==> authorized && LoginKey in g.session && g.session[LoginKey] in Whitelist
  {
  }

  /**
   * Authentication comes before identity and identity before the whitelist: a
   * 404 means the request was authorized and a login was resolved, and that
   * login is not whitelisted.
   */
  lemma NotFoundMeansNotWhitelisted(session: SessionData, authorized: bool, path: string, replies: seq<Reply>)
    requires |replies| >= AttemptLimit
    requires Authorize(session, authorized, path, replies).decision == Abort(Http.StatusNotFound)
    ensures authorized
    ensures LoginKey in Authorize(session, authorized, path, replies).session
    ensures Authorize(session, authorized, path, replies).session[LoginKey] !in Whitelist
  {
  }

  /**
   * A login in the session after the gate was either there before, unchanged,
   * or is the login of a successful `/user` answer on an authorized request.
   */
  lemma LoginComesFromIdentityCall(session: SessionData, authorized: bool, path: string, replies: seq<Reply>)
    requires |replies| >= AttemptLimit
    requires LoginKey in Authorize(session, authorized, path, replies).session
    ensures var login := Authorize(session, authorized, path, replies).session[LoginKey];
      || (LoginKey in session && session[LoginKey] == login)
      || (authorized && LoginKey !in session && exists j :: 0 <= j < AttemptLimit && replies[j] == Fetched(login))
  {
  }

  /**
   * The identity is fetched at most once per session: after a request the
   * gate allowed, every later authorized request is decided without a call,
   * allowed again, and leaves the session alone.
   */
  lemma AdmittedSessionIsCached(session: SessionData, path: string, replies: seq<Reply>,
                                nextPath: string, nextReplies: seq<Reply>)
    requires |replies| >= AttemptLimit && |nextReplies| >= AttemptLimit
    requires Authorize(session, true, path, replies).decision == Allow
    ensures var s := Authorize(session, true, path, replies).session;
      Authorize(s, true, nextPath, nextReplies) == GateStep(Allow, s, 0)
  {
  }
}
