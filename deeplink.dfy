/**
 * The deep-link restore of `home` (app.py:117-125): a pending `previous_url`
 * is always taken out of the session, and followed only when the visitor is
 * authorized. `App.Session.Home` performs it on the session object.
 */
module DeepLink {
  import opened Gate
  import Http

  /** The response of `home` and the session it leaves. */
  datatype HomeStep = HomeStep(response: Http.Response, session: SessionData)

  function Restore(session: SessionData, authorized: bool): (h: HomeStep)
    ensures h.session == session - {PreviousUrlKey}
    ensures h.response.Redirect? <==> authorized && PreviousUrlKey in session
    ensures h.response.Redirect? ==> h.response.url == session[PreviousUrlKey]
    ensures !h.response.Redirect? ==> h.response == Http.Text("")
  {
    if PreviousUrlKey in session then
      var previous := session[PreviousUrlKey];
      var popped := session - {PreviousUrlKey};
      if authorized then HomeStep(Http.Redirect(previous), popped) else HomeStep(Http.Text(""), popped)
    else
      HomeStep(Http.Text(""), session)
  }

  /**
   * Restore is exactly-once: whatever the first visit did, a second visit to
   * `home` answers with the empty body and changes nothing.
   */
  lemma RestoreExactlyOnce(session: SessionData, authorized: bool, authorizedAgain: bool)
    ensures var first := Restore(session, authorized);
      Restore(first.session, authorizedAgain) == HomeStep(Http.Text(""), first.session)
  {
  }

  /**
   * The login round trip: a request the gate turned away for lack of
   * authorization is replayed by the first authorized visit to `home`.
   */
  lemma GateRedirectIsReplayed(session: SessionData, path: string, replies: seq<Reply>)
    requires |replies| >= AttemptLimit
    ensures var g := Authorize(session, false, path, replies);
      && g.decision == RedirectToLogin
      && Restore(g.session, true).response == Http.Redirect(path)
      && PreviousUrlKey !in Restore(g.session, true).session
  {
  }

  /**
   * `home` takes `previous_url` out before it looks at authorization, so an
   * unauthorized visit loses the pending deep link for good: the next,
   * authorized visit does not redirect.
   */
  lemma UnauthorizedVisitDiscards(session: SessionData, path: string, replies: seq<Reply>)
    requires |replies| >= AttemptLimit
    ensures var g := Authorize(session, false, path, replies);
      var early := Restore(g.session, false);
      && early.response == Http.Text("")
      && Restore(early.session, true).response == Http.Text("")
  {
  }
}
