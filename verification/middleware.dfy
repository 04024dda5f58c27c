/**
 * middleware.ts: the request guard in front of every page. A visitor
 * without a session is sent from the dashboard to the login page, and a
 * signed-in user with a confirmed email is sent from the login and sign-up
 * pages to the dashboard; everything else passes through.
 */
module Middleware {
  import opened Wrappers
  import opened Strings

  /** The part of the session the guard reads: whether `user.email_confirmed_at` is set. */
  datatype Session = Session(emailConfirmed: bool)

  datatype Response = PassThrough | Redirect(path: string)

  /** The login and sign-up pages; neither lies under `/dashboard`. */
  function IsAuthPage(pathname: string): (b: bool)
    ensures b ==> !StartsWith(pathname, "/dashboard")
  {
    pathname == "/login" || pathname == "/signup"
  }

  function Guard(session: Option<Session>, pathname: string): (r: Response)
    ensures r == Redirect("/login") <==> session.None? && StartsWith(pathname, "/dashboard")
    ensures r == Redirect("/dashboard") <==> session.Some? && session.value.emailConfirmed && IsAuthPage(pathname)
    ensures r.PassThrough? <==>
      !(session.None? && StartsWith(pathname, "/dashboard"))
      && !(session.Some? && session.value.emailConfirmed && IsAuthPage(pathname))
  {
    if session.None? && StartsWith(pathname, "/dashboard") then Redirect("/login")
    else if session.Some? && session.value.emailConfirmed && IsAuthPage(pathname) then Redirect("/dashboard")
    else PassThrough
  }

  /** A user whose email is not confirmed is never moved off the login or sign-up page. */
  lemma UnconfirmedStaysOnAuthPages(pathname: string)
    requires IsAuthPage(pathname)
    ensures Guard(Some(Session(false)), pathname) == PassThrough
  {
  }

  /** Following a redirect with the same session is not redirected again: the guard cannot loop. */
  lemma NoRedirectLoop(session: Option<Session>, pathname: string)
    ensures Guard(session, pathname).Redirect? ==> Guard(session, Guard(session, pathname).path) == PassThrough
  {
  }
}
