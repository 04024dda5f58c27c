/**
 * app/auth/callback/route.ts: where the OAuth / email-link callback sends
 * the browser. The query parameters and the outcome of exchanging the code
 * for a session are inputs; the result is the redirect target with the one
 * query parameter it carries, if any.
 */
module AuthCallback {
  import opened Wrappers
  import Middleware

  const DefaultNext: string := "/dashboard"
  const AuthFailed: string := "Authentication failed"
  const ConfirmEmail: string := "Please check your email to confirm your account before signing in."
  const Unexpected: string := "Something went wrong during authentication"

  /** `searchParams.get(...)`: absent is `null`; an empty value is falsy too. */
  predicate Truthy(p: Option<string>) {
    p.Some? && p.value != []
  }

  datatype Params = Params(code: Option<string>, next: Option<string>, error: Option<string>, errorDescription: Option<string>)

  /**
   * What `exchangeCodeForSession` did: reported an error, returned (with a
   * user whose email is confirmed or not, or no user), or threw.
   */
  datatype Exchange = ExchangeError | Exchanged(user: Option<bool>) | ExchangeThrew

  /** A redirect, with the `error` or `message` parameter it sets. */
  datatype Target = Target(path: string, param: Option<(string, string)>)

  function Callback(p: Params, exchange: Exchange): (t: Target)
    ensures Truthy(p.error) ==>
      t == Target("/login", Some(("error", if Truthy(p.errorDescription) then p.errorDescription.value else AuthFailed)))
    ensures !Truthy(p.error) && !Truthy(p.code) ==>
      t == Target(if Truthy(p.next) then p.next.value else DefaultNext, None)
    ensures !Truthy(p.error) && Truthy(p.code) ==>
      match exchange
      case ExchangeError => t == Target("/login", Some(("error", AuthFailed)))
      case ExchangeThrew => t == Target("/login", Some(("error", Unexpected)))
      case Exchanged(user) =>
        if user == Some(false) then t == Target("/login", Some(("message", ConfirmEmail)))
        else t == Target(if Truthy(p.next) then p.next.value else DefaultNext, None)
  {
    var next := if Truthy(p.next) then p.next.value else DefaultNext;
    if Truthy(p.error) then
      Target("/login", Some(("error", if Truthy(p.errorDescription) then p.errorDescription.value else AuthFailed)))
    else if !Truthy(p.code) then Target(next, None)
    else match exchange
      case ExchangeError => Target("/login", Some(("error", AuthFailed)))
      case ExchangeThrew => Target("/login", Some(("error", Unexpected)))
      case Exchanged(user) =>
        if user == Some(false) then Target("/login", Some(("message", ConfirmEmail)))
        else Target(next, None)
  }

  /**
   * Every path that does not reach `next` lands on `/login` with exactly one
   * non-empty explanatory parameter, and `next` is reached only with none.
   */
  lemma FailuresExplainThemselves(p: Params, exchange: Exchange)
    ensures var t := Callback(p, exchange);
      t.param.Some? ==> t.path == "/login" && t.param.value.1 != []
    ensures var t := Callback(p, exchange);
      t.param.None? ==> t.path == (if Truthy(p.next) then p.next.value else DefaultNext)
  {
  }

  /**
   * With a code and no provider error, the browser reaches `next` exactly
   * when the exchange succeeded and did not return an unconfirmed user.
   */
  lemma CodeReachesNextIffExchanged(p: Params, exchange: Exchange)
    requires !Truthy(p.error) && Truthy(p.code)
    ensures Callback(p, exchange).param.None? <==> exchange.Exchanged? && exchange.user != Some(false)
  {
  }

  /**
   * A user who has just signed up and not confirmed their email is sent to
   * the login page, and the middleware lets them stay there.
   */
  lemma UnconfirmedSignUpStaysOnLogin(p: Params)
    requires !Truthy(p.error) && Truthy(p.code)
    ensures Callback(p, Exchanged(Some(false))).path == "/login"
    ensures Middleware.Guard(Some(Middleware.Session(false)), Callback(p, Exchanged(Some(false))).path).PassThrough?
  {
    Middleware.UnconfirmedStaysOnAuthPages("/login");
  }

  /** A provider error wins over a code: the exchange is not consulted. */
  lemma ErrorParamWins(p: Params, e1: Exchange, e2: Exchange)
    requires Truthy(p.error)
    ensures Callback(p, e1) == Callback(p, e2)
  {
  }
}
