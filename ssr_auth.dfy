/** `withSSRAuth`: the guard around a page's server-side props handler, run
    once per server-rendered request against that request's cookies. */
module SsrAuth {
  import opened Wrappers
  import opened Credentials

  /** The exceptions the guard tells apart: `AuthTokenError`, and the rest. */
  datatype HandlerError = AuthTokenError | OtherError

  /** What the wrapped handler does when it is called with the request context. */
  datatype HandlerOutcome<R> = Returns(result: R) | Throws(error: HandlerError)

  /** What the guard's promise resolves to: a redirect, the handler's own
      result, or `undefined` when an exception was caught and not rethrown. */
  datatype Resolution<R> = Redirect(destination: string, permanent: bool) | Passed(result: R) | Undefined

  /** One run of the guard: its resolution, the request's cookies afterwards,
      and how many times the handler was called. */
  datatype GuardRun<R> = GuardRun(resolution: Resolution<R>, cookies: Jar, handlerCalls: nat)

  /** `withSSRAuth(fn)(ctx)`. Only the access-token cookie is looked at, and a
      missing or empty one counts as absent. */
  function WithSSRAuth<R>(cookies: Jar, handler: HandlerOutcome<R>): (run: GuardRun<R>)
    ensures run.handlerCalls <= 1
    ensures !Truthy(ParseCookie(cookies, TokenKey)) ==>
      run == GuardRun(Redirect(HomeRoute, false), cookies, 0)
    ensures Truthy(ParseCookie(cookies, TokenKey)) ==> run.handlerCalls == 1
    ensures Truthy(ParseCookie(cookies, TokenKey)) && handler.Returns? ==>
      run.resolution == Passed(handler.result) && run.cookies == cookies
    ensures Truthy(ParseCookie(cookies, TokenKey)) && handler == Throws(AuthTokenError) ==>
      && run.resolution == Redirect(HomeRoute, false)
      && ParseCookie(run.cookies, TokenKey) == None && ParseCookie(run.cookies, RefreshTokenKey) == None
      && (forall k :: k != TokenKey && k != RefreshTokenKey ==> ParseCookie(run.cookies, k) == ParseCookie(cookies, k))
      && run.cookies - {TokenKey, RefreshTokenKey} == cookies - {TokenKey, RefreshTokenKey}
    ensures Truthy(ParseCookie(cookies, TokenKey)) && handler == Throws(OtherError) ==>
      run.resolution == Undefined && run.cookies == cookies
  {
    if !Truthy(ParseCookie(cookies, TokenKey)) then
      GuardRun(Redirect(HomeRoute, false), cookies, 0)
    else
      match handler
      case Returns(result) => GuardRun(Passed(result), cookies, 1)
      case Throws(AuthTokenError) =>
        GuardRun(Redirect(HomeRoute, false), DestroyCookie(DestroyCookie(cookies, TokenKey), RefreshTokenKey), 1)
      case Throws(OtherError) => GuardRun(Undefined, cookies, 1)
  }

  /** The guard redirects exactly when the access token is missing or the
      handler threw `AuthTokenError`; a redirect is never permanent and always
      goes to "/". */
  lemma RedirectsExactly<R>(cookies: Jar, handler: HandlerOutcome<R>)
    ensures WithSSRAuth(cookies, handler).resolution.Redirect? <==>
      !Truthy(ParseCookie(cookies, TokenKey)) || handler == Throws(AuthTokenError)
    ensures WithSSRAuth(cookies, handler).resolution.Redirect? ==>
      WithSSRAuth(cookies, handler).resolution == Redirect(HomeRoute, false)
  {
  }

  /** The refresh-token cookie plays no part in the decision. */
  lemma RefreshTokenIrrelevant<R>(cookies: Jar, handler: HandlerOutcome<R>, other: Option<Cookie>)
    ensures var cookies' := if other.Some? then cookies[RefreshTokenKey := other.value] else cookies - {RefreshTokenKey};
      WithSSRAuth(cookies', handler).resolution == WithSSRAuth(cookies, handler).resolution &&
      WithSSRAuth(cookies', handler).handlerCalls == WithSSRAuth(cookies, handler).handlerCalls
  {
    var cookies' := if other.Some? then cookies[RefreshTokenKey := other.value] else cookies - {RefreshTokenKey};
    assert ParseCookie(cookies', TokenKey) == ParseCookie(cookies, TokenKey);
  }

  /** After an `AuthTokenError` cleared the cookies, the next guarded request
      with those cookies is redirected without calling its handler. */
  lemma AuthTokenErrorThenShortCircuit<R>(cookies: Jar, handler: HandlerOutcome<R>, next: HandlerOutcome<R>)
    requires Truthy(ParseCookie(cookies, TokenKey)) && handler == Throws(AuthTokenError)
    ensures var after := WithSSRAuth(cookies, handler).cookies;
      WithSSRAuth(after, next) == GuardRun(Redirect(HomeRoute, false), after, 0)
  {
  }
}
