/** The credential store shared by the API client, the session context and the
    server-side guard: two cookies written with `setCookie` and removed with
    `destroyCookie`, and the bearer value of the `Authorization` header. */
module Credentials {
  import opened Wrappers

  /** One stored cookie: its value and the options it was written with. */
  datatype Cookie = Cookie(value: string, maxAge: int, path: string)

  /** The cookies as `parseCookies` returns them, keyed by name. Destroying a
      cookie removes its key; expiry over time is not modelled. */
  type Jar = map<string, Cookie>

  const TokenKey: string := "ignite-next-auth.token"
  const RefreshTokenKey: string := "ignite-next-auth.refreshToken"

  /** `60 * 60 * 24 * 30`: thirty days, in seconds. */
  const ThirtyDays: int := 60 * 60 * 24 * 30

  const RootPath: string := "/"

  /** The public landing route that sign-out and the server-side guard send the user to. */
  const HomeRoute: string := "/"

  /** `parseCookies()[key]`: the stored value, or `undefined`. */
  function ParseCookie(jar: Jar, key: string): Option<string>
  {
    if key in jar then Some(jar[key].value) else None
  }

  /** JavaScript truthiness of a cookie value: `undefined` and `""` are falsy. */
  predicate Truthy(value: Option<string>)
  {
    value.Some? && value.value != ""
  }

  /** A template literal `${value}`: `undefined` is spelled out. */
  function TemplateText(value: Option<string>): string
  {
    if value.Some? then value.value else "undefined"
  }

  /** The value of the `Authorization` header for an access token (the bearer
      scheme of section 2.1 of RFC 6750). */
  function Bearer(token: string): string
  {
    "Bearer " + token
  }

  /** `setCookie(ctx, key, value, { maxAge: 60 * 60 * 24 * 30, path: "/" })`. */
  function SetCookie(jar: Jar, key: string, value: string): Jar
  {
    jar[key := Cookie(value, ThirtyDays, RootPath)]
  }

  /** `destroyCookie(ctx, key)`. */
  function DestroyCookie(jar: Jar, key: string): Jar
  {
    jar - {key}
  }

  /** Both cookies are present or both are absent. */
  predicate Paired(jar: Jar)
  {
    TokenKey in jar <==> RefreshTokenKey in jar
  }

  /** The two `setCookie` calls that store a fresh credential pair: each token
      reads back under its own key with the thirty-day, root-path policy, and
      every other cookie is left as it was. */
  function StoreTokens(jar: Jar, token: string, refreshToken: string): (r: Jar)
    ensures ParseCookie(r, TokenKey) == Some(token)
    ensures ParseCookie(r, RefreshTokenKey) == Some(refreshToken)
    ensures r[TokenKey].maxAge == ThirtyDays && r[TokenKey].path == RootPath
    ensures r[RefreshTokenKey].maxAge == ThirtyDays && r[RefreshTokenKey].path == RootPath
    ensures Paired(r)
    ensures forall k :: k != TokenKey && k != RefreshTokenKey ==> ParseCookie(r, k) == ParseCookie(jar, k)
    ensures r - {TokenKey, RefreshTokenKey} == jar - {TokenKey, RefreshTokenKey}
  {
    SetCookie(SetCookie(jar, TokenKey, token), RefreshTokenKey, refreshToken)
  }

  /** The two `destroyCookie` calls of a sign-out: neither token reads back,
      every other cookie is left as it was. */
  function ClearTokens(jar: Jar): (r: Jar)
    ensures ParseCookie(r, TokenKey) == None && ParseCookie(r, RefreshTokenKey) == None
    ensures Paired(r)
    ensures forall k :: k != TokenKey && k != RefreshTokenKey ==> ParseCookie(r, k) == ParseCookie(jar, k)
    ensures r - {TokenKey, RefreshTokenKey} == jar - {TokenKey, RefreshTokenKey}
  {
    DestroyCookie(DestroyCookie(jar, TokenKey), RefreshTokenKey)
  }

  /** Clearing the tokens a second time changes nothing. */
  lemma ClearTokensIdempotent(jar: Jar)
    ensures ClearTokens(ClearTokens(jar)) == ClearTokens(jar)
  {
  }

  /** Clearing after storing leaves exactly what clearing alone leaves: a sign-in
      followed by a sign-out keeps no trace in the cookies. */
  lemma ClearAfterStore(jar: Jar, token: string, refreshToken: string)
    ensures ClearTokens(StoreTokens(jar, token, refreshToken)) == ClearTokens(jar)
  {
  }
}
