/** The session context (`AuthProvider`) of one browser tab: who is signed in,
    the credential cookies, the default `Authorization` header of the API
    client, the route the tab shows, and the "auth" broadcast channel through
    which tabs tell each other about sign-in and sign-out.

    Each operation is given twice: as a step function over a `TabState`
    snapshot, which is where the properties are proved, and as a method of
    `BrowserTab`, which changes the tab's fields in the source's order and
    is proved to take exactly that step. */
module Auth {
  import opened Wrappers
  import opened Credentials
  import opened Users

  const SignInMessage: string := "signIn"
  const SignOutMessage: string := "signOut"
  const DashboardRoute: string := "/dashboard"

  /** The module-level `authChannel`: undefined until the provider mounts, then
      an open BroadcastChannel named "auth", closed once a "signOut" message
      has been handled. */
  datatype Channel = Unopened | Open | Closed

  /** What `authChannel.postMessage` throws when it cannot post: a TypeError
      while the variable is still undefined, an InvalidStateError once the
      channel is closed. */
  datatype Thrown = TypeError | InvalidStateError

  datatype SignInCredentials = SignInCredentials(email: string, password: string)

  /** The body of a successful `POST sessions`. */
  datatype SessionData = SessionData(token: string, refreshToken: string, permissions: seq<string>, roles: seq<string>)

  /** Everything the session context reads or changes. `authorization` is the
      API client's default header, absent until the client is created;
      `posted` lists what this tab posted on the channel; `reloaded` records a
      `window.location.reload()`. */
  datatype TabState = TabState(
    cookies: Jar,
    authorization: Option<string>,
    user: Option<User>,
    route: string,
    channel: Channel,
    posted: seq<string>,
    reloaded: bool)

  /** A state reached, and the exception thrown on the way if there was one. */
  datatype Step = Step(state: TabState, thrown: Option<Thrown>)

  /** `isAuthenticated = !!user`. */
  function IsAuthenticated(user: Option<User>): (r: bool)
    ensures r <==> user != None
  {
    user.Some?
  }

  /** What posting on the channel throws, if anything. */
  function PostFailure(channel: Channel): (r: Option<Thrown>)
    ensures r == None <==> channel == Open
    ensures channel == Unopened ==> r == Some(TypeError)
    ensures channel == Closed ==> r == Some(InvalidStateError)
  {
    match channel
    case Unopened => Some(TypeError)
    case Open => None
    case Closed => Some(InvalidStateError)
  }

  /** `authChannel.postMessage(message)`. */
  function PostStep(s: TabState, message: string): (r: Step)
    ensures r.thrown == PostFailure(s.channel)
    ensures r.thrown == None ==> r.state == s.(posted := s.posted + [message])
    ensures r.thrown != None ==> r.state == s
  {
    var thrown := PostFailure(s.channel);
    if thrown.None? then Step(s.(posted := s.posted + [message]), None) else Step(s, thrown)
  }

  /** `signOut()`: both cookies destroyed, "signOut" posted, then a navigation
      to "/". The user and the header are left as they were. When posting
      throws, the cookies are already gone but the navigation never happens. */
  function SignOutStep(s: TabState): (r: Step)
    ensures ParseCookie(r.state.cookies, TokenKey) == None && ParseCookie(r.state.cookies, RefreshTokenKey) == None
    ensures forall k :: k != TokenKey && k != RefreshTokenKey ==> ParseCookie(r.state.cookies, k) == ParseCookie(s.cookies, k)
    ensures r.state.cookies - {TokenKey, RefreshTokenKey} == s.cookies - {TokenKey, RefreshTokenKey}
    ensures r.state.user == s.user && r.state.authorization == s.authorization
    ensures r.state.channel == s.channel && r.state.reloaded == s.reloaded
    ensures r.thrown == PostFailure(s.channel)
    ensures r.thrown == None ==> r.state.posted == s.posted + [SignOutMessage] && r.state.route == HomeRoute
    ensures r.thrown != None ==> r.state.posted == s.posted && r.state.route == s.route
  {
    var posted := PostStep(s.(cookies := ClearTokens(s.cookies)), SignOutMessage);
    if posted.thrown.None? then Step(posted.state.(route := HomeRoute), None) else posted
  }

  /** `signIn(credentials)` given the outcome of `POST sessions`. On success
      both tokens are stored, the user becomes the email typed in plus the
      permissions and roles returned, the header carries the new token, the tab
      goes to "/dashboard" and "signIn" is posted; a post that throws is caught
      by the same `catch` after all of that. On failure nothing changes. */
  function SignInStep(s: TabState, credentials: SignInCredentials, response: Result<SessionData, string>): (r: TabState)
    ensures response.Failure? ==> r == s
    ensures response.Success? ==>
      var data := response.value;
      && ParseCookie(r.cookies, TokenKey) == Some(data.token)
      && ParseCookie(r.cookies, RefreshTokenKey) == Some(data.refreshToken)
      && r.cookies == StoreTokens(s.cookies, data.token, data.refreshToken)
      && r.user == Some(User(credentials.email, data.permissions, data.roles))
      && r.authorization == Some(Bearer(data.token))
      && r.route == DashboardRoute
      && r.posted == s.posted + (if s.channel == Open then [SignInMessage] else [])
      && r.channel == s.channel && r.reloaded == s.reloaded
  {
    match response
    case Failure(_) => s
    case Success(data) =>
      var signedIn := s.(cookies := StoreTokens(s.cookies, data.token, data.refreshToken),
                         user := Some(User(credentials.email, data.permissions, data.roles)),
                         authorization := Some(Bearer(data.token)),
                         route := DashboardRoute);
      PostStep(signedIn, SignInMessage).state
  }

  /** Whether the startup effect asks the server who is signed in: only when
      the access-token cookie is truthy. */
  predicate RequestsMe(s: TabState)
  {
    Truthy(ParseCookie(s.cookies, TokenKey))
  }

  /** The startup effect, given what `GET /me` would answer: without a token
      nothing happens; with one, a success sets the user from the answer and a
      failure signs out. */
  function RestoreStep(s: TabState, me: Result<User, string>): (r: TabState)
    ensures !RequestsMe(s) ==> r == s
    ensures RequestsMe(s) && me.Success? ==> r == s.(user := Some(me.value))
    ensures RequestsMe(s) && me.Failure? ==> r == SignOutStep(s).state
  {
    if !RequestsMe(s) then s
    else match me
      case Success(user) => s.(user := Some(user))
      case Failure(_) => SignOutStep(s).state
  }

  /** The first effect: `authChannel = new BroadcastChannel("auth")`, with its
      message handler installed. */
  function MountStep(s: TabState): (r: TabState)
    ensures r.channel == Open
    ensures r.(channel := s.channel) == s
  {
    s.(channel := Open)
  }

  /** `authChannel.onmessage` for a message received on the open channel:
      "signOut" signs this tab out, which posts "signOut" in turn, and then
      closes the channel; "signIn" reloads the tab; anything else is ignored. */
  function MessageStep(s: TabState, data: string): (r: TabState)
    requires s.channel == Open
    ensures data == SignOutMessage ==>
      r == SignOutStep(s).state.(channel := Closed) && r.posted == s.posted + [SignOutMessage]
    ensures data == SignInMessage ==> r == s.(reloaded := true)
    ensures data != SignOutMessage && data != SignInMessage ==> r == s
  {
    if data == SignOutMessage then SignOutStep(s).state.(channel := Closed)
    else if data == SignInMessage then s.(reloaded := true)
    else s
  }

  /** Signing out a second time leaves the cookies, the route and the user as
      the first sign-out left them. */
  lemma SignOutIdempotent(s: TabState)
    ensures var once := SignOutStep(s).state;
      var twice := SignOutStep(once).state;
      twice.cookies == once.cookies && twice.route == once.route && twice.user == once.user
  {
    ClearTokensIdempotent(s.cookies);
  }

  /** After a sign-out, a restart does not ask `/me` and changes nothing. */
  lemma RestoreAfterSignOutIsIdle(s: TabState, me: Result<User, string>)
    ensures !RequestsMe(SignOutStep(s).state)
    ensures RestoreStep(SignOutStep(s).state, me) == SignOutStep(s).state
  {
  }

  /** A successful sign-in authenticates the tab, and a restart of the tab
      asks `/me` exactly when the stored token is non-empty. */
  lemma SignInAuthenticates(s: TabState, credentials: SignInCredentials, data: SessionData)
    ensures IsAuthenticated(SignInStep(s, credentials, Success(data)).user)
    ensures RequestsMe(SignInStep(s, credentials, Success(data))) <==> data.token != ""
  {
  }

  /** Every step keeps the two cookies together: both present or both absent. */
  lemma StepsKeepTokensPaired(s: TabState, credentials: SignInCredentials, response: Result<SessionData, string>,
                              me: Result<User, string>, data: string)
    requires Paired(s.cookies)
    ensures Paired(SignOutStep(s).state.cookies)
    ensures Paired(SignInStep(s, credentials, response).cookies)
    ensures Paired(RestoreStep(s, me).cookies)
    ensures Paired(MountStep(s).cookies)
    ensures s.channel == Open ==> Paired(MessageStep(s, data).cookies)
  {
  }

  /** One browser tab running the session context. */
  class BrowserTab {
    var cookies: Jar
    var authorization: Option<string>
    var user: Option<User>
    var route: string
    var channel: Channel
    var posted: seq<string>
    var reloaded: bool

    function State(): TabState
      reads this
    {
      TabState(cookies, authorization, user, route, channel, posted, reloaded)
    }

    /** A tab opened on `route` with the cookies the browser already holds. */
    constructor (cookies: Jar, route: string)
      ensures State() == TabState(cookies, None, None, route, Unopened, [], false)
    {
      this.cookies := cookies;
      this.authorization := None;
      this.user := None;
      this.route := route;
      this.channel := Unopened;
      this.posted := [];
      this.reloaded := false;
    }

    method PostMessage(message: string) returns (thrown: Option<Thrown>)
      modifies this
      ensures Step(State(), thrown) == PostStep(old(State()), message)
    {
      thrown := PostFailure(channel);
      if thrown.None? {
        posted := posted + [message];
      }
    }

    method SignOut() returns (thrown: Option<Thrown>)
      modifies this
      ensures Step(State(), thrown) == SignOutStep(old(State()))
    {
      cookies := DestroyCookie(cookies, TokenKey);
      cookies := DestroyCookie(cookies, RefreshTokenKey);
      thrown := PostMessage(SignOutMessage);
      if thrown.None? {
        route := HomeRoute;
      }
    }

    method SignIn(credentials: SignInCredentials, response: Result<SessionData, string>)
      modifies this
      ensures State() == SignInStep(old(State()), credentials, response)
    {
      if response.Success? {
        var data := response.value;
        cookies := SetCookie(cookies, TokenKey, data.token);
        cookies := SetCookie(cookies, RefreshTokenKey, data.refreshToken);
        user := Some(User(credentials.email, data.permissions, data.roles));
        authorization := Some(Bearer(data.token));
        route := DashboardRoute;
        var _ := PostMessage(SignInMessage);
      }
    }

    method Restore(me: Result<User, string>) returns (requested: bool)
      modifies this
      ensures requested == RequestsMe(old(State()))
      ensures State() == RestoreStep(old(State()), me)
    {
      requested := Truthy(ParseCookie(cookies, TokenKey));
      if requested {
        if me.Success? {
          user := Some(me.value);
        } else {
          var _ := SignOut();
        }
      }
    }

    method Mount()
      modifies this
      ensures State() == MountStep(old(State()))
    {
      channel := Open;
    }

    method OnMessage(data: string)
      requires channel == Open
      modifies this
      ensures State() == MessageStep(old(State()), data)
    {
      if data == SignOutMessage {
        var _ := SignOut();
        channel := Closed;
      } else if data == SignInMessage {
        reloaded := true;
      }
    }
  }
}
