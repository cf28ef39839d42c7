/** The API client's response interceptor: the token-renewal coordinator.

    A failed response is passed on unless it is a 401. A 401 whose code is not
    "token.expired" signs the tab out and is passed on. A 401 "token.expired"
    suspends the request in `failedRequestsQueue` and, if no renewal is in
    flight, starts one with the stored refresh token. When that renewal
    settles, every suspended request is settled with its single result, in
    arrival order: reissued with the new token, or rejected with the renewal's
    error. Promises are modelled as events: a failure arriving, a renewal
    succeeding, a renewal failing. */
module Api {
  import opened Wrappers
  import opened Credentials
  import opened Auth

  const Unauthorized: int := 401
  const TokenExpired: string := "token.expired"
  const AuthorizationHeader: string := "Authorization"

  /** The request configuration axios hands back with an error. */
  datatype RequestConfig = RequestConfig(url: string, headers: map<string, string>)

  /** A failed request: its configuration, the response status and the
      `code` of the response body, if any. A failure always has a response. */
  datatype AxiosError = AxiosError(config: RequestConfig, status: int, code: Option<string>)

  /** One entry of `failedRequestsQueue`: the request whose `onSuccess`
      reissues and whose `onFailure` rejects. */
  datatype PendingRequest = PendingRequest(config: RequestConfig)

  /** How a renewal settles: the new access token, or the error it failed with. */
  datatype Verdict = Renewed(token: string) | RenewalFailed(error: AxiosError)

  /** A `POST /refresh` call: the refresh token it sent and, once settled, its verdict. */
  datatype Renewal = Renewal(refreshToken: Option<string>, verdict: Option<Verdict>)

  /** A suspended request and the index of the renewal it waits on. */
  datatype Ticket = Ticket(config: RequestConfig, renewal: nat)

  /** How the promise the interceptor handed back settled. */
  datatype Outcome =
    | Reissued(ticket: Ticket, request: RequestConfig)    // `onSuccess`: the request sent again
    | RenewalRejected(ticket: Ticket, error: AxiosError)  // `onFailure`: rejected with the renewal's error
    | PassedOn(error: AxiosError)                         // `Promise.reject(error)`
    | SignOutThrew(error: AxiosError, thrown: Thrown)     // `signOut()` threw before the rejection

  /** `originalConfig.headers["Authorization"] = "Bearer " + token`. */
  function WithBearer(config: RequestConfig, token: string): (r: RequestConfig)
    ensures r.url == config.url && AuthorizationHeader in r.headers && r.headers[AuthorizationHeader] == Bearer(token)
    ensures forall h :: h != AuthorizationHeader ==> (h in r.headers <==> h in config.headers)
    ensures forall h :: h != AuthorizationHeader && h in config.headers ==> r.headers[h] == config.headers[h]
  {
    config.(headers := config.headers[AuthorizationHeader := Bearer(token)])
  }

  /** What one queued entry does when the renewal `renewal` settles with `verdict`. */
  function Settle(request: PendingRequest, renewal: nat, verdict: Verdict): (r: Outcome)
    ensures verdict.Renewed? ==> r == Reissued(Ticket(request.config, renewal), WithBearer(request.config, verdict.token))
    ensures verdict.RenewalFailed? ==> r == RenewalRejected(Ticket(request.config, renewal), verdict.error)
    ensures r.ticket == Ticket(request.config, renewal)
  {
    match verdict
    case Renewed(token) => Reissued(Ticket(request.config, renewal), WithBearer(request.config, token))
    case RenewalFailed(error) => RenewalRejected(Ticket(request.config, renewal), error)
  }

  /** The `forEach` over the queue: each entry settled once, in queue order,
      all with the same verdict. */
  function Drain(queue: seq<PendingRequest>, renewal: nat, verdict: Verdict): (r: seq<Outcome>)
    ensures |r| == |queue|
    ensures forall j :: 0 <= j < |queue| ==> r[j] == Settle(queue[j], renewal, verdict)
  {
    if queue == [] then []
    else Drain(queue[..|queue| - 1], renewal, verdict) + [Settle(queue[|queue| - 1], renewal, verdict)]
  }

  /** The tickets of the queued entries, all waiting on `renewal`. */
  function Waiting(queue: seq<PendingRequest>, renewal: nat): (r: seq<Ticket>)
  {
    if queue == [] then []
    else Waiting(queue[..|queue| - 1], renewal) + [Ticket(queue[|queue| - 1].config, renewal)]
  }

  /** The tickets a sequence of outcomes settled, in order; immediate
      rejections settle no ticket. */
  function Settled(outcomes: seq<Outcome>): seq<Ticket>
  {
    if outcomes == [] then []
    else
      var last := outcomes[|outcomes| - 1];
      Settled(outcomes[..|outcomes| - 1]) + (if last.Reissued? || last.RenewalRejected? then [last.ticket] else [])
  }

  /** The number of renewals still in flight. */
  function InFlight(renewals: seq<Renewal>): nat
  {
    if renewals == [] then 0
    else InFlight(renewals[..|renewals| - 1]) + (if renewals[|renewals| - 1].verdict == None then 1 else 0)
  }

  /** The index of the latest renewal, the one new entries wait on. */
  function Latest(renewals: seq<Renewal>): nat
  {
    if renewals == [] then 0 else |renewals| - 1
  }

  /** An outcome that settled a ticket did so with the verdict of the renewal
      the ticket waited on, and that renewal has settled. */
  ghost predicate SettledBy(o: Outcome, renewals: seq<Renewal>)
  {
    (o.Reissued? || o.RenewalRejected?) ==>
      o.ticket.renewal < |renewals| && renewals[o.ticket.renewal].verdict.Some? &&
      o == Settle(PendingRequest(o.ticket.config), o.ticket.renewal, renewals[o.ticket.renewal].verdict.value)
  }

  lemma {:induction false} SettledAppend(a: seq<Outcome>, b: seq<Outcome>)
    ensures Settled(a + b) == Settled(a) + Settled(b)
    decreases |b|
  {
    if b == [] {
      assert a + b == a;
    } else {
      var b' := b[..|b| - 1];
      assert (a + b)[..|a + b| - 1] == a + b';
      SettledAppend(a, b');
    }
  }

  /** Draining a queue settles exactly the tickets waiting in it, in order. */
  lemma {:induction false} SettledDrain(queue: seq<PendingRequest>, renewal: nat, verdict: Verdict)
    ensures Settled(Drain(queue, renewal, verdict)) == Waiting(queue, renewal)
    decreases |queue|
  {
    if queue != [] {
      var front := queue[..|queue| - 1];
      var d := Drain(queue, renewal, verdict);
      assert d == Drain(front, renewal, verdict) + [Settle(queue[|queue| - 1], renewal, verdict)];
      assert d[..|d| - 1] == Drain(front, renewal, verdict);
      SettledDrain(front, renewal, verdict);
    }
  }

  /** Renewals that have all settled leave none in flight. */
  lemma {:induction false} NoneInFlight(renewals: seq<Renewal>)
    requires forall j :: 0 <= j < |renewals| ==> renewals[j].verdict.Some?
    ensures InFlight(renewals) == 0
    decreases |renewals|
  {
    if renewals != [] {
      NoneInFlight(renewals[..|renewals| - 1]);
    }
  }

  /** The coordinator of one tab. `isRefreshingToken` and `failedRequestsQueue`
      are the source's state; `outcomes` (how each handed-back promise settled)
      and `renewals` (each refresh call issued, with its result) are its
      effects; `enqueued` (every request ever suspended, with the renewal it
      waits on) is bookkeeping for the proofs. The cookies and the default
      header live in `tab`, which the session context shares. */
  class ApiClient {
    var isRefreshingToken: bool
    var failedRequestsQueue: seq<PendingRequest>
    var outcomes: seq<Outcome>
    var renewals: seq<Renewal>
    const tab: BrowserTab
    ghost var enqueued: seq<Ticket>

    /** Only the latest renewal can be in flight, and it is exactly when the
        flag is set; requests wait only while it is; every request ever
        suspended has been settled once, in arrival order, or is still queued
        behind the renewal in flight; and each settlement used the verdict of
        the renewal its request waited on. */
    ghost predicate Valid()
      reads this
    {
      && (forall j :: 0 <= j < |renewals| - 1 ==> renewals[j].verdict.Some?)
      && (isRefreshingToken <==> renewals != [] && renewals[|renewals| - 1].verdict == None)
      && (failedRequestsQueue != [] ==> isRefreshingToken)
      && Settled(outcomes) + Waiting(failedRequestsQueue, Latest(renewals)) == enqueued
      && (forall j :: 0 <= j < |outcomes| ==> SettledBy(outcomes[j], renewals))
    }

    /** The module body: a client whose default header is `Bearer ` followed by
        the stored access token, or by "undefined" when there is none. */
    constructor (tab: BrowserTab)
      modifies tab
      ensures Valid() && this.tab == tab
      ensures !isRefreshingToken && failedRequestsQueue == [] && outcomes == []
      ensures renewals == [] && enqueued == []
      ensures tab.State() == old(tab.State()).(authorization := Some(Bearer(TemplateText(ParseCookie(old(tab.cookies), TokenKey)))))
    {
      this.tab := tab;
      isRefreshingToken := false;
      failedRequestsQueue := [];
      outcomes := [];
      renewals := [];
      enqueued := [];
      new;
      tab.authorization := Some(Bearer(TemplateText(ParseCookie(tab.cookies, TokenKey))));
    }

    /** The error branch of the response interceptor. */
    method OnFailure(error: AxiosError)
      requires Valid()
      modifies this, tab
      ensures Valid()
      ensures error.status != Unauthorized ==>
        && outcomes == old(outcomes) + [PassedOn(error)]
        && tab.State() == old(tab.State())
        && isRefreshingToken == old(isRefreshingToken) && failedRequestsQueue == old(failedRequestsQueue)
        && renewals == old(renewals) && enqueued == old(enqueued)
      ensures error.status == Unauthorized && error.code != Some(TokenExpired) ==>
        var signedOut := SignOutStep(old(tab.State()));
        && tab.State() == signedOut.state
        && outcomes == old(outcomes) + [if signedOut.thrown == None then PassedOn(error) else SignOutThrew(error, signedOut.thrown.value)]
        && isRefreshingToken == old(isRefreshingToken) && failedRequestsQueue == old(failedRequestsQueue)
        && renewals == old(renewals) && enqueued == old(enqueued)
      ensures error.status == Unauthorized && error.code == Some(TokenExpired) ==>
        && isRefreshingToken
        && failedRequestsQueue == old(failedRequestsQueue) + [PendingRequest(error.config)]
        && renewals == (if old(isRefreshingToken) then old(renewals)
                        else old(renewals) + [Renewal(ParseCookie(old(tab.cookies), RefreshTokenKey), None)])
        && enqueued == old(enqueued) + [Ticket(error.config, |renewals| - 1)]
        && outcomes == old(outcomes)
        && tab.State() == old(tab.State())
    {
      if error.status == Unauthorized {
        if error.code == Some(TokenExpired) {
          var refreshToken := ParseCookie(tab.cookies, RefreshTokenKey);
          var originalConfig := error.config;
          if !isRefreshingToken {
            isRefreshingToken := true;
            renewals := renewals + [Renewal(refreshToken, None)];
          }
          assert Settled(outcomes) + Waiting(failedRequestsQueue, Latest(renewals)) == enqueued;
          failedRequestsQueue := failedRequestsQueue + [PendingRequest(originalConfig)];
          enqueued := enqueued + [Ticket(originalConfig, Latest(renewals))];
          return;
        } else {
          var thrown := tab.SignOut();
          if thrown.Some? {
            outcomes := outcomes + [SignOutThrew(error, thrown.value)];
            return;
          }
        }
      }
      outcomes := outcomes + [PassedOn(error)];
    }

    /** The renewal in flight answered with `token` and `refreshToken`: both
        cookies are rewritten, the default header carries the new token, every
        queued request is reissued with it in arrival order, the queue empties
        and the flag drops. */
    method RefreshSucceeds(token: string, refreshToken: string)
      requires Valid() && isRefreshingToken
      modifies this, tab
      ensures Valid()
      ensures tab.State() == old(tab.State()).(cookies := StoreTokens(old(tab.cookies), token, refreshToken),
                                                authorization := Some(Bearer(token)))
      ensures outcomes == old(outcomes) + Drain(old(failedRequestsQueue), Latest(old(renewals)), Renewed(token))
      ensures failedRequestsQueue == [] && !isRefreshingToken
      ensures renewals == old(renewals)[Latest(old(renewals)) := Renewal(old(renewals)[Latest(old(renewals))].refreshToken, Some(Renewed(token)))]
      ensures enqueued == old(enqueued)
    {
      tab.cookies := SetCookie(tab.cookies, TokenKey, token);
      tab.cookies := SetCookie(tab.cookies, RefreshTokenKey, refreshToken);
      tab.authorization := Some(Bearer(token));
      Finish(Renewed(token));
    }

    /** The renewal in flight failed with `error`: every queued request is
        rejected with that same error in arrival order, the queue empties and
        the flag drops. Cookies and header are left alone; there is no
        sign-out. */
    method RefreshFails(error: AxiosError)
      requires Valid() && isRefreshingToken
      modifies this
      ensures Valid()
      ensures outcomes == old(outcomes) + Drain(old(failedRequestsQueue), Latest(old(renewals)), RenewalFailed(error))
      ensures failedRequestsQueue == [] && !isRefreshingToken
      ensures renewals == old(renewals)[Latest(old(renewals)) := Renewal(old(renewals)[Latest(old(renewals))].refreshToken, Some(RenewalFailed(error)))]
      ensures enqueued == old(enqueued)
    {
      Finish(RenewalFailed(error));
    }

    /** The `forEach` that drains the queue, `failedRequestsQueue = []`, and the
        `finally` that drops the flag. */
    method Finish(verdict: Verdict)
      requires Valid() && isRefreshingToken
      modifies this
      ensures Valid()
      ensures outcomes == old(outcomes) + Drain(old(failedRequestsQueue), Latest(old(renewals)), verdict)
      ensures failedRequestsQueue == [] && !isRefreshingToken
      ensures renewals == old(renewals)[Latest(old(renewals)) := Renewal(old(renewals)[Latest(old(renewals))].refreshToken, Some(verdict))]
      ensures enqueued == old(enqueued)
    {
      var k := |renewals| - 1;
      ghost var before := renewals;
      renewals := renewals[k := Renewal(renewals[k].refreshToken, Some(verdict))];
      forall j | 0 <= j < |outcomes|
        ensures SettledBy(outcomes[j], renewals)
      {
        assert SettledBy(outcomes[j], before);
      }
      var queue := failedRequestsQueue;
      var i := 0;
      while i < |queue|
        invariant 0 <= i <= |queue|
        invariant outcomes == old(outcomes) + Drain(queue[..i], k, verdict)
        invariant forall j :: 0 <= j < |outcomes| ==> SettledBy(outcomes[j], renewals)
        invariant failedRequestsQueue == queue && isRefreshingToken && enqueued == old(enqueued)
        invariant renewals == before[k := Renewal(before[k].refreshToken, Some(verdict))]
      {
        assert queue[..i + 1][..i] == queue[..i];
        assert queue[i] == PendingRequest(queue[i].config);
        outcomes := outcomes + [Settle(queue[i], k, verdict)];
        i := i + 1;
      }
      assert queue[..i] == queue;
      SettledAppend(old(outcomes), Drain(queue, k, verdict));
      SettledDrain(queue, k, verdict);
      failedRequestsQueue := [];
      isRefreshingToken := false;
    }
  }

  /** At most one renewal is in flight, and one is exactly when the flag is set. */
  lemma OneRenewalAtATime(client: ApiClient)
    requires client.Valid()
    ensures InFlight(client.renewals) == if client.isRefreshingToken then 1 else 0
  {
    var r := client.renewals;
    if r != [] {
      NoneInFlight(r[..|r| - 1]);
    }
  }

  /** Once no renewal is in flight, every request ever suspended has been
      settled exactly once, in the order it arrived. */
  lemma AllSettledWhenIdle(client: ApiClient)
    requires client.Valid() && !client.isRefreshingToken
    ensures Settled(client.outcomes) == client.enqueued
  {
  }

  /** Two requests fail as expired before the renewal they trigger answers with
      "T2": one refresh call is made, with the stored refresh token, and both
      requests are reissued with `Bearer T2`, in the order they failed. */
  method TwoExpiredRequestsShareOneRenewal(jar: Jar, a: RequestConfig, b: RequestConfig)
    returns (outcomes: seq<Outcome>, renewals: seq<Renewal>)
    ensures renewals == [Renewal(ParseCookie(jar, RefreshTokenKey), Some(Renewed("T2")))]
    ensures outcomes == [Reissued(Ticket(a, 0), WithBearer(a, "T2")), Reissued(Ticket(b, 0), WithBearer(b, "T2"))]
    ensures outcomes[0].request.headers[AuthorizationHeader] == "Bearer T2"
    ensures outcomes[1].request.headers[AuthorizationHeader] == "Bearer T2"
  {
    var tab := new BrowserTab(jar, "/dashboard");
    var client := new ApiClient(tab);
    client.OnFailure(AxiosError(a, Unauthorized, Some(TokenExpired)));
    client.OnFailure(AxiosError(b, Unauthorized, Some(TokenExpired)));
    client.RefreshSucceeds("T2", "R2");
    outcomes := client.outcomes;
    renewals := client.renewals;
  }
}
