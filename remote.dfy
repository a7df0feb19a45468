/** The InControl remote API client: a cached, time-bounded session obtained by
    a three-step login chain, per-command authorization tokens, command
    dispatch, and the vehicle status query that flattens key/value pairs into a
    shared status record.

    The HTTP transport is an oracle (`Server`) that answers the n-th request of
    the client's request log; every request the client makes is appended to
    that log. The clock is the `now` argument (seconds). Each method of
    `RemoteApi` is tied to a pure `...Spec` function of the old state, and the
    promises of the source are proved about those functions. */
module Remote {
  import opened Js

  // ---------------------------------------------------------------------------
  // Data model

  datatype Credentials = Credentials(
    username: string, password: string, deviceId: string, vin: string, pin: string)

  /** The cached authentication (`Authentication` in the source). */
  datatype Session = Session(
    accessToken: string,
    authorizationToken: string,
    expiresIn: int,
    refreshToken: string,
    tokenType: string,
    isDeviceRegistered: bool,
    userId: string,
    validUntil: int)

  /** The body of the token endpoint's answer. */
  datatype TokenGrant = TokenGrant(
    accessToken: string, authorizationToken: string, refreshToken: string,
    expiresIn: int, tokenType: string)

  /** A JavaScript `Error` object. */
  datatype Error = Error(name: string, message: string)

  /** What a failed request throws: a bare string or an error object. */
  datatype Thrown = ThrownString(text: string) | ThrownError(error: Error)

  /** The transport's answer to one request. */
  datatype Reply<T> = Answer(value: T) | Throw(thrown: Thrown)

  /** The outcome of an operation: a value, or the error it rejects with. */
  datatype Result<T> = Ok(value: T) | Failed(error: Error)

  datatype KeyValue = KeyValue(key: string, value: string)

  datatype ParameterValue = Text(text: string) | Number(number: real)

  datatype ServiceParameter = ServiceParameter(key: string, value: ParameterValue)

  /** A lock/unlock operation: the resource name and the token type it needs. */
  datatype LockOperation = LockOperation(name: string, tokenType: string)

  const LockVehicleOperation := LockOperation("lock", "RDL")
  const UnlockVehicleOperation := LockOperation("unlock", "RDU")

  /** What a command call resolves to: sent, or `false` because no session was
      held when the command was about to be posted. */
  datatype CommandOutcome = Sent | NotAuthenticated

  // ---------------------------------------------------------------------------
  // The wire: requests as the request log records them (hosts, media types and
  // the fixed Basic credential are opaque)

  datatype Verb = Get | Post

  datatype Endpoint =
    | Tokens
    | Clients(username: string)
    | Users(loginName: string)
    | CommandAuthentication(vin: string, userId: string)
    | Vehicle(vin: string, resource: string)

  datatype Authorization = BasicClient | Bearer(accessToken: string) | NoAuthorization

  datatype Body =
    | Empty
    | PasswordGrant(username: string, password: string)
    | DeviceRegistration(accessToken: string, authorizationToken: string, expiresIn: int, deviceId: string)
    | ServiceAuthentication(serviceName: string, pin: string)
    | CommandToken(token: string)
    | ServiceCommand(token: string, serviceParameters: seq<ServiceParameter>)

  datatype Request = Request(
    verb: Verb, endpoint: Endpoint, authorization: Authorization, deviceId: string,
    body: Body, fullResponse: bool)

  /** The remote service: for each kind of exchange, its answer to the request
      at a given position of the request log. */
  datatype Server = Server(
    tokens: nat -> Reply<TokenGrant>,
    clients: nat -> Reply<int>,
    users: nat -> Reply<string>,
    commandTokens: nat -> Reply<string>,
    commands: nat -> Reply<()>,
    status: nat -> Reply<seq<KeyValue>>,
    attributes: nat -> Reply<string>)

  function TokenRequest(c: Credentials): Request
  {
    Request(Post, Tokens, BasicClient, c.deviceId, PasswordGrant(c.username, c.password), false)
  }

  function RegistrationRequest(c: Credentials, s: Session): Request
  {
    Request(Post, Clients(c.username), NoAuthorization, c.deviceId,
            DeviceRegistration(s.accessToken, s.authorizationToken, s.expiresIn, c.deviceId), true)
  }

  function UserRequest(c: Credentials, s: Session): Request
  {
    Request(Get, Users(c.username), Bearer(s.accessToken), c.deviceId, Empty, false)
  }

  function CommandTokenRequest(c: Credentials, s: Session, tokenType: string, pin: string): Request
  {
    Request(Post, CommandAuthentication(c.vin, s.userId), Bearer(s.accessToken), c.deviceId,
            ServiceAuthentication(tokenType, pin), false)
  }

  function VehicleRequest(verb: Verb, c: Credentials, s: Session, resource: string, body: Body): Request
  {
    Request(verb, Vehicle(c.vin, resource), Bearer(s.accessToken), c.deviceId, body, false)
  }

  // ---------------------------------------------------------------------------
  // Transport error normalisation

  /** `sendRequest`'s catch: a thrown string becomes `new Error(string)`, any
      other error is rethrown as it is. */
  function Normalize(t: Thrown): (e: Error)
    ensures t.ThrownString? ==> e.name == "Error" && e.message == t.text
    ensures t.ThrownError? ==> e == t.error
  {
    match t
    case ThrownString(text) => Error("Error", text)
    case ThrownError(error) => error
  }

  /** Normalising is idempotent: an error that went through once passes
      through the second time unchanged. */
  lemma NormalizeIdempotent(t: Thrown)
    ensures Normalize(ThrownError(Normalize(t))) == Normalize(t)
  {
  }

  function Deliver<T>(reply: Reply<T>): Result<T>
  {
    match reply
    case Answer(v) => Ok(v)
    case Throw(t) => Failed(Normalize(t))
  }

  // ---------------------------------------------------------------------------
  // Session expiry and the login chain, as functions of the cached session

  /** What a step does to the world: the requests it sends, the cached session
      it leaves and what it resolves to. */
  datatype Step<T> = Step(sent: seq<Request>, auth: Option<Session>, result: Result<T>)

  /** `invalidateSessionIfExpired`: the session is discarded exactly when it
      is present and `validUntil < now`; otherwise it is kept as it is. */
  function InvalidateIfExpired(auth: Option<Session>, now: int): (r: Option<Session>)
    ensures r.None? <==> auth.None? || auth.value.validUntil < now
    ensures r.Some? ==> r == auth
  {
    if auth.Some? && auth.value.validUntil < now then None else auth
  }

  /** The session `authenticate` builds from a token grant received at `now`. */
  function NewSession(g: TokenGrant, now: int): (s: Session)
    ensures !s.isDeviceRegistered && s.userId == ""
    ensures s.validUntil == now + g.expiresIn
    ensures s.accessToken == g.accessToken && s.expiresIn == g.expiresIn
  {
    Session(g.accessToken, g.authorizationToken, g.expiresIn, g.refreshToken, g.tokenType,
            false, "", now + g.expiresIn)
  }

  /** `authenticate`: a cached session is returned without a request;
      otherwise the password grant is posted and a fresh session built. */
  function AuthenticateSpec(auth: Option<Session>, c: Credentials, srv: Server, now: int, n: nat)
    : (st: Step<Session>)
    ensures st.auth == auth
    ensures auth.Some? ==> st.sent == [] && st.result == Ok(auth.value)
    ensures auth.None? ==> st.sent == [TokenRequest(c)]
    ensures auth.None? ==> (st.result.Ok? <==> srv.tokens(n).Answer?)
    ensures auth.None? && st.result.Ok? ==> st.result.value == NewSession(srv.tokens(n).value, now)
  {
    if auth.Some? then Step([], auth, Ok(auth.value))
    else
      var r := match srv.tokens(n)
        case Answer(g) => Ok(NewSession(g, now))
        case Throw(t) => Failed(Normalize(t));
      Step([TokenRequest(c)], auth, r)
  }

  /** `registerDevice`: skipped when the session says the device is already
      registered, `false` without a request when there is no session, and
      otherwise registered exactly when the server answers 204. */
  function RegisterSpec(auth: Option<Session>, c: Credentials, srv: Server, n: nat): (st: Step<bool>)
    ensures st.auth == auth
    ensures auth.None? ==> st.sent == [] && st.result == Ok(false)
    ensures auth.Some? && auth.value.isDeviceRegistered ==> st.sent == [] && st.result == Ok(true)
    ensures auth.Some? && !auth.value.isDeviceRegistered ==>
      st.sent == [RegistrationRequest(c, auth.value)] &&
      (st.result.Ok? <==> srv.clients(n).Answer?) &&
      (st.result.Ok? ==> st.result.value == (srv.clients(n).value == 204))
  {
    if auth.Some? && auth.value.isDeviceRegistered then Step([], auth, Ok(true))
    else if auth.None? then Step([], auth, Ok(false))
    else
      var r := match srv.clients(n)
        case Answer(code) => Ok(code == 204)
        case Throw(t) => Failed(Normalize(t));
      Step([RegistrationRequest(c, auth.value)], auth, r)
  }

  /** `getUserId`: skipped when the session already holds a user id, `""`
      without a request when there is no session, and otherwise the id the
      user lookup answers. */
  function UserIdSpec(auth: Option<Session>, c: Credentials, srv: Server, n: nat): (st: Step<string>)
    ensures st.auth == auth
    ensures auth.None? ==> st.sent == [] && st.result == Ok("")
    ensures auth.Some? && auth.value.userId != "" ==> st.sent == [] && st.result == Ok(auth.value.userId)
    ensures auth.Some? && auth.value.userId == "" ==>
      st.sent == [UserRequest(c, auth.value)] && st.result == Deliver(srv.users(n))
  {
    if auth.Some? && auth.value.userId != "" then Step([], auth, Ok(auth.value.userId))
    else if auth.None? then Step([], auth, Ok(""))
    else Step([UserRequest(c, auth.value)], auth, Deliver(srv.users(n)))
  }

  /** Whether `getSession` at `now` has to log in: no session is cached or
      the cached one has expired. */
  predicate MustLogIn(auth: Option<Session>, now: int)
  {
    auth.None? || auth.value.validUntil < now
  }

  /** The session the full chain builds when all three requests are answered. */
  function LoggedIn(srv: Server, now: int, n: nat): Session
    requires srv.tokens(n).Answer? && srv.clients(n + 1).Answer? && srv.users(n + 2).Answer?
  {
    NewSession(srv.tokens(n).value, now).(
      isDeviceRegistered := srv.clients(n + 1).value == 204,
      userId := srv.users(n + 2).value)
  }

  /** `getSession`, run to completion under its mutex. */
  function SessionSpec(auth: Option<Session>, c: Credentials, srv: Server, now: int, n: nat)
    : (st: Step<Session>)
    // a live cached session is returned as it is, without a request
    ensures !MustLogIn(auth, now) ==> st == Step([], auth, Ok(auth.value))
    // whatever is returned is what stays cached
    ensures st.result.Ok? ==> st.auth == Some(st.result.value)
  {
    var live := InvalidateIfExpired(auth, now);
    if live.Some? then Step([], live, Ok(live.value))
    else
      var a := AuthenticateSpec(None, c, srv, now, n);
      if a.result.Failed? then Step(a.sent, None, Failed(a.result.error))
      else
        var started := a.result.value;
        var reg := RegisterSpec(Some(started), c, srv, n + 1);
        if reg.result.Failed? then Step(a.sent + reg.sent, Some(started), Failed(reg.result.error))
        else
          var registered := started.(isDeviceRegistered := reg.result.value);
          var user := UserIdSpec(Some(registered), c, srv, n + 2);
          var sent := a.sent + reg.sent + user.sent;
          if user.result.Failed? then Step(sent, Some(registered), Failed(user.result.error))
          else
            var complete := registered.(userId := user.result.value);
            Step(sent, Some(complete), Ok(complete))
  }

  /** The login chain `getSession` runs when it has no live session:
      authenticate, then register, then the user lookup, in that order. It
      completes exactly when every step is answered (a non-204 registration
      does not stop it); a failed token request leaves no session, and a later
      failure leaves the fresh, partly filled session cached. */
  lemma SessionChain(auth: Option<Session>, c: Credentials, srv: Server, now: int, n: nat)
    requires MustLogIn(auth, now)
    ensures var st := SessionSpec(auth, c, srv, now, n);
      && 1 <= |st.sent| <= 3 && st.sent[0] == TokenRequest(c)
      && (|st.sent| >= 2 ==>
            && srv.tokens(n).Answer?
            && st.sent[1] == RegistrationRequest(c, NewSession(srv.tokens(n).value, now)))
      && (|st.sent| == 3 ==>
            && srv.clients(n + 1).Answer?
            && st.sent[2] == UserRequest(c, NewSession(srv.tokens(n).value, now).(
                                            isDeviceRegistered := srv.clients(n + 1).value == 204)))
    ensures var st := SessionSpec(auth, c, srv, now, n);
      st.result.Ok? <==> srv.tokens(n).Answer? && srv.clients(n + 1).Answer? && srv.users(n + 2).Answer?
    ensures var st := SessionSpec(auth, c, srv, now, n);
      st.result.Ok? ==>
        |st.sent| == 3 && st.result.value == LoggedIn(srv, now, n) &&
        st.result.value.isDeviceRegistered == (srv.clients(n + 1).value == 204) &&
        st.result.value.userId == srv.users(n + 2).value
    ensures var st := SessionSpec(auth, c, srv, now, n);
      srv.tokens(n).Throw? ==> st.auth.None?
    ensures var st := SessionSpec(auth, c, srv, now, n);
      srv.tokens(n).Answer? && st.result.Failed? ==>
        st.auth.Some? && st.auth.value.userId == "" &&
        st.auth.value.validUntil == now + srv.tokens(n).value.expiresIn
  {
  }

  // ---------------------------------------------------------------------------
  // Serialised getSession calls

  /** Several `getSession` calls, one after the other (which is what the
      session mutex makes of concurrent calls), at the clock readings `nows`:
      the requests all of them send, the session left, and each call's result. */
  function SessionCalls(auth: Option<Session>, c: Credentials, srv: Server, nows: seq<int>, n: nat)
    : (calls: Step<seq<Result<Session>>>)
    ensures calls.result.Ok? && |calls.result.value| == |nows|
    decreases |nows|
  {
    if nows == [] then Step([], auth, Ok([]))
    else
      var first := SessionSpec(auth, c, srv, nows[0], n);
      var rest := SessionCalls(first.auth, c, srv, nows[1..], n + |first.sent|);
      Step(first.sent + rest.sent, rest.auth, Ok([first.result] + rest.result.value))
  }

  /** While a cached session stays valid, any number of calls send nothing
      and all return that session. */
  lemma {:induction false} LiveSessionReused(s: Session, c: Credentials, srv: Server, nows: seq<int>, n: nat)
    requires forall i :: 0 <= i < |nows| ==> nows[i] <= s.validUntil
    ensures var calls := SessionCalls(Some(s), c, srv, nows, n);
      calls.sent == [] && calls.auth == Some(s) &&
      |calls.result.value| == |nows| &&
      forall i :: 0 <= i < |nows| ==> calls.result.value[i] == Ok(s)
  {
    if nows != [] {
      LiveSessionReused(s, c, srv, nows[1..], n);
    }
  }

  /** Starting without a session, a first call whose login succeeds is the only
      one that talks to the server, as long as the later calls come before
      the new session's `validUntil`: exactly one authentication request is
      sent in all, and every call returns the same session (same user id). */
  lemma SingleLogin(c: Credentials, srv: Server, nows: seq<int>, n: nat)
    requires |nows| > 0
    requires srv.tokens(n).Answer? && srv.clients(n + 1).Answer? && srv.users(n + 2).Answer?
    requires forall i :: 1 <= i < |nows| ==> nows[i] <= LoggedIn(srv, nows[0], n).validUntil
    ensures var s := LoggedIn(srv, nows[0], n);
      var calls := SessionCalls(None, c, srv, nows, n);
      |calls.sent| == 3 && calls.sent[0] == TokenRequest(c) &&
      (forall i :: 1 <= i < 3 ==> calls.sent[i].endpoint != Tokens) &&
      calls.auth == Some(s) &&
      forall i :: 0 <= i < |nows| ==> calls.result.value[i] == Ok(s)
  {
    var s := LoggedIn(srv, nows[0], n);
    var first := SessionSpec(None, c, srv, nows[0], n);
    assert first.auth == Some(s) && |first.sent| == 3;
    LiveSessionReused(s, c, srv, nows[1..], n + 3);
  }

  /** A session that registration or the user lookup left partly filled is
      served by the fast path as it is, without its user id, until it expires:
      the chain is not resumed. */
  lemma PartialSessionServed(c: Credentials, srv: Server, now: int, later: int, n: nat)
    requires srv.tokens(n).Answer? && (srv.clients(n + 1).Throw? || srv.users(n + 2).Throw?)
    requires later <= now + srv.tokens(n).value.expiresIn
    ensures var first := SessionSpec(None, c, srv, now, n);
      var second := SessionSpec(first.auth, c, srv, later, n + |first.sent|);
      first.result.Failed? && second.sent == [] &&
      second.result.Ok? && second.result.value.userId == ""
  {
  }

  // ---------------------------------------------------------------------------
  // Command tokens and command dispatch

  /** `getCommandToken`: a session (logging in if needed), then the token
      request for `tokenType` with `pin`, on behalf of the session's user. */
  function CommandTokenSpec(auth: Option<Session>, c: Credentials, srv: Server, now: int, n: nat,
                            tokenType: string, pin: string): (st: Step<string>)
    ensures var s := SessionSpec(auth, c, srv, now, n);
      st.auth == s.auth &&
      (s.result.Failed? ==> st == Step(s.sent, s.auth, Failed(s.result.error))) &&
      (s.result.Ok? ==>
         st.sent == s.sent + [CommandTokenRequest(c, s.result.value, tokenType, pin)] &&
         st.result == Deliver(srv.commandTokens(n + |s.sent|)))
  {
    var s := SessionSpec(auth, c, srv, now, n);
    if s.result.Failed? then Step(s.sent, s.auth, Failed(s.result.error))
    else
      Step(s.sent + [CommandTokenRequest(c, s.result.value, tokenType, pin)], s.auth,
           Deliver(srv.commandTokens(n + |s.sent|)))
  }

  /** The body of a command POST: `{token}` for lock/unlock,
      `{token, serviceParameters}` for the named services. */
  function CommandBody(token: string, parameters: Option<seq<ServiceParameter>>): Body
  {
    match parameters
    case None => CommandToken(token)
    case Some(p) => ServiceCommand(token, p)
  }

  /** The tail of `lockUnlockVehicle`/`sendVehicleCommand`, once the token is
      in hand: with no session held the call resolves to `false` and posts
      nothing; otherwise the command is posted with the session's bearer. */
  function PostCommandSpec(auth: Option<Session>, c: Credentials, srv: Server, n: nat,
                           resource: string, body: Body): (st: Step<CommandOutcome>)
    ensures st.auth == auth
    ensures auth.None? <==> st.result == Ok(NotAuthenticated)
    ensures auth.None? ==> st.sent == []
    ensures auth.Some? ==>
      st.sent == [VehicleRequest(Post, c, auth.value, resource, body)] &&
      (st.result.Ok? <==> srv.commands(n).Answer?)
  {
    if auth.None? then Step([], auth, Ok(NotAuthenticated))
    else
      var r := match srv.commands(n)
        case Answer(_) => Ok(Sent)
        case Throw(t) => Failed(Normalize(t));
      Step([VehicleRequest(Post, c, auth.value, resource, body)], auth, r)
  }

  /** A command end to end: the token for `tokenType`/`pin`, then the POST
      to `resource` carrying that token. */
  function DispatchSpec(auth: Option<Session>, c: Credentials, srv: Server, now: int, n: nat,
                        tokenType: string, pin: string, resource: string,
                        parameters: Option<seq<ServiceParameter>>): (st: Step<CommandOutcome>)
    ensures var s := SessionSpec(auth, c, srv, now, n);
      var t := CommandTokenSpec(auth, c, srv, now, n, tokenType, pin);
      st.auth == s.auth &&
      (t.result.Failed? ==> st == Step(t.sent, t.auth, Failed(t.result.error))) &&
      (t.result.Ok? ==>
         st.sent == s.sent + [CommandTokenRequest(c, s.result.value, tokenType, pin),
                              VehicleRequest(Post, c, s.result.value, resource,
                                             CommandBody(t.result.value, parameters))] &&
         (st.result.Ok? <==> srv.commands(n + |s.sent| + 1).Answer?))
    // run to completion, the chain always holds a session when it posts
    ensures st.result != Ok(NotAuthenticated)
  {
    var t := CommandTokenSpec(auth, c, srv, now, n, tokenType, pin);
    if t.result.Failed? then Step(t.sent, t.auth, Failed(t.result.error))
    else
      var p := PostCommandSpec(t.auth, c, srv, n + |t.sent|, resource,
                               CommandBody(t.result.value, parameters));
      Step(t.sent + p.sent, p.auth, p.result)
  }

  /** A command from a client holding no session, with every exchange
      answered: exactly the three login requests, the token request and the
      POST carrying the granted token, in that order; the new session stays
      cached, and the command is sent exactly when the POST is answered. */
  lemma DispatchFromNoSession(c: Credentials, srv: Server, now: int, n: nat,
                              tokenType: string, pin: string, resource: string,
                              parameters: Option<seq<ServiceParameter>>)
    requires srv.tokens(n).Answer? && srv.clients(n + 1).Answer? && srv.users(n + 2).Answer?
    requires srv.commandTokens(n + 3).Answer?
    ensures var started := NewSession(srv.tokens(n).value, now);
      var s := LoggedIn(srv, now, n);
      var st := DispatchSpec(None, c, srv, now, n, tokenType, pin, resource, parameters);
      st.sent == [TokenRequest(c),
                  RegistrationRequest(c, started),
                  UserRequest(c, started.(isDeviceRegistered := srv.clients(n + 1).value == 204)),
                  CommandTokenRequest(c, s, tokenType, pin),
                  VehicleRequest(Post, c, s, resource, CommandBody(srv.commandTokens(n + 3).value, parameters))] &&
      st.auth == Some(s) &&
      (st.result == Ok(Sent) <==> srv.commands(n + 4).Answer?)
  {
    var session := SessionSpec(None, c, srv, now, n);
    assert |session.sent| == 3 && session.result == Ok(LoggedIn(srv, now, n));
    var t := CommandTokenSpec(None, c, srv, now, n, tokenType, pin);
    assert t.result == Ok(srv.commandTokens(n + 3).value);
  }

  /** `getLastFourOfVin`: `vin.slice(vin.length - 4)`. A VIN of four or more
      characters gives its last four; a three-character VIN gives only its last
      character (the negative start is counted back from the end); a shorter
      one is returned whole. */
  function LastFourOfVin(vin: string): string
  {
    Slice(vin, |vin| - 4)
  }

  /** The three cases of the PIN the named services use. */
  lemma LastFourOfVinCases(vin: string)
    ensures var pin := LastFourOfVin(vin);
      && (|vin| >= 4 ==> |pin| == 4 && pin == vin[|vin| - 4..])
      && (|vin| == 3 ==> pin == vin[2..])
      && (|vin| <= 2 ==> pin == vin)
  {
  }

  /** The four commands of the named services. */
  datatype VehicleCommand =
    | StartPreconditioning(targetTemperature: real)
    | StopPreconditioning
    | StartCharging
    | StopCharging

  /** The dispatch table: service, token type and service parameters of each
      command (the temperature is sent in tenths of a degree). */
  function ServiceOf(cmd: VehicleCommand): (service: string)
    ensures service == "preconditioning" <==> cmd.StartPreconditioning? || cmd.StopPreconditioning?
    ensures service == "chargeProfile" <==> cmd.StartCharging? || cmd.StopCharging?
  {
    if cmd.StartPreconditioning? || cmd.StopPreconditioning? then "preconditioning" else "chargeProfile"
  }

  function TokenTypeOf(cmd: VehicleCommand): (t: string)
    ensures t == "ECC" <==> ServiceOf(cmd) == "preconditioning"
    ensures t == "CP" <==> ServiceOf(cmd) == "chargeProfile"
  {
    if cmd.StartPreconditioning? || cmd.StopPreconditioning? then "ECC" else "CP"
  }

  /** A named-service command end to end, with the VIN-derived PIN. */
  function CommandSpec(auth: Option<Session>, c: Credentials, srv: Server, now: int, n: nat,
                       cmd: VehicleCommand): (st: Step<CommandOutcome>)
    ensures st.result != Ok(NotAuthenticated)
  {
    DispatchSpec(auth, c, srv, now, n, TokenTypeOf(cmd), LastFourOfVin(c.vin), ServiceOf(cmd),
                 Some(ParametersOf(cmd)))
  }

  /** Once the token is granted, a named-service command posts to its
      service with the granted token and a parameter list the server reads
      back as that very command. */
  lemma CommandWireForm(auth: Option<Session>, c: Credentials, srv: Server, now: int, n: nat,
                        cmd: VehicleCommand)
    ensures var s := SessionSpec(auth, c, srv, now, n);
      var t := CommandTokenSpec(auth, c, srv, now, n, TokenTypeOf(cmd), LastFourOfVin(c.vin));
      var st := CommandSpec(auth, c, srv, now, n, cmd);
      t.result.Ok? ==>
        |st.sent| == |s.sent| + 2 &&
        st.sent[|s.sent|] == CommandTokenRequest(c, s.result.value, TokenTypeOf(cmd), LastFourOfVin(c.vin)) &&
        var post := st.sent[|s.sent| + 1];
        post.endpoint == Vehicle(c.vin, ServiceOf(cmd)) && post.body.ServiceCommand? &&
        post.body.token == t.result.value &&
        ReadCommand(post.endpoint.resource, post.body.serviceParameters) == Some(cmd)
  {
    DispatchTableRoundTrip(cmd);
  }

  function ParametersOf(cmd: VehicleCommand): (p: seq<ServiceParameter>)
    ensures |p| == (if cmd.StartPreconditioning? then 2 else 1)
    ensures p[0].key == (if ServiceOf(cmd) == "preconditioning" then "PRECONDITIONING" else "CHARGE_NOW_SETTING")
    ensures cmd.StartPreconditioning? ==>
      p[0].value == Text("START") && p[1] == ServiceParameter("TARGET_TEMPERATURE_CELSIUS",
                                                              Number(cmd.targetTemperature * 10.0))
  {
    match cmd
    case StartPreconditioning(t) =>
      [ServiceParameter("PRECONDITIONING", Text("START")),
       ServiceParameter("TARGET_TEMPERATURE_CELSIUS", Number(t * 10.0))]
    case StopPreconditioning => [ServiceParameter("PRECONDITIONING", Text("STOP"))]
    case StartCharging => [ServiceParameter("CHARGE_NOW_SETTING", Text("FORCE_ON"))]
    case StopCharging => [ServiceParameter("CHARGE_NOW_SETTING", Text("FORCE_OFF"))]
  }

  /** How the server reads a command back from its service name and
      parameters (the temperature divided back into degrees). */
  function ReadCommand(service: string, parameters: seq<ServiceParameter>): Option<VehicleCommand>
  {
    if service == "preconditioning" && |parameters| == 2
       && parameters[0] == ServiceParameter("PRECONDITIONING", Text("START"))
       && parameters[1].key == "TARGET_TEMPERATURE_CELSIUS" && parameters[1].value.Number?
    then Some(StartPreconditioning(parameters[1].value.number / 10.0))
    else if service == "preconditioning" && parameters == [ServiceParameter("PRECONDITIONING", Text("STOP"))]
    then Some(StopPreconditioning)
    else if service == "chargeProfile" && parameters == [ServiceParameter("CHARGE_NOW_SETTING", Text("FORCE_ON"))]
    then Some(StartCharging)
    else if service == "chargeProfile" && parameters == [ServiceParameter("CHARGE_NOW_SETTING", Text("FORCE_OFF"))]
    then Some(StopCharging)
    else None
  }

  /** The wire form of every command reads back as that command: no two
      commands share a service and parameter list, and the temperature
      survives the conversion to tenths. */
  lemma DispatchTableRoundTrip(cmd: VehicleCommand)
    ensures ReadCommand(ServiceOf(cmd), ParametersOf(cmd)) == Some(cmd)
  {
    match cmd
    case StartPreconditioning(t) =>
      assert ParametersOf(cmd)[1].value.number / 10.0 == t;
    case _ =>
  }

  // ---------------------------------------------------------------------------
  // The vehicle status record

  /** The result of writing the pairs into `m` one after the other. */
  function Overlay(m: map<string, string>, pairs: seq<KeyValue>): (r: map<string, string>)
    ensures r.Keys == m.Keys + (set kv | kv in pairs :: kv.key)
    decreases |pairs|
  {
    if pairs == [] then m
    else
      var last := pairs[|pairs| - 1];
      assert pairs == pairs[..|pairs| - 1] + [last];
      assert (set kv | kv in pairs :: kv.key) == (set kv | kv in pairs[..|pairs| - 1] :: kv.key) + {last.key};
      Overlay(m, pairs[..|pairs| - 1])[last.key := last.value]
  }

  /** The value of the last pair with key `k`, searched from the end; an
      independent reading of "last write wins". */
  function LastValue(pairs: seq<KeyValue>, k: string): Option<string>
  {
    if pairs == [] then None
    else if pairs[|pairs| - 1].key == k then Some(pairs[|pairs| - 1].value)
    else LastValue(pairs[..|pairs| - 1], k)
  }

  /** What a status getter reads after a query: the value of the last pair
      with that key in the response, or, when the response has none, whatever
      the template held before. */
  lemma {:induction false} StatusAfterOverlay(m: map<string, string>, pairs: seq<KeyValue>, k: string)
    ensures StatusValue(Overlay(m, pairs), k) ==
            (if LastValue(pairs, k).Some? then LastValue(pairs, k) else StatusValue(m, k))
  {
    if pairs != [] {
      StatusAfterOverlay(m, pairs[..|pairs| - 1], k);
    }
  }

  /** The value `v` of the template for a key the response does not mention
      is kept. */
  lemma {:induction false} OverlayKeepsOthers(m: map<string, string>, pairs: seq<KeyValue>, k: string)
    requires forall i :: 0 <= i < |pairs| ==> pairs[i].key != k
    ensures k in Overlay(m, pairs) <==> k in m
    ensures k in m ==> Overlay(m, pairs)[k] == m[k]
  {
    if pairs != [] {
      OverlayKeepsOthers(m, pairs[..|pairs| - 1], k);
    }
  }

  /** A key the response mentions ends up holding the value of the last pair
      with that key. */
  lemma {:induction false} OverlayLastWins(m: map<string, string>, pairs: seq<KeyValue>, i: nat)
    requires i < |pairs|
    requires forall j :: i < j < |pairs| ==> pairs[j].key != pairs[i].key
    ensures pairs[i].key in Overlay(m, pairs) && Overlay(m, pairs)[pairs[i].key] == pairs[i].value
  {
    var last := |pairs| - 1;
    if i < last {
      OverlayLastWins(m, pairs[..last], i);
    }
  }

  /** Because the template is written in place, a second query sees the first
      one's values for every key the second response does not mention: the
      all-default template is what the first query starts from only. */
  lemma StaleValueSurvives(template: map<string, string>, first: seq<KeyValue>,
                           second: seq<KeyValue>, i: nat)
    requires i < |first|
    requires forall j :: i < j < |first| ==> first[j].key != first[i].key
    requires forall j :: 0 <= j < |second| ==> second[j].key != first[i].key
    ensures var k := first[i].key;
      k in Overlay(Overlay(template, first), second) &&
      Overlay(Overlay(template, first), second)[k] == first[i].value
  {
    OverlayLastWins(template, first, i);
    OverlayKeepsOthers(Overlay(template, first), second, first[i].key);
  }

  /** `vehicleStatus.KEY`: `undefined` when the record has no such key. */
  function StatusValue(status: map<string, string>, key: string): (v: Option<string>)
    ensures v.Some? <==> key in status
    ensures v.Some? ==> v.value == status[key]
  {
    if key in status then Some(status[key]) else None
  }

  /** `getVehicleInformation(name)`: a session, then a GET of the vehicle's
      `name` resource. */
  function InformationSpec<T>(auth: Option<Session>, c: Credentials, srv: Server, now: int, n: nat,
                              name: string, reply: nat -> Reply<T>): (st: Step<T>)
    ensures var s := SessionSpec(auth, c, srv, now, n);
      st.auth == s.auth &&
      (s.result.Failed? ==> st.sent == s.sent && st.result == Failed(s.result.error)) &&
      (s.result.Ok? ==>
         st.sent == s.sent + [VehicleRequest(Get, c, s.result.value, name, Empty)] &&
         st.result == Deliver(reply(n + |s.sent|)))
  {
    var s := SessionSpec(auth, c, srv, now, n);
    if s.result.Failed? then Step(s.sent, s.auth, Failed(s.result.error))
    else Step(s.sent + [VehicleRequest(Get, c, s.result.value, name, Empty)], s.auth,
              Deliver(reply(n + |s.sent|)))
  }

  // ---------------------------------------------------------------------------
  // The objects

  /** A status record object; the module-wide `EmptyVehicleStatus` template is
      one of these, shared by every query. */
  class StatusRecord {
    var entries: map<string, string>

    constructor(entries: map<string, string>)
      ensures this.entries == entries
    {
      this.entries := entries;
    }
  }

  /** `JaguarLandRoverRemoteApi`. */
  class RemoteApi {
    const credentials: Credentials
    const server: Server
    /** The shared `EmptyVehicleStatus` template. */
    const emptyStatus: StatusRecord
    var auth: Option<Session>
    /** Every request sent so far, in order. */
    var requests: seq<Request>

    constructor(credentials: Credentials, server: Server, emptyStatus: StatusRecord)
      ensures this.credentials == credentials && this.server == server
      ensures this.emptyStatus == emptyStatus
      ensures auth.None? && requests == []
    {
      this.credentials := credentials;
      this.server := server;
      this.emptyStatus := emptyStatus;
      auth := None;
      requests := [];
    }

    /** `sendRequest`: the request joins the log; the answer is delivered, a
        thrown string normalised into an `Error`. */
    method SendRequest<T>(request: Request, reply: nat -> Reply<T>) returns (r: Result<T>)
      modifies this`requests
      ensures requests == old(requests) + [request]
      ensures r == Deliver(reply(|old(requests)|))
    {
      match reply(|requests|) {
        case Answer(v) => r := Ok(v);
        case Throw(t) =>
          if t.ThrownString? {
            r := Failed(Error("Error", t.text));
          } else {
            r := Failed(t.error);
          }
      }
      requests := requests + [request];
    }

    method InvalidateSessionIfExpired(now: int)
      modifies this`auth
      ensures auth == InvalidateIfExpired(old(auth), now)
    {
      if auth.Some? {
        if auth.value.validUntil < now {
          auth := None;
        }
      }
    }

    method Authenticate(now: int) returns (r: Result<Session>)
      modifies this`requests
      ensures var st := AuthenticateSpec(auth, credentials, server, now, |old(requests)|);
        requests == old(requests) + st.sent && r == st.result
    {
      if auth.Some? {
        return Ok(auth.value);
      }
      var grant := SendRequest(TokenRequest(credentials), server.tokens);
      if grant.Failed? {
        return Failed(grant.error);
      }
      r := Ok(NewSession(grant.value, now));
    }

    method RegisterDevice() returns (r: Result<bool>)
      modifies this`requests
      ensures var st := RegisterSpec(auth, credentials, server, |old(requests)|);
        requests == old(requests) + st.sent && r == st.result
    {
      if auth.Some? && auth.value.isDeviceRegistered {
        return Ok(true);
      }
      if auth.None? {
        return Ok(false);
      }
      var response := SendRequest(RegistrationRequest(credentials, auth.value), server.clients);
      if response.Failed? {
        return Failed(response.error);
      }
      r := Ok(response.value == 204);
    }

    method GetUserId() returns (r: Result<string>)
      modifies this`requests
      ensures var st := UserIdSpec(auth, credentials, server, |old(requests)|);
        requests == old(requests) + st.sent && r == st.result
    {
      if auth.Some? && auth.value.userId != "" {
        return Ok(auth.value.userId);
      }
      if auth.None? {
        return Ok("");
      }
      r := SendRequest(UserRequest(credentials, auth.value), server.users);
    }

    method GetSession(now: int) returns (r: Result<Session>)
      modifies this
      ensures var st := SessionSpec(old(auth), credentials, server, now, |old(requests)|);
        requests == old(requests) + st.sent && auth == st.auth && r == st.result
    {
      InvalidateSessionIfExpired(now);
      if auth.Some? {
        return Ok(auth.value);
      }
      var authenticated := Authenticate(now);
      if authenticated.Failed? {
        return Failed(authenticated.error);
      }
      auth := Some(authenticated.value);
      var registered := RegisterDevice();
      if registered.Failed? {
        return Failed(registered.error);
      }
      auth := Some(auth.value.(isDeviceRegistered := registered.value));
      var userId := GetUserId();
      if userId.Failed? {
        return Failed(userId.error);
      }
      auth := Some(auth.value.(userId := userId.value));
      r := Ok(auth.value);
    }

    method GetCommandToken(tokenType: string, pin: string, now: int) returns (r: Result<string>)
      modifies this
      ensures var st := CommandTokenSpec(old(auth), credentials, server, now, |old(requests)|, tokenType, pin);
        requests == old(requests) + st.sent && auth == st.auth && r == st.result
    {
      var session := GetSession(now);
      if session.Failed? {
        return Failed(session.error);
      }
      r := SendRequest(CommandTokenRequest(credentials, session.value, tokenType, pin),
                       server.commandTokens);
    }

    /** The common tail of the two command shapes. */
    method PostCommand(resource: string, body: Body) returns (r: Result<CommandOutcome>)
      modifies this`requests
      ensures var st := PostCommandSpec(auth, credentials, server, |old(requests)|, resource, body);
        requests == old(requests) + st.sent && r == st.result
    {
      if auth.None? {
        return Ok(NotAuthenticated);
      }
      var response := SendRequest(VehicleRequest(Post, credentials, auth.value, resource, body),
                                  server.commands);
      if response.Failed? {
        return Failed(response.error);
      }
      r := Ok(Sent);
    }

    method LockUnlockVehicle(operation: LockOperation, now: int) returns (r: Result<CommandOutcome>)
      modifies this
      ensures var st := DispatchSpec(old(auth), credentials, server, now, |old(requests)|,
                                     operation.tokenType, credentials.pin, operation.name, None);
        requests == old(requests) + st.sent && auth == st.auth && r == st.result
    {
      var token := GetCommandToken(operation.tokenType, credentials.pin, now);
      if token.Failed? {
        return Failed(token.error);
      }
      r := PostCommand(operation.name, CommandToken(token.value));
    }

    method SendVehicleCommand(service: string, tokenType: string,
                              serviceParameters: seq<ServiceParameter>, now: int)
      returns (r: Result<CommandOutcome>)
      modifies this
      ensures var st := DispatchSpec(old(auth), credentials, server, now, |old(requests)|,
                                     tokenType, LastFourOfVin(credentials.vin), service,
                                     Some(serviceParameters));
        requests == old(requests) + st.sent && auth == st.auth && r == st.result
    {
      var pin := LastFourOfVin(credentials.vin);
      var token := GetCommandToken(tokenType, pin, now);
      if token.Failed? {
        return Failed(token.error);
      }
      r := PostCommand(service, ServiceCommand(token.value, serviceParameters));

    }

    method GetVehicleInformation<T>(name: string, reply: nat -> Reply<T>, now: int) returns (r: Result<T>)
      modifies this
      ensures var st := InformationSpec(old(auth), credentials, server, now, |old(requests)|, name, reply);
        requests == old(requests) + st.sent && auth == st.auth && r == st.result
    {
      var session := GetSession(now);
      if session.Failed? {
        return Failed(session.error);
      }
      r := SendRequest(VehicleRequest(Get, credentials, session.value, name, Empty), reply);
    }

    method GetVehicleAttributes(now: int) returns (r: Result<string>)
      modifies this
      ensures var st := InformationSpec(old(auth), credentials, server, now, |old(requests)|,
                                        "attributes", server.attributes);
        requests == old(requests) + st.sent && auth == st.auth && r == st.result
    {
      r := GetVehicleInformation("attributes", server.attributes, now);
    }

    /** `getVehicleStatus`: the pairs are written one by one into the shared
        template, which is itself the result. */
    method GetVehicleStatus(now: int) returns (r: Result<StatusRecord>)
      modifies this, emptyStatus
      ensures var st := InformationSpec(old(auth), credentials, server, now, |old(requests)|,
                                        "status", server.status);
        requests == old(requests) + st.sent && auth == st.auth &&
        (st.result.Failed? ==> r == Failed(st.result.error) &&
                               emptyStatus.entries == old(emptyStatus.entries)) &&
        (st.result.Ok? ==> r == Ok(emptyStatus) &&
                           emptyStatus.entries == Overlay(old(emptyStatus.entries), st.result.value))
    {
      var response := GetVehicleInformation("status", server.status, now);
      if response.Failed? {
        return Failed(response.error);
      }
      var pairs := response.value;
      var i := 0;
      while i < |pairs|
        modifies emptyStatus
        invariant 0 <= i <= |pairs|
        invariant emptyStatus.entries == Overlay(old(emptyStatus.entries), pairs[..i])
      {
        assert pairs[..i + 1][..i] == pairs[..i];
        emptyStatus.entries := emptyStatus.entries[pairs[i].key := pairs[i].value];
        i := i + 1;
      }
      assert pairs[..i] == pairs;
      r := Ok(emptyStatus);
    }

    method LockVehicle(now: int) returns (r: Result<CommandOutcome>)
      modifies this
      ensures var st := DispatchSpec(old(auth), credentials, server, now, |old(requests)|,
                                     "RDL", credentials.pin, "lock", None);
        requests == old(requests) + st.sent && auth == st.auth && r == st.result
    {
      r := LockUnlockVehicle(LockVehicleOperation, now);
    }

    method UnlockVehicle(now: int) returns (r: Result<CommandOutcome>)
      modifies this
      ensures var st := DispatchSpec(old(auth), credentials, server, now, |old(requests)|,
                                     "RDU", credentials.pin, "unlock", None);
        requests == old(requests) + st.sent && auth == st.auth && r == st.result
    {
      r := LockUnlockVehicle(UnlockVehicleOperation, now);
    }

    /** One of the four named-service commands, through the dispatch table. */
    method SendCommand(cmd: VehicleCommand, now: int) returns (r: Result<CommandOutcome>)
      modifies this
      ensures var st := CommandSpec(old(auth), credentials, server, now, |old(requests)|, cmd);
        requests == old(requests) + st.sent && auth == st.auth && r == st.result
    {
      r := SendVehicleCommand(ServiceOf(cmd), TokenTypeOf(cmd), ParametersOf(cmd), now);
    }

    method StartPreconditioning(targetTemperature: real, now: int) returns (r: Result<CommandOutcome>)
      modifies this
      ensures var st := DispatchSpec(old(auth), credentials, server, now, |old(requests)|,
                                     "ECC", LastFourOfVin(credentials.vin), "preconditioning",
                                     Some([ServiceParameter("PRECONDITIONING", Text("START")),
                                           ServiceParameter("TARGET_TEMPERATURE_CELSIUS",
                                                            Number(targetTemperature * 10.0))]));
        requests == old(requests) + st.sent && auth == st.auth && r == st.result
      ensures var st := CommandSpec(old(auth), credentials, server, now, |old(requests)|,
                                    VehicleCommand.StartPreconditioning(targetTemperature));
        requests == old(requests) + st.sent && auth == st.auth && r == st.result
    {
      r := SendVehicleCommand("preconditioning", "ECC",
                              [ServiceParameter("PRECONDITIONING", Text("START")),
                               ServiceParameter("TARGET_TEMPERATURE_CELSIUS", Number(targetTemperature * 10.0))],
                              now);
    }

    method StopPreconditioning(now: int) returns (r: Result<CommandOutcome>)
      modifies this
      ensures var st := DispatchSpec(old(auth), credentials, server, now, |old(requests)|,
                                     "ECC", LastFourOfVin(credentials.vin), "preconditioning",
                                     Some([ServiceParameter("PRECONDITIONING", Text("STOP"))]));
        requests == old(requests) + st.sent && auth == st.auth && r == st.result
      ensures var st := CommandSpec(old(auth), credentials, server, now, |old(requests)|,
                                    VehicleCommand.StopPreconditioning);
        requests == old(requests) + st.sent && auth == st.auth && r == st.result
    {
      r := SendVehicleCommand("preconditioning", "ECC",
                              [ServiceParameter("PRECONDITIONING", Text("STOP"))], now);
    }

    method StartCharging(now: int) returns (r: Result<CommandOutcome>)
      modifies this
      ensures var st := DispatchSpec(old(auth), credentials, server, now, |old(requests)|,
                                     "CP", LastFourOfVin(credentials.vin), "chargeProfile",
                                     Some([ServiceParameter("CHARGE_NOW_SETTING", Text("FORCE_ON"))]));
        requests == old(requests) + st.sent && auth == st.auth && r == st.result
      ensures var st := CommandSpec(old(auth), credentials, server, now, |old(requests)|,
                                    VehicleCommand.StartCharging);
        requests == old(requests) + st.sent && auth == st.auth && r == st.result
    {
      r := SendVehicleCommand("chargeProfile", "CP",
                              [ServiceParameter("CHARGE_NOW_SETTING", Text("FORCE_ON"))], now);
    }

    method StopCharging(now: int) returns (r: Result<CommandOutcome>)
      modifies this
      ensures var st := DispatchSpec(old(auth), credentials, server, now, |old(requests)|,
                                     "CP", LastFourOfVin(credentials.vin), "chargeProfile",
                                     Some([ServiceParameter("CHARGE_NOW_SETTING", Text("FORCE_OFF"))]));
        requests == old(requests) + st.sent && auth == st.auth && r == st.result
      ensures var st := CommandSpec(old(auth), credentials, server, now, |old(requests)|,
                                    VehicleCommand.StopCharging);
        requests == old(requests) + st.sent && auth == st.auth && r == st.result
    {
      r := SendVehicleCommand("chargeProfile", "CP",
                              [ServiceParameter("CHARGE_NOW_SETTING", Text("FORCE_OFF"))], now);
    }
  }
}
