/** Linked applications: refresh families, device requests and browser
    authorizations as tables, and every transaction on them as one step. */
module LinkingState {
  import opened Sequences

  type Id = nat
  type Token = nat
  type Time = int

  const ACCESS_LIFETIME := 15 * 60
  const REFRESH_IDLE_LIFETIME := 90 * 24 * 3600
  const REFRESH_REUSE_WINDOW := 90 * 24 * 3600
  const REQUEST_LIFETIME := 10 * 60
  const AUTHORIZATION_LIFETIME := 5 * 60
  const POLL_INTERVAL := 5
  const SLOW_DOWN := 5
  const MAX_POLL_INTERVAL := 60

  /** `source` is the request or authorization it was granted through, and `latest`
      the last refresh token ever issued to it. */
  datatype Instance = Instance(
    user: Id, source: Source, refresh: Option<Token>, linkedAt: Time, lastSeen: Option<Time>, revoked: bool, latest: Token)

  datatype Access = Access(instance: Id, expires: Time)

  /** A refresh token that was rotated away, and until when its reuse is noticed. */
  datatype Used = Used(instance: Id, until: Time)

  datatype Request = Request(
    reviewedBy: Option<Id>, approvedBy: Option<Id>, deniedBy: Option<Id>, redeemed: bool,
    lastPolled: Option<Time>, interval: int, expires: Time)

  /** `challenge` is what the one verifier that fits it hashes to. */
  datatype Authorization = Authorization(
    redirect: string, challenge: Id, reviewedBy: Option<Id>, approvedBy: Option<Id>,
    deniedBy: Option<Id>, code: Option<Token>, redeemed: bool, expires: Time)

  datatype Source = Device(id: Id) | Browser(id: Id)

  /** `minted` holds every token ever made, `asked` every request and authorization
      ever started, and `grants` each grant ever given. */
  datatype State = State(
    now: Time, instances: map<Id, Instance>, access: map<Token, Access>, history: map<Token, Used>,
    requests: map<Id, Request>, authorizations: map<Id, Authorization>, minted: set<Token>,
    asked: set<Source>, grants: seq<Source>)

  datatype Pair = Pair(refresh: Token, access: Token)

  predicate Minted(s: State, pair: Pair) {
    pair.refresh !in s.minted && pair.access !in s.minted && pair.refresh != pair.access
  }

  // ---- refreshing ---------------------------------------------------------

  datatype RefreshReply = Rotated | NotACredential | Reuse

  predicate Accepts(s: State, token: Token, i: Id) {
    i in s.instances && s.instances[i].refresh == Some(token) && !s.instances[i].revoked
  }

  predicate Idle(s: State, i: Id)
    requires i in s.instances
  {
    var linked := s.instances[i].linkedAt;
    var seen := s.instances[i].lastSeen;
    var last := if seen.Some? && seen.value > linked then seen.value else linked;
    s.now > last + REFRESH_IDLE_LIFETIME
  }

  function Revoked(s: State, i: Id): State {
    if i in s.instances && !s.instances[i].revoked then
      s.(instances := s.instances[i := s.instances[i].(refresh := None, revoked := true)],
         access := map t | t in s.access && s.access[t].instance != i :: s.access[t])
    else s
  }

  function Rotate(s: State, token: Token, i: Id, pair: Pair): State
    requires i in s.instances
  {
    s.(instances := s.instances[i := s.instances[i].(refresh := Some(pair.refresh), lastSeen := Some(s.now),
                                                    latest := pair.refresh)],
       history := s.history[token := Used(i, s.now + REFRESH_REUSE_WINDOW)],
       access := s.access[pair.access := Access(i, s.now + ACCESS_LIFETIME)],
       minted := s.minted + {pair.refresh, pair.access})
  }

  /** `holder` is the instance the token belongs to now, if it belongs to one. */
  function Refreshed(s: State, token: Token, holder: Option<Id>, pair: Pair): (RefreshReply, State)
    requires holder.Some? ==> Accepts(s, token, holder.value)
  {
    match holder
    case Some(i) =>
      if Idle(s, i) then (NotACredential, Revoked(s, i)) else (Rotated, Rotate(s, token, i, pair))
    case None =>
      if token in s.history && s.history[token].until > s.now && s.history[token].instance in s.instances
      then (Reuse, Revoked(s, s.history[token].instance))
      else (NotACredential, s)
  }

  /** The instance an access token authenticates now. */
  function Authenticates(s: State, token: Token): Option<Id> {
    if token in s.access && s.access[token].expires > s.now && s.access[token].instance in s.instances
       && !s.instances[s.access[token].instance].revoked
    then Some(s.access[token].instance)
    else None
  }

  function Touched(s: State, i: Id): State
    requires i in s.instances
  {
    s.(instances := s.instances[i := s.instances[i].(lastSeen := Some(s.now))])
  }

  function Granted(s: State, source: Source, user: Id, instance: Id, pair: Pair): State {
    s.(instances := s.instances[instance := Instance(user, source, Some(pair.refresh), s.now, None, false, pair.refresh)],
       access := s.access[pair.access := Access(instance, s.now + ACCESS_LIFETIME)],
       minted := s.minted + {pair.refresh, pair.access},
       grants := s.grants + [source])
  }

  // ---- devices ------------------------------------------------------------

  predicate Reviewable(request: Request, user: Id, now: Time) {
    && (request.reviewedBy == None || request.reviewedBy == Some(user))
    && request.expires > now && request.approvedBy.None? && request.deniedBy.None? && !request.redeemed
  }

  datatype PollReply = NoRequest | Expired | Denied | SlowDown(interval: int) | Waiting | Grant | Broken

  predicate TooSoon(request: Request, now: Time) {
    request.lastPolled.Some? && now - request.lastPolled.value < request.interval
  }

  function Slower(interval: int): int {
    if interval + SLOW_DOWN < MAX_POLL_INTERVAL then interval + SLOW_DOWN else MAX_POLL_INTERVAL
  }

  function Polled(request: Request, now: Time): Request {
    request.(lastPolled := Some(now), interval := if TooSoon(request, now) then Slower(request.interval) else request.interval)
  }

  function Poll(s: State, id: Id, instance: Id, pair: Pair): (PollReply, State) {
    if id !in s.requests || s.requests[id].redeemed then (NoRequest, s)
    else
      var request := s.requests[id];
      if s.now > request.expires then (Expired, s)
      else if request.deniedBy.Some? then (Denied, s)
      else if request.expires <= s.now then (Broken, s)
      else
        var polled := Polled(request, s.now);
        var recorded := s.(requests := s.requests[id := polled]);
        if TooSoon(request, s.now) then (SlowDown(polled.interval), recorded)
        else if request.approvedBy.None? then (Waiting, recorded)
        else
          (Grant, Granted(recorded.(requests := recorded.requests[id := polled.(redeemed := true)]),
                          Device(id), request.approvedBy.value, instance, pair))
  }

  // ---- browsers -----------------------------------------------------------

  predicate ReviewableHere(authorization: Authorization, user: Id, now: Time) {
    && (authorization.reviewedBy == None || authorization.reviewedBy == Some(user))
    && authorization.expires > now && authorization.approvedBy.None? && authorization.deniedBy.None?
    && !authorization.redeemed
  }

  predicate Redeemable(s: State, id: Id, code: Token, verifier: Id, redirect: string) {
    && id in s.authorizations && s.authorizations[id].code == Some(code)
    && !s.authorizations[id].redeemed && s.authorizations[id].deniedBy.None?
    && s.authorizations[id].approvedBy.Some? && s.now < s.authorizations[id].expires
    && s.authorizations[id].redirect == redirect && s.authorizations[id].challenge == verifier
  }

  // ---- the steps ----------------------------------------------------------

  datatype Event =
    | Start(id: Id)
    | Approve(id: Id, user: Id)
    | Deny(id: Id, user: Id)
    | PollDevice(id: Id, instance: Id, pair: Pair)
    | StartBrowser(id: Id, redirect: string, challenge: Id)
    | ApproveBrowser(id: Id, user: Id, code: Token)
    | DenyBrowser(id: Id, user: Id)
    | Exchange(id: Id, code: Token, verifier: Id, redirect: string, instance: Id, pair: Pair)
    | Refresh(token: Token, holder: Option<Id>, pair: Pair)
    | Authenticate(token: Token)
    | Revoke(instance: Id)
    | ForgetUsed(tokens: set<Token>)
    | ForgetAccess(tokens: set<Token>)
    | ForgetRequests(ids: set<Id>)
    | ForgetAuthorizations(ids: set<Id>)
    | Tick(to: Time)

  /** New ids and tokens are fresh, and a refresh token is looked up in full. */
  ghost predicate Allowed(s: State, e: Event) {
    match e
    case Start(id) => id !in s.requests && Device(id) !in s.asked
    case Approve(id, user) => id in s.requests && Reviewable(s.requests[id], user, s.now)
    case Deny(id, user) => id in s.requests && Reviewable(s.requests[id], user, s.now)
    case PollDevice(id, instance, pair) => instance !in s.instances && Minted(s, pair)
    case StartBrowser(id, redirect, challenge) => id !in s.authorizations && Browser(id) !in s.asked
    case ApproveBrowser(id, user, code) =>
      id in s.authorizations && ReviewableHere(s.authorizations[id], user, s.now) && code !in s.minted
    case DenyBrowser(id, user) => id in s.authorizations && ReviewableHere(s.authorizations[id], user, s.now)
    case Exchange(id, code, verifier, redirect, instance, pair) =>
      Redeemable(s, id, code, verifier, redirect) && instance !in s.instances && Minted(s, pair)
    case Refresh(token, holder, pair) =>
      && Minted(s, pair)
      && (match holder case Some(i) => Accepts(s, token, i) case None => forall i :: !Accepts(s, token, i))
    case Authenticate(token) => Authenticates(s, token).Some?
    case Revoke(instance) => true
    case ForgetUsed(tokens) => forall t | t in tokens && t in s.history :: s.history[t].until <= s.now
    case ForgetAccess(tokens) => forall t | t in tokens && t in s.access :: s.access[t].expires <= s.now
    case ForgetRequests(ids) => forall r | r in ids && r in s.requests :: s.requests[r].expires <= s.now
    case ForgetAuthorizations(ids) => forall a | a in ids && a in s.authorizations :: s.authorizations[a].expires <= s.now
    case Tick(to) => s.now <= to
  }

  ghost function Effect(s: State, e: Event): State
    requires Allowed(s, e)
  {
    match e
    case Start(id) =>
      s.(requests := s.requests[id := Request(None, None, None, false, None, POLL_INTERVAL, s.now + REQUEST_LIFETIME)],
         asked := s.asked + {Device(id)})
    case Approve(id, user) =>
      s.(requests := s.requests[id := s.requests[id].(reviewedBy := Some(user), approvedBy := Some(user))])
    case Deny(id, user) =>
      s.(requests := s.requests[id := s.requests[id].(reviewedBy := Some(user), deniedBy := Some(user))])
    case PollDevice(id, instance, pair) => Poll(s, id, instance, pair).1
    case StartBrowser(id, redirect, challenge) =>
      s.(authorizations := s.authorizations[id :=
           Authorization(redirect, challenge, None, None, None, None, false, s.now + AUTHORIZATION_LIFETIME)],
         asked := s.asked + {Browser(id)})
    case ApproveBrowser(id, user, code) =>
      s.(authorizations := s.authorizations[id :=
           s.authorizations[id].(reviewedBy := Some(user), approvedBy := Some(user), code := Some(code))],
         minted := s.minted + {code})
    case DenyBrowser(id, user) =>
      s.(authorizations := s.authorizations[id :=
           s.authorizations[id].(reviewedBy := Some(user), deniedBy := Some(user))])
    case Exchange(id, code, verifier, redirect, instance, pair) =>
      Granted(s.(authorizations := s.authorizations[id := s.authorizations[id].(redeemed := true)]),
              Browser(id), s.authorizations[id].approvedBy.value, instance, pair)
    case Refresh(token, holder, pair) => Refreshed(s, token, holder, pair).1
    case Authenticate(token) => Touched(s, Authenticates(s, token).value)
    case Revoke(instance) => Revoked(s, instance)
    case ForgetUsed(tokens) => s.(history := s.history - tokens)
    case ForgetAccess(tokens) => s.(access := s.access - tokens)
    case ForgetRequests(ids) => s.(requests := s.requests - ids)
    case ForgetAuthorizations(ids) => s.(authorizations := s.authorizations - ids)
    case Tick(to) => s.(now := to)
  }

  ghost function Apply(s: State, e: Event): State {
    if Allowed(s, e) then Effect(s, e) else s
  }

  ghost function Run(s: State, events: seq<Event>): State
    decreases |events|
  {
    if events == [] then s else Run(Apply(s, events[0]), events[1..])
  }
}
