/** What every run of the linking protocols keeps (sections 3.4 and 3.5 of
    RFC 8628, section 4.6 of RFC 7636, section 4.14.2 of RFC 9700). */
module LinkingLaws {
  import opened Sequences
  import opened LinkingState

  // ---- refresh families ---------------------------------------------------

  ghost predicate InstanceOk(s: State, i: Id)
    requires i in s.instances
  {
    var instance := s.instances[i];
    && instance.latest in s.minted
    && (if instance.revoked then instance.refresh.None? else instance.refresh == Some(instance.latest))
  }

  ghost predicate FamiliesOk(s: State) {
    && (forall i | i in s.instances :: InstanceOk(s, i))
    && (forall i, j | i in s.instances && j in s.instances && s.instances[i].latest == s.instances[j].latest :: i == j)
    && (forall t | t in s.history ::
          t in s.minted && s.history[t].instance in s.instances
          && forall i | i in s.instances :: s.instances[i].latest != t)
    && (forall t | t in s.access ::
          t in s.minted && s.access[t].instance in s.instances && !s.instances[s.access[t].instance].revoked)
  }

  lemma {:induction false} RevokedKeepsFamilies(s: State, i: Id)
    requires FamiliesOk(s)
    ensures FamiliesOk(Revoked(s, i))
  {
    forall j | j in s.instances ensures InstanceOk(s, j) {}
  }

  lemma {:induction false} RotateKeepsFamilies(s: State, token: Token, i: Id, pair: Pair)
    requires FamiliesOk(s) && Accepts(s, token, i) && Minted(s, pair)
    ensures FamiliesOk(Rotate(s, token, i, pair))
  {
    forall j | j in s.instances ensures InstanceOk(s, j) {}
  }

  lemma {:induction false} GrantKeepsFamilies(s: State, source: Source, user: Id, instance: Id, pair: Pair)
    requires FamiliesOk(s) && instance !in s.instances && Minted(s, pair)
    ensures FamiliesOk(Granted(s, source, user, instance, pair))
  {
    forall j | j in s.instances ensures InstanceOk(s, j) {}
  }

  /** Two states with one set of instances and credentials. */
  ghost predicate SameFamilies(s: State, t: State) {
    t.instances == s.instances && t.access == s.access && t.history == s.history && s.minted <= t.minted
  }

  lemma {:induction false} SameKeepsFamilies(s: State, t: State)
    requires FamiliesOk(s) && SameFamilies(s, t)
    ensures FamiliesOk(t)
  {
    forall j | j in s.instances ensures InstanceOk(s, j) {}
  }

  lemma {:induction false} PollKeepsFamilies(s: State, id: Id, instance: Id, pair: Pair)
    requires FamiliesOk(s) && instance !in s.instances && Minted(s, pair)
    ensures FamiliesOk(Poll(s, id, instance, pair).1)
  {
    if id in s.requests {
      var polled := Polled(s.requests[id], s.now);
      var recorded := s.(requests := s.requests[id := polled]);
      SameKeepsFamilies(s, recorded);
      var redeemed := recorded.(requests := recorded.requests[id := polled.(redeemed := true)]);
      SameKeepsFamilies(s, redeemed);
      hide FamiliesOk;
      if s.requests[id].approvedBy.Some? {
        GrantKeepsFamilies(redeemed, Device(id), s.requests[id].approvedBy.value, instance, pair);
      }
    }
  }

  lemma {:induction false} ExchangeKeepsFamilies(s: State, e: Event)
    requires FamiliesOk(s) && Allowed(s, e) && e.Exchange?
    ensures FamiliesOk(Effect(s, e))
  {
    hide FamiliesOk;
    hide Granted;
    hide SameFamilies;
    var redeemed := s.(authorizations := s.authorizations[e.id := s.authorizations[e.id].(redeemed := true)]);
    RedeemSame(s, e.id);
    SameKeepsFamilies(s, redeemed);
    GrantKeepsFamilies(redeemed, Browser(e.id), s.authorizations[e.id].approvedBy.value, e.instance, e.pair);
  }

  lemma {:induction false} RefreshKeepsFamilies(s: State, e: Event)
    requires FamiliesOk(s) && Allowed(s, e) && e.Refresh?
    ensures FamiliesOk(Effect(s, e))
  {
    hide FamiliesOk;
    hide Rotate;
    hide Revoked;
    hide Minted;
    if e.holder.Some? {
      RotateKeepsFamilies(s, e.token, e.holder.value, e.pair);
      RevokedKeepsFamilies(s, e.holder.value);
    } else if e.token in s.history {
      RevokedKeepsFamilies(s, s.history[e.token].instance);
    }
  }

  lemma {:induction false} ForgettingKeepsFamilies(s: State, e: Event)
    requires FamiliesOk(s) && Allowed(s, e) && (e.ForgetUsed? || e.ForgetAccess?)
    ensures FamiliesOk(Effect(s, e))
  {
    hide FamiliesOk;
    if e.ForgetUsed? {
      ForgetKeepsFamilies(s, e.tokens, {});
      assert s.access - {} == s.access;
    } else {
      ForgetKeepsFamilies(s, {}, e.tokens);
      assert s.history - {} == s.history;
    }
  }

  lemma {:induction false} KeepsFamilies(s: State, e: Event)
    requires FamiliesOk(s) && Allowed(s, e)
    ensures FamiliesOk(Effect(s, e))
  {
    hide FamiliesOk;
    hide Poll;
    hide Granted;
    hide Rotate;
    hide Revoked;
    hide Reviewable;
    hide ReviewableHere;
    hide Redeemable;
    hide SameFamilies;
    match e
    case PollDevice(id, instance, pair) => PollKeepsFamilies(s, id, instance, pair);
    case Exchange(_, _, _, _, _, _) =>
      ExchangeKeepsFamilies(s, e);
      hide Effect;
    case Refresh(_, _, _) =>
      RefreshKeepsFamilies(s, e);
      hide Effect;
    case Revoke(instance) => RevokedKeepsFamilies(s, instance);
    case Authenticate(token) => TouchKeepsFamilies(s, Authenticates(s, token).value);
    case ForgetUsed(_) =>
      ForgettingKeepsFamilies(s, e);
      hide Effect;
    case ForgetAccess(_) =>
      ForgettingKeepsFamilies(s, e);
      hide Effect;
    case _ =>
      OthersSameFamilies(s, e);
      SameKeepsFamilies(s, Effect(s, e));
      hide Effect;
  }

  lemma {:induction false} RedeemSame(s: State, id: Id)
    requires id in s.authorizations
    ensures SameFamilies(s, s.(authorizations := s.authorizations[id := s.authorizations[id].(redeemed := true)]))
  {
  }

  lemma {:induction false} OthersSameFamilies(s: State, e: Event)
    requires Allowed(s, e)
    requires !e.PollDevice? && !e.Exchange? && !e.Refresh? && !e.Revoke? && !e.Authenticate? && !e.ForgetUsed? && !e.ForgetAccess?
    ensures SameFamilies(s, Effect(s, e))
  {
  }

  lemma {:induction false} TouchKeepsFamilies(s: State, i: Id)
    requires FamiliesOk(s) && i in s.instances
    ensures FamiliesOk(Touched(s, i))
  {
    forall j | j in s.instances ensures InstanceOk(s, j) {}
  }

  lemma {:induction false} ForgetKeepsFamilies(s: State, used: set<Token>, access: set<Token>)
    requires FamiliesOk(s)
    ensures FamiliesOk(s.(history := s.history - used, access := s.access - access))
  {
    forall j | j in s.instances ensures InstanceOk(s, j) {}
  }

  lemma {:induction false} RunKeepsFamilies(s: State, events: seq<Event>)
    requires FamiliesOk(s)
    ensures FamiliesOk(Run(s, events))
    decreases |events|
  {
    if events != [] {
      hide FamiliesOk;
      hide Effect;
      hide Allowed;
      if Allowed(s, events[0]) { KeepsFamilies(s, events[0]); }
      RunKeepsFamilies(Apply(s, events[0]), events[1..]);
    }
  }

  lemma {:induction false} OneAccepted(s: State, i: Id, token: Token)
    requires FamiliesOk(s) && i in s.instances
    ensures Accepts(s, token, i) <==> !s.instances[i].revoked && token == s.instances[i].latest
    ensures forall j | Accepts(s, token, i) && Accepts(s, token, j) :: i == j
  {
    forall j | j in s.instances ensures InstanceOk(s, j) {}
  }

  /** After any run a live instance accepts one refresh token, the last it was
      given, which no other accepts; a revoked one accepts none. */
  lemma {:induction false} OneAcceptedToken(s: State, events: seq<Event>, i: Id, token: Token)
    requires FamiliesOk(s)
    ensures var t := Run(s, events);
      i in t.instances ==>
        && (Accepts(t, token, i) <==> !t.instances[i].revoked && token == t.instances[i].latest)
        && (forall j | Accepts(t, token, i) && Accepts(t, token, j) :: i == j)
  {
    RunKeepsFamilies(s, events);
    hide FamiliesOk;
    hide Run;
    hide Accepts;
    var t := Run(s, events);
    if i in t.instances { OneAccepted(t, i, token); }
  }

  // ---- revocation is for good ---------------------------------------------

  ghost predicate Gone(s: State, i: Id) {
    i in s.instances && s.instances[i].revoked
  }

  /** A step that rotates, revokes or grants. */
  lemma {:induction false} GoneThrough(s: State, e: Event, i: Id)
    requires FamiliesOk(s) && Gone(s, i) && Allowed(s, e) && (e.Refresh? || e.Revoke? || e.Authenticate?)
    ensures Gone(Effect(s, e), i)
  {
    assert InstanceOk(s, i);
    hide FamiliesOk;
    hide Minted;
    hide Idle;
    hide Poll;
    hide Granted;
    hide Reviewable;
    hide ReviewableHere;
    hide Redeemable;
  }

  lemma {:induction false} GrantedGone(s: State, source: Source, user: Id, instance: Id, pair: Pair, i: Id)
    requires Gone(s, i) && instance !in s.instances
    ensures Gone(Granted(s, source, user, instance, pair), i)
  {
  }

  lemma {:induction false} PollGone(s: State, id: Id, instance: Id, pair: Pair, i: Id)
    requires Gone(s, i) && instance !in s.instances
    ensures Gone(Poll(s, id, instance, pair).1, i)
  {
    hide Polled;
    hide TooSoon;
  }

  lemma {:induction false} GoneStays(s: State, e: Event, i: Id)
    requires FamiliesOk(s) && Gone(s, i) && Allowed(s, e)
    ensures Gone(Effect(s, e), i)
  {
    hide FamiliesOk;
    hide Granted;
    hide Poll;
    hide Minted;
    hide Reviewable;
    hide ReviewableHere;
    match e
    case PollDevice(id, instance, pair) => PollGone(s, id, instance, pair, i);
    case Exchange(id, _, _, _, instance, pair) =>
      var redeemed := s.(authorizations := s.authorizations[id := s.authorizations[id].(redeemed := true)]);
      RedeemSame(s, id);
      GrantedGone(redeemed, Browser(id), s.authorizations[id].approvedBy.value, instance, pair, i);
    case Refresh(_, _, _) =>
      GoneThrough(s, e, i);
      hide Effect;
    case Revoke(_) =>
      GoneThrough(s, e, i);
      hide Effect;
    case Authenticate(_) =>
      GoneThrough(s, e, i);
      hide Effect;
    case ForgetUsed(_) =>
    case ForgetAccess(_) =>
    case _ =>
      OthersSameFamilies(s, e);
      hide Effect;
  }

  /** Once revoked, no refresh or access token of an instance is accepted again. */
  lemma {:induction false} RevokedForGood(s: State, events: seq<Event>, i: Id, token: Token)
    requires FamiliesOk(s) && Gone(s, i)
    ensures var t := Run(s, events);
      Gone(t, i) && !Accepts(t, token, i) && Authenticates(t, token) != Some(i)
    decreases |events|
  {
    if events != [] {
      hide FamiliesOk;
      hide Effect;
      hide Allowed;
      hide Gone;
      if Allowed(s, events[0]) {
        KeepsFamilies(s, events[0]);
        GoneStays(s, events[0], i);
      }
      RevokedForGood(Apply(s, events[0]), events[1..], i, token);
    }
  }

  // ---- reuse --------------------------------------------------------------

  /** A token rotated away is remembered for as long as its reuse is noticed. */
  ghost predicate Remembers(s: State, token: Token, i: Id, until: Time) {
    i in s.instances && (s.now < until ==> token in s.history && s.history[token] == Used(i, until))
  }

  lemma {:induction false} RotateRemembers(s: State, used: Token, j: Id, pair: Pair, token: Token, i: Id, until: Time)
    requires FamiliesOk(s) && Remembers(s, token, i, until) && Accepts(s, used, j)
    ensures Remembers(Rotate(s, used, j, pair), token, i, until)
  {
    assert InstanceOk(s, j);
  }

  lemma {:induction false} RevokedRemembers(s: State, j: Id, token: Token, i: Id, until: Time)
    requires Remembers(s, token, i, until)
    ensures Remembers(Revoked(s, j), token, i, until)
  {
  }

  lemma {:induction false} PollRemembers(s: State, id: Id, instance: Id, pair: Pair, token: Token, i: Id, until: Time)
    requires Remembers(s, token, i, until) && instance !in s.instances
    ensures Remembers(Poll(s, id, instance, pair).1, token, i, until)
  {
    hide Polled;
    hide TooSoon;
  }

  lemma {:induction false} RefreshRemembers(s: State, e: Event, token: Token, i: Id, until: Time)
    requires FamiliesOk(s) && Remembers(s, token, i, until) && Allowed(s, e) && e.Refresh?
    ensures Remembers(Effect(s, e), token, i, until)
  {
    hide Rotate;
    hide Revoked;
    hide FamiliesOk;
    hide Remembers;
    hide Minted;
    hide Idle;
    if e.holder.Some? {
      RotateRemembers(s, e.token, e.holder.value, e.pair, token, i, until);
      RevokedRemembers(s, e.holder.value, token, i, until);
    } else if e.token in s.history {
      RevokedRemembers(s, s.history[e.token].instance, token, i, until);
    }
  }

  lemma {:induction false} RemembersStill(s: State, e: Event, token: Token, i: Id, until: Time)
    requires FamiliesOk(s) && Remembers(s, token, i, until) && Allowed(s, e)
    ensures Remembers(Effect(s, e), token, i, until)
  {
    hide FamiliesOk;
    hide Revoked;
    hide Rotate;
    hide Poll;
    hide Minted;
    hide Idle;
    hide Reviewable;
    hide ReviewableHere;
    hide Redeemable;
    match e
    case Refresh(_, _, _) =>
      RefreshRemembers(s, e, token, i, until);
      hide Effect;
    case Revoke(instance) => RevokedRemembers(s, instance, token, i, until);
    case PollDevice(id, instance, pair) => PollRemembers(s, id, instance, pair, token, i, until);
    case Exchange(_, _, _, _, _, _) =>
    case Authenticate(_) =>
    case ForgetUsed(_) =>
    case ForgetAccess(_) =>
    case Tick(_) =>
    case _ =>
      OthersSameFamilies(s, e);
      OthersSameClock(s, e);
      hide Effect;
  }

  lemma {:induction false} OthersSameClock(s: State, e: Event)
    requires Allowed(s, e) && !e.Tick? && !e.PollDevice? && !e.Exchange? && !e.Refresh? && !e.Revoke?
    ensures Effect(s, e).now == s.now
  {
    hide Minted;
    hide Reviewable;
    hide ReviewableHere;
  }

  /** Presenting a token that was rotated away, at any time inside the window and
      whatever happened in between, leaves the instance revoked. */
  lemma {:induction false} ReuseRevokes(s: State, token: Token, i: Id, pair: Pair, events: seq<Event>, again: Pair)
    requires FamiliesOk(s) && Allowed(s, Refresh(token, Some(i), pair)) && !Idle(s, i)
    requires var t := Run(Effect(s, Refresh(token, Some(i), pair)), events);
      t.now < s.now + REFRESH_REUSE_WINDOW && Minted(t, again)
    ensures var t := Run(Effect(s, Refresh(token, Some(i), pair)), events);
      Allowed(t, Refresh(token, None, again)) && Gone(Effect(t, Refresh(token, None, again)), i)
  {
    var e := Refresh(token, Some(i), pair);
    var u := Effect(s, e);
    KeepsFamilies(s, e);
    assert Remembers(u, token, i, s.now + REFRESH_REUSE_WINDOW);
    hide FamiliesOk;
    hide Effect;
    RemembersThrough(u, events, token, i, s.now + REFRESH_REUSE_WINDOW);
    RunKeepsFamilies(u, events);
    ReuseSeen(Run(u, events), token, i, s.now + REFRESH_REUSE_WINDOW, again);
  }

  lemma {:induction false} RemembersThrough(s: State, events: seq<Event>, token: Token, i: Id, until: Time)
    requires FamiliesOk(s) && Remembers(s, token, i, until)
    ensures Remembers(Run(s, events), token, i, until)
    decreases |events|
  {
    if events != [] {
      hide FamiliesOk;
      hide Effect;
      hide Allowed;
      hide Remembers;
      if Allowed(s, events[0]) {
        KeepsFamilies(s, events[0]);
        RemembersStill(s, events[0], token, i, until);
      }
      RemembersThrough(Apply(s, events[0]), events[1..], token, i, until);
    }
  }

  lemma {:induction false} ReuseSeen(s: State, token: Token, i: Id, until: Time, again: Pair)
    requires FamiliesOk(s) && Remembers(s, token, i, until) && s.now < until && Minted(s, again)
    ensures Allowed(s, Refresh(token, None, again))
    ensures Gone(Effect(s, Refresh(token, None, again)), i)
  {
    forall j | j in s.instances ensures InstanceOk(s, j) {}
    hide Minted;
  }

  // ---- requests and authorizations ----------------------------------------

  function Times(grants: seq<Source>, source: Source): nat {
    if grants == [] then 0
    else Times(grants[..|grants| - 1], source) + (if grants[|grants| - 1] == source then 1 else 0)
  }

  ghost predicate RequestOk(s: State, id: Id)
    requires id in s.requests
  {
    var request := s.requests[id];
    && !(request.approvedBy.Some? && request.deniedBy.Some?)
    && (request.redeemed ==> request.approvedBy.Some?)
    && Times(s.grants, Device(id)) == (if request.redeemed then 1 else 0)
    && POLL_INTERVAL <= request.interval <= MAX_POLL_INTERVAL
  }

  ghost predicate AuthorizationOk(s: State, id: Id)
    requires id in s.authorizations
  {
    var authorization := s.authorizations[id];
    && !(authorization.approvedBy.Some? && authorization.deniedBy.Some?)
    && (authorization.redeemed ==> authorization.approvedBy.Some?)
    && (authorization.code.Some? <==> authorization.approvedBy.Some?)
    && Times(s.grants, Browser(id)) == (if authorization.redeemed then 1 else 0)
    && (authorization.code.Some? ==> authorization.code.value in s.minted)
  }

  ghost predicate GrantsOk(s: State) {
    && (forall id | id in s.requests :: RequestOk(s, id))
    && (forall id | id in s.authorizations :: AuthorizationOk(s, id))
    && (forall id | id in s.requests :: Device(id) in s.asked)
    && (forall id | id in s.authorizations :: Browser(id) in s.asked)
    && (forall source :: Times(s.grants, source) <= (if source in s.asked then 1 else 0))
    && (forall a, b | a in s.authorizations && b in s.authorizations && s.authorizations[a].code.Some?
                      && s.authorizations[a].code == s.authorizations[b].code :: a == b)
  }

  lemma {:induction false} OneMore(grants: seq<Source>, source: Source, other: Source)
    ensures Times(grants + [source], other) == Times(grants, other) + (if other == source then 1 else 0)
  {
    assert (grants + [source])[..|grants|] == grants;
  }

  /** One grant more, and the source it came from redeemed. */
  ghost predicate Gives(s: State, t: State, source: Source) {
    && t.grants == s.grants + [source] && s.minted <= t.minted && t.asked == s.asked
    && t.requests.Keys == s.requests.Keys && t.authorizations.Keys == s.authorizations.Keys
    && (forall r | r in s.requests :: source != Device(r) ==> t.requests[r] == s.requests[r])
    && (forall a | a in s.authorizations :: source != Browser(a) ==> t.authorizations[a] == s.authorizations[a])
    && (source.Device? ==>
          source.id in s.requests && s.requests[source.id].approvedBy.Some? && !s.requests[source.id].redeemed
          && t.requests[source.id] == Polled(s.requests[source.id], s.now).(redeemed := true))
    && (source.Browser? ==>
          source.id in s.authorizations && s.authorizations[source.id].approvedBy.Some?
          && !s.authorizations[source.id].redeemed
          && t.authorizations[source.id] == s.authorizations[source.id].(redeemed := true))
  }

  lemma {:induction false} GivesRequest(s: State, t: State, source: Source, r: Id)
    requires Gives(s, t, source) && r in s.requests && RequestOk(s, r)
    ensures RequestOk(t, r)
  {
    OneMore(s.grants, source, Device(r));
    hide Times;
  }

  lemma {:induction false} GivesAuthorization(s: State, t: State, source: Source, a: Id)
    requires Gives(s, t, source) && a in s.authorizations && AuthorizationOk(s, a)
    ensures AuthorizationOk(t, a)
  {
    OneMore(s.grants, source, Browser(a));
    hide Times;
  }

  lemma {:induction false} NotGivenYet(s: State, source: Source)
    requires GrantsOk(s)
    requires match source
      case Device(id) => id in s.requests && !s.requests[id].redeemed
      case Browser(id) => id in s.authorizations && !s.authorizations[id].redeemed
    ensures Times(s.grants, source) == 0 && source in s.asked
  {
    hide Times;
    match source
    case Device(id) => assert RequestOk(s, id);
    case Browser(id) => assert AuthorizationOk(s, id);
  }

  lemma {:induction false} GivesKeeps(s: State, t: State, source: Source)
    requires GrantsOk(s) && Gives(s, t, source)
    ensures GrantsOk(t)
  {
    hide Times;
    hide RequestOk;
    hide AuthorizationOk;
    forall r | r in t.requests ensures RequestOk(t, r) { GivesRequest(s, t, source, r); }
    forall a | a in t.authorizations ensures AuthorizationOk(t, a) { GivesAuthorization(s, t, source, a); }
    NotGivenYet(s, source);
    forall other ensures Times(t.grants, other) <= (if other in t.asked then 1 else 0) { OneMore(s.grants, source, other); }
  }

  /** A poll gives a grant, records itself, or changes nothing. */
  lemma {:induction false} PollGives(s: State, id: Id, instance: Id, pair: Pair)
    ensures var t := Poll(s, id, instance, pair).1;
      || t == s
      || (id in s.requests && t == s.(requests := s.requests[id := Polled(s.requests[id], s.now)]))
      || (Gives(s, t, Device(id)) && s.requests[id].deniedBy.None? && s.now < s.requests[id].expires)
  {
    hide Polled;
    hide TooSoon;
  }

  lemma {:induction false} RecordKeepsGrants(s: State, id: Id)
    requires GrantsOk(s) && id in s.requests
    ensures GrantsOk(s.(requests := s.requests[id := Polled(s.requests[id], s.now)]))
  {
    var t := s.(requests := s.requests[id := Polled(s.requests[id], s.now)]);
    hide Times;
    forall r | r in t.requests ensures RequestOk(t, r) { assert RequestOk(s, r); }
    forall a | a in t.authorizations ensures AuthorizationOk(t, a) { assert AuthorizationOk(s, a); }
  }

  lemma {:induction false} PollKeepsGrants(s: State, id: Id, instance: Id, pair: Pair)
    requires GrantsOk(s)
    ensures GrantsOk(Poll(s, id, instance, pair).1)
  {
    hide *;
    PollGives(s, id, instance, pair);
    if id in s.requests { RecordKeepsGrants(s, id); }
    if Gives(s, Poll(s, id, instance, pair).1, Device(id)) { GivesKeeps(s, Poll(s, id, instance, pair).1, Device(id)); }
  }

  lemma {:induction false} ExchangeKeepsGrants(s: State, e: Event)
    requires GrantsOk(s) && e.Exchange? && Allowed(s, e)
    ensures GrantsOk(Effect(s, e))
  {
    var t := Effect(s, e);
    assert Gives(s, t, Browser(e.id));
    hide *;
    GivesKeeps(s, t, Browser(e.id));
  }

  /** Requests that were there, each changed at most by a decision that was still
      open, or gone once expired. */
  ghost predicate Decides(s: State, t: State) {
    && t.grants == s.grants && s.minted <= t.minted && s.asked <= t.asked
    && (forall r | r in s.requests :: r in t.requests || s.requests[r].expires <= s.now)
    && (forall r | r in t.requests && r in s.requests && t.requests[r] != s.requests[r] ::
          && s.requests[r].approvedBy.None? && s.requests[r].deniedBy.None? && !s.requests[r].redeemed
          && !t.requests[r].redeemed && t.requests[r].interval == s.requests[r].interval
          && !(t.requests[r].approvedBy.Some? && t.requests[r].deniedBy.Some?))
    && (forall r | r in t.requests && r !in s.requests ::
          Device(r) !in s.asked && Device(r) in t.asked && t.requests[r] == Request(None, None, None, false, None, POLL_INTERVAL, t.requests[r].expires))
  }

  lemma {:induction false} OthersDecide(s: State, e: Event)
    requires Allowed(s, e) && !e.PollDevice? && !e.Exchange?
    ensures Decides(s, Effect(s, e))
  {
    hide Idle;
    hide Minted;
    hide ReviewableHere;
  }

  lemma {:induction false} OthersKeepRequest(s: State, t: State, r: Id)
    requires GrantsOk(s) && Decides(s, t) && r in t.requests
    ensures RequestOk(t, r)
  {
    assert r in s.requests ==> RequestOk(s, r);
    hide Times;
  }

  /** The same of authorizations: a decision that was open is made, a fresh code
      with an approval. */
  ghost predicate DecidesHere(s: State, t: State) {
    && t.grants == s.grants && s.minted <= t.minted && s.asked <= t.asked
    && (forall a | a in s.authorizations :: a in t.authorizations || s.authorizations[a].expires <= s.now)
    && (forall a | a in t.authorizations && a in s.authorizations && t.authorizations[a] != s.authorizations[a] ::
          && s.authorizations[a].approvedBy.None? && s.authorizations[a].deniedBy.None? && !s.authorizations[a].redeemed
          && !t.authorizations[a].redeemed
          && (if t.authorizations[a].approvedBy.Some?
              then t.authorizations[a].deniedBy.None? && t.authorizations[a].code.Some?
                   && t.authorizations[a].code.value !in s.minted && t.authorizations[a].code.value in t.minted
              else t.authorizations[a].code == s.authorizations[a].code))
    && (forall a | a in t.authorizations && a !in s.authorizations ::
          Browser(a) !in s.asked && Browser(a) in t.asked && t.authorizations[a].approvedBy.None? && t.authorizations[a].deniedBy.None?
          && t.authorizations[a].code.None? && !t.authorizations[a].redeemed)
    && (forall a, b | a in t.authorizations && b in t.authorizations && t.authorizations[a].code.Some?
                      && t.authorizations[a].code == t.authorizations[b].code
                      && t.authorizations[a].code.value !in s.minted :: a == b)
  }

  lemma {:induction false} OthersDecideHere(s: State, e: Event)
    requires Allowed(s, e) && !e.PollDevice? && !e.Exchange?
    requires forall a | a in s.authorizations && s.authorizations[a].code.Some? :: s.authorizations[a].code.value in s.minted
    ensures DecidesHere(s, Effect(s, e))
  {
    hide Idle;
    hide Minted;
    hide Reviewable;
  }

  lemma {:induction false} DecidesKeepsAuthorizations(s: State, t: State)
    requires GrantsOk(s) && DecidesHere(s, t)
    ensures forall a | a in t.authorizations :: AuthorizationOk(t, a)
    ensures forall a, b | a in t.authorizations && b in t.authorizations && t.authorizations[a].code.Some?
                          && t.authorizations[a].code == t.authorizations[b].code :: a == b
  {
    hide Times;
    forall a | a in s.authorizations ensures AuthorizationOk(s, a) {}
  }

  lemma {:induction false} OthersKeepAuthorizations(s: State, e: Event)
    requires GrantsOk(s) && Allowed(s, e) && !e.PollDevice? && !e.Exchange?
    ensures var t := Effect(s, e);
      && (forall a | a in t.authorizations :: AuthorizationOk(t, a))
      && (forall a | a in t.authorizations :: Browser(a) in t.asked) && s.asked <= t.asked
      && (forall a, b | a in t.authorizations && b in t.authorizations && t.authorizations[a].code.Some?
                        && t.authorizations[a].code == t.authorizations[b].code :: a == b)
  {
    forall a | a in s.authorizations ensures AuthorizationOk(s, a) {}
    hide Times;
    hide Effect;
    hide Allowed;
    OthersDecideHere(s, e);
    hide DecidesHere;
    DecidesKeepsAuthorizations(s, Effect(s, e));
    AllAsked(s, Effect(s, e));
  }

  lemma {:induction false} AllAsked(s: State, t: State)
    requires DecidesHere(s, t) && forall a | a in s.authorizations :: Browser(a) in s.asked
    ensures s.asked <= t.asked && forall a | a in t.authorizations :: Browser(a) in t.asked
  {
  }

  lemma {:induction false} OthersKeepGrants(s: State, e: Event)
    requires GrantsOk(s) && Allowed(s, e) && !e.PollDevice? && !e.Exchange?
    ensures GrantsOk(Effect(s, e))
  {
    var t := Effect(s, e);
    OthersDecide(s, e);
    OthersKeepAuthorizations(s, e);
    forall r | r in t.requests ensures RequestOk(t, r) { OthersKeepRequest(s, t, r); }
    hide RequestOk;
    hide AuthorizationOk;
    hide Effect;
    hide Allowed;
    hide Times;
  }

  lemma {:induction false} RunKeepsGrants(s: State, events: seq<Event>)
    requires GrantsOk(s)
    ensures GrantsOk(Run(s, events))
    decreases |events|
  {
    if events != [] {
      var e := events[0];
      hide GrantsOk;
      if Allowed(s, e) {
        if e.PollDevice? { PollKeepsGrants(s, e.id, e.instance, e.pair); }
        else if e.Exchange? { ExchangeKeepsGrants(s, e); }
        else { OthersKeepGrants(s, e); }
      }
      RunKeepsGrants(Apply(s, e), events[1..]);
    }
  }

  /** What one request or authorization gives: at most one grant, and none once
      it is denied or its time is up. */
  lemma {:induction false} AtMostOneGrant(s: State, events: seq<Event>, source: Source)
    requires GrantsOk(s)
    ensures Times(Run(s, events).grants, source) <= 1
  {
    RunKeepsGrants(s, events);
    hide Run;
    hide RequestOk;
    hide AuthorizationOk;
    hide Times;
  }

  // ---- decisions ----------------------------------------------------------

  /** Approval and denial, once given, stand; the interval never shrinks. */
  ghost predicate Advanced(r: Request, q: Request) {
    && (r.approvedBy.Some? ==> q.approvedBy == r.approvedBy) && (r.deniedBy.Some? ==> q.deniedBy == r.deniedBy)
    && (r.redeemed ==> q.redeemed) && r.interval <= q.interval && q.expires == r.expires
  }

  /** A poll advances its request. */
  lemma {:induction false} PollAdvances(s: State, poll: Id, instance: Id, pair: Pair, id: Id)
    requires GrantsOk(s) && id in s.requests
    ensures var t := Poll(s, poll, instance, pair).1;
      id in t.requests && Advanced(s.requests[id], t.requests[id]) && t.asked == s.asked
  {
    assert RequestOk(s, id);
    hide GrantsOk;
    hide RequestOk;
    PollGives(s, poll, instance, pair);
    hide Poll;
    assert id == poll ==> Advanced(s.requests[id], Polled(s.requests[id], s.now).(redeemed := true));
    hide TooSoon;
  }

  lemma {:induction false} OthersSameRequests(s: State, e: Event)
    requires Allowed(s, e) && !e.PollDevice? && !e.Start? && !e.Approve? && !e.Deny? && !e.ForgetRequests?
    ensures Effect(s, e).requests == s.requests && s.asked <= Effect(s, e).asked
  {
    hide Idle;
    hide Minted;
    hide ReviewableHere;
    hide Redeemable;
  }

  lemma {:induction false} DecisionAdvances(s: State, e: Event, id: Id)
    requires id in s.requests && Allowed(s, e) && (e.Start? || e.Approve? || e.Deny? || e.ForgetRequests?)
    ensures id in Effect(s, e).requests ==> Advanced(s.requests[id], Effect(s, e).requests[id])
    ensures id !in Effect(s, e).requests ==> s.requests[id].expires <= s.now
    ensures s.asked <= Effect(s, e).asked
  {
  }

  /** One step on: a request is there, advanced, or gone once expired. */
  lemma {:induction false} StepAdvances(s: State, e: Event, id: Id)
    requires GrantsOk(s) && id in s.requests
    ensures id in Apply(s, e).requests ==> Advanced(s.requests[id], Apply(s, e).requests[id])
    ensures id !in Apply(s, e).requests ==> s.requests[id].expires <= s.now
    ensures s.asked <= Apply(s, e).asked
  {
    hide GrantsOk;
    if Allowed(s, e) {
      match e
      case PollDevice(poll, instance, pair) =>
        PollAdvances(s, poll, instance, pair, id);
        hide Poll;
      case Start(_) =>
        DecisionAdvances(s, e, id);
        hide Effect;
      case Approve(_, _) =>
        DecisionAdvances(s, e, id);
        hide Effect;
      case Deny(_, _) =>
        DecisionAdvances(s, e, id);
        hide Effect;
      case ForgetRequests(_) =>
        DecisionAdvances(s, e, id);
        hide Effect;
      case _ =>
        OthersSameRequests(s, e);
        hide Effect;
    }
    hide Allowed;
  }

  lemma {:induction false} OneStepRuns(s: State, e: Event)
    requires GrantsOk(s)
    ensures GrantsOk(Apply(s, e))
  {
    RunKeepsGrants(s, [e]);
    hide GrantsOk;
    assert [e][1..] == [];
    assert Run(Apply(s, e), []) == Apply(s, e);
    hide Apply;
  }

  /** What was started and is gone never comes back. */
  lemma {:induction false} GoneIsGone(s: State, e: Event, source: Source)
    requires source in s.asked
    requires match source case Device(id) => id !in s.requests case Browser(id) => id !in s.authorizations
    ensures source in Apply(s, e).asked
    ensures match source
      case Device(id) => id !in Apply(s, e).requests
      case Browser(id) => id !in Apply(s, e).authorizations
  {
    hide Idle;
    hide Minted;
    hide Polled;
    hide TooSoon;
  }

  lemma {:induction false} GoneForGood(s: State, events: seq<Event>, source: Source)
    requires source in s.asked
    requires match source case Device(id) => id !in s.requests case Browser(id) => id !in s.authorizations
    ensures match source
      case Device(id) => id !in Run(s, events).requests
      case Browser(id) => id !in Run(s, events).authorizations
    ensures s.now <= Run(s, events).now
    decreases |events|
  {
    if events != [] {
      GoneIsGone(s, events[0], source);
      TimeGoesOn(s, events[0]);
      hide Apply;
      GoneForGood(Apply(s, events[0]), events[1..], source);
    }
  }

  /** In any run a request is there with its decisions as they were made, or has
      been cleared away after it expired. */
  lemma {:induction false} DecisionsStand(s: State, events: seq<Event>, id: Id)
    requires GrantsOk(s) && id in s.requests
    ensures var t := Run(s, events);
      if id in t.requests then Advanced(s.requests[id], t.requests[id]) else s.requests[id].expires <= t.now
    decreases |events|
  {
    if events != [] {
      var next := Apply(s, events[0]);
      StepAdvances(s, events[0], id);
      OneStepRuns(s, events[0]);
      TimeGoesOn(s, events[0]);
      assert Device(id) in s.asked;
      hide GrantsOk;
      hide Apply;
      if id in next.requests { DecisionsStand(next, events[1..], id); } else { GoneForGood(next, events[1..], Device(id)); }
    }
  }

  /** The same of a browser authorization, and of its code. */
  ghost predicate AdvancedHere(a: Authorization, b: Authorization) {
    && (a.approvedBy.Some? ==> b.approvedBy == a.approvedBy && b.code == a.code)
    && (a.deniedBy.Some? ==> b.deniedBy == a.deniedBy) && (a.redeemed ==> b.redeemed)
    && b.expires == a.expires && b.redirect == a.redirect && b.challenge == a.challenge
  }

  lemma {:induction false} StepAdvancesHere(s: State, e: Event, id: Id)
    requires id in s.authorizations
    ensures id in Apply(s, e).authorizations ==> AdvancedHere(s.authorizations[id], Apply(s, e).authorizations[id])
    ensures id !in Apply(s, e).authorizations ==> s.authorizations[id].expires <= s.now
    ensures s.asked <= Apply(s, e).asked
  {
    hide Idle;
    hide Minted;
    hide Reviewable;
    hide Polled;
    hide TooSoon;
  }

  lemma {:induction false} BrowserDecisionsStand(s: State, events: seq<Event>, id: Id)
    requires id in s.authorizations && Browser(id) in s.asked
    ensures var t := Run(s, events);
      if id in t.authorizations then AdvancedHere(s.authorizations[id], t.authorizations[id])
      else s.authorizations[id].expires <= t.now
    decreases |events|
  {
    if events != [] {
      var next := Apply(s, events[0]);
      StepAdvancesHere(s, events[0], id);
      TimeGoesOn(s, events[0]);
      hide Apply;
      if id in next.authorizations {
        BrowserDecisionsStand(next, events[1..], id);
      } else {
        GoneForGood(next, events[1..], Browser(id));
      }
    }
  }

  /** Denied, expired, or cleared away. */
  ghost predicate Closed(s: State, source: Source) {
    && source in s.asked
    && (match source
        case Device(id) => id in s.requests ==> s.requests[id].deniedBy.Some? || s.now >= s.requests[id].expires
        case Browser(id) =>
          id in s.authorizations ==> s.authorizations[id].deniedBy.Some? || s.now >= s.authorizations[id].expires)
  }

  lemma {:induction false} ClosedStays(s: State, e: Event, source: Source)
    requires GrantsOk(s) && Closed(s, source)
    ensures Closed(Apply(s, e), source)
  {
    TimeGoesOn(s, e);
    match source
    case Device(id) =>
      if id in s.requests { StepAdvances(s, e, id); } else { GoneIsGone(s, e, source); }
      hide Apply;
    case Browser(id) =>
      if id in s.authorizations { StepAdvancesHere(s, e, id); } else { GoneIsGone(s, e, source); }
      hide Apply;
  }

  lemma {:induction false} ClosedGivesNothing(s: State, e: Event, source: Source)
    requires Closed(s, source)
    ensures Times(Apply(s, e).grants, source) == Times(s.grants, source)
  {
    hide Times;
    if Allowed(s, e) {
      if e.PollDevice? {
        PollGives(s, e.id, e.instance, e.pair);
        OneMore(s.grants, Device(e.id), source);
        hide Poll;
        hide Polled;
      } else if e.Exchange? {
        OneMore(s.grants, Browser(e.id), source);
      } else {
        OthersDecide(s, e);
        hide Effect;
        hide Allowed;
      }
    }
  }

  /** A denied or expired request or authorization is never granted from then on,
      cleared away or not. */
  lemma {:induction false} ClosedGrantNothing(s: State, events: seq<Event>, source: Source)
    requires GrantsOk(s) && Closed(s, source)
    ensures Times(Run(s, events).grants, source) == Times(s.grants, source)
    decreases |events|
  {
    if events != [] {
      ClosedStays(s, events[0], source);
      ClosedGivesNothing(s, events[0], source);
      OneStepRuns(s, events[0]);
      hide GrantsOk;
      hide Closed;
      hide Apply;
      hide Times;
      ClosedGrantNothing(Apply(s, events[0]), events[1..], source);
    }
  }

  lemma {:induction false} TimeGoesOn(s: State, e: Event)
    ensures s.now <= Apply(s, e).now
  {
    hide Idle;
    hide Minted;
    hide Reviewable;
    hide ReviewableHere;
    hide Redeemable;
    hide TooSoon;
    hide Polled;
  }

  // ---- polling ------------------------------------------------------------

  /** A request after being polled at these times. */
  function PolledAt(request: Request, times: seq<Time>): Request {
    if times == [] then request else Polled(PolledAt(request, times[..|times| - 1]), times[|times| - 1])
  }

  /** How many of those polls came before the interval asked for. */
  function Early(request: Request, times: seq<Time>): nat {
    if times == [] then 0
    else
      var last := |times| - 1;
      Early(request, times[..last]) + (if TooSoon(PolledAt(request, times[..last]), times[last]) then 1 else 0)
  }

  /** Each early poll adds five seconds to the interval, up to a minute, and the
      ones in time add nothing, in whatever order they come. */
  lemma {:induction false} EarlyPollsSlowDown(request: Request, times: seq<Time>)
    requires POLL_INTERVAL <= request.interval <= MAX_POLL_INTERVAL
    ensures var grown := request.interval + SLOW_DOWN * Early(request, times);
      PolledAt(request, times).interval == if grown < MAX_POLL_INTERVAL then grown else MAX_POLL_INTERVAL
  {
    if times != [] { EarlyPollsSlowDown(request, times[..|times| - 1]); }
  }

  /** A poll breaks off exactly at the instant a request expires that was neither
      redeemed nor denied: the check before it is for later instants, the update
      after it for earlier ones. It leaves no trace. */
  lemma {:induction false} PollBreaksExactly(s: State, id: Id, instance: Id, pair: Pair)
    ensures var (reply, t) := Poll(s, id, instance, pair);
      && (reply == Broken <==>
            id in s.requests && !s.requests[id].redeemed && s.requests[id].deniedBy.None? && s.now == s.requests[id].expires)
      && (reply == Broken ==> t == s)
  {
    hide Granted;
    hide Polled;
  }

  function Empty(now: Time): State { State(now, map[], map[], map[], map[], map[], {}, {}, []) }

  lemma {:induction false} EmptyIsOk(now: Time)
    ensures FamiliesOk(Empty(now)) && GrantsOk(Empty(now))
  {
  }
}
