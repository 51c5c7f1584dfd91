/** What linking promises of its applications: whose they are, and what each of
    their tokens is good for. */
module LinkingExact {
  import opened Sequences
  import opened LinkingState
  import opened LinkingLaws

  // ---- whose an instance is -----------------------------------------------

  /** A request or authorization as its user approved it. */
  predicate Stands(s: State, source: Source, user: Id) {
    match source
    case Device(id) => id in s.requests && s.requests[id].approvedBy == Some(user)
    case Browser(id) => id in s.authorizations && s.authorizations[id].approvedBy == Some(user)
  }

  /** The user approving it. */
  predicate Approves(e: Event, source: Source, user: Id) {
    match source
    case Device(id) => e == Approve(id, user)
    case Browser(id) => e.ApproveBrowser? && e.id == id && e.user == user
  }

  /** Whether some event of a run is this user's accepted approval. */
  ghost predicate Approved(s: State, events: seq<Event>, source: Source, user: Id)
    decreases |events|
  {
    events != []
    && ((Allowed(s, events[0]) && Approves(events[0], source, user))
        || Approved(Apply(s, events[0]), events[1..], source, user))
  }

  lemma {:induction false} PollStands(s: State, id: Id, instance: Id, pair: Pair, source: Source, user: Id)
    ensures Stands(Poll(s, id, instance, pair).1, source, user) ==> Stands(s, source, user)
  {
    hide TooSoon;
    hide Slower;
  }

  /** An approval is there before a step, or the step is it. */
  lemma {:induction false} StandsSince(s: State, e: Event, source: Source, user: Id)
    requires Allowed(s, e) && Stands(Effect(s, e), source, user)
    ensures Stands(s, source, user) || Approves(e, source, user)
  {
    hide Poll;
    hide Idle;
    hide Minted;
    hide Authenticates;
    if e.PollDevice? { PollStands(s, e.id, e.instance, e.pair, source, user); }
    hide Reviewable;
    hide ReviewableHere;
  }

  /** One instance in two states: nothing about whose it is has moved. */
  predicate SameOwner(s: State, t: State, i: Id) {
    && i in s.instances && i in t.instances
    && t.instances[i].user == s.instances[i].user && t.instances[i].source == s.instances[i].source
  }

  /** A step that links nothing. */
  lemma {:induction false} OwnersStay(s: State, e: Event, i: Id)
    requires Allowed(s, e) && !e.PollDevice? && !e.Exchange?
    ensures i in s.instances ==> SameOwner(s, Effect(s, e), i)
    ensures i in Effect(s, e).instances ==> i in s.instances
  {
    hide Idle;
    hide Minted;
    hide Reviewable;
    hide ReviewableHere;
  }

  lemma {:induction false} PollLinks(s: State, id: Id, instance: Id, pair: Pair, i: Id)
    requires instance !in s.instances
    ensures var t := Poll(s, id, instance, pair).1;
      && (i in s.instances ==> SameOwner(s, t, i))
      && (i in t.instances && i !in s.instances ==>
            i == instance && Stands(s, t.instances[i].source, t.instances[i].user))
  {
    hide TooSoon;
    hide Slower;
  }

  /** An instance linked by a step belongs to whoever had approved what it came from. */
  lemma {:induction false} LinkedBy(s: State, e: Event, i: Id)
    requires Allowed(s, e)
    ensures i in s.instances ==> SameOwner(s, Effect(s, e), i)
    ensures var t := Effect(s, e);
      i in t.instances && i !in s.instances ==> Stands(s, t.instances[i].source, t.instances[i].user)
  {
    hide Poll;
    if e.PollDevice? {
      PollLinks(s, e.id, e.instance, e.pair, i);
    } else if !e.Exchange? {
      OwnersStay(s, e, i);
      hide Effect;
    }
    hide Idle;
    hide Minted;
  }

  lemma {:induction false} StandsThrough(s: State, events: seq<Event>, source: Source, user: Id)
    requires Stands(Run(s, events), source, user)
    ensures Stands(s, source, user) || Approved(s, events, source, user)
    decreases |events|
  {
    if events != [] {
      hide Stands;
      hide Effect;
      hide Allowed;
      hide Approves;
      StandsThrough(Apply(s, events[0]), events[1..], source, user);
      if Allowed(s, events[0]) && Stands(Effect(s, events[0]), source, user) { StandsSince(s, events[0], source, user); }
    }
  }

  /** An instance never changes hands, and one that a run links belongs to the user
      who approved the request or authorization it came from. */
  lemma {:induction false} OwnersApproved(s: State, events: seq<Event>, i: Id)
    ensures var t := Run(s, events);
      && (i in s.instances ==> SameOwner(s, t, i))
      && (i in t.instances && i !in s.instances ==>
            var (source, user) := (t.instances[i].source, t.instances[i].user);
            Stands(s, source, user) || Approved(s, events, source, user))
    decreases |events|
  {
    if events != [] {
      hide Stands;
      hide Effect;
      hide Allowed;
      hide Approves;
      var t := Apply(s, events[0]);
      OwnersApproved(t, events[1..], i);
      if Allowed(s, events[0]) {
        LinkedBy(s, events[0], i);
        var u := Run(s, events);
        if i in u.instances && i !in s.instances && i !in t.instances {
          var (source, user) := (u.instances[i].source, u.instances[i].user);
          if Stands(t, source, user) { StandsSince(s, events[0], source, user); }
        }
      }
    }
  }

  // ---- deciding -----------------------------------------------------------

  /** Nobody has decided, it is in time, and nobody else is at it. */
  predicate OpenTo(
    reviewedBy: Option<Id>, approvedBy: Option<Id>, deniedBy: Option<Id>, redeemed: bool, expires: Time, user: Id, now: Time
  ) {
    reviewedBy in {None, Some(user)} && approvedBy.None? && deniedBy.None? && !redeemed && now < expires
  }

  /** A device request may be decided by any one user for ten minutes, and then is what
      that user made of it. */
  lemma {:induction false} RequestsSay(s: State, id: Id, user: Id, later: Time)
    ensures Allowed(s, Start(id)) ==>
      var t := Effect(s, Start(id));
      && t == s.(requests := s.requests[id := t.requests[id]], asked := s.asked + {Device(id)})
      && t.requests[id] == Request(None, None, None, false, None, 5, s.now + 10 * 60)
      && (Allowed(t.(now := later), Approve(id, user)) <==> later < s.now + 10 * 60)
    ensures var may := id in s.requests
                       && OpenTo(s.requests[id].reviewedBy, s.requests[id].approvedBy, s.requests[id].deniedBy,
                                 s.requests[id].redeemed, s.requests[id].expires, user, s.now);
      && (Allowed(s, Approve(id, user)) <==> may) && (Allowed(s, Deny(id, user)) <==> may)
      && (may ==>
            && Effect(s, Approve(id, user)) ==
                 s.(requests := s.requests[id := s.requests[id].(reviewedBy := Some(user), approvedBy := Some(user))])
            && Effect(s, Deny(id, user)) ==
                 s.(requests := s.requests[id := s.requests[id].(reviewedBy := Some(user), deniedBy := Some(user))]))
  {
  }

  /** The same of a browser authorization, for five minutes; an approval also gives the
      code. */
  lemma {:induction false} AuthorizationsSay(s: State, id: Id, redirect: string, challenge: Id, user: Id, code: Token, later: Time)
    ensures var e := StartBrowser(id, redirect, challenge);
      Allowed(s, e) ==>
        var t := Effect(s, e);
        && t == s.(authorizations := s.authorizations[id := t.authorizations[id]], asked := s.asked + {Browser(id)})
        && t.authorizations[id] == Authorization(redirect, challenge, None, None, None, None, false, s.now + 5 * 60)
        && (code !in s.minted ==>
              (Allowed(t.(now := later), ApproveBrowser(id, user, code)) <==> later < s.now + 5 * 60))
    ensures var may := id in s.authorizations
                       && OpenTo(s.authorizations[id].reviewedBy, s.authorizations[id].approvedBy, s.authorizations[id].deniedBy,
                                 s.authorizations[id].redeemed, s.authorizations[id].expires, user, s.now);
      && (Allowed(s, ApproveBrowser(id, user, code)) <==> may && code !in s.minted)
      && (Allowed(s, DenyBrowser(id, user)) <==> may)
      && (may && code !in s.minted ==>
            Effect(s, ApproveBrowser(id, user, code)) ==
              s.(authorizations := s.authorizations[id :=
                   s.authorizations[id].(reviewedBy := Some(user), approvedBy := Some(user), code := Some(code))],
                 minted := s.minted + {code}))
      && (may ==>
            Effect(s, DenyBrowser(id, user)) ==
              s.(authorizations := s.authorizations[id :=
                   s.authorizations[id].(reviewedBy := Some(user), deniedBy := Some(user))]))
  {
  }

  /** An exchange is accepted exactly with the code of an approved authorization that is
      in time and unspent, its own redirect and the verifier behind its challenge. */
  lemma {:induction false} ExchangesSay(s: State, e: Event)
    requires e.Exchange?
    ensures Allowed(s, e) <==>
      && e.instance !in s.instances && Minted(s, e.pair) && e.id in s.authorizations
      && var a := s.authorizations[e.id];
      && a.code == Some(e.code) && a.redirect == e.redirect && a.challenge == e.verifier
      && a.approvedBy.Some? && a.deniedBy.None? && !a.redeemed && s.now < a.expires
  {
    hide Minted;
  }

  // ---- one step, said outright --------------------------------------------

  /** One instance more, of that user and from that source, with the pair as its only
      credentials; nobody else's have moved. */
  ghost predicate Links(s: State, t: State, source: Source, user: Id, instance: Id, pair: Pair) {
    && t.now == s.now && t.instances.Keys == s.instances.Keys + {instance}
    && t.instances[instance].user == user && t.instances[instance].source == source
    && t.instances[instance].linkedAt == s.now && !t.instances[instance].revoked
    && (forall i | i in s.instances :: t.instances[i] == s.instances[i])
    && (forall i :: Accepts(t, pair.refresh, i) <==> i == instance)
    && (forall token, i :: Accepts(t, token, i) <==> Accepts(s, token, i) || (token == pair.refresh && i == instance))
    && (forall token ::
          Authenticates(t, token) == if token == pair.access then Some(instance) else Authenticates(s, token))
    && t.history == s.history && t.grants == s.grants + [source]
  }

  lemma {:induction false} GrantLinks(s: State, source: Source, user: Id, instance: Id, pair: Pair)
    requires FamiliesOk(s) && instance !in s.instances && Minted(s, pair)
    ensures Links(s, Granted(s, source, user, instance, pair), source, user, instance, pair)
  {
    forall j | j in s.instances ensures InstanceOk(s, j) {}
    var t := Granted(s, source, user, instance, pair);
    hide FamiliesOk;
    forall token, i ensures Accepts(t, token, i) <==> Accepts(s, token, i) || (token == pair.refresh && i == instance) {
    }
  }

  /** A request that a poll may still answer. */
  predicate Pollable(s: State, id: Id) {
    id in s.requests && !s.requests[id].redeemed && s.now < s.requests[id].expires && s.requests[id].deniedBy.None?
  }

  predicate TooEarly(request: Request, now: Time) {
    request.lastPolled.Some? && now < request.lastPolled.value + request.interval
  }

  /** The one request a poll touched: polled now, and five seconds slower, up to a
      minute, where it came too early. */
  predicate PolledOnce(before: Request, after: Request, now: Time) {
    after == Request(before.reviewedBy, before.approvedBy, before.deniedBy, after.redeemed, Some(now),
      if !TooEarly(before, now) then before.interval else if before.interval < 55 then before.interval + 5 else 60,
      before.expires)
  }

  /** What a poll answers, and what it leaves behind where it gives nothing. */
  lemma {:induction false} PollSays(s: State, id: Id, instance: Id, pair: Pair)
    ensures var (reply, t) := Poll(s, id, instance, pair);
      && (reply == NoRequest <==> id !in s.requests || s.requests[id].redeemed)
      && (reply == Expired <==> id in s.requests && !s.requests[id].redeemed && s.requests[id].expires < s.now)
      && (reply == Denied <==> id in s.requests && !s.requests[id].redeemed && s.now <= s.requests[id].expires
                               && s.requests[id].deniedBy.Some?)
      && (reply.SlowDown? <==> Pollable(s, id) && TooEarly(s.requests[id], s.now))
      && (reply == Waiting <==> Pollable(s, id) && !TooEarly(s.requests[id], s.now) && s.requests[id].approvedBy.None?)
      && (reply == Grant <==> Pollable(s, id) && !TooEarly(s.requests[id], s.now) && s.requests[id].approvedBy.Some?)
      && (!Pollable(s, id) ==> t == s)
      && (Pollable(s, id) ==>
            && t.requests.Keys == s.requests.Keys && PolledOnce(s.requests[id], t.requests[id], s.now)
            && (t.requests[id].redeemed <==> reply == Grant)
            && (reply.SlowDown? ==> reply.interval == t.requests[id].interval)
            && (forall r | r in s.requests && r != id :: t.requests[r] == s.requests[r])
            && t.authorizations == s.authorizations && t.asked == s.asked)
      && (reply != Grant ==> t.(requests := s.requests) == s)
  {
  }

  /** A poll that is granted links the new instance to the user who approved. */
  lemma {:induction false} PollLinksApprover(s: State, id: Id, instance: Id, pair: Pair)
    requires FamiliesOk(s) && instance !in s.instances && Minted(s, pair) && Poll(s, id, instance, pair).0 == Grant
    ensures s.requests[id].approvedBy.Some?
    ensures Links(s, Poll(s, id, instance, pair).1, Device(id), s.requests[id].approvedBy.value, instance, pair)
  {
    var request := s.requests[id];
    var recorded := s.(requests := s.requests[id := Polled(request, s.now).(redeemed := true)]);
    assert SameFamilies(s, recorded);
    SameKeepsFamilies(s, recorded);
    hide FamiliesOk;
    assert Poll(s, id, instance, pair).1 == Granted(recorded, Device(id), request.approvedBy.value, instance, pair);
    hide Poll;
    GrantLinks(recorded, Device(id), request.approvedBy.value, instance, pair);
    hide Granted;
    SameLinks(s, recorded, Poll(s, id, instance, pair).1, Device(id), request.approvedBy.value, instance, pair);
  }

  /** Only the tables of requests and authorizations lie between them. */
  lemma {:induction false} SameLinks(s: State, r: State, t: State, source: Source, user: Id, instance: Id, pair: Pair)
    requires r == s.(requests := r.requests, authorizations := r.authorizations)
    requires Links(r, t, source, user, instance, pair)
    ensures Links(s, t, source, user, instance, pair)
  {
    assert forall token, i :: Accepts(r, token, i) == Accepts(s, token, i);
    assert forall token :: Authenticates(r, token) == Authenticates(s, token);
    hide Accepts;
    hide Authenticates;
  }

  /** An exchanged code links the new instance to the user who approved, and is
      spent. */
  lemma {:induction false} ExchangeLinksApprover(s: State, e: Event)
    requires FamiliesOk(s) && e.Exchange? && Allowed(s, e)
    ensures s.authorizations[e.id].approvedBy.Some?
    ensures Links(s, Effect(s, e), Browser(e.id), s.authorizations[e.id].approvedBy.value, e.instance, e.pair)
    ensures Effect(s, e).authorizations == s.authorizations[e.id := s.authorizations[e.id].(redeemed := true)]
    ensures Effect(s, e).requests == s.requests && Effect(s, e).asked == s.asked
  {
    var authorization := s.authorizations[e.id];
    var spent := s.(authorizations := s.authorizations[e.id := authorization.(redeemed := true)]);
    assert SameFamilies(s, spent);
    SameKeepsFamilies(s, spent);
    hide FamiliesOk;
    var t := Effect(s, e);
    assert t == Granted(spent, Browser(e.id), authorization.approvedBy.value, e.instance, e.pair);
    assert t.authorizations == spent.authorizations && t.requests == s.requests && t.asked == s.asked;
    GrantLinks(spent, Browser(e.id), authorization.approvedBy.value, e.instance, e.pair);
    hide Effect;
    hide Granted;
    SameLinks(s, spent, t, Browser(e.id), authorization.approvedBy.value, e.instance, e.pair);
  }

  // ---- refreshing ---------------------------------------------------------

  /** One instance cut off: it accepts nothing, and nobody else notices. */
  ghost predicate CutsOff(s: State, t: State, i: Id) {
    && i in s.instances && t == s.(instances := t.instances, access := t.access)
    && t.instances.Keys == s.instances.Keys && t.instances[i].revoked
    && (forall j | j in s.instances && j != i :: t.instances[j] == s.instances[j])
    && (forall token, j :: Accepts(t, token, j) <==> Accepts(s, token, j) && j != i)
    && (forall token ::
          Authenticates(t, token) == if Authenticates(s, token) == Some(i) then None else Authenticates(s, token))
  }

  lemma {:induction false} RevokedAuthenticates(s: State, i: Id, token: Token)
    ensures Authenticates(Revoked(s, i), token) == if Authenticates(s, token) == Some(i) then None else Authenticates(s, token)
  {
  }

  lemma {:induction false} RevokedAccepts(s: State, i: Id, token: Token, j: Id)
    requires FamiliesOk(s)
    ensures Accepts(Revoked(s, i), token, j) <==> Accepts(s, token, j) && j != i
  {
    if j in s.instances { assert InstanceOk(s, j); }
    hide FamiliesOk;
  }

  lemma {:induction false} RevokingCutsOff(s: State, i: Id)
    requires FamiliesOk(s) && i in s.instances
    ensures CutsOff(s, Revoked(s, i), i)
  {
    hide FamiliesOk;
    hide Accepts;
    hide Authenticates;
    forall token ensures Authenticates(Revoked(s, i), token) ==
                         if Authenticates(s, token) == Some(i) then None else Authenticates(s, token) {
      RevokedAuthenticates(s, i, token);
    }
    forall token, j ensures Accepts(Revoked(s, i), token, j) <==> Accepts(s, token, j) && j != i {
      RevokedAccepts(s, i, token, j);
    }
  }

  /** The token traded for the next pair: the new refresh token is accepted in its
      place, the access token lives beside those there are, and whose it is stays. */
  ghost predicate TradesIn(s: State, t: State, token: Token, i: Id, pair: Pair) {
    && i in s.instances && t == s.(instances := t.instances, access := t.access, history := t.history, minted := t.minted)
    && t.instances.Keys == s.instances.Keys && SameOwner(s, t, i)
    && t.instances[i].linkedAt == s.instances[i].linkedAt && t.instances[i].lastSeen == Some(s.now)
    && !t.instances[i].revoked
    && (forall j | j in s.instances && j != i :: t.instances[j] == s.instances[j])
    && (forall other, j :: Accepts(t, other, j) <==> if j == i then other == pair.refresh else Accepts(s, other, j))
    && (forall j :: !Accepts(t, token, j))
    && (forall other ::
          Authenticates(t, other) == if other == pair.access then Some(i) else Authenticates(s, other))
    && t.history == s.history[token := Used(i, s.now + 90 * 24 * 60 * 60)]
  }

  lemma {:induction false} RotatingTradesIn(s: State, token: Token, i: Id, pair: Pair)
    requires FamiliesOk(s) && Accepts(s, token, i) && Minted(s, pair)
    ensures TradesIn(s, Rotate(s, token, i, pair), token, i, pair)
  {
    forall j | j in s.instances ensures InstanceOk(s, j) {}
    var t := Rotate(s, token, i, pair);
    assert forall j :: !Accepts(t, token, j);
    hide FamiliesOk;
    forall other ensures Authenticates(t, other) == if other == pair.access then Some(i) else Authenticates(s, other) {
    }
  }

  /** When an instance was last heard of. */
  function LastHeard(instance: Instance): Time {
    match instance.lastSeen
    case None => instance.linkedAt
    case Some(seen) => if seen < instance.linkedAt then instance.linkedAt else seen
  }

  /** A refresh: an instance heard of within ninety days gets its next pair and one
      not heard of is cut off; a token traded in before, inside its window, cuts off
      the instance it belonged to; any other token does nothing. */
  lemma {:induction false} RefreshSays(s: State, token: Token, holder: Option<Id>, pair: Pair)
    requires FamiliesOk(s) && Allowed(s, Refresh(token, holder, pair))
    ensures var (reply, t) := Refreshed(s, token, holder, pair);
      && (holder.Some? ==>
            if s.now <= LastHeard(s.instances[holder.value]) + 90 * 24 * 60 * 60
            then reply == Rotated && TradesIn(s, t, token, holder.value, pair)
            else reply == NotACredential && CutsOff(s, t, holder.value))
      && (holder.None? ==>
            if token in s.history && s.now < s.history[token].until
            then reply == Reuse && CutsOff(s, t, s.history[token].instance)
            else reply == NotACredential && t == s)
  {
    hide Minted;
    hide Rotate;
    hide Revoked;
    hide CutsOff;
    hide TradesIn;
    match holder
    case Some(i) =>
      RevokingCutsOff(s, i);
      RotatingTradesIn(s, token, i, pair);
    case None =>
      if token in s.history { RevokingCutsOff(s, s.history[token].instance); }
  }

  // ---- how long an access token lasts -------------------------------------

  /** A token of this instance, there until its time is over or the instance is
      revoked. */
  ghost predicate Lasting(s: State, token: Token, i: Id, until: Time) {
    && i in s.instances && token in s.minted
    && if token in s.access then s.access[token] == Access(i, until) else s.instances[i].revoked || until <= s.now
  }

  lemma {:induction false} GrantLasting(s: State, source: Source, user: Id, instance: Id, pair: Pair, token: Token, i: Id, until: Time)
    requires Lasting(s, token, i, until) && instance !in s.instances && Minted(s, pair)
    ensures Lasting(Granted(s, source, user, instance, pair), token, i, until)
  {
  }

  lemma {:induction false} PollLasting(s: State, id: Id, instance: Id, pair: Pair, token: Token, i: Id, until: Time)
    requires Lasting(s, token, i, until) && instance !in s.instances && Minted(s, pair)
    ensures Lasting(Poll(s, id, instance, pair).1, token, i, until)
  {
    hide Polled;
    hide TooSoon;
  }

  lemma {:induction false} RevokedLasting(s: State, j: Id, token: Token, i: Id, until: Time)
    requires Lasting(s, token, i, until)
    ensures Lasting(Revoked(s, j), token, i, until)
  {
  }

  lemma {:induction false} RotateLasting(s: State, used: Token, j: Id, pair: Pair, token: Token, i: Id, until: Time)
    requires Lasting(s, token, i, until) && j in s.instances && Minted(s, pair)
    ensures Lasting(Rotate(s, used, j, pair), token, i, until)
  {
  }

  lemma {:induction false} RefreshLasting(s: State, e: Event, token: Token, i: Id, until: Time)
    requires e.Refresh? && Allowed(s, e) && Lasting(s, token, i, until)
    ensures Lasting(Effect(s, e), token, i, until)
  {
    hide Lasting;
    hide Rotate;
    hide Revoked;
    hide Minted;
    match e.holder
    case Some(j) =>
      RevokedLasting(s, j, token, i, until);
      RotateLasting(s, e.token, j, e.pair, token, i, until);
    case None =>
      if e.token in s.history { RevokedLasting(s, s.history[e.token].instance, token, i, until); }
  }

  lemma {:induction false} ExchangeLasting(s: State, e: Event, token: Token, i: Id, until: Time)
    requires e.Exchange? && Allowed(s, e) && Lasting(s, token, i, until)
    ensures Lasting(Effect(s, e), token, i, until)
  {
    var spent := s.(authorizations := s.authorizations[e.id := s.authorizations[e.id].(redeemed := true)]);
    GrantLasting(spent, Browser(e.id), s.authorizations[e.id].approvedBy.value, e.instance, e.pair, token, i, until);
  }

  lemma {:induction false} StillLasting(s: State, e: Event, token: Token, i: Id, until: Time)
    requires Allowed(s, e) && Lasting(s, token, i, until)
    ensures Lasting(Effect(s, e), token, i, until)
  {
    hide Poll;
    hide Granted;
    hide Reviewable;
    hide ReviewableHere;
    hide Minted;
    match e
    case PollDevice(id, instance, pair) => PollLasting(s, id, instance, pair, token, i, until);
    case Exchange(_, _, _, _, _, _) =>
      ExchangeLasting(s, e, token, i, until);
      hide Effect;
    case Refresh(_, _, _) =>
      RefreshLasting(s, e, token, i, until);
      hide Effect;
    case Revoke(j) => RevokedLasting(s, j, token, i, until);
    case Authenticate(_) =>
    case ForgetAccess(_) =>
    case Tick(_) =>
    case ForgetUsed(_) =>
    case _ =>
      OthersSameFamilies(s, e);
      OthersSameClock(s, e);
      hide Effect;
  }

  /** Through any run an access token authenticates the instance it was minted for,
      for as long as that is not revoked and for exactly so long as it was given. */
  lemma {:induction false} LastingThrough(s: State, events: seq<Event>, token: Token, i: Id, until: Time)
    requires FamiliesOk(s) && Lasting(s, token, i, until)
    ensures var t := Run(s, events);
      i in t.instances && Authenticates(t, token) == if t.now < until && !t.instances[i].revoked then Some(i) else None
    decreases |events|
  {
    if events != [] {
      hide FamiliesOk;
      hide Effect;
      hide Allowed;
      hide Lasting;
      if Allowed(s, events[0]) {
        KeepsFamilies(s, events[0]);
        StillLasting(s, events[0], token, i, until);
      }
      LastingThrough(Apply(s, events[0]), events[1..], token, i, until);
    }
  }

  /** The instance a step gave a pair of tokens to. */
  ghost function GivenTo(s: State, e: Event): Option<Id> {
    match e
    case PollDevice(id, instance, pair) => if Poll(s, id, instance, pair).0 == Grant then Some(instance) else None
    case Exchange(_, _, _, _, instance, _) => Some(instance)
    case Refresh(token, holder, pair) =>
      if holder.Some? && holder.value in s.instances && !Idle(s, holder.value) then holder else None
    case _ => None
  }

  lemma {:induction false} GivenLasting(s: State, e: Event)
    requires Allowed(s, e) && GivenTo(s, e).Some?
    ensures Lasting(Effect(s, e), e.pair.access, GivenTo(s, e).value, s.now + 15 * 60)
  {
    hide Redeemable;
    hide Minted;
    hide TooSoon;
    hide Polled;
  }

  /** The access token of a grant or a refresh is good for fifteen minutes, whatever
      happens in between, unless the instance is revoked. */
  lemma {:induction false} AccessTokensLast(s: State, e: Event, events: seq<Event>)
    requires FamiliesOk(s) && Allowed(s, e) && GivenTo(s, e).Some?
    ensures var (t, i) := (Run(Effect(s, e), events), GivenTo(s, e).value);
      && i in t.instances
      && Authenticates(t, e.pair.access) == if t.now < s.now + 15 * 60 && !t.instances[i].revoked then Some(i) else None
  {
    KeepsFamilies(s, e);
    GivenLasting(s, e);
    hide *;
    LastingThrough(Effect(s, e), events, e.pair.access, GivenTo(s, e).value, s.now + 15 * 60);
  }

  // ---- one instance for each approval -------------------------------------

  /** Every instance came from a grant, and no two from the same. */
  ghost predicate Singly(s: State) {
    && (forall i | i in s.instances :: Times(s.grants, s.instances[i].source) > 0)
    && (forall i, j | i in s.instances && j in s.instances && s.instances[i].source == s.instances[j].source :: i == j)
  }

  lemma {:induction false} LinkSingly(s: State, t: State, source: Source, user: Id, instance: Id, pair: Pair)
    requires Singly(s) && Links(s, t, source, user, instance, pair) && Times(s.grants, source) == 0
    ensures Singly(t)
  {
    hide Times;
    hide Accepts;
    hide Authenticates;
    forall other ensures Times(t.grants, other) == Times(s.grants, other) + (if other == source then 1 else 0) {
      OneMore(s.grants, source, other);
    }
  }

  lemma {:induction false} OthersSingly(s: State, e: Event)
    requires Singly(s) && Allowed(s, e) && !e.PollDevice? && !e.Exchange?
    ensures Singly(Effect(s, e))
  {
    var t := Effect(s, e);
    forall i | i in t.instances ensures i in s.instances && t.instances[i].source == s.instances[i].source {
      OwnersStay(s, e, i);
    }
    OthersSameGrants(s, e);
    hide Effect;
    hide Allowed;
    hide Times;
  }

  lemma {:induction false} OthersSameGrants(s: State, e: Event)
    requires Allowed(s, e) && !e.PollDevice? && !e.Exchange?
    ensures Effect(s, e).grants == s.grants
  {
    hide Idle;
    hide Minted;
    hide Reviewable;
    hide ReviewableHere;
  }

  lemma {:induction false} KeepsSingly(s: State, e: Event)
    requires FamiliesOk(s) && GrantsOk(s) && Singly(s) && Allowed(s, e)
    ensures Singly(Effect(s, e))
  {
    hide FamiliesOk;
    hide GrantsOk;
    hide Links;
    hide Minted;
    if e.PollDevice? {
      PollSays(s, e.id, e.instance, e.pair);
      if Poll(s, e.id, e.instance, e.pair).0 == Grant {
        NotGivenYet(s, Device(e.id));
        PollLinksApprover(s, e.id, e.instance, e.pair);
        LinkSingly(s, Effect(s, e), Device(e.id), s.requests[e.id].approvedBy.value, e.instance, e.pair);
      }
      hide Poll;
    } else if e.Exchange? {
      NotGivenYet(s, Browser(e.id));
      ExchangeLinksApprover(s, e);
      LinkSingly(s, Effect(s, e), Browser(e.id), s.authorizations[e.id].approvedBy.value, e.instance, e.pair);
      hide Effect;
    } else {
      OthersSingly(s, e);
      hide Effect;
    }
  }

  /** After any run no two instances were linked by one approval. */
  lemma {:induction false} OneInstanceEach(s: State, events: seq<Event>)
    requires FamiliesOk(s) && GrantsOk(s) && Singly(s)
    ensures Singly(Run(s, events))
    decreases |events|
  {
    if events != [] {
      hide FamiliesOk;
      hide GrantsOk;
      hide Singly;
      hide Effect;
      hide Allowed;
      var t := Apply(s, events[0]);
      if Allowed(s, events[0]) {
        KeepsFamilies(s, events[0]);
        KeepsSingly(s, events[0]);
      }
      RunKeepsGrants(s, [events[0]]);
      assert Run(s, [events[0]]) == t by { assert [events[0]][1..] == []; }
      OneInstanceEach(t, events[1..]);
    }
  }

  /** From empty tables every instance was approved, in the same run, by its user,
      and no two by one approval. */
  lemma {:induction false} EveryOwnerApproved(now: Time, events: seq<Event>)
    ensures var t := Run(Empty(now), events);
      && (forall i | i in t.instances :: Approved(Empty(now), events, t.instances[i].source, t.instances[i].user))
      && (forall i, j | i in t.instances && j in t.instances && t.instances[i].source == t.instances[j].source :: i == j)
  {
    EmptyIsOk(now);
    OneInstanceEach(Empty(now), events);
    hide FamiliesOk;
    hide GrantsOk;
    hide Run;
    hide Approved;
    hide Times;
    var t := Run(Empty(now), events);
    forall i | i in t.instances ensures Approved(Empty(now), events, t.instances[i].source, t.instances[i].user) {
      OwnersApproved(Empty(now), events, i);
    }
  }
}
