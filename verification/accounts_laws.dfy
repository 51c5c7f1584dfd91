/** What every run keeps of emails, handles and ways to sign in. */
module AccountsLaws {
  import opened Sequences
  import opened AccountsState

  // ---- emails -------------------------------------------------------------

  /** A verified email is on one row and no link still waits for it. */
  ghost predicate EmailsOk(s: State) {
    && (forall u | u in s.users && s.users[u].verified :: s.users[u].email.Some?)
    && (forall u, v | u in s.users && v in s.users && s.users[u].verified && s.users[v].email == s.users[u].email :: u == v)
    && (forall u, t | u in s.users && s.users[u].verified && t in s.tokens :: s.users[u].email != Some(s.tokens[t].email))
  }

  lemma {:induction false} NotClaimed(s: State, email: string, u: Id)
    requires !Claimed(s, email) && u in s.users && s.users[u].verified
    ensures s.users[u].email != Some(email)
  {
  }

  lemma {:induction false} SettleKeepsEmails(s: State, user: Id, row: User, email: string)
    requires EmailsOk(s) && !Claimed(s, email) && row.verified && row.email == Some(email)
    ensures EmailsOk(Settle(s, user, row, email))
  {
    var t := Settle(s, user, row, email);
    forall u | u in s.users && s.users[u].verified ensures s.users[u].email != Some(email) { NotClaimed(s, email, u); }
    hide Claimed;
    forall u | u in t.users ensures t.users[u].verified ==> u == user || (u in s.users && t.users[u] == s.users[u]) {}
    forall u | u in t.users ensures t.users[u].email == Some(email) ==> u == user {}
    forall u | u in t.users && u != user ensures u in s.users && (t.users[u].email == s.users[u].email || t.users[u].email.None?) {}
  }

  lemma {:induction false} TokenKeepsEmails(s: State, e: Event)
    requires EmailsOk(s) && Allowed(s, e) && (e.SignUp? || e.ChangeEmail?)
    ensures EmailsOk(Effect(s, e))
  {
    forall u | u in s.users && s.users[u].verified ensures s.users[u].email != Some(e.email) { NotClaimed(s, e.email, u); }
    hide Claimed;
    hide Unavailable;
  }

  lemma {:induction false} SettlingKeepsEmails(s: State, e: Event)
    requires EmailsOk(s) && Allowed(s, e) && (e.Verify? || e.DiscordSync?)
    ensures EmailsOk(Effect(s, e))
  {
    hide EmailsOk;
    hide Claimed;
    hide Settle;
    match e
    case Verify(token) =>
      var user := s.tokens[token].user;
      SettleKeepsEmails(s, user, s.users[user].(verified := true), s.tokens[token].email);
    case DiscordSync(subject, email) =>
      var user := s.identities[subject];
      if Syncs(s.users[user], email) {
        SettleKeepsEmails(s, user, s.users[user].(email := email, verified := true, origin := Some(Discord)), email.value);
      }
  }

  lemma {:induction false} OthersKeepEmails(s: State, e: Event)
    requires EmailsOk(s) && Allowed(s, e)
    requires e.Rename? || e.SetPassword? || e.Attach? || e.Detach? || e.Forget? || e.Tick?
    ensures EmailsOk(Effect(s, e))
  {
    hide Claimed;
    hide Unavailable;
    hide HasIdentity;
  }

  lemma {:induction false} KeepsEmails(s: State, e: Event)
    requires EmailsOk(s) && Allowed(s, e)
    ensures EmailsOk(Effect(s, e))
  {
    hide EmailsOk;
    hide Effect;
    hide Allowed;
    match e
    case SignUp(_, _, _, _) => TokenKeepsEmails(s, e);
    case ChangeEmail(_, _, _) => TokenKeepsEmails(s, e);
    case Verify(_) => SettlingKeepsEmails(s, e);
    case DiscordSync(_, _) => SettlingKeepsEmails(s, e);
    case DiscordCreate(_, _, _, _) => CreateKeepsEmails(s, e);
    case _ => OthersKeepEmails(s, e);
  }

  lemma {:induction false} CreateKeepsEmails(s: State, e: Event)
    requires EmailsOk(s) && e.DiscordCreate? && Allowed(s, e)
    ensures EmailsOk(Effect(s, e))
  {
    var added := s.(identities := s.identities[e.subject := e.id], held := s.held[e.handle := e.id],
                    linked := s.linked + {e.id});
    assert EmailsOk(added);
    if e.profile.Some? {
      assert !Claimed(added, e.profile.value);
      hide EmailsOk;
      SettleKeepsEmails(added, e.id, User(e.handle, e.profile, true, Some(Discord), false), e.profile.value);
    }
  }

  // ---- handles ------------------------------------------------------------

  /** Each handle in use or retired belongs to the account it was first given to. */
  ghost predicate HandlesOk(s: State) {
    && (forall u | u in s.users ::
          s.users[u].handle !in s.retired && s.users[u].handle in s.held && s.held[s.users[u].handle] == u)
    && (forall h | h in s.retired :: h in s.held)
    && (forall h | h in s.held :: h in s.retired || (s.held[h] in s.users && s.users[s.held[h]].handle == h))
  }

  /** The handles and their owners after a step that renames nobody. */
  ghost predicate SameHandles(s: State, t: State) {
    && t.retired == s.retired && t.held == s.held && t.users.Keys == s.users.Keys
    && forall u | u in s.users :: t.users[u].handle == s.users[u].handle
  }

  lemma {:induction false} OthersSameHandles(s: State, e: Event)
    requires Allowed(s, e) && !e.SignUp? && !e.DiscordCreate? && !e.Rename?
    ensures SameHandles(s, Effect(s, e))
  {
    hide Claimed;
    hide Unavailable;
    hide HasIdentity;
  }

  /** A new account takes a handle nobody has or had. */
  ghost predicate NewHandle(s: State, t: State, id: Id, handle: string) {
    && !Unavailable(s, handle) && id !in s.users && t.retired == s.retired && t.held == s.held[handle := id]
    && t.users.Keys == s.users.Keys + {id} && t.users[id].handle == handle
    && forall u | u in s.users :: t.users[u].handle == s.users[u].handle
  }

  lemma {:induction false} NewHandleIs(s: State, e: Event)
    requires Allowed(s, e) && (e.SignUp? || e.DiscordCreate?)
    ensures NewHandle(s, Effect(s, e), e.id, e.handle)
  {
    hide Claimed;
    hide HasIdentity;
    hide Unavailable;
  }

  lemma {:induction false} FreeHandle(s: State, handle: string)
    requires HandlesOk(s) && !Unavailable(s, handle)
    ensures handle !in s.held && handle !in s.retired && forall u | u in s.users :: s.users[u].handle != handle
  {
  }

  lemma {:induction false} KeepsHandles(s: State, e: Event)
    requires HandlesOk(s) && Allowed(s, e)
    ensures HandlesOk(Effect(s, e))
  {
    hide *;
    if e.SignUp? || e.DiscordCreate? {
      NewcomerKeepsHandles(s, e);
    } else if e.Rename? {
      RenameKeepsHandles(s, e);
    } else {
      OthersKeepHandles(s, e);
    }
  }

  lemma {:induction false} NewcomerKeepsHandles(s: State, e: Event)
    requires HandlesOk(s) && Allowed(s, e) && (e.SignUp? || e.DiscordCreate?)
    ensures HandlesOk(Effect(s, e))
  {
    NewHandleIs(s, e);
    assert !Unavailable(s, e.handle);
    hide Effect;
    hide Allowed;
    FreeHandle(s, e.handle);
    hide Unavailable;
  }

  lemma {:induction false} RenameKeepsHandles(s: State, e: Event)
    requires HandlesOk(s) && Allowed(s, e) && e.Rename?
    ensures HandlesOk(Effect(s, e))
  {
    if e.handle != s.users[e.user].handle { FreeHandle(s, e.handle); }
    hide Unavailable;
    hide Claimed;
    hide HasIdentity;
  }

  lemma {:induction false} OthersKeepHandles(s: State, e: Event)
    requires HandlesOk(s) && Allowed(s, e) && !e.SignUp? && !e.DiscordCreate? && !e.Rename?
    ensures HandlesOk(Effect(s, e))
  {
    OthersSameHandles(s, e);
    hide Effect;
    hide Allowed;
  }

  /** Whom each handle was given to never changes, and a retired one stays so. */
  ghost predicate HandlesKept(s: State, t: State) {
    && s.retired <= t.retired && (forall h | h in s.held :: h in t.held && t.held[h] == s.held[h])
  }

  lemma {:induction false} StepKeepsHeld(s: State, e: Event)
    requires HandlesOk(s) && Allowed(s, e)
    ensures HandlesKept(s, Effect(s, e))
  {
    if e.SignUp? || e.DiscordCreate? {
      NewHandleIs(s, e);
      FreeHandle(s, e.handle);
      hide Effect;
      hide Allowed;
    } else if e.Rename? {
      if e.handle != s.users[e.user].handle { FreeHandle(s, e.handle); }
    } else {
      OthersSameHandles(s, e);
      hide Effect;
      hide Allowed;
    }
  }

  // ---- ways to sign in ----------------------------------------------------

  /** Everybody can sign in, and whoever verified an email or ever linked Discord
      still has Discord or a verified email with a password. */
  ghost predicate SignInOk(s: State) {
    && (forall u | u in s.users :: HasIdentity(s, u) || s.users[u].password)
    && (forall u | u in s.linked :: u in s.users && (HasIdentity(s, u) || s.users[u].verified))
    && (forall d | d in s.identities :: s.identities[d] in s.users && s.identities[d] in s.linked)
  }

  /** Nobody loses an identity, a password or a verified email. */
  ghost predicate Gains(s: State, t: State) {
    && (forall u | u in s.users :: u in t.users)
    && (forall u | u in s.users ::
          (s.users[u].password ==> t.users[u].password) && (s.users[u].verified ==> t.users[u].verified))
    && (forall d | d in s.identities :: d in t.identities && t.identities[d] == s.identities[d])
    && (forall u | u in t.users && u !in s.users :: HasIdentity(t, u) || t.users[u].password)
    && (forall u | u in t.linked && u !in s.linked :: u in t.users && HasIdentity(t, u))
    && (forall d | d in t.identities && d !in s.identities :: t.identities[d] in t.users && t.identities[d] in t.linked)
    && s.linked <= t.linked
  }

  lemma {:induction false} GainsKeeps(s: State, t: State)
    requires SignInOk(s) && Gains(s, t)
    ensures SignInOk(t)
  {
    forall u | HasIdentity(s, u) ensures HasIdentity(t, u) {
      var d :| d in s.identities && s.identities[d] == u;
      assert t.identities[d] == u;
    }
  }

  lemma {:induction false} CreateGains(s: State, e: Event)
    requires Allowed(s, e) && e.DiscordCreate?
    ensures Gains(s, Effect(s, e))
  {
    hide Claimed;
    hide Unavailable;
    var t := Effect(s, e);
    assert t.identities == s.identities[e.subject := e.id] && t.identities[e.subject] == e.id;
    forall u | u in t.linked && u !in s.linked ensures u in t.users && HasIdentity(t, u) {
      assert t.identities[e.subject] == u;
    }
  }

  lemma {:induction false} MostStepsGain(s: State, e: Event)
    requires Allowed(s, e) && !e.Detach? && !e.DiscordCreate?
    ensures Gains(s, Effect(s, e))
  {
    if e.Attach? { assert Effect(s, e).identities[e.subject] == e.user; }
    hide Claimed;
    hide Unavailable;
    hide MaySync;
  }

  lemma {:induction false} DetachKeeps(s: State, user: Id)
    requires SignInOk(s) && Allowed(s, Detach(user))
    ensures SignInOk(Effect(s, Detach(user)))
  {
    var t := Effect(s, Detach(user));
    forall u | u != user && HasIdentity(s, u) ensures HasIdentity(t, u) {
      var d :| d in s.identities && s.identities[d] == u;
      assert t.identities[d] == u;
    }
  }

  lemma {:induction false} KeepsSignIn(s: State, e: Event)
    requires SignInOk(s) && Allowed(s, e)
    ensures SignInOk(Effect(s, e))
  {
    if e.Detach? {
      DetachKeeps(s, e.user);
    } else {
      if e.DiscordCreate? { CreateGains(s, e); } else { MostStepsGain(s, e); }
      hide Effect;
      hide Allowed;
      hide SignInOk;
      GainsKeeps(s, Effect(s, e));
    }
  }

  // ---- every run ----------------------------------------------------------

  ghost predicate AccountsOk(s: State) { EmailsOk(s) && HandlesOk(s) && SignInOk(s) }

  lemma {:induction false} RunKeepsAccounts(s: State, events: seq<Event>)
    requires AccountsOk(s)
    ensures AccountsOk(Run(s, events)) && HandlesKept(s, Run(s, events))
    decreases |events|
  {
    if events != [] {
      var e := events[0];
      hide EmailsOk;
      hide HandlesOk;
      hide SignInOk;
      hide Effect;
      hide Allowed;
      if Allowed(s, e) {
        KeepsEmails(s, e);
        KeepsHandles(s, e);
        KeepsSignIn(s, e);
        StepKeepsHeld(s, e);
      }
      RunKeepsAccounts(Apply(s, e), events[1..]);
    }
  }

  /** A handle somebody once held is never held by anybody else, and one that was
      given up is never held again, not even by who gave it up. */
  lemma {:induction false} HandlesAreForLife(s: State, events: seq<Event>, u: Id, v: Id)
    requires AccountsOk(s) && u in s.users
    ensures var t := Run(s, events);
      && (v in t.users && t.users[v].handle == s.users[u].handle ==> v == u)
      && (v in t.users ==> t.users[v].handle !in s.retired)
  {
    RunKeepsAccounts(s, events);
    hide Run;
    hide EmailsOk;
    hide SignInOk;
  }

  /** Nobody who verified an email or ever linked Discord is locked out. */
  lemma {:induction false} NobodyIsLockedOut(s: State, events: seq<Event>, u: Id)
    requires AccountsOk(s)
    ensures var t := Run(s, events);
      u in t.users && (t.users[u].verified || u in t.linked) ==>
        HasIdentity(t, u) || (t.users[u].verified && t.users[u].password)
  {
    RunKeepsAccounts(s, events);
    hide Run;
    hide EmailsOk;
    hide HandlesOk;
  }

  // ---- several Discord identities -----------------------------------------

  function Attaches(user: Id, subjects: seq<Subject>): seq<Event> { Map((d: Subject) => Attach(user, d), subjects) }

  ghost predicate Reaches(s: State, user: Id, subjects: seq<Subject>) {
    forall d | d in subjects :: d in s.identities && s.identities[d] == user
  }

  /** Everything but the identities given to one account is as it was. */
  ghost predicate SameBut(s: State, t: State, user: Id) {
    && t.users == s.users && t.tokens == s.tokens && t.now == s.now && t.retired == s.retired && t.held == s.held
    && (forall d | d in s.identities :: d in t.identities && t.identities[d] == s.identities[d])
    && (forall d | d in t.identities && t.identities[d] != user :: d in s.identities)
  }

  /** An account can take any number of identities, and every one leads to it. */
  lemma {:induction false} AttachesMany(s: State, user: Id, subjects: seq<Subject>)
    requires user in s.users && forall d | d in subjects && d in s.identities :: s.identities[d] == user
    ensures var t := Run(s, Attaches(user, subjects)); Reaches(t, user, subjects) && SameBut(s, t, user)
    decreases |subjects|
  {
    if subjects != [] {
      var next, rest := Apply(s, Attach(user, subjects[0])), subjects[1..];
      assert Attaches(user, subjects)[0] == Attach(user, subjects[0]);
      assert Attaches(user, subjects)[1..] == Attaches(user, rest);
      AttachesMany(next, user, rest);
    }
  }

  /** A detach clears them all at once, and nobody else's. */
  lemma {:induction false} DetachesAll(s: State, user: Id, subjects: seq<Subject>)
    requires user in s.users && s.users[user].verified && s.users[user].password && subjects != []
    requires forall d | d in subjects && d in s.identities :: s.identities[d] == user
    ensures var t := Apply(Run(s, Attaches(user, subjects)), Detach(user));
      && !HasIdentity(t, user)
      && forall d | d in s.identities && s.identities[d] != user :: d in t.identities && t.identities[d] == s.identities[d]
  {
    AttachesMany(s, user, subjects);
    hide Run;
    hide Attaches;
    var linked := Run(s, Attaches(user, subjects));
    assert subjects[0] in subjects && linked.identities[subjects[0]] == user;
    assert Allowed(linked, Detach(user));
  }

  /** From empty tables: somebody signs up, verifies, links two Discord identities
      that both lead to the account, and detaches both. */
  lemma {:induction false} TwoIdentities(now: Time, handle: string, email: string)
    ensures var s := Run(Empty(now), [SignUp(0, handle, email, 0), Verify(0)]);
      && AccountsOk(s) && 0 in s.users && s.users[0].verified && s.users[0].password
      && Reaches(Run(s, Attaches(0, [1, 2])), 0, [1, 2])
      && !HasIdentity(Apply(Run(s, Attaches(0, [1, 2])), Detach(0)), 0)
  {
    var up, verify := SignUp(0, handle, email, 0), Verify(0);
    EmptyIsOk(now);
    RunKeepsAccounts(Empty(now), [up, verify]);
    var first := Apply(Empty(now), up);
    assert first.users == map[0 := User(handle, Some(email), false, Some(Creator), true)];
    assert [up, verify][1..] == [verify] && [verify][1..] == [];
    assert Run(first, [verify]) == Run(Apply(first, verify), []) == Apply(first, verify);
    var s := Run(Empty(now), [up, verify]);
    assert s == Apply(first, verify);
    assert s.users[0] == User(handle, Some(email), true, Some(Creator), true) && s.identities == map[];
    hide Run;
    hide Apply;
    hide AccountsOk;
    AttachesMany(s, 0, [1, 2]);
    DetachesAll(s, 0, [1, 2]);
  }

  function Empty(now: Time): State { State(now, map[], {}, map[], map[], map[], {}) }

  lemma {:induction false} EmptyIsOk(now: Time)
    ensures AccountsOk(Empty(now))
  {
  }
}
