/** What each account transaction leaves behind, and what becomes of a handle that
    was given up. */
module AccountsExact {
  import opened Sequences
  import opened AccountsState
  import opened AccountsLaws

  /** An account has verified an email: whoever was only waiting to verify it has lost
      it, and so is every link that would have. Nobody else is touched. */
  ghost predicate Takes(s: State, t: State, user: Id, email: string) {
    && t.users.Keys == s.users.Keys + {user} && t.users[user].email == Some(email) && t.users[user].verified
    && (forall u | u in s.users && u != user ::
          t.users[u] ==
            if s.users[u].email == Some(email) && !s.users[u].verified
            then User(s.users[u].handle, None, false, None, s.users[u].password)
            else s.users[u])
    && (forall k :: k in t.tokens <==> k in s.tokens && s.tokens[k].email != email)
    && (forall k | k in t.tokens :: t.tokens[k] == s.tokens[k])
  }

  /** Nothing but one account's row lies between two states. */
  ghost predicate Only(s: State, t: State, user: Id) {
    && t.users.Keys == s.users.Keys + {user}
    && forall u | u in s.users && u != user :: t.users[u] == s.users[u]
  }

  lemma {:induction false} SettleTakes(s: State, user: Id, row: User, email: string)
    requires row.email == Some(email) && row.verified
    ensures var t := Settle(s, user, row, email);
      Takes(s, t, user, email) && t.users[user] == row && t == s.(users := t.users, tokens := t.tokens)
  {
  }

  /** A link that is followed in time verifies the email for its account, which is
      otherwise as it was. */
  lemma {:induction false} VerifySays(s: State, token: Token)
    requires Allowed(s, Verify(token))
    ensures var (t, user) := (Effect(s, Verify(token)), s.tokens[token].user);
      && user in s.users && s.users[user].email == Some(s.tokens[token].email)
      && Takes(s, t, user, s.tokens[token].email)
      && t.users[user] == User(s.users[user].handle, s.users[user].email, true, s.users[user].origin, s.users[user].password)
      && t == s.(users := t.users, tokens := t.tokens)
  {
    hide Claimed;
    hide Settle;
    hide Takes;
    var user := s.tokens[token].user;
    SettleTakes(s, user, s.users[user].(verified := true), s.tokens[token].email);
  }

  /** Signing in with Discord moves an account to the profile's email only where it
      has none or has it from Discord, and then as verified. */
  lemma {:induction false} SyncSays(s: State, subject: Subject, profile: Option<string>)
    requires Allowed(s, DiscordSync(subject, profile))
    ensures var (t, user) := (Effect(s, DiscordSync(subject, profile)), s.identities[subject]);
      && user in s.users
      && (if profile.Some? && s.users[user].email != profile
             && (s.users[user].email.None? || s.users[user].origin == Some(Discord))
          then Takes(s, t, user, profile.value)
               && t.users[user] == User(s.users[user].handle, profile, true, Some(Discord), s.users[user].password)
               && t == s.(users := t.users, tokens := t.tokens)
          else t == s)
  {
    hide Claimed;
    hide Settle;
    hide Takes;
    var user := s.identities[subject];
    if profile.Some? {
      SettleTakes(s, user, s.users[user].(email := profile, verified := true, origin := Some(Discord)), profile.value);
    }
  }

  /** A first sign-in with Discord makes an account without a password, verified
      exactly where the profile has an email, and links the identity to it. */
  lemma {:induction false} CreateSays(s: State, subject: Subject, id: Id, handle: string, profile: Option<string>)
    requires Allowed(s, DiscordCreate(subject, id, handle, profile))
    ensures var t := Effect(s, DiscordCreate(subject, id, handle, profile));
      && id !in s.users && id in t.users && t.identities == s.identities[subject := id]
      && t.users[id] == User(handle, profile, profile.Some?, if profile.Some? then Some(Discord) else None, false)
      && (if profile.Some? then Takes(s, t, id, profile.value) else Only(s, t, id) && t.tokens == s.tokens)
  {
    hide Claimed;
    hide Unavailable;
    hide Settle;
    hide Takes;
    if profile.Some? {
      var added := s.(identities := s.identities[subject := id], held := s.held[handle := id], linked := s.linked + {id});
      SettleTakes(added, id, User(handle, profile, true, Some(Discord), false), profile.value);
      TakesSame(s, added, Effect(s, DiscordCreate(subject, id, handle, profile)), id, profile.value);
    }
  }

  lemma {:induction false} TakesSame(s: State, r: State, t: State, user: Id, email: string)
    requires Takes(r, t, user, email) && r.users == s.users && r.tokens == s.tokens
    ensures Takes(s, t, user, email)
  {
  }

  /** The one link an account has to an email it still has to verify. */
  ghost predicate Waits(s: State, t: State, user: Id, email: string, token: Token) {
    && Only(s, t, user) && t.users[user].email == Some(email) && !t.users[user].verified
    && t.users[user].origin == Some(Creator)
    && token in t.tokens && t.tokens[token] == Verification(user, email, s.now + 24 * 60 * 60)
    && t == s.(users := t.users, tokens := t.tokens, held := t.held)
  }

  /** The link mailed for a new or a changed email verifies it for a day. */
  lemma {:induction false} LinksLastADay(s: State, e: Event, later: Time)
    requires (e.SignUp? || e.ChangeEmail?) && Allowed(s, e)
    ensures var (t, user) := (Effect(s, e), if e.SignUp? then e.id else e.user);
      && Waits(s, t, user, e.email, e.token)
      && (e.SignUp? ==> user !in s.users && t.users[user].handle == e.handle && t.users[user].password
                        && t.tokens == s.tokens[e.token := t.tokens[e.token]])
      && (e.ChangeEmail? ==>
            && t.users[user].handle == s.users[user].handle && t.users[user].password == s.users[user].password
            && (forall k :: k in t.tokens <==> k == e.token || (k in s.tokens && s.tokens[k].user != user))
            && (forall k | k in t.tokens && k != e.token :: t.tokens[k] == s.tokens[k]))
      && (Allowed(t.(now := later), Verify(e.token)) <==> later < s.now + 24 * 60 * 60)
  {
    hide Unavailable;
  }

  lemma {:induction false} Renamed(s: State, user: Id, handle: string)
    requires Allowed(s, Rename(user, handle))
    ensures var t := Effect(s, Rename(user, handle));
      && user in s.users && Only(s, t, user)
      && t.users[user] == User(handle, s.users[user].email, s.users[user].verified, s.users[user].origin, s.users[user].password)
      && t.tokens == s.tokens && t.identities == s.identities
      && (handle != s.users[user].handle ==> s.users[user].handle in t.retired)
  {
    hide Unavailable;
  }

  /** A rename gives the account that handle, and the one it had is nobody's from
      then on, whatever happens. */
  lemma {:induction false} RenameSays(s: State, user: Id, handle: string, events: seq<Event>, u: Id)
    requires AccountsOk(s) && Allowed(s, Rename(user, handle))
    ensures var t := Effect(s, Rename(user, handle));
      && user in s.users && Only(s, t, user)
      && t.users[user] == User(handle, s.users[user].email, s.users[user].verified, s.users[user].origin, s.users[user].password)
      && t.tokens == s.tokens && t.identities == s.identities
      && (handle != s.users[user].handle && u in Run(t, events).users ==>
            Run(t, events).users[u].handle != s.users[user].handle)
  {
    hide Effect;
    hide Allowed;
    hide EmailsOk;
    hide SignInOk;
    hide HandlesOk;
    hide Run;
    var e := Rename(user, handle);
    Renamed(s, user, handle);
    hide Only;
    KeepsEmails(s, e);
    KeepsHandles(s, e);
    KeepsSignIn(s, e);
    RunKeepsAccounts(Effect(s, e), events);
    if u in Run(Effect(s, e), events).users { NotRetired(Run(Effect(s, e), events), u); }
  }

  lemma {:induction false} NotRetired(s: State, u: Id)
    requires HandlesOk(s) && u in s.users
    ensures s.users[u].handle !in s.retired
  {
  }

  /** The steps that are not about an account's handle leave it. */
  lemma {:induction false} OnlyRenamesRename(s: State, events: seq<Event>, u: Id)
    requires u in s.users && forall e | e in events :: !e.Rename?
    ensures var t := Run(s, events);
      u in t.users && t.users[u].handle == s.users[u].handle
    decreases |events|
  {
    if events != [] {
      var e := events[0];
      if Allowed(s, e) {
        if e.SignUp? || e.DiscordCreate? { NewHandleIs(s, e); } else { OthersSameHandles(s, e); }
      }
      hide Effect;
      hide Allowed;
      hide Unavailable;
      OnlyRenamesRename(Apply(s, e), events[1..], u);
    }
  }
}
