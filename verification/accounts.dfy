/** The account transactions as they run on their tables. */
module Accounts {
  import opened Sequences
  import opened AccountsExact
  import opened AccountsState
  import opened Handles

  datatype Reply =
    | Ok | BadHandle | HandleTaken | EmailTaken | BelongsToDiscord | BadLink | EmailVerified | EmailUnverified
    | AlreadySet | Conflict | ClaimedElsewhere | NotLinked | LastMethod

  /** The first handle a Discord name leads to that nobody has or had. */
  ghost predicate FirstOpen(s: State, lower: char -> char, name: string, handle: string, suffix: nat) {
    && suffix >= 1 && handle == Candidate(SeedOf(lower, name), suffix) && !Unavailable(s, handle)
    && forall k: nat | 1 <= k < suffix :: Unavailable(s, Candidate(SeedOf(lower, name), k))
  }

  class Directory {
    var now: Time
    var users: map<Id, User>
    var retired: set<string>
    var tokens: map<Token, Verification>
    var identities: map<Subject, Id>
    ghost var held: map<string, Id>
    ghost var linked: set<Id>

    ghost function State(): State
      reads this
    {
      AccountsState.State(now, users, retired, tokens, identities, held, linked)
    }

    method HandleUnavailable(handle: string) returns (taken: bool)
      ensures taken == Unavailable(State(), handle)
    {
      taken := handle in retired || exists u | u in users :: users[u].handle == handle;
    }

    method VerifiedEmailExists(email: string) returns (claimed: bool)
      ensures claimed == Claimed(State(), email)
    {
      claimed := exists u | u in users :: users[u].email == Some(email) && users[u].verified;
    }

    method Linked(user: Id) returns (has: bool)
      ensures has == HasIdentity(State(), user)
    {
      has := exists d | d in identities :: identities[d] == user;
    }

    /** Clears what is still pending on an email somebody has now verified. */
    method ClearPendingEmail(email: string, owner: Id)
      modifies this`users, this`tokens
      ensures users == ClearPending(old(users), email, owner) && tokens == TokensNotFor(old(tokens), email)
    {
      users := map u | u in users ::
        if users[u].email == Some(email) && u != owner && !users[u].verified
        then users[u].(email := None, origin := None) else users[u];
      tokens := map t | t in tokens && tokens[t].email != email :: tokens[t];
    }

    method SignUpWith(id: Id, handle: string, email: string, token: Token) returns (reply: Reply)
      requires id !in users && id !in linked && token !in tokens
      modifies this
      ensures reply == BadHandle <==> !ValidHandle(handle)
      ensures reply != BadHandle ==> State() == Apply(old(State()), Event.SignUp(id, handle, email, token))
      ensures reply == BadHandle ==> State() == old(State())
      ensures reply == Ok <==> ValidHandle(handle) && Allowed(old(State()), Event.SignUp(id, handle, email, token))
      ensures reply == Ok ==>
        && users == old(users)[id := User(handle, Some(email), false, Some(Creator), true)]
        && tokens == old(tokens)[token := Verification(id, email, now + 24 * 60 * 60)]
      ensures reply != Ok ==> State() == old(State())
    {
      var ok := ValidateHandle(handle);
      if !ok { return BadHandle; }
      hide ValidHandle;
      hide Unavailable;
      hide Claimed;
      var taken := HandleUnavailable(handle);
      if taken { return HandleTaken; }
      var claimed := VerifiedEmailExists(email);
      if claimed {
        var discord := exists u | u in users :: users[u].email == Some(email) && users[u].verified
                         && exists d | d in identities :: identities[d] == u;
        return if discord then BelongsToDiscord else EmailTaken;
      }
      users := users[id := User(handle, Some(email), false, Some(Creator), true)];
      held := held[handle := id];
      tokens := tokens[token := Verification(id, email, now + VERIFICATION_LIFETIME)];
      return Ok;
    }

    method VerifyEmail(token: Token) returns (reply: Reply)
      modifies this
      ensures State() == Apply(old(State()), Verify(token))
      ensures reply == Ok <==> Allowed(old(State()), Verify(token))
      ensures reply == Ok ==>
        && token in old(tokens) && old(tokens)[token].user in old(users)
        && Takes(old(State()), State(), old(tokens)[token].user, old(tokens)[token].email)
        && users[old(tokens)[token].user] == old(users)[old(tokens)[token].user].(verified := true)
      ensures reply != Ok ==> State() == old(State())
    {
      hide Claimed;
      hide Takes;
      if Allowed(State(), Verify(token)) { VerifySays(State(), token); }
      if token !in tokens || tokens[token].expires <= now { return BadLink; }
      var link := tokens[token];
      if link.user !in users || users[link.user].email != Some(link.email) || users[link.user].verified { return BadLink; }
      var claimed := VerifiedEmailExists(link.email);
      if claimed { return EmailTaken; }
      users := users[link.user := users[link.user].(verified := true)];
      ClearPendingEmail(link.email, link.user);
      return Ok;
    }

    method ChangeUnverifiedEmail(user: Id, email: string, token: Token) returns (reply: Reply)
      requires user in users && token !in tokens
      modifies this
      ensures State() == Apply(old(State()), ChangeEmail(user, email, token))
      ensures reply == Ok <==> Allowed(old(State()), ChangeEmail(user, email, token))
      ensures reply == Ok ==> Waits(old(State()), State(), user, email, token)
      ensures reply == Ok ==> users[user].handle == old(users)[user].handle && users[user].password == old(users)[user].password
      ensures reply == Ok ==> forall k :: k in tokens <==> k == token || (k in old(tokens) && old(tokens)[k].user != user)
      ensures reply != Ok ==> State() == old(State())
    {
      hide Claimed;
      if users[user].verified { return EmailVerified; }
      var claimed := VerifiedEmailExists(email);
      if claimed { return EmailTaken; }
      users := users[user := users[user].(email := Some(email), origin := Some(Creator))];
      tokens := map t | t in tokens && tokens[t].user != user :: tokens[t];
      tokens := tokens[token := Verification(user, email, now + VERIFICATION_LIFETIME)];
      return Ok;
    }

    method RenameHandle(user: Id, handle: string) returns (reply: Reply)
      requires user in users
      modifies this
      ensures reply == BadHandle <==> !ValidHandle(handle)
      ensures reply == BadHandle ==> State() == old(State())
      ensures reply != BadHandle ==> State() == Apply(old(State()), Rename(user, handle))
      ensures reply == Ok <==> ValidHandle(handle) && Allowed(old(State()), Rename(user, handle))
      ensures reply == Ok ==> users == old(users)[user := old(users)[user].(handle := handle)]
      ensures reply == Ok ==>
        retired == old(retired) + (if handle == old(users)[user].handle then {} else {old(users)[user].handle})
      ensures reply != Ok ==> State() == old(State())
    {
      var ok := ValidateHandle(handle);
      if !ok { return BadHandle; }
      hide ValidHandle;
      hide Unavailable;
      if !users[user].verified { return EmailUnverified; }
      if users[user].handle == handle { return Ok; }
      var taken := HandleUnavailable(handle);
      if taken { return HandleTaken; }
      retired := retired + {users[user].handle};
      users := users[user := users[user].(handle := handle)];
      held := held[handle := user];
      return Ok;
    }

    method SetFirstPassword(user: Id) returns (reply: Reply)
      requires user in users
      modifies this`users
      ensures State() == Apply(old(State()), Event.SetPassword(user))
      ensures reply == Ok <==> !old(users)[user].password
      ensures users == old(users)[user := old(users)[user].(password := true)]
    {
      if users[user].password {
        assert users[user := users[user].(password := true)] == users;
        return AlreadySet;
      }
      users := users[user := users[user].(password := true)];
      return Ok;
    }

    /** Signs in with Discord: the account the identity belongs to is brought up to
        date, or a new one is made under the first free handle. */
    method SignInDiscord(subject: Subject, lower: char -> char, name: string, profile: Option<string>, id: Id)
      returns (reply: Reply, handle: string)
      requires id !in users && id !in linked
      requires subject in identities ==> identities[subject] in users
      modifies this
      ensures subject in old(identities) ==>
        && State() == Apply(old(State()), DiscordSync(subject, profile))
        && (reply == Ok <==> Allowed(old(State()), DiscordSync(subject, profile)))
      ensures subject !in old(identities) ==>
        && (|old(retired)| + |old(users)| < Power10(27) ==> ValidHandle(handle)) && (exists suffix: nat :: FirstOpen(old(State()), lower, name, handle, suffix))
        && State() == Apply(old(State()), DiscordCreate(subject, id, handle, profile))
        && (reply == Ok <==> profile.Some? ==> !Claimed(old(State()), profile.value))
        && (reply == Ok <==> Allowed(old(State()), DiscordCreate(subject, id, handle, profile)))
      ensures subject !in old(identities) && reply == Ok ==>
        && identities == old(identities)[subject := id] && id in users
        && users[id] == User(handle, profile, profile.Some?, if profile.Some? then Some(Discord) else None, false)
        && (if profile.Some? then Takes(old(State()), State(), id, profile.value)
            else users.Keys == old(users).Keys + {id} && forall u | u in old(users) :: users[u] == old(users)[u])
      ensures reply != Ok ==> State() == old(State())
    {
      hide Claimed;
      hide ValidHandle;
      handle := "";
      if subject in identities {
        reply := SyncDiscordEmail(identities[subject], subject, profile);
        return;
      }
      ghost var suffix;
      handle, suffix := AvailableHandle(lower, name);
      if profile.Some? {
        var claimed := VerifiedEmailExists(profile.value);
        if claimed { return Conflict, handle; }
      }
      CreateDiscord(subject, id, handle, profile);
      return Ok, handle;
    }

    method AvailableHandle(lower: char -> char, name: string) returns (handle: string, ghost suffix: nat)
      ensures FirstOpen(State(), lower, name, handle, suffix)
      ensures |retired| + |users| < Power10(27) ==> ValidHandle(handle)
    {
      var inUse := set u | u in users :: users[u].handle;
      FewerHandles(users, inUse);
      Union(retired, inUse);
      hide Power10;
      handle, suffix := FreeHandle(lower, name, retired + inUse);
      assert forall u | u in users :: users[u].handle in inUse;
    }

    method SyncDiscordEmail(user: Id, subject: Subject, profile: Option<string>) returns (reply: Reply)
      requires subject in identities && identities[subject] == user && user in users
      modifies this
      ensures State() == Apply(old(State()), DiscordSync(subject, profile))
      ensures reply == Ok <==> Allowed(old(State()), DiscordSync(subject, profile))
      ensures reply == Ok ==>
        if profile.Some? && old(users)[user].email != profile
           && (old(users)[user].email.None? || old(users)[user].origin == Some(Discord))
        then Takes(old(State()), State(), user, profile.value)
             && users[user] == old(users)[user].(email := profile, verified := true, origin := Some(Discord))
        else State() == old(State())
      ensures reply != Ok ==> State() == old(State())
    {
      hide Claimed;
      hide Takes;
      ghost var s := State();
      if Allowed(s, DiscordSync(subject, profile)) { SyncSays(s, subject, profile); }
      var maySync := users[user].email.None? || users[user].origin == Some(Discord);
      if profile.Some? && maySync && users[user].email != profile {
        var claimed := VerifiedEmailExists(profile.value);
        if claimed { return Conflict; }
        users := users[user := users[user].(email := profile, verified := true, origin := Some(Discord))];
        ClearPendingEmail(profile.value, user);
      }
      return Ok;
    }

    method CreateDiscord(subject: Subject, id: Id, handle: string, profile: Option<string>)
      requires Allowed(State(), DiscordCreate(subject, id, handle, profile))
      modifies this
      ensures State() == Effect(old(State()), DiscordCreate(subject, id, handle, profile))
      ensures identities == old(identities)[subject := id] && id in users
      ensures users[id] == User(handle, profile, profile.Some?, if profile.Some? then Some(Discord) else None, false)
      ensures if profile.Some? then Takes(old(State()), State(), id, profile.value)
              else users.Keys == old(users).Keys + {id} && forall u | u in old(users) :: users[u] == old(users)[u]
    {
      hide Claimed;
      hide Takes;
      CreateSays(State(), subject, id, handle, profile);
      users := users[id := User(handle, profile, profile.Some?, if profile.Some? then Some(Discord) else None, false)];
      if profile.Some? { ClearPendingEmail(profile.value, id); }
      identities := identities[subject := id];
      held := held[handle := id];
      linked := linked + {id};
    }

    method AttachDiscord(user: Id, subject: Subject) returns (reply: Reply)
      requires user in users
      modifies this
      ensures reply == ClaimedElsewhere <==> subject in old(identities) && old(identities)[subject] != user
      ensures reply == Ok <==> subject in identities && identities[subject] == user
      ensures identities == if reply == Ok then old(identities)[subject := user] else old(identities)
      ensures State() == Apply(old(State()), Attach(user, subject))
    {
      if subject in identities { return if identities[subject] != user then ClaimedElsewhere else Ok; }
      identities := identities[subject := user];
      linked := linked + {user};
      return Ok;
    }

    method DetachDiscord(user: Id) returns (reply: Reply)
      requires user in users
      modifies this`identities
      ensures State() == Apply(old(State()), Detach(user))
      ensures reply == Ok <==> Allowed(old(State()), Detach(user))
      ensures reply == LastMethod <==>
        HasIdentity(old(State()), user) && !(old(users)[user].verified && old(users)[user].password)
      ensures reply == Ok ==> !HasIdentity(State(), user)
      ensures reply != Ok ==> identities == old(identities)
      ensures forall d | d in identities :: d in old(identities)
      ensures forall d | d in old(identities) && old(identities)[d] != user ::
        d in identities && identities[d] == old(identities)[d]
    {
      var has := Linked(user);
      if !has { return NotLinked; }
      if !users[user].verified || !users[user].password { return LastMethod; }
      identities := map d | d in identities && identities[d] != user :: identities[d];
      return Ok;
    }
  }

  lemma {:induction false} FewerHandles(users: map<Id, User>, inUse: set<string>)
    requires inUse == set u | u in users :: users[u].handle
    ensures |inUse| <= |users|
    decreases |users|
  {
    if inUse != {} {
      var h :| h in inUse;
      var u :| u in users && users[u].handle == h;
      var rest := users - {u};
      assert rest.Keys == users.Keys - {u};
      var less := set v | v in rest :: rest[v].handle;
      FewerHandles(rest, less);
      forall x | x in inUse ensures x in less + {users[u].handle} {
        var v :| v in users && users[v].handle == x;
        if v != u { assert rest[v].handle == x; }
      }
      Within(inUse, less + {users[u].handle});
      Union(less, {users[u].handle});
    }
  }

  lemma {:induction false} Within<T>(a: set<T>, b: set<T>)
    requires a <= b
    ensures |a| <= |b|
  {
    assert b == a + (b - a);
  }

  lemma {:induction false} Union<T>(a: set<T>, b: set<T>)
    ensures |a + b| <= |a| + |b|
  {
    assert a + b == a + (b - a);
    Within(b - a, b);
  }
}
