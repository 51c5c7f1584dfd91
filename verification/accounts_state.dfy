/** Accounts, handles, email verification and Discord identities as tables, and
    every transaction on them as one step. */
module AccountsState {
  import opened Sequences

  type Id = nat
  type Token = nat
  type Subject = nat
  type Time = int

  const VERIFICATION_LIFETIME := 24 * 3600

  datatype Origin = Creator | Discord

  datatype User = User(handle: string, email: Option<string>, verified: bool, origin: Option<Origin>, password: bool)

  datatype Verification = Verification(user: Id, email: string, expires: Time)

  /** `held` remembers which account each handle was first given to, and
      `linked` the accounts that ever had a Discord identity. */
  datatype State = State(
    now: Time, users: map<Id, User>, retired: set<string>, tokens: map<Token, Verification>,
    identities: map<Subject, Id>, held: map<string, Id>, linked: set<Id>)

  predicate Unavailable(s: State, handle: string) {
    handle in s.retired || exists u | u in s.users :: s.users[u].handle == handle
  }

  predicate Claimed(s: State, email: string) {
    exists u | u in s.users :: s.users[u].email == Some(email) && s.users[u].verified
  }

  predicate HasIdentity(s: State, user: Id) {
    exists d | d in s.identities :: s.identities[d] == user
  }

  /** A pending copy of an email somebody else has verified. */
  predicate PendingCopy(user: User, id: Id, email: string, owner: Id) {
    user.email == Some(email) && id != owner && !user.verified
  }

  function ClearPending(users: map<Id, User>, email: string, owner: Id): map<Id, User> {
    map u | u in users ::
      if PendingCopy(users[u], u, email, owner) then users[u].(email := None, origin := None) else users[u]
  }

  function TokensNotFor(tokens: map<Token, Verification>, email: string): map<Token, Verification> {
    map t | t in tokens && tokens[t].email != email :: tokens[t]
  }

  /** An account takes a verified email, and every claim still pending on it lapses. */
  function Settle(s: State, user: Id, row: User, email: string): State {
    s.(users := ClearPending(s.users[user := row], email, user), tokens := TokensNotFor(s.tokens, email))
  }

  predicate MaySync(user: User) {
    user.email.None? || user.origin == Some(Discord)
  }

  datatype Event =
    | SignUp(id: Id, handle: string, email: string, token: Token)
    | Verify(token: Token)
    | ChangeEmail(user: Id, email: string, token: Token)
    | Rename(user: Id, handle: string)
    | SetPassword(user: Id)
    | DiscordSync(subject: Subject, profile: Option<string>)
    | DiscordCreate(subject: Subject, id: Id, handle: string, profile: Option<string>)
    | Attach(user: Id, subject: Subject)
    | Detach(user: Id)
    | Forget(tokens: set<Token>)
    | Tick(to: Time)

  /** Whether signing in with Discord rewrites the account's email. */
  predicate Syncs(user: User, email: Option<string>) {
    email.Some? && MaySync(user) && user.email != email
  }

  predicate Allowed(s: State, e: Event) {
    match e
    case SignUp(id, handle, email, token) =>
      id !in s.users && token !in s.tokens && id !in s.linked && !Unavailable(s, handle) && !Claimed(s, email)
    case Verify(token) =>
      && token in s.tokens && s.tokens[token].expires > s.now && s.tokens[token].user in s.users
      && s.users[s.tokens[token].user].email == Some(s.tokens[token].email)
      && !s.users[s.tokens[token].user].verified && !Claimed(s, s.tokens[token].email)
    case ChangeEmail(user, email, token) =>
      user in s.users && token !in s.tokens && !s.users[user].verified && !Claimed(s, email)
    case Rename(user, handle) =>
      && user in s.users && s.users[user].verified
      && (handle == s.users[user].handle || !Unavailable(s, handle))
    case SetPassword(user) => user in s.users
    case DiscordSync(subject, email) =>
      && subject in s.identities && s.identities[subject] in s.users
      && (Syncs(s.users[s.identities[subject]], email) ==> !Claimed(s, email.value))
    case DiscordCreate(subject, id, handle, email) =>
      && subject !in s.identities && id !in s.users && id !in s.linked && !Unavailable(s, handle)
      && (email.Some? ==> !Claimed(s, email.value))
    case Attach(user, subject) => subject !in s.identities && user in s.users
    case Detach(user) =>
      user in s.users && HasIdentity(s, user) && s.users[user].verified && s.users[user].password
    case Forget(tokens) => forall t | t in tokens && t in s.tokens :: s.tokens[t].expires <= s.now
    case Tick(to) => s.now <= to
  }

  function TokensNotOf(tokens: map<Token, Verification>, user: Id): map<Token, Verification> {
    map t | t in tokens && tokens[t].user != user :: tokens[t]
  }

  function Effect(s: State, e: Event): State
    requires Allowed(s, e)
  {
    match e
    case SignUp(id, handle, email, token) =>
      s.(users := s.users[id := User(handle, Some(email), false, Some(Creator), true)],
         held := s.held[handle := id],
         tokens := s.tokens[token := Verification(id, email, s.now + VERIFICATION_LIFETIME)])
    case Verify(token) =>
      var user := s.tokens[token].user;
      Settle(s, user, s.users[user].(verified := true), s.tokens[token].email)
    case ChangeEmail(user, email, token) =>
      s.(users := s.users[user := s.users[user].(email := Some(email), origin := Some(Creator))],
         tokens := TokensNotOf(s.tokens, user)[token := Verification(user, email, s.now + VERIFICATION_LIFETIME)])
    case Rename(user, handle) =>
      if handle == s.users[user].handle then s
      else
        s.(users := s.users[user := s.users[user].(handle := handle)],
           retired := s.retired + {s.users[user].handle}, held := s.held[handle := user])
    case SetPassword(user) => s.(users := s.users[user := s.users[user].(password := true)])
    case DiscordSync(subject, email) =>
      var user := s.identities[subject];
      if Syncs(s.users[user], email)
      then Settle(s, user, s.users[user].(email := email, verified := true, origin := Some(Discord)), email.value)
      else s
    case DiscordCreate(subject, id, handle, email) =>
      var row := User(handle, email, email.Some?, if email.Some? then Some(Discord) else None, false);
      var added := s.(identities := s.identities[subject := id], held := s.held[handle := id],
                      linked := s.linked + {id});
      if email.Some? then Settle(added, id, row, email.value) else added.(users := added.users[id := row])
    case Attach(user, subject) =>
      s.(identities := s.identities[subject := user], linked := s.linked + {user})
    case Detach(user) =>
      s.(identities := map d | d in s.identities && s.identities[d] != user :: s.identities[d])
    case Forget(tokens) => s.(tokens := s.tokens - tokens)
    case Tick(to) => s.(now := to)
  }

  function Apply(s: State, e: Event): State {
    if Allowed(s, e) then Effect(s, e) else s
  }

  function Run(s: State, events: seq<Event>): State
    decreases |events|
  {
    if events == [] then s else Run(Apply(s, events[0]), events[1..])
  }
}
