/** The delivery queue as a table, and every transaction on it as one step. The
    log keeps each hand-out that ever happened. */
module DeliveryState {
  import opened Sequences
  import opened Sorting

  type Id = nat
  type Time = int

  datatype Config = Config(maxAttempts: nat, batch: nat, lease: nat, retention: nat)

  datatype Reason = Withdrawn | Unsupported | Abandoned

  datatype Standing = Queued | Released | Failed(reason: Reason)

  datatype Delivery = Delivery(
    instance: Id, asset: Id, standing: Standing, attempts: nat, queuedAt: Time,
    lease: Option<Time>, target: Option<string>, expires: Time)

  datatype Instance = Instance(user: Id, revoked: bool, receives: bool)

  /** One release of a delivery: what of, to whom and in which format. */
  datatype HandOut = HandOut(delivery: Id, instance: Id, asset: Id, target: string, at: Time, lease: Time)

  /** What authorization decides at the moment of release. */
  datatype Choice = Stop(reason: Reason) | Send(target: string)

  datatype State = State(
    now: Time, instances: map<Id, Instance>, rows: map<Id, Delivery>, used: set<Id>, log: seq<HandOut>)

  predicate Live(row: Delivery) { row.standing == Queued || row.standing == Released }

  /** The partial unique index on live rows. */
  predicate HasLive(s: State, instance: Id, asset: Id) {
    exists r | r in s.rows :: s.rows[r].instance == instance && s.rows[r].asset == asset && Live(s.rows[r])
  }

  predicate Receives(s: State, instance: Id) {
    instance in s.instances && !s.instances[instance].revoked && s.instances[instance].receives
  }

  predicate Lapsed(row: Delivery, now: Time) {
    row.standing == Released && row.lease.Some? && row.lease.value <= now
  }

  predicate Exhausted(c: Config, row: Delivery, instance: Id, now: Time) {
    row.instance == instance && Lapsed(row, now) && row.attempts >= c.maxAttempts
  }

  predicate Claimable(c: Config, s: State, r: Id, instance: Id) {
    && r in s.rows && s.rows[r].instance == instance && Receives(s, instance)
    && s.rows[r].expires > s.now && s.rows[r].attempts < c.maxAttempts
    && (s.rows[r].standing == Queued || Lapsed(s.rows[r], s.now))
  }

  function Stopped(row: Delivery, reason: Reason): Delivery {
    row.(standing := Failed(reason), lease := None)
  }

  function Claimed(c: Config, row: Delivery, now: Time): Delivery {
    row.(standing := Released, attempts := row.attempts + 1, lease := Some(now + c.lease))
  }

  function Decided(row: Delivery, choice: Choice): Delivery {
    match choice
    case Stop(reason) => Stopped(row, reason)
    case Send(target) => row.(target := Some(target))
  }

  function Spent(c: Config, row: Delivery, instance: Id, now: Time): Delivery {
    if Exhausted(c, row, instance, now) then Stopped(row, Abandoned) else row
  }

  /** Abandons what is exhausted, then claims and decides the picked rows. */
  function AfterClaim(c: Config, s: State, instance: Id, picked: set<Id>, choices: Id -> Choice): map<Id, Delivery> {
    map r | r in s.rows ::
      if r in picked then Decided(Claimed(c, s.rows[r], s.now), choices(s.rows[r].asset))
      else Spent(c, s.rows[r], instance, s.now)
  }

  function Sends(s: State, choices: Id -> Choice): Id -> bool {
    (r: Id) => r in s.rows && choices(s.rows[r].asset).Send?
  }

  function HandTo(c: Config, s: State, instance: Id, choices: Id -> Choice): Id -> HandOut {
    (r: Id) =>
      var asset := if r in s.rows then s.rows[r].asset else 0;
      HandOut(r, instance, asset, if choices(asset).Send? then choices(asset).target else "", s.now, s.now + c.lease)
  }

  /** The claimed rows that were sent, in the order they were claimed. */
  function HandedOut(c: Config, s: State, instance: Id, order: seq<Id>, choices: Id -> Choice): seq<HandOut> {
    Map(HandTo(c, s, instance, choices), Filter(Sends(s, choices), order))
  }

  datatype Event =
    | Insert(id: Id, instance: Id, asset: Id)
    | Claim(instance: Id, order: seq<Id>, choices: Id -> Choice)
    | Acknowledge(instance: Id, ids: set<Id>)
    | Discard(id: Id, user: Id)
    | DeleteExpired(ids: set<Id>)
    | Link(id: Id, user: Id, receives: bool)
    | Revoke(instance: Id)
    | Tick(to: Time)

  ghost predicate Allowed(c: Config, s: State, e: Event) {
    match e
    case Insert(id, instance, asset) =>
      id !in s.used && instance in s.instances && !HasLive(s, instance, asset)
    case Claim(instance, order, choices) =>
      Distinct(order) && |order| <= c.batch && forall r | r in order :: Claimable(c, s, r, instance)
    case DeleteExpired(ids) => forall r | r in ids :: r in s.rows && s.rows[r].expires <= s.now
    case Link(id, user, receives) => id !in s.instances
    case Revoke(instance) => instance in s.instances
    case Tick(to) => s.now <= to
    case _ => true
  }

  predicate Acknowledged(row: Delivery, instance: Id) {
    row.instance == instance && row.standing == Released
  }

  ghost function Effect(c: Config, s: State, e: Event): State
    requires Allowed(c, s, e)
  {
    match e
    case Insert(id, instance, asset) =>
      s.(rows := s.rows[id := Delivery(instance, asset, Queued, 0, s.now, None, None, s.now + c.retention)],
         used := s.used + {id})
    case Claim(instance, order, choices) =>
      s.(rows := AfterClaim(c, s, instance, (set r | r in order), choices),
         log := s.log + HandedOut(c, s, instance, order, choices))
    case Acknowledge(instance, ids) =>
      s.(rows := map r | r in s.rows && !(r in ids && Acknowledged(s.rows[r], instance)) :: s.rows[r])
    case Discard(id, user) =>
      s.(rows := map r | r in s.rows && !(r == id && Owns(s, user, s.rows[r].instance)) :: s.rows[r])
    case DeleteExpired(ids) => s.(rows := s.rows - ids)
    case Link(id, user, receives) => s.(instances := s.instances[id := Instance(user, false, receives)])
    case Revoke(instance) =>
      s.(instances := s.instances[instance := s.instances[instance].(revoked := true)],
         rows := map r | r in s.rows && s.rows[r].instance != instance :: s.rows[r])
    case Tick(to) => s.(now := to)
  }

  predicate Owns(s: State, user: Id, instance: Id) {
    instance in s.instances && s.instances[instance].user == user
  }

  ghost function Apply(c: Config, s: State, e: Event): State {
    if Allowed(c, s, e) then Effect(c, s, e) else s
  }

  ghost function Run(c: Config, s: State, events: seq<Event>): State
    decreases |events|
  {
    if events == [] then s else Run(c, Apply(c, s, events[0]), events[1..])
  }

  /** Who may fetch what a delivery carries, and only inside its lease. */
  function Artifact(s: State, id: Id): Option<(Id, string)> {
    if id !in s.rows then None
    else
      var row := s.rows[id];
      if row.standing == Released && row.lease.Some? && row.lease.value > s.now && row.expires > s.now
         && row.target.Some? && Receives(s, row.instance)
      then Some((row.asset, row.target.value))
      else None
  }
}
