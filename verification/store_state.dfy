/** Uploads, ingest operations and blob references as tables, and every
    transaction on them as one atomic step under a clock that never goes back. */
module StoreState {
  import opened Sequences

  type Id = nat
  type Time = int

  const RECOVERY_WINDOW: nat := 30 * 24 * 3600
  const SWEEP_DELAY: nat := 24 * 3600

  datatype Config = Config(maxAttempts: nat, retryBase: nat, leaseDuration: nat, cap: int)

  datatype Status = Pending | Processing | Success | Failed

  /** `retries`, `waited` and `takeovers` record what an operation has been through:
      how often it went back to pending, how long it waited for that, and how often
      a worker took it over from one whose lease had run out. */
  datatype Operation = Operation(
    owner: Id, blob: Option<Id>, status: Status, attempts: nat, token: Option<Id>, expires: Time,
    available: Time, target: Option<Id>, result: Option<Id>, retries: nat, waited: nat,
    takeovers: nat)

  /** `until` is when a deleted asset stops being restorable; `maker` the operation
      that made it. */
  datatype AssetRow = AssetRow(owner: Id, until: Option<Time>, withheld: bool, maker: Option<Id>)

  /** A reference to bytes, or why it holds none any more. */
  datatype Held = At(blob: Id) | Released | Purged

  /** A revision has a number from one; a picture has number zero. */
  datatype Row = Row(asset: Id, held: Held, number: nat, maker: Option<Id>)

  datatype Lease = Lease(op: Id, attempts: nat)

  /** A blob's id stands for its bytes: the same bytes are the same blob. `leases`
      remembers every token handed to a worker, and `prepared` which blobs a sweep
      has made ready under the clock reading it started with. */
  datatype State = State(
    now: Time, blobs: map<Id, nat>, ops: map<Id, Operation>, assets: map<Id, AssetRow>,
    rows: map<Id, Row>, marks: map<Id, Time>, tombstones: set<Id>, leases: map<Id, Lease>,
    prepared: set<(Id, Time)>)

  // ---- references ---------------------------------------------------------

  predicate Working(op: Operation) { op.status == Pending || op.status == Processing }

  /** Undeleted, or deleted and still restorable at this time. */
  predicate Restorable(asset: AssetRow, at: Time) {
    asset.until.None? || asset.until.value > at
  }

  predicate RowRestorable(s: State, row: Row, at: Time) {
    row.asset in s.assets && Restorable(s.assets[row.asset], at)
  }

  predicate LiveReference(s: State, blob: Id, at: Time) {
    || (exists o | o in s.ops :: s.ops[o].blob == Some(blob) && Working(s.ops[o]))
    || (exists r | r in s.rows :: s.rows[r].held == At(blob) && RowRestorable(s, s.rows[r], at))
  }

  function Release(s: State, row: Row, blob: Id, at: Time): Row {
    if row.held == At(blob) && row.asset in s.assets && !Restorable(s.assets[row.asset], at)
    then row.(held := Released)
    else row
  }

  // ---- the account cap ----------------------------------------------------

  predicate ChargedFor(s: State, owner: Id, blob: Id) {
    || (exists o | o in s.ops :: s.ops[o].owner == owner && s.ops[o].blob == Some(blob) && Working(s.ops[o]))
    || (exists r | r in s.rows ::
          s.rows[r].held == At(blob) && RowRestorable(s, s.rows[r], s.now)
          && s.assets[s.rows[r].asset].owner == owner)
  }

  /** The blobs an account is charged for, each once. */
  function Charged(s: State, owner: Id): set<Id> {
    set b | b in s.blobs && ChargedFor(s, owner, b)
  }

  ghost function Bytes(sizes: map<Id, nat>, blobs: set<Id>): nat {
    if blobs == {} then 0
    else
      var b :| b in blobs;
      (if b in sizes then sizes[b] else 0) + Bytes(sizes, blobs - {b})
  }

  ghost function Used(s: State, owner: Id): nat { Bytes(s.blobs, Charged(s, owner)) }

  ghost function Additional(s: State, owner: Id, candidates: set<Id>): nat {
    Bytes(s.blobs, candidates - Charged(s, owner))
  }

  predicate PastCap(cap: int, used: nat, additional: nat) {
    additional > 0 && (additional > cap || used > cap - additional)
  }

  ghost predicate HasRoom(c: Config, s: State, owner: Id, candidates: set<Id>) {
    c.cap <= 0 || candidates == {} || !PastCap(c.cap, Used(s, owner), Additional(s, owner, candidates))
  }

  // ---- the steps ----------------------------------------------------------

  datatype Event =
    | Put(blob: Id, size: nat)
    | StartAsset(asset: Id, owner: Id)
    | AcceptIngest(op: Id, owner: Id, blob: Id)
    | AcceptRevision(op: Id, owner: Id, blob: Id, target: Id)
    | AddMedia(row: Id, owner: Id, asset: Id, blob: Id)
    | LeaseIngest(op: Id, token: Id)
    | RetryIngest(token: Id)
    | FailIngest(token: Id)
    | Finalize(token: Id, asset: Id, row: Id, media: map<Id, Id>)
    | DeleteAsset(asset: Id)
    | RestoreAsset(asset: Id)
    | Withhold(asset: Id, withheld: bool)
    | MarkUnreferenced(at: Time)
    | Prepare(blob: Id, at: Time)
    | DeleteMarked(blob: Id, at: Time)
    | PreparePurge(blob: Id)
    | DeletePurged(blob: Id)
    | Tick(to: Time)

  predicate Editable(s: State, asset: Id, owner: Id) {
    && asset in s.assets && s.assets[asset].owner == owner
    && s.assets[asset].until.None? && !s.assets[asset].withheld
  }

  /** The worker's token is the one the operation carries. */
  predicate Holds(s: State, token: Id) {
    && token in s.leases && s.leases[token].op in s.ops
    && s.ops[s.leases[token].op].status == Processing
    && s.ops[s.leases[token].op].token == Some(token)
  }

  predicate Due(s: State, op: Operation) {
    op.available <= s.now && (op.status == Pending || (op.status == Processing && op.expires <= s.now))
  }

  predicate Swept(s: State, blob: Id, at: Time) {
    blob in s.blobs && blob in s.marks && s.marks[blob] <= at - SWEEP_DELAY
  }

  predicate Named(s: State, blob: Id) {
    || (exists o | o in s.ops :: s.ops[o].blob == Some(blob))
    || (exists r | r in s.rows :: s.rows[r].held == At(blob))
  }

  ghost predicate Allowed(c: Config, s: State, e: Event) {
    match e
    case Put(blob, _) => blob !in s.tombstones
    case StartAsset(asset, _) => asset !in s.assets
    case AcceptIngest(op, owner, blob) =>
      op !in s.ops && blob in s.blobs && HasRoom(c, s, owner, {blob})
    case AcceptRevision(op, owner, blob, target) =>
      op !in s.ops && blob in s.blobs && HasRoom(c, s, owner, {blob}) && Editable(s, target, owner)
    case AddMedia(row, owner, asset, blob) =>
      row !in s.rows && blob in s.blobs && HasRoom(c, s, owner, {blob}) && Editable(s, asset, owner)
    case LeaseIngest(op, token) => op in s.ops && Due(s, s.ops[op]) && token !in s.leases
    case RetryIngest(token) => Holds(s, token) && s.leases[token].attempts < c.maxAttempts
    case FailIngest(token) => Holds(s, token)
    case Finalize(token, asset, row, media) =>
      && Holds(s, token)
      && var op := s.ops[s.leases[token].op];
         var candidates := BlobSet(op) + media.Values;
      && op.blob.Some? && candidates <= s.blobs.Keys && HasRoom(c, s, op.owner, candidates)
      && row !in s.rows && row !in media && media.Keys !! s.rows.Keys
      && (match op.target
          case None => asset !in s.assets
          case Some(target) => asset == target && Editable(s, target, op.owner))
    case DeleteAsset(asset) => asset in s.assets && s.assets[asset].until.None? && !s.assets[asset].withheld
    case RestoreAsset(asset) =>
      asset in s.assets && s.assets[asset].until.Some? && s.assets[asset].until.value > s.now
    case Withhold(asset, withheld) => asset in s.assets
    case MarkUnreferenced(at) => at <= s.now
    case Prepare(blob, at) => at <= s.now && Swept(s, blob, at)
    case DeleteMarked(blob, at) => (blob, at) in s.prepared && Swept(s, blob, at)
    case PreparePurge(blob) => blob in s.blobs
    case DeletePurged(blob) => blob in s.tombstones && blob in s.blobs && !Named(s, blob)
    case Tick(to) => s.now <= to
  }

  ghost function BlobSet(op: Operation): set<Id> {
    if op.blob.Some? then {op.blob.value} else {}
  }

  function Doubled(base: nat, times: nat): nat {
    if times == 0 then base else 2 * Doubled(base, times - 1)
  }

  /** How long the retry after this many attempts waits. */
  function Delay(base: nat, attempts: nat): nat {
    Doubled(base, if attempts == 0 then 0 else attempts - 1)
  }

  function NewOperation(owner: Id, blob: Id, target: Option<Id>, now: Time): Operation {
    Operation(owner, Some(blob), Pending, 0, None, 0, now, target, None, 0, 0, 0)
  }

  function Leased(c: Config, op: Operation, token: Id, now: Time): Operation {
    op.(status := Processing, attempts := op.attempts + 1, token := Some(token),
        expires := now + c.leaseDuration,
        takeovers := op.takeovers + (if op.status == Processing then 1 else 0))
  }

  function Retried(c: Config, op: Operation, attempts: nat, now: Time): Operation {
    op.(status := Pending, available := now + Delay(c.retryBase, attempts), token := None,
        retries := op.retries + 1, waited := op.waited + Delay(c.retryBase, attempts))
  }

  function Given(op: Operation): Operation {
    op.(status := Failed, blob := None, token := None)
  }

  function Finished(op: Operation, asset: Id): Operation {
    op.(status := Success, result := Some(asset), blob := None, token := None)
  }

  /** One past the highest number the asset's revisions carry. */
  ghost function NextNumber(rows: map<Id, Row>, asset: Id): (n: nat)
    ensures n > 0
    ensures forall r | r in rows && rows[r].asset == asset :: rows[r].number < n
  {
    var numbers := set r | r in rows && rows[r].asset == asset :: rows[r].number;
    assert forall r | r in rows && rows[r].asset == asset :: rows[r].number in numbers;
    Above(numbers)
  }

  ghost function Above(numbers: set<nat>): (n: nat)
    ensures n > 0 && forall x | x in numbers :: x < n
  {
    if numbers == {} then 1
    else
      var x :| x in numbers;
      var rest := Above(numbers - {x});
      assert forall y | y in numbers :: y == x || y in numbers - {x};
      if x < rest then rest else x + 1
  }

  ghost function Written(s: State, op: Id, asset: Id, row: Id, media: map<Id, Id>): map<Id, Row>
    requires op in s.ops
  {
    (s.rows + map m | m in media :: Row(asset, At(media[m]), 0, None))
      [row := Row(asset, At(if s.ops[op].blob.Some? then s.ops[op].blob.value else 0),
                  NextNumber(s.rows, asset), Some(op))]
  }

  function ReleaseAll(s: State, blob: Id, at: Time): map<Id, Row> {
    map r | r in s.rows :: Release(s, s.rows[r], blob, at)
  }

  function PurgeRow(row: Row, blob: Id): Row {
    if row.held == At(blob) then row.(held := Purged) else row
  }

  function PurgeOp(op: Operation, blob: Id): Operation {
    if op.blob == Some(blob) && op.status != Success then Given(op) else op
  }

  function Unmarked(s: State, at: Time): map<Id, Time> {
    s.marks + map b | b in s.blobs && b !in s.marks && !LiveReference(s, b, at) :: at
  }

  ghost function Effect(c: Config, s: State, e: Event): State
    requires Allowed(c, s, e)
  {
    match e
    case Put(blob, size) =>
      s.(blobs := if blob in s.blobs then s.blobs else s.blobs[blob := size], marks := s.marks - {blob})
    case StartAsset(asset, owner) => s.(assets := s.assets[asset := AssetRow(owner, None, false, None)])
    case AcceptIngest(op, owner, blob) =>
      s.(ops := s.ops[op := NewOperation(owner, blob, None, s.now)])
    case AcceptRevision(op, owner, blob, target) =>
      s.(ops := s.ops[op := NewOperation(owner, blob, Some(target), s.now)])
    case AddMedia(row, owner, asset, blob) => s.(rows := s.rows[row := Row(asset, At(blob), 0, None)])
    case LeaseIngest(op, token) =>
      var leased := Leased(c, s.ops[op], token, s.now);
      s.(ops := s.ops[op := leased], leases := s.leases[token := Lease(op, leased.attempts)])
    case RetryIngest(token) =>
      var job := s.leases[token];
      s.(ops := s.ops[job.op := Retried(c, s.ops[job.op], job.attempts, s.now)])
    case FailIngest(token) =>
      var op := s.leases[token].op;
      s.(ops := s.ops[op := Given(s.ops[op])])
    case Finalize(token, asset, row, media) =>
      var op := s.leases[token].op;
      s.(ops := s.ops[op := Finished(s.ops[op], asset)],
         assets := if s.ops[op].target.Some? then s.assets
                   else s.assets[asset := AssetRow(s.ops[op].owner, None, false, Some(op))],
         rows := Written(s, op, asset, row, media))
    case DeleteAsset(asset) =>
      s.(assets := s.assets[asset := s.assets[asset].(until := Some(s.now + RECOVERY_WINDOW))])
    case RestoreAsset(asset) => s.(assets := s.assets[asset := s.assets[asset].(until := None)])
    case Withhold(asset, withheld) =>
      s.(assets := s.assets[asset := s.assets[asset].(withheld := withheld)])
    case MarkUnreferenced(at) => s.(marks := Unmarked(s, at))
    case Prepare(blob, at) =>
      if LiveReference(s, blob, at) then s.(marks := s.marks - {blob})
      else s.(rows := ReleaseAll(s, blob, at), prepared := s.prepared + {(blob, at)})
    case DeleteMarked(blob, at) =>
      if LiveReference(s, blob, at) then s.(marks := s.marks - {blob})
      else s.(blobs := s.blobs - {blob}, marks := s.marks - {blob})
    case PreparePurge(blob) =>
      s.(tombstones := s.tombstones + {blob}, rows := map r | r in s.rows :: PurgeRow(s.rows[r], blob),
         ops := map o | o in s.ops :: PurgeOp(s.ops[o], blob))
    case DeletePurged(blob) => s.(blobs := s.blobs - {blob}, marks := s.marks - {blob})
    case Tick(to) => s.(now := to)
  }

  /** A refused step changes nothing. */
  ghost function Apply(c: Config, s: State, e: Event): State {
    if Allowed(c, s, e) then Effect(c, s, e) else s
  }

  ghost function Run(c: Config, s: State, events: seq<Event>): State
    decreases |events|
  {
    if events == [] then s else Run(c, Apply(c, s, events[0]), events[1..])
  }
}
