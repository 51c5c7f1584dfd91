/** The delivery queue's transactions as they run on its table. */
module DeliveryQueue {
  import opened Sequences
  import opened DeliveryPending
  import opened DeliveryState
  import opened DeliveryLaws

  /** Takes the first accepted format that is offered. */
  method ChooseTarget(accepted: seq<string>, offered: seq<string>, hasOriginal: bool)
    returns (chosen: Option<string>)
    ensures chosen == ChosenFrom(accepted, (set f | f in offered), hasOriginal)
  {
    var byId: set<string> := {};
    for i := 0 to |offered|
      invariant byId == set f | f in offered[..i]
    {
      assert offered[..i + 1] == offered[..i] + [offered[i]];
      byId := byId + {offered[i]};
    }
    assert offered[..|offered|] == offered;
    for i := 0 to |accepted|
      invariant ChosenFrom(accepted, byId, hasOriginal) == ChosenFrom(accepted[i..], byId, hasOriginal)
    {
      assert accepted[i..][1..] == accepted[i + 1..];
      var wanted := accepted[i];
      if wanted in byId { return Some(wanted); }
      if wanted == RAW && hasOriginal { return Some(RAW); }
    }
    return if hasOriginal then Some(RAW) else None;
  }

  datatype Queueing = Added | Existing(id: Id) | Full

  /** Earlier in the queue: first by when it was queued, then by id. */
  predicate Ahead(rows: map<Id, Delivery>, a: Id, b: Id)
    requires a in rows && b in rows
  {
    rows[a].queuedAt < rows[b].queuedAt || (rows[a].queuedAt == rows[b].queuedAt && a <= b)
  }

  method First(rows: map<Id, Delivery>, ids: set<Id>) returns (first: Id)
    requires ids != {} && ids <= rows.Keys
    ensures first in ids && forall r | r in ids :: Ahead(rows, first, r)
  {
    first :| first in ids;
    var left := ids - {first};
    while left != {}
      invariant left <= ids && first in ids && first !in left
      invariant forall r | r in ids && r !in left :: Ahead(rows, first, r)
      decreases left
    {
      var r :| r in left;
      left := left - {r};
      if !Ahead(rows, first, r) { first := r; }
    }
  }

  /** The first of the candidates in queue order, at most so many. */
  method Take(rows: map<Id, Delivery>, candidates: set<Id>, limit: nat) returns (order: seq<Id>)
    requires candidates <= rows.Keys
    ensures Distinct(order) && |order| <= limit && forall r | r in order :: r in candidates
    ensures forall r | r in candidates && r !in order :: |order| == limit && forall q | q in order :: Ahead(rows, q, r)
    ensures forall i, j | 0 <= i < j < |order| :: Ahead(rows, order[i], order[j])
  {
    order := [];
    var left := candidates;
    while |order| < limit && left != {}
      invariant left <= candidates && |order| <= limit
      invariant forall r :: r in order <==> r in candidates && r !in left
      invariant Distinct(order)
      invariant forall q, r | q in order && r in left :: Ahead(rows, q, r)
      invariant forall i, j | 0 <= i < j < |order| :: Ahead(rows, order[i], order[j])
      decreases left
    {
      var r := First(rows, left);
      assert forall i | 0 <= i < |order| :: order[i] in order;
      order := order + [r];
      left := left - {r};
    }
  }

  /** What is known of an asset that can be delivered: the formats it is offered in,
      and whether the creator's own file is there. */
  datatype Deliverable = Deliverable(targets: seq<string>, hasOriginal: bool)

  /** What becomes of an asset at the moment of release. */
  function Decide(accepted: seq<string>, sendable: Option<Deliverable>): Choice {
    match sendable
    case None => Stop(Withdrawn)
    case Some(d) =>
      match ChosenFrom(accepted, (set f | f in d.targets), d.hasOriginal)
      case None => Stop(Unsupported)
      case Some(target) => Choice.Send(target)
  }

  function Choices(accepted: seq<string>, sendable: Id -> Option<Deliverable>): Id -> Choice {
    (asset: Id) => Decide(accepted, sendable(asset))
  }

  /** A claimed row as it is released: settled where the asset is gone or no format
      will do, and otherwise carrying the format chosen for it. */
  ghost predicate ReleasedAs(row: Delivery, claimed: Delivery, accepted: seq<string>, sendable: Option<Deliverable>) {
    match sendable
    case None => row == claimed.(standing := Failed(Withdrawn), lease := None)
    case Some(d) =>
      var chosen := ChosenFrom(accepted, (set f | f in d.targets), d.hasOriginal);
      if chosen.None? then row == claimed.(standing := Failed(Unsupported), lease := None)
      else row == claimed.(target := chosen)
  }

  /** Decides each claimed row at the moment of release. */
  method Release(claimed: map<Id, Delivery>, picked: seq<Id>, accepted: seq<string>, sendable: Id -> Option<Deliverable>)
    returns (rows: map<Id, Delivery>, work: seq<Id>)
    requires Distinct(picked) && forall r | r in picked :: r in claimed
    ensures rows.Keys == claimed.Keys
    ensures forall r | r in claimed ::
      if r in picked then ReleasedAs(rows[r], claimed[r], accepted, sendable(claimed[r].asset)) else rows[r] == claimed[r]
    ensures rows == map r | r in claimed ::
                      if r in picked then Decided(claimed[r], Choices(accepted, sendable)(claimed[r].asset)) else claimed[r]
    ensures forall r :: r in work <==> r in picked && Choices(accepted, sendable)(claimed[r].asset).Send?
    ensures Distinct(work)
  {
    rows, work := claimed, [];
    hide ChosenFrom;
    for i := 0 to |picked|
      invariant rows.Keys == claimed.Keys
      invariant forall r | r in claimed ::
        if r in picked[..i] then ReleasedAs(rows[r], claimed[r], accepted, sendable(claimed[r].asset)) else rows[r] == claimed[r]
      invariant forall r :: r in work <==> r in picked[..i] && Decide(accepted, sendable(claimed[r].asset)).Send?
      invariant Distinct(work)
    {
      var r := picked[i];
      assert picked[..i + 1] == picked[..i] + [r] && r in picked;
      DistinctHere(picked, i);
      var sent := sendable(claimed[r].asset);
      if sent.None? {
        rows := rows[r := rows[r].(standing := Failed(Withdrawn), lease := None)];
        continue;
      }
      var chosen := ChooseTarget(accepted, sent.value.targets, sent.value.hasOriginal);
      if chosen.None? {
        rows := rows[r := rows[r].(standing := Failed(Unsupported), lease := None)];
        continue;
      }
      rows := rows[r := rows[r].(target := chosen)];
      work := work + [r];
    }
    assert picked[..|picked|] == picked;
    forall r | r in picked ensures rows[r] == Decided(claimed[r], Choices(accepted, sendable)(claimed[r].asset)) {
      ReleaseDecides(rows[r], claimed[r], accepted, sendable(claimed[r].asset));
    }
  }

  lemma {:induction false} ReleaseDecides(row: Delivery, claimed: Delivery, accepted: seq<string>, sendable: Option<Deliverable>)
    requires ReleasedAs(row, claimed, accepted, sendable)
    ensures row == Decided(claimed, Decide(accepted, sendable))
  {
    hide ChosenFrom;
  }

  function Leasing(c: Config, s: State, instance: Id, picked: seq<Id>): map<Id, Delivery> {
    map r | r in s.rows :: if r in picked then Claimed(c, s.rows[r], s.now) else Spent(c, s.rows[r], instance, s.now)
  }

  /** Leasing and then deciding the picked rows is what a claim does to the table. */
  lemma {:induction false} LeasedRows(c: Config, s: State, instance: Id, picked: seq<Id>, choices: Id -> Choice)
    ensures var leased := Leasing(c, s, instance, picked);
      && leased.Keys == s.rows.Keys
      && (forall r | r in s.rows && r in picked :: leased[r].asset == s.rows[r].asset)
      && (map r | r in leased :: if r in picked then Decided(leased[r], choices(leased[r].asset)) else leased[r])
         == AfterClaim(c, s, instance, (set r | r in picked), choices)
  {
    hide Decided;
    hide Spent;
    var leased := Leasing(c, s, instance, picked);
    assert forall r | r in s.rows && r in picked :: leased[r].asset == s.rows[r].asset;
    hide Claimed;
  }

  /** A row of the instance whose last lease is over with no attempt left. */
  predicate SpentOn(c: Config, row: Delivery, instance: Id, now: Time) {
    && row.instance == instance && row.standing == Released && row.lease.Some? && row.lease.value <= now
    && row.attempts >= c.maxAttempts
  }

  lemma {:induction false} LeasedAre(c: Config, s: State, instance: Id, picked: seq<Id>)
    ensures var leased := Leasing(c, s, instance, picked);
      && leased.Keys == s.rows.Keys
      && forall r | r in s.rows ::
           leased[r] ==
             if r in picked
             then s.rows[r].(standing := Released, attempts := s.rows[r].attempts + 1, lease := Some(s.now + c.lease))
             else if SpentOn(c, s.rows[r], instance, s.now) then s.rows[r].(standing := Failed(Abandoned), lease := None)
             else s.rows[r]
  {
  }

  class Queue {
    const config: Config
    const pending: nat
    var now: Time
    var instances: map<Id, Instance>
    var rows: map<Id, Delivery>
    ghost var used: set<Id>
    ghost var log: seq<HandOut>

    ghost function State(): State
      reads this
    {
      DeliveryState.State(now, instances, rows, used, log)
    }

    /** The first transaction of a send: whether fewer wait for the instance than
        may. */
    method FindsRoom(instance: Id) returns (room: bool)
      ensures room <==> |LiveRows(State(), instance)| < pending
    {
      var live := set r | r in rows && rows[r].instance == instance && Live(rows[r]);
      assert live == LiveRows(State(), instance);
      room := |live| < pending;
    }

    /** Its second: one live row for the instance and the asset, the new one unless
        there is one already. */
    method InsertDelivery(id: Id, instance: Id, asset: Id) returns (answer: Queueing)
      requires id !in used && id !in rows && instance in instances
      modifies this`rows, this`used
      ensures !answer.Full? && State() == Apply(config, old(State()), Insert(id, instance, asset))
      ensures rows == if answer.Added?
                      then old(rows)[id := Delivery(instance, asset, Queued, 0, now, None, None, now + config.retention)]
                      else old(rows)
      ensures answer.Added? <==> !HasLive(old(State()), instance, asset)
      ensures answer.Added? ==> id in rows
      ensures answer.Existing? ==> answer.id in rows && Live(rows[answer.id])
                                   && rows[answer.id].instance == instance && rows[answer.id].asset == asset
    {
      var live := set r | r in rows && rows[r].instance == instance && rows[r].asset == asset && Live(rows[r]);
      if live != {} {
        var r :| r in live;
        assert HasLive(State(), instance, asset);
        return Existing(r);
      }
      assert forall r | r in rows && rows[r].instance == instance && rows[r].asset == asset && Live(rows[r]) :: r in live;
      rows := rows[id := Delivery(instance, asset, Queued, 0, now, None, None, now + config.retention)];
      used := used + {id};
      return Added;
    }

    /** Queues one asset to one instance with nothing in between; a second press
        answers with the first. */
    method Send(id: Id, instance: Id, asset: Id) returns (answer: Queueing)
      requires id !in used && id !in rows && instance in instances
      modifies this`rows, this`used
      ensures answer.Full? <==> |LiveRows(old(State()), instance)| >= pending
      ensures answer.Full? ==> State() == old(State())
      ensures !answer.Full? ==> State() == Apply(config, old(State()), Insert(id, instance, asset))
      ensures answer.Added? ==> id in rows && !HasLive(old(State()), instance, asset)
      ensures answer.Existing? ==> answer.id in rows && Live(rows[answer.id])
                                   && rows[answer.id].instance == instance && rows[answer.id].asset == asset
    {
      hide LiveRows;
      hide HasLive;
      var room := FindsRoom(instance);
      if !room { return Full; }
      answer := InsertDelivery(id, instance, asset);
    }

    method Candidates(instance: Id) returns (candidates: set<Id>)
      ensures forall r :: r in candidates <==> Claimable(config, State(), r, instance)
      ensures candidates <= rows.Keys
    {
      var receives := instance in instances && !instances[instance].revoked && instances[instance].receives;
      candidates := set r | r in rows && rows[r].instance == instance && receives && rows[r].expires > now
        && rows[r].attempts < config.maxAttempts && (rows[r].standing == Queued || Lapsed(rows[r], now));
    }

    /** The rows with the picked ones leased and the spent ones abandoned. */
    method LeaseOut(instance: Id, picked: seq<Id>) returns (leased: map<Id, Delivery>)
      ensures leased == Leasing(config, State(), instance, picked)
    {
      leased := map r | r in rows ::
        if r in picked then Claimed(config, rows[r], now) else Spent(config, rows[r], instance, now);
    }

    /** Abandons what is spent, leases the next batch, and decides each row
        again as it is released. */
    method Claim(instance: Id, accepted: seq<string>, sendable: Id -> Option<Deliverable>)
      returns (work: seq<Id>, ghost order: seq<Id>)
      modifies this`rows, this`log
      ensures var e := Event.Claim(instance, order, Choices(accepted, sendable));
        Allowed(config, old(State()), e) && State() == Effect(config, old(State()), e)
      ensures forall r | Claimable(config, old(State()), r, instance) && r !in order ::
                |order| == config.batch && forall q | q in order :: q in old(rows) && Ahead(old(rows), q, r)
      ensures rows.Keys == old(rows).Keys && Distinct(work)
      ensures forall r :: r in work <==> r in order && r in rows && rows[r].standing == Released
      ensures forall r | r in order ::
        && r in rows
        && ReleasedAs(rows[r],
             old(rows)[r].(standing := Released, attempts := old(rows)[r].attempts + 1, lease := Some(now + config.lease)),
             accepted, sendable(old(rows)[r].asset))
      ensures forall r | r in rows && r !in order ::
        rows[r] == if SpentOn(config, old(rows)[r], instance, now)
                   then old(rows)[r].(standing := Failed(Abandoned), lease := None) else old(rows)[r]
    {
      hide HandedOut;
      hide Claimable;
      hide Lapsed;
      hide AfterClaim;
      hide Effect;
      hide Allowed;
      hide Leasing;
      hide ChosenFrom;
      hide Decided;
      ghost var s := State();
      var candidates := Candidates(instance);
      var picked := Take(rows, candidates, config.batch);
      order := picked;
      var leased := LeaseOut(instance, picked);
      LeasedAre(config, s, instance, picked);
      LeasedRows(config, s, instance, picked, Choices(accepted, sendable));
      rows, work := Release(leased, picked, accepted, sendable);
      log := log + HandedOut(config, s, instance, picked, Choices(accepted, sendable));
      ClaimIs(config, s, Event.Claim(instance, picked, Choices(accepted, sendable)));
    }

    method Acknowledge(instance: Id, ids: set<Id>)
      modifies this`rows
      ensures State() == Apply(config, old(State()), Event.Acknowledge(instance, ids))
      ensures forall r :: r in rows <==>
        r in old(rows) && !(r in ids && old(rows)[r].instance == instance && old(rows)[r].standing == Released)
      ensures forall r | r in rows :: rows[r] == old(rows)[r]
    {
      rows := map r | r in rows && !(r in ids && rows[r].instance == instance && rows[r].standing == Released) :: rows[r];
    }

    method Discard(id: Id, user: Id) returns (found: bool)
      modifies this`rows
      ensures State() == Apply(config, old(State()), Event.Discard(id, user))
      ensures found <==>
        id in old(rows) && old(rows)[id].instance in instances && instances[old(rows)[id].instance].user == user
      ensures rows == if found then old(rows) - {id} else old(rows)
    {
      found := id in rows && rows[id].instance in instances && instances[rows[id].instance].user == user;
      rows := map r | r in rows
                && !(r == id && rows[r].instance in instances && instances[rows[r].instance].user == user) :: rows[r];
    }

    /** The asset and format behind a signed address. */
    method Resolve(id: Id) returns (found: Option<(Id, string)>)
      ensures found == Artifact(State(), id)
      ensures found.Some? <==>
        && id in rows && rows[id].standing == Released && rows[id].lease.Some? && now < rows[id].lease.value
        && now < rows[id].expires && rows[id].target.Some? && rows[id].instance in instances
        && !instances[rows[id].instance].revoked && instances[rows[id].instance].receives
      ensures found.Some? ==> found == Some((rows[id].asset, rows[id].target.value))
    {
      if id !in rows { return None; }
      var row := rows[id];
      if row.standing != Released || row.lease.None? || row.lease.value <= now { return None; }
      if row.expires <= now || row.target.None? { return None; }
      if row.instance !in instances || instances[row.instance].revoked || !instances[row.instance].receives { return None; }
      return Some((row.asset, row.target.value));
    }
  }

  lemma {:induction false} DistinctHere<T>(s: seq<T>, i: nat)
    requires Distinct(s) && i < |s|
    ensures s[i] !in s[..i]
  {
  }
}
