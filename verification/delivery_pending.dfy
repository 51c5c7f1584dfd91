/** The pending limit of an instance when sends overlap: a send counts what waits in
    one transaction and inserts in a later one. */
module DeliveryPending {
  import opened Sequences
  import opened DeliveryState

  /** `counted` has the sends that found room at an instance and have yet to insert. */
  datatype Sending = Sending(queue: State, counted: map<Id, Id>)

  datatype Move =
    | Count(send: Id, instance: Id)
    | Finish(send: Id, id: Id, asset: Id)
    | GiveUp(send: Id)
    | Other(event: Event)

  function LiveRows(s: State, instance: Id): set<Id> {
    set r | r in s.rows && s.rows[r].instance == instance && Live(s.rows[r])
  }

  function InFlight(counted: map<Id, Id>, instance: Id): set<Id> {
    set k | k in counted && counted[k] == instance
  }

  ghost predicate May(pending: nat, p: Sending, m: Move) {
    match m
    case Count(send, instance) =>
      send !in p.counted && instance in p.queue.instances && |LiveRows(p.queue, instance)| < pending
    case Finish(send, _, _) => send in p.counted
    case GiveUp(_) => true
    case Other(event) => !event.Insert?
  }

  /** An insertion that meets a live row of the same asset leaves the queue alone. */
  ghost function Moved(c: Config, pending: nat, p: Sending, m: Move): Sending {
    if !May(pending, p, m) then p
    else
      match m
      case Count(send, instance) => p.(counted := p.counted[send := instance])
      case Finish(send, id, asset) =>
        Sending(Apply(c, p.queue, Insert(id, p.counted[send], asset)), p.counted - {send})
      case GiveUp(send) => p.(counted := p.counted - {send})
      case Other(event) => p.(queue := Apply(c, p.queue, event))
  }

  ghost function Moves(c: Config, pending: nat, p: Sending, moves: seq<Move>): Sending
    decreases |moves|
  {
    if moves == [] then p else Moves(c, pending, Moved(c, pending, p, moves[0]), moves[1..])
  }

  /** At no time are more than k sends to the instance between their two steps. */
  ghost predicate AtOnce(c: Config, pending: nat, p: Sending, moves: seq<Move>, instance: Id, k: nat)
    decreases |moves|
  {
    && |InFlight(p.counted, instance)| <= k
    && (moves == [] || AtOnce(c, pending, Moved(c, pending, p, moves[0]), moves[1..], instance, k))
  }

  // ---- the bound ----------------------------------------------------------

  lemma {:induction false} SmallerSet<T>(a: set<T>, b: set<T>)
    requires a <= b
    ensures |a| <= |b|
  {
    assert b == a + (b - a);
  }

  /** Only an insertion makes another row live. */
  lemma {:induction false} OthersAddNone(c: Config, s: State, e: Event, instance: Id)
    requires !e.Insert?
    ensures LiveRows(Apply(c, s, e), instance) <= LiveRows(s, instance)
  {
    hide HandedOut;
    hide Receives;
    hide Owns;
    hide Exhausted;
  }

  lemma {:induction false} InsertAddsOne(c: Config, s: State, id: Id, to: Id, asset: Id, instance: Id)
    ensures LiveRows(Apply(c, s, Insert(id, to, asset)), instance) <=
      LiveRows(s, instance) + (if to == instance then {id} else {})
  {
    hide HasLive;
  }

  lemma {:induction false} OneLess(counted: map<Id, Id>, send: Id, instance: Id)
    ensures InFlight(counted - {send}, instance) == InFlight(counted, instance) - {send}
    ensures send in counted ==> (send in InFlight(counted, instance) <==> counted[send] == instance)
  {
  }

  lemma {:induction false} OneMore(counted: map<Id, Id>, send: Id, to: Id, instance: Id)
    requires send !in counted
    ensures InFlight(counted[send := to], instance) == InFlight(counted, instance) + (if to == instance then {send} else {})
  {
  }

  ghost predicate Within(pending: nat, p: Sending, instance: Id, k: nat) {
    |LiveRows(p.queue, instance)| + |InFlight(p.counted, instance)| <= pending - 1 + k
  }

  lemma {:induction false} EmptyWithin(pending: nat, p: Sending, instance: Id, k: nat)
    requires k > 0 && p.counted == map[] && forall r | r in p.queue.rows :: p.queue.rows[r].instance != instance
    ensures Within(pending, p, instance, k)
  {
    assert LiveRows(p.queue, instance) == {} && InFlight(p.counted, instance) == {};
  }

  lemma {:induction false} MoveKeepsWithin(c: Config, pending: nat, p: Sending, m: Move, instance: Id, k: nat)
    requires Within(pending, p, instance, k)
    requires |InFlight(Moved(c, pending, p, m).counted, instance)| <= k
    ensures Within(pending, Moved(c, pending, p, m), instance, k)
  {
    hide LiveRows;
    hide InFlight;
    hide Apply;
    if May(pending, p, m) {
      match m
      case Count(send, to) => OneMore(p.counted, send, to, instance);
      case Finish(send, id, asset) =>
        var to := p.counted[send];
        InsertAddsOne(c, p.queue, id, to, asset, instance);
        OneLess(p.counted, send, instance);
        SmallerSet(LiveRows(Apply(c, p.queue, Insert(id, to, asset)), instance),
                   LiveRows(p.queue, instance) + (if to == instance then {id} else {}));
      case GiveUp(send) => OneLess(p.counted, send, instance);
      case Other(event) =>
        OthersAddNone(c, p.queue, event, instance);
        SmallerSet(LiveRows(Apply(c, p.queue, event), instance), LiveRows(p.queue, instance));
    }
  }

  /** While at most k sends to an instance overlap, at most k - 1 deliveries more wait
      for it than the limit says; sent one at a time, never more than that. */
  lemma {:induction false} OverlapBounds(c: Config, pending: nat, p: Sending, moves: seq<Move>, instance: Id, k: nat)
    requires Within(pending, p, instance, k) && AtOnce(c, pending, p, moves, instance, k)
    ensures |LiveRows(Moves(c, pending, p, moves).queue, instance)| <= pending - 1 + k
    ensures Within(pending, Moves(c, pending, p, moves), instance, k)
    decreases |moves|
  {
    hide Moved;
    hide LiveRows;
    hide InFlight;
    if moves != [] {
      var next := Moved(c, pending, p, moves[0]);
      assert AtOnce(c, pending, next, moves[1..], instance, k);
      assert |InFlight(next.counted, instance)| <= k;
      MoveKeepsWithin(c, pending, p, moves[0], instance, k);
      OverlapBounds(c, pending, next, moves[1..], instance, k);
    }
  }

  // ---- the bound is met ---------------------------------------------------

  /** The numbers from j up to k. */
  function Between(j: nat, k: nat): (r: set<nat>)
    requires j <= k
    ensures |r| == k - j && forall i :: i in r <==> j <= i < k
    decreases k
  {
    if j == k then {} else Between(j, k - 1) + {k - 1}
  }

  /** One instance with n deliveries waiting, of the assets below n. */
  function Held(c: Config, n: nat): State {
    State(0, map[0 := Instance(0, false, true)],
          map r | r in Between(0, n) :: Delivery(0, r, Queued, 0, 0, None, None, c.retention), Between(0, n), [])
  }

  /** The sends from j up to k have counted. */
  function Pressed(c: Config, n: nat, j: nat, k: nat): Sending
    requires j <= k
  {
    Sending(Held(c, n), map i | i in Between(j, k) :: 0)
  }

  lemma {:induction false} HeldCount(c: Config, n: nat)
    ensures |LiveRows(Held(c, n), 0)| == n
  {
    assert LiveRows(Held(c, n), 0) == Between(0, n);
  }

  lemma {:induction false} PressedCount(c: Config, n: nat, j: nat, k: nat)
    requires j <= k
    ensures |InFlight(Pressed(c, n, j, k).counted, 0)| == k - j
  {
    assert InFlight(Pressed(c, n, j, k).counted, 0) == Between(j, k);
  }

  lemma {:induction false} Presses(c: Config, pending: nat, n: nat, k: nat)
    requires n < pending
    ensures Moved(c, pending, Pressed(c, n, 0, k), Count(k, 0)) == Pressed(c, n, 0, k + 1)
  {
    HeldCount(c, n);
    hide LiveRows;
    assert Pressed(c, n, 0, k).counted[k := 0] == Pressed(c, n, 0, k + 1).counted;
  }

  lemma {:induction false} HeldNext(c: Config, n: nat)
    ensures Apply(c, Held(c, n), Insert(n, 0, n)) == Held(c, n + 1)
  {
    var s, t := Held(c, n), Held(c, n + 1);
    assert Allowed(c, s, Insert(n, 0, n));
    assert s.rows[n := Delivery(0, n, Queued, 0, 0, None, None, c.retention)] == t.rows;
    assert s.used + {n} == t.used;
  }

  lemma {:induction false} Finishes(c: Config, pending: nat, n: nat, j: nat, k: nat)
    requires j < k
    ensures Moved(c, pending, Pressed(c, n, j, k), Finish(j, n, n)) == Pressed(c, n + 1, j + 1, k)
  {
    HeldNext(c, n);
    hide Apply;
    hide Held;
    assert Pressed(c, n, j, k).counted - {j} == Pressed(c, n, j + 1, k).counted;
  }

  function Finishing(n: nat, j: nat, k: nat): seq<Move>
    requires j <= k
    decreases k - j
  {
    if j == k then [] else [Finish(j, n, n)] + Finishing(n + 1, j + 1, k)
  }

  function Counting(j: nat, k: nat, rest: seq<Move>): seq<Move>
    requires j <= k
    decreases k - j
  {
    if j == k then rest else [Count(j, 0)] + Counting(j + 1, k, rest)
  }

  lemma {:induction false} OneMove(
    c: Config, pending: nat, p: Sending, m: Move, next: Sending, moves: seq<Move>, k: nat
  )
    requires Moved(c, pending, p, m) == next && |InFlight(p.counted, 0)| <= k
    ensures Moves(c, pending, p, [m] + moves) == Moves(c, pending, next, moves)
    ensures AtOnce(c, pending, p, [m] + moves, 0, k) <==> AtOnce(c, pending, next, moves, 0, k)
  {
    hide Moved;
    hide InFlight;
    var all := [m] + moves;
    assert all[0] == m && all[1..] == moves;
  }

  lemma {:induction false} NoMove(c: Config, pending: nat, p: Sending, k: nat)
    requires |InFlight(p.counted, 0)| <= k
    ensures Moves(c, pending, p, []) == p && AtOnce(c, pending, p, [], 0, k)
  {
  }

  lemma {:induction false} AllFinish(c: Config, pending: nat, n: nat, j: nat, k: nat)
    requires j <= k
    ensures Moves(c, pending, Pressed(c, n, j, k), Finishing(n, j, k)) == Pressed(c, n + (k - j), k, k)
    ensures AtOnce(c, pending, Pressed(c, n, j, k), Finishing(n, j, k), 0, k)
    decreases k - j
  {
    hide Pressed;
    hide Moves;
    hide AtOnce;
    hide Moved;
    hide InFlight;
    PressedCount(c, n, j, k);
    if j < k {
      Finishes(c, pending, n, j, k);
      OneMove(c, pending, Pressed(c, n, j, k), Finish(j, n, n), Pressed(c, n + 1, j + 1, k), Finishing(n + 1, j + 1, k), k);
      AllFinish(c, pending, n + 1, j + 1, k);
    } else {
      NoMove(c, pending, Pressed(c, n, k, k), k);
    }
  }

  lemma {:induction false} AllCount(c: Config, pending: nat, n: nat, j: nat, k: nat)
    requires n < pending && j <= k
    ensures var moves := Counting(j, k, Finishing(n, 0, k));
      && Moves(c, pending, Pressed(c, n, 0, j), moves) == Pressed(c, n + k, k, k)
      && AtOnce(c, pending, Pressed(c, n, 0, j), moves, 0, k)
    decreases k - j
  {
    hide Pressed;
    hide Moves;
    hide AtOnce;
    hide Moved;
    hide InFlight;
    hide Finishing;
    PressedCount(c, n, 0, j);
    if j < k {
      Presses(c, pending, n, j);
      OneMove(c, pending, Pressed(c, n, 0, j), Count(j, 0), Pressed(c, n, 0, j + 1), Counting(j + 1, k, Finishing(n, 0, k)), k);
      AllCount(c, pending, n, j + 1, k);
    } else {
      AllFinish(c, pending, n, 0, k);
    }
  }

  lemma {:induction false} PressedIs(c: Config, n: nat, k: nat)
    ensures Pressed(c, n, k, k) == Sending(Held(c, n), map[])
  {
    hide Held;
  }

  function Singles(n: nat, m: nat, rest: seq<Move>): seq<Move>
    requires n <= m
    decreases m - n
  {
    if n == m then rest else [Count(0, 0)] + ([Finish(0, n, n)] + Singles(n + 1, m, rest))
  }

  /** Sends up to one short of the limit one at a time, then k at once. */
  function Rush(pending: nat, k: nat): seq<Move>
    requires pending > 0
  {
    Singles(0, pending - 1, Counting(0, k, Finishing(pending - 1, 0, k)))
  }

  lemma {:induction false} AllSingles(c: Config, pending: nat, n: nat, k: nat)
    requires n < pending && k > 0
    ensures var moves := Singles(n, pending - 1, Counting(0, k, Finishing(pending - 1, 0, k)));
      && Moves(c, pending, Pressed(c, n, 0, 0), moves) == Pressed(c, pending - 1 + k, k, k)
      && AtOnce(c, pending, Pressed(c, n, 0, 0), moves, 0, k)
    decreases pending - n
  {
    hide Pressed;
    hide Moves;
    hide AtOnce;
    hide Moved;
    hide InFlight;
    hide Finishing;
    hide Counting;
    hide Held;
    if n < pending - 1 {
      var moves := Singles(n + 1, pending - 1, Counting(0, k, Finishing(pending - 1, 0, k)));
      PressedCount(c, n, 0, 0);
      PressedCount(c, n, 0, 1);
      Presses(c, pending, n, 0);
      Finishes(c, pending, n, 0, 1);
      PressedIs(c, n + 1, 0);
      PressedIs(c, n + 1, 1);
      OneMove(c, pending, Pressed(c, n, 0, 0), Count(0, 0), Pressed(c, n, 0, 1), [Finish(0, n, n)] + moves, k);
      OneMove(c, pending, Pressed(c, n, 0, 1), Finish(0, n, n), Pressed(c, n + 1, 0, 0), moves, k);
      AllSingles(c, pending, n + 1, k);
    } else {
      AllCount(c, pending, n, 0, k);
    }
  }

  /** One linked instance and nothing sent yet. */
  function Unsent(): Sending { Sending(State(0, map[0 := Instance(0, false, true)], map[], {}, []), map[]) }

  /** So the limit holds of one send at a time only: k sends that overlap can leave
      k - 1 deliveries more than it. */
  lemma {:induction false} OverlapsOverflow(c: Config, pending: nat, k: nat)
    requires pending > 0 && k > 0
    ensures AtOnce(c, pending, Unsent(), Rush(pending, k), 0, k)
    ensures |LiveRows(Moves(c, pending, Unsent(), Rush(pending, k)).queue, 0)| == pending - 1 + k
  {
    hide *;
    UnsentIs(c);
    RushIs(pending, k);
    AllSingles(c, pending, 0, k);
    HeldCount(c, pending - 1 + k);
    PressedIs(c, pending - 1 + k, k);
  }

  lemma {:induction false} UnsentIs(c: Config)
    ensures Pressed(c, 0, 0, 0) == Unsent()
  {
  }

  lemma {:induction false} RushIs(pending: nat, k: nat)
    requires pending > 0
    ensures Rush(pending, k) == Singles(0, pending - 1, Counting(0, k, Finishing(pending - 1, 0, k)))
  {
  }
}
