/** Requests held open for work: one to an instance, capped, each woken by a
    queued delivery, and never a wake-up lost between the two. */
module Hub {
  type Id = nat

  lemma {:induction false} SameSize<T>(m: map<Id, T>, k: Id, v: T)
    requires k in m
    ensures |m[k := v]| == |m|
  {
    assert m[k := v].Keys == m.Keys;
  }

  lemma {:induction false} Smaller<T>(m: map<Id, T>, k: Id)
    requires k in m
    ensures |m - {k}| == |m| - 1
  {
    assert (m - {k}).Keys == m.Keys - {k};
  }

  // ---- no wake-up is lost -------------------------------------------------

  /** Where a collector stands between its claims. */
  datatype Phase = Claiming | Idle | Finished

  /** `since` holds the rows inserted for its instance after its last claim began. */
  datatype Collector = Collector(instance: Id, phase: Phase, token: bool, since: set<Id>)

  /** `unsignalled` holds the rows whose sender has inserted but not yet signalled. */
  datatype State = State(
    registered: map<Id, Id>, collectors: map<Id, Collector>, rows: map<Id, Id>, unsignalled: set<Id>,
    closed: set<Id>)

  datatype Step =
    | Insert(row: Id, instance: Id)
    | Signal(row: Id)
    | Hold(instance: Id, collector: Id)
    | Claim(collector: Id, found: bool)
    | Wake(collector: Id)
    | Recheck(collector: Id)
    | Finish(collector: Id)
    | Release(collector: Id)

  ghost predicate Allowed(limit: nat, s: State, e: Step) {
    match e
    case Insert(row, instance) => row !in s.rows
    case Signal(row) => row in s.unsignalled && row in s.rows
    case Hold(instance, collector) =>
      collector !in s.collectors && (instance in s.registered || |s.registered| < limit)
    case Claim(collector, found) => collector in s.collectors && s.collectors[collector].phase == Claiming
    case Wake(collector) =>
      collector in s.collectors && s.collectors[collector].phase == Idle && s.collectors[collector].token
    case Recheck(collector) => collector in s.collectors && s.collectors[collector].phase == Idle
    case Finish(collector) => collector in s.collectors && s.collectors[collector].phase == Idle
    case Release(collector) => collector in s.collectors && s.collectors[collector].phase == Finished
  }

  function Saw(c: Collector, row: Id, instance: Id): Collector {
    if c.instance == instance then c.(since := c.since + {row}) else c
  }

  ghost function Effect(limit: nat, s: State, e: Step): State
    requires Allowed(limit, s, e)
  {
    match e
    case Insert(row, instance) =>
      s.(rows := s.rows[row := instance], unsignalled := s.unsignalled + {row},
         collectors := map c | c in s.collectors :: Saw(s.collectors[c], row, instance))
    case Signal(row) =>
      var instance := s.rows[row];
      s.(unsignalled := s.unsignalled - {row},
         collectors := if instance in s.registered && s.registered[instance] in s.collectors
                       then s.collectors[s.registered[instance] := s.collectors[s.registered[instance]].(token := true)]
                       else s.collectors)
    case Hold(instance, collector) =>
      s.(closed := if instance in s.registered then s.closed + {s.registered[instance]} else s.closed,
         registered := s.registered[instance := collector],
         collectors := s.collectors[collector := Collector(instance, Claiming, false, {})])
    case Claim(collector, found) =>
      s.(collectors := s.collectors[collector :=
           s.collectors[collector].(phase := if found then Finished else Idle, since := {})])
    case Wake(collector) =>
      s.(collectors := s.collectors[collector := s.collectors[collector].(phase := Claiming, token := false)])
    case Recheck(collector) =>
      s.(collectors := s.collectors[collector := s.collectors[collector].(phase := Claiming)])
    case Finish(collector) =>
      s.(collectors := s.collectors[collector := s.collectors[collector].(phase := Finished)])
    case Release(collector) =>
      var instance := s.collectors[collector].instance;
      if instance in s.registered && s.registered[instance] == collector
      then s.(registered := s.registered - {instance})
      else s
  }

  ghost function Apply(limit: nat, s: State, e: Step): State {
    if Allowed(limit, s, e) then Effect(limit, s, e) else s
  }

  ghost function Run(limit: nat, s: State, steps: seq<Step>): State
    decreases |steps|
  {
    if steps == [] then s else Run(limit, Apply(limit, s, steps[0]), steps[1..])
  }

  /** A registered collector at rest has a token for every row that came since
      its last claim, unless that row's sender is still on its way to signal. */
  ghost predicate Awake(s: State, instance: Id)
    requires instance in s.registered
  {
    var c := s.registered[instance];
    && c in s.collectors && c !in s.closed && s.collectors[c].instance == instance
    && (s.collectors[c].phase == Idle && !s.collectors[c].token ==> s.collectors[c].since <= s.unsignalled)
  }

  ghost predicate HubOk(limit: nat, s: State) {
    && |s.registered| <= limit
    && (forall i | i in s.registered :: Awake(s, i))
    && (forall c | c in s.collectors :: forall r | r in s.collectors[c].since ::
          r in s.rows && s.rows[r] == s.collectors[c].instance)
    && (forall c | c in s.closed :: c in s.collectors)
  }

  lemma {:induction false} StaysAwake(limit: nat, s: State, e: Step, i: Id)
    requires HubOk(limit, s) && Allowed(limit, s, e) && i in Effect(limit, s, e).registered
    ensures Awake(Effect(limit, s, e), i)
  {
    if i in s.registered { assert Awake(s, i); }
    if e.Signal? && s.rows[e.row] in s.registered { assert Awake(s, s.rows[e.row]); }
  }

  lemma {:induction false} KeepsLimit(limit: nat, s: State, e: Step)
    requires |s.registered| <= limit && Allowed(limit, s, e)
    ensures |Effect(limit, s, e).registered| <= limit
  {
    match e
    case Hold(instance, collector) =>
      if instance in s.registered { SameSize(s.registered, instance, collector); }
    case Release(collector) =>
      if s.collectors[collector].instance in s.registered { Smaller(s.registered, s.collectors[collector].instance); }
    case _ =>
  }

  lemma {:induction false} StepKeepsHub(limit: nat, s: State, e: Step)
    requires HubOk(limit, s) && Allowed(limit, s, e)
    ensures HubOk(limit, Effect(limit, s, e))
  {
    var t := Effect(limit, s, e);
    KeepsLimit(limit, s, e);
    forall i | i in t.registered ensures Awake(t, i) { StaysAwake(limit, s, e, i); }
    if e.Hold? && e.instance in s.registered { assert Awake(s, e.instance); }
    hide Awake;
  }

  /** No run loses a wake-up, closes a request twice or holds too many. */
  lemma {:induction false} RunKeepsHub(limit: nat, s: State, steps: seq<Step>)
    requires HubOk(limit, s)
    ensures HubOk(limit, Run(limit, s, steps))
    decreases |steps|
  {
    if steps != [] {
      hide HubOk;
      hide Effect;
      hide Allowed;
      if Allowed(limit, s, steps[0]) { StepKeepsHub(limit, s, steps[0]); }
      RunKeepsHub(limit, Apply(limit, s, steps[0]), steps[1..]);
    }
  }

  /** A request that is superseded was open until then. */
  lemma {:induction false} ClosedOnce(limit: nat, s: State, instance: Id, collector: Id)
    requires HubOk(limit, s) && Allowed(limit, s, Step.Hold(instance, collector)) && instance in s.registered
    ensures s.registered[instance] !in s.closed
  {
    assert Awake(s, instance);
  }

  /** After any run: once its sender has signalled a row, the registered collector
      at rest that has not looked since is due to look again. */
  lemma {:induction false} NoLostWakeUp(limit: nat, s: State, steps: seq<Step>, instance: Id, row: Id)
    requires HubOk(limit, s)
    ensures var t := Run(limit, s, steps);
      instance in t.registered ==>
        && var c := t.registered[instance];
        && c in t.collectors
        && (t.collectors[c].phase == Idle && row in t.collectors[c].since && row !in t.unsignalled ==>
              t.collectors[c].token && Allowed(limit, t, Wake(c)))
  {
    RunKeepsHub(limit, s, steps);
    hide Run;
    var t := Run(limit, s, steps);
    if instance in t.registered { assert Awake(t, instance); }
  }

  // ---- what each step does to the channels --------------------------------

  /** Every collector there was, with the token it had. */
  ghost predicate SameTokens(s: State, t: State) {
    t.collectors.Keys == s.collectors.Keys && forall c | c in s.collectors :: t.collectors[c].token == s.collectors[c].token
  }

  lemma {:induction false} AroundTheHub(limit: nat, s: State, e: Step)
    requires Allowed(limit, s, e) && (e.Insert? || e.Claim? || e.Recheck? || e.Finish?)
    ensures var t := Effect(limit, s, e); SameTokens(s, t) && t.registered == s.registered && t.closed == s.closed
  {
  }

  lemma {:induction false} ReleaseIs(limit: nat, s: State, collector: Id, instance: Id)
    requires Allowed(limit, s, Step.Release(collector)) && s.collectors[collector].instance == instance
    ensures var t := Effect(limit, s, Step.Release(collector));
      && SameTokens(s, t) && t.closed == s.closed
      && t.registered == if instance in s.registered && s.registered[instance] == collector then s.registered - {instance}
                         else s.registered
  {
  }

  lemma {:induction false} HoldIs(limit: nat, s: State, instance: Id, collector: Id)
    requires Allowed(limit, s, Step.Hold(instance, collector))
    ensures var t := Effect(limit, s, Step.Hold(instance, collector));
      && t.registered == s.registered[instance := collector]
      && t.closed == (if instance in s.registered then s.closed + {s.registered[instance]} else s.closed)
      && collector !in s.collectors
      && t.collectors.Keys == s.collectors.Keys + {collector} && !t.collectors[collector].token
      && forall c | c in s.collectors :: c != collector && t.collectors[c] == s.collectors[c]
  {
  }

  lemma {:induction false} SignalIs(limit: nat, s: State, row: Id, instance: Id)
    requires Allowed(limit, s, Step.Signal(row)) && s.rows[row] == instance
    ensures var t := Effect(limit, s, Step.Signal(row));
      && t.registered == s.registered && t.closed == s.closed && t.collectors.Keys == s.collectors.Keys
      && forall c | c in s.collectors ::
           t.collectors[c].token == (s.collectors[c].token || (instance in s.registered && s.registered[instance] == c))
  {
  }

  /** Where each step leaves its collector, and what it has seen: a claim sees every row
      so far and rests only where it found nothing; a wake-up or a timer's recheck
      claims again; a row is unseen by every collector of its instance. */
  lemma {:induction false} CollectorsGoOn(limit: nat, s: State, e: Step, c: Id)
    requires Allowed(limit, s, e) && c in Effect(limit, s, e).collectors
    ensures var after := Effect(limit, s, e).collectors[c];
      match e
      case Insert(row, instance) =>
        && c in s.collectors && after.phase == s.collectors[c].phase && after.instance == s.collectors[c].instance
        && after.since == s.collectors[c].since + (if after.instance == instance then {row} else {})
      case Claim(collector, found) =>
        if c == collector then after.phase == (if found then Finished else Idle) && after.since == {}
        else c in s.collectors && after == s.collectors[c]
      case Wake(collector) =>
        if c == collector then after == s.collectors[c].(phase := Claiming, token := false)
        else c in s.collectors && after == s.collectors[c]
      case Recheck(collector) =>
        if c == collector then after == s.collectors[c].(phase := Claiming) else c in s.collectors && after == s.collectors[c]
      case Finish(collector) =>
        if c == collector then after == s.collectors[c].(phase := Finished) else c in s.collectors && after == s.collectors[c]
      case Hold(instance, collector) =>
        if c == collector then after == Collector(instance, Claiming, false, {}) else c in s.collectors && after == s.collectors[c]
      case Signal(row) => c in s.collectors && after == s.collectors[c].(token := after.token)
      case Release(_) => c in s.collectors && after == s.collectors[c]
  {
  }

  /** Only collectors that are there were ever closed. */
  lemma {:induction false} ClosedAreThere(limit: nat, s: State)
    requires HubOk(limit, s)
    ensures s.closed <= s.collectors.Keys
  {
  }

  function Empty(): State { State(map[], map[], map[], {}, {}) }

  lemma {:induction false} EmptyIsOk(limit: nat)
    ensures HubOk(limit, Empty())
  {
  }

  // ---- the hub ------------------------------------------------------------

  /** One held request: a one-slot wake token and a channel closed at most once. */
  class Waiter {
    var work: bool
    var superseded: bool

    constructor ()
      ensures !work && !superseded
    {
      work, superseded := false, false;
    }

    /** Closing a closed channel would stop the program. */
    method Close()
      requires !superseded
      modifies this`superseded
      ensures superseded
    {
      superseded := true;
    }
  }

  /** No two collectors share a request. */
  ghost predicate OneEach<T>(made: map<Id, T>) {
    forall a, b | a in made && b in made && made[a] == made[b] :: a == b
  }

  /** The registered requests are those of the collectors registered. */
  ghost predicate Tied<T>(waiting: map<Id, T>, registered: map<Id, Id>, made: map<Id, T>) {
    && waiting.Keys == registered.Keys
    && (forall i | i in registered :: registered[i] in made)
    && (forall i | i in registered :: waiting[i] == made[registered[i]])
  }

  lemma {:induction false} HoldOneEach<T>(made: map<Id, T>, collector: Id, w: T)
    requires OneEach(made) && collector !in made && forall c | c in made :: made[c] != w
    ensures OneEach(made[collector := w])
  {
  }

  lemma {:induction false} HoldTied<T>(
    waiting: map<Id, T>, registered: map<Id, Id>, made: map<Id, T>, instance: Id, collector: Id, w: T
  )
    requires Tied(waiting, registered, made) && collector !in made
    ensures Tied(waiting[instance := w], registered[instance := collector], made[collector := w])
  {
  }

  lemma {:induction false} ReleaseTied<T>(
    waiting: map<Id, T>, registered: map<Id, Id>, made: map<Id, T>, instance: Id, collector: Id
  )
    requires Tied(waiting, registered, made) && OneEach(made) && collector in made
    ensures var gone := instance in waiting && waiting[instance] == made[collector];
      && (gone <==> instance in registered && registered[instance] == collector)
      && Tied(if gone then waiting - {instance} else waiting, if gone then registered - {instance} else registered, made)
  {
  }

  lemma {:induction false} TiedKeys<T>(waiting: map<Id, T>, registered: map<Id, Id>, made: map<Id, T>, instance: Id)
    requires Tied(waiting, registered, made) && OneEach(made)
    ensures |waiting| == |registered| && (instance in waiting <==> instance in registered)
    ensures instance in waiting ==> registered[instance] in made
    ensures instance in waiting ==> forall c | c in made :: made[c] == waiting[instance] <==> c == registered[instance]
  {
    SameKeys(waiting, registered);
  }

  /** A request's channels are what the protocol says of its collector. */
  ghost predicate Matches(model: State, w: Waiter, c: Id)
    reads w
  {
    && c in model.collectors && w.work == model.collectors[c].token
    && (w.superseded <==> c in model.closed)
  }

  /** The same once a request for this instance has closed the last one. */
  ghost predicate Yields(model: State, w: Waiter, c: Id, instance: Id)
    reads w
  {
    && c in model.collectors && w.work == model.collectors[c].token
    && (w.superseded <==> c in model.closed || (instance in model.registered && c == model.registered[instance]))
  }

  lemma {:induction false} HoldMatches(limit: nat, model: State, instance: Id, collector: Id, w: Waiter, c: Id)
    requires HubOk(limit, model) && Allowed(limit, model, Step.Hold(instance, collector))
    requires if c == collector then !w.work && !w.superseded else Yields(model, w, c, instance)
    ensures Matches(Effect(limit, model, Step.Hold(instance, collector)), w, c)
  {
    HoldIs(limit, model, instance, collector);
    ClosedAreThere(limit, model);
    if instance in model.registered { assert Awake(model, instance); }
    hide Effect;
    hide HubOk;
  }

  /** `model` is where the protocol stands, and `made` the request behind each of
      its collectors. */
  class Waiting {
    const limit: nat
    var waiting: map<Id, Waiter>
    ghost var model: State
    ghost var made: map<Id, Waiter>

    ghost predicate Valid()
      reads this, made.Values
    {
      && HubOk(limit, model) && Tied(waiting, model.registered, made) && OneEach(made)
      && made.Keys == model.collectors.Keys && forall c | c in made :: Matches(model, made[c], c)
    }

    constructor (limit: nat)
      ensures Valid() && waiting == map[] && this.limit == limit && model == Empty()
    {
      this.limit := limit;
      waiting := map[];
      model := Empty();
      made := map[];
      EmptyIsOk(limit);
    }

    /** Closes the request registered for an instance, if there is one. */
    method Supersede(instance: Id)
      requires Tied(waiting, model.registered, made) && OneEach(made)
      requires instance in waiting ==> !waiting[instance].superseded
      modifies if instance in waiting then {waiting[instance]} else {}
      ensures forall c | c in made :: made[c].work == old(made[c].work)
      ensures forall c | c in made :: made[c].superseded <==>
        old(made[c].superseded) || (instance in model.registered && c == model.registered[instance])
    {
      TiedKeys(waiting, model.registered, made, instance);
      hide Tied;
      hide OneEach;
      if instance in waiting { waiting[instance].Close(); }
    }

    /** Registers a new request where the last one has been closed. */
    method Enter(instance: Id, held: Waiter, ghost collector: Id)
      requires Allowed(limit, model, Step.Hold(instance, collector)) && HubOk(limit, model)
      requires Tied(waiting, model.registered, made) && OneEach(made) && made.Keys == model.collectors.Keys
      requires forall c | c in made :: Yields(model, made[c], c, instance) && made[c] != held
      requires !held.work && !held.superseded
      modifies this`waiting, this`model, this`made
      ensures Valid() && model == Effect(limit, old(model), Step.Hold(instance, collector))
      ensures waiting == old(waiting)[instance := held] && made == old(made)[collector := held]
    {
      hide HubOk;
      hide Effect;
      hide Allowed;
      hide Tied;
      hide OneEach;
      hide Matches;
      hide Yields;
      ghost var next := Effect(limit, model, Step.Hold(instance, collector));
      StepKeepsHub(limit, model, Step.Hold(instance, collector));
      HoldIs(limit, model, instance, collector);
      forall c | c in made ensures Matches(next, made[c], c) {
        HoldMatches(limit, model, instance, collector, made[c], c);
      }
      HoldMatches(limit, model, instance, collector, held, collector);
      HoldTied(waiting, model.registered, made, instance, collector, held);
      HoldOneEach(made, collector, held);
      waiting := waiting[instance := held];
      model := next;
      made := made[collector := held];
    }

    /** Registers one request, superseding the instance's last. */
    method Hold(instance: Id, ghost collector: Id) returns (current: Waiter?)
      requires Valid() && collector !in model.collectors
      modifies this, if instance in waiting then {waiting[instance]} else {}
      ensures Valid() && model == Apply(limit, old(model), Step.Hold(instance, collector))
      ensures current == null <==> instance !in old(waiting) && |old(waiting)| >= limit
      ensures current == null ==> waiting == old(waiting) && made == old(made)
      ensures current != null ==> fresh(current) && waiting == old(waiting)[instance := current] && made == old(made)[collector := current]
    {
      hide HubOk;
      hide Effect;
      hide Tied;
      hide OneEach;
      TiedKeys(waiting, model.registered, made, instance);
      if instance !in waiting && |waiting| >= limit { return null; }
      if instance in waiting {
        ClosedOnce(limit, model, instance, collector);
        assert Matches(model, waiting[instance], model.registered[instance]);
      }
      Supersede(instance);
      current := new Waiter();
      Enter(instance, current, collector);
    }

    /** Drops a held request, leaving one that superseded it registered. */
    method Release(instance: Id, held: Waiter, ghost collector: Id)
      requires Valid() && collector in made && made[collector] == held
      requires model.collectors[collector].phase == Finished && model.collectors[collector].instance == instance
      modifies this`waiting, this`model
      ensures Valid() && model == Effect(limit, old(model), Step.Release(collector))
      ensures waiting == if instance in old(waiting) && old(waiting)[instance] == held then old(waiting) - {instance}
                         else old(waiting)
    {
      hide HubOk;
      hide Effect;
      hide Tied;
      hide OneEach;
      StepKeepsHub(limit, model, Step.Release(collector));
      ReleaseIs(limit, model, collector, instance);
      ReleaseTied(waiting, model.registered, made, instance, collector);
      if instance in waiting && waiting[instance] == held {
        waiting := waiting - {instance};
      }
      model := Effect(limit, model, Step.Release(collector));
    }

    /** Wakes the request waiting for one instance; a token already there stays one. */
    method Signal(instance: Id, ghost row: Id)
      requires Valid() && row in model.unsignalled && row in model.rows && model.rows[row] == instance
      modifies this`model, if instance in waiting then {waiting[instance]} else {}
      ensures Valid() && model == Effect(limit, old(model), Step.Signal(row))
      ensures instance in waiting ==> waiting[instance].work
    {
      hide HubOk;
      hide Effect;
      hide Tied;
      hide OneEach;
      TiedKeys(waiting, model.registered, made, instance);
      StepKeepsHub(limit, model, Step.Signal(row));
      SignalIs(limit, model, row, instance);
      assert instance in waiting ==> Matches(model, waiting[instance], model.registered[instance]);
      model := Effect(limit, model, Step.Signal(row));
      if instance !in waiting { return; }
      if !waiting[instance].work { waiting[instance].work := true; }
    }

    /** A resting collector takes the token it was woken with. */
    method TakeWork(held: Waiter, ghost collector: Id)
      requires Valid() && collector in made && made[collector] == held
      requires model.collectors[collector].phase == Idle && held.work
      modifies this`model, held
      ensures Valid() && model == Effect(limit, old(model), Step.Wake(collector))
    {
      StepKeepsHub(limit, model, Step.Wake(collector));
      hide HubOk;
      held.work := false;
      model := Effect(limit, model, Step.Wake(collector));
    }

    /** What happens around the hub: a row inserted, a claim made, a ticker or a
        deadline reached. */
    ghost method Observe(e: Step)
      requires Valid() && (e.Insert? || e.Claim? || e.Recheck? || e.Finish?)
      modifies this`model
      ensures Valid() && model == Apply(limit, old(model), e)
    {
      if Allowed(limit, model, e) {
        StepKeepsHub(limit, model, e);
        AroundTheHub(limit, model, e);
        hide HubOk;
        hide Effect;
        model := Effect(limit, model, e);
      }
    }
  }

  lemma {:induction false} SameKeys<S, T>(a: map<Id, S>, b: map<Id, T>)
    requires a.Keys == b.Keys
    ensures |a| == |b|
  {
  }
}
