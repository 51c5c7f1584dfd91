/** What every run of the delivery queue keeps. */
module DeliveryLaws {
  import opened Sequences
  import opened Sorting
  import opened DeliveryState

  /** How often a delivery has been handed out. */
  function Times(log: seq<HandOut>, id: Id): nat {
    if log == [] then 0
    else Times(log[..|log| - 1], id) + (if log[|log| - 1].delivery == id then 1 else 0)
  }

  ghost predicate RowOk(c: Config, s: State, r: Id)
    requires r in s.rows
  {
    var row := s.rows[r];
    && r in s.used && row.instance in s.instances && row.attempts <= c.maxAttempts
    && (row.standing == Released <==> row.lease.Some?)
    && (row.standing == Released ==> row.target.Some? && 1 <= row.attempts)
    && (row.standing == Released ==> exists i :: LastHandOut(s, r, i))
    && Times(s.log, r) <= row.attempts
    && (row.standing == Queued ==> row.attempts == 0)
  }

  /** The hand-out a released row is out on: the last there was of it, of its asset
      and in its format. */
  ghost predicate LastHandOut(s: State, r: Id, i: int) {
    && 0 <= i < |s.log| && r in s.rows
    && s.log[i].delivery == r && s.log[i].instance == s.rows[r].instance
    && s.log[i].asset == s.rows[r].asset && s.rows[r].target == Some(s.log[i].target)
    && s.rows[r].lease == Some(s.log[i].lease) && s.log[i].at <= s.now
    && forall j | i < j < |s.log| :: s.log[j].delivery != r
  }

  ghost predicate OneLive(s: State) {
    forall r, q | r in s.rows && q in s.rows && Live(s.rows[r]) && Live(s.rows[q])
                  && s.rows[r].instance == s.rows[q].instance && s.rows[r].asset == s.rows[q].asset :: r == q
  }

  /** No hand-out of a delivery begins before the last one's lease is over. */
  ghost predicate Apart(log: seq<HandOut>) {
    forall i, j | 0 <= i < j < |log| && log[i].delivery == log[j].delivery :: log[i].lease <= log[j].at
  }

  /** Past leases of a row end no later than its present one. */
  ghost predicate Before(s: State, r: Id)
    requires r in s.rows
  {
    && (s.rows[r].standing == Released && s.rows[r].lease.Some? ==>
          forall i | 0 <= i < |s.log| && s.log[i].delivery == r :: s.log[i].lease <= s.rows[r].lease.value)
    && (s.rows[r].standing == Queued ==> forall i | 0 <= i < |s.log| :: s.log[i].delivery != r)
  }

  ghost predicate LogOk(c: Config, s: State) {
    && Apart(s.log)
    && (forall id :: Times(s.log, id) <= c.maxAttempts)
    && (forall i | 0 <= i < |s.log| :: s.log[i].delivery in s.used && s.log[i].at <= s.now)
  }

  ghost predicate QueueOk(c: Config, s: State) {
    && OneLive(s) && LogOk(c, s)
    && (forall r | r in s.rows :: RowOk(c, s, r) && Before(s, r))
  }

  // ---- the log ------------------------------------------------------------

  lemma {:induction false} TimesJoin(a: seq<HandOut>, b: seq<HandOut>, id: Id)
    ensures Times(a + b, id) == Times(a, id) + Times(b, id)
    decreases |b|
  {
    if b == [] {
      assert a + b == a;
    } else {
      var n := |b| - 1;
      assert (a + b)[..|a| + n] == a + b[..n] && (a + b)[|a| + n] == b[n];
      TimesJoin(a, b[..n], id);
    }
  }

  lemma {:induction false} TimesNone(log: seq<HandOut>, id: Id)
    requires forall i | 0 <= i < |log| :: log[i].delivery != id
    ensures Times(log, id) == 0
  {
    if log != [] { TimesNone(log[..|log| - 1], id); }
  }

  lemma {:induction false} TimesOfEach(log: seq<HandOut>, ids: seq<Id>, id: Id)
    requires Distinct(ids) && |log| == |ids| && forall i | 0 <= i < |ids| :: log[i].delivery == ids[i]
    ensures Times(log, id) == if id in ids then 1 else 0
  {
    if ids != [] {
      var n := |ids| - 1;
      assert Distinct(ids[..n]) && ids[n] !in ids[..n];
      assert ids == ids[..n] + [ids[n]];
      TimesOfEach(log[..n], ids[..n], id);
    }
  }

  /** What one claim appends: each row it sends, once, from now until its lease. */
  lemma {:induction false} HandOutsAre(c: Config, s: State, instance: Id, order: seq<Id>, choices: Id -> Choice)
    requires Distinct(order) && forall r | r in order :: r in s.rows
    ensures var out := HandedOut(c, s, instance, order, choices);
      && (forall i | 0 <= i < |out| ::
            && out[i].delivery in order && choices(s.rows[out[i].delivery].asset).Send?
            && out[i].instance == instance && out[i].at == s.now && out[i].lease == s.now + c.lease
            && out[i].asset == s.rows[out[i].delivery].asset && Choice.Send(out[i].target) == choices(out[i].asset))
      && (forall r | r in order && choices(s.rows[r].asset).Send? :: exists i :: 0 <= i < |out| && out[i].delivery == r)
      && (forall id :: Times(out, id) == if id in order && choices(s.rows[id].asset).Send? then 1 else 0)
      && (forall i, j | 0 <= i < j < |out| :: out[i].delivery != out[j].delivery)
  {
    var out := HandedOut(c, s, instance, order, choices);
    var sent := Filter(Sends(s, choices), order);
    FilterHas(Sends(s, choices), order);
    FilterDistinct(Sends(s, choices), order);
    assert |out| == |sent| && forall i | 0 <= i < |sent| :: out[i] == HandTo(c, s, instance, choices)(sent[i]);
    assert forall i | 0 <= i < |sent| :: sent[i] in sent && Sends(s, choices)(sent[i]);
    hide Filter;
    hide Map;
    forall i | 0 <= i < |out| ensures sent[i] in sent {}
    forall r | r in order && choices(s.rows[r].asset).Send? ensures exists i :: 0 <= i < |out| && out[i].delivery == r {
      assert Sends(s, choices)(r);
      var i :| 0 <= i < |sent| && sent[i] == r;
      assert out[i].delivery == r;
    }
    forall id ensures Times(out, id) == if id in order && choices(s.rows[id].asset).Send? then 1 else 0 {
      TimesOfEach(out, sent, id);
    }
  }

  /** What a claim sends of one row: nothing, or one hand-out in the chosen format. */
  ghost predicate SentOf(c: Config, s: State, instance: Id, out: seq<HandOut>, r: Id, picked: bool, choice: Choice)
    requires r in s.rows
  {
    && (forall i | 0 <= i < |out| && out[i].delivery == r ::
          && picked && out[i].instance == instance && out[i].at == s.now && out[i].lease == s.now + c.lease
          && out[i].asset == s.rows[r].asset && Choice.Send(out[i].target) == choice)
    && (picked && choice.Send? ==> exists i :: 0 <= i < |out| && out[i].delivery == r)
    && Times(out, r) <= (if picked then 1 else 0)
    && (forall i, j | 0 <= i < j < |out| :: out[i].delivery != out[j].delivery)
  }

  lemma {:induction false} HandOutsOf(c: Config, s: State, instance: Id, order: seq<Id>, choices: Id -> Choice, r: Id)
    requires Distinct(order) && (forall q | q in order :: q in s.rows) && r in s.rows
    ensures SentOf(c, s, instance, HandedOut(c, s, instance, order, choices), r, r in order, choices(s.rows[r].asset))
  {
    hide HandedOut;
    hide Times;
    HandOutsAre(c, s, instance, order, choices);
  }

  // ---- a claim ------------------------------------------------------------

  /** What is known of a row a claim may take. */
  lemma {:induction false} ClaimableRow(c: Config, s: State, r: Id, instance: Id)
    requires QueueOk(c, s) && Claimable(c, s, r, instance)
    ensures Times(s.log, r) < c.maxAttempts && Times(s.log, r) <= s.rows[r].attempts
    ensures forall i | 0 <= i < |s.log| && s.log[i].delivery == r :: s.log[i].lease <= s.now
    ensures r in s.used && s.rows[r].instance in s.instances
  {
    assert RowOk(c, s, r) && Before(s, r);
    hide Times;
    hide LogOk;
    hide OneLive;
  }

  /** A log grown by one claim's hand-outs is in order where each row was free. */
  lemma {:induction false} GrownLog(c: Config, s: State, t: State, out: seq<HandOut>)
    requires LogOk(c, s) && t.log == s.log + out && t.now == s.now && t.used == s.used
    requires forall i | 0 <= i < |out| :: out[i].at == s.now && out[i].delivery in s.used
    requires forall i, j | 0 <= i < |s.log| && 0 <= j < |out| && s.log[i].delivery == out[j].delivery :: s.log[i].lease <= s.now
    requires forall i, j | 0 <= i < j < |out| :: out[i].delivery != out[j].delivery
    requires forall id :: Times(t.log, id) <= c.maxAttempts
    ensures LogOk(c, t)
  {
    hide Times;
    assert Apart(s.log);
  }

  lemma {:induction false} ClaimKeepsLog(c: Config, s: State, e: Event)
    requires QueueOk(c, s) && e.Claim? && Allowed(c, s, e)
    ensures LogOk(c, Effect(c, s, e))
  {
    hide Times;
    hide HandedOut;
    hide AfterClaim;
    hide RowOk;
    hide Before;
    hide OneLive;
    ClaimIs(c, s, e);
    hide Effect;
    hide Allowed;
    var out := HandedOut(c, s, e.instance, e.order, e.choices);
    forall r | r in e.order
      ensures r in s.rows && Times(s.log, r) < c.maxAttempts && r in s.used
      ensures forall i | 0 <= i < |s.log| && s.log[i].delivery == r :: s.log[i].lease <= s.now
    {
      ClaimableRow(c, s, r, e.instance);
    }
    hide Claimable;
    HandOutsAre(c, s, e.instance, e.order, e.choices);
    forall id ensures Times(s.log + out, id) <= c.maxAttempts {
      TimesJoin(s.log, out, id);
      assert LogOk(c, s);
      assert Times(out, id) <= 1 && (Times(out, id) == 1 ==> id in e.order);
    }
    hide LogOk;
    GrownLog(c, s, Effect(c, s, e), out);
  }

  /** A claim, written out. */
  lemma {:induction false} ClaimIs(c: Config, s: State, e: Event)
    requires e.Claim?
    ensures Allowed(c, s, e) <==>
      Distinct(e.order) && |e.order| <= c.batch && forall r | r in e.order :: Claimable(c, s, r, e.instance)
    ensures Allowed(c, s, e) ==>
      Effect(c, s, e) == s.(rows := AfterClaim(c, s, e.instance, (set r | r in e.order), e.choices),
                            log := s.log + HandedOut(c, s, e.instance, e.order, e.choices))
  {
    hide AfterClaim;
    hide HandedOut;
    hide Claimable;
  }

  lemma {:induction false} ClaimedIs(c: Config, s: State, e: Event, r: Id)
    requires e.Claim? && Allowed(c, s, e) && r in s.rows && r in e.order
    ensures var t := Effect(c, s, e);
      && r in t.rows && t.rows[r] == Decided(Claimed(c, s.rows[r], s.now), e.choices(s.rows[r].asset))
      && t.log == s.log + HandedOut(c, s, e.instance, e.order, e.choices)
      && t.now == s.now && t.used == s.used && t.instances == s.instances
      && Claimable(c, s, r, e.instance)
  {
    ClaimIs(c, s, e);
    hide Effect;
    hide HandedOut;
    hide Claimable;
  }

  /** A row a claim took, in a state whose log grew by what the claim sent. */
  ghost predicate Taken(c: Config, s: State, t: State, r: Id, out: seq<HandOut>, choice: Choice) {
    && t.log == s.log + out && t.now == s.now && t.used == s.used && t.instances == s.instances
    && r in s.rows && r in t.rows && t.rows[r] == Decided(Claimed(c, s.rows[r], s.now), choice)
    && r in s.used && s.rows[r].instance in s.instances
    && s.rows[r].attempts < c.maxAttempts && Times(t.log, r) <= s.rows[r].attempts + 1
    && (forall i | 0 <= i < |s.log| && s.log[i].delivery == r :: s.log[i].lease <= s.now)
    && (forall i | 0 <= i < |out| && out[i].delivery == r ::
          out[i].instance == s.rows[r].instance && out[i].at == s.now && out[i].lease == s.now + c.lease
          && out[i].asset == s.rows[r].asset && Choice.Send(out[i].target) == choice)
    && (choice.Send? ==> exists i :: 0 <= i < |out| && out[i].delivery == r)
    && (forall i, j | 0 <= i < j < |out| :: out[i].delivery != out[j].delivery)
  }

  lemma {:induction false} TakenRow(c: Config, s: State, t: State, r: Id, out: seq<HandOut>, choice: Choice)
    requires Taken(c, s, t, r, out, choice)
    ensures RowOk(c, t, r) && Before(t, r)
  {
    hide Times;
    if choice.Send? {
      var i :| 0 <= i < |out| && out[i].delivery == r;
      assert t.log[|s.log| + i] == out[i];
      assert LastHandOut(t, r, |s.log| + i);
    }
  }

  /** What one claim does to the log, as one of its rows sees it. */
  lemma {:induction false} ClaimSends(c: Config, s: State, e: Event, r: Id)
    requires e.Claim? && Allowed(c, s, e) && r in s.rows
    ensures var t := Effect(c, s, e);
      var out := HandedOut(c, s, e.instance, e.order, e.choices);
      && r in t.rows && t.log == s.log + out && t.now == s.now && t.used == s.used && t.instances == s.instances
      && SentOf(c, s, e.instance, out, r, r in e.order, e.choices(s.rows[r].asset))
      && Times(t.log, r) == Times(s.log, r) + Times(out, r)
  {
    hide HandedOut;
    hide Times;
    hide SentOf;
    ClaimIs(c, s, e);
    hide Effect;
    forall q | q in e.order ensures q in s.rows { assert Claimable(c, s, q, e.instance); }
    HandOutsOf(c, s, e.instance, e.order, e.choices, r);
    TimesJoin(s.log, HandedOut(c, s, e.instance, e.order, e.choices), r);
  }

  lemma {:induction false} ClaimedRow(c: Config, s: State, e: Event, r: Id)
    requires QueueOk(c, s) && e.Claim? && Allowed(c, s, e) && r in s.rows && r in e.order
    ensures r in Effect(c, s, e).rows
    ensures RowOk(c, Effect(c, s, e), r) && Before(Effect(c, s, e), r)
  {
    hide Times;
    hide HandedOut;
    hide Effect;
    hide Allowed;
    hide RowOk;
    hide Before;
    hide Decided;
    hide Claimed;
    ClaimedIs(c, s, e, r);
    ClaimSends(c, s, e, r);
    ClaimableRow(c, s, r, e.instance);
    hide QueueOk;
    assert s.rows[r].attempts < c.maxAttempts && s.rows[r].instance == e.instance;
    hide Claimable;
    TakenRow(c, s, Effect(c, s, e), r, HandedOut(c, s, e.instance, e.order, e.choices), e.choices(s.rows[r].asset));
  }

  lemma {:induction false} SpentRow(c: Config, s: State, e: Event, r: Id)
    requires e.Claim? && Allowed(c, s, e) && r in s.rows && r !in e.order
    ensures var t := Effect(c, s, e);
      r in t.rows && t.rows[r] == Spent(c, s.rows[r], e.instance, s.now)
  {
    hide Spent;
    hide Decided;
    hide HandedOut;
    hide Claimable;
  }

  lemma {:induction false} UnclaimedRow(c: Config, s: State, e: Event, r: Id)
    requires QueueOk(c, s) && e.Claim? && Allowed(c, s, e) && r in s.rows && r !in e.order
    ensures r in Effect(c, s, e).rows
    ensures RowOk(c, Effect(c, s, e), r) && Before(Effect(c, s, e), r)
  {
    hide Times;
    hide HandedOut;
    hide Effect;
    hide Allowed;
    hide OneLive;
    hide LogOk;
    SpentRow(c, s, e, r);
    ClaimSends(c, s, e, r);
    assert RowOk(c, s, r) && Before(s, r);
    hide QueueOk;
    LeftRow(c, s, Effect(c, s, e), r, HandedOut(c, s, e.instance, e.order, e.choices), e.instance);
  }

  /** A row that a claim left, or abandoned. */
  lemma {:induction false} LeftRow(c: Config, s: State, t: State, r: Id, out: seq<HandOut>, instance: Id)
    requires r in s.rows && r in t.rows && RowOk(c, s, r) && Before(s, r)
    requires t.rows[r] == Spent(c, s.rows[r], instance, s.now)
    requires t.log == s.log + out && t.now == s.now && t.used == s.used && t.instances == s.instances
    requires Times(t.log, r) <= Times(s.log, r) && forall i | 0 <= i < |out| :: out[i].delivery != r
    ensures RowOk(c, t, r) && Before(t, r)
  {
    hide Times;
    assert forall i | 0 <= i < |t.log| && t.log[i].delivery == r :: i < |s.log| && t.log[i] == s.log[i];
    if t.rows[r].standing == Released {
      var i :| LastHandOut(s, r, i);
      assert t.log[i] == s.log[i];
      assert LastHandOut(t, r, i);
    }
  }

  lemma {:induction false} KeepsOneLive(c: Config, s: State, e: Event)
    requires OneLive(s) && Allowed(c, s, e)
    ensures OneLive(Effect(c, s, e))
  {
    hide Receives;
    hide HandedOut;
  }

  // ---- the other steps ----------------------------------------------------

  /** Rows that stay are as they were, and the log does not move. */
  ghost predicate Untouched(s: State, t: State) {
    && t.log == s.log && s.now <= t.now && s.used <= t.used && s.instances.Keys <= t.instances.Keys
    && (forall r | r in t.rows && r in s.rows :: t.rows[r] == s.rows[r])
    && (forall r | r in t.rows && r !in s.rows ::
          r !in s.used && r in t.used && t.rows[r].instance in t.instances
          && t.rows[r].standing == Queued && t.rows[r].attempts == 0 && t.rows[r].lease.None?)
  }

  lemma {:induction false} OthersUntouched(c: Config, s: State, e: Event)
    requires Allowed(c, s, e) && !e.Claim?
    requires forall r | r in s.rows :: r in s.used
    ensures Untouched(s, Effect(c, s, e))
  {
    hide HasLive;
    hide Acknowledged;
    hide Owns;
  }

  lemma {:induction false} UntouchedRow(c: Config, s: State, t: State, r: Id)
    requires QueueOk(c, s) && Untouched(s, t) && r in t.rows
    ensures RowOk(c, t, r) && Before(t, r)
  {
    if r in s.rows {
      assert RowOk(c, s, r) && Before(s, r);
      if t.rows[r].standing == Released {
        var i :| LastHandOut(s, r, i);
        assert LastHandOut(t, r, i);
      }
    } else {
      TimesNone(s.log, r);
    }
    hide Times;
    hide OneLive;
  }

  lemma {:induction false} KeepsQueue(c: Config, s: State, e: Event)
    requires QueueOk(c, s) && Allowed(c, s, e)
    ensures QueueOk(c, Effect(c, s, e))
  {
    var t := Effect(c, s, e);
    KeepsOneLive(c, s, e);
    forall r | r in s.rows ensures r in s.used { assert RowOk(c, s, r); }
    if e.Claim? {
      ClaimKeepsLog(c, s, e);
      forall r | r in t.rows ensures RowOk(c, t, r) && Before(t, r) {
        if r in e.order { ClaimedRow(c, s, e, r); } else { UnclaimedRow(c, s, e, r); }
      }
    } else {
      OthersUntouched(c, s, e);
      forall r | r in t.rows ensures RowOk(c, t, r) && Before(t, r) { UntouchedRow(c, s, t, r); }
      assert LogOk(c, t) by { hide RowOk; hide Before; hide Times; hide Effect; hide Allowed; hide OneLive; }
    }
    hide *;
    QueueParts(c, t);
  }

  lemma {:induction false} QueueParts(c: Config, s: State)
    requires OneLive(s) && LogOk(c, s) && forall r | r in s.rows :: RowOk(c, s, r) && Before(s, r)
    ensures QueueOk(c, s)
  {
  }

  /** Every run keeps the queue in order. */
  lemma {:induction false} RunKeepsQueue(c: Config, s: State, events: seq<Event>)
    requires QueueOk(c, s)
    ensures QueueOk(c, Run(c, s, events))
    decreases |events|
  {
    if events != [] {
      hide QueueOk;
      hide Effect;
      hide Allowed;
      if Allowed(c, s, events[0]) { KeepsQueue(c, s, events[0]); }
      RunKeepsQueue(c, Apply(c, s, events[0]), events[1..]);
    }
  }

  // ---- what it means ------------------------------------------------------

  /** A delivery is handed out at most so often over its whole life, and never
      again while its lease runs. */
  lemma {:induction false} HandOutsAreBounded(c: Config, s: State, events: seq<Event>, id: Id, i: int, j: int)
    requires QueueOk(c, s)
    ensures var log := Run(c, s, events).log;
      && Times(log, id) <= c.maxAttempts
      && (0 <= i < j < |log| && log[i].delivery == log[j].delivery ==> log[i].lease <= log[j].at)
  {
    RunKeepsQueue(c, s, events);
    hide Run;
    hide RowOk;
    hide Before;
    hide OneLive;
  }

  lemma {:induction false} LeasedHere(c: Config, s: State, id: Id)
    requires QueueOk(c, s) && Artifact(s, id).Some?
    ensures exists i :: LastHandOut(s, id, i) && s.log[i].at <= s.now < s.log[i].lease
                        && Artifact(s, id) == Some((s.log[i].asset, s.log[i].target))
    ensures Receives(s, s.rows[id].instance) && s.rows[id].expires > s.now
  {
    assert RowOk(c, s, id);
    hide QueueOk;
    hide Times;
    var i :| LastHandOut(s, id, i);
  }

  /** After any run an artifact resolves only to somebody holding the delivery's
      present lease, and then to the asset and the format it was last handed out in. */
  lemma {:induction false} ArtifactsAreLeased(c: Config, s: State, events: seq<Event>, id: Id)
    requires QueueOk(c, s)
    ensures var t := Run(c, s, events);
      Artifact(t, id).Some? ==>
        && (exists i :: 0 <= i < |t.log| && t.log[i].delivery == id && (forall j | i < j < |t.log| :: t.log[j].delivery != id)
                        && t.log[i].at <= t.now < t.log[i].lease
                        && Artifact(t, id) == Some((t.log[i].asset, t.log[i].target)))
        && id in t.rows && Receives(t, t.rows[id].instance) && t.rows[id].expires > t.now
  {
    RunKeepsQueue(c, s, events);
    hide QueueOk;
    hide Run;
    var t := Run(c, s, events);
    if Artifact(t, id).Some? { LeasedHere(c, t, id); }
    hide Artifact;
  }

  ghost predicate Gone(s: State, instance: Id) {
    instance in s.instances && s.instances[instance].revoked
  }

  /** A revocation takes away what waits for its instance, and nothing else. */
  lemma {:induction false} RevocationClears(c: Config, s: State, instance: Id)
    requires instance in s.instances
    ensures var t := Effect(c, s, Revoke(instance));
      && Gone(t, instance)
      && (forall r :: r in t.rows <==> r in s.rows && s.rows[r].instance != instance)
      && (forall r | r in t.rows :: t.rows[r] == s.rows[r])
      && t == s.(rows := t.rows, instances := t.instances) && t.instances.Keys == s.instances.Keys
      && (forall i | i in s.instances && i != instance :: t.instances[i] == s.instances[i])
  {
  }

  lemma {:induction false} GoneStays(c: Config, s: State, e: Event, instance: Id)
    requires Gone(s, instance)
    ensures Gone(Apply(c, s, e), instance)
  {
    hide HasLive;
    hide Claimable;
    hide HandedOut;
    hide AfterClaim;
    hide Acknowledged;
    hide Owns;
  }

  /** What the log holds of one instance. */
  function Sent(log: seq<HandOut>, instance: Id): seq<HandOut> {
    if log == [] then []
    else Sent(log[..|log| - 1], instance) + (if log[|log| - 1].instance == instance then [log[|log| - 1]] else [])
  }

  lemma {:induction false} NothingSent(a: seq<HandOut>, b: seq<HandOut>, instance: Id)
    requires forall i | 0 <= i < |b| :: b[i].instance != instance
    ensures Sent(a + b, instance) == Sent(a, instance)
    decreases |b|
  {
    if b == [] {
      assert a + b == a;
    } else {
      var n := |b| - 1;
      assert (a + b)[..|a| + n] == a + b[..n] && (a + b)[|a| + n] == b[n];
      NothingSent(a, b[..n], instance);
    }
  }

  lemma {:induction false} NoneToGone(c: Config, s: State, e: Event, instance: Id)
    requires Gone(s, instance)
    ensures Sent(Apply(c, s, e).log, instance) == Sent(s.log, instance)
  {
    if e.Claim? && Allowed(c, s, e) {
      HandOutsAre(c, s, e.instance, e.order, e.choices);
      var out := HandedOut(c, s, e.instance, e.order, e.choices);
      if e.order == [] {
        NothingSent(s.log, out, instance);
      } else {
        assert Claimable(c, s, e.order[0], e.instance);
        NothingSent(s.log, out, instance);
      }
    }
    hide Sent;
    hide HandedOut;
    hide AfterClaim;
    hide HasLive;
  }

  /** A revoked instance is never sent anything again, even where a delivery was
      queued to it while it was being revoked. */
  lemma {:induction false} RevokedReceiveNothing(c: Config, s: State, events: seq<Event>, instance: Id)
    requires Gone(s, instance)
    ensures var t := Run(c, s, events);
      && Sent(t.log, instance) == Sent(s.log, instance)
      && forall id | id in t.rows && t.rows[id].instance == instance :: Artifact(t, id).None?
    decreases |events|
  {
    if events != [] {
      GoneStays(c, s, events[0], instance);
      NoneToGone(c, s, events[0], instance);
      hide Gone;
      hide Apply;
      hide Sent;
      RevokedReceiveNothing(c, Apply(c, s, events[0]), events[1..], instance);
    }
  }

  function Empty(now: Time): State { State(now, map[], map[], {}, []) }

  lemma {:induction false} EmptyIsOk(c: Config, now: Time)
    ensures QueueOk(c, Empty(now))
  {
  }

  // ---- choosing a format --------------------------------------------------

  const RAW := "raw"

  /** The first accepted format that is offered, or the creator's own file. */
  function ChosenFrom(accepted: seq<string>, offered: set<string>, hasOriginal: bool): Option<string> {
    if accepted == [] then (if hasOriginal then Some(RAW) else None)
    else if accepted[0] in offered then Some(accepted[0])
    else if accepted[0] == RAW && hasOriginal then Some(RAW)
    else ChosenFrom(accepted[1..], offered, hasOriginal)
  }

  /** Whether an accepted format can be sent. */
  predicate Usable(format: string, offered: set<string>, hasOriginal: bool) {
    format in offered || (format == RAW && hasOriginal)
  }

  lemma {:induction false} ChoiceAt(accepted: seq<string>, offered: set<string>, hasOriginal: bool, k: nat)
    requires k < |accepted| && Usable(accepted[k], offered, hasOriginal)
    requires forall j | 0 <= j < k :: !Usable(accepted[j], offered, hasOriginal)
    ensures ChosenFrom(accepted, offered, hasOriginal) == Some(accepted[k])
    decreases k
  {
    if k > 0 {
      assert !Usable(accepted[0], offered, hasOriginal);
      ChoiceAt(accepted[1..], offered, hasOriginal, k - 1);
    }
  }

  lemma {:induction false} ChoiceOfNone(accepted: seq<string>, offered: set<string>, hasOriginal: bool)
    requires forall a | a in accepted :: !Usable(a, offered, hasOriginal)
    ensures ChosenFrom(accepted, offered, hasOriginal) == if hasOriginal then Some(RAW) else None
  {
    if accepted != [] {
      assert !Usable(accepted[0], offered, hasOriginal);
      ChoiceOfNone(accepted[1..], offered, hasOriginal);
    }
  }

  /** A choice is the first accepted format that can be sent; where there is none it is
      the original, and it fails only when there is no original either. */
  lemma {:induction false} ChoiceIsFirst(accepted: seq<string>, offered: set<string>, hasOriginal: bool)
    ensures var chosen := ChosenFrom(accepted, offered, hasOriginal);
      && (forall k | 0 <= k < |accepted| && Usable(accepted[k], offered, hasOriginal)
                     && forall j | 0 <= j < k :: !Usable(accepted[j], offered, hasOriginal) ::
            chosen == Some(accepted[k]))
      && ((forall a | a in accepted :: !Usable(a, offered, hasOriginal)) ==> chosen == if hasOriginal then Some(RAW) else None)
  {
    hide ChosenFrom;
    hide Usable;
    forall k | 0 <= k < |accepted| && Usable(accepted[k], offered, hasOriginal)
               && forall j | 0 <= j < k :: !Usable(accepted[j], offered, hasOriginal)
      ensures ChosenFrom(accepted, offered, hasOriginal) == Some(accepted[k])
    {
      ChoiceAt(accepted, offered, hasOriginal, k);
    }
    if forall a | a in accepted :: !Usable(a, offered, hasOriginal) { ChoiceOfNone(accepted, offered, hasOriginal); }
  }
}
