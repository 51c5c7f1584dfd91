/** The store over whole runs: what survives, what ends once, and who may still
    act. */
module StoreRuns {
  import opened Sequences
  import opened StoreState
  import opened StoreInvariant
  import opened StoreCap

  // ---- results ------------------------------------------------------------

  /** The tables two states share, as far as results are concerned. */
  ghost predicate SameMakers(s: State, t: State) {
    && (forall r | r in t.rows && t.rows[r].maker.Some? :: r in s.rows)
    && (forall r | r in s.rows :: r in t.rows && t.rows[r].maker == s.rows[r].maker
                                  && t.rows[r].asset == s.rows[r].asset && t.rows[r].number == s.rows[r].number)
    && (forall o | o in t.ops && t.ops[o].result.Some? :: o in s.ops)
    && (forall o | o in s.ops :: o in t.ops && t.ops[o].result == s.ops[o].result && t.ops[o].target == s.ops[o].target)
    && (forall a | a in t.assets && t.assets[a].maker.Some? :: a in s.assets)
    && (forall a | a in s.assets :: a in t.assets && t.assets[a].maker == s.assets[a].maker)
  }

  lemma {:induction false} RowMakersStay(c: Config, s: State, e: Event)
    requires Allowed(c, s, e) && !e.Finalize?
    ensures var t := Effect(c, s, e);
      && (forall r | r in t.rows && t.rows[r].maker.Some? :: r in s.rows)
      && (forall r | r in s.rows :: r in t.rows && t.rows[r].maker == s.rows[r].maker
                                    && t.rows[r].asset == s.rows[r].asset && t.rows[r].number == s.rows[r].number)
  {
    hide HasRoom;
    hide Swept;
    hide Unmarked;
    hide LiveReference;
    hide Named;
    hide Editable;
    hide Due;
    hide Holds;
  }

  lemma {:induction false} ResultsStay(c: Config, s: State, e: Event)
    requires Allowed(c, s, e) && !e.Finalize?
    ensures var t := Effect(c, s, e);
      && (forall o | o in t.ops && t.ops[o].result.Some? :: o in s.ops)
      && (forall o | o in s.ops :: o in t.ops && t.ops[o].result == s.ops[o].result && t.ops[o].target == s.ops[o].target)
  {
    hide HasRoom;
    hide Swept;
    hide Unmarked;
    hide LiveReference;
    hide Named;
    hide Editable;
    hide Due;
    hide ReleaseAll;
  }

  lemma {:induction false} AssetMakersStay(c: Config, s: State, e: Event)
    requires Allowed(c, s, e) && !e.Finalize?
    ensures var t := Effect(c, s, e);
      && (forall a | a in t.assets && t.assets[a].maker.Some? :: a in s.assets)
      && (forall a | a in s.assets :: a in t.assets && t.assets[a].maker == s.assets[a].maker)
  {
    hide HasRoom;
    hide Swept;
    hide Unmarked;
    hide LiveReference;
    hide Named;
    hide Editable;
    hide Due;
    hide ReleaseAll;
  }

  lemma {:induction false} MakersStay(c: Config, s: State, e: Event)
    requires Allowed(c, s, e) && !e.Finalize?
    ensures SameMakers(s, Effect(c, s, e))
  {
    RowMakersStay(c, s, e);
    ResultsStay(c, s, e);
    AssetMakersStay(c, s, e);
    hide Effect;
    hide Allowed;
  }

  lemma {:induction false} SameMakersMade(s: State, t: State)
    requires MadeOk(s) && SameMakers(s, t)
    ensures MadeOk(t)
  {
    forall r, o ensures MadeRow(t, r, o) <==> MadeRow(s, r, o) {}
    forall o | o in t.ops && t.ops[o].result.Some? ensures exists r :: MadeRow(t, r, o) {
      var r :| MadeRow(s, r, o);
      assert MadeRow(t, r, o);
    }
  }

  /** One operation finishing with one new row and, unless it revised an asset,
      one new asset. */
  ghost predicate Finishes(s: State, t: State, o: Id, row: Id, asset: Id) {
    && o in s.ops && s.ops[o].result.None? && t.ops == s.ops[o := Finished(s.ops[o], asset)]
    && (forall r | r in s.rows :: r in t.rows && t.rows[r] == s.rows[r])
    && row !in s.rows && row in t.rows && t.rows[row].asset == asset && t.rows[row].number > 0
    && t.rows[row].maker == Some(o)
    && (forall r | r in t.rows && r !in s.rows && r != row :: t.rows[r].maker.None?)
    && (match s.ops[o].target
        case None => asset !in s.assets && t.assets == s.assets[asset := AssetRow(s.ops[o].owner, None, false, Some(o))]
        case Some(target) => asset == target && t.assets == s.assets)
  }

  lemma {:induction false} FinalizeIs(c: Config, s: State, e: Event)
    requires OpsOk(c, s) && Allowed(c, s, e) && e.Finalize?
    ensures Finishes(s, Effect(c, s, e), s.leases[e.token].op, e.row, e.asset)
  {
    var o := s.leases[e.token].op;
    assert OperationOk(c, s, o);
    WrittenRows(s, o, e.asset, e.row, e.media);
    hide Written;
    hide HasRoom;
    hide OpsOk;
    hide WithinBackoff;
    hide NextNumber;
  }

  lemma {:induction false} FinishingMakes(s: State, t: State, o: Id, row: Id, asset: Id)
    requires MadeOk(s) && Finishes(s, t, o, row, asset)
    ensures MadeOk(t)
  {
    assert forall r :: !MadeRow(s, r, o);
    forall r, p ensures MadeRow(t, r, p) <==> MadeRow(s, r, p) || (r == row && p == o) {}
    forall p | p in t.ops && t.ops[p].result.Some? ensures exists r :: MadeRow(t, r, p) {
      if p == o {
        assert MadeRow(t, row, o);
      } else {
        var r :| MadeRow(s, r, p);
        assert MadeRow(t, r, p);
      }
    }
  }

  lemma {:induction false} FinalizeMakes(c: Config, s: State, e: Event)
    requires MadeOk(s) && OpsOk(c, s) && Allowed(c, s, e) && e.Finalize?
    ensures MadeOk(Effect(c, s, e))
  {
    FinalizeIs(c, s, e);
    var o := s.leases[e.token].op;
    hide *;
    FinishingMakes(s, Effect(c, s, e), o, e.row, e.asset);
  }

  lemma {:induction false} KeepsMade(c: Config, s: State, e: Event)
    requires MadeOk(s) && OpsOk(c, s) && Allowed(c, s, e)
    ensures MadeOk(Effect(c, s, e))
  {
    if e.Finalize? {
      FinalizeMakes(c, s, e);
    } else {
      MakersStay(c, s, e);
      SameMakersMade(s, Effect(c, s, e));
    }
  }

  lemma {:induction false} KeepsNumbers(c: Config, s: State, e: Event)
    requires NumbersOk(s) && Allowed(c, s, e)
    ensures NumbersOk(Effect(c, s, e))
  {
    if e.Finalize? {
      WrittenRows(s, s.leases[e.token].op, e.asset, e.row, e.media);
      var n := NextNumber(s.rows, e.asset);
      hide Written;
      hide NextNumber;
      hide HasRoom;
    } else if e.AddMedia? {
      hide HasRoom;
    } else {
      MakersStay(c, s, e);
      assert forall r | r in Effect(c, s, e).rows :: r in s.rows by { RowsStay(c, s, e); }
      hide Effect;
      hide Allowed;
    }
  }

  lemma {:induction false} RowsStay(c: Config, s: State, e: Event)
    requires Allowed(c, s, e) && !e.Finalize? && !e.AddMedia?
    ensures Effect(c, s, e).rows.Keys == s.rows.Keys
  {
    hide HasRoom;
    hide Unmarked;
    hide LiveReference;
    hide Named;
    hide Swept;
    hide Editable;
  }

  // ---- every run ----------------------------------------------------------

  ghost predicate StoreOk(c: Config, s: State) {
    && RefsOk(s) && ReleasedOk(s) && PreparedOk(s) && OpsOk(c, s)
    && MadeOk(s) && NumbersOk(s) && UnderCap(c, s)
  }

  lemma {:induction false} StepKeeps(c: Config, s: State, e: Event)
    requires StoreOk(c, s)
    ensures StoreOk(c, Apply(c, s, e))
  {
    hide RefsOk;
    hide ReleasedOk;
    hide PreparedOk;
    hide OpsOk;
    hide MadeOk;
    hide NumbersOk;
    hide UnderCap;
    hide Allowed;
    hide Effect;
    if Allowed(c, s, e) {
      KeepsRefs(c, s, e);
      KeepsReleased(c, s, e);
      KeepsPrepared(c, s, e);
      KeepsOps(c, s, e);
      KeepsMade(c, s, e);
      KeepsNumbers(c, s, e);
      KeepsCap(c, s, e);
    }
  }

  lemma {:induction false} RunKeeps(c: Config, s: State, events: seq<Event>)
    requires StoreOk(c, s)
    ensures StoreOk(c, Run(c, s, events))
    decreases |events|
  {
    hide StoreOk;
    hide Apply;
    if events != [] {
      StepKeeps(c, s, events[0]);
      RunKeeps(c, Apply(c, s, events[0]), events[1..]);
    }
  }

  function Empty(now: Time): State {
    State(now, map[], map[], map[], map[], map[], {}, map[], {})
  }

  /** An empty store keeps all of it. */
  lemma {:induction false} EmptyKeeps(c: Config, now: Time)
    ensures StoreOk(c, Empty(now))
  {
    forall owner ensures Charged(Empty(now), owner) == {} {}
  }

  // ---- what the invariant means -------------------------------------------

  lemma {:induction false} BytesAreThere(c: Config, s: State, r: Id)
    requires StoreOk(c, s) && r in s.rows && RowRestorable(s, s.rows[r], s.now) && !s.rows[r].held.Purged?
    ensures s.rows[r].held.At? && s.rows[r].held.blob in s.blobs
  {
    hide OpsOk;
    hide MadeOk;
    hide NumbersOk;
    hide UnderCap;
    hide PreparedOk;
  }

  lemma {:induction false} TakesTheForgotten(c: Config, s: State, blob: Id, at: Time)
    requires StoreOk(c, s) && blob in s.blobs && blob !in Apply(c, s, DeleteMarked(blob, at)).blobs
    ensures blob in s.marks && s.marks[blob] + SWEEP_DELAY <= at <= s.now
    ensures !Named(s, blob)
  {
    assert ReadyFor(s, blob, at);
    forall o | o in s.ops && s.ops[o].blob.Some? ensures Working(s.ops[o]) { assert OperationOk(c, s, o); }
    hide ReleasedOk;
    hide MadeOk;
    hide NumbersOk;
    hide UnderCap;
    hide HasRoom;
    NoRowLeft(s, blob, at);
  }

  lemma {:induction false} OneResult(c: Config, s: State, o: Id)
    requires StoreOk(c, s) && o in s.ops
    ensures s.ops[o].status == Success <==> exists r :: MadeRow(s, r, o)
    ensures forall r, q | MadeRow(s, r, o) && MadeRow(s, q, o) :: r == q
    ensures s.ops[o].status == Success && s.ops[o].target.None? <==>
      exists a :: a in s.assets && s.assets[a].maker == Some(o)
    ensures forall a, b | a in s.assets && b in s.assets && s.assets[a].maker == s.assets[b].maker == Some(o) :: a == b
  {
    assert OperationOk(c, s, o);
    hide WithinBackoff;
    hide RefsOk;
    hide ReleasedOk;
    hide PreparedOk;
    hide NumbersOk;
    hide UnderCap;
  }

  lemma {:induction false} WithinLimits(c: Config, s: State, o: Id)
    requires StoreOk(c, s) && o in s.ops
    ensures s.ops[o].retries <= RetryLimit(c)
    ensures s.ops[o].waited <= c.retryBase * (Pow2(RetryLimit(c)) - 1)
    ensures Attempted(s.ops[o])
  {
    assert OperationOk(c, s, o);
    var op := s.ops[o];
    var k := if op.status == Processing then op.attempts - 1 else op.attempts;
    hide StoreOk;
    BackoffGrows(c, op, k, k + RetryLimit(c));
  }

  // ---- of every run -------------------------------------------------------

  /** Bytes behind an asset a reader or its owner may still come back to are
      there after any run, unless somebody purged them. */
  lemma {:induction false} RestorableKeepsBytes(c: Config, s: State, events: seq<Event>, r: Id)
    requires StoreOk(c, s)
    ensures var t := Run(c, s, events);
      r in t.rows && RowRestorable(t, t.rows[r], t.now) && !t.rows[r].held.Purged? ==>
        t.rows[r].held.At? && t.rows[r].held.blob in t.blobs
  {
    RunKeeps(c, s, events);
    hide StoreOk;
    hide Run;
    var t := Run(c, s, events);
    if r in t.rows && RowRestorable(t, t.rows[r], t.now) && !t.rows[r].held.Purged? { BytesAreThere(c, t, r); }
  }

  /** A blob a sweep deletes, after any run, was marked a day before that sweep
      began, and nothing names it at the moment it goes. */
  lemma {:induction false} SweepTakesOnlyTheForgotten(c: Config, s: State, events: seq<Event>, blob: Id, at: Time)
    requires StoreOk(c, s)
    ensures var t := Run(c, s, events);
      blob in t.blobs && blob !in Apply(c, t, DeleteMarked(blob, at)).blobs ==>
        blob in t.marks && t.marks[blob] + SWEEP_DELAY <= at <= t.now && !Named(t, blob)
  {
    RunKeeps(c, s, events);
    hide StoreOk;
    hide Run;
    hide Apply;
    var t := Run(c, s, events);
    if blob in t.blobs && blob !in Apply(c, t, DeleteMarked(blob, at)).blobs { TakesTheForgotten(c, t, blob, at); }
  }

  lemma {:induction false} UploadStays(c: Config, s: State, e: Event, blob: Id, since: Time)
    requires PreparedOk(s) && Fresh(s, blob, since) && Spares(e, blob, since) && s.now < since + SWEEP_DELAY
    ensures Fresh(Apply(c, s, e), blob, since)
  {
    if e.DeleteMarked? && (blob, e.at) in s.prepared { assert ReadyFor(s, blob, e.at); }
    hide ReadyFor;
    hide HasRoom;
    hide Written;
    hide NextNumber;
    hide ReleaseAll;
    hide LiveReference;
    hide Named;
    hide Editable;
    hide Due;
    hide Holds;
  }

  lemma {:induction false} ClockGoesOn(c: Config, s: State, events: seq<Event>)
    ensures s.now <= Run(c, s, events).now
    decreases |events|
  {
    if events != [] {
      ClockStep(c, s, events[0]);
      hide Apply;
      ClockGoesOn(c, Apply(c, s, events[0]), events[1..]);
    }
  }

  lemma {:induction false} ClockStep(c: Config, s: State, e: Event)
    ensures s.now <= Apply(c, s, e).now
  {
    hide HasRoom;
    hide Written;
    hide ReleaseAll;
    hide Unmarked;
    hide LiveReference;
    hide Named;
    hide Swept;
    hide Editable;
  }

  /** No purge takes the blob, and no sweep marks it under an earlier reading. */
  predicate Spares(e: Event, blob: Id, since: Time) {
    e != DeletePurged(blob) && (e.MarkUnreferenced? ==> e.at >= since)
  }

  ghost predicate Fresh(s: State, blob: Id, since: Time) {
    blob in s.blobs && (blob in s.marks ==> s.marks[blob] >= since)
  }

  lemma {:induction false} UploadLasts(c: Config, s: State, events: seq<Event>, blob: Id, since: Time)
    requires StoreOk(c, s) && Fresh(s, blob, since) && forall e | e in events :: Spares(e, blob, since)
    requires Run(c, s, events).now < since + SWEEP_DELAY
    ensures Fresh(Run(c, s, events), blob, since)
    decreases |events|
  {
    hide StoreOk;
    hide Fresh;
    hide Spares;
    hide Apply;
    if events != [] {
      var next := Apply(c, s, events[0]);
      ClockGoesOn(c, next, events[1..]);
      ClockStep(c, s, events[0]);
      StepKeeps(c, s, events[0]);
      Prepares(c, s);
      UploadStays(c, s, events[0], blob, since);
      UploadLasts(c, next, events[1..], blob, since);
    }
  }

  lemma {:induction false} Prepares(c: Config, s: State)
    requires StoreOk(c, s)
    ensures PreparedOk(s)
  {
    hide PreparedOk;
  }

  lemma {:induction false} FreshIsThere(s: State, blob: Id, since: Time)
    ensures Fresh(s, blob, since) ==> blob in s.blobs
  {
  }

  lemma {:induction false} PutIs(c: Config, s: State, blob: Id, size: nat)
    requires blob !in s.tombstones
    ensures forall since :: Fresh(Apply(c, s, Put(blob, size)), blob, since)
  {
  }

  /** Bytes somebody has uploaded, for the first time or again, are there for a day
      after the earliest clock reading of a sweep that marks from then on, whatever
      else runs, unless somebody purged them. */
  lemma {:induction false} UploadsLast(c: Config, s: State, blob: Id, size: nat, events: seq<Event>, since: Time)
    requires StoreOk(c, s) && blob !in s.tombstones
    requires forall e | e in events :: Spares(e, blob, since)
    ensures var t := Run(c, Apply(c, s, Put(blob, size)), events); t.now < since + SWEEP_DELAY ==> blob in t.blobs
  {
    hide StoreOk;
    hide Spares;
    hide Apply;
    hide Run;
    hide Fresh;
    PutIs(c, s, blob, size);
    StepKeeps(c, s, Put(blob, size));
    FreshIsThere(Run(c, Apply(c, s, Put(blob, size)), events), blob, since);
    var t := Apply(c, s, Put(blob, size));
    if Run(c, t, events).now < since + SWEEP_DELAY { UploadLasts(c, t, events, blob, since); }
  }

  /** A sweep that began at `since`, marked after an upload at `put`, and one a day
      later. */
  function LateMark(since: Time, put: Time): seq<Event> {
    [Tick(put), Put(0, 0), MarkUnreferenced(since), Tick(since + SWEEP_DELAY), Prepare(0, since + SWEEP_DELAY),
     DeleteMarked(0, since + SWEEP_DELAY)]
  }

  /** And no longer than that: a sweep that takes its reading before the upload and
      marks after it shortens the day by what it lagged behind. */
  lemma {:induction false} LateMarksShorten(c: Config, since: Time, put: Time)
    requires since <= put <= since + SWEEP_DELAY
    ensures var t := Run(c, Empty(since), LateMark(since, put)); t.now == since + SWEEP_DELAY && 0 !in t.blobs
    ensures 0 in Run(c, Empty(since), LateMark(since, put)[..4]).blobs
  {
    var events := LateMark(since, put);
    var marked := Empty(since).(now := put, blobs := map[0 := 0], marks := map[0 := since]);
    var later := marked.(now := since + SWEEP_DELAY);
    Marked(c, since, put);
    assert events[..4] == events[..3] + [events[3]];
    assert events == events[..4] + [events[4], events[5]];
    RunJoins(c, Empty(since), events[..3], [events[3]]);
    RunOne(c, marked, events[3]);
    assert Apply(c, marked, events[3]) == later;
    RunJoins(c, Empty(since), events[..4], [events[4], events[5]]);
    RunTwo(c, later, events[4], events[5]);
    SweptAway(c, later, since);
    hide Run;
    hide Apply;
  }

  lemma {:induction false} Marked(c: Config, since: Time, put: Time)
    requires since <= put
    ensures Run(c, Empty(since), LateMark(since, put)[..3])
      == Empty(since).(now := put, blobs := map[0 := 0], marks := map[0 := since])
  {
    var events := LateMark(since, put)[..3];
    var ticked := Empty(since).(now := put);
    var stored := ticked.(blobs := map[0 := 0]);
    hide Apply;
    hide Run;
    assert events == [Tick(put)] + [Put(0, 0), MarkUnreferenced(since)];
    TicksTo(c, Empty(since), put);
    StoresFirst(c, ticked);
    MarksFirst(c, stored, since);
    RunJoins(c, Empty(since), [Tick(put)], [Put(0, 0), MarkUnreferenced(since)]);
    RunOne(c, Empty(since), Tick(put));
    RunTwo(c, ticked, Put(0, 0), MarkUnreferenced(since));
  }

  lemma {:induction false} TicksTo(c: Config, s: State, to: Time)
    requires s.now <= to
    ensures Apply(c, s, Tick(to)) == s.(now := to)
  {
  }

  lemma {:induction false} StoresFirst(c: Config, s: State)
    requires s.blobs == map[] && s.marks == map[] && s.tombstones == {}
    ensures Apply(c, s, Put(0, 0)) == s.(blobs := map[0 := 0])
  {
    assert s.marks - {0} == s.marks;
  }

  lemma {:induction false} MarksFirst(c: Config, s: State, at: Time)
    requires s.blobs == map[0 := 0] && s.marks == map[] && s.ops == map[] && s.rows == map[] && at <= s.now
    ensures Apply(c, s, MarkUnreferenced(at)) == s.(marks := map[0 := at])
  {
    assert !LiveReference(s, 0, at);
    assert Unmarked(s, at) == map[0 := at];
  }

  lemma {:induction false} SweptAway(c: Config, s: State, since: Time)
    requires s.now == since + SWEEP_DELAY && s.ops == map[] && s.rows == map[]
    requires s.blobs == map[0 := 0] && s.marks == map[0 := since]
    ensures var at := since + SWEEP_DELAY;
      var t := Apply(c, Apply(c, s, Prepare(0, at)), DeleteMarked(0, at));
      t.now == s.now && 0 !in t.blobs
  {
    var at := since + SWEEP_DELAY;
    var ready := Apply(c, s, Prepare(0, at));
    assert !LiveReference(s, 0, at);
    assert ready == s.(rows := ReleaseAll(s, 0, at), prepared := s.prepared + {(0, at)});
    assert ready.rows == map[];
    assert !LiveReference(ready, 0, at);
  }

  /** Purged bytes never come back. */
  lemma {:induction false} PurgedForGood(c: Config, s: State, events: seq<Event>, blob: Id)
    requires blob in s.tombstones && blob !in s.blobs
    ensures blob !in Run(c, s, events).blobs
    decreases |events|
  {
    if events != [] {
      PurgedStays(c, s, events[0], blob);
      hide Apply;
      PurgedForGood(c, Apply(c, s, events[0]), events[1..], blob);
    }
  }

  lemma {:induction false} PurgedStays(c: Config, s: State, e: Event, blob: Id)
    requires blob in s.tombstones && blob !in s.blobs
    ensures var t := Apply(c, s, e); blob in t.tombstones && blob !in t.blobs
  {
    hide HasRoom;
    hide Written;
    hide NextNumber;
    hide ReleaseAll;
    hide Unmarked;
    hide LiveReference;
    hide Named;
    hide Swept;
    hide Editable;
  }

  /** After any run an operation made exactly one revision if it ended in success,
      and nothing otherwise. */
  lemma {:induction false} ExactlyOneResult(c: Config, s: State, events: seq<Event>, o: Id)
    requires StoreOk(c, s)
    ensures var t := Run(c, s, events);
      o in t.ops ==>
        && (t.ops[o].status == Success <==> exists r :: MadeRow(t, r, o))
        && (forall r, q | MadeRow(t, r, o) && MadeRow(t, q, o) :: r == q)
        && (t.ops[o].status == Success && t.ops[o].target.None? <==>
              exists a :: a in t.assets && t.assets[a].maker == Some(o))
        && (forall a, b | a in t.assets && b in t.assets && t.assets[a].maker == t.assets[b].maker == Some(o) :: a == b)
  {
    RunKeeps(c, s, events);
    hide StoreOk;
    hide Run;
    hide MadeRow;
    var t := Run(c, s, events);
    if o in t.ops { OneResult(c, t, o); }
  }

  /** Retries and the waits between them are bounded whatever workers do. */
  lemma {:induction false} RetriesAreBounded(c: Config, s: State, events: seq<Event>, o: Id)
    requires StoreOk(c, s)
    ensures var t := Run(c, s, events);
      o in t.ops ==>
        t.ops[o].retries <= RetryLimit(c) && t.ops[o].waited <= c.retryBase * (Pow2(RetryLimit(c)) - 1)
  {
    RunKeeps(c, s, events);
    hide StoreOk;
    hide Run;
    var t := Run(c, s, events);
    if o in t.ops { WithinLimits(c, t, o); }
  }

  /** Attempts are bounded by retries and takeovers: no operation is tried more than
      MaxAttempts times but for the leases that ran out under a worker. */
  lemma {:induction false} AttemptsAreBounded(c: Config, s: State, events: seq<Event>, o: Id)
    requires StoreOk(c, s)
    ensures var t := Run(c, s, events);
      o in t.ops ==> t.ops[o].attempts <= RetryLimit(c) + t.ops[o].takeovers + 1
  {
    RunKeeps(c, s, events);
    hide StoreOk;
    hide Run;
    var t := Run(c, s, events);
    if o in t.ops { WithinLimits(c, t, o); }
  }

  lemma {:induction false} RunJoins(c: Config, s: State, first: seq<Event>, second: seq<Event>)
    ensures Run(c, s, first + second) == Run(c, Run(c, s, first), second)
    decreases |first|
  {
    hide Apply;
    if first == [] {
      assert first + second == second;
    } else {
      assert (first + second)[1..] == first[1..] + second;
      RunJoins(c, Apply(c, s, first[0]), first[1..], second);
    }
  }

  lemma {:induction false} RunOne(c: Config, s: State, e: Event)
    ensures Run(c, s, [e]) == Apply(c, s, e)
  {
    hide Apply;
    assert [e][1..] == [];
    assert Run(c, Apply(c, s, e), []) == Apply(c, s, e);
  }

  lemma {:induction false} RunTwo(c: Config, s: State, e: Event, f: Event)
    ensures Run(c, s, [e, f]) == Apply(c, Apply(c, s, e), f)
  {
    RunOne(c, Apply(c, s, e), f);
    hide Apply;
    assert [e, f][1..] == [f];
  }

  /** One upload, and so many workers that lease it and are never heard of again. */
  function Crashes(c: Config, now: Time, n: nat): seq<Event> {
    if n == 0 then [Put(0, 0), AcceptIngest(0, 0, 0)]
    else Crashes(c, now, n - 1) + [LeaseIngest(0, n), Tick(now + n * c.leaseDuration)]
  }

  /** What so many crashes leave: the operation due again, after as many attempts. */
  ghost predicate Crashed(t: State, n: nat, at: Time) {
    && 0 in t.ops && t.now == at && t.ops[0].attempts == n && t.ops[0].retries == 0
    && Due(t, t.ops[0]) && forall k | k in t.leases :: k <= n
  }

  lemma {:induction false} RoomForNothing(c: Config, s: State)
    requires 0 in s.blobs && s.blobs[0] == 0
    ensures HasRoom(c, s, 0, {0})
  {
    var rest := {0} - Charged(s, 0);
    BytesWithin(s.blobs, rest, {0});
    BytesWithout(s.blobs, {0}, 0);
    assert {0} - {0} == {};
    hide Charged;
  }

  lemma {:induction false} Uploaded(c: Config, now: Time)
    ensures Crashed(Run(c, Empty(now), Crashes(c, now, 0)), 0, now)
  {
    var put := Put(0, 0);
    var s := Apply(c, Empty(now), put);
    var none: map<Id, Time> := map[];
    assert none - {0} == none;
    assert s == Empty(now).(blobs := map[0 := 0]);
    RoomForNothing(c, s);
    RunTwo(c, Empty(now), put, AcceptIngest(0, 0, 0));
    hide HasRoom;
  }

  lemma {:induction false} CrashesOnce(c: Config, s: State, n: nat, at: Time)
    requires Crashed(s, n, at)
    ensures Crashed(Run(c, s, [LeaseIngest(0, n + 1), Tick(at + c.leaseDuration)]), n + 1, at + c.leaseDuration)
  {
    var lease, tick := LeaseIngest(0, n + 1), Tick(at + c.leaseDuration);
    RunTwo(c, s, lease, tick);
    hide HasRoom;
    var t := Apply(c, s, lease);
    assert t == s.(ops := s.ops[0 := Leased(c, s.ops[0], n + 1, s.now)], leases := s.leases[n + 1 := Lease(0, n + 1)]);
    assert Apply(c, t, tick) == t.(now := at + c.leaseDuration);
  }

  lemma {:induction false} CrashedAfter(c: Config, now: Time, n: nat)
    ensures Crashed(Run(c, Empty(now), Crashes(c, now, n)), n, now + n * c.leaseDuration)
  {
    hide Run;
    hide Crashed;
    hide Empty;
    if n == 0 {
      Uploaded(c, now);
      assert now + 0 * c.leaseDuration == now;
    } else {
      CrashedAfter(c, now, n - 1);
      var at := now + (n - 1) * c.leaseDuration;
      assert now + n * c.leaseDuration == at + c.leaseDuration;
      RunJoins(c, Empty(now), Crashes(c, now, n - 1), [LeaseIngest(0, n), Tick(at + c.leaseDuration)]);
      CrashesOnce(c, Run(c, Empty(now), Crashes(c, now, n - 1)), n - 1, at);
    }
  }

  /** Crashes alone, with no retry at all, take an operation to any number of
      attempts. */
  lemma {:induction false} CrashesAreUnbounded(c: Config, now: Time, n: nat)
    ensures var t := Run(c, Empty(now), Crashes(c, now, n));
      0 in t.ops && t.ops[0].attempts == n && t.ops[0].retries == 0
  {
    CrashedAfter(c, now, n);
    hide Run;
  }

  /** No account goes past a positive cap, whatever runs. */
  lemma {:induction false} CapHolds(c: Config, s: State, events: seq<Event>, owner: Id)
    requires StoreOk(c, s) && c.cap > 0
    ensures Used(Run(c, s, events), owner) <= c.cap
  {
    RunKeeps(c, s, events);
    hide Run;
    hide Used;
    hide OpsOk;
    hide MadeOk;
    hide RefsOk;
  }

  // ---- endings ------------------------------------------------------------

  predicate Ended(op: Operation) { op.status == Success || op.status == Failed }

  lemma {:induction false} EndedIs(c: Config, s: State, o: Id)
    requires o in s.ops && OperationOk(c, s, o) && Ended(s.ops[o])
    ensures s.ops[o].blob.None? && s.ops[o].token.None?
  {
    hide WithinBackoff;
    hide Attempted;
  }

  lemma {:induction false} EndingStands(c: Config, s: State, e: Event, o: Id)
    requires OpsOk(c, s) && o in s.ops && Ended(s.ops[o])
    ensures o in Apply(c, s, e).ops && Apply(c, s, e).ops[o] == s.ops[o]
  {
    assert OperationOk(c, s, o);
    hide OpsOk;
    hide OperationOk;
    EndedIs(c, s, o);
    hide Attempted;
    hide Leased;
    hide Retried;
    hide NextNumber;
    hide PurgeRow;
    hide WithinBackoff;
    hide HasRoom;
    hide Written;
    hide ReleaseAll;
    hide Unmarked;
    hide LiveReference;
    hide Named;
    hide Swept;
    hide Editable;
  }

  /** Success and failure are final. */
  lemma {:induction false} EndingsAreFinal(c: Config, s: State, events: seq<Event>, o: Id)
    requires StoreOk(c, s) && o in s.ops && Ended(s.ops[o])
    ensures o in Run(c, s, events).ops && Run(c, s, events).ops[o] == s.ops[o]
    decreases |events|
  {
    if events != [] {
      EndingStands(c, s, events[0], o);
      StepKeeps(c, s, events[0]);
      hide StoreOk;
      hide Apply;
      EndingsAreFinal(c, Apply(c, s, events[0]), events[1..], o);
    }
  }

  // ---- tokens -------------------------------------------------------------

  /** A worker whose lease was taken over. */
  ghost predicate Replaced(s: State, token: Id) {
    token in s.leases && s.leases[token].op in s.ops && s.ops[s.leases[token].op].token != Some(token)
  }

  lemma {:induction false} ReplacedStays(c: Config, s: State, e: Event, token: Id)
    requires Replaced(s, token)
    ensures Replaced(Apply(c, s, e), token)
  {
    hide HasRoom;
    hide Written;
    hide ReleaseAll;
    hide Unmarked;
    hide LiveReference;
    hide Named;
    hide Swept;
    hide Editable;
  }

  /** Once a token is replaced, nothing its worker does changes anything, ever. */
  lemma {:induction false} ReplacedWorkersAreHarmless(c: Config, s: State, events: seq<Event>, token: Id, e: Event)
    requires Replaced(s, token)
    requires e == RetryIngest(token) || e == FailIngest(token) || (e.Finalize? && e.token == token)
    ensures var t := Run(c, s, events); Replaced(t, token) && Apply(c, t, e) == t
    decreases |events|
  {
    if events == [] {
      hide HasRoom;
      hide Written;
    } else {
      ReplacedStays(c, s, events[0], token);
      hide Apply;
      hide Replaced;
      ReplacedWorkersAreHarmless(c, Apply(c, s, events[0]), events[1..], token, e);
    }
  }
}
