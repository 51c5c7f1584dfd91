/** What every run of the store keeps, whatever interleaves with a sweep. */
module StoreInvariant {
  import opened Sequences
  import opened StoreState

  // ---- references ---------------------------------------------------------

  ghost predicate OpBlobs(s: State) {
    forall o | o in s.ops && s.ops[o].blob.Some? :: s.ops[o].blob.value in s.blobs
  }

  ghost predicate RowBlobs(s: State) {
    forall r | r in s.rows && s.rows[r].held.At? :: s.rows[r].held.blob in s.blobs
  }

  ghost predicate RowAssets(s: State) {
    forall r | r in s.rows :: s.rows[r].asset in s.assets
  }

  /** Nothing names a blob that is gone. */
  ghost predicate RefsOk(s: State) {
    OpBlobs(s) && RowBlobs(s) && RowAssets(s) && s.marks.Keys <= s.blobs.Keys
  }

  /** Only a sweep past the recovery window has let a reference go. */
  ghost predicate ReleasedOk(s: State) {
    forall r | r in s.rows && s.rows[r].held.Released? :: !RowRestorable(s, s.rows[r], s.now)
  }

  /** A blob made ready for deletion has no row left in an asset that had
      expired, and never gets one. */
  ghost predicate ReadyFor(s: State, blob: Id, at: Time) {
    at <= s.now && forall r | r in s.rows && s.rows[r].held == At(blob) :: RowRestorable(s, s.rows[r], at)
  }

  ghost predicate PreparedOk(s: State) {
    forall p | p in s.prepared :: ReadyFor(s, p.0, p.1)
  }

  // ---- operations ---------------------------------------------------------

  function Pow2(n: nat): nat { if n == 0 then 1 else 2 * Pow2(n - 1) }

  function RetryLimit(c: Config): nat { if c.maxAttempts == 0 then 0 else c.maxAttempts - 1 }

  function Least(a: nat, b: nat): nat { if a < b then a else b }

  /** How many retries, and how long a wait, an operation may have behind it
      after its last retried attempt. */
  ghost predicate WithinBackoff(c: Config, op: Operation, attempts: nat) {
    && op.retries <= Least(attempts, RetryLimit(c))
    && op.waited <= c.retryBase * (Pow2(Least(attempts, RetryLimit(c))) - 1)
  }

  ghost predicate OperationOk(c: Config, s: State, o: Id)
    requires o in s.ops
  {
    var op := s.ops[o];
    && (Working(op) <==> op.blob.Some?)
    && (op.status == Processing <==> op.token.Some?)
    && (op.status == Processing ==>
          op.attempts > 0 && op.token.value in s.leases && s.leases[op.token.value] == Lease(o, op.attempts))
    && (op.status == Success <==> op.result.Some?)
    && WithinBackoff(c, op, if op.status == Processing then op.attempts - 1 else op.attempts)
    && Attempted(op)
  }

  /** Each attempt but the first follows a retry or a takeover. */
  predicate Attempted(op: Operation) {
    && op.retries + op.takeovers <= op.attempts <= op.retries + op.takeovers + 1
    && (op.status == Pending ==> op.attempts == op.retries + op.takeovers)
    && (op.status == Processing ==> op.attempts == op.retries + op.takeovers + 1)
  }

  ghost predicate OpsOk(c: Config, s: State) {
    && (forall o | o in s.ops :: OperationOk(c, s, o))
    && (forall t | t in s.leases :: s.leases[t].op in s.ops && s.leases[t].attempts <= s.ops[s.leases[t].op].attempts)
  }

  // ---- results ------------------------------------------------------------

  ghost predicate MadeRow(s: State, r: Id, o: Id) {
    r in s.rows && s.rows[r].maker == Some(o)
  }

  /** An operation that ended in success made one revision, and one asset unless
      it revised one; any other made nothing. */
  ghost predicate MadeOk(s: State) {
    && (forall r | r in s.rows && s.rows[r].maker.Some? ::
          && s.rows[r].maker.value in s.ops
          && s.ops[s.rows[r].maker.value].result == Some(s.rows[r].asset)
          && s.rows[r].number > 0)
    && (forall r, q, o | MadeRow(s, r, o) && MadeRow(s, q, o) :: r == q)
    && (forall o | o in s.ops && s.ops[o].result.Some? :: exists r :: MadeRow(s, r, o))
    && (forall a | a in s.assets && s.assets[a].maker.Some? ::
          && s.assets[a].maker.value in s.ops
          && s.ops[s.assets[a].maker.value].result == Some(a)
          && s.ops[s.assets[a].maker.value].target.None?)
    && (forall o | o in s.ops && s.ops[o].result.Some? && s.ops[o].target.None? ::
          s.ops[o].result.value in s.assets && s.assets[s.ops[o].result.value].maker == Some(o))
    && (forall o | o in s.ops && s.ops[o].result.Some? && s.ops[o].target.Some? ::
          s.ops[o].result == s.ops[o].target)
  }

  /** No two revisions of an asset share a number. */
  ghost predicate NumbersOk(s: State) {
    forall r, q | r in s.rows && q in s.rows && s.rows[r].asset == s.rows[q].asset
                  && s.rows[r].number == s.rows[q].number > 0 :: r == q
  }

  // ---- steps keep them ----------------------------------------------------

  lemma {:induction false} NoRowLeft(s: State, blob: Id, at: Time)
    requires RefsOk(s) && PreparedOk(s) && (blob, at) in s.prepared && !LiveReference(s, blob, at)
    requires forall o | o in s.ops && s.ops[o].blob.Some? :: Working(s.ops[o])
    ensures !Named(s, blob)
  {
    assert ReadyFor(s, blob, at);
  }

  lemma {:induction false} KeepsOpBlobs(c: Config, s: State, e: Event)
    requires OpBlobs(s) && Allowed(c, s, e)
    requires e.DeleteMarked? && !LiveReference(s, e.blob, e.at) ==> !Named(s, e.blob)
    ensures OpBlobs(Effect(c, s, e))
  {
    hide HasRoom;
    hide NextNumber;
    hide Written;
    hide ReleaseAll;
    hide Unmarked;
    hide LiveReference;
    hide Swept;
    hide Editable;
  }

  lemma {:induction false} WrittenRows(s: State, op: Id, asset: Id, row: Id, media: map<Id, Id>)
    requires op in s.ops && s.ops[op].blob.Some? && row !in media && media.Keys !! s.rows.Keys && row !in s.rows
    ensures var rows := Written(s, op, asset, row, media);
      && rows.Keys == s.rows.Keys + media.Keys + {row}
      && (forall r | r in s.rows :: rows[r] == s.rows[r])
      && (forall r | r in media :: rows[r] == Row(asset, At(media[r]), 0, None))
      && rows[row] == Row(asset, At(s.ops[op].blob.value), NextNumber(s.rows, asset), Some(op))
  {
    hide NextNumber;
  }

  lemma {:induction false} KeepsRowBlobs(c: Config, s: State, e: Event)
    requires RowBlobs(s) && Allowed(c, s, e)
    requires e.DeleteMarked? && !LiveReference(s, e.blob, e.at) ==> !Named(s, e.blob)
    ensures RowBlobs(Effect(c, s, e))
  {
    hide HasRoom;
    if e.Finalize? {
      WritesBlobs(c, s, e);
    } else {
      hide NextNumber;
      hide Unmarked;
      hide LiveReference;
      hide Swept;
      hide Editable;
      hide Written;
      hide Holds;
      hide Due;
      hide PurgeOp;
      hide Retried;
      hide Leased;
    }
  }

  lemma {:induction false} WritesBlobs(c: Config, s: State, e: Event)
    requires RowBlobs(s) && Allowed(c, s, e) && e.Finalize?
    ensures RowBlobs(Effect(c, s, e))
  {
    hide HasRoom;
    hide NextNumber;
    hide Editable;
    var op := s.leases[e.token].op;
    WrittenRows(s, op, e.asset, e.row, e.media);
    hide Written;
    forall r | r in e.media ensures e.media[r] in s.blobs { assert e.media[r] in e.media.Values; }
  }

  lemma {:induction false} KeepsRowAssets(c: Config, s: State, e: Event)
    requires RowAssets(s) && Allowed(c, s, e)
    ensures RowAssets(Effect(c, s, e))
  {
    hide HasRoom;
    hide NextNumber;
    hide Unmarked;
    hide LiveReference;
    hide Swept;
    hide Named;
    match e
    case Finalize(token, asset, row, media) =>
      WrittenRows(s, s.leases[token].op, asset, row, media);
      hide Written;
    case _ =>
  }

  /** Deleting a prepared blob breaks no reference, with nothing but the two
      transactions' own checks to rely on. */
  lemma {:induction false} KeepsRefs(c: Config, s: State, e: Event)
    requires RefsOk(s) && PreparedOk(s) && OpsOk(c, s) && Allowed(c, s, e)
    ensures RefsOk(Effect(c, s, e))
  {
    if e.DeleteMarked? && !LiveReference(s, e.blob, e.at) {
      forall o | o in s.ops && s.ops[o].blob.Some? ensures Working(s.ops[o]) { assert OperationOk(c, s, o); }
      NoRowLeft(s, e.blob, e.at);
    }
    hide OpsOk;
    hide PreparedOk;
    KeepsOpBlobs(c, s, e);
    KeepsRowBlobs(c, s, e);
    KeepsRowAssets(c, s, e);
    KeepsMarks(c, s, e);
    hide *;
    Refs(Effect(c, s, e));
  }

  lemma {:induction false} Refs(s: State)
    requires OpBlobs(s) && RowBlobs(s) && RowAssets(s) && s.marks.Keys <= s.blobs.Keys
    ensures RefsOk(s)
  {
  }

  lemma {:induction false} KeepsMarks(c: Config, s: State, e: Event)
    requires s.marks.Keys <= s.blobs.Keys && Allowed(c, s, e)
    ensures Effect(c, s, e).marks.Keys <= Effect(c, s, e).blobs.Keys
  {
    hide HasRoom;
    hide NextNumber;
    hide Written;
    hide ReleaseAll;
    hide LiveReference;
    hide Named;
    hide Editable;
    hide Holds;
    hide Due;
    hide Leased;
    hide Retried;
    hide PurgeRow;
    hide PurgeOp;
  }

  /** Steps that touch neither a row nor an asset. */
  predicate Aside(e: Event) {
    e.Put? || e.AcceptIngest? || e.AcceptRevision? || e.LeaseIngest? || e.RetryIngest? || e.FailIngest?
    || e.MarkUnreferenced? || e.DeleteMarked? || e.DeletePurged? || e.Tick?
  }

  lemma {:induction false} AsideIs(c: Config, s: State, e: Event)
    requires Allowed(c, s, e) && Aside(e)
    ensures var t := Effect(c, s, e);
      t.rows == s.rows && t.assets == s.assets && t.prepared == s.prepared && s.now <= t.now
  {
    hide HasRoom;
    hide NextNumber;
    hide Swept;
    hide Unmarked;
    hide Named;
    hide Holds;
    hide Due;
    hide LiveReference;
    hide Editable;
  }

  lemma {:induction false} ReleasedStays(c: Config, s: State, e: Event)
    requires RefsOk(s) && ReleasedOk(s) && Allowed(c, s, e) && !Aside(e)
    ensures ReleasedOk(Effect(c, s, e))
  {
    hide HasRoom;
    hide NextNumber;
    hide Swept;
    hide Named;
    hide Holds;
    hide LiveReference;
  }

  lemma {:induction false} KeepsReleased(c: Config, s: State, e: Event)
    requires RefsOk(s) && ReleasedOk(s) && Allowed(c, s, e)
    ensures ReleasedOk(Effect(c, s, e))
  {
    if Aside(e) { AsideIs(c, s, e); } else { ReleasedStays(c, s, e); }
    hide Effect;
    hide Allowed;
    hide Aside;
    hide RefsOk;
  }

  lemma {:induction false} ReadyStays(c: Config, s: State, e: Event, blob: Id, at: Time)
    requires RefsOk(s) && ReadyFor(s, blob, at) && Allowed(c, s, e) && !Aside(e)
    ensures ReadyFor(Effect(c, s, e), blob, at)
  {
    hide HasRoom;
    hide NextNumber;
    hide Swept;
    hide Named;
    hide Holds;
    hide LiveReference;
  }

  /** Preparing a blob lets every row of an expired asset go. */
  lemma {:induction false} PreparesBlob(c: Config, s: State, e: Event)
    requires RefsOk(s) && Allowed(c, s, e) && !Aside(e)
    ensures forall p | p in Effect(c, s, e).prepared && p !in s.prepared :: ReadyFor(Effect(c, s, e), p.0, p.1)
  {
    hide HasRoom;
    hide NextNumber;
    hide Written;
    hide Named;
    hide Holds;
    hide LiveReference;
  }

  lemma {:induction false} KeepsPrepared(c: Config, s: State, e: Event)
    requires RefsOk(s) && PreparedOk(s) && Allowed(c, s, e)
    ensures PreparedOk(Effect(c, s, e))
  {
    if Aside(e) { AsideIs(c, s, e); } else { PreparesBlob(c, s, e); }
    var t := Effect(c, s, e);
    forall p | p in t.prepared ensures ReadyFor(t, p.0, p.1) {
      if p in s.prepared {
        assert ReadyFor(s, p.0, p.1);
        if !Aside(e) { ReadyStays(c, s, e, p.0, p.1); }
        hide Effect;
        hide Allowed;
        hide Aside;
      } else {
        hide Effect;
        hide Allowed;
        hide Aside;
      }
    }
  }

  // ---- the backoff --------------------------------------------------------

  lemma {:induction false} DoubledIs(base: nat, times: nat)
    ensures Doubled(base, times) == base * Pow2(times)
  {
    if times > 0 { DoubledIs(base, times - 1); }
  }

  lemma {:induction false} PowersGrow(a: nat, b: nat)
    requires a <= b
    ensures 1 <= Pow2(a) <= Pow2(b)
    decreases b
  {
    if a < b { PowersGrow(a, b - 1); } else if a > 0 { PowersGrow(a - 1, a - 1); }
  }

  lemma {:induction false} BackoffGrows(c: Config, op: Operation, a: nat, b: nat)
    requires WithinBackoff(c, op, a) && a <= b
    ensures WithinBackoff(c, op, b)
  {
    var m, n := Least(a, RetryLimit(c)), Least(b, RetryLimit(c));
    PowersGrow(m, n);
    Scales(c.retryBase, Pow2(m) - 1, Pow2(n) - 1);
  }

  lemma {:induction false} Scales(k: nat, a: int, b: int)
    requires a <= b
    ensures k * a <= k * b
  {
  }

  /** The wait doubles with each attempt, and all of them sum to one less than
      the next doubling. */
  lemma {:induction false} RetryWithin(c: Config, op: Operation, attempts: nat, now: Time)
    requires 0 < attempts < c.maxAttempts && WithinBackoff(c, op, attempts - 1)
    ensures WithinBackoff(c, Retried(c, op, attempts, now), attempts)
  {
    var k := attempts - 1;
    DoubledIs(c.retryBase, k);
    assert Least(attempts, RetryLimit(c)) == attempts && Least(k, RetryLimit(c)) == k;
    assert Pow2(attempts) == 2 * Pow2(k);
    AddUp(c.retryBase, Pow2(k));
  }

  lemma {:induction false} AddUp(base: int, p: int)
    ensures base * (p - 1) + base * p == base * (2 * p - 1)
  {
  }

  // ---- operations ---------------------------------------------------------

  lemma {:induction false} OthersKeepOperation(c: Config, s: State, t: State, o: Id)
    requires o in s.ops && o in t.ops && t.ops[o] == s.ops[o] && OperationOk(c, s, o)
    requires forall k | k in s.leases :: k in t.leases && t.leases[k] == s.leases[k]
    ensures OperationOk(c, t, o)
  {
    hide WithinBackoff;
  }

  lemma {:induction false} KeepsOperation(c: Config, s: State, e: Event, o: Id)
    requires OpsOk(c, s) && Allowed(c, s, e) && o in Effect(c, s, e).ops
    ensures OperationOk(c, Effect(c, s, e), o)
  {
    hide Effect;
    hide Allowed;
    var t := Effect(c, s, e);
    if o in s.ops {
      assert OperationOk(c, s, o);
      hide OperationOk;
      if t.ops[o] == s.ops[o] {
        LeasesStay(c, s, e);
        OthersKeepOperation(c, s, t, o);
      } else {
        TouchedOperation(c, s, e, o);
      }
    } else {
      NewcomerOk(c, s, e, o);
    }
  }

  lemma {:induction false} NewcomerOk(c: Config, s: State, e: Event, o: Id)
    requires Allowed(c, s, e) && o !in s.ops && o in Effect(c, s, e).ops
    ensures OperationOk(c, Effect(c, s, e), o)
  {
    hide HasRoom;
    hide NextNumber;
    hide Written;
    hide ReleaseAll;
    hide Unmarked;
    hide Named;
    hide LiveReference;
    hide Editable;
    hide Delay;
    hide Swept;
    hide WithinBackoff;
    var t := Effect(c, s, e);
    assert t.ops[o].attempts == 0 && t.ops[o].retries == 0 && t.ops[o].waited == 0 && t.ops[o].takeovers == 0;
    NothingWaited(c, t.ops[o]);
  }

  lemma {:induction false} NothingWaited(c: Config, op: Operation)
    requires op.retries == 0 && op.waited == 0
    ensures WithinBackoff(c, op, 0)
  {
  }

  lemma {:induction false} LeasesStay(c: Config, s: State, e: Event)
    requires Allowed(c, s, e)
    ensures forall k | k in s.leases :: k in Effect(c, s, e).leases && Effect(c, s, e).leases[k] == s.leases[k]
  {
    hide HasRoom;
    hide NextNumber;
    hide Written;
    hide ReleaseAll;
    hide Unmarked;
    hide Named;
    hide LiveReference;
  }

  /** How a step may rewrite an operation. */
  lemma {:induction false} TouchedIs(c: Config, s: State, e: Event, o: Id)
    requires Allowed(c, s, e) && o in s.ops && o in Effect(c, s, e).ops && Effect(c, s, e).ops[o] != s.ops[o]
    ensures var op, t := s.ops[o], Effect(c, s, e);
      var now := t.ops[o];
      || (e.LeaseIngest? && Due(s, op) && now == Leased(c, op, e.token, s.now)
          && e.token in t.leases && t.leases[e.token] == Lease(o, now.attempts))
      || (e.RetryIngest? && Holds(s, e.token) && s.leases[e.token].op == o && s.leases[e.token].attempts < c.maxAttempts
          && now == Retried(c, op, s.leases[e.token].attempts, s.now))
      || (!e.RetryIngest? && (op.status == Processing || (op.blob.Some? && op.status != Success)) && now == Given(op))
      || (e.Finalize? && op.status == Processing && now == Finished(op, e.asset))
  {
    hide HasRoom;
    hide NextNumber;
    hide Written;
    hide ReleaseAll;
    hide Unmarked;
    hide Named;
    hide LiveReference;
    hide Editable;
    hide Delay;
    hide Swept;
  }

  lemma {:induction false} TouchedOperation(c: Config, s: State, e: Event, o: Id)
    requires OpsOk(c, s) && Allowed(c, s, e) && o in s.ops && o in Effect(c, s, e).ops
    requires Effect(c, s, e).ops[o] != s.ops[o]
    ensures OperationOk(c, Effect(c, s, e), o)
  {
    hide Effect;
    hide Allowed;
    hide WithinBackoff;
    hide Delay;
    hide RetryLimit;
    var op := s.ops[o];
    assert OperationOk(c, s, o);
    hide OpsOk;
    TouchedIs(c, s, e, o);
    BackoffGrows(c, op, if op.status == Processing then op.attempts - 1 else op.attempts, op.attempts);
    if e.RetryIngest? {
      RetryWithin(c, op, op.attempts, s.now);
    } else {
      BackoffAlike(c, op, Effect(c, s, e).ops[o], op.attempts);
    }
  }

  lemma {:induction false} BackoffAlike(c: Config, op: Operation, other: Operation, attempts: nat)
    requires WithinBackoff(c, op, attempts) && other.retries == op.retries && other.waited == op.waited
    ensures WithinBackoff(c, other, attempts)
  {
  }

  lemma {:induction false} KeepsOps(c: Config, s: State, e: Event)
    requires OpsOk(c, s) && Allowed(c, s, e)
    ensures OpsOk(c, Effect(c, s, e))
  {
    var t := Effect(c, s, e);
    forall o | o in t.ops ensures OperationOk(c, t, o) { KeepsOperation(c, s, e, o); }
    KeepsLeases(c, s, e);
    hide OperationOk;
  }

  lemma {:induction false} KeepsLeases(c: Config, s: State, e: Event)
    requires OpsOk(c, s) && Allowed(c, s, e)
    ensures var t := Effect(c, s, e);
      forall k | k in t.leases :: t.leases[k].op in t.ops && t.leases[k].attempts <= t.ops[t.leases[k].op].attempts
  {
    hide OperationOk;
    hide HasRoom;
    hide NextNumber;
    hide Written;
    hide ReleaseAll;
    hide Unmarked;
    hide Named;
    hide LiveReference;
  }
}
