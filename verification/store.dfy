/** The store's transactions as they run on its tables. */
module Store {
  import opened Sequences
  import opened StoreState
  import opened StoreCap
  import opened StoreExact
  import opened StoreInvariant
  import opened StoreRuns

  datatype Job = Job(op: Id, token: Id, attempts: nat)

  /** The delay a retry waits, doubled once for each attempt after the first. */
  method RetryDelay(base: nat, attempts: nat) returns (delay: nat)
    ensures delay == Delay(base, attempts)
    ensures delay == base * Pow2(if attempts == 0 then 0 else attempts - 1)
  {
    DoubledIs(base, if attempts == 0 then 0 else attempts - 1);
    delay := base;
    var attempt: nat := 1;
    while attempt < attempts
      invariant 1 <= attempt && (attempts > 0 ==> attempt <= attempts) && (attempts == 0 ==> attempt == 1)
      invariant delay == Doubled(base, attempt - 1)
      decreases attempts - attempt
    {
      delay := delay * 2;
      attempt := attempt + 1;
    }
  }

  method SumBytes(sizes: map<Id, nat>, blobs: set<Id>) returns (total: nat)
    ensures total == Bytes(sizes, blobs)
  {
    total := 0;
    var left := blobs;
    while left != {}
      invariant left <= blobs && total + Bytes(sizes, left) == Bytes(sizes, blobs)
      decreases left
    {
      var b :| b in left;
      BytesWithout(sizes, left, b);
      if b in sizes { total := total + sizes[b]; }
      left := left - {b};
    }
  }

  class Tables {
    const config: Config
    var now: Time
    var blobs: map<Id, nat>
    var ops: map<Id, Operation>
    var assets: map<Id, AssetRow>
    var rows: map<Id, Row>
    var marks: map<Id, Time>
    var tombstones: set<Id>
    ghost var leases: map<Id, Lease>
    ghost var prepared: set<(Id, Time)>

    ghost function State(): State
      reads this
    {
      StoreState.State(now, blobs, ops, assets, rows, marks, tombstones, leases, prepared)
    }

    // ---- bytes and drafts -----------------------------------------------

    /** Stores bytes that nobody purged, converging on those that are there, which
        are forgotten no longer. */
    method StoreBytes(blob: Id, size: nat) returns (stored: bool)
      modifies this`blobs, this`marks
      ensures stored <==> blob !in tombstones
      ensures State() == Apply(config, old(State()), Put(blob, size))
      ensures stored ==> blob in blobs && blob !in marks
    {
      if blob in tombstones { return false; }
      if blob !in blobs { blobs := blobs[blob := size]; }
      marks := marks - {blob};
      return true;
    }

    // ---- reading --------------------------------------------------------

    method HasLiveReference(blob: Id, at: Time) returns (live: bool)
      ensures live == LiveReference(State(), blob, at)
      ensures live <==>
        || (exists o :: o in ops && ops[o].blob == Some(blob) && ops[o].status in {Pending, Processing})
        || (exists r :: r in rows && rows[r].held == At(blob) && rows[r].asset in assets
                        && (assets[rows[r].asset].until == None || assets[rows[r].asset].until.value > at))
    {
      live := (exists o | o in ops :: ops[o].blob == Some(blob) && Working(ops[o]))
        || (exists r | r in rows :: rows[r].held == At(blob) && rows[r].asset in assets
                                    && Restorable(assets[rows[r].asset], at));
    }

    method AccountBlobs(owner: Id) returns (charged: set<Id>)
      ensures charged == Charged(State(), owner)
      ensures forall b :: b in charged <==>
        && b in blobs
        && (|| (exists o :: o in ops && ops[o].owner == owner && ops[o].blob == Some(b) && ops[o].status in {Pending, Processing})
            || (exists r :: r in rows && rows[r].held == At(b) && rows[r].asset in assets
                            && assets[rows[r].asset].owner == owner
                            && (assets[rows[r].asset].until == None || assets[rows[r].asset].until.value > now)))
    {
      var working := set o | o in ops && ops[o].owner == owner && ops[o].blob.Some? && Working(ops[o]) ::
        ops[o].blob.value;
      var kept := set r | r in rows && rows[r].held.At? && rows[r].asset in assets
                          && Restorable(assets[rows[r].asset], now) && assets[rows[r].asset].owner == owner ::
        rows[r].held.blob;
      charged := set b | b in working + kept && b in blobs;
      ghost var s := State();
      forall b ensures b in charged <==> b in Charged(s, owner) {
        if b in working {
          var o :| o in ops && ops[o].owner == owner && ops[o].blob == Some(b) && Working(ops[o]);
          assert s.ops[o].blob == Some(b);
        }
        if b in kept {
          var r :| r in rows && rows[r].held == At(b) && rows[r].asset in assets
                   && Restorable(assets[rows[r].asset], now) && assets[rows[r].asset].owner == owner;
          assert RowRestorable(s, s.rows[r], s.now);
        }
      }
    }

    /** Whether an account may take these blobs on. */
    method EnsureAccountStorage(owner: Id, candidates: set<Id>) returns (room: bool)
      ensures room == HasRoom(config, State(), owner, candidates)
    {
      if config.cap <= 0 || |candidates| == 0 { return true; }
      var charged := AccountBlobs(owner);
      var used := SumBytes(blobs, charged);
      var additional := SumBytes(blobs, candidates - charged);
      return !(additional > 0 && (additional > config.cap || used > config.cap - additional));
    }

    // ---- accepting ------------------------------------------------------

    method AcceptUpload(op: Id, owner: Id, blob: Id) returns (accepted: bool)
      requires op !in ops
      modifies this`ops
      ensures accepted <==> blob in blobs && HasRoom(config, old(State()), owner, {blob})
      ensures accepted ==> ops == old(ops)[op := Operation(owner, Some(blob), Pending, 0, None, 0, now, None, None, 0, 0, 0)]
      ensures !accepted ==> ops == old(ops)
      ensures State() == Apply(config, old(State()), AcceptIngest(op, owner, blob))
    {
      hide HasRoom;
      var room := EnsureAccountStorage(owner, {blob});
      if !room || blob !in blobs { return false; }
      ops := ops[op := NewOperation(owner, blob, None, now)];
      return true;
    }

    method AcceptNewRevision(op: Id, owner: Id, blob: Id, target: Id) returns (accepted: bool)
      requires op !in ops
      modifies this`ops
      ensures accepted <==>
        && blob in blobs && HasRoom(config, old(State()), owner, {blob})
        && target in assets && assets[target].owner == owner && assets[target].until == None && !assets[target].withheld
      ensures accepted ==>
        ops == old(ops)[op := Operation(owner, Some(blob), Pending, 0, None, 0, now, Some(target), None, 0, 0, 0)]
      ensures !accepted ==> ops == old(ops)
      ensures State() == Apply(config, old(State()), AcceptRevision(op, owner, blob, target))
    {
      hide HasRoom;
      if target !in assets || assets[target].owner != owner || assets[target].until.Some? { return false; }
      if assets[target].withheld { return false; }
      var room := EnsureAccountStorage(owner, {blob});
      if !room || blob !in blobs { return false; }
      ops := ops[op := NewOperation(owner, blob, Some(target), now)];
      return true;
    }

    method AddPicture(row: Id, owner: Id, asset: Id, blob: Id) returns (added: bool)
      requires row !in rows
      modifies this`rows
      ensures added <==>
        && blob in blobs && HasRoom(config, old(State()), owner, {blob})
        && asset in assets && assets[asset].owner == owner && assets[asset].until == None && !assets[asset].withheld
      ensures rows == if added then old(rows)[row := Row(asset, At(blob), 0, None)] else old(rows)
      ensures State() == Apply(config, old(State()), AddMedia(row, owner, asset, blob))
    {
      hide HasRoom;
      if asset !in assets || assets[asset].owner != owner || assets[asset].until.Some? { return false; }
      if assets[asset].withheld { return false; }
      var room := EnsureAccountStorage(owner, {blob});
      if !room || blob !in blobs { return false; }
      rows := rows[row := Row(asset, At(blob), 0, None)];
      return true;
    }

    // ---- working --------------------------------------------------------

    /** Leases the due operation that has waited longest. */
    method LeaseNext(token: Id) returns (job: Option<Job>)
      requires token !in leases
      modifies this`ops, this`leases
      ensures job.Some? ==>
        var o := job.value.op;
        && o in old(ops) && ops.Keys == old(ops).Keys && (forall p | p in ops && p != o :: ops[p] == old(ops)[p])
        && ops[o].status == Processing && ops[o].token == Some(token) && ops[o].expires == now + config.leaseDuration
        && ops[o].attempts == old(ops)[o].attempts + 1 == job.value.attempts
        && ops[o].blob == old(ops)[o].blob && ops[o].owner == old(ops)[o].owner && ops[o].target == old(ops)[o].target
      ensures job.None? ==> State() == old(State()) && forall o | o in ops :: !Due(State(), ops[o])
      ensures job.Some? ==>
        && job.value.op in old(ops) && Due(old(State()), old(ops)[job.value.op])
        && State() == Apply(config, old(State()), LeaseIngest(job.value.op, token))
        && job.value.token == token && leases[token] == Lease(job.value.op, job.value.attempts)
        && forall o | o in old(ops) && Due(old(State()), old(ops)[o]) ::
             old(ops)[job.value.op].available <= old(ops)[o].available
    {
      var left := ops.Keys;
      var next: Option<Id> := None;
      while left != {}
        invariant left <= ops.Keys
        invariant next.None? ==> forall o | o in ops && o !in left :: !Due(State(), ops[o])
        invariant next.Some? ==> next.value in ops && Due(State(), ops[next.value])
        invariant next.Some? ==> forall o | o in ops && o !in left && Due(State(), ops[o]) ::
          ops[next.value].available <= ops[o].available
        decreases left
      {
        var o :| o in left;
        left := left - {o};
        var due := ops[o].available <= now
          && (ops[o].status == Pending || (ops[o].status == Processing && ops[o].expires <= now));
        if due && (next.None? || ops[o].available < ops[next.value].available) { next := Some(o); }
      }
      if next.None? { return None; }
      var leased := ops[next.value].(status := Processing, attempts := ops[next.value].attempts + 1,
                                     token := Some(token), expires := now + config.leaseDuration,
                                     takeovers := ops[next.value].takeovers
                                       + (if ops[next.value].status == Processing then 1 else 0));
      ops := ops[next.value := leased];
      leases := leases[token := Lease(next.value, leased.attempts)];
      return Some(Job(next.value, token, leased.attempts));
    }

    ghost predicate Knows(job: Job)
      reads this
    {
      job.op in ops && job.token in leases && leases[job.token] == Lease(job.op, job.attempts)
    }

    method HoldsLease(job: Job) returns (holds: bool)
      requires Knows(job)
      ensures holds == Holds(State(), job.token)
    {
      return ops[job.op].status == Processing && ops[job.op].token == Some(job.token);
    }

    method Retry(job: Job) returns (kept: bool)
      requires Knows(job) && job.attempts < config.maxAttempts
      modifies this`ops
      ensures kept ==>
        && job.op in ops
        && var before, after := old(ops)[job.op], ops[job.op];
        && ops == old(ops)[job.op := after] && after.status == Pending && after.token == None
        && after.available == now + config.retryBase * Pow2(if job.attempts == 0 then 0 else job.attempts - 1)
        && after.blob == before.blob && after.owner == before.owner && after.target == before.target && after.attempts == before.attempts
      ensures !kept ==> ops == old(ops)
      ensures kept <==> Holds(old(State()), job.token)
      ensures State() == Apply(config, old(State()), RetryIngest(job.token))
    {
      var delay := RetryDelay(config.retryBase, job.attempts);
      var holds := HoldsLease(job);
      if !holds { return false; }
      var op := ops[job.op];
      ops := ops[job.op := op.(status := Pending, available := now + delay, token := None,
                               retries := op.retries + 1, waited := op.waited + delay)];
      return true;
    }

    method Fail(job: Job) returns (kept: bool)
      requires Knows(job)
      modifies this`ops
      ensures kept ==>
        && job.op in ops
        && var before, after := old(ops)[job.op], ops[job.op];
        && ops == old(ops)[job.op := after] && after.status == Failed && after.token == None && after.blob == None
        && after.result == before.result && after.owner == before.owner && after.attempts == before.attempts
      ensures !kept ==> ops == old(ops)
      ensures kept <==> Holds(old(State()), job.token)
      ensures State() == Apply(config, old(State()), FailIngest(job.token))
    {
      var holds := HoldsLease(job);
      if !holds { return false; }
      ops := ops[job.op := ops[job.op].(status := Failed, blob := None, token := None)];
      return true;
    }

    /** A failure of ours is tried again while attempts remain; any other ends it. */
    method FinishFailure(job: Job, ours: bool) returns (kept: bool)
      requires Knows(job)
      modifies this`ops
      ensures kept <==> Holds(old(State()), job.token)
      ensures kept ==> job.op in ops && ops[job.op].status == if ours && job.attempts < config.maxAttempts then Pending else Failed
      ensures State() == Apply(config, old(State()),
                if ours && job.attempts < config.maxAttempts then RetryIngest(job.token) else FailIngest(job.token))
    {
      if ours && job.attempts < config.maxAttempts {
        kept := Retry(job);
        return;
      }
      kept := Fail(job);
    }

    /** One past the highest revision number of an asset. */
    method NumberNext(asset: Id) returns (n: nat)
      ensures n == NextNumber(rows, asset)
    {
      n := 1;
      var numbers := set r | r in rows && rows[r].asset == asset :: rows[r].number;
      var left := numbers;
      while left != {}
        invariant left <= numbers && n > 0
        invariant forall x | x in numbers && x !in left :: x < n
        invariant n == 1 || (n - 1 in numbers && n - 1 !in left)
        decreases left
      {
        var x :| x in left;
        left := left - {x};
        if x >= n { n := x + 1; }
      }
      assert n == 1 || n - 1 in numbers;
      OnePast(numbers, n);
    }

    /** Whether a finished parse may be written: the lease is held, the blobs are there,
        the account has room, and what it revises may be edited. */
    method MayFinalize(job: Job, asset: Id, row: Id, media: map<Id, Id>) returns (may: bool)
      requires Knows(job) && row !in rows && row !in media && media.Keys !! rows.Keys
      requires ops[job.op].target.None? ==> asset !in assets
      requires ops[job.op].target.Some? ==> asset == ops[job.op].target.value
      ensures may <==> Allowed(config, State(), Finalize(job.token, asset, row, media))
    {
      hide HasRoom;
      var op := ops[job.op];
      var holds := HoldsLease(job);
      if !holds || op.blob.None? { return false; }
      var candidates := {op.blob.value} + media.Values;
      if !(candidates <= blobs.Keys) { return false; }
      var room := EnsureAccountStorage(op.owner, candidates);
      if !room { return false; }
      if op.target.None? { return true; }
      return asset in assets && assets[asset].owner == op.owner && assets[asset].until.None? && !assets[asset].withheld;
    }

    /** Turns a finished parse into rows: a new asset, or a revision of one. */
    method FinalizeJob(job: Job, asset: Id, row: Id, media: map<Id, Id>) returns (done: bool)
      requires Knows(job) && row !in rows && row !in media && media.Keys !! rows.Keys
      requires ops[job.op].target.None? ==> asset !in assets
      requires ops[job.op].target.Some? ==> asset == ops[job.op].target.value
      modifies this`rows, this`assets, this`ops
      ensures done <==> Allowed(config, old(State()), Finalize(job.token, asset, row, media))
      ensures done ==> Finalized(old(State()), State(), job.op, asset, row, media)
      ensures !done ==> State() == old(State())
      ensures State() == Apply(config, old(State()), Finalize(job.token, asset, row, media))
    {
      hide NextNumber;
      hide Finalized;
      FinalizeOutcome(config, State(), Finalize(job.token, asset, row, media));
      var op := ops[job.op];
      var may := MayFinalize(job, asset, row, media);
      if !may { return false; }
      FinalizeHolds(config, State(), Finalize(job.token, asset, row, media));
      hide Allowed;
      var number := NumberNext(asset);
      rows := (rows + map m | m in media :: Row(asset, At(media[m]), 0, None))
        [row := Row(asset, At(op.blob.value), number, Some(job.op))];
      if op.target.None? { assets := assets[asset := AssetRow(op.owner, None, false, Some(job.op))]; }
      ops := ops[job.op := op.(status := Success, result := Some(asset), blob := None, token := None)];
      return true;
    }

    // ---- deleting and restoring -----------------------------------------

    method Delete(asset: Id) returns (deleted: bool)
      modifies this`assets
      ensures deleted <==> asset in old(assets) && old(assets)[asset].until == None && !old(assets)[asset].withheld
      ensures assets == if deleted then old(assets)[asset := old(assets)[asset].(until := Some(now + 30 * 24 * 3600))]
                        else old(assets)
      ensures State() == Apply(config, old(State()), DeleteAsset(asset))
    {
      if asset !in assets || assets[asset].until.Some? || assets[asset].withheld { return false; }
      assets := assets[asset := assets[asset].(until := Some(now + RECOVERY_WINDOW))];
      return true;
    }

    method Restore(asset: Id) returns (restored: bool)
      modifies this`assets
      ensures restored <==> asset in old(assets) && old(assets)[asset].until.Some? && old(assets)[asset].until.value > now
      ensures assets == if restored then old(assets)[asset := old(assets)[asset].(until := None)] else old(assets)
      ensures State() == Apply(config, old(State()), RestoreAsset(asset))
    {
      if asset !in assets || assets[asset].until.None? || assets[asset].until.value <= now { return false; }
      assets := assets[asset := assets[asset].(until := None)];
      return true;
    }

    // ---- sweeping -------------------------------------------------------

    /** The marks with one more for each blob that is unreferenced and unmarked. */
    method MarksAt(at: Time) returns (found: map<Id, Time>)
      ensures found == Unmarked(State(), at)
      ensures forall b :: b in found <==> b in marks || (b in blobs && !LiveReference(State(), b, at))
      ensures forall b | b in found :: found[b] == if b in marks then marks[b] else at
    {
      hide LiveReference;
      found := marks;
      var left := blobs.Keys;
      while left != {}
        invariant left <= blobs.Keys
        invariant forall b | b in marks :: b in found && found[b] == marks[b]
        invariant forall b | b in found && b !in marks :: b in blobs && b !in left && found[b] == at
        invariant forall b | b in blobs && b !in left && b !in marks :: b in found <==> !LiveReference(State(), b, at)
        decreases left
      {
        var b :| b in left;
        left := left - {b};
        if b in marks { continue; }
        var live := HasLiveReference(b, at);
        if !live { found := found[b := at]; }
      }
    }

    method Mark(at: Time)
      requires at <= now
      modifies this`marks
      ensures State() == Apply(config, old(State()), MarkUnreferenced(at))
      ensures forall b :: b in marks <==> b in old(marks) || (b in blobs && !LiveReference(old(State()), b, at))
      ensures forall b | b in marks :: marks[b] == if b in old(marks) then old(marks)[b] else at
    {
      hide Unmarked;
      marks := MarksAt(at);
    }

    /** The first transaction: rechecks the mark and lets expired rows go. */
    method PrepareMarked(blob: Id, at: Time) returns (ready: bool)
      requires at <= now
      modifies this
      ensures State() == Apply(config, old(State()), Prepare(blob, at))
      ensures ready <==> Swept(old(State()), blob, at) && !LiveReference(old(State()), blob, at)
      ensures ready ==> (blob, at) in prepared
      ensures blobs == old(blobs)
      ensures marks == if Swept(old(State()), blob, at) && !ready then old(marks) - {blob} else old(marks)
      ensures rows.Keys == old(rows).Keys
      ensures forall r | r in rows ::
        rows[r] == if ready && old(rows)[r].held == At(blob) && old(rows)[r].asset in assets
                      && assets[old(rows)[r].asset].until.Some? && assets[old(rows)[r].asset].until.value <= at
                   then old(rows)[r].(held := Released) else old(rows)[r]
    {
      hide LiveReference;
      if blob !in blobs || blob !in marks || marks[blob] > at - SWEEP_DELAY { return false; }
      var live := HasLiveReference(blob, at);
      if live {
        marks := marks - {blob};
        return false;
      }
      rows := map r | r in rows ::
        if rows[r].held == At(blob) && rows[r].asset in assets && !Restorable(assets[rows[r].asset], at)
        then rows[r].(held := Released) else rows[r];
      prepared := prepared + {(blob, at)};
      return true;
    }

    /** Both transactions for one candidate, with nothing in between. */
    method DeleteCandidate(blob: Id, at: Time) returns (deleted: bool, ghost events: seq<Event>)
      requires at <= now
      modifies this
      ensures State() == Run(config, old(State()), events)
      ensures events == [Prepare(blob, at)] || events == [Prepare(blob, at), DeleteMarked(blob, at)]
      ensures deleted ==> blob in old(blobs) && blobs == old(blobs) - {blob}
      ensures !deleted ==> blobs == old(blobs)
      ensures forall b | b in marks :: b in old(marks) && marks[b] == old(marks)[b]
      ensures deleted <==> Swept(old(State()), blob, at) && !LiveReference(old(State()), blob, at)
      ensures Beside(old(State()), State(), blob, at)
    {
      hide LiveReference;
      hide Run;
      hide Apply;
      hide Beside;
      ghost var s := State();
      PrepareBeside(config, s, blob, at);
      var ready := PrepareMarked(blob, at);
      events := [Prepare(blob, at)];
      RunOne(config, s, Prepare(blob, at));
      if !ready { return false, events; }
      ghost var t := State();
      events := [Prepare(blob, at), DeleteMarked(blob, at)];
      RunTwo(config, s, Prepare(blob, at), DeleteMarked(blob, at));
      StillUnreferenced(config, s, blob, at);
      DeleteBeside(config, t, blob, at);
      DeletesIs(config, t, blob, at);
      BesideBoth(s, t, Apply(config, t, DeleteMarked(blob, at)), blob, at);
      var live := HasLiveReference(blob, at);
      if live { assert false; }
      blobs := blobs - {blob};
      marks := marks - {blob};
      return true, events;
    }

    /** One whole sweep under the clock reading it starts with: afterwards every
        blob that was marked a day ago and is not referenced is gone. */
    method Sweep() returns (deleted: nat, ghost events: seq<Event>)
      modifies this
      ensures State() == Run(config, old(State()), events)
      ensures now == old(now) && assets == old(assets) && ops == old(ops)
      ensures forall b | b in old(blobs) && b in blobs && Swept(old(State()), b, now) :: LiveReference(old(State()), b, now)
      ensures blobs.Keys <= old(blobs).Keys && tombstones == old(tombstones)
      ensures forall b | b in old(blobs) && b !in blobs ::
        b in tombstones || (Swept(old(State()), b, now) && !LiveReference(old(State()), b, now))
    {
      hide LiveReference;
      hide Apply;
      hide Swept;
      var at := now;
      ghost var s := State();
      events := ResumePurges();
      ghost var resumed := State();
      Mark(at);
      ghost var marked := State();
      MarkBeside(config, resumed, at);
      RunOne(config, resumed, MarkUnreferenced(at));
      RunJoins(config, s, events, [MarkUnreferenced(at)]);
      events := events + [MarkUnreferenced(at)];
      var left := set b | b in marks && marks[b] <= at - SWEEP_DELAY;
      LiveAlike(s, resumed, at);
      SweepingBegins(s, resumed, marked, left, at);
      hide Sweeping;
      deleted := 0;
      while left != {}
        invariant now == at && assets == old(assets) && ops == old(ops) && tombstones == old(tombstones)
        invariant State() == Run(config, s, events)
        invariant Sweeping(s, State(), left, at)
        decreases left
      {
        var b :| b in left;
        ghost var before := State();
        var gone: bool;
        ghost var step: seq<Event>;
        gone, step := DeleteCandidate(b, at);
        SweepingOn(s, before, State(), left, b, at);
        left := left - {b};
        RunJoins(config, s, events, step);
        events := events + step;
        if gone { deleted := deleted + 1; }
      }
      SweepingEnds(s, State(), at);
    }

    // ---- purging --------------------------------------------------------

    /** Records a purge and breaks every reference to the bytes. */
    method BeginPurge(blob: Id) returns (found: bool)
      modifies this`tombstones, this`ops, this`rows
      ensures found <==> blob in blobs
      ensures found ==>
        && blob in tombstones && rows.Keys == old(rows).Keys && ops.Keys == old(ops).Keys
        && (forall r | r in rows :: rows[r] == if old(rows)[r].held == At(blob) then old(rows)[r].(held := Purged) else old(rows)[r])
        && (forall o | o in ops ::
              ops[o] == if old(ops)[o].blob == Some(blob) && old(ops)[o].status != Success
                        then old(ops)[o].(status := Failed, blob := None, token := None) else old(ops)[o])
      ensures State() == Apply(config, old(State()), PreparePurge(blob))
    {
      PurgeIs(config, State(), blob);
      hide Apply;
      if blob !in blobs { return false; }
      tombstones := tombstones + {blob};
      ops := map o | o in ops :: PurgeOp(ops[o], blob);
      rows := map r | r in rows :: PurgeRow(rows[r], blob);
      hide PurgeOp;
      hide PurgeRow;
      return true;
    }

    /** Deletes the bytes of a purged blob; a reference still naming them stops it. */
    method EndPurge(blob: Id) returns (deleted: bool)
      modifies this`blobs, this`marks
      ensures deleted <==>
        && blob in tombstones && blob in old(blobs)
        && (forall o | o in ops :: ops[o].blob != Some(blob)) && forall r | r in rows :: rows[r].held != At(blob)
      ensures blobs == (if deleted then old(blobs) - {blob} else old(blobs))
      ensures State() == Apply(config, old(State()), DeletePurged(blob))
    {
      if blob !in tombstones || blob !in blobs { return false; }
      var named := (exists o | o in ops :: ops[o].blob == Some(blob)) || (exists r | r in rows :: rows[r].held == At(blob));
      if named { return false; }
      blobs := blobs - {blob};
      marks := marks - {blob};
      return true;
    }

    /** Finishes purges that were interrupted. */
    method ResumePurges() returns (ghost events: seq<Event>)
      modifies this
      ensures State() == Run(config, old(State()), events)
      ensures now == old(now) && assets == old(assets) && ops == old(ops) && rows == old(rows)
      ensures blobs.Keys <= old(blobs).Keys && tombstones == old(tombstones)
      ensures forall b | b in old(blobs) && b !in blobs :: b in tombstones
      ensures forall b | b in blobs :: b in marks <==> b in old(marks)
      ensures forall b | b in marks :: b in old(marks) && marks[b] == old(marks)[b]
      ensures forall b | b in blobs && b in tombstones :: Named(State(), b)
    {
      hide Named;
      hide Apply;
      ghost var s := State();
      events := [];
      var left := set b | b in tombstones && b in blobs;
      while left != {}
        invariant now == old(now) && assets == old(assets) && ops == old(ops) && rows == old(rows)
        invariant tombstones == old(tombstones)
        invariant State() == Run(config, s, events)
        invariant blobs.Keys <= s.blobs.Keys && forall b | b in s.blobs && b !in blobs :: b in tombstones
        invariant forall b | b in blobs :: b in marks <==> b in s.marks
        invariant forall b | b in marks :: b in s.marks && marks[b] == s.marks[b]
        invariant forall b | b in blobs && b in tombstones && b !in left :: Named(State(), b)
        decreases left
      {
        var b :| b in left;
        left := left - {b};
        ghost var before := State();
        EndPurgeIs(config, before, b);
        var gone := EndPurge(b);
        NamedAlike(before, State());
        RunOne(config, before, DeletePurged(b));
        RunJoins(config, s, events, [DeletePurged(b)]);
        events := events + [DeletePurged(b)];
      }
    }
  }

  lemma {:induction false} PurgeIs(c: Config, s: State, blob: Id)
    ensures Apply(c, s, PreparePurge(blob)) ==
      if blob !in s.blobs then s
      else s.(tombstones := s.tombstones + {blob}, rows := map r | r in s.rows :: PurgeRow(s.rows[r], blob),
              ops := map o | o in s.ops :: PurgeOp(s.ops[o], blob))
  {
  }

  lemma {:induction false} EndPurgeIs(c: Config, s: State, blob: Id)
    ensures Allowed(c, s, DeletePurged(blob)) <==> blob in s.tombstones && blob in s.blobs && !Named(s, blob)
    ensures Apply(c, s, DeletePurged(blob)) ==
      if blob in s.tombstones && blob in s.blobs && !Named(s, blob)
      then s.(blobs := s.blobs - {blob}, marks := s.marks - {blob}) else s
  {
    hide Named;
  }

  lemma {:induction false} NamedAlike(s: State, t: State)
    requires s.ops == t.ops && s.rows == t.rows
    ensures forall b :: Named(s, b) == Named(t, b)
  {
  }

  /** What handling one candidate leaves alone. */
  ghost predicate Beside(s: State, t: State, blob: Id, at: Time) {
    && t.now == s.now && t.assets == s.assets && t.ops == s.ops && t.tombstones == s.tombstones
    && (forall b :: LiveReference(t, b, at) == LiveReference(s, b, at))
    && (forall b | b != blob :: Swept(s, b, at) == Swept(t, b, at))
  }

  lemma {:induction false} PrepareBeside(c: Config, s: State, blob: Id, at: Time)
    ensures Beside(s, Apply(c, s, Prepare(blob, at)), blob, at)
  {
    var t := Apply(c, s, Prepare(blob, at));
    assert t.ops == s.ops && t.assets == s.assets;
    forall b ensures LiveReference(t, b, at) == LiveReference(s, b, at) {
      if r :| r in s.rows && s.rows[r].held == At(b) && RowRestorable(s, s.rows[r], at) {
        assert t.rows[r] == s.rows[r];
      }
      if r :| r in t.rows && t.rows[r].held == At(b) && RowRestorable(t, t.rows[r], at) {
        assert s.rows[r] == t.rows[r];
      }
    }
  }

  lemma {:induction false} DeleteBeside(c: Config, s: State, blob: Id, at: Time)
    ensures Beside(s, Apply(c, s, DeleteMarked(blob, at)), blob, at)
  {
    var t := Apply(c, s, DeleteMarked(blob, at));
    assert t.ops == s.ops && t.assets == s.assets && t.rows == s.rows;
    forall b ensures LiveReference(t, b, at) == LiveReference(s, b, at) {}
  }

  lemma {:induction false} DeletesIs(c: Config, s: State, blob: Id, at: Time)
    requires (blob, at) in s.prepared && Swept(s, blob, at) && !LiveReference(s, blob, at)
    ensures Apply(c, s, DeleteMarked(blob, at)) == s.(blobs := s.blobs - {blob}, marks := s.marks - {blob})
  {
    hide LiveReference;
  }

  lemma {:induction false} BesideBoth(s: State, t: State, u: State, blob: Id, at: Time)
    requires Beside(s, t, blob, at) && Beside(t, u, blob, at)
    ensures Beside(s, u, blob, at)
  {
    hide LiveReference;
    hide Swept;
  }

  lemma {:induction false} MarkBeside(c: Config, s: State, at: Time)
    requires at <= s.now
    ensures var t := Apply(c, s, MarkUnreferenced(at));
      && t.rows == s.rows && t.ops == s.ops && t.assets == s.assets && t.blobs == s.blobs && t.now == s.now
      && t.tombstones == s.tombstones
      && (forall b :: LiveReference(t, b, at) == LiveReference(s, b, at))
      && (forall b :: Swept(t, b, at) == Swept(s, b, at))
      && (forall b | Swept(t, b, at) :: t.marks[b] == s.marks[b])
  {
    hide LiveReference;
    var t := Apply(c, s, MarkUnreferenced(at));
    LiveAlike(s, t, at);
    assert t.marks == Unmarked(s, at);
    forall b ensures Swept(t, b, at) == Swept(s, b, at) && (Swept(t, b, at) ==> t.marks[b] == s.marks[b]) {}
  }

  /** Part of the way through a sweep that began at s: what is gone had to go, and of
      what is still to be looked at nothing has changed. */
  ghost predicate Sweeping(s: State, t: State, left: set<Id>, at: Time) {
    && t.blobs.Keys <= s.blobs.Keys && t.tombstones == s.tombstones
    && (forall b :: LiveReference(t, b, at) == LiveReference(s, b, at))
    && (forall b | b in t.blobs && Swept(s, b, at) && b !in left :: LiveReference(s, b, at))
    && (forall b | b in left && b in t.blobs && Swept(s, b, at) :: Swept(t, b, at))
    && (forall b | b in t.blobs && Swept(t, b, at) :: Swept(s, b, at))
    && (forall b | b in s.blobs && b !in t.blobs :: b in s.tombstones || (Swept(s, b, at) && !LiveReference(s, b, at)))
  }

  lemma {:induction false} SweepingBegins(s: State, resumed: State, marked: State, left: set<Id>, at: Time)
    requires resumed.blobs.Keys <= s.blobs.Keys && resumed.tombstones == s.tombstones
    requires forall b | b in s.blobs && b !in resumed.blobs :: b in s.tombstones
    requires forall b | b in resumed.blobs :: b in resumed.marks <==> b in s.marks
    requires forall b | b in resumed.marks :: b in s.marks && resumed.marks[b] == s.marks[b]
    requires forall b :: LiveReference(resumed, b, at) == LiveReference(s, b, at)
    requires forall b :: LiveReference(marked, b, at) == LiveReference(resumed, b, at)
    requires forall b :: Swept(marked, b, at) == Swept(resumed, b, at)
    requires marked.blobs == resumed.blobs && marked.tombstones == resumed.tombstones
    requires forall b :: b in left <==> b in marked.marks && marked.marks[b] <= at - SWEEP_DELAY
    ensures Sweeping(s, marked, left, at)
  {
    hide LiveReference;
    forall b | b in marked.blobs ensures Swept(marked, b, at) <==> Swept(s, b, at) { assert Swept(marked, b, at) == Swept(resumed, b, at); }
    forall b | b in marked.blobs && Swept(s, b, at) ensures b in left { assert Swept(marked, b, at); }
    hide Swept;
  }

  lemma {:induction false} SweepingOn(s: State, t: State, u: State, left: set<Id>, b: Id, at: Time)
    requires Sweeping(s, t, left, at) && Beside(t, u, b, at) && b in left
    requires u.blobs == if Swept(t, b, at) && !LiveReference(t, b, at) then t.blobs - {b} else t.blobs
    requires forall m | m in u.marks :: m in t.marks && u.marks[m] == t.marks[m]
    ensures Sweeping(s, u, left - {b}, at)
  {
    hide LiveReference;
    assert u.tombstones == t.tombstones && forall m :: LiveReference(u, m, at) == LiveReference(t, m, at);
    forall m | m in u.blobs && Swept(u, m, at) ensures Swept(t, m, at) {}
    forall m | m != b ensures Swept(u, m, at) == Swept(t, m, at) {}
    hide Swept;
  }

  lemma {:induction false} SweepingEnds(s: State, t: State, at: Time)
    requires Sweeping(s, t, {}, at)
    ensures forall b | b in t.blobs && Swept(s, b, at) :: LiveReference(s, b, at)
    ensures t.blobs.Keys <= s.blobs.Keys
    ensures forall b | b in s.blobs && b !in t.blobs :: b in s.tombstones || (Swept(s, b, at) && !LiveReference(s, b, at))
  {
    hide LiveReference;
    hide Swept;
  }

  lemma {:induction false} LiveAlike(s: State, t: State, at: Time)
    requires s.rows == t.rows && s.ops == t.ops && s.assets == t.assets
    ensures forall b :: LiveReference(t, b, at) == LiveReference(s, b, at)
  {
  }

  lemma {:induction false} OnePast(numbers: set<nat>, n: nat)
    requires n > 0 && (forall x | x in numbers :: x < n) && (n == 1 || n - 1 in numbers)
    ensures n == Above(numbers)
  {
    AboveIs(numbers);
  }

  lemma {:induction false} AboveIs(numbers: set<nat>)
    ensures Above(numbers) == 1 || Above(numbers) - 1 in numbers
    decreases numbers
  {
    if numbers != {} {
      var x :| x in numbers && Above(numbers) ==
        (if x < Above(numbers - {x}) then Above(numbers - {x}) else x + 1);
      AboveIs(numbers - {x});
    }
  }

  /** Letting expired rows go leaves nothing that was not already dead. */
  lemma {:induction false} StillUnreferenced(c: Config, s: State, blob: Id, at: Time)
    requires at <= s.now && Swept(s, blob, at) && !LiveReference(s, blob, at)
    ensures var t := Apply(c, s, Prepare(blob, at));
      && !LiveReference(t, blob, at) && Swept(t, blob, at) && (blob, at) in t.prepared
      && t.blobs == s.blobs && t.marks == s.marks
  {
    var t := Apply(c, s, Prepare(blob, at));
    assert t.ops == s.ops && t.assets == s.assets;
    forall r | r in t.rows && t.rows[r].held == At(blob) ensures s.rows[r].held == At(blob) {}
  }
}
