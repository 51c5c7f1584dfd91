/** What a finished import writes, and that it stays. */
module StoreExact {
  import opened Sequences
  import opened StoreState
  import opened StoreInvariant
  import opened StoreRuns

  // ---- a finished import --------------------------------------------------

  /** A finished import: its operation has ended with the asset it made or revised;
      there is one new revision, numbered past all others and holding the uploaded
      bytes, and one new picture for each it brought, holding that picture's bytes;
      and nothing else has changed. */
  ghost predicate Finalized(s: State, t: State, o: Id, asset: Id, row: Id, media: map<Id, Id>) {
    && o in s.ops && s.ops[o].blob.Some? && o in t.ops
    && t.rows.Keys == s.rows.Keys + media.Keys + {row} && row !in s.rows && row !in media && media.Keys !! s.rows.Keys
    && (forall r | r in s.rows :: t.rows[r] == s.rows[r])
    && t.rows[row].asset == asset && t.rows[row].held == At(s.ops[o].blob.value) && t.rows[row].maker == Some(o)
    && t.rows[row].number > 0 && (forall r | r in s.rows && s.rows[r].asset == asset :: s.rows[r].number < t.rows[row].number)
    && (forall m | m in media ::
          t.rows[m].asset == asset && t.rows[m].held == At(media[m]) && t.rows[m].number == 0 && t.rows[m].maker == None)
    && (forall p | p in t.ops && p != o :: p in s.ops && t.ops[p] == s.ops[p]) && s.ops.Keys <= t.ops.Keys
    && t.ops[o].status == Success && t.ops[o].result == Some(asset) && t.ops[o].blob == None && t.ops[o].token == None
    && t.ops[o].owner == s.ops[o].owner && t.ops[o].target == s.ops[o].target
    && (match s.ops[o].target
        case None => asset !in s.assets && t.assets == s.assets[asset := AssetRow(s.ops[o].owner, None, false, Some(o))]
        case Some(target) => asset == target && t.assets == s.assets)
    && t.blobs == s.blobs && t.marks == s.marks && t.tombstones == s.tombstones && t.now == s.now
  }

  lemma {:induction false} FinalizeWrites(c: Config, s: State, e: Event)
    requires e.Finalize? && Allowed(c, s, e)
    ensures Finalized(s, Effect(c, s, e), s.leases[e.token].op, e.asset, e.row, e.media)
  {
    WrittenRows(s, s.leases[e.token].op, e.asset, e.row, e.media);
    var n := NextNumber(s.rows, e.asset);
    hide Written;
    hide HasRoom;
    hide NextNumber;
    hide Editable;
  }

  lemma {:induction false} FinalizeHolds(c: Config, s: State, e: Event)
    requires e.Finalize? && Allowed(c, s, e)
    ensures e.token in s.leases && s.leases[e.token].op in s.ops && s.ops[s.leases[e.token].op].blob.Some?
  {
    hide HasRoom;
    hide Editable;
  }

  lemma {:induction false} FinalizeOutcome(c: Config, s: State, e: Event)
    requires e.Finalize?
    ensures if Allowed(c, s, e) then Finalized(s, Apply(c, s, e), s.leases[e.token].op, e.asset, e.row, e.media)
            else Apply(c, s, e) == s
  {
    hide Finalized;
    hide Effect;
    if Allowed(c, s, e) { FinalizeWrites(c, s, e); }
    hide Allowed;
  }

  // ---- rows stay ----------------------------------------------------------

  /** A row that held a blob is there, of the same asset, and holds the same blob
      unless it was let go or purged. */
  ghost predicate HoldsStill(t: State, r: Id, asset: Id, blob: Id) {
    r in t.rows && t.rows[r].asset == asset && t.rows[r].held in {At(blob), Released, Purged}
  }

  lemma {:induction false} StepHolds(c: Config, s: State, e: Event, r: Id, asset: Id, blob: Id)
    requires HoldsStill(s, r, asset, blob)
    ensures HoldsStill(Apply(c, s, e), r, asset, blob)
    ensures Apply(c, s, e).rows[r].held == Purged ==> s.rows[r].held == Purged || e == PreparePurge(blob)
  {
    if e.Finalize? && Allowed(c, s, e) {
      FinalizeWrites(c, s, e);
      hide Effect;
      hide Allowed;
    } else {
      hide HasRoom;
      hide Written;
      hide NextNumber;
      hide Unmarked;
      hide LiveReference;
      hide Named;
      hide Swept;
      hide Editable;
      hide Holds;
      hide Due;
    }
  }

  lemma {:induction false} RunHolds(c: Config, s: State, events: seq<Event>, r: Id, asset: Id, blob: Id)
    requires HoldsStill(s, r, asset, blob)
    ensures HoldsStill(Run(c, s, events), r, asset, blob)
    ensures Run(c, s, events).rows[r].held == Purged ==> s.rows[r].held == Purged || PreparePurge(blob) in events
    decreases |events|
  {
    if events != [] {
      StepHolds(c, s, events[0], r, asset, blob);
      hide Apply;
      hide HoldsStill;
      RunHolds(c, Apply(c, s, events[0]), events[1..], r, asset, blob);
    }
  }

  /** Whatever row holds a blob holds it after any run, and the blob is there, as long
      as the row's asset can be restored and nobody purged the blob. */
  lemma {:induction false} RowsKeepTheirBytes(c: Config, s: State, events: seq<Event>, r: Id, blob: Id)
    requires StoreOk(c, s) && r in s.rows && s.rows[r].held == At(blob)
    ensures var t := Run(c, s, events);
      && r in t.rows && t.rows[r].asset == s.rows[r].asset
      && (RowRestorable(t, t.rows[r], t.now) && PreparePurge(blob) !in events ==>
            t.rows[r].held == At(blob) && blob in t.blobs)
  {
    hide StoreOk;
    hide Run;
    hide RowRestorable;
    RunHolds(c, s, events, r, s.rows[r].asset, blob);
    RestorableKeepsBytes(c, s, events, r);
  }

  /** The row is there, of that asset; and while the asset can be restored and nobody
      purged them, it names those bytes and they are there. */
  ghost predicate StillHas(t: State, asset: Id, r: Id, blob: Id, purged: bool) {
    && r in t.rows && t.rows[r].asset == asset
    && (asset in t.assets && Restorable(t.assets[asset], t.now) && !purged ==> t.rows[r].held == At(blob) && blob in t.blobs)
  }

  /** From a finished import on, through any run, its revision still has the uploaded
      bytes and each picture its own. */
  lemma {:induction false} ImportsStay(c: Config, s: State, e: Event, events: seq<Event>)
    requires StoreOk(c, s) && e.Finalize? && Allowed(c, s, e)
    ensures var op := s.ops[s.leases[e.token].op];
      var t := Run(c, Effect(c, s, e), events);
      && op.blob.Some?
      && StillHas(t, e.asset, e.row, op.blob.value, PreparePurge(op.blob.value) in events)
      && forall m | m in e.media :: StillHas(t, e.asset, m, e.media[m], PreparePurge(e.media[m]) in events)
  {
    FinalizeHolds(c, s, e);
    var o := s.leases[e.token].op;
    var next := Effect(c, s, e);
    assert next == Apply(c, s, e);
    hide *;
    FinalizeWrites(c, s, e);
    StepKeeps(c, s, e);
    FinalizedRows(s, next, o, e.asset, e.row, e.media);
    RowStays(c, next, events, e.row, e.asset, s.ops[o].blob.value);
    forall m | m in e.media ensures StillHas(Run(c, next, events), e.asset, m, e.media[m], PreparePurge(e.media[m]) in events) {
      RowStays(c, next, events, m, e.asset, e.media[m]);
    }
  }

  lemma {:induction false} FinalizedRows(s: State, t: State, o: Id, asset: Id, row: Id, media: map<Id, Id>)
    requires Finalized(s, t, o, asset, row, media)
    ensures o in s.ops && s.ops[o].blob.Some?
    ensures row in t.rows && t.rows[row].asset == asset && t.rows[row].held == At(s.ops[o].blob.value)
    ensures forall m | m in media :: m in t.rows && t.rows[m].asset == asset && t.rows[m].held == At(media[m])
  {
  }

  lemma {:induction false} RowStays(c: Config, s: State, events: seq<Event>, r: Id, asset: Id, blob: Id)
    requires StoreOk(c, s) && r in s.rows && s.rows[r].held == At(blob) && s.rows[r].asset == asset
    ensures StillHas(Run(c, s, events), asset, r, blob, PreparePurge(blob) in events)
  {
    hide StoreOk;
    hide Run;
    RowsKeepTheirBytes(c, s, events, r, blob);
  }

  // ---- what is uploaded is what is kept -----------------------------------

  /** An operation that was given a blob has it while it is worked on, and what it made
      holds that blob, unless it was let go or purged. */
  ghost predicate Carries(s: State, o: Id, blob: Id) {
    && o in s.ops && (s.ops[o].blob.Some? ==> s.ops[o].blob.value == blob)
    && (Working(s.ops[o]) ==> s.ops[o].blob == Some(blob))
    && forall r | r in s.rows && s.rows[r].maker == Some(o) :: s.rows[r].held in {At(blob), Released, Purged}
  }

  lemma {:induction false} StepCarries(c: Config, s: State, e: Event, o: Id, blob: Id)
    requires Carries(s, o, blob)
    ensures Carries(Apply(c, s, e), o, blob)
    ensures Apply(c, s, e).ops[o].owner == s.ops[o].owner && Apply(c, s, e).ops[o].target == s.ops[o].target
  {
    if e.Finalize? && Allowed(c, s, e) {
      hide Effect;
      hide Allowed;
      FinalizeWrites(c, s, e);
      FinalizedCarries(s, Effect(c, s, e), s.leases[e.token].op, e.asset, e.row, e.media, o, blob);
      hide Finalized;
      hide Carries;
    } else {
      hide Apply;
      CarriesOn(c, s, e, o, blob);
    }
  }

  lemma {:induction false} FinalizedCarries(s: State, t: State, p: Id, asset: Id, row: Id, media: map<Id, Id>, o: Id, blob: Id)
    requires Finalized(s, t, p, asset, row, media) && Carries(s, o, blob)
    ensures Carries(t, o, blob) && t.ops[o].owner == s.ops[o].owner && t.ops[o].target == s.ops[o].target
  {
  }

  lemma {:induction false} CarriesOn(c: Config, s: State, e: Event, o: Id, blob: Id)
    requires Carries(s, o, blob) && (e.Finalize? ==> !Allowed(c, s, e))
    ensures Carries(Apply(c, s, e), o, blob)
    ensures Apply(c, s, e).ops[o].owner == s.ops[o].owner && Apply(c, s, e).ops[o].target == s.ops[o].target
  {
    hide HasRoom;
    hide Written;
    hide NextNumber;
    hide Unmarked;
    hide LiveReference;
    hide Named;
    hide Swept;
    hide Editable;
    hide Delay;
  }

  /** Whatever runs, the owner and target of an operation stay as they were accepted,
      and the revision it makes is of the bytes it was accepted with. */
  lemma {:induction false} UploadsBecomeRevisions(c: Config, s: State, events: seq<Event>, o: Id, blob: Id)
    requires Carries(s, o, blob)
    ensures var t := Run(c, s, events);
      && Carries(t, o, blob) && t.ops[o].owner == s.ops[o].owner && t.ops[o].target == s.ops[o].target
    decreases |events|
  {
    if events != [] {
      StepCarries(c, s, events[0], o, blob);
      hide Apply;
      hide Carries;
      UploadsBecomeRevisions(c, Apply(c, s, events[0]), events[1..], o, blob);
    }
  }

  /** Accepting an upload or a revision gives the operation its blob. */
  lemma {:induction false} AcceptCarries(c: Config, s: State, e: Event)
    requires StoreOk(c, s) && Allowed(c, s, e) && (e.AcceptIngest? || e.AcceptRevision?)
    ensures var t := Effect(c, s, e);
      && Carries(t, e.op, e.blob) && t.ops[e.op].status == Pending && t.ops[e.op].owner == e.owner
      && t.ops[e.op].target == (if e.AcceptRevision? then Some(e.target) else None)
  {
    hide HasRoom;
    hide OpsOk;
    hide RefsOk;
    hide NumbersOk;
  }
}
