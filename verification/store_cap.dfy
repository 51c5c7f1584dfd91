/** The account storage cap holds over every run. */
module StoreCap {
  import opened Sequences
  import opened StoreState
  import opened StoreInvariant

  // ---- sums over sets -----------------------------------------------------

  function SizeOf(sizes: map<Id, nat>, b: Id): nat { if b in sizes then sizes[b] else 0 }

  lemma {:induction false} BytesWithout(sizes: map<Id, nat>, blobs: set<Id>, x: Id)
    requires x in blobs
    ensures Bytes(sizes, blobs) == SizeOf(sizes, x) + Bytes(sizes, blobs - {x})
    decreases blobs
  {
    var b :| b in blobs && Bytes(sizes, blobs) == SizeOf(sizes, b) + Bytes(sizes, blobs - {b});
    if b != x {
      BytesWithout(sizes, blobs - {b}, x);
      BytesWithout(sizes, blobs - {x}, b);
      assert blobs - {b} - {x} == blobs - {x} - {b};
    }
  }

  lemma {:induction false} BytesUnion(sizes: map<Id, nat>, a: set<Id>, b: set<Id>)
    requires a !! b
    ensures Bytes(sizes, a + b) == Bytes(sizes, a) + Bytes(sizes, b)
    decreases a
  {
    if a == {} {
      assert a + b == b;
    } else {
      var x :| x in a;
      BytesUnion(sizes, a - {x}, b);
      BytesWithout(sizes, a, x);
      BytesWithout(sizes, a + b, x);
      assert a + b - {x} == (a - {x}) + b;
    }
  }

  lemma {:induction false} BytesWithin(sizes: map<Id, nat>, a: set<Id>, b: set<Id>)
    requires a <= b
    ensures Bytes(sizes, a) <= Bytes(sizes, b)
  {
    BytesUnion(sizes, a, b - a);
    assert a + (b - a) == b;
  }

  lemma {:induction false} BytesSame(s: map<Id, nat>, t: map<Id, nat>, blobs: set<Id>)
    requires forall b | b in blobs :: SizeOf(s, b) == SizeOf(t, b)
    ensures Bytes(s, blobs) == Bytes(t, blobs)
    decreases blobs
  {
    if blobs != {} {
      var x :| x in blobs;
      BytesWithout(s, blobs, x);
      BytesWithout(t, blobs, x);
      BytesSame(s, t, blobs - {x});
    }
  }

  // ---- the test -----------------------------------------------------------

  /** The test written with a subtraction says that the sum fits, and never
      subtracts past zero. */
  lemma {:induction false} CapTestIsExact(cap: int, used: nat, additional: nat)
    requires cap > 0
    ensures !PastCap(cap, used, additional) <==> additional == 0 || used + additional <= cap
    ensures additional <= cap ==> 0 <= cap - additional <= cap
  {
  }

  // ---- what a step may charge ---------------------------------------------

  /** The account a step checks, and what it checks it for. */
  ghost function Checked(s: State, e: Event): set<Id> {
    match e
    case AcceptIngest(_, _, blob) => {blob}
    case AcceptRevision(_, _, blob, _) => {blob}
    case AddMedia(_, _, _, blob) => {blob}
    case Finalize(token, _, _, media) =>
      if token in s.leases && s.leases[token].op in s.ops then BlobSet(s.ops[s.leases[token].op]) + media.Values
      else {}
    case _ => {}
  }

  ghost predicate ChecksFor(s: State, e: Event, owner: Id) {
    match e
    case AcceptIngest(_, o, _) => o == owner
    case AcceptRevision(_, o, _, _) => o == owner
    case AddMedia(_, o, _, _) => o == owner
    case Finalize(token, _, _, _) =>
      token in s.leases && s.leases[token].op in s.ops && s.ops[s.leases[token].op].owner == owner
    case _ => false
  }

  lemma {:induction false} FinalizeCharges(c: Config, s: State, e: Event, owner: Id, b: Id)
    requires Allowed(c, s, e) && e.Finalize? && RefsOk(s)
    requires ChargedFor(Effect(c, s, e), owner, b)
    ensures ChargedFor(s, owner, b) || (ChecksFor(s, e, owner) && b in Checked(s, e))
  {
    var t := Effect(c, s, e);
    var op := s.leases[e.token].op;
    WrittenRows(s, op, e.asset, e.row, e.media);
    hide Written;
    hide HasRoom;
    hide NextNumber;
    if o :| o in t.ops && t.ops[o].owner == owner && t.ops[o].blob == Some(b) && Working(t.ops[o]) {
      assert t.ops[o] == s.ops[o];
    } else {
      var r :| r in t.rows && t.rows[r].held == At(b) && RowRestorable(t, t.rows[r], t.now)
               && t.assets[t.rows[r].asset].owner == owner;
      if r in s.rows {
        assert t.rows[r] == s.rows[r] && s.rows[r].asset in s.assets;
      } else if r in e.media {
        assert b in e.media.Values;
      }
    }
  }

  lemma {:induction false} StepChargesOp(c: Config, s: State, e: Event, o: Id)
    requires Allowed(c, s, e) && !e.Finalize?
    requires o in Effect(c, s, e).ops && Effect(c, s, e).ops[o].blob.Some? && Working(Effect(c, s, e).ops[o])
    ensures var op := Effect(c, s, e).ops[o];
      || (o in s.ops && s.ops[o].owner == op.owner && s.ops[o].blob == op.blob && Working(s.ops[o]))
      || (ChecksFor(s, e, op.owner) && op.blob.value in Checked(s, e))
  {
    hide HasRoom;
    hide Swept;
    hide Unmarked;
    hide LiveReference;
    hide Named;
    hide ReleaseAll;
    hide Written;
    hide Editable;
  }

  lemma {:induction false} RowCharged(c: Config, s: State, e: Event, r: Id)
    requires Allowed(c, s, e) && !e.Finalize? && !Aside(e) && RefsOk(s)
    requires r in Effect(c, s, e).rows && Effect(c, s, e).rows[r].held.At?
    requires RowRestorable(Effect(c, s, e), Effect(c, s, e).rows[r], Effect(c, s, e).now)
    ensures var t := Effect(c, s, e);
      var row := t.rows[r];
      || (r in s.rows && s.rows[r].held == row.held && RowRestorable(s, s.rows[r], s.now)
          && s.assets[s.rows[r].asset].owner == t.assets[row.asset].owner)
      || (ChecksFor(s, e, t.assets[row.asset].owner) && row.held.blob in Checked(s, e))
  {
    hide HasRoom;
    hide Swept;
    hide Unmarked;
    hide LiveReference;
    hide Named;
    hide Written;
    hide Due;
    hide Holds;
  }

  lemma {:induction false} StepChargesRow(c: Config, s: State, e: Event, r: Id)
    requires Allowed(c, s, e) && !e.Finalize? && RefsOk(s)
    requires r in Effect(c, s, e).rows && Effect(c, s, e).rows[r].held.At?
    requires RowRestorable(Effect(c, s, e), Effect(c, s, e).rows[r], Effect(c, s, e).now)
    ensures var t := Effect(c, s, e);
      var row := t.rows[r];
      || (r in s.rows && s.rows[r].held == row.held && RowRestorable(s, s.rows[r], s.now)
          && s.assets[s.rows[r].asset].owner == t.assets[row.asset].owner)
      || (ChecksFor(s, e, t.assets[row.asset].owner) && row.held.blob in Checked(s, e))
  {
    hide Effect;
    hide Allowed;
    if Aside(e) { AsideIs(c, s, e); } else { RowCharged(c, s, e, r); }
  }

  lemma {:induction false} StepCharges(c: Config, s: State, e: Event, owner: Id, b: Id)
    requires Allowed(c, s, e) && !e.Finalize? && RefsOk(s)
    requires ChargedFor(Effect(c, s, e), owner, b)
    ensures ChargedFor(s, owner, b) || (ChecksFor(s, e, owner) && b in Checked(s, e))
  {
    var t := Effect(c, s, e);
    hide Effect;
    hide Allowed;
    hide ChecksFor;
    hide Checked;
    hide RefsOk;
    if o :| o in t.ops && t.ops[o].owner == owner && t.ops[o].blob == Some(b) && Working(t.ops[o]) {
      StepChargesOp(c, s, e, o);
    } else {
      var r :| r in t.rows && t.rows[r].held == At(b) && RowRestorable(t, t.rows[r], t.now)
               && t.assets[t.rows[r].asset].owner == owner;
      StepChargesRow(c, s, e, r);
    }
  }

  lemma {:induction false} SizesStay(c: Config, s: State, e: Event)
    requires Allowed(c, s, e)
    ensures forall b | b in s.blobs && b in Effect(c, s, e).blobs :: Effect(c, s, e).blobs[b] == s.blobs[b]
    ensures forall b | b in Effect(c, s, e).blobs && b !in s.blobs :: e.Put? && b == e.blob
  {
    hide HasRoom;
    hide Written;
    hide NextNumber;
    hide ReleaseAll;
    hide Unmarked;
    hide LiveReference;
    hide Named;
    hide Swept;
    hide Editable;
  }

  ghost predicate UnderCap(c: Config, s: State) {
    c.cap > 0 ==> forall owner :: Used(s, owner) <= c.cap
  }

  lemma {:induction false} NoneNamed(s: State, owner: Id, b: Id)
    requires RefsOk(s) && ChargedFor(s, owner, b)
    ensures b in s.blobs
  {
  }

  lemma {:induction false} ChargedStays(c: Config, s: State, e: Event, owner: Id, b: Id)
    requires Allowed(c, s, e) && RefsOk(s) && b in Charged(Effect(c, s, e), owner)
    ensures b in s.blobs
    ensures ChargedFor(s, owner, b) || (ChecksFor(s, e, owner) && b in Checked(s, e))
  {
    if e.Finalize? { FinalizeCharges(c, s, e, owner, b); } else { StepCharges(c, s, e, owner, b); }
    CheckedHere(c, s, e);
    hide *;
    if ChargedFor(s, owner, b) { NoneNamed(s, owner, b); }
  }

  lemma {:induction false} CheckedHere(c: Config, s: State, e: Event)
    requires Allowed(c, s, e)
    ensures Checked(s, e) <= s.blobs.Keys
    ensures forall owner | ChecksFor(s, e, owner) :: HasRoom(c, s, owner, Checked(s, e))
  {
    hide HasRoom;
    hide LiveReference;
    hide Named;
    hide Swept;
    hide Editable;
  }

  lemma {:induction false} FitsUnderCap(c: Config, s: State, owner: Id, candidates: set<Id>)
    requires c.cap > 0 && Used(s, owner) <= c.cap && HasRoom(c, s, owner, candidates)
    ensures Bytes(s.blobs, Charged(s, owner) + candidates) <= c.cap
  {
    var charged := Charged(s, owner);
    hide Charged;
    BytesUnion(s.blobs, charged, candidates - charged);
    assert charged + (candidates - charged) == charged + candidates;
    if candidates == {} { assert charged + candidates == charged; }
  }

  /** No step takes an account past the cap. */
  lemma {:induction false} KeepsCap(c: Config, s: State, e: Event)
    requires RefsOk(s) && UnderCap(c, s) && Allowed(c, s, e)
    ensures UnderCap(c, Effect(c, s, e))
  {
    if c.cap > 0 {
      forall owner ensures Used(Effect(c, s, e), owner) <= c.cap { KeepsCapFor(c, s, e, owner); }
    }
  }

  lemma {:induction false} KeepsCapFor(c: Config, s: State, e: Event, owner: Id)
    requires RefsOk(s) && c.cap > 0 && Used(s, owner) <= c.cap && Allowed(c, s, e)
    ensures Used(Effect(c, s, e), owner) <= c.cap
  {
    var t := Effect(c, s, e);
    var may := if ChecksFor(s, e, owner) then Checked(s, e) else {};
    CheckedHere(c, s, e);
    SizesStay(c, s, e);
    forall b | b in Charged(t, owner) ensures b in Charged(s, owner) + may && SizeOf(t.blobs, b) == SizeOf(s.blobs, b) {
      ChargedStays(c, s, e, owner, b);
    }
    if may == {} { assert HasRoom(c, s, owner, may); }
    hide Effect;
    hide Allowed;
    hide ChargedFor;
    BytesSame(t.blobs, s.blobs, Charged(t, owner));
    BytesWithin(s.blobs, Charged(t, owner), Charged(s, owner) + may);
    FitsUnderCap(c, s, owner, may);
  }
}
