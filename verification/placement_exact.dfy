/** When a placement succeeds, what it conserves, and the page it makes. */
module PlacementExact {
  import opened Sequences
  import opened Blocks
  import opened Catalog
  import opened PageRules
  import opened PageSteps
  import opened PageInvariant
  import opened Placement

  // ---- what filling slots keeps -------------------------------------------

  predicate SameKey(a: Element, b: Element) { a.role == b.role && a.typ == b.typ }

  /** No two elements ask for the same place. */
  ghost predicate Keyed(tagged: seq<Element>) {
    forall i, j | 0 <= i < j < |tagged| :: !SameKey(tagged[i], tagged[j])
  }

  ghost predicate Homed(slots: seq<DefinedElement>, e: Element) {
    exists k :: 0 <= k < |slots| && Matches(slots[k], e)
  }

  /** Where a placed element came from: a supplied one, or nowhere. */
  type Source = Option<nat>

  ghost predicate PinnedIn(done: seq<DefinedElement>, e: Element) {
    exists k :: 0 <= k < |done| && done[k].pinned && Matches(done[k], e)
  }

  ghost predicate Sourced(done: seq<DefinedElement>, tagged: seq<Element>, placed: seq<bool>, e: Element, src: Source) {
    match src
    case None => e.content == EmptyContent() && PinnedIn(done, e)
    case Some(i) =>
      && i < |tagged| == |placed| && placed[i]
      && SameKey(e, tagged[i]) && e.content == tagged[i].content
      && (tagged[i].id != NIL ==> e.id == tagged[i].id)
  }

  /** The supplied elements marked so far, each behind exactly one element. */
  ghost predicate Accounted(done: seq<DefinedElement>, tagged: seq<Element>, placed: seq<bool>,
                            es: seq<Element>, from: seq<Source>) {
    && |placed| == |tagged| && |from| == |es|
    && (forall i | 0 <= i < |tagged| :: placed[i] <==> Homed(done, tagged[i]))
    && (forall i, j | 0 <= i < j < |tagged| && placed[i] && placed[j] :: !SameKey(tagged[i], tagged[j]))
    && (forall m | 0 <= m < |es| :: Sourced(done, tagged, placed, es[m], from[m]))
    && (forall m, n | 0 <= m < n < |es| && from[m].Some? :: from[m] != from[n])
    && (forall i | 0 <= i < |tagged| && placed[i] :: Some(i) in from)
  }

  function NextFrom(defined: DefinedElement, tagged: seq<Element>, f: Filling, from: seq<Source>): seq<Source>
    requires |f.placed| == |tagged|
  {
    match Taken(defined, tagged, f.placed, |tagged|)
    case Several => from
    case Nobody => if defined.pinned then from + [None] else from
    case One(i) => from + [Some(i)]
  }

  lemma {:induction false} HomedMore(done: seq<DefinedElement>, defined: DefinedElement, e: Element)
    ensures Homed(done + [defined], e) <==> Homed(done, e) || Matches(defined, e)
  {
    if Homed(done, e) {
      var k :| 0 <= k < |done| && Matches(done[k], e);
      assert (done + [defined])[k] == done[k];
    }
    if Matches(defined, e) { assert (done + [defined])[|done|] == defined; }
  }

  lemma {:induction false} PinnedMore(done: seq<DefinedElement>, defined: DefinedElement, e: Element)
    requires PinnedIn(done, e)
    ensures PinnedIn(done + [defined], e)
  {
    var k :| 0 <= k < |done| && done[k].pinned && Matches(done[k], e);
    assert (done + [defined])[k] == done[k];
  }

  /** Two unmarked elements of one key cannot share a marked one's. */
  lemma {:induction false} MarkedKeys(done: seq<DefinedElement>, a: Element, b: Element)
    requires SameKey(a, b)
    ensures Homed(done, a) <==> Homed(done, b)
  {
    forall k | 0 <= k < |done| ensures Matches(done[k], a) <==> Matches(done[k], b) {}
  }

  /** What filling one slot does to the marks and the elements taken. */
  lemma {:induction false} FillOneIs(defined: DefinedElement, tagged: seq<Element>, mint: nat -> Id, f: Filling,
                                     from: seq<Source>)
    requires |f.placed| == |tagged| && FillOne(defined, tagged, mint, f).Some?
    ensures var g := FillOne(defined, tagged, mint, f).value;
      var next := NextFrom(defined, tagged, f, from);
      || (g.placed == f.placed && g.elements == f.elements && next == from
          && forall i | 0 <= i < |tagged| && Matches(defined, tagged[i]) :: f.placed[i])
      || (g.placed == f.placed && next == from + [None] && defined.pinned
          && (forall i | 0 <= i < |tagged| && Matches(defined, tagged[i]) :: f.placed[i])
          && exists id :: g.elements == f.elements + [EmptyElement(defined, id, UnknownSlot)])
      || (exists i, id ::
            && 0 <= i < |tagged| && !f.placed[i] && Matches(defined, tagged[i])
            && (forall j | 0 <= j < |tagged| && j != i && Matches(defined, tagged[j]) :: f.placed[j])
            && g.placed == f.placed[i := true] && next == from + [Some(i)]
            && g.elements == f.elements + [Adopted(tagged[i], defined, id)])
  {
    hide Adopted;
    hide Matches;
    var taken := Taken(defined, tagged, f.placed, |tagged|);
    assert forall i | 0 <= i < |tagged| :: Candidate(defined, tagged, f.placed, i) <==> !f.placed[i] && Matches(defined, tagged[i]);
    hide Taken;
    if taken.One? {
      var id := mint(f.minted);
      assert FillOne(defined, tagged, mint, f).value.elements == f.elements + [Adopted(tagged[taken.at], defined, id)];
    }
  }

  /** One slot more that takes nothing new. */
  lemma {:induction false} AccountNone(done: seq<DefinedElement>, defined: DefinedElement, tagged: seq<Element>,
      placed: seq<bool>, es: seq<Element>, from: seq<Source>)
    requires Accounted(done, tagged, placed, es, from)
    requires forall i | 0 <= i < |tagged| && Matches(defined, tagged[i]) :: placed[i]
    ensures Accounted(done + [defined], tagged, placed, es, from)
  {
    forall i | 0 <= i < |tagged| ensures placed[i] <==> Homed(done + [defined], tagged[i]) { HomedMore(done, defined, tagged[i]); }
    hide Homed;
    hide Matches;
    forall m | 0 <= m < |es| ensures Sourced(done + [defined], tagged, placed, es[m], from[m]) {
      assert Sourced(done, tagged, placed, es[m], from[m]);
      if from[m].None? { PinnedMore(done, defined, es[m]); }
    }
    hide Sourced;
  }

  /** A pinned slot filled with a new empty element. */
  lemma {:induction false} AccountPin(done: seq<DefinedElement>, defined: DefinedElement, tagged: seq<Element>,
      placed: seq<bool>, es: seq<Element>, from: seq<Source>, id: Id)
    requires Accounted(done, tagged, placed, es, from) && defined.pinned
    requires forall i | 0 <= i < |tagged| && Matches(defined, tagged[i]) :: placed[i]
    ensures Accounted(done + [defined], tagged, placed, es + [EmptyElement(defined, id, UnknownSlot)], from + [None])
  {
    AccountNone(done, defined, tagged, placed, es, from);
    var all, e := done + [defined], EmptyElement(defined, id, UnknownSlot);
    assert all[|done|] == defined && Matches(defined, e);
    assert PinnedIn(all, e);
    assert Sourced(all, tagged, placed, e, None);
    hide Sourced;
    hide Homed;
    hide PinnedIn;
    hide EmptyElement;
    var more := from + [None];
    assert forall i | Some(i) in from :: Some(i) in more;
  }

  /** A slot filled with the one supplied element that asks for it. */
  lemma {:induction false} AccountTaken(done: seq<DefinedElement>, defined: DefinedElement, tagged: seq<Element>,
      placed: seq<bool>, es: seq<Element>, from: seq<Source>, i: nat, id: Id)
    requires Accounted(done, tagged, placed, es, from) && i < |tagged| && !placed[i] && Matches(defined, tagged[i])
    requires forall j | 0 <= j < |tagged| && j != i && Matches(defined, tagged[j]) :: placed[j]
    ensures Accounted(done + [defined], tagged, placed[i := true], es + [Adopted(tagged[i], defined, id)], from + [Some(i)])
  {
    TakenMarks(done, defined, tagged, placed, es, from, i);
    var all, e, now, more := done + [defined], Adopted(tagged[i], defined, id), placed[i := true], from + [Some(i)];
    assert Sourced(all, tagged, now, e, Some(i));
    forall m | 0 <= m < |es| ensures Sourced(all, tagged, now, es[m], from[m]) && from[m] != Some(i) {
      assert Sourced(done, tagged, placed, es[m], from[m]);
      if from[m].None? { PinnedMore(done, defined, es[m]); }
    }
    hide Sourced;
    hide Homed;
    hide Adopted;
    hide Matches;
    hide SameKey;
    assert more[|from|] == Some(i) && forall j | Some(j) in from :: Some(j) in more;
    forall j | 0 <= j < |tagged| && now[j] ensures Some(j) in more {
      if j != i { assert Some(j) in from; }
    }
  }

  lemma {:induction false} TakenMarks(done: seq<DefinedElement>, defined: DefinedElement, tagged: seq<Element>,
      placed: seq<bool>, es: seq<Element>, from: seq<Source>, i: nat)
    requires Accounted(done, tagged, placed, es, from) && i < |tagged| && !placed[i] && Matches(defined, tagged[i])
    requires forall j | 0 <= j < |tagged| && j != i && Matches(defined, tagged[j]) :: placed[j]
    ensures var now := placed[i := true];
      && (forall j | 0 <= j < |tagged| :: now[j] <==> Homed(done + [defined], tagged[j]))
      && (forall j, k | 0 <= j < k < |tagged| && now[j] && now[k] :: !SameKey(tagged[j], tagged[k]))
  {
    var now := placed[i := true];
    forall j | 0 <= j < |tagged| ensures now[j] <==> Homed(done + [defined], tagged[j]) { HomedMore(done, defined, tagged[j]); }
    hide Sourced;
    hide Homed;
    hide Matches;
    forall j, k | 0 <= j < k < |tagged| && now[j] && now[k] ensures !SameKey(tagged[j], tagged[k]) {
      if SameKey(tagged[j], tagged[k]) { MarkedKeys(done, tagged[j], tagged[k]); }
    }
  }

  lemma {:induction false} AccountOne(done: seq<DefinedElement>, defined: DefinedElement, tagged: seq<Element>,
      mint: nat -> Id, f: Filling, pre: seq<Element>, from: seq<Source>)
    requires |f.placed| == |tagged| && FillOne(defined, tagged, mint, f).Some?
    requires Accounted(done, tagged, f.placed, pre + f.elements, from)
    ensures var g := FillOne(defined, tagged, mint, f).value;
      Accounted(done + [defined], tagged, g.placed, pre + g.elements, NextFrom(defined, tagged, f, from))
  {
    hide FillOne;
    hide NextFrom;
    hide Accounted;
    hide Adopted;
    hide EmptyElement;
    FillOneIs(defined, tagged, mint, f, from);
    var g, es := FillOne(defined, tagged, mint, f).value, pre + f.elements;
    if g.placed == f.placed && g.elements == f.elements && NextFrom(defined, tagged, f, from) == from {
      AccountNone(done, defined, tagged, f.placed, es, from);
    } else if id :| g.elements == f.elements + [EmptyElement(defined, id, UnknownSlot)] && g.placed == f.placed && defined.pinned
                    && NextFrom(defined, tagged, f, from) == from + [None] {
      AccountPin(done, defined, tagged, f.placed, es, from, id);
      assert pre + g.elements == es + [EmptyElement(defined, id, UnknownSlot)];
    } else {
      var i, id :| 0 <= i < |tagged| && !f.placed[i] && Matches(defined, tagged[i])
        && (forall j | 0 <= j < |tagged| && j != i && Matches(defined, tagged[j]) :: f.placed[j])
        && g.placed == f.placed[i := true] && NextFrom(defined, tagged, f, from) == from + [Some(i)]
        && g.elements == f.elements + [Adopted(tagged[i], defined, id)];
      AccountTaken(done, defined, tagged, f.placed, es, from, i, id);
      assert pre + g.elements == es + [Adopted(tagged[i], defined, id)];
    }
  }

  // ---- ids ----------------------------------------------------------------

  ghost predicate Minted(mint: nat -> Id, minted: nat, id: Id) {
    exists n: nat :: n < minted && id == mint(n)
  }

  ghost predicate Named(tagged: seq<Element>, mint: nat -> Id, minted: nat, es: seq<Element>, from: seq<Source>) {
    && |from| == |es|
    && Distinct(Ids(es))
    && (forall m | 0 <= m < |es| ::
          Minted(mint, minted, es[m].id)
          || (from[m].Some? && from[m].value < |tagged| && es[m].id == tagged[from[m].value].id != NIL))
  }

  ghost function Supplied(tagged: seq<Element>): set<Id> {
    set i | 0 <= i < |tagged| && tagged[i].id != NIL :: tagged[i].id
  }

  /** Supplied ids are told apart; an element may come without one. */
  ghost predicate SuppliedOnce(tagged: seq<Element>) {
    forall i, j | 0 <= i < j < |tagged| && tagged[i].id != NIL :: tagged[i].id != tagged[j].id
  }

  lemma {:induction false} NameOne(es: seq<Element>, from: seq<Source>, tagged: seq<Element>, mint: nat -> Id,
                                   minted: nat, e: Element, src: Source, now: nat)
    requires Named(tagged, mint, minted, es, from) && Fresh(mint, Supplied(tagged)) && SuppliedOnce(tagged)
    requires forall m | 0 <= m < |from| && from[m].Some? :: from[m] != src
    requires (e.id == mint(minted) && now == minted + 1)
          || (src.Some? && src.value < |tagged| && e.id == tagged[src.value].id != NIL && now == minted)
    ensures Named(tagged, mint, now, es + [e], from + [src])
  {
    forall m | 0 <= m < |es| ensures es[m].id != e.id && (Minted(mint, minted, es[m].id) ==> Minted(mint, now, es[m].id)) {
      if Minted(mint, minted, es[m].id) {
        var n: nat :| n < minted && es[m].id == mint(n);
        assert tagged != [] && src.Some? && now == minted ==> e.id in Supplied(tagged);
      } else {
        assert es[m].id in Supplied(tagged);
      }
    }
    assert now == minted + 1 ==> Minted(mint, now, mint(minted));
    assert Ids(es + [e]) == Ids(es) + [e.id];
    forall m | 0 <= m < |es| ensures Ids(es)[m] != e.id {}
  }

  lemma {:induction false} NameStep(defined: DefinedElement, tagged: seq<Element>,
      mint: nat -> Id, f: Filling, pre: seq<Element>, from: seq<Source>)
    requires |f.placed| == |tagged| && FillOne(defined, tagged, mint, f).Some?
    requires Named(tagged, mint, f.minted, pre + f.elements, from)
    requires Fresh(mint, Supplied(tagged)) && SuppliedOnce(tagged)
    requires forall i | Some(i) in from :: i < |tagged| && f.placed[i]
    ensures var g := FillOne(defined, tagged, mint, f).value;
      Named(tagged, mint, g.minted, pre + g.elements, NextFrom(defined, tagged, f, from))
  {
    var es := pre + f.elements;
    var taken := Taken(defined, tagged, f.placed, |tagged|);
    var g := FillOne(defined, tagged, mint, f).value;
    hide Taken;
    hide Fresh;
    hide SuppliedOnce;
    hide Named;
    if taken.One? {
      var i := taken.at;
      var e := Adopted(tagged[i], defined, mint(f.minted));
      forall m | 0 <= m < |from| && from[m].Some? ensures from[m] != Some(i) {
        assert Some(from[m].value) in from;
      }
      NameOne(es, from, tagged, mint, f.minted, e, Some(i), g.minted);
      assert pre + g.elements == es + [e];
    } else if defined.pinned {
      var e := EmptyElement(defined, mint(f.minted), UnknownSlot);
      NameOne(es, from, tagged, mint, f.minted, e, None, g.minted);
      assert pre + g.elements == es + [e];
    }
  }

  // ---- shape --------------------------------------------------------------

  function SlotRole(defined: DefinedElement): Role { defined.role }

  ghost predicate ShapedBy(done: seq<DefinedElement>, e: Element) {
    exists k :: 0 <= k < |done| && Matches(done[k], e) && e.options == done[k].options
  }

  ghost predicate Shaped(done: seq<DefinedElement>, es: seq<Element>) {
    && multiset(Roles(es)) <= multiset(Map(SlotRole, done))
    && (forall m | 0 <= m < |es| :: ShapedBy(done, es[m]))
  }

  lemma {:induction false} ShapedMore(done: seq<DefinedElement>, defined: DefinedElement, es: seq<Element>)
    requires Shaped(done, es)
    ensures Shaped(done + [defined], es)
  {
    assert Map(SlotRole, done + [defined]) == Map(SlotRole, done) + [defined.role];
    forall m | 0 <= m < |es| ensures ShapedBy(done + [defined], es[m]) {
      var k :| 0 <= k < |done| && Matches(done[k], es[m]) && es[m].options == done[k].options;
      assert (done + [defined])[k] == done[k];
    }
  }

  lemma {:induction false} ShapeOne(done: seq<DefinedElement>, defined: DefinedElement, es: seq<Element>, e: Element)
    requires Shaped(done, es) && Matches(defined, e) && e.options == defined.options
    ensures Shaped(done + [defined], es + [e])
  {
    ShapedMore(done, defined, es);
    assert Map(SlotRole, done + [defined]) == Map(SlotRole, done) + [defined.role];
    assert Roles(es + [e]) == Roles(es) + [e.role];
    assert (done + [defined])[|done|] == defined;
  }

  lemma {:induction false} ShapeStep(done: seq<DefinedElement>, defined: DefinedElement, tagged: seq<Element>,
      mint: nat -> Id, f: Filling, pre: seq<Element>)
    requires |f.placed| == |tagged| && FillOne(defined, tagged, mint, f).Some?
    requires Shaped(done, pre + f.elements)
    ensures var g := FillOne(defined, tagged, mint, f).value;
      && Shaped(done + [defined], pre + g.elements)
      && f.elements <= g.elements && |g.elements| <= |f.elements| + 1
      && (defined.pinned ==> exists e :: e in g.elements && Matches(defined, e))
  {
    var es, g := pre + f.elements, FillOne(defined, tagged, mint, f).value;
    var taken := Taken(defined, tagged, f.placed, |tagged|);
    hide Taken;
    hide Shaped;
    if taken.One? || defined.pinned {
      var e := g.elements[|g.elements| - 1];
      ShapeOne(done, defined, es, e);
      assert pre + g.elements == es + [e];
      assert e in g.elements;
    } else {
      ShapedMore(done, defined, es);
    }
  }

  // ---- a whole definition -------------------------------------------------

  ghost predicate Tellable(tagged: seq<Element>, mint: nat -> Id) {
    Fresh(mint, Supplied(tagged)) && SuppliedOnce(tagged)
  }

  ghost predicate Keeping(done: seq<DefinedElement>, tagged: seq<Element>, mint: nat -> Id, placed: seq<bool>,
                          minted: nat, es: seq<Element>, from: seq<Source>) {
    && Accounted(done, tagged, placed, es, from)
    && Shaped(done, es)
    && (Tellable(tagged, mint) ==> Named(tagged, mint, minted, es, from))
  }

  lemma {:induction false} SourcesPlaced(done: seq<DefinedElement>, tagged: seq<Element>, placed: seq<bool>,
                                         es: seq<Element>, from: seq<Source>)
    requires Accounted(done, tagged, placed, es, from)
    ensures forall i | Some(i) in from :: i < |tagged| && placed[i]
  {
    forall i | Some(i) in from ensures i < |tagged| && placed[i] {
      var m :| 0 <= m < |from| && from[m] == Some(i);
      assert Sourced(done, tagged, placed, es[m], from[m]);
    }
  }

  lemma {:induction false} KeepOne(done: seq<DefinedElement>, defined: DefinedElement, tagged: seq<Element>,
      mint: nat -> Id, f: Filling, pre: seq<Element>, from: seq<Source>)
    requires |f.placed| == |tagged| && FillOne(defined, tagged, mint, f).Some?
    requires Keeping(done, tagged, mint, f.placed, f.minted, pre + f.elements, from)
    ensures var g := FillOne(defined, tagged, mint, f).value;
      Keeping(done + [defined], tagged, mint, g.placed, g.minted, pre + g.elements,
              NextFrom(defined, tagged, f, from))
  {
    hide FillOne;
    hide NextFrom;
    hide Accounted;
    hide Named;
    hide Shaped;
    SourcesPlaced(done, tagged, f.placed, pre + f.elements, from);
    AccountOne(done, defined, tagged, mint, f, pre, from);
    if Tellable(tagged, mint) { NameStep(defined, tagged, mint, f, pre, from); }
    ShapeStep(done, defined, tagged, mint, f, pre);
  }

  lemma {:induction false} KeepFill(done: seq<DefinedElement>, slots: seq<DefinedElement>, tagged: seq<Element>,
      mint: nat -> Id, f: Filling, pre: seq<Element>, from: seq<Source>) returns (next: seq<Source>)
    requires |f.placed| == |tagged| && Fill(slots, tagged, mint, f).Some?
    requires Keeping(done, tagged, mint, f.placed, f.minted, pre + f.elements, from)
    ensures var g := Fill(slots, tagged, mint, f).value;
      Keeping(done + slots, tagged, mint, g.placed, g.minted, pre + g.elements, next)
    decreases |slots|
  {
    hide Keeping;
    hide FillOne;
    if slots == [] {
      assert done + slots == done;
      next := from;
    } else {
      var n := |slots| - 1;
      next := KeepFill(done, slots[..n], tagged, mint, f, pre, from);
      var g := Fill(slots[..n], tagged, mint, f).value;
      KeepOne(done + slots[..n], slots[n], tagged, mint, g, pre, next);
      next := NextFrom(slots[n], tagged, g, next);
      assert done + slots[..n] + [slots[n]] == done + slots;
    }
  }

  /** The elements filled for one definition hold its pins and fit in number. */
  lemma {:induction false} FillShape(slots: seq<DefinedElement>, tagged: seq<Element>, mint: nat -> Id, f: Filling)
    requires |f.placed| == |tagged| && Fill(slots, tagged, mint, f).Some? && f.elements == []
    ensures var es := Fill(slots, tagged, mint, f).value.elements;
      && |es| <= |slots| && Shaped(slots, es)
      && forall k | 0 <= k < |slots| && slots[k].pinned :: exists e :: e in es && Matches(slots[k], e)
    decreases |slots|
  {
    hide Shaped;
    hide FillOne;
    if slots == [] {
      assert Shaped(slots, f.elements) by { ShapedNone(slots); }
    } else {
      var n := |slots| - 1;
      FillShape(slots[..n], tagged, mint, f);
      var g := Fill(slots[..n], tagged, mint, f).value;
      var es := Fill(slots, tagged, mint, f).value.elements;
      assert [] + g.elements == g.elements && [] + es == es && slots[..n] + [slots[n]] == slots;
      ShapeStep(slots[..n], slots[n], tagged, mint, g, []);
      hide Fill;
      hide Matches;
      assert forall e | e in g.elements :: e in es;
      forall k | 0 <= k < |slots| && slots[k].pinned ensures exists e :: e in es && Matches(slots[k], e) {
        if k < n {
          assert slots[..n][k] == slots[k];
          var e :| e in g.elements && Matches(slots[..n][k], e);
          assert e in es;
        }
      }
    }
  }

  lemma {:induction false} ShapedNone(slots: seq<DefinedElement>)
    ensures Shaped(slots, [])
  {
    assert multiset(Roles([])) == multiset{};
  }

  // ---- a whole catalog ----------------------------------------------------

  function SlotsOf(d: Definition): seq<DefinedElement> { d.elements }

  function AllSlots(defs: seq<Definition>): seq<DefinedElement> {
    Flatten(Map(SlotsOf, defs))
  }

  lemma {:induction false} AllSlotsSnoc(defs: seq<Definition>)
    requires defs != []
    ensures AllSlots(defs) == AllSlots(defs[..|defs| - 1]) + defs[|defs| - 1].elements
  {
    var n := |defs| - 1;
    assert defs == defs[..n] + [defs[n]];
    MapConcat(SlotsOf, defs[..n], [defs[n]]);
    FlattenConcat(Map(SlotsOf, defs[..n]), [defs[n].elements]);
    assert Map(SlotsOf, [defs[n]]) == [defs[n].elements];
    assert Flatten([defs[n].elements]) == defs[n].elements + Flatten([defs[n].elements][1..]);
  }

  ghost predicate SameButSlots(x: seq<Element>, y: seq<Element>) {
    |x| == |y| && forall m | 0 <= m < |x| :: y[m] == x[m].(slot := y[m].slot)
  }

  lemma {:induction false} NamedLater(tagged: seq<Element>, mint: nat -> Id, minted: nat, now: nat, x: seq<Element>,
                                      y: seq<Element>, from: seq<Source>)
    requires Named(tagged, mint, minted, x, from) && minted <= now && SameButSlots(x, y)
    ensures Named(tagged, mint, now, y, from)
  {
    assert Ids(x) == Ids(y);
    forall m | 0 <= m < |y| && Minted(mint, minted, x[m].id) ensures Minted(mint, now, y[m].id) {
      var n: nat :| n < minted && x[m].id == mint(n);
      assert n < now && y[m].id == mint(n);
    }
  }

  lemma {:induction false} KeepingLater(done: seq<DefinedElement>, tagged: seq<Element>, mint: nat -> Id,
      placed: seq<bool>, minted: nat, now: nat, x: seq<Element>, y: seq<Element>, from: seq<Source>)
    requires Keeping(done, tagged, mint, placed, minted, x, from) && minted <= now && SameButSlots(x, y)
    ensures Keeping(done, tagged, mint, placed, now, y, from)
  {
    if Tellable(tagged, mint) { NamedLater(tagged, mint, minted, now, x, y, from); }
    hide Named;
    hide Tellable;
    assert Roles(x) == Roles(y);
    forall m | 0 <= m < |y| ensures ShapedBy(done, y[m]) && Sourced(done, tagged, placed, y[m], from[m]) {
      assert ShapedBy(done, x[m]) && Sourced(done, tagged, placed, x[m], from[m]);
      var k :| 0 <= k < |done| && Matches(done[k], x[m]) && x[m].options == done[k].options;
      assert Matches(done[k], y[m]);
    }
  }

  lemma {:induction false} KeepPlaceOne(done: seq<DefinedElement>, d: Definition, tagged: seq<Element>, mint: nat -> Id,
      p: Placing, from: seq<Source>) returns (next: seq<Source>)
    requires |p.placed| == |tagged| && PlaceOne(d, tagged, mint, p).Some?
    requires Keeping(done, tagged, mint, p.placed, p.minted, Flat(p.blocks), from)
    ensures var q := PlaceOne(d, tagged, mint, p).value;
      Keeping(done + d.elements, tagged, mint, q.placed, q.minted, Flat(q.blocks), next)
  {
    hide Keeping;
    hide Fill;
    hide Flat;
    var before := Flat(p.blocks);
    assert before + [] == before;
    next := KeepFill(done, d.elements, tagged, mint, Filling(p.placed, p.minted, []), before, from);
    var f := Fill(d.elements, tagged, mint, Filling(p.placed, p.minted, [])).value;
    var q := PlaceOne(d, tagged, mint, p).value;
    if q.blocks == p.blocks {
      assert f.elements == [] && before + f.elements == before;
    } else {
      var added := q.blocks[|p.blocks|];
      FlatConcat(p.blocks, [added]);
      FlatOne(added);
      KeepingLater(done + d.elements, tagged, mint, f.placed, f.minted, f.minted + 1, before + f.elements,
                   before + added.elements, next);
    }
  }

  lemma {:induction false} KeepPlaceAll(defs: seq<Definition>, tagged: seq<Element>, mint: nat -> Id)
    returns (from: seq<Source>)
    requires PlaceAll(defs, tagged, mint).Some?
    ensures var p := PlaceAll(defs, tagged, mint).value;
      Keeping(AllSlots(defs), tagged, mint, p.placed, p.minted, Flat(p.blocks), from)
    decreases |defs|
  {
    hide PlaceOne;
    if defs == [] {
      from := [];
      assert Flat([]) == [] && AllSlots([]) == [] && Ids([]) == [];
    } else {
      hide Keeping;
      var n := |defs| - 1;
      from := KeepPlaceAll(defs[..n], tagged, mint);
      from := KeepPlaceOne(AllSlots(defs[..n]), defs[n], tagged, mint, PlaceAll(defs[..n], tagged, mint).value, from);
      AllSlotsSnoc(defs);
    }
  }

  // ---- when it fails ------------------------------------------------------

  lemma {:induction false} FillFails(slots: seq<DefinedElement>, tagged: seq<Element>, mint: nat -> Id, f: Filling)
    requires |f.placed| == |tagged| && Fill(slots, tagged, mint, f).None?
    ensures !Keyed(tagged)
    decreases |slots|
  {
    var n := |slots| - 1;
    if Fill(slots[..n], tagged, mint, f).None? {
      FillFails(slots[..n], tagged, mint, f);
    } else {
      var g := Fill(slots[..n], tagged, mint, f).value;
      hide Fill;
      var i, j :| 0 <= i < j < |tagged| && Candidate(slots[n], tagged, g.placed, i) && Candidate(slots[n], tagged, g.placed, j);
      assert SameKey(tagged[i], tagged[j]);
    }
  }

  /** A catalog always has a layout with room, so only a second claim on one
      place can stop the filling. */
  lemma {:induction false} PlaceAllFails(defs: seq<Definition>, tagged: seq<Element>, mint: nat -> Id)
    requires forall i | 0 <= i < |defs| :: LayoutsOk(defs[i])
    requires PlaceAll(defs, tagged, mint).None?
    ensures !Keyed(tagged)
    decreases |defs|
  {
    hide LayoutsOk;
    hide Keyed;
    hide Fill;
    hide LayoutFor;
    var n := |defs| - 1;
    if PlaceAll(defs[..n], tagged, mint).None? {
      PlaceAllFails(defs[..n], tagged, mint);
    } else {
      var p := PlaceAll(defs[..n], tagged, mint).value;
      var start := Filling(p.placed, p.minted, []);
      if Fill(defs[n].elements, tagged, mint, start).None? {
        FillFails(defs[n].elements, tagged, mint, start);
      } else {
        FillShape(defs[n].elements, tagged, mint, start);
        LayoutRoom(defs[n], |Fill(defs[n].elements, tagged, mint, start).value.elements|);
        assert false;
      }
    }
  }

  /** A placement succeeds exactly when the kind is known, every element has a
      place in its catalog, and no two ask for the same one. */
  lemma {:induction false} PlaceExactly(kind: Kind, tagged: seq<Element>, mint: nat -> Id)
    ensures Placed(kind, tagged, mint).Some? <==>
      && CatalogOf(kind).Some?
      && Keyed(tagged)
      && forall i | 0 <= i < |tagged| :: Homed(AllSlots(CatalogOf(kind).value), tagged[i])
  {
    hide CatalogOf;
    hide PlaceAll;
    hide AllSlots;
    if CatalogOf(kind).Some? {
      var defs := CatalogOf(kind).value;
      CatalogsAreOk(kind);
      CatalogLayouts(defs);
      if PlaceAll(defs, tagged, mint).None? {
        PlaceAllFails(defs, tagged, mint);
      } else {
        var from := KeepPlaceAll(defs, tagged, mint);
        PlacedAll(AllSlots(defs), tagged, PlaceAll(defs, tagged, mint).value.placed,
                  Flat(PlaceAll(defs, tagged, mint).value.blocks), from);
      }
    }
  }

  lemma {:induction false} CatalogLayouts(defs: seq<Definition>)
    requires CatalogOk(defs)
    ensures forall i | 0 <= i < |defs| :: LayoutsOk(defs[i])
  {
    assert forall i | 0 <= i < |defs| :: DefinitionOk(defs[i]);
    hide LayoutsOk;
  }

  lemma {:induction false} PlacedAll(done: seq<DefinedElement>, tagged: seq<Element>, placed: seq<bool>,
                                     es: seq<Element>, from: seq<Source>)
    requires Accounted(done, tagged, placed, es, from)
    ensures false !in placed <==> Keyed(tagged) && forall i | 0 <= i < |tagged| :: Homed(done, tagged[i])
  {
    hide Sourced;
    hide Homed;
    if false !in placed {
      forall i | 0 <= i < |tagged| ensures placed[i] { assert placed[i] in placed; }
    }
  }

  /** A successful placement uses each supplied element exactly once, and all it
      adds are empty elements its catalog pins. */
  lemma {:induction false} PlaceConserves(kind: Kind, tagged: seq<Element>, mint: nat -> Id)
    returns (from: seq<Source>)
    requires Placed(kind, tagged, mint).Some?
    ensures |from| == |Flat(Placed(kind, tagged, mint).value)|
    ensures forall m | 0 <= m < |from| ::
      var e := Flat(Placed(kind, tagged, mint).value)[m];
      match from[m]
      case None => e.content == EmptyContent() && PinnedIn(AllSlots(CatalogOf(kind).value), e)
      case Some(i) => i < |tagged| && SameKey(e, tagged[i]) && e.content == tagged[i].content
                      && (tagged[i].id != NIL ==> e.id == tagged[i].id)
    ensures forall i | 0 <= i < |tagged| :: Some(i) in from
    ensures forall m, n | 0 <= m < n < |from| && from[m].Some? :: from[m] != from[n]
  {
    hide CatalogOf;
    hide PlaceAll;
    hide AllSlots;
    var defs := CatalogOf(kind).value;
    from := KeepPlaceAll(defs, tagged, mint);
    var p := PlaceAll(defs, tagged, mint).value;
    hide Flat;
    hide PinnedIn;
    forall m | 0 <= m < |from| ensures Sourced(AllSlots(defs), tagged, p.placed, Flat(p.blocks)[m], from[m]) {}
    forall i | 0 <= i < |tagged| ensures Some(i) in from {
      assert p.placed[i] in p.placed;
    }
  }

  // ---- the page it makes --------------------------------------------------

  ghost predicate BlockMade(d: Definition, b: Block) {
    && b.definition == d.id && b.width == d.width && !b.hidden
    && b.layout in d.layouts && FitsWidth(d, b.layout)
    && |b.elements| <= |Slots(b.layout)|
    && (forall k | 0 <= k < |b.elements| :: b.elements[k].slot == Slots(b.layout)[k])
    && (forall k | 0 <= k < |d.elements| && d.elements[k].pinned ::
          exists e :: e in b.elements && Matches(d.elements[k], e))
  }

  ghost predicate MadeBySome(defs: seq<Definition>, b: Block) {
    exists k :: 0 <= k < |defs| && BlockMade(defs[k], b)
  }

  ghost predicate Laid(defs: seq<Definition>, mint: nat -> Id, minted: nat, blocks: seq<Block>) {
    && Positioned(blocks)
    && Distinct(BlockIds(blocks))
    && (forall i | 0 <= i < |blocks| :: Minted(mint, minted, blocks[i].id))
    && (forall i | 0 <= i < |blocks| :: MadeBySome(defs, blocks[i]))
    && (forall i, j | 0 <= i < j < |blocks| :: blocks[i].definition != blocks[j].definition)
    && RequiredPresent(defs, blocks)
  }

  lemma {:induction false} MakesBlock(d: Definition, tagged: seq<Element>, mint: nat -> Id, p: Placing)
    requires LayoutsOk(d) && |p.placed| == |tagged| && PlaceOne(d, tagged, mint, p).Some?
    ensures var q := PlaceOne(d, tagged, mint, p).value;
      || (q.blocks == p.blocks && !d.required && p.minted <= q.minted)
      || (|q.blocks| == |p.blocks| + 1 && q.blocks[..|p.blocks|] == p.blocks
          && BlockMade(d, q.blocks[|p.blocks|]) && q.blocks[|p.blocks|].position == |p.blocks|
          && exists n: nat :: p.minted <= n < q.minted && q.blocks[|p.blocks|].id == mint(n))
  {
    hide *;
    var start := Filling(p.placed, p.minted, []);
    PlaceOneFills(d, tagged, mint, p);
    MintsForward(d.elements, tagged, mint, start);
    FillShape(d.elements, tagged, mint, start);
    var f := Fill(d.elements, tagged, mint, start).value;
    LayoutRoom(d, |f.elements|);
    var q := PlaceOne(d, tagged, mint, p).value;
    if q.blocks != p.blocks {
      var layout := LayoutFor(d.layouts, |f.elements|).value;
      SlottedBlock(d, f.elements, layout, q.blocks[|p.blocks|]);
      assert q.blocks[|p.blocks|].id == mint(f.minted);
    }
  }

  lemma {:induction false} PlaceOneFills(d: Definition, tagged: seq<Element>, mint: nat -> Id, p: Placing)
    requires |p.placed| == |tagged| && PlaceOne(d, tagged, mint, p).Some?
    ensures var start := Filling(p.placed, p.minted, []);
      && Fill(d.elements, tagged, mint, start).Some?
      && var f := Fill(d.elements, tagged, mint, start).value;
         var q := PlaceOne(d, tagged, mint, p).value;
         if f.elements == [] && !d.required then q.minted == f.minted && q.blocks == p.blocks
         else
           && LayoutFor(d.layouts, |f.elements|).Some?
           && q.minted == f.minted + 1
           && q.blocks == p.blocks +
                [Block(mint(f.minted), d.id, None, |p.blocks|, false, LayoutFor(d.layouts, |f.elements|).value, d.width,
                       Reslotted(f.elements, Slots(LayoutFor(d.layouts, |f.elements|).value)))]
  {
    hide Fill;
    hide LayoutFor;
    hide Reslotted;
    hide Slots;
  }

  lemma {:induction false} SlottedBlock(d: Definition, es: seq<Element>, layout: Layout, b: Block)
    requires layout in d.layouts && FitsWidth(d, layout) && |es| <= |Slots(layout)|
    requires b.definition == d.id && b.width == d.width && !b.hidden && b.layout == layout
    requires b.elements == Reslotted(es, Slots(layout))
    requires forall k | 0 <= k < |d.elements| && d.elements[k].pinned :: exists e :: e in es && Matches(d.elements[k], e)
    ensures BlockMade(d, b)
  {
    hide FitsWidth;
    hide Slots;
    forall k | 0 <= k < |d.elements| && d.elements[k].pinned
      ensures exists e :: e in b.elements && Matches(d.elements[k], e)
    {
      var e :| e in es && Matches(d.elements[k], e);
      var m :| 0 <= m < |es| && es[m] == e;
      assert b.elements[m] in b.elements && Matches(d.elements[k], b.elements[m]);
    }
  }

  lemma {:induction false} MintsForward(slots: seq<DefinedElement>, tagged: seq<Element>, mint: nat -> Id, f: Filling)
    requires |f.placed| == |tagged| && Fill(slots, tagged, mint, f).Some?
    ensures f.minted <= Fill(slots, tagged, mint, f).value.minted
    decreases |slots|
  {
    if slots != [] { MintsForward(slots[..|slots| - 1], tagged, mint, f); }
  }

  lemma {:induction false} LaidSame(defs: seq<Definition>, d: Definition, mint: nat -> Id, minted: nat, now: nat, blocks: seq<Block>)
    requires Laid(defs, mint, minted, blocks) && minted <= now && !d.required
    ensures Laid(defs + [d], mint, now, blocks)
  {
    var all := defs + [d];
    hide BlockMade;
    forall i | 0 <= i < |blocks|
      ensures Minted(mint, now, blocks[i].id) && MadeBySome(all, blocks[i])
    {
      assert Minted(mint, minted, blocks[i].id) && MadeBySome(defs, blocks[i]);
      var n: nat :| n < minted && blocks[i].id == mint(n);
      var k :| 0 <= k < |defs| && BlockMade(defs[k], blocks[i]);
      assert all[k] == defs[k];
    }
    hide MadeBySome;
    forall k | 0 <= k < |all| && all[k].required ensures exists i :: 0 <= i < |blocks| && blocks[i].definition == all[k].id {
      assert all[k] == defs[k];
    }
    hide Minted;
    assert RequiredPresent(all, blocks);
    assert forall i | 0 <= i < |blocks| :: Minted(mint, now, blocks[i].id);
    assert forall i | 0 <= i < |blocks| :: MadeBySome(all, blocks[i]);
  }

  lemma {:induction false} LaidMore(defs: seq<Definition>, d: Definition, mint: nat -> Id, minted: nat, now: nat,
                                    blocks: seq<Block>, b: Block)
    requires Laid(defs, mint, minted, blocks) && BlockMade(d, b) && b.position == |blocks|
    requires exists n: nat :: minted <= n < now && b.id == mint(n)
    requires forall i: nat, j: nat | i != j :: mint(i) != mint(j)
    requires forall k | 0 <= k < |defs| :: defs[k].id != d.id
    ensures Laid(defs + [d], mint, now, blocks + [b])
  {
    var all, after := defs + [d], blocks + [b];
    forall i | 0 <= i < |blocks|
      ensures blocks[i].definition != d.id && blocks[i].id != b.id
      ensures Minted(mint, now, blocks[i].id) && MadeBySome(all, blocks[i])
    {
      assert Minted(mint, minted, blocks[i].id) && MadeBySome(defs, blocks[i]);
      LaidBefore(defs, d, mint, minted, now, blocks[i], b);
    }
    assert all[|defs|] == d;
    assert Minted(mint, now, b.id) && MadeBySome(all, b) && b.definition == d.id;
    hide BlockMade;
    hide MadeBySome;
    hide Minted;
    assert forall i | 0 <= i < |after| :: after[i] == if i < |blocks| then blocks[i] else b;
    assert BlockIds(after) == BlockIds(blocks) + [b.id];
    forall i | 0 <= i < |blocks| ensures BlockIds(blocks)[i] != b.id {}
    LaidRequired(defs, d, blocks, b);
  }

  /** A block laid before d's differs from d's in definition and id. */
  lemma {:induction false} LaidBefore(
    defs: seq<Definition>, d: Definition, mint: nat -> Id, minted: nat, now: nat, earlier: Block, b: Block
  )
    requires Minted(mint, minted, earlier.id) && MadeBySome(defs, earlier) && BlockMade(d, b)
    requires exists n: nat :: minted <= n < now && b.id == mint(n)
    requires forall i: nat, j: nat | i != j :: mint(i) != mint(j)
    requires forall k | 0 <= k < |defs| :: defs[k].id != d.id
    ensures earlier.definition != d.id && earlier.id != b.id && Minted(mint, now, earlier.id) && MadeBySome(defs + [d], earlier)
  {
    var n: nat :| n < minted && earlier.id == mint(n);
    var k :| 0 <= k < |defs| && BlockMade(defs[k], earlier);
    assert (defs + [d])[k] == defs[k];
    hide Slots;
    hide FitsWidth;
  }

  lemma {:induction false} LaidRequired(defs: seq<Definition>, d: Definition, blocks: seq<Block>, b: Block)
    requires RequiredPresent(defs, blocks) && b.definition == d.id
    ensures RequiredPresent(defs + [d], blocks + [b])
  {
    var all, after := defs + [d], blocks + [b];
    assert after[|blocks|].definition == d.id;
    forall k | 0 <= k < |all| && all[k].required ensures exists i :: 0 <= i < |after| && after[i].definition == all[k].id {
      if k < |defs| {
        assert all[k] == defs[k];
        var i :| 0 <= i < |blocks| && blocks[i].definition == defs[k].id;
        assert after[i].definition == all[k].id;
      }
    }
  }

  lemma {:induction false} LaysAll(defs: seq<Definition>, tagged: seq<Element>, mint: nat -> Id)
    requires forall i | 0 <= i < |defs| :: LayoutsOk(defs[i])
    requires forall i, j | 0 <= i < j < |defs| :: defs[i].id != defs[j].id
    requires forall i: nat, j: nat | i != j :: mint(i) != mint(j)
    requires PlaceAll(defs, tagged, mint).Some?
    ensures var p := PlaceAll(defs, tagged, mint).value; Laid(defs, mint, p.minted, p.blocks)
    decreases |defs|
  {
    hide LayoutsOk;
    hide BlockMade;
    hide PlaceOne;
    if defs == [] {
    } else {
      hide Laid;
      var n := |defs| - 1;
      LaysAll(defs[..n], tagged, mint);
      var p, q := PlaceAll(defs[..n], tagged, mint).value, PlaceAll(defs, tagged, mint).value;
      MakesBlock(defs[n], tagged, mint, p);
      assert defs == defs[..n] + [defs[n]];
      if q.blocks == p.blocks {
        LaidSame(defs[..n], defs[n], mint, p.minted, q.minted, p.blocks);
      } else {
        assert q.blocks == p.blocks + [q.blocks[|p.blocks|]];
        LaidMore(defs[..n], defs[n], mint, p.minted, q.minted, p.blocks, q.blocks[|p.blocks|]);
      }
    }
  }

  // ---- each singular role has one place in a catalog ----------------------

  lemma {:induction false} RoleOnce(elements: seq<DefinedElement>, r: Role)
    requires r != NoRole
    requires forall i, j | 0 <= i < j < |elements| && elements[i].role != NoRole :: elements[i].role != elements[j].role
    ensures multiset(Map(SlotRole, elements))[r] <= 1
    ensures multiset(Map(SlotRole, elements))[r] > 0 ==> exists k :: 0 <= k < |elements| && elements[k].role == r
  {
    if elements != [] {
      var n := |elements| - 1;
      RoleOnce(elements[..n], r);
      assert elements == elements[..n] + [elements[n]];
      assert Map(SlotRole, elements) == Map(SlotRole, elements[..n]) + [elements[n].role];
      if multiset(Map(SlotRole, elements[..n]))[r] > 0 {
        var k :| 0 <= k < n && elements[..n][k].role == r;
        assert elements[k].role == r;
      }
    }
  }

  lemma {:induction false} RoleInOne(defs: seq<Definition>, home: Role -> DefinitionID, r: Role)
    requires Singular(r) && HomedBy(defs, home)
    requires forall i, j | 0 <= i < j < |defs| :: defs[i].id != defs[j].id
    requires forall i | 0 <= i < |defs| :: ElementsOk(defs[i].elements, defs[i].required)
    ensures multiset(Map(SlotRole, AllSlots(defs)))[r] <= 1
    ensures multiset(Map(SlotRole, AllSlots(defs)))[r] > 0 ==> exists i :: 0 <= i < |defs| && defs[i].id == home(r)
    decreases |defs|
  {
    hide ElementsOk;
    if defs == [] {
      assert AllSlots(defs) == [];
    } else {
      var n := |defs| - 1;
      HomedStart(defs, home, n);
      AllSlotsSnoc(defs);
      hide AllSlots;
      RoleInOne(defs[..n], home, r);
      RoleInLast(defs, home, r);
      hide HomedBy;
      MapConcat(SlotRole, AllSlots(defs[..n]), defs[n].elements);
    }
  }

  lemma {:induction false} HomedStart(defs: seq<Definition>, home: Role -> DefinitionID, n: nat)
    requires HomedBy(defs, home) && n <= |defs|
    ensures HomedBy(defs[..n], home)
  {
    forall i, k | 0 <= i < n && 0 <= k < |defs[..n][i].elements| && Singular(defs[..n][i].elements[k].role)
      ensures defs[..n][i].id == home(defs[..n][i].elements[k].role)
    {
      assert defs[..n][i] == defs[i];
    }
  }

  lemma {:induction false} RoleInLast(defs: seq<Definition>, home: Role -> DefinitionID, r: Role)
    requires defs != [] && Singular(r) && HomedBy(defs, home)
    requires ElementsOk(defs[|defs| - 1].elements, defs[|defs| - 1].required)
    ensures multiset(Map(SlotRole, defs[|defs| - 1].elements))[r] <= 1
    ensures multiset(Map(SlotRole, defs[|defs| - 1].elements))[r] > 0 ==> defs[|defs| - 1].id == home(r)
  {
    RoleOnce(defs[|defs| - 1].elements, r);
    hide ElementsOk;
  }

  // ---- the page is good ---------------------------------------------------

  ghost predicate Readable(tagged: seq<Element>) {
    forall i | 0 <= i < |tagged| :: WithinLimits(tagged[i].content) && ItemIdsOk(tagged[i].content)
  }

  lemma {:induction false} SlotsAreDefined(defs: seq<Definition>, k: nat)
    requires CatalogOk(defs) && k < |AllSlots(defs)|
    ensures DefinedOk(AllSlots(defs)[k])
  {
    var lists := Map(SlotsOf, defs);
    FlattenMembers(lists);
    assert AllSlots(defs)[k] in Flatten(lists);
    var i :| 0 <= i < |lists| && AllSlots(defs)[k] in lists[i];
    var j :| 0 <= j < |lists[i]| && lists[i][j] == AllSlots(defs)[k];
    assert DefinitionOk(defs[i]) && DefinedOk(defs[i].elements[j]);
  }

  /** Each placed element is one its block can hold. */
  lemma {:induction false} PlacedElementOk(defs: seq<Definition>, tagged: seq<Element>, mint: nat -> Id, p: Placing,
                                           from: seq<Source>, m: nat)
    requires CatalogOk(defs) && Readable(tagged) && Tellable(tagged, mint)
    requires Keeping(AllSlots(defs), tagged, mint, p.placed, p.minted, Flat(p.blocks), from)
    requires m < |Flat(p.blocks)|
    ensures ElementOk(Flat(p.blocks)[m]) && RoleFits(Flat(p.blocks)[m])
  {
    hide *;
    var e := Flat(p.blocks)[m];
    KeptElement(AllSlots(defs), tagged, mint, p.placed, p.minted, Flat(p.blocks), from, m);
    var k :| 0 <= k < |AllSlots(defs)| && Matches(AllSlots(defs)[k], e) && e.options == AllSlots(defs)[k].options;
    SlotsAreDefined(defs, k);
    DefinedElementOk(AllSlots(defs)[k], e);
  }

  lemma {:induction false} KeptElement(done: seq<DefinedElement>, tagged: seq<Element>, mint: nat -> Id,
      placed: seq<bool>, minted: nat, es: seq<Element>, from: seq<Source>, m: nat)
    requires Keeping(done, tagged, mint, placed, minted, es, from) && m < |es|
    requires Readable(tagged) && Tellable(tagged, mint)
    ensures exists k :: 0 <= k < |done| && Matches(done[k], es[m]) && es[m].options == done[k].options
    ensures es[m].id != NIL && WithinLimits(es[m].content) && ItemIdsOk(es[m].content)
  {
    assert ShapedBy(done, es[m]) && Sourced(done, tagged, placed, es[m], from[m]);
    assert es[m].id != NIL;
    assert WithinLimits(EmptyContent()) && ItemIdsOk(EmptyContent());
    hide WithinLimits;
    hide ItemIdsOk;
    hide Matches;
    hide PinnedIn;
  }

  lemma {:induction false} DefinedElementOk(defined: DefinedElement, e: Element)
    requires DefinedOk(defined) && Matches(defined, e) && e.options == defined.options
    requires e.id != NIL && WithinLimits(e.content) && ItemIdsOk(e.content)
    ensures ElementOk(e) && RoleFits(e)
  {
  }

  lemma {:induction false} PlacedRolesOnce(defs: seq<Definition>, es: seq<Element>)
    requires CatalogOk(defs) && Shaped(AllSlots(defs), es)
    ensures RolesOnce(es)
  {
    CatalogIds(defs);
    ElementsAreOk(defs);
    var home: Role -> DefinitionID :| HomedBy(defs, home);
    hide CatalogOk;
    hide ElementsOk;
    hide AllSlots;
    forall r | Singular(r) ensures multiset(Roles(es))[r] <= 1 {
      RoleInOne(defs, home, r);
    }
  }

  lemma {:induction false} KeepingParts(done: seq<DefinedElement>, tagged: seq<Element>, mint: nat -> Id,
      placed: seq<bool>, minted: nat, es: seq<Element>, from: seq<Source>)
    requires Keeping(done, tagged, mint, placed, minted, es, from) && Tellable(tagged, mint)
    ensures Shaped(done, es) && Distinct(Ids(es))
  {
    hide Shaped;
    hide Accounted;
    hide Tellable;
  }

  lemma {:induction false} PlacedElements(defs: seq<Definition>, tagged: seq<Element>, mint: nat -> Id, p: Placing,
                                          from: seq<Source>)
    requires CatalogOk(defs) && Readable(tagged) && Tellable(tagged, mint)
    requires Keeping(AllSlots(defs), tagged, mint, p.placed, p.minted, Flat(p.blocks), from)
    ensures ElementsFit(Flat(p.blocks)) && forall e | e in Flat(p.blocks) :: ElementOk(e)
  {
    hide CatalogOk;
    hide Keeping;
    hide Readable;
    hide Tellable;
    hide AllSlots;
    hide ElementOk;
    hide RoleFits;
    hide Flat;
    hide RolesOnce;
    hide Shaped;
    forall e | e in Flat(p.blocks) ensures ElementOk(e) && RoleFits(e) {
      var m :| 0 <= m < |Flat(p.blocks)| && Flat(p.blocks)[m] == e;
      PlacedElementOk(defs, tagged, mint, p, from, m);
    }
    KeepingParts(AllSlots(defs), tagged, mint, p.placed, p.minted, Flat(p.blocks), from);
    PlacedRolesOnce(defs, Flat(p.blocks));
  }

  lemma {:induction false} ElementsAreOk(defs: seq<Definition>)
    requires CatalogOk(defs)
    ensures forall i | 0 <= i < |defs| :: ElementsOk(defs[i].elements, defs[i].required)
  {
    assert forall i | 0 <= i < |defs| :: DefinitionOk(defs[i]);
    hide ElementsOk;
  }

  lemma {:induction false} MadeBlockOk(defs: seq<Definition>, k: nat, page: seq<Block>, i: nat)
    requires CatalogOk(defs) && k < |defs| && i < |page| && BlockMade(defs[k], page[i])
    requires Distinct(PageIds(page)) && forall e | e in Flat(page) :: ElementOk(e)
    ensures StructureOk(page[i]) && BlockFits(defs, page[i]) && PinnedHome(defs, page[i]) && ShownIfRequired(defs, page[i])
  {
    hide Flat;
    hide ElementOk;
    hide Slots;
    hide PinnedHome;
    hide ShownIfRequired;
    FindAt(defs, k);
    var d, b := defs[k], page[i];
    assert 1 <= |Slots(b.layout)| && Columns(d.width) != 0 by { CatalogLayouts(defs); }
    hide CatalogOk;
    MadeHome(defs, k, b);
    MadeStructure(d, page, i);
    hide StructureOk;
    hide Find;
  }

  lemma {:induction false} MadeHome(defs: seq<Definition>, k: nat, b: Block)
    requires k < |defs| && BlockMade(defs[k], b) && Find(defs, defs[k].id) == Some(defs[k])
    ensures PinnedHome(defs, b) && ShownIfRequired(defs, b)
  {
    hide Find;
    hide Slots;
    hide Columns;
  }

  lemma {:induction false} MadeStructure(d: Definition, page: seq<Block>, i: nat)
    requires i < |page| && BlockMade(d, page[i]) && 1 <= |Slots(page[i].layout)|
    requires Distinct(PageIds(page)) && forall e | e in Flat(page) :: ElementOk(e)
    ensures StructureOk(page[i])
  {
    var b := page[i];
    FlatMembers(page);
    IdsWithinPage(page, i);
    LayoutSlotsDistinct(b.layout);
    forall m, n | 0 <= m < n < |b.elements| ensures Map(SlotOf, b.elements)[m] != Map(SlotOf, b.elements)[n] {
      assert b.elements[m].slot == Slots(b.layout)[m] && b.elements[n].slot == Slots(b.layout)[n];
    }
    forall e | e in b.elements ensures ElementOk(e) && e.slot in Slots(b.layout) {
      var m :| 0 <= m < |b.elements| && b.elements[m] == e;
      assert e in Flat(page);
    }
    hide Flat;
    hide ElementOk;
    hide Slots;
  }

  /** A placed page keeps every rule a page keeps. */
  lemma {:induction false} PlacePageOk(kind: Kind, tagged: seq<Element>, mint: nat -> Id)
    requires Placed(kind, tagged, mint).Some?
    requires Readable(tagged) && SuppliedOnce(tagged) && Fresh(mint, Supplied(tagged))
    ensures PageOk(CatalogOf(kind).value, Placed(kind, tagged, mint).value)
  {
    hide CatalogOf;
    hide PlaceAll;
    hide Readable;
    hide SuppliedOnce;
    CatalogsAreOk(kind);
    var defs := CatalogOf(kind).value;
    var p := PlaceAll(defs, tagged, mint).value;
    var from := KeepPlaceAll(defs, tagged, mint);
    hide Keeping;
    PlacedElements(defs, tagged, mint, p, from);
    CatalogLayouts(defs);
    CatalogIds(defs);
    LaysAll(defs, tagged, mint);
    hide LayoutsOk;
    hide CatalogOk;
    LaidIsOk(defs, mint, p.minted, p.blocks);
  }

  lemma {:induction false} CatalogIds(defs: seq<Definition>)
    requires CatalogOk(defs)
    ensures forall i, j | 0 <= i < j < |defs| :: defs[i].id != defs[j].id
  {
  }

  lemma {:induction false} LaidIsOk(defs: seq<Definition>, mint: nat -> Id, minted: nat, page: seq<Block>)
    requires CatalogOk(defs) && Laid(defs, mint, minted, page)
    requires ElementsFit(Flat(page)) && forall e | e in Flat(page) :: ElementOk(e)
    ensures PageOk(defs, page)
  {
    assert Distinct(PageIds(page));
    hide *;
    LaidParts(defs, mint, minted, page);
    forall i | 0 <= i < |page|
      ensures StructureOk(page[i]) && BlockFits(defs, page[i]) && PinnedHome(defs, page[i]) && ShownIfRequired(defs, page[i])
    {
      SomeMade(defs, page, i);
    }
    PartsAreOk(defs, page);
  }

  lemma {:induction false} SomeMade(defs: seq<Definition>, page: seq<Block>, i: nat)
    requires CatalogOk(defs) && i < |page| && MadeBySome(defs, page[i])
    requires Distinct(PageIds(page)) && forall e | e in Flat(page) :: ElementOk(e)
    ensures StructureOk(page[i]) && BlockFits(defs, page[i]) && PinnedHome(defs, page[i]) && ShownIfRequired(defs, page[i])
  {
    var k :| 0 <= k < |defs| && BlockMade(defs[k], page[i]);
    hide *;
    MadeBlockOk(defs, k, page, i);
  }

  lemma {:induction false} LaidParts(defs: seq<Definition>, mint: nat -> Id, minted: nat, page: seq<Block>)
    requires Laid(defs, mint, minted, page)
    ensures Positioned(page) && Distinct(BlockIds(page)) && RequiredPresent(defs, page)
    ensures forall i | 0 <= i < |page| :: MadeBySome(defs, page[i])
    ensures forall i, j | 0 <= i < j < |page| :: page[i].definition != page[j].definition
  {
  }

  lemma {:induction false} PartsAreOk(defs: seq<Definition>, page: seq<Block>)
    requires Positioned(page) && Distinct(BlockIds(page)) && RequiredPresent(defs, page) && ElementsFit(Flat(page))
    requires forall i | 0 <= i < |page| ::
      StructureOk(page[i]) && BlockFits(defs, page[i]) && PinnedHome(defs, page[i]) && ShownIfRequired(defs, page[i])
    requires forall i, j | 0 <= i < j < |page| :: page[i].definition != page[j].definition
    ensures PageOk(defs, page)
  {
    assert BlocksFit(defs, page) by {
      hide BlockFits;
      hide MayRepeat;
    }
    hide *;
    PageFromParts(defs, page);
  }

  /** From a placement on, any run of edits keeps every rule of a page. */
  lemma {:induction false} PlacedPagesStayOk(kind: Kind, tagged: seq<Element>, mint: nat -> Id, edits: seq<Edit>)
    requires Placed(kind, tagged, mint).Some?
    requires Readable(tagged) && SuppliedOnce(tagged) && Fresh(mint, Supplied(tagged))
    requires RunFresh(CatalogOf(kind).value, Placed(kind, tagged, mint).value, edits)
    ensures PageOk(CatalogOf(kind).value, Run(CatalogOf(kind).value, Placed(kind, tagged, mint).value, edits))
  {
    assert CatalogOf(kind).Some?;
    hide *;
    CatalogsAreOk(kind);
    PlacePageOk(kind, tagged, mint);
    RunKeepsPage(CatalogOf(kind).value, Placed(kind, tagged, mint).value, edits);
  }
}
