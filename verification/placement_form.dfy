/** The page of a placement read off the catalog: no marks, no search and no count,
    only which slot each element asks for first. */
module PlacementForm {
  import opened Sequences
  import opened Blocks
  import opened Catalog
  import opened PageSteps
  import opened Placement
  import opened PlacementExact

  predicate Asks(slot: DefinedElement, e: Element) { e.role == slot.role && e.typ == slot.typ }

  ghost predicate AskedIn(slots: seq<DefinedElement>, e: Element) {
    exists k :: 0 <= k < |slots| && Asks(slots[k], e)
  }

  /** Whether a supplied element asks for this slot and for none before it. */
  ghost predicate Wanted(done: seq<DefinedElement>, slot: DefinedElement, tagged: seq<Element>) {
    exists i :: 0 <= i < |tagged| && Asks(slot, tagged[i]) && !AskedIn(done, tagged[i])
  }

  /** What stands in a slot: the element that asks for it, under the catalog's options
      and its own id where it brought one, or an empty element where the slot is
      pinned and nothing asks. */
  ghost predicate Filled(done: seq<DefinedElement>, slot: DefinedElement, tagged: seq<Element>, e: Element) {
    && e.role == slot.role && e.typ == slot.typ && e.options == slot.options
    && ((exists i :: 0 <= i < |tagged| && Asks(slot, tagged[i]) && !AskedIn(done, tagged[i])
                     && e.content == tagged[i].content && (tagged[i].id != NIL ==> e.id == tagged[i].id))
        || (slot.pinned && !Wanted(done, slot, tagged) && e.content == EmptyContent()))
  }

  /** A definition's elements, slot by slot. */
  ghost predicate Fills(done: seq<DefinedElement>, slots: seq<DefinedElement>, tagged: seq<Element>, es: seq<Element>)
    decreases |slots|
  {
    if slots == [] then es == []
    else
      var n := |slots| - 1;
      if Wanted(done + slots[..n], slots[n], tagged) || slots[n].pinned
      then es != [] && Filled(done + slots[..n], slots[n], tagged, es[|es| - 1])
           && Fills(done, slots[..n], tagged, es[..|es| - 1])
      else Fills(done, slots[..n], tagged, es)
  }

  /** The block of a definition: shown, untitled, in the first layout with room, its
      elements in the layout's slots in order. */
  ghost predicate Holds(done: seq<DefinedElement>, d: Definition, tagged: seq<Element>, b: Block) {
    && b.definition == d.id && b.title.None? && !b.hidden && b.width == d.width
    && Fills(done, d.elements, tagged, b.elements)
    && (exists l :: 0 <= l < |d.layouts| && d.layouts[l] == b.layout && |b.elements| <= |Slots(b.layout)|
                    && forall m | 0 <= m < l :: |Slots(d.layouts[m])| < |b.elements|)
    && (forall k | 0 <= k < |b.elements| && k < |Slots(b.layout)| :: b.elements[k].slot == Slots(b.layout)[k])
  }

  ghost predicate AnythingFor(done: seq<DefinedElement>, slots: seq<DefinedElement>, tagged: seq<Element>) {
    exists k :: 0 <= k < |slots| && (slots[k].pinned || Wanted(done + slots[..k], slots[k], tagged))
  }

  /** A page: one block, in catalog order, for each definition that is required or has
      anything to hold. */
  ghost predicate Lays(defs: seq<Definition>, tagged: seq<Element>, page: seq<Block>)
    decreases |defs|
  {
    if defs == [] then page == []
    else
      var n := |defs| - 1;
      var done := AllSlots(defs[..n]);
      if defs[n].required || AnythingFor(done, defs[n].elements, tagged)
      then page != [] && page[|page| - 1].position == |page| - 1 && Holds(done, defs[n], tagged, page[|page| - 1])
           && Lays(defs[..n], tagged, page[..|page| - 1])
      else Lays(defs[..n], tagged, page)
  }

  // ---- a definition -------------------------------------------------------

  lemma {:induction false} HomedAsks(slots: seq<DefinedElement>, e: Element)
    ensures Homed(slots, e) <==> AskedIn(slots, e)
  {
    forall k | 0 <= k < |slots| ensures Matches(slots[k], e) <==> Asks(slots[k], e) {}
    hide Matches;
    hide Asks;
  }

  /** What one slot took, given that exactly the elements asked for so far are
      marked. */
  lemma {:induction false} FillOneFills(done: seq<DefinedElement>, defined: DefinedElement, tagged: seq<Element>,
                                        mint: nat -> Id, f: Filling)
    requires |f.placed| == |tagged| && FillOne(defined, tagged, mint, f).Some?
    requires forall i | 0 <= i < |tagged| :: f.placed[i] <==> AskedIn(done, tagged[i])
    ensures var g := FillOne(defined, tagged, mint, f).value;
      if Wanted(done, defined, tagged) || defined.pinned
      then |g.elements| == |f.elements| + 1 && g.elements[..|f.elements|] == f.elements
           && Filled(done, defined, tagged, g.elements[|f.elements|])
      else g.elements == f.elements
  {
    hide AskedIn;
    hide FillOne;
    hide Adopted;
    FillOneIs(defined, tagged, mint, f, []);
    assert forall i | 0 <= i < |tagged| :: Matches(defined, tagged[i]) <==> Asks(defined, tagged[i]);
    hide NextFrom;
    var g := FillOne(defined, tagged, mint, f).value;
    if i, id :| 0 <= i < |tagged| && !f.placed[i] && Matches(defined, tagged[i])
                && g.elements == f.elements + [Adopted(tagged[i], defined, id)] && g.placed == f.placed[i := true] {
      AdoptedIs(tagged[i], defined, id);
      TakenFills(done, defined, tagged, i, g.elements[|f.elements|]);
    }
    hide Matches;
    hide Asks;
  }

  lemma {:induction false} AdoptedIs(e: Element, defined: DefinedElement, id: Id)
    ensures var a := Adopted(e, defined, id);
      a.role == e.role && a.typ == e.typ && a.content == e.content && a.options == defined.options && (e.id != NIL ==> a.id == e.id)
  {
  }

  lemma {:induction false} TakenFills(done: seq<DefinedElement>, defined: DefinedElement, tagged: seq<Element>, i: nat, e: Element)
    requires i < |tagged| && Asks(defined, tagged[i]) && !AskedIn(done, tagged[i])
    requires e.role == tagged[i].role && e.typ == tagged[i].typ && e.content == tagged[i].content
    requires e.options == defined.options && (tagged[i].id != NIL ==> e.id == tagged[i].id)
    ensures Wanted(done, defined, tagged) && Filled(done, defined, tagged, e)
  {
    hide AskedIn;
  }

  lemma {:induction false} MarksAre(done: seq<DefinedElement>, tagged: seq<Element>, mint: nat -> Id, placed: seq<bool>,
                                    minted: nat, es: seq<Element>, from: seq<Source>)
    requires Keeping(done, tagged, mint, placed, minted, es, from)
    ensures |placed| == |tagged| && forall i | 0 <= i < |tagged| :: placed[i] <==> AskedIn(done, tagged[i])
  {
    forall i | 0 <= i < |tagged| ensures Homed(done, tagged[i]) <==> AskedIn(done, tagged[i]) { HomedAsks(done, tagged[i]); }
    hide Homed;
    hide AskedIn;
    hide Shaped;
    hide Sourced;
    hide Named;
  }

  lemma {:induction false} FillFills(done: seq<DefinedElement>, slots: seq<DefinedElement>, tagged: seq<Element>,
      mint: nat -> Id, f: Filling, pre: seq<Element>, from: seq<Source>)
    requires |f.placed| == |tagged| && Fill(slots, tagged, mint, f).Some? && f.elements == []
    requires Keeping(done, tagged, mint, f.placed, f.minted, pre, from)
    ensures Fills(done, slots, tagged, Fill(slots, tagged, mint, f).value.elements)
    ensures Fill(slots, tagged, mint, f).value.elements == [] <==> !AnythingFor(done, slots, tagged)
    decreases |slots|
  {
    hide Keeping;
    hide FillOne;
    hide Wanted;
    hide Filled;
    if slots != [] {
      var n := |slots| - 1;
      FillFills(done, slots[..n], tagged, mint, f, pre, from);
      var g := Fill(slots[..n], tagged, mint, f).value;
      assert pre + f.elements == pre;
      var next := KeepFill(done, slots[..n], tagged, mint, f, pre, from);
      MarksAre(done + slots[..n], tagged, mint, g.placed, g.minted, pre + g.elements, next);
      FillOneFills(done + slots[..n], slots[n], tagged, mint, g);
      AnythingMore(done, slots, tagged);
      var es := Fill(slots, tagged, mint, f).value.elements;
      assert es == FillOne(slots[n], tagged, mint, g).value.elements;
      hide Fill;
      hide AnythingFor;
      if es != g.elements { assert es[..|es| - 1] == g.elements; }
    }
  }

  lemma {:induction false} AnythingMore(done: seq<DefinedElement>, slots: seq<DefinedElement>, tagged: seq<Element>)
    requires slots != []
    ensures var n := |slots| - 1;
      AnythingFor(done, slots, tagged) <==>
        AnythingFor(done, slots[..n], tagged) || slots[n].pinned || Wanted(done + slots[..n], slots[n], tagged)
  {
    hide Wanted;
    var n := |slots| - 1;
    forall k | 0 <= k < n ensures slots[..n][k] == slots[k] && slots[..n][..k] == slots[..k] {}
    if AnythingFor(done, slots[..n], tagged) {
      var k :| 0 <= k < n && (slots[..n][k].pinned || Wanted(done + slots[..n][..k], slots[..n][k], tagged));
      assert slots[k].pinned || Wanted(done + slots[..k], slots[k], tagged);
    }
    if AnythingFor(done, slots, tagged) {
      var k :| 0 <= k < |slots| && (slots[k].pinned || Wanted(done + slots[..k], slots[k], tagged));
      if k < n { assert slots[..n][k].pinned || Wanted(done + slots[..n][..k], slots[..n][k], tagged); }
    }
  }

  /** Where an element stands does not matter to what it fills. */
  lemma {:induction false} FillsMoved(done: seq<DefinedElement>, slots: seq<DefinedElement>, tagged: seq<Element>,
                                      x: seq<Element>, y: seq<Element>)
    requires Fills(done, slots, tagged, x) && SameButSlots(x, y)
    ensures Fills(done, slots, tagged, y)
    decreases |slots|
  {
    hide Wanted;
    if slots != [] {
      var n := |slots| - 1;
      if Wanted(done + slots[..n], slots[n], tagged) || slots[n].pinned {
        FilledMoved(done + slots[..n], slots[n], tagged, x[|x| - 1], y[|y| - 1]);
        hide Filled;
        FillsMoved(done, slots[..n], tagged, x[..|x| - 1], y[..|y| - 1]);
      } else {
        FillsMoved(done, slots[..n], tagged, x, y);
      }
    }
  }

  lemma {:induction false} FilledMoved(done: seq<DefinedElement>, slot: DefinedElement, tagged: seq<Element>, x: Element, y: Element)
    requires Filled(done, slot, tagged, x) && y == x.(slot := y.slot)
    ensures Filled(done, slot, tagged, y)
  {
    hide AskedIn;
    hide Wanted;
  }

  // ---- a page -------------------------------------------------------------

  lemma {:induction false} FirstLayout(layouts: seq<Layout>, count: nat) returns (l: nat)
    requires LayoutFor(layouts, count).Some?
    ensures l < |layouts| && layouts[l] == LayoutFor(layouts, count).value && count <= |Slots(layouts[l])|
    ensures forall m | 0 <= m < l :: |Slots(layouts[m])| < count
  {
    hide Slots;
    if |Slots(layouts[0])| >= count {
      l := 0;
    } else {
      l := FirstLayout(layouts[1..], count);
      l := l + 1;
      forall m | 0 <= m < l ensures |Slots(layouts[m])| < count { if m > 0 { assert layouts[m] == layouts[1..][m - 1]; } }
    }
  }

  lemma {:induction false} BlockHolds(done: seq<DefinedElement>, d: Definition, tagged: seq<Element>, es: seq<Element>, b: Block)
    requires Fills(done, d.elements, tagged, es) && LayoutFor(d.layouts, |es|) == Some(b.layout)
    requires b.definition == d.id && b.title.None? && !b.hidden && b.width == d.width
    requires |es| <= |Slots(b.layout)| && b.elements == Reslotted(es, Slots(b.layout))
    ensures Holds(done, d, tagged, b)
  {
    hide Fills;
    hide Slots;
    var l := FirstLayout(d.layouts, |es|);
    FillsMoved(done, d.elements, tagged, es, b.elements);
    hide LayoutFor;
  }

  lemma {:induction false} PlaceOneHolds(done: seq<DefinedElement>, d: Definition, tagged: seq<Element>, mint: nat -> Id,
      p: Placing, from: seq<Source>)
    requires |p.placed| == |tagged| && PlaceOne(d, tagged, mint, p).Some?
    requires Keeping(done, tagged, mint, p.placed, p.minted, Flat(p.blocks), from)
    ensures var blocks := PlaceOne(d, tagged, mint, p).value.blocks;
      if d.required || AnythingFor(done, d.elements, tagged)
      then |blocks| == |p.blocks| + 1 && blocks[..|p.blocks|] == p.blocks
           && blocks[|p.blocks|].position == |p.blocks| && Holds(done, d, tagged, blocks[|p.blocks|])
      else blocks == p.blocks
  {
    hide Keeping;
    hide Fill;
    hide Fills;
    hide Flat;
    hide Slots;
    hide LayoutFor;
    hide Reslotted;
    hide Holds;
    hide AnythingFor;
    var start := Filling(p.placed, p.minted, []);
    FillFills(done, d.elements, tagged, mint, start, Flat(p.blocks), from);
    var f := Fill(d.elements, tagged, mint, start).value;
    var blocks := PlaceOne(d, tagged, mint, p).value.blocks;
    if f.elements != [] || d.required {
      BlockHolds(done, d, tagged, f.elements, blocks[|p.blocks|]);
    }
  }

  lemma {:induction false} PlaceAllLays(defs: seq<Definition>, tagged: seq<Element>, mint: nat -> Id)
    requires PlaceAll(defs, tagged, mint).Some?
    ensures Lays(defs, tagged, PlaceAll(defs, tagged, mint).value.blocks)
    decreases |defs|
  {
    hide PlaceOne;
    hide Keeping;
    hide Holds;
    hide AllSlots;
    hide AnythingFor;
    if defs != [] {
      var n := |defs| - 1;
      PlaceAllLays(defs[..n], tagged, mint);
      var p := PlaceAll(defs[..n], tagged, mint).value;
      var from := KeepPlaceAll(defs[..n], tagged, mint);
      PlaceOneHolds(AllSlots(defs[..n]), defs[n], tagged, mint, p, from);
      var page := PlaceAll(defs, tagged, mint).value.blocks;
      if page != p.blocks { assert page[..|page| - 1] == p.blocks; }
    }
  }

  /** Searching, marking and counting lead to the page the catalog and what asks for
      its slots describe. */
  lemma {:induction false} PlacedAsDescribed(kind: Kind, tagged: seq<Element>, mint: nat -> Id)
    requires Placed(kind, tagged, mint).Some?
    ensures CatalogOf(kind).Some? && Lays(CatalogOf(kind).value, tagged, Placed(kind, tagged, mint).value)
  {
    hide CatalogOf;
    hide Lays;
    hide PlaceAll;
    PlaceAllLays(CatalogOf(kind).value, tagged, mint);
  }
}
