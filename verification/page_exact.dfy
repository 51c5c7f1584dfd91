/** Exactly when each step is accepted on a good page, and what it conserves. */
module PageExact {
  import opened Sequences
  import opened Blocks
  import opened Catalog
  import opened PageRules
  import opened PageSteps
  import opened PageInvariant

  lemma {:induction false} PageParts(defs: seq<Definition>, page: seq<Block>)
    requires PageOk(defs, page)
    ensures BlocksFit(defs, page) && ElementsFit(Flat(page)) && Distinct(BlockIds(page))
    ensures forall i | 0 <= i < |page| :: StructureOk(page[i])
  {
  }

  lemma {:induction false} Builder(defs: seq<Definition>, before: seq<Block>, after: seq<Block>)
    ensures BuilderOk(defs, before, after) <==>
      && BlocksFit(defs, after) && ElementsFit(Flat(after)) && Known(IdSet(before), Flat(after))
      && PinnedKept(defs, before, after)
  {
  }

  lemma {:induction false} KnownInPage(page: seq<Block>, part: seq<Block>)
    requires forall e | e in Flat(part) :: e in Flat(page)
    ensures Known(IdSet(page), Flat(part))
  {
    forall e | e in Flat(part) ensures e.id in IdSet(page) {
      var i :| 0 <= i < |Flat(page)| && Flat(page)[i] == e;
      assert PageIds(page)[i] == e.id;
    }
  }

  lemma {:induction false} FlatOfPart(page: seq<Block>, part: seq<Block>)
    requires forall b | b in part :: exists i :: 0 <= i < |page| && page[i].elements == b.elements
    ensures forall e | e in Flat(part) :: e in Flat(page)
  {
    FlatMembers(part);
    FlatMembers(page);
    forall e | e in Flat(part) ensures e in Flat(page) {
      var i :| 0 <= i < |part| && e in part[i].elements;
      var j :| 0 <= j < |page| && page[j].elements == part[i].elements;
      var k :| 0 <= k < |page[j].elements| && page[j].elements[k] == e;
    }
  }

  lemma {:induction false} HoldsOwn(holder: Block, j: nat)
    requires j < |holder.elements|
    ensures Holds(holder, holder.elements[j])
  {
    assert holder.elements[j] in holder.elements;
  }

  /** Dropping a block that pins nothing leaves every pin in place. */
  lemma {:induction false} PinnedKeptWithout(defs: seq<Definition>, page: seq<Block>, k: nat)
    requires CatalogOk(defs) && k < |page| && !IsRequired(defs, page[k])
    ensures PinnedKept(defs, page, Without(page, k))
  {
    var w := Without(page, k);
    WithoutAt'(page, k);
    forall i, j | 0 <= i < |page| && 0 <= j < |page[i].elements|
                  && Pinned(defs, page[i], page[i].elements[j].role)
      ensures PinnedPresent(w, page[i].id, page[i].elements[j])
    {
      OnlyRequiredPin(defs, page[i], page[i].elements[j].role);
      HoldsOwn(page[i], j);
      assert w[if i < k then i else i - 1] == page[i];
    }
  }

  lemma {:induction false} BlocksFitWithout(defs: seq<Definition>, page: seq<Block>, k: nat)
    requires k < |page| && BlocksFit(defs, page)
    ensures BlocksFit(defs, Without(page, k))
  {
    WithoutAt'(page, k);
    var w := Without(page, k);
    hide Without;
    forall i, j | 0 <= i < j < |w| && w[i].definition == w[j].definition
      ensures MayRepeat(defs, w[i].definition)
    {
      assert w[i] == page[if i < k then i else i + 1] && w[j] == page[if j < k then j else j + 1];
    }
    hide MayRepeat;
    hide BlockFits;
  }

  lemma {:induction false} SameBagFits(x: seq<Element>, y: seq<Element>)
    requires multiset(x) == multiset(y) && ElementsFit(x)
    ensures ElementsFit(y)
  {
    MapPermuted(NoSlot, x, y);
    FacesFit(x, y);
  }

  lemma {:induction false} RemoveBuilds(defs: seq<Definition>, page: seq<Block>, k: nat)
    requires CatalogOk(defs) && PageOk(defs, page) && k < |page| && !IsRequired(defs, page[k])
    ensures BuilderOk(defs, page, Without(page, k))
  {
    hide *;
    var flat := Flat(Without(page, k));
    PageParts(defs, page);
    BlocksFitWithout(defs, page, k);
    PinnedKeptWithout(defs, page, k);
    FlatWithout(page, k);
    SameBagFits(Flat(page), flat + page[k].elements);
    ElementsFitPrefix(flat, page[k].elements);
    PartOfPage(page, k);
    Builder(defs, page, Without(page, k));
  }

  lemma {:induction false} PartOfPage(page: seq<Block>, k: nat)
    requires k < |page|
    ensures Known(IdSet(page), Flat(Without(page, k)))
  {
    WithoutAt'(page, k);
    FlatOfPart(page, Without(page, k));
    KnownInPage(page, Without(page, k));
  }

  /** On a good page the re-validation inside Remove never refuses: an optional
      block that is there is removed. */
  lemma {:induction false} RemoveExactly(defs: seq<Definition>, page: seq<Block>, id: Id)
    requires CatalogOk(defs) && PageOk(defs, page)
    ensures RemovePage(defs, page, id).Done? <==>
      IndexOf(page, id).Some? && !IsRequired(defs, page[IndexOf(page, id).value])
  {
    if IndexOf(page, id).Some? && !IsRequired(defs, page[IndexOf(page, id).value]) {
      RemoveBuilds(defs, page, IndexOf(page, id).value);
    }
    hide PageOk;
    hide BuilderOk;
    hide CatalogOk;
    hide IsRequired;
  }

  // ---- move ---------------------------------------------------------------

  lemma {:induction false} MovedAway(page: seq<Block>, s: nat, d: nat, filled: Block)
    requires s < |page| && d < |page| && s != d
    ensures var d' := if d < s then d else d - 1;
      && d' < |Without(page, s)| && Without(page, s)[d'] == page[d]
      && Without(page[d := filled], s) == Without(page, s)[d' := filled]
  {
  }

  lemma {:induction false} SameFacesMoved(page: seq<Block>, s: nat, d: nat)
    requires s < |page| && d < |page| && s != d
    requires |page[s].elements| <= |FreeSlots(page[d])|
    ensures SameFaces(Flat(page), Flat(Without(page[d := Filled(page[s], page[d])], s)))
  {
    var filled := Filled(page[s], page[d]);
    var w := Without(page, s);
    var d' := if d < s then d else d - 1;
    var moved := Reslotted(page[s].elements, FreeSlots(page[d]));
    assert Faces(moved) == Faces(page[s].elements);
    MovedAway(page, s, d, filled);
    assert filled.elements == page[d].elements + moved;
    hide *;
    FlatWithout(page, s);
    FacesSplit(Flat(page), Flat(w), page[s].elements);
    FlatAt(w, d');
    FlatReplace(w, d', filled);
    var above, below := Flat(w[..d']), Flat(w[d' + 1..]);
    BagOfInserted(above, page[d].elements, moved, below);
    FacesSplit(above + (page[d].elements + moved) + below, above + page[d].elements + below, moved);
    SameFacesAre(Flat(page), Flat(Without(page[d := filled], s)));
  }

  lemma {:induction false} SameFacesAre(x: seq<Element>, y: seq<Element>)
    ensures SameFaces(x, y) <==> multiset(Faces(x)) == multiset(Faces(y))
  {
  }

  lemma {:induction false} BagOfInserted<T>(a: seq<T>, x: seq<T>, y: seq<T>, b: seq<T>)
    ensures multiset(a + (x + y) + b) == multiset((a + x + b) + y)
  {
    assert multiset(a + (x + y) + b) == multiset(a) + multiset(x) + multiset(y) + multiset(b);
  }

  lemma {:induction false} DistinctWithin<T>(s: seq<T>, t: seq<T>)
    requires Distinct(s) && forall x | x in s :: x in t
    ensures |s| <= |t|
    decreases |s|
  {
    if s != [] {
      assert s[0] in t;
      var j :| 0 <= j < |t| && t[j] == s[0];
      var u := t[..j] + t[j + 1..];
      forall x | x in s[1..] ensures x in u {
        var i :| 0 <= i < |s[1..]| && s[1..][i] == x;
        assert s[i + 1] == x && s[0] != s[i + 1];
        StillIn(t, j, x);
      }
      assert Distinct(s[1..]);
      DistinctWithin(s[1..], u);
    }
  }

  lemma {:induction false} VacantDistinct(slots: seq<Slot>, occupied: set<Slot>)
    requires Distinct(slots)
    ensures Distinct(Vacant(slots, occupied))
  {
    if slots != [] {
      forall i | 0 <= i < |slots[1..]| ensures slots[1..][i] != slots[0] {
        assert slots[i + 1] != slots[0];
      }
      assert Distinct(slots[1..]);
      VacantDistinct(slots[1..], occupied);
      assert slots[0] !in Vacant(slots[1..], occupied);
    }
  }

  lemma {:induction false} DistinctUnion<T>(s: seq<T>, t: seq<T>)
    requires Distinct(s) && Distinct(t) && forall x | x in s :: x !in t
    ensures Distinct(s + t)
  {
    forall i, j | 0 <= i < j < |s + t| ensures (s + t)[i] != (s + t)[j] {
      if i < |s| && |s| <= j { assert s[i] in s && t[j - |s|] in t; }
    }
  }

  /** The slots of a block that took in content are distinct slots of its layout. */
  lemma {:induction false} FilledSlots(source: Block, destination: Block)
    requires |source.elements| <= |FreeSlots(destination)| && StructureOk(destination)
    ensures var slots := Map(SlotOf, Filled(source, destination).elements);
      Distinct(slots) && forall x | x in slots :: x in Slots(destination.layout)
  {
    var filled := Filled(source, destination);
    var taken := Map(SlotOf, destination.elements);
    var free := FreeSlots(destination)[..|source.elements|];
    assert Map(SlotOf, filled.elements) == taken + free;
    LayoutSlotsDistinct(destination.layout);
    VacantDistinct(Slots(destination.layout), Occupied(destination.elements));
    forall x | x in taken ensures x in Slots(destination.layout) && x !in free {
      var i :| 0 <= i < |taken| && taken[i] == x;
      assert destination.elements[i] in destination.elements;
      assert x in Occupied(destination.elements);
    }
    forall x | x in free ensures x in Slots(destination.layout) {
      assert x in FreeSlots(destination);
    }
    DistinctUnion(taken, free);
  }

  lemma {:induction false} FilledStructure(source: Block, destination: Block)
    requires |source.elements| <= |FreeSlots(destination)|
    requires StructureOk(source) && StructureOk(destination)
    requires Distinct(Ids(Filled(source, destination).elements))
    ensures StructureOk(Filled(source, destination))
  {
    hide Slots;
    hide FreeSlots;
    hide ElementOk;
    var filled := Filled(source, destination);
    FilledSlots(source, destination);
    FilledElementsOk(source, destination);
    hide Filled;
    var slots := Map(SlotOf, filled.elements);
    DistinctWithin(slots, Slots(destination.layout));
    assert |slots| == |filled.elements|;
    forall e | e in filled.elements ensures e.slot in Slots(destination.layout) {
      var i :| 0 <= i < |filled.elements| && filled.elements[i] == e;
      assert slots[i] == e.slot && slots[i] in slots;
    }
  }

  lemma {:induction false} FilledElementsOk(source: Block, destination: Block)
    requires |source.elements| <= |FreeSlots(destination)|
    requires StructureOk(source) && StructureOk(destination)
    ensures Filled(source, destination).layout == destination.layout
    ensures forall e | e in Filled(source, destination).elements :: ElementOk(e)
  {
    hide Slots;
    hide FreeSlots;
    var filled := Filled(source, destination);
    forall e | e in filled.elements ensures ElementOk(e) {
      var i :| 0 <= i < |filled.elements| && filled.elements[i] == e;
      if i < |destination.elements| {
        assert e == destination.elements[i] && e in destination.elements;
      } else {
        var k := i - |destination.elements|;
        var f := source.elements[k];
        assert f in source.elements && ElementOk(f);
        assert e == Reslotted(source.elements, FreeSlots(destination))[k] && NoSlot(f) == NoSlot(e);
        SlotAside(f, e);
      }
      hide ElementOk;
    }
  }

  /** Whether an element is readable does not rest on its slot. */
  lemma {:induction false} SlotAside(a: Element, b: Element)
    requires NoSlot(a) == NoSlot(b) && ElementOk(a)
    ensures ElementOk(b)
  {
    assert a.id == b.id && a.typ == b.typ && a.options == b.options && a.content == b.content;
  }

  lemma {:induction false} FilledFits(defs: seq<Definition>, page: seq<Block>, d: nat, filled: Block)
    requires BlocksFit(defs, page) && d < |page| && filled == page[d].(elements := filled.elements)
    ensures BlocksFit(defs, page[d := filled])
  {
    var before := page[d := filled];
    forall i | 0 <= i < |before| ensures BlockFits(defs, before[i]) { assert BlockFits(defs, page[i]); }
    hide BlockFits;
    hide MayRepeat;
    forall i, j | 0 <= i < j < |before| && before[i].definition == before[j].definition
      ensures MayRepeat(defs, before[i].definition)
    {
      assert page[i].definition == page[j].definition;
    }
  }

  lemma {:induction false} MoveFits(defs: seq<Definition>, page: seq<Block>, s: nat, d: nat)
    requires BlocksFit(defs, page) && ElementsFit(Flat(page))
    requires s < |page| && d < |page| && s != d && |page[s].elements| <= |FreeSlots(page[d])|
    ensures var before := page[d := Filled(page[s], page[d])];
      && BlocksFit(defs, Without(before, s)) && ElementsFit(Flat(Without(before, s)))
      && Known(IdSet(before), Flat(Without(before, s)))
  {
    var before := page[d := Filled(page[s], page[d])];
    FilledFits(defs, page, d, Filled(page[s], page[d]));
    hide *;
    SameFacesMoved(page, s, d);
    FacesFit(Flat(page), Flat(Without(before, s)));
    PartOfPage(before, s);
    BlocksFitWithout(defs, before, s);
  }

  lemma {:induction false} MoveStructure(page: seq<Block>, s: nat, d: nat)
    requires s < |page| && d < |page| && s != d && |page[s].elements| <= |FreeSlots(page[d])|
    requires StructureOk(page[s]) && StructureOk(page[d])
    requires ElementsFit(Flat(Without(page[d := Filled(page[s], page[d])], s)))
    ensures StructureOk(Filled(page[s], page[d]))
  {
    var w := Without(page[d := Filled(page[s], page[d])], s);
    MovedAway(page, s, d, Filled(page[s], page[d]));
    assert Distinct(PageIds(w));
    hide *;
    IdsWithinPage(w, if d < s then d else d - 1);
    FilledStructure(page[s], page[d]);
  }

  /** The destination's pins and every other block's are where they were. */
  lemma {:induction false} MoveBuilds(defs: seq<Definition>, page: seq<Block>, s: nat, d: nat)
    requires CatalogOk(defs) && PageOk(defs, page) && s < |page| && d < |page| && s != d
    requires !IsRequired(defs, page[s]) && |page[s].elements| <= |FreeSlots(page[d])|
    ensures var before := page[d := Filled(page[s], page[d])];
      BuilderOk(defs, before, Without(before, s)) && StructureOk(before[d])
  {
    hide *;
    var before := page[d := Filled(page[s], page[d])];
    PageParts(defs, page);
    MoveFits(defs, page, s, d);
    PinnedKeptWithout(defs, before, s);
    Builder(defs, before, Without(before, s));
    MoveStructure(page, s, d);
  }

  lemma {:induction false} UnrequiredUnpinned(defs: seq<Definition>, holder: Block)
    requires CatalogOk(defs) && !IsRequired(defs, holder)
    ensures forall e | e in holder.elements :: !Pinned(defs, holder, e.role)
  {
    forall e | e in holder.elements ensures !Pinned(defs, holder, e.role) {
      if Pinned(defs, holder, e.role) { OnlyRequiredPin(defs, holder, e.role); }
    }
  }

  ghost predicate CanMove(defs: seq<Definition>, page: seq<Block>, sourceId: Id, destinationId: Id) {
    var s, d := IndexOf(page, sourceId), IndexOf(page, destinationId);
    && s.Some? && d.Some? && sourceId != destinationId
    && !IsRequired(defs, page[s.value])
    && page[s.value].elements != []
    && |page[s.value].elements| <= |FreeSlots(page[d.value])|
  }

  /** On a good page the re-validation inside Move never refuses, and its check
      for pinned content is already answered by the block being optional. */
  lemma {:induction false} MoveExactly(defs: seq<Definition>, page: seq<Block>, sourceId: Id,
                                       destinationId: Id)
    requires CatalogOk(defs) && PageOk(defs, page)
    ensures MovePage(defs, page, sourceId, destinationId).Done? <==>
      CanMove(defs, page, sourceId, destinationId)
  {
    var s, d := IndexOf(page, sourceId), IndexOf(page, destinationId);
    hide BuilderOk;
    hide StructureOk;
    hide PageOk;
    hide CatalogOk;
    hide IsRequired;
    hide Pinned;
    hide Filled;
    hide FreeSlots;
    hide Renumber;
    hide Without;
    if CanMove(defs, page, sourceId, destinationId) {
      MoveChecks(defs, page, s.value, d.value);
    }
  }

  lemma {:induction false} MoveChecks(defs: seq<Definition>, page: seq<Block>, s: nat, d: nat)
    requires CatalogOk(defs) && PageOk(defs, page) && s < |page| && d < |page| && s != d
    requires !IsRequired(defs, page[s]) && |page[s].elements| <= |FreeSlots(page[d])|
    ensures var before := page[d := Filled(page[s], page[d])];
      && (forall e | e in page[s].elements :: !Pinned(defs, page[s], e.role))
      && StructureOk(before[d]) && BuilderOk(defs, before, Renumber(Without(before, s)))
  {
    hide *;
    var before := page[d := Filled(page[s], page[d])];
    UnrequiredUnpinned(defs, page[s]);
    MoveBuilds(defs, page, s, d);
    BuilderRenumbered(defs, before, Without(before, s));
  }

  lemma {:induction false} BuilderRenumbered(defs: seq<Definition>, before: seq<Block>, after: seq<Block>)
    ensures BuilderOk(defs, before, after) <==> BuilderOk(defs, before, Renumber(after))
  {
    var numbered := Renumber(after);
    BlocksFitRenumbered(defs, after);
    FlatOfSameElements(after, numbered);
    forall id, e ensures PinnedPresent(after, id, e) <==> PinnedPresent(numbered, id, e) {
      forall i | 0 <= i < |after| ensures Holds(after[i], e) <==> Holds(numbered[i], e) {
      }
      if PinnedPresent(after, id, e) {
        var i :| 0 <= i < |after| && after[i].id == id && Holds(after[i], e);
        assert numbered[i].id == id && Holds(numbered[i], e);
      }
      if PinnedPresent(numbered, id, e) {
        var i :| 0 <= i < |after| && numbered[i].id == id && Holds(numbered[i], e);
        assert after[i].id == id && Holds(after[i], e);
      }
    }
    hide BlocksFit;
    hide ElementsFit;
  }

  /** A move loses, invents and alters nothing but slots. */
  lemma {:induction false} MoveConserves(defs: seq<Definition>, page: seq<Block>, sourceId: Id,
                                         destinationId: Id)
    requires PageOk(defs, page) && MovePage(defs, page, sourceId, destinationId).Done?
    ensures SameFaces(Flat(page), Flat(MovePage(defs, page, sourceId, destinationId).value))
  {
    var s, d := IndexOf(page, sourceId).value, IndexOf(page, destinationId).value;
    SameFacesMoved(page, s, d);
    var w := Without(page[d := Filled(page[s], page[d])], s);
    FlatOfSameElements(w, Renumber(w));
    hide PageOk;
    hide BuilderOk;
    hide StructureOk;
    hide SameFaces;
  }

  // ---- arrange ------------------------------------------------------------

  function WidthFits(layout: Layout, width: Width): bool {
    Columns(width) != 0 && Columns(MinimumWidth(layout)) <= Columns(width)
  }

  /** A rearrangement holds the same elements. */
  lemma {:induction false} ArrangedConserves(defs: seq<Definition>, page: seq<Block>, choices: seq<Choice>)
    requires Distinct(BlockIds(page)) && ChoicesOk(defs, page, choices)
    ensures multiset(Flat(ArrangedPage(page, choices))) == multiset(Flat(page))
  {
    if page == [] {
      assert ArrangedPage(page, choices) == [];
    } else {
      var after := ArrangedPage(page, choices);
      ChoicesCover(page, choices, 0);
      var elementsFor := (id: Id) => if IndexOf(page, id).Some? then page[IndexOf(page, id).value].elements else [];
      MapPermuted(elementsFor, ChoiceIds(choices), BlockIds(page));
      assert Map(elementsFor, ChoiceIds(choices)) == Map(ElementsOf, after);
      forall m | 0 <= m < |page| ensures elementsFor(BlockIds(page)[m]) == page[m].elements {
        SameBlock(page, m, IndexOf(page, page[m].id).value);
      }
      assert Map(elementsFor, BlockIds(page)) == Map(ElementsOf, page);
      FlattenPermuted(Map(ElementsOf, after), Map(ElementsOf, page));
    }
  }

  /** An arrangement is accepted exactly when it names every block once, hides
      none that must be shown, and gives each the width its layout needs. */
  lemma {:induction false} ArrangeExactly(defs: seq<Definition>, page: seq<Block>, choices: seq<Choice>)
    requires CatalogOk(defs) && PageOk(defs, page)
    ensures ArrangePage(defs, page, choices).Done? <==>
      && ChoicesOk(defs, page, choices)
      && forall i | 0 <= i < |choices| ::
           WidthFits(page[IndexOf(page, choices[i].id).value].layout, choices[i].width)
  {
    if ChoicesOk(defs, page, choices) {
      PageParts(defs, page);
      hide PageOk;
      hide CatalogOk;
      ArrangedElements(defs, page, choices);
      ArrangedPins(defs, page, choices);
      ArrangedFits(defs, page, choices);
      Builder(defs, page, ArrangedPage(page, choices));
      hide ChoicesOk;
      hide BuilderOk;
    }
  }

  lemma {:induction false} ArrangedElements(defs: seq<Definition>, page: seq<Block>, choices: seq<Choice>)
    requires Distinct(BlockIds(page)) && ChoicesOk(defs, page, choices) && ElementsFit(Flat(page))
    ensures ElementsFit(Flat(ArrangedPage(page, choices)))
    ensures Known(IdSet(page), Flat(ArrangedPage(page, choices)))
  {
    var after := ArrangedPage(page, choices);
    hide *;
    ArrangedConserves(defs, page, choices);
    SameBagFits(Flat(page), Flat(after));
    assert forall e | e in Flat(after) :: e in multiset(Flat(page));
    KnownInPage(page, after);
  }

  lemma {:induction false} ArrangedPins(defs: seq<Definition>, page: seq<Block>, choices: seq<Choice>)
    requires Distinct(BlockIds(page)) && ChoicesOk(defs, page, choices)
    ensures PinnedKept(defs, page, ArrangedPage(page, choices))
  {
    var after := ArrangedPage(page, choices);
    forall i, j | 0 <= i < |page| && 0 <= j < |page[i].elements|
                  && Pinned(defs, page[i], page[i].elements[j].role)
      ensures PinnedPresent(after, page[i].id, page[i].elements[j])
    {
      ChoicesCover(page, choices, i);
      var k :| 0 <= k < |choices| && IndexOf(page, choices[k].id) == Some(i);
      HoldsOwn(after[k], j);
      assert after[k].id == page[i].id;
    }
  }

  lemma {:induction false} ArrangedFits(defs: seq<Definition>, page: seq<Block>, choices: seq<Choice>)
    requires Distinct(BlockIds(page)) && ChoicesOk(defs, page, choices) && BlocksFit(defs, page)
    ensures BlocksFit(defs, ArrangedPage(page, choices)) <==>
      forall i | 0 <= i < |choices| ::
        WidthFits(page[IndexOf(page, choices[i].id).value].layout, choices[i].width)
  {
    var after := ArrangedPage(page, choices);
    forall i | 0 <= i < |choices|
      ensures BlockFits(defs, after[i]) <==>
        WidthFits(page[IndexOf(page, choices[i].id).value].layout, choices[i].width)
    {
      assert BlockFits(defs, page[IndexOf(page, choices[i].id).value]);
    }
    forall i, j | 0 <= i < j < |after| && after[i].definition == after[j].definition
      ensures MayRepeat(defs, after[i].definition)
    {
      var m, n := IndexOf(page, choices[i].id).value, IndexOf(page, choices[j].id).value;
      assert page[m].id == choices[i].id && page[n].id == choices[j].id;
      assert ChoiceIds(choices)[i] != ChoiceIds(choices)[j];
      assert m < n || n < m;
      assert page[m].definition == page[n].definition;
    }
    hide BlockFits;
    hide MayRepeat;
  }

  // ---- add ----------------------------------------------------------------

  /** The block is one a creator may add, started with content it holds. */
  ghost predicate Offered(defs: seq<Definition>, page: seq<Block>, id: DefinitionID, typ: Type) {
    var d := Find(defs, id);
    && d.Some? && !d.value.required
    && (d.value.repeatable || forall i | 0 <= i < |page| :: page[i].definition != id)
    && StartFor(Starts(d.value), typ).Some?
  }

  /** The elements the block would start with. */
  function Offering(defs: seq<Definition>, id: DefinitionID, typ: Type): seq<DefinedElement>
    requires Find(defs, id).Some? && StartFor(Starts(Find(defs, id).value), typ).Some?
  {
    StartFor(Starts(Find(defs, id).value), typ).value.elements
  }

  lemma {:induction false} OfferingOk(defs: seq<Definition>, id: DefinitionID, typ: Type)
    requires CatalogOk(defs) && Find(defs, id).Some? && StartFor(Starts(Find(defs, id).value), typ).Some?
    ensures var es := Offering(defs, id, typ);
      && ElementsOk(es, Find(defs, id).value.required)
      && LayoutsOk(Find(defs, id).value)
      && (|es| <= |Find(defs, id).value.elements| || |es| <= 1)
  {
    hide LayoutsOk;
    hide CatalogOk;
    hide ElementsOk;
    hide StartFor;
    hide Find;
    DefinitionHolds(defs, id);
    var d := Find(defs, id).value;
    var chosen := StartFor(Starts(d), typ).value;
    if 0 < |d.choices| {
      var k :| 0 <= k < |Starts(d)| && Starts(d)[k] == chosen;
      assert chosen.elements == [d.choices[k]];
      OneChoice(d.choices, k, d.required);
    }
  }

  lemma {:induction false} OneChoice(choices: seq<DefinedElement>, k: nat, required: bool)
    requires k < |choices| && ElementsOk(choices, false) && (required ==> choices == [])
    ensures ElementsOk([choices[k]], required)
  {
    hide DefinedOk;
  }

  /** The block an offer builds, whatever else the page holds. */
  lemma {:induction false} OfferBuilds(defs: seq<Definition>, page: seq<Block>, id: DefinitionID, typ: Type,
                                       mint: nat -> Id)
    requires CatalogOk(defs)
    ensures NewBlock(defs, id, typ, page, mint).Done? <==> Offered(defs, page, id, typ)
    ensures Offered(defs, page, id, typ) ==>
      var b := NewBlock(defs, id, typ, page, mint).value;
      && b.definition == id && BlockFits(defs, b)
      && |Offering(defs, id, typ)| <= |Slots(b.layout)|
      && 0 < |Slots(b.layout)|
      && b.elements == StartElements(Offering(defs, id, typ), b.layout, mint)
  {
    hide Slots;
    hide Columns;
    hide StartElements;
    hide LayoutFor;
    hide CatalogOk;
    hide Starts;
    hide StartFor;
    hide Find;
    hide MinimumWidth;
    var d := Find(defs, id);
    if d.Some? && StartFor(Starts(d.value), typ).Some? { OfferingRoom(defs, id, typ); }
  }

  /** The offered elements have a layout, and it fits the block's width. */
  lemma {:induction false} OfferingRoom(defs: seq<Definition>, id: DefinitionID, typ: Type)
    requires CatalogOk(defs) && Find(defs, id).Some? && StartFor(Starts(Find(defs, id).value), typ).Some?
    ensures var d, es := Find(defs, id).value, Offering(defs, id, typ);
      && LayoutFor(d.layouts, |es|).Some?
      && var layout := LayoutFor(d.layouts, |es|).value;
      && layout in d.layouts && |es| <= |Slots(layout)| && 0 < |Slots(layout)|
      && Columns(d.width) != 0 && Columns(MinimumWidth(layout)) <= Columns(d.width)
  {
    hide Slots;
    hide LayoutFor;
    hide CatalogOk;
    hide ElementsOk;
    hide Starts;
    hide StartFor;
    hide Find;
    hide MinimumWidth;
    OfferingOk(defs, id, typ);
    var d, es := Find(defs, id).value, Offering(defs, id, typ);
    LayoutRoom(d, |es|);
    var layout := LayoutFor(d.layouts, |es|).value;
    var k :| 0 <= k < |d.layouts| && d.layouts[k] == layout;
  }

  /** Freshly made elements are readable and told apart. */
  lemma {:induction false} StartIsOk(defined: seq<DefinedElement>, required: bool, layout: Layout, mint: nat -> Id,
                                     used: set<Id>)
    requires ElementsOk(defined, required) && |defined| <= |Slots(layout)| && Fresh(mint, used)
    ensures var es := StartElements(defined, layout, mint);
      && ElementsFit(es)
      && Distinct(Map(SlotOf, es))
      && (forall e | e in es :: ElementOk(e) && e.slot in Slots(layout) && e.id !in used)
  {
    var es := StartElements(defined, layout, mint);
    LayoutSlotsDistinct(layout);
    hide Slots;
    assert WithinLimits(EmptyContent()) && ItemIdsOk(EmptyContent());
    hide OptionsFit;
    hide Allows;
    hide WithinLimits;
    hide ItemIdsOk;
    forall e | e in es ensures ElementOk(e) && e.slot in Slots(layout) && e.id !in used && RoleFits(e) {
      var i :| 0 <= i < |es| && es[i] == e;
      assert DefinedOk(defined[i]);
    }
    forall r | Singular(r) ensures multiset(Roles(es))[r] <= 1 {
      RoleAtMostOnce(Roles(es), r);
    }
    hide ElementOk;
    hide RoleFits;
  }

  lemma {:induction false} RoleAtMostOnce(roles: seq<Role>, r: Role)
    requires forall i, j | 0 <= i < j < |roles| && roles[i] == r :: roles[j] != r
    ensures multiset(roles)[r] <= 1
  {
    if roles != [] {
      var n := |roles| - 1;
      RoleAtMostOnce(roles[..n], r);
      assert roles == roles[..n] + [roles[n]];
      if roles[n] == r { assert r !in roles[..n]; }
    }
  }

  lemma {:induction false} ElementsFitJoin(x: seq<Element>, y: seq<Element>)
    requires ElementsFit(x) && ElementsFit(y) && forall e | e in y :: e.id !in Ids(x)
    ensures ElementsFit(x + y) <==> forall e | e in y && Singular(e.role) :: e.role !in Roles(x)
    decreases |y|
  {
    if y == [] {
      assert x + y == x;
    } else {
      var n := |y| - 1;
      var e := y[n];
      assert y == y[..n] + [e] && (x + y[..n]) + [e] == x + y;
      ElementsFitSnoc(y[..n], e);
      ElementsFitJoin(x, y[..n]);
      ElementsFitSnoc(x + y[..n], e);
      assert Ids(x + y[..n]) == Ids(x) + Ids(y[..n]) && Roles(x + y[..n]) == Roles(x) + Roles(y[..n]);
      assert e in y;
      hide ElementsFit;
    }
  }

  lemma {:induction false} AddedStructure(defs: seq<Definition>, id: DefinitionID, typ: Type, b: Block,
                                          mint: nat -> Id, used: set<Id>)
    requires CatalogOk(defs) && Find(defs, id).Some? && StartFor(Starts(Find(defs, id).value), typ).Some?
    requires |Offering(defs, id, typ)| <= |Slots(b.layout)| && 0 < |Slots(b.layout)| && Fresh(mint, used)
    requires b.elements == StartElements(Offering(defs, id, typ), b.layout, mint)
    ensures StructureOk(b) && ElementsFit(b.elements) && forall e | e in b.elements :: e.id !in used
  {
    OfferingOk(defs, id, typ);
    StartIsOk(Offering(defs, id, typ), Find(defs, id).value.required, b.layout, mint, used);
    hide CatalogOk;
    hide Offering;
    hide ElementOk;
    hide Fresh;
    hide Slots;
    hide LayoutsOk;
    hide ElementsOk;
  }

  lemma {:induction false} AddedFits(defs: seq<Definition>, page: seq<Block>, id: DefinitionID, typ: Type, b: Block)
    requires BlocksFit(defs, page) && Offered(defs, page, id, typ) && b.definition == id && BlockFits(defs, b)
    ensures BlocksFit(defs, page + [b])
  {
    hide BlockFits;
    hide StartFor;
    hide Starts;
    var after := page + [b];
    forall i | 0 <= i < |after| ensures BlockFits(defs, after[i]) {
      if i < |page| { assert BlockFits(defs, page[i]); }
    }
    forall i, j | 0 <= i < j < |after| && after[i].definition == after[j].definition
      ensures MayRepeat(defs, after[i].definition)
    {
      if j < |page| { assert page[i].definition == page[j].definition; }
    }
  }

  lemma {:induction false} PinnedKeptSelf(defs: seq<Definition>, page: seq<Block>)
    ensures PinnedKept(defs, page, page)
  {
    forall i, j | 0 <= i < |page| && 0 <= j < |page[i].elements| ensures PinnedPresent(page, page[i].id, page[i].elements[j]) {
      HoldsOwn(page[i], j);
    }
  }

  /** What an accepted offer does to the elements of the page. */
  lemma {:induction false} AddBuilds(defs: seq<Definition>, page: seq<Block>, id: DefinitionID, typ: Type,
                                     mint: nat -> Id)
    requires CatalogOk(defs) && PageOk(defs, page) && Fresh(mint, Used(page)) && Offered(defs, page, id, typ)
    requires Find(defs, id).Some? && StartFor(Starts(Find(defs, id).value), typ).Some?
    ensures NewBlock(defs, id, typ, page, mint).Done?
    ensures var b := NewBlock(defs, id, typ, page, mint).value;
      && b.elements == StartElements(Offering(defs, id, typ), b.layout, mint)
      && StructureOk(b)
      && (BuilderOk(defs, page + [b], page + [b]) <==>
            forall e | e in b.elements && Singular(e.role) :: e.role !in Roles(Flat(page)))
  {
    assert Find(defs, id).Some? && StartFor(Starts(Find(defs, id).value), typ).Some?;
    hide *;
    OfferBuilds(defs, page, id, typ, mint);
    var b := NewBlock(defs, id, typ, page, mint).value;
    var after := page + [b];
    PageParts(defs, page);
    AddedStructure(defs, id, typ, b, mint, Used(page));
    AddedFits(defs, page, id, typ, b);
    PinnedKeptSelf(defs, after);
    KnownInPage(after, after);
    FlatConcat(page, [b]);
    FlatOne(b);
    UsedIds(page);
    ElementsFitJoin(Flat(page), b.elements);
    Builder(defs, after, after);
  }

  lemma {:induction false} UsedIds(page: seq<Block>)
    ensures forall x | x in Ids(Flat(page)) :: x in Used(page)
  {
  }

  /** On a good page an offered block is added exactly when none of the roles it
      starts with is one the page already carries and may carry only once. */
  lemma {:induction false} AddExactly(defs: seq<Definition>, page: seq<Block>, id: DefinitionID, typ: Type,
                                      mint: nat -> Id)
    requires CatalogOk(defs) && PageOk(defs, page) && Fresh(mint, Used(page))
    ensures AddPage(defs, page, id, typ, mint).Done? <==>
      && Offered(defs, page, id, typ)
      && forall k | 0 <= k < |Offering(defs, id, typ)| && Singular(Offering(defs, id, typ)[k].role) ::
           Offering(defs, id, typ)[k].role !in Roles(Flat(page))
  {
    assert Offered(defs, page, id, typ) ==> Find(defs, id).Some? && StartFor(Starts(Find(defs, id).value), typ).Some?;
    AddAccepts(defs, page, id, typ, mint);
    hide *;
    OfferBuilds(defs, page, id, typ, mint);
    if Offered(defs, page, id, typ) {
      AddBuilds(defs, page, id, typ, mint);
      StartRoles(Offering(defs, id, typ), NewBlock(defs, id, typ, page, mint).value.layout, mint, Roles(Flat(page)));
    }
  }

  lemma {:induction false} AddAccepts(defs: seq<Definition>, page: seq<Block>, id: DefinitionID, typ: Type,
                                      mint: nat -> Id)
    ensures AddPage(defs, page, id, typ, mint).Done? <==>
      && NewBlock(defs, id, typ, page, mint).Done?
      && var b := NewBlock(defs, id, typ, page, mint).value;
         StructureOk(b) && BuilderOk(defs, page + [b], page + [b])
  {
    hide NewBlock;
    hide StructureOk;
    hide BuilderOk;
  }

  lemma {:induction false} StartRoles(defined: seq<DefinedElement>, layout: Layout, mint: nat -> Id, present: seq<Role>)
    requires |defined| <= |Slots(layout)|
    ensures
      (forall e | e in StartElements(defined, layout, mint) && Singular(e.role) :: e.role !in present)
      <==> (forall k | 0 <= k < |defined| && Singular(defined[k].role) :: defined[k].role !in present)
  {
    var es := StartElements(defined, layout, mint);
    hide Slots;
    forall k | 0 <= k < |defined| ensures es[k] in es && es[k].role == defined[k].role {}
    forall e | e in es ensures exists k :: 0 <= k < |defined| && e.role == defined[k].role {
      var k :| 0 <= k < |es| && es[k] == e;
      assert e.role == defined[k].role;
    }
  }
}
