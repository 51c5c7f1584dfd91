/** Concrete packs on which the service does what its laws only allow: an offer
    that is refused, samples that go stale, and a move that sheds preserved data. */
module Witnesses {
  import opened Sequences
  import opened Sorting
  import opened Blocks
  import opened Catalog
  import opened PageRules
  import opened PageSteps
  import opened PageInvariant
  import opened PageExact
  import opened Placement
  import opened PlacementExact
  import opened Capability
  import opened CapabilityLaws
  import opened Facets
  import opened AssetState
  import opened AssetLaws
  import opened AssetRuns
  import opened AssetExact

  // ---- the blocks of a pack -----------------------------------------------

  function PackDefs(): seq<Definition> { DefsOf(PackKind) }

  function Records(): Element {
    Element(10, RecordList, PackItems, Main, Options(NoDisplay, NoSize), EmptyContent())
  }

  function Paragraph(): Element { Element(11, Prose, NoRole, Left, Options(Rich, NoSize), EmptyContent()) }

  function Note(slot: Slot): Element { Element(12, Prose, CreatorNotes, slot, Options(Rich, NoSize), EmptyContent()) }

  function Shot(id: Id, slot: Slot, picture: Id): Element {
    Element(id, ImageSet, GalleryImages, slot, Options(NoDisplay, Medium),
            Content(false, [Item(id, 1, false)], 1, "{}", [picture], [], 1))
  }

  function Core(): Block { Block(1, PackCore, None, 0, false, Single, Full, [Records()]) }

  function Custom(position: int, elements: seq<Element>): Block {
    Block(2, CustomBlock, None, position, false, Duo, Full, elements)
  }

  function Notes(position: int): Block {
    Block(3, AuthorNotes, None, position, false, Single, Third, [Note(Main)])
  }

  function Pictures(position: int): Block {
    Block(4, Gallery, None, position, false, Single, Half, [Shot(13, Main, 21)])
  }

  lemma {:induction false} PackFinds(k: nat)
    requires k < 8
    ensures CatalogOk(PackDefs()) && |PackDefs()| == 8
    ensures var ids := [PackCore] + SharedOrder(); Find(PackDefs(), ids[k]) == Some(Entry(ids[k]))
  {
    CatalogsAreOk(PackKind);
    var ids := [PackCore] + SharedOrder();
    assert PackDefs() == Map(Entry, ids);
    EntryNamed(ids[k]);
    hide CatalogOk;
    hide Entry;
    hide Find;
    FindAt(PackDefs(), k);
  }

  ghost predicate BlockGood(b: Block) {
    BlockFits(PackDefs(), b) && StructureOk(b) && PinnedHome(PackDefs(), b) && ShownIfRequired(PackDefs(), b)
  }

  lemma {:induction false} OptionalGood(b: Block, k: nat)
    requires 0 < k < 8 && b.definition == ([PackCore] + SharedOrder())[k]
    requires var d := Entry(b.definition); b.layout in d.layouts && !d.required && forall i | 0 <= i < |d.elements| :: !d.elements[i].pinned
    requires Columns(b.width) != 0 && Columns(MinimumWidth(b.layout)) <= Columns(b.width) && StructureOk(b)
    ensures BlockGood(b)
  {
    PackFinds(k);
    hide Entry;
    hide StructureOk;
    hide Find;
    hide CatalogOk;
  }

  /** A block of one empty element with no options is readable in a layout with
      its slot. */
  lemma {:induction false} OneReadable(b: Block, e: Element)
    requires b.elements == [e] && ElementOk(e) && e.slot in Slots(b.layout)
    ensures StructureOk(b)
  {
    assert Ids([e]) == [e.id] && Map(SlotOf, [e]) == [e.slot];
    hide ElementOk;
  }

  lemma {:induction false} TwoReadable(b: Block, e: Element, f: Element)
    requires b.elements == [e, f] && ElementOk(e) && ElementOk(f)
    requires e.slot in Slots(b.layout) && f.slot in Slots(b.layout) && |Slots(b.layout)| >= 2
    requires e.id != f.id && e.slot != f.slot
    ensures StructureOk(b)
  {
    assert Ids([e, f]) == [e.id, f.id] && Map(SlotOf, [e, f]) == [e.slot, f.slot];
    hide ElementOk;
  }

  lemma {:induction false} ElementsReadable()
    ensures ElementOk(Records()) && ElementOk(Paragraph())
    ensures forall slot :: ElementOk(Note(slot))
    ensures forall id, slot, picture :: id != NIL ==> ElementOk(Shot(id, slot, picture))
  {
    assert ItemIds(EmptyContent()) == [];
    forall id: Id, slot, picture: Id | id != NIL ensures ElementOk(Shot(id, slot, picture)) {
      assert ItemIds(Shot(id, slot, picture).content) == [id];
    }
  }

  lemma {:induction false} CoreEntry()
    ensures Find(PackDefs(), PackCore) == Some(Entry(PackCore))
    ensures var d := Entry(PackCore);
      d.elements == [Pin(Catalog.Plain(PackItems, RecordList))] && d.layouts == [Single] && !d.hideable
  {
    hide Find;
    hide CatalogOk;
    hide PackDefs;
    PackFinds(0);
    assert ([PackCore] + SharedOrder())[0] == PackCore;
  }

  lemma {:induction false} CoreHome()
    ensures PinnedHome(PackDefs(), Core()) && ShownIfRequired(PackDefs(), Core()) && BlockFits(PackDefs(), Core())
  {
    CoreEntry();
    hide Find;
    hide PackDefs;
    hide Entry;
    assert Core().definition == PackCore && Core().layout == Single && !Core().hidden;
    assert Records() in Core().elements && Records().role == PackItems && Records().typ == RecordList;
  }

  lemma {:induction false} CoreGood()
    ensures BlockGood(Core())
  {
    CoreHome();
    ElementsReadable();
    OneReadable(Core(), Records());
    hide StructureOk;
    hide PinnedHome;
    hide ShownIfRequired;
    hide BlockFits;
    hide ElementOk;
  }

  lemma {:induction false} SharedEntries()
    ensures var d := Entry(AuthorNotes); d.layouts == [Single] && !d.required && d.elements == [Catalog.Text(CreatorNotes, Prose, Rich)]
    ensures var d := Entry(Gallery); d.layouts == [Single] && !d.required && d.elements == [Catalog.Pictures(GalleryImages, Medium)]
    ensures var d := Entry(CustomBlock); Duo in d.layouts && !d.required && d.elements == [] && d.repeatable
    ensures ([PackCore] + SharedOrder())[1] == Gallery && ([PackCore] + SharedOrder())[5] == AuthorNotes
    ensures ([PackCore] + SharedOrder())[7] == CustomBlock
  {
  }

  lemma {:induction false} NotesGood(position: int)
    ensures BlockGood(Notes(position))
  {
    SharedEntries();
    ElementsReadable();
    hide Entry;
    OneReadable(Notes(position), Note(Main));
    hide ElementOk;
    OptionalGood(Notes(position), 5);
  }

  lemma {:induction false} PicturesGood(position: int)
    ensures BlockGood(Pictures(position))
  {
    SharedEntries();
    ElementsReadable();
    hide Entry;
    OneReadable(Pictures(position), Shot(13, Main, 21));
    hide ElementOk;
    OptionalGood(Pictures(position), 1);
  }

  /** A custom block in two columns, its second column taken or free. */
  lemma {:induction false} CustomGood(position: int, elements: seq<Element>)
    requires elements == [Paragraph()] || elements == [Paragraph(), Note(Right)] || elements == [Paragraph(), Shot(14, Right, 22)]
    ensures BlockGood(Custom(position, elements))
  {
    SharedEntries();
    ElementsReadable();
    hide Entry;
    if elements == [Paragraph()] {
      OneReadable(Custom(position, elements), Paragraph());
    } else {
      TwoReadable(Custom(position, elements), Paragraph(), elements[1]);
    }
    hide ElementOk;
    OptionalGood(Custom(position, elements), 7);
  }

  // ---- the pages ----------------------------------------------------------

  /** A page of the core and up to two other blocks keeps the rules once its
      elements are told apart. */
  lemma {:induction false} PackPageOk(page: seq<Block>)
    requires 1 <= |page| && page[0] == Core() && Positioned(page) && Distinct(BlockIds(page))
    requires forall i | 0 <= i < |page| :: BlockGood(page[i])
    requires forall i, j | 0 <= i < j < |page| :: page[i].definition != page[j].definition
    requires ElementsFit(Flat(page))
    ensures PageOk(PackDefs(), page)
  {
    PackRequires(page);
    hide ElementsFit;
    hide BlockFits;
    hide StructureOk;
    hide PinnedHome;
    hide ShownIfRequired;
    hide RequiredPresent;
    hide PackDefs;
    PageFromParts(PackDefs(), page);
  }

  lemma {:induction false} PackRequires(page: seq<Block>)
    requires 1 <= |page| && page[0] == Core()
    ensures RequiredPresent(PackDefs(), page)
  {
    var ids := [PackCore] + SharedOrder();
    assert PackDefs() == Map(Entry, ids);
    forall k | 0 <= k < |PackDefs()| && PackDefs()[k].required ensures PackDefs()[k].id == PackCore {
      assert k > 0 ==> ids[k] == SharedOrder()[k - 1];
      SharedOptional(ids[k]);
    }
  }

  lemma {:induction false} SharedOptional(id: DefinitionID)
    ensures id in SharedOrder() ==> !Entry(id).required
    ensures Entry(PackCore).id == PackCore
  {
  }

  // ---- an offer that is refused -------------------------------------------

  lemma {:induction false} ElementsDiffer(page: seq<Block>, flat: seq<Element>)
    requires Flat(page) == flat && Distinct(Ids(flat)) && forall e | e in flat :: RoleFits(e)
    requires forall i, j | 0 <= i < j < |flat| && Singular(flat[i].role) :: flat[i].role != flat[j].role
    ensures ElementsFit(Flat(page))
  {
    forall r | Singular(r) ensures multiset(Roles(flat))[r] <= 1 {
      assert forall i | 0 <= i < |flat| :: Roles(flat)[i] == flat[i].role;
      RoleAtMostOnce(Roles(flat), r);
    }
  }

  lemma {:induction false} FlatTwo(a: Block, b: Block)
    ensures Flat([a, b]) == a.elements + b.elements
  {
    assert [a, b] == [a] + [b];
    FlatConcat([a], [b]);
    FlatOne(a);
    FlatOne(b);
  }

  lemma {:induction false} FlatThree(a: Block, b: Block, c: Block)
    ensures Flat([a, b, c]) == a.elements + b.elements + c.elements
  {
    assert [a, b, c] == [a, b] + [c];
    FlatConcat([a, b], [c]);
    FlatTwo(a, b);
    FlatOne(c);
  }

  /** The creator's notes stand in a custom block. */
  function NotesMoved(): seq<Block> { [Core(), Custom(1, [Paragraph(), Note(Right)])] }

  /** The creator's notes stand in their own block. */
  function NotesApart(): seq<Block> { [Core(), Custom(1, [Paragraph()]), Notes(2)] }

  ghost predicate Fitting(flat: seq<Element>) {
    && Distinct(Ids(flat)) && (forall e | e in flat :: RoleFits(e))
    && (forall i, j | 0 <= i < j < |flat| && Singular(flat[i].role) :: flat[i].role != flat[j].role)
  }

  lemma {:induction false} TwoBlocksOk(b: Block)
    requires BlockGood(b) && b.position == 1 && b.id != 1 && b.definition != PackCore
    requires Fitting(Core().elements + b.elements)
    ensures PageOk(PackDefs(), [Core(), b])
  {
    hide BlockGood;
    hide Flat;
    var page := [Core(), b];
    CoreGood();
    FlatTwo(page[0], page[1]);
    assert BlockIds(page) == [1, b.id];
    ElementsDiffer(page, Core().elements + b.elements);
    hide ElementsFit;
    hide RoleFits;
    PackPageOk(page);
  }

  lemma {:induction false} ThreeBlocksOk(b: Block, c: Block)
    requires BlockGood(b) && b.position == 1 && b.id != 1 && b.definition != PackCore
    requires BlockGood(c) && c.position == 2 && c.id != 1 && c.id != b.id && c.definition != PackCore && c.definition != b.definition
    requires Fitting(Core().elements + b.elements + c.elements)
    ensures PageOk(PackDefs(), [Core(), b, c])
  {
    hide BlockGood;
    hide Flat;
    var page := [Core(), b, c];
    CoreGood();
    FlatThree(page[0], page[1], page[2]);
    assert BlockIds(page) == [1, b.id, c.id];
    ElementsDiffer(page, Core().elements + b.elements + c.elements);
    hide ElementsFit;
    hide RoleFits;
    PackPageOk(page);
  }

  lemma {:induction false} ThreeFit(a: Element, b: Element, c: Element)
    requires a.id != b.id && a.id != c.id && b.id != c.id && RoleFits(a) && RoleFits(b) && RoleFits(c)
    requires a.role != b.role && a.role != c.role && b.role != c.role
    ensures Fitting([a, b, c])
  {
    assert Ids([a, b, c]) == [a.id, b.id, c.id];
    hide RoleFits;
  }

  lemma {:induction false} NotesFit()
    ensures Fitting(Core().elements + Custom(1, [Paragraph(), Note(Right)]).elements)
    ensures Fitting(Core().elements + Custom(1, [Paragraph()]).elements + Notes(2).elements)
  {
    hide Fitting;
    ThreeFit(Records(), Paragraph(), Note(Right));
    ThreeFit(Records(), Paragraph(), Note(Main));
    assert Core().elements + Custom(1, [Paragraph(), Note(Right)]).elements == [Records(), Paragraph(), Note(Right)];
    assert Core().elements + Custom(1, [Paragraph()]).elements + Notes(2).elements == [Records(), Paragraph(), Note(Main)];
  }

  lemma {:induction false} NotesMovedOk()
    ensures PageOk(PackDefs(), NotesMoved())
  {
    hide BlockGood;
    hide Fitting;
    hide PageOk;
    hide PackDefs;
    NotesFit();
    CustomGood(1, [Paragraph(), Note(Right)]);
    TwoBlocksOk(Custom(1, [Paragraph(), Note(Right)]));
  }

  lemma {:induction false} NotesApartOk()
    ensures PageOk(PackDefs(), NotesApart())
  {
    hide BlockGood;
    hide Fitting;
    hide PageOk;
    hide PackDefs;
    NotesFit();
    CustomGood(1, [Paragraph()]);
    NotesGood(2);
    ThreeBlocksOk(Custom(1, [Paragraph()]), Notes(2));
  }

  lemma {:induction false} PourNotes()
    ensures var source, destination := Notes(2), Custom(1, [Paragraph()]);
      && FreeSlots(destination) == [Right]
      && Filled(source, destination) == Custom(1, [Paragraph(), Note(Right)])
  {
    var source, destination := Notes(2), Custom(1, [Paragraph()]);
    assert Occupied(destination.elements) == {Left} by { assert destination.elements[0].slot == Left; }
    var slots := [Left, Right];
    assert Slots(Duo) == slots && slots[1..] == [Right] && slots[1..][1..] == [];
    assert Vacant(slots[1..][1..], {Left}) == [];
    assert Reslotted(source.elements, [Right]) == [Note(Right)];
  }

  lemma {:induction false} NotesOptional()
    ensures !IsRequired(PackDefs(), Notes(2))
  {
    PackFinds(5);
    SharedEntries();
    hide Entry;
    hide CatalogOk;
    hide PackDefs;
    hide Find;
  }

  lemma {:induction false} MovedIs(defs: seq<Definition>, page: seq<Block>, s: nat, d: nat)
    requires s < |page| && d < |page|
    requires IndexOf(page, page[s].id) == Some(s) && IndexOf(page, page[d].id) == Some(d)
    requires MovePage(defs, page, page[s].id, page[d].id).Done?
    ensures |page[s].elements| <= |FreeSlots(page[d])|
    ensures MovePage(defs, page, page[s].id, page[d].id) == Done(Renumber(Without(page[d := Filled(page[s], page[d])], s)))
  {
    hide StructureOk;
    hide BuilderOk;
    hide FreeSlots;
    hide Filled;
    hide Renumber;
  }

  /** The move that takes the one page to the other. */
  lemma {:induction false} NotesMove()
    ensures MovePage(PackDefs(), NotesApart(), 3, 2) == Done(NotesMoved())
  {
    hide FreeSlots;
    hide Filled;
    hide PageOk;
    hide CatalogOk;
    hide PackDefs;
    hide IsRequired;
    hide MovePage;
    var page := NotesApart();
    NotesApartOk();
    IndexesOf(page);
    assert page[2].id == 3 && page[1].id == 2;
    PackFinds(5);
    PourNotes();
    NotesOptional();
    MoveExactly(PackDefs(), page, 3, 2);
    MovedIs(PackDefs(), page, 2, 1);
    var after := page[1 := Custom(1, [Paragraph(), Note(Right)])];
    assert Without(after, 2) == NotesMoved();
    assert Renumber(NotesMoved()) == NotesMoved();
  }

  lemma {:induction false} IndexesOf(page: seq<Block>)
    ensures |page| == 3 && page[0].id != page[1].id && page[0].id != page[2].id && page[1].id != page[2].id ==>
      forall i | 0 <= i < 3 :: IndexOf(page, page[i].id) == Some(i)
  {
    if |page| == 3 { assert page[1..][1..] == [page[2]]; }
  }

  lemma {:induction false} NotesFound()
    ensures Find(PackDefs(), AuthorNotes) == Some(Entry(AuthorNotes))
    ensures var d := Entry(AuthorNotes);
      !d.required && !d.repeatable && d.choices == [] && d.elements == [Catalog.Text(CreatorNotes, Prose, Rich)]
  {
    NotesEntry();
    hide *;
    PackFinds(5);
  }

  lemma {:induction false} NotesEntry()
    ensures ([PackCore] + SharedOrder())[5] == AuthorNotes
    ensures var d := Entry(AuthorNotes);
      !d.required && !d.repeatable && d.choices == [] && d.elements == [Catalog.Text(CreatorNotes, Prose, Rich)]
  {
  }

  lemma {:induction false} OneStart(d: Definition, offer: DefinedElement)
    requires d.choices == [] && d.elements == [offer]
    ensures StartFor(Starts(d), offer.typ) == Some(Start(offer.typ, [offer]))
  {
    assert Starts(d) == [Start(offer.typ, [offer])];
  }

  lemma {:induction false} NotesOffered(page: seq<Block>)
    requires forall i | 0 <= i < |page| :: page[i].definition != AuthorNotes
    ensures PageExact.Offered(PackDefs(), page, AuthorNotes, Prose)
    ensures Offering(PackDefs(), AuthorNotes, Prose) == [Catalog.Text(CreatorNotes, Prose, Rich)]
  {
    NotesFound();
    hide Entry;
    hide PackDefs;
    hide Find;
    OneStart(Entry(AuthorNotes), Catalog.Text(CreatorNotes, Prose, Rich));
    hide StartFor;
    hide Starts;
  }

  lemma {:induction false} NotesHeld()
    ensures CreatorNotes in Roles(Flat(NotesMoved()))
    ensures forall i | 0 <= i < |NotesMoved()| :: NotesMoved()[i].definition != AuthorNotes
  {
    var page := NotesMoved();
    FlatTwo(page[0], page[1]);
    assert Roles(Flat(page))[2] == CreatorNotes;
  }

  /** On that page the add tray offers author notes, and adding them is refused. */
  lemma {:induction false} OfferedYetRefused(mint: nat -> Id)
    requires Fresh(mint, Used(NotesMoved()))
    ensures PageOk(PackDefs(), NotesMoved())
    ensures PageExact.Offered(PackDefs(), NotesMoved(), AuthorNotes, Prose)
    ensures AddPage(PackDefs(), NotesMoved(), AuthorNotes, Prose, mint) == Invalid
  {
    hide *;
    NotesMovedOk();
    NotesHeld();
    NotesOffered(NotesMoved());
    PackFinds(5);
    AddExactly(PackDefs(), NotesMoved(), AuthorNotes, Prose, mint);
    AddRefuses(PackDefs(), NotesMoved(), AuthorNotes, Prose, mint);
    NotesSingular();
  }

  lemma {:induction false} NotesSingular()
    ensures var offer := Catalog.Text(CreatorNotes, Prose, Rich); Singular(offer.role) && [offer][0] == offer && offer.role == CreatorNotes
  {
  }

  lemma {:induction false} AddRefuses(defs: seq<Definition>, page: seq<Block>, id: DefinitionID, typ: Type, mint: nat -> Id)
    ensures AddPage(defs, page, id, typ, mint).Done? || AddPage(defs, page, id, typ, mint) == Invalid
  {
    hide NewBlock;
    hide StructureOk;
    hide BuilderOk;
  }

  // ---- samples that go stale ----------------------------------------------

  function Galleries(): seq<Block> { [Core(), Pictures(1), Custom(2, [Paragraph(), Shot(14, Right, 22)])] }

  function Swapped(): seq<Block> { [Core(), Custom(1, [Paragraph(), Shot(14, Right, 22)]), Pictures(2)] }

  function Swap(): seq<Choice> { [Choice(1, false, Full), Choice(2, false, Full), Choice(4, false, Half)] }

  function Bare(page: seq<Block>, preserved: seq<Preserved>): Asset {
    Asset(PackKind, "", Header("Pack", "", "", "", ""), NIL, page, preserved, [], None, true, false, false, 1, [], map[])
  }

  lemma {:induction false} FourFit(a: Element, b: Element, c: Element, d: Element)
    requires Distinct([a.id, b.id, c.id, d.id]) && RoleFits(a) && RoleFits(b) && RoleFits(c) && RoleFits(d)
    requires a.role != b.role && a.role != c.role && a.role != d.role && !Singular(b.role) && !Singular(c.role) && !Singular(d.role)
    ensures Fitting([a, b, c, d])
  {
    assert Ids([a, b, c, d]) == [a.id, b.id, c.id, d.id];
    hide RoleFits;
  }

  lemma {:induction false} GalleriesFit()
    ensures Fitting(Core().elements + Pictures(1).elements + Custom(2, [Paragraph(), Shot(14, Right, 22)]).elements)
  {
    hide Fitting;
    var second := [Paragraph(), Shot(14, Right, 22)];
    assert Core().elements + Pictures(1).elements + Custom(2, second).elements == [Records(), Shot(13, Main, 21), Paragraph(), Shot(14, Right, 22)];
    assert Distinct([Records().id, Shot(13, Main, 21).id, Paragraph().id, Shot(14, Right, 22).id]);
    FourFit(Records(), Shot(13, Main, 21), Paragraph(), Shot(14, Right, 22));
  }

  lemma {:induction false} GalleriesOk()
    ensures PageOk(PackDefs(), Galleries())
  {
    hide BlockGood;
    hide Fitting;
    hide PageOk;
    hide PackDefs;
    GalleriesFit();
    PicturesGood(1);
    CustomGood(2, [Paragraph(), Shot(14, Right, 22)]);
    ThreeBlocksOk(Pictures(1), Custom(2, [Paragraph(), Shot(14, Right, 22)]));
  }

  lemma {:induction false} SwapArranges()
    ensures ArrangePage(PackDefs(), Galleries(), Swap()) == Done(Swapped())
  {
    hide PageOk;
    hide CatalogOk;
    hide PackDefs;
    hide ArrangePage;
    hide BuilderOk;
    GalleriesOk();
    var page, choices := Galleries(), Swap();
    PackFinds(0);
    IndexesOf(page);
    assert page[0].id == 1 && page[1].id == 4 && page[2].id == 2;
    assert ChoiceIds(choices) == [1, 2, 4];
    assert ChoicesOk(PackDefs(), page, choices);
    assert ArrangedPage(page, choices) == Swapped();
    ArrangeExactly(PackDefs(), page, choices);
    ArrangedIs(PackDefs(), page, choices);
  }

  lemma {:induction false} ArrangedIs(defs: seq<Definition>, page: seq<Block>, choices: seq<Choice>)
    requires ChoicesOk(defs, page, choices) && ArrangePage(defs, page, choices).Done?
    ensures ArrangePage(defs, page, choices).value == ArrangedPage(page, choices)
  {
    hide BuilderOk;
    hide ArrangedPage;
  }

  lemma {:induction false} TakesTwo(a: Element, b: Element, elements: seq<Element>)
    requires Sorting.Filter(Carries(GalleryImages), elements) == [a, b]
    requires |a.content.pictures| == |b.content.pictures| == 1
    ensures TakeSample(Written(elements, GalleryImages)).images == a.content.pictures + b.content.pictures
  {
    var written := [a.content, b.content];
    assert Written(elements, GalleryImages) == written;
    assert written[1..] == [b.content] && [b.content][1..] == [];
    assert Pictured([b.content]) == b.content.pictures + Pictured([]);
  }

  lemma {:induction false} FilterFour<T>(keep: T -> bool, a: T, b: T, c: T, d: T)
    requires !keep(a)
    ensures Sorting.Filter(keep, [a, b, c, d]) ==
      (if keep(b) then [b] else []) + (if keep(c) then [c] else []) + (if keep(d) then [d] else [])
  {
    hide Sorting.Filter;
    assert [a, b, c, d] == [a] + ([b] + ([c] + [d]));
    FilterConcat(keep, [a], [b] + ([c] + [d]));
    FilterConcat(keep, [b], [c] + [d]);
    FilterConcat(keep, [c], [d]);
    FilterSingle(keep, a);
    FilterSingle(keep, b);
    FilterSingle(keep, c);
    FilterSingle(keep, d);
  }

  lemma {:induction false} GalleriesFlat()
    ensures Flat(Galleries()) == [Records(), Shot(13, Main, 21), Paragraph(), Shot(14, Right, 22)]
    ensures Flat(Swapped()) == [Records(), Paragraph(), Shot(14, Right, 22), Shot(13, Main, 21)]
  {
    hide Flat;
    var page, other := Galleries(), Swapped();
    FlatThree(page[0], page[1], page[2]);
    FlatThree(other[0], other[1], other[2]);
  }

  lemma {:induction false} Carriers()
    ensures var keep := Carries(GalleryImages);
      && keep(Shot(13, Main, 21)) && keep(Shot(14, Right, 22)) && !keep(Records()) && !keep(Paragraph())
    ensures Shot(13, Main, 21).content.pictures == [21] && Shot(14, Right, 22).content.pictures == [22]
  {
  }

  lemma {:induction false} SamplesDiffer()
    ensures TakeSample(Written(Flat(Galleries()), GalleryImages)).images == [21, 22]
    ensures TakeSample(Written(Flat(Swapped()), GalleryImages)).images == [22, 21]
  {
    GalleriesFlat();
    Carriers();
    hide *;
    var keep := Carries(GalleryImages);
    var first, second := Shot(13, Main, 21), Shot(14, Right, 22);
    FilterFour(keep, Records(), first, Paragraph(), second);
    FilterFour(keep, Records(), Paragraph(), second, first);
    TakesTwo(first, second, Flat(Galleries()));
    TakesTwo(second, first, Flat(Swapped()));
  }

  /** A writer of packs that asks for nothing. */
  function Writer(): Declaration { Declaration("f", PackKind, true, [ORIGIN_ILLARIN], false, {}, map[]) }

  lemma {:induction false} NothingWritten(elements: seq<Element>, role: Role)
    requires forall e | e in elements && e.role == role :: e.content.empty
    ensures Written(elements, role) == []
  {
    FilterNone(Carries(role), elements);
  }

  lemma {:induction false} WriterIsOffered(x: Subject)
    requires x.kind == PackKind && x.origin == "" && forall e | e in x.elements && e.role == PackItems :: e.content.empty
    ensures Capability.Offered(map["f" := Writer()], x) != []
  {
    var registry := map["f" := Writer()];
    NothingWritten(x.elements, PackItems);
    assert KeepsRequired(Writer(), x);
    assert CapabilityLaws.Offers(registry, x, "f");
    assert RegistryOk(registry);
    hide *;
    OfferedExactly(registry, x);
    OneFormat(Capability.Offered(registry, x), "f");
  }

  lemma {:induction false} OneFormat(targets: seq<Target>, id: string)
    requires id in Formats(targets)
    ensures targets != []
  {
  }

  /** A good pack whose stored offers are exact; its two galleries change places,
      the arrangement is accepted, and the offers are exact no longer. */
  lemma {:induction false} SamplesCanGoStale()
    ensures var registry := map["f" := Writer()];
      var a := Projected(registry, Bare(Galleries(), []));
      && PageKept(a) && a.exports == Capability.Offered(registry, SubjectOf(a))
      && var answer := Edited(registry, a, Edit.Arrange(Swap()));
      && answer.reply == Ok && PageKept(answer.asset) && answer.asset.blocks == Swapped()
      && answer.asset.exports != Capability.Offered(registry, SubjectOf(answer.asset))
  {
    var registry := map["f" := Writer()];
    assert RegistryOk(registry);
    GalleriesWritten();
    hide *;
    var a := Projected(registry, Bare(Galleries(), []));
    StoredPack(registry, Galleries(), []);
    GalleriesOk();
    SwapArranges();
    WriterIsOffered(SubjectOf(a));
    GalleriesSampled(a);
    StaleAfter(registry, a, Swap(), Swapped());
  }

  lemma {:induction false} GalleriesWritten()
    ensures forall e | e in Flat(Galleries()) && e.role == PackItems :: e.content.empty
  {
    var page := Galleries();
    FlatThree(page[0], page[1], page[2]);
    hide Flat;
  }

  lemma {:induction false} GalleriesSampled(a: Asset)
    requires SubjectOf(a).elements == Flat(Galleries())
    ensures GallerySample(SubjectOf(a)) != TakeSample(Written(Flat(Swapped()), GalleryImages))
  {
    SamplesDiffer();
    hide TakeSample;
    hide Written;
    hide Flat;
    assert [21, 22][0] != [22, 21][0];
  }

  lemma {:induction false} StoredPack(registry: Registry, page: seq<Block>, preserved: seq<Preserved>)
    ensures var a := Projected(registry, Bare(page, preserved));
      && a.kind == PackKind && a.origin == "" && SubjectOf(a).kind == PackKind && SubjectOf(a).origin == "" && a.blocks == page && a.preserved == preserved && a.header == Bare(page, preserved).header && a.generation == 1
      && Lock(a) == Ok && a.exports == Capability.Offered(registry, SubjectOf(a)) && SubjectOf(a).elements == Flat(page)
      && (PageOk(PackDefs(), page) ==> PageKept(a)) && DefsOf(a.kind) == PackDefs()
  {
    hide Capability.Offered;
    hide MeasureFacets;
    hide PageOk;
    hide Flat;
    hide ShownElements;
    assert CatalogOf(PackKind).Some?;
    hide Entry;
  }

  lemma {:induction false} StaleAfter(registry: Registry, a: Asset, choices: seq<Choice>, page: seq<Block>)
    requires RegistryOk(registry) && PageKept(a) && Lock(a) == Ok && a.exports == Capability.Offered(registry, SubjectOf(a)) != []
    requires ArrangePage(DefsOf(a.kind), a.blocks, choices) == Done(page)
    requires GallerySample(SubjectOf(a)) != TakeSample(Written(Flat(page), GalleryImages))
    ensures var answer := Edited(registry, a, Edit.Arrange(choices));
      && answer.reply == Ok && PageKept(answer.asset) && answer.asset.blocks == page
      && answer.asset.exports != Capability.Offered(registry, SubjectOf(answer.asset))
  {
    hide PageKept;
    hide ArrangePage;
    hide EditPage;
    hide Capability.Offered;
    hide MeasureFacets;
    hide Flat;
    hide TakeSample;
    hide Written;
    hide DefsOf;
    hide ShownElements;
    var edit, b := Edit.Arrange(choices), WithFacets(a.(blocks := page));
    ArrangeIs(a, edit);
    ArrangedEdit(a, choices);
    FacetsApart(a.(blocks := page));
    OffersExactAfterArrange(registry, a, choices);
    assert Edited(registry, a, edit) == Answer(Ok, b);
  }

  // ---- preserved data nothing owns ----------------------------------------

  function Stray(owner: Id): Preserved { Preserved(ElementOwned, owner, "n", "{}") }

  /** A pack read from a file that holds nothing but a row for an element it does
      not have. */
  function Leftover(): Upload {
    Upload([], (i: nat) => i + 2, "", "", "", "", [Stray(1)], [], NIL)
  }

  /** An import stores a row for an element the page does not hold. */
  lemma {:induction false} ImportsMayLeaveRows(registry: Registry, header: Header)
    ensures UploadFresh(Leftover())
    ensures var created := Created(registry, PackKind, header, Leftover(), None, true);
      created.Some? && !AllOwned(created.value)
  {
    var upload := Leftover();
    PlaceExactly(PackKind, upload.tagged, upload.mint);
    assert Imported(PackKind, upload).Some? by { hide Placed; hide CatalogOf; }
    NoSuchOwner();
    hide Imported;
    hide Capability.Offered;
    hide MeasureFacets;
    hide Owners;
    assert Stray(1) in upload.preserved;
  }

  /** Every element laid out from nothing is a new, empty one. */
  lemma {:induction false} AllNew(done: seq<DefinedElement>, mint: nat -> Id, placed: seq<bool>, minted: nat,
      es: seq<Element>, from: seq<PlacementExact.Source>, e: Element)
    requires Keeping(done, [], mint, placed, minted, es, from) && Tellable([], mint) && e in es
    ensures Minted(mint, minted, e.id) && e.content == EmptyContent()
  {
    hide Shaped;
    hide Tellable;
    hide Minted;
    hide PinnedIn;
    hide Homed;
    hide EmptyContent;
    var m :| 0 <= m < |es| && es[m] == e;
    assert Sourced(done, [], placed, es[m], from[m]);
  }

  lemma {:induction false} NoSuchOwner()
    requires Placed(PackKind, Leftover().tagged, Leftover().mint).Some?
    ensures 1 !in Owners(Placed(PackKind, Leftover().tagged, Leftover().mint).value)
  {
    var mint, defs := Leftover().mint, CatalogOf(PackKind).value;
    assert Tellable([], mint);
    hide Tellable;
    hide Keeping;
    hide PlaceAll;
    hide CatalogOf;
    hide AllSlots;
    hide Flat;
    var p := PlaceAll(defs, [], mint).value;
    var from := KeepPlaceAll(defs, [], mint);
    forall e | e in Flat(p.blocks) ensures e.id != 1 && ItemIds(e.content) == [] {
      AllNew(AllSlots(defs), mint, p.placed, p.minted, Flat(p.blocks), from, e);
    }
  }

  /** A move on a pack that kept such a row sheds it, and counts a generation
      though it changes no content. */
  lemma {:induction false} MovesShedRows(registry: Registry)
    ensures var a := Projected(registry, Bare(NotesApart(), [Stray(99)]));
      && PageKept(a) && !AllOwned(a)
      && var answer := Edited(registry, a, Edit.Move(3, 2));
      && answer.reply == Ok && AllOwned(answer.asset) && answer.asset.generation == a.generation + 1
  {
    NotesOwners();
    hide *;
    var a := Projected(registry, Bare(NotesApart(), [Stray(99)]));
    StoredPack(registry, NotesApart(), [Stray(99)]);
    NotesApartOk();
    NotesMove();
    NotesClean(a);
    MoveCounts(registry, a, 3, 2);
  }

  lemma {:induction false} NotesOwners()
    ensures 99 !in Owners(NotesApart())
  {
    var page := NotesApart();
    FlatThree(page[0], page[1], page[2]);
    assert Flat(page) == [Records(), Paragraph(), Note(Main)];
    hide Flat;
    assert ItemIds(EmptyContent()) == [];
  }

  lemma {:induction false} NotesClean(a: Asset)
    requires a.blocks == NotesApart() && a.preserved == [Stray(99)] && a.origin == ""
    requires a.header == Bare(NotesApart(), [Stray(99)]).header
    ensures Clean(a) && (99 !in Owners(a.blocks) ==> !AllOwned(a))
  {
    var page := NotesApart();
    FlatThree(page[0], page[1], page[2]);
    assert Flat(page) == [Records(), Paragraph(), Note(Main)];
    hide Flat;
    hide Owners;
    assert Stray(99) in a.preserved;
  }
}
