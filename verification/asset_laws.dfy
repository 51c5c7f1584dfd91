/** The content generation moves exactly with what a reader could download, and
    the stored projections keep up with every edit. */
module AssetLaws {
  import opened Sequences
  import opened Sorting
  import opened Blocks
  import opened Catalog
  import opened PageRules
  import opened PageSteps
  import opened PageInvariant
  import opened PageExact
  import opened Capability
  import opened AssetState
  import Text = FingerprintText

  // ---- records do not depend on arrangement -------------------------------

  lemma {:induction false} IdsAreOrdered()
    ensures Sorting.Total(IdLe)
  {
  }

  lemma {:induction false} IdsTell(elements: seq<Element>)
    requires Distinct(Ids(elements))
    ensures Tells(IdLe, elements)
  {
    forall i, j | 0 <= i < |elements| && 0 <= j < |elements| && elements[i].id == elements[j].id
      ensures elements[i] == elements[j]
    {
      DistinctAt(Ids(elements), i, j);
    }
  }

  function RecordsIn(sorted: seq<Element>): seq<Text.Record> {
    Map(ElementRecord, Filter(NotEmpty, sorted))
  }

  lemma {:induction false} RecordsOfFaces(s: seq<Element>)
    ensures RecordsIn(s) == RecordsIn(Faces(s))
  {
    if s != [] {
      RecordsOfFaces(s[1..]);
      assert Faces(s) == [NoSlot(s[0])] + Faces(s[1..]);
      assert ElementRecord(s[0]) == ElementRecord(NoSlot(s[0]));
      hide ElementRecord;
    }
  }

  lemma {:induction false} FacesAscend(x: seq<Element>)
    ensures Ascending(IdLe, Faces(ById(x)))
    ensures multiset(Faces(ById(x))) == multiset(Faces(x))
  {
    IdsAreOrdered();
    SortAscends(IdLe, x);
    SortBag(IdLe, x);
    MapPermuted(NoSlot, ById(x), x);
    forall i, j | 0 <= i < j < |ById(x)| ensures IdLe(Faces(ById(x))[i], Faces(ById(x))[j]) {
      assert IdLe(ById(x)[i], ById(x)[j]);
    }
  }

  /** Elements up to their slots have one list of records, however they stand. */
  lemma {:induction false} FacesRecorded(x: seq<Element>, y: seq<Element>)
    requires SameFaces(x, y) && Distinct(Ids(x))
    ensures ElementRecords(x) == ElementRecords(y)
  {
    FacesAscend(x);
    FacesAscend(y);
    IdsAreOrdered();
    assert Ids(Faces(x)) == Ids(x);
    IdsTell(Faces(x));
    TellsPermuted(IdLe, Faces(x), Faces(ById(x)));
    AscendingIsUnique(IdLe, Faces(ById(x)), Faces(ById(y)));
    RecordsOfFaces(ById(x));
    RecordsOfFaces(ById(y));
    hide *;
    RecordsAre(x);
    RecordsAre(y);
  }

  lemma {:induction false} RecordsAre(x: seq<Element>)
    ensures ElementRecords(x) == RecordsIn(ById(x))
  {
  }

  lemma {:induction false} FacesWanted(cover: Id, x: seq<Element>, y: seq<Element>)
    requires SameFaces(x, y)
    ensures Wanted(cover, x) == Wanted(cover, y) && IdsOwning(x) == IdsOwning(y)
  {
    FacesReach(cover, x, y);
    assert SameFaces(y, x);
    FacesReach(cover, y, x);
  }

  lemma {:induction false} FacesReach(cover: Id, x: seq<Element>, y: seq<Element>)
    requires SameFaces(x, y)
    ensures Wanted(cover, x) <= Wanted(cover, y) && IdsOwning(x) <= IdsOwning(y)
  {
    FacesHave(x, y);
    forall e, p | e in x && p in e.content.pictures ensures p in Wanted(cover, y) {
      var f :| f in y && NoSlot(f) == NoSlot(e);
      assert f.content == e.content;
    }
    forall e | e in x ensures e.id in IdsOwning(y) {
      var f :| f in y && NoSlot(f) == NoSlot(e);
      assert f.id == e.id;
    }
    forall e, i | e in x && i in ItemIds(e.content) ensures i in IdsOwning(y) {
      var f :| f in y && NoSlot(f) == NoSlot(e);
      assert f.content == e.content;
    }
  }

  /** The records of an asset whose elements are the same up to their slots. */
  lemma {:induction false} SameContent(registry: Registry, a: Asset, page: seq<Block>)
    requires SameFaces(Flat(a.blocks), Flat(page)) && Distinct(PageIds(a.blocks))
    ensures Records(registry, a.(blocks := page)) == Records(registry, a)
    ensures Owners(page) == Owners(a.blocks)
  {
    FacesRecorded(Flat(a.blocks), Flat(page));
    FacesWanted(a.cover, Flat(a.blocks), Flat(page));
    hide SameFaces;
    hide ElementRecords;
    hide Wanted;
    hide IdsOwning;
    hide PictureRecords;
    hide HeaderFields;
    hide Flat;
  }

  // ---- adding empty content -----------------------------------------------

  ghost predicate AllEmpty(elements: seq<Element>) {
    forall e | e in elements :: e.content == EmptyContent()
  }

  lemma {:induction false} NoneWritten(elements: seq<Element>)
    requires AllEmpty(elements)
    ensures Filter(NotEmpty, elements) == []
  {
    if elements != [] {
      assert elements[0] in elements;
      assert AllEmpty(elements[1..]);
      NoneWritten(elements[1..]);
    }
  }

  lemma {:induction false} EmptyUnrecorded(x: seq<Element>, added: seq<Element>)
    requires AllEmpty(added) && Distinct(Ids(x + added))
    ensures ElementRecords(x + added) == ElementRecords(x)
  {
    NoneWritten(added);
    FilterConcat(NotEmpty, x, added);
    assert Filter(NotEmpty, x) + [] == Filter(NotEmpty, x);
    IdsAreOrdered();
    assert Ids(x + added)[..|x|] == Ids(x);
    assert Distinct(Ids(x));
    IdsTell(x + added);
    IdsTell(x);
    hide *;
    FilterSort(IdLe, NotEmpty, x + added);
    FilterSort(IdLe, NotEmpty, x);
    RecordsAre(x);
    RecordsAre(x + added);
    RecordsInAre(x);
    RecordsInAre(x + added);
  }

  lemma {:induction false} RecordsInAre(x: seq<Element>)
    ensures RecordsIn(ById(x)) == Map(ElementRecord, Filter(NotEmpty, Sort(IdLe, x)))
  {
  }

  lemma {:induction false} EmptyUnwanted(cover: Id, x: seq<Element>, added: seq<Element>)
    requires AllEmpty(added)
    ensures Wanted(cover, x + added) == Wanted(cover, x)
    ensures IdsOwning(x) <= IdsOwning(x + added)
  {
    forall e | e in x ensures e in x + added {}
  }

  lemma {:induction false} EmptyAdds(registry: Registry, a: Asset, added: Block)
    requires AllEmpty(added.elements) && Distinct(PageIds(a.blocks + [added]))
    ensures Records(registry, a.(blocks := a.blocks + [added])) == Records(registry, a)
    ensures Owners(a.blocks) <= Owners(a.blocks + [added])
  {
    FlatConcat(a.blocks, [added]);
    FlatOne(added);
    EmptyUnrecorded(Flat(a.blocks), added.elements);
    EmptyUnwanted(a.cover, Flat(a.blocks), added.elements);
    hide AllEmpty;
    hide ElementRecords;
    hide Wanted;
    hide IdsOwning;
    hide PictureRecords;
    hide HeaderFields;
    hide Flat;
  }

  lemma {:induction false} AddsEmpty(defs: seq<Definition>, page: seq<Block>, id: DefinitionID, typ: Type, mint: nat -> Id)
    requires AddPage(defs, page, id, typ, mint).Done?
    ensures NewBlock(defs, id, typ, page, mint).Done?
    ensures var added := NewBlock(defs, id, typ, page, mint).value;
      AddPage(defs, page, id, typ, mint).value == page + [added] && AllEmpty(added.elements)
  {
    hide StructureOk;
    hide BuilderOk;
    hide Find;
    hide StartFor;
    hide Starts;
    hide LayoutFor;
  }

  // ---- each edit's page, as content ---------------------------------------

  ghost predicate PageKept(a: Asset) {
    CatalogOf(a.kind).Some? && PageOk(DefsOf(a.kind), a.blocks)
  }

  lemma {:induction false} KeptCatalog(a: Asset)
    requires PageKept(a)
    ensures CatalogOk(DefsOf(a.kind)) && PageOk(DefsOf(a.kind), a.blocks)
    ensures Distinct(PageIds(a.blocks)) && Distinct(BlockIds(a.blocks))
  {
    CatalogsAreOk(a.kind);
    hide CatalogOf;
    hide CatalogOk;
  }

  /** An arrangement changes nothing a reader could download. */
  lemma {:induction false} ArrangeKeepsRecords(registry: Registry, a: Asset, choices: seq<Choice>)
    requires PageKept(a) && ArrangePage(DefsOf(a.kind), a.blocks, choices).Done?
    ensures var page := ArrangePage(DefsOf(a.kind), a.blocks, choices).value;
      && Records(registry, a.(blocks := page)) == Records(registry, a)
      && Owners(page) == Owners(a.blocks)
      && multiset(Flat(page)) == multiset(Flat(a.blocks))
  {
    KeptCatalog(a);
    var page := ArrangePage(DefsOf(a.kind), a.blocks, choices).value;
    hide DefsOf;
    hide Records;
    hide Owners;
    ArrangedConserves(DefsOf(a.kind), a.blocks, choices);
    MapPermuted(NoSlot, Flat(a.blocks), Flat(page));
    SameContent(registry, a, page);
  }

  /** A block added and not yet filled in changes nothing a reader could download. */
  lemma {:induction false} AddKeepsRecords(registry: Registry, a: Asset, id: DefinitionID, typ: Type, mint: nat -> Id)
    requires PageKept(a) && Fresh(mint, Used(a.blocks)) && AddPage(DefsOf(a.kind), a.blocks, id, typ, mint).Done?
    ensures var page := AddPage(DefsOf(a.kind), a.blocks, id, typ, mint).value;
      && Records(registry, a.(blocks := page)) == Records(registry, a)
      && Owners(a.blocks) <= Owners(page)
  {
    KeptCatalog(a);
    var page := AddPage(DefsOf(a.kind), a.blocks, id, typ, mint).value;
    hide *;
    AddsEmpty(DefsOf(a.kind), a.blocks, id, typ, mint);
    AddKeepsPage(DefsOf(a.kind), a.blocks, id, typ, mint);
    PageIdsDistinct(DefsOf(a.kind), page);
    EmptyAdds(registry, a, NewBlock(DefsOf(a.kind), id, typ, a.blocks, mint).value);
  }

  lemma {:induction false} PageIdsDistinct(defs: seq<Definition>, page: seq<Block>)
    requires PageOk(defs, page)
    ensures Distinct(PageIds(page))
  {
  }

  /** A move alone changes nothing a reader could download. */
  lemma {:induction false} MoveKeepsRecords(registry: Registry, a: Asset, sourceId: Id, destinationId: Id)
    requires PageKept(a) && MovePage(DefsOf(a.kind), a.blocks, sourceId, destinationId).Done?
    ensures var page := MovePage(DefsOf(a.kind), a.blocks, sourceId, destinationId).value;
      && Records(registry, a.(blocks := page)) == Records(registry, a)
      && Owners(page) == Owners(a.blocks)
  {
    KeptCatalog(a);
    hide *;
    MoveConserves(DefsOf(a.kind), a.blocks, sourceId, destinationId);
    SameContent(registry, a, MovePage(DefsOf(a.kind), a.blocks, sourceId, destinationId).value);
  }

  // ---- preserved rows -----------------------------------------------------

  ghost predicate AllOwned(a: Asset) {
    forall row | row in a.preserved :: Kept(Owners(a.blocks), row)
  }

  lemma {:induction false} FilterKeeps<T>(keep: T -> bool, s: seq<T>)
    ensures |Filter(keep, s)| <= |s|
    ensures |Filter(keep, s)| == |s| <==> Filter(keep, s) == s
    ensures Filter(keep, s) == s <==> forall x | x in s :: keep(x)
  {
    if s != [] {
      FilterKeeps(keep, s[1..]);
      assert s == [s[0]] + s[1..];
      if Filter(keep, s) == s { assert s[0] in Filter(keep, s); }
    }
  }

  lemma {:induction false} DroppingUnowned(a: Asset)
    ensures AllOwned(DropUnowned(a))
    ensures AllOwned(a) <==> DropUnowned(a) == a
    ensures |DropUnowned(a).preserved| <= |a.preserved|
    ensures |DropUnowned(a).preserved| == |a.preserved| ==> AllOwned(a)
  {
    FilterKeeps(KeptRows(Owners(a.blocks)), a.preserved);
    assert a.(preserved := a.preserved) == a;
    hide Owners;
  }
}
