/** Exactly what single transactions do to preserved data, to the fingerprint and
    to the stored projections. */
module AssetExact {
  import opened Sequences
  import opened Sorting
  import opened Blocks
  import opened Catalog
  import opened PageRules
  import opened PageSteps
  import opened PageInvariant
  import opened Capability
  import opened CapabilityLaws
  import opened Facets
  import opened AssetState
  import opened AssetLaws
  import opened AssetRuns
  import Text = FingerprintText

  // ---- preserved data -----------------------------------------------------

  ghost predicate OwnedBy(owners: set<Id>, rows: seq<Preserved>) { forall row | row in rows :: Kept(owners, row) }

  /** No stored row names an id that is still to be minted. */
  ghost predicate Unnamed(mint: nat -> Id, rows: seq<Preserved>) {
    forall row, k: nat | row in rows :: row.ownerId != mint(k)
  }

  /** An edit that drops what nothing owns leaves every row owned, and one that drops
      a namespace all rows outside it that were; the others keep ownership as it was,
      and a new revision brings its own rows. */
  lemma {:induction false} OwnershipStep(registry: Registry, a: Asset, change: Change)
    requires PageKept(a) && ChangeFresh(a, change) && Changed(registry, a, change).reply == Ok
    ensures var b := Changed(registry, a, change).asset;
      match change
      case EditBlocks(edit) =>
        (if edit.Add? then
           (AllOwned(a) ==> AllOwned(b)) && (Unnamed(edit.mint, a.preserved) ==> (AllOwned(b) ==> AllOwned(a)))
         else if edit.Arrange? then AllOwned(a) <==> AllOwned(b)
         else AllOwned(b))
      case Reimport(upload) => AllOwned(b) <==> OwnedBy(Owners(Imported(a.kind, upload).value), upload.preserved)
      case DeleteNamespace(namespace) =>
        AllOwned(b) <==> OwnedBy(Owners(a.blocks), Filter(OutsideNamespace(namespace), a.preserved))
      case _ => AllOwned(a) <==> AllOwned(b)
  {
    hide PageKept;
    hide AllOwned;
    hide Edited;
    hide Reimported;
    hide Identified;
    hide NamespaceDeleted;
    hide Illustrated;
    hide EditFresh;
    hide UploadFresh;
    hide OwnedBy;
    hide Unnamed;
    match change
    case EditBlocks(edit) => EditOwns(registry, a, edit);
    case Reimport(upload) => ReimportOwns(registry, a, upload);
    case SetIdentity(name, rating) => RowsStand(registry, a, change);
    case DeleteNamespace(namespace) => NamespaceOwns(registry, a, namespace);
    case AddPicture(id, blob, part) => RowsStand(registry, a, change);
  }

  lemma {:induction false} RowsStand(registry: Registry, a: Asset, change: Change)
    requires change.SetIdentity? || change.AddPicture?
    ensures AllOwned(a) <==> AllOwned(Changed(registry, a, change).asset)
  {
    hide Fingerprint;
    hide Owners;
    hide Insert;
    hide TakesCover;
  }

  lemma {:induction false} NamespaceOwns(registry: Registry, a: Asset, namespace: string)
    requires NamespaceDeleted(registry, a, namespace).reply == Ok
    ensures AllOwned(NamespaceDeleted(registry, a, namespace).asset) <==>
      OwnedBy(Owners(a.blocks), Filter(OutsideNamespace(namespace), a.preserved))
  {
    hide Fingerprint;
    hide Owners;
    hide Filter;
  }

  lemma {:induction false} ReimportOwns(registry: Registry, a: Asset, upload: Upload)
    requires Reimported(registry, a, upload).reply == Ok
    ensures Imported(a.kind, upload).Some?
    ensures AllOwned(Reimported(registry, a, upload).asset) <==>
      OwnedBy(Owners(Imported(a.kind, upload).value), upload.preserved)
  {
    hide Imported;
    hide Counted;
    hide Projected;
    hide AllOwned;
    var page := Imported(a.kind, upload).value;
    SettledFields(registry, a, Replaced(a, page, upload));
    OwnedIs(Replaced(a, page, upload));
  }

  lemma {:induction false} OwnedIs(a: Asset)
    ensures AllOwned(a) <==> OwnedBy(Owners(a.blocks), a.preserved)
  {
  }

  lemma {:induction false} EditOwns(registry: Registry, a: Asset, edit: Edit)
    requires PageKept(a) && EditFresh(a.blocks, edit) && Edited(registry, a, edit).reply == Ok
    ensures var b := Edited(registry, a, edit).asset;
      if edit.Add? then
        (AllOwned(a) ==> AllOwned(b)) && (Unnamed(edit.mint, a.preserved) ==> (AllOwned(b) ==> AllOwned(a)))
      else if edit.Arrange? then AllOwned(a) <==> AllOwned(b)
      else AllOwned(b)
  {
    hide EditPage;
    hide DefsOf;
    hide Counted;
    hide Projected;
    hide DropUnowned;
    hide WithFacets;
    hide PageKept;
    hide AllOwned;
    hide Unnamed;
    var page := EditPage(DefsOf(a.kind), a.blocks, edit).value;
    var changed := a.(blocks := page);
    match edit
    case Arrange(choices) =>
      ArrangeIs(a, edit);
      ArrangeKeepsRecords(registry, a, choices);
      OwnedAlike(a, page);
      FacetsApart(changed);
    case Add(definition, typ, mint) =>
      AddIs(a, edit);
      AddKeepsRecords(registry, a, definition, typ, mint);
      if AllOwned(a) { OwnedStill(a, page); }
      if Unnamed(edit.mint, a.preserved) && AllOwned(changed) { OwnedBefore(a, definition, typ, mint); }
      SettledFields(registry, a, changed);
    case _ =>
      DroppingUnowned(changed);
      SettledFields(registry, a, DropUnowned(changed));
  }

  lemma {:induction false} AddsMinted(defs: seq<Definition>, page: seq<Block>, id: DefinitionID, typ: Type, mint: nat -> Id)
    requires AddPage(defs, page, id, typ, mint).Done?
    ensures forall e | e in NewBlock(defs, id, typ, page, mint).value.elements :: exists k: nat :: e.id == mint(k)
  {
    hide StructureOk;
    hide BuilderOk;
    hide Find;
    hide StartFor;
    hide Starts;
    hide LayoutFor;
    hide Slots;
  }

  lemma {:induction false} OwnersJoin(page: seq<Block>, added: Block)
    requires AllEmpty(added.elements)
    ensures Owners(page + [added]) == Owners(page) + (set e | e in added.elements :: e.id)
  {
    FlatConcat(page, [added]);
    FlatOne(added);
    hide Flat;
    assert ItemIds(EmptyContent()) == [];
  }

  /** A row nothing owned is not owned by what an addition mints. */
  lemma {:induction false} OwnedBefore(a: Asset, id: DefinitionID, typ: Type, mint: nat -> Id)
    requires AddPage(DefsOf(a.kind), a.blocks, id, typ, mint).Done? && Unnamed(mint, a.preserved)
    requires AllOwned(a.(blocks := AddPage(DefsOf(a.kind), a.blocks, id, typ, mint).value))
    ensures AllOwned(a)
  {
    hide AddPage;
    hide NewBlock;
    hide DefsOf;
    hide Owners;
    hide AllEmpty;
    AddsEmpty(DefsOf(a.kind), a.blocks, id, typ, mint);
    AddsMinted(DefsOf(a.kind), a.blocks, id, typ, mint);
    OwnersJoin(a.blocks, NewBlock(DefsOf(a.kind), id, typ, a.blocks, mint).value);
  }

  lemma {:induction false} AddIs(a: Asset, edit: Edit)
    requires edit.Add? && EditFresh(a.blocks, edit)
    ensures EditPage(DefsOf(a.kind), a.blocks, edit) == AddPage(DefsOf(a.kind), a.blocks, edit.definition, edit.typ, edit.mint)
    ensures Fresh(edit.mint, Used(a.blocks))
  {
    hide AddPage;
    hide Fresh;
  }

  // ---- moves --------------------------------------------------------------

  lemma {:induction false} DroppedRecords(registry: Registry, a: Asset)
    ensures |Records(registry, DropUnowned(a))| ==
      |Records(registry, a)| - |a.preserved| + |DropUnowned(a).preserved|
    ensures DropUnowned(a).blocks == a.blocks
  {
    hide ElementRecords;
    hide PictureRecords;
    hide HeaderFields;
    hide Wanted;
    hide Flat;
    hide Owners;
  }

  lemma {:induction false} CleanAfterMove(registry: Registry, a: Asset, page: seq<Block>)
    requires Clean(a) && SameFaces(Flat(a.blocks), Flat(page))
    ensures Clean(DropUnowned(a.(blocks := page)))
  {
    FacesHave(Flat(page), Flat(a.blocks));
    forall e | e in Flat(page) ensures NulFree(e.content.body) {
      var f :| f in Flat(a.blocks) && NoSlot(f) == NoSlot(e);
      assert f.content == e.content;
    }
    hide Flat;
    hide Owners;
  }

  /** A move changes what a reader could download exactly when it sheds a
      preserved row that no element or item owned any more. */
  lemma {:induction false} MoveFingerprint(registry: Registry, a: Asset, sourceId: Id, destinationId: Id)
    requires PageKept(a) && Clean(a) && MovePage(DefsOf(a.kind), a.blocks, sourceId, destinationId).Done?
    ensures var page := MovePage(DefsOf(a.kind), a.blocks, sourceId, destinationId).value;
      Fingerprint(registry, DropUnowned(a.(blocks := page))) == Fingerprint(registry, a) <==> AllOwned(a)
  {
    KeptCatalog(a);
    hide *;
    MoveKeepsRecords(registry, a, sourceId, destinationId);
    PageExact.MoveConserves(DefsOf(a.kind), a.blocks, sourceId, destinationId);
    ShedFingerprint(registry, a, MovePage(DefsOf(a.kind), a.blocks, sourceId, destinationId).value);
  }

  lemma {:induction false} MoveAnswers(registry: Registry, a: Asset, sourceId: Id, destinationId: Id)
    requires Lock(a) == Ok && MovePage(DefsOf(a.kind), a.blocks, sourceId, destinationId).Done?
    ensures var changed := a.(blocks := MovePage(DefsOf(a.kind), a.blocks, sourceId, destinationId).value);
      Edited(registry, a, Edit.Move(sourceId, destinationId))
      == Answer(Ok, Counted(registry, a, Projected(registry, DropUnowned(changed))))
  {
    hide EditPage;
    hide MovePage;
    hide DefsOf;
    hide Counted;
    hide Projected;
    hide DropUnowned;
    MoveIs(a, sourceId, destinationId);
  }

  /** What settling a changed asset counts. */
  lemma {:induction false} SettledCounts(registry: Registry, a: Asset, next: Asset)
    requires next.generation == a.generation
    ensures var b := Counted(registry, a, Projected(registry, next));
      && b.generation == a.generation + (if Fingerprint(registry, next) == Fingerprint(registry, a) then 0 else 1)
      && (AllOwned(b) <==> AllOwned(next))
  {
    SettledFields(registry, a, next);
    SettledGeneration(registry, next);
    CountedBy(registry, a, Projected(registry, next));
    ProjectedFingerprint(registry, next);
    hide Fingerprint;
    hide Counted;
    hide Projected;
    hide AllOwned;
    hide PageKept;
    hide Projecting;
    hide Records;
    hide Offered;
  }

  /** So an accepted move counts a generation exactly when some row had no owner. */
  lemma {:induction false} MoveCounts(registry: Registry, a: Asset, sourceId: Id, destinationId: Id)
    requires PageKept(a) && Clean(a) && Lock(a) == Ok && MovePage(DefsOf(a.kind), a.blocks, sourceId, destinationId).Done?
    ensures var answer := Edited(registry, a, Edit.Move(sourceId, destinationId));
      && answer.reply == Ok && AllOwned(answer.asset)
      && answer.asset.generation == a.generation + (if AllOwned(a) then 0 else 1)
  {
    hide *;
    MoveFingerprint(registry, a, sourceId, destinationId);
    var changed := a.(blocks := MovePage(DefsOf(a.kind), a.blocks, sourceId, destinationId).value);
    MoveAnswers(registry, a, sourceId, destinationId);
    DroppingUnowned(changed);
    SettledGeneration(registry, changed);
    SettledCounts(registry, a, DropUnowned(changed));
  }

  lemma {:induction false} MoveIs(a: Asset, sourceId: Id, destinationId: Id)
    ensures EditPage(DefsOf(a.kind), a.blocks, Edit.Move(sourceId, destinationId)) ==
      MovePage(DefsOf(a.kind), a.blocks, sourceId, destinationId)
  {
    hide MovePage;
  }

  lemma {:induction false} ProjectedFingerprint(registry: Registry, a: Asset)
    ensures Fingerprint(registry, Projected(registry, a)) == Fingerprint(registry, a)
  {
    hide Offered;
    hide MeasureFacets;
    hide ElementRecords;
    hide PictureRecords;
    hide HeaderFields;
    hide Wanted;
    hide Flat;
    hide ShownElements;
  }

  lemma {:induction false} ShedFingerprint(registry: Registry, a: Asset, page: seq<Block>)
    requires Clean(a) && SameFaces(Flat(a.blocks), Flat(page)) && Owners(page) == Owners(a.blocks)
    requires Records(registry, a.(blocks := page)) == Records(registry, a)
    ensures Fingerprint(registry, DropUnowned(a.(blocks := page))) == Fingerprint(registry, a) <==> AllOwned(a)
  {
    hide *;
    var moved := a.(blocks := page);
    OwnedAlike(a, page);
    DroppingUnowned(moved);
    if AllOwned(a) {
      FingerprintsAre(registry, moved, a);
    } else {
      DroppedRecords(registry, moved);
      CleanAfterMove(registry, a, page);
      if Fingerprint(registry, DropUnowned(moved)) == Fingerprint(registry, a) {
        FingerprintsTell(registry, DropUnowned(moved), a);
      }
    }
  }

  lemma {:induction false} OwnedAlike(a: Asset, page: seq<Block>)
    requires Owners(page) == Owners(a.blocks)
    ensures AllOwned(a.(blocks := page)) <==> AllOwned(a)
  {
    hide Owners;
  }

  lemma {:induction false} FingerprintsAre(registry: Registry, a: Asset, b: Asset)
    requires Records(registry, a) == Records(registry, b)
    ensures Fingerprint(registry, a) == Fingerprint(registry, b)
  {
    hide Records;
  }

  // ---- pictures -----------------------------------------------------------

  lemma {:induction false} IdTextTells(x: Id, y: Id)
    requires IdText(x) == IdText(y)
    ensures x == y
  {
    if x >= 10 && y >= 10 {
      assert IdText(x)[..|IdText(x)| - 1] == IdText(x / 10) && IdText(y)[..|IdText(y)| - 1] == IdText(y / 10);
      assert IdText(x)[|IdText(x)| - 1] == Digit(x % 10) && IdText(y)[|IdText(y)| - 1] == Digit(y % 10);
      IdTextTells(x / 10, y / 10);
    } else {
      LongerText(x);
      LongerText(y);
    }
  }

  lemma {:induction false} LongerText(x: Id)
    ensures |IdText(x)| > 0 && (x >= 10 ==> |IdText(x)| > 1)
  {
    if x >= 10 { LongerText(x / 10); }
  }

  lemma {:induction false} FilterInsert<T>(keep: T -> bool, le: (T, T) -> bool, x: T, s: seq<T>)
    ensures !keep(x) ==> Filter(keep, Insert(le, x, s)) == Filter(keep, s)
    ensures keep(x) ==> x in Filter(keep, Insert(le, x, s))
  {
    if s != [] && !le(x, s[0]) {
      FilterInsert(keep, le, x, s[1..]);
      assert Insert(le, x, s)[0] == s[0] && Insert(le, x, s)[1..] == Insert(le, x, s[1..]);
    } else {
      assert Insert(le, x, s) == [x] + s && ([x] + s)[1..] == s;
    }
  }

  /** Nothing refers to an id that has yet to be given to a picture. */
  ghost predicate NewPicture(a: Asset, id: Id) {
    && id != NIL && id != a.cover && (forall m | m in a.media :: m.id != id)
    && (forall e | e in Flat(a.blocks) :: id !in e.content.pictures)
  }

  ghost function PicturesOf(a: Asset): seq<Text.Record> { PictureRecords(a.media, Wanted(a.cover, Flat(a.blocks))) }

  lemma {:induction false} AsidePictures(registry: Registry, a: Asset, b: Asset)
    requires b == a.(media := b.media, cover := b.cover)
    ensures Records(registry, b) == Records(registry, a) <==> PicturesOf(b) == PicturesOf(a)
  {
    hide ElementRecords;
    hide PictureRecords;
    hide HeaderFields;
    hide Wanted;
    hide Flat;
    var rest := [Text.Record(Text.Asset, [KindText(a.kind), a.origin])]
      + Map(HeaderRecord(a.header), HeaderFields(registry, a.kind))
      + ElementRecords(Flat(a.blocks))
      + Map(PreservedRecord, a.preserved);
    assert Records(registry, a) == rest + PicturesOf(a);
    assert Records(registry, b) == rest + PicturesOf(b);
    assert PicturesOf(a) == Records(registry, a)[|rest|..] && PicturesOf(b) == Records(registry, b)[|rest|..];
  }

  lemma {:induction false} CoverShows(a: Asset, id: Id, blob: Id, part: Part)
    requires NewPicture(a, id)
    ensures PicturesOf(WithPicture(a, id, blob, part)) == PicturesOf(a) <==> !TakesCover(a, part)
  {
    hide TakesCover;
    hide Flat;
    hide Insert;
    hide Filter;
    var picture := Media(id, blob, true, part);
    var b := WithPicture(a, id, blob, part);
    var wanted := Wanted(b.cover, Flat(a.blocks));
    FilterInsert((m: Media) => IsWanted(wanted, m), MediaLe, picture, a.media);
    if TakesCover(a, part) {
      assert IsWanted(wanted, picture);
      var kept := Filter((m: Media) => IsWanted(wanted, m), b.media);
      var i :| 0 <= i < |kept| && kept[i] == picture;
      assert PicturesOf(b)[i] == PictureRecord(picture);
      if PicturesOf(b) == PicturesOf(a) { PictureKnown(a, picture, i); }
    } else {
      assert !IsWanted(wanted, picture);
    }
  }

  lemma {:induction false} PictureKnown(a: Asset, picture: Media, i: nat)
    requires i < |PicturesOf(a)| && PicturesOf(a)[i] == PictureRecord(picture)
    ensures exists m :: m in a.media && m.id == picture.id
  {
    hide Filter;
    hide IdText;
    var wanted := Wanted(a.cover, Flat(a.blocks));
    hide Wanted;
    var kept := Filter((m: Media) => IsWanted(wanted, m), a.media);
    assert PictureRecord(kept[i]) == PictureRecord(picture);
    assert PictureRecord(kept[i]).fields[0] == PictureRecord(picture).fields[0];
    IdTextTells(kept[i].id, picture.id);
    assert kept[i] in kept;
  }

  lemma {:induction false} PicturedClean(a: Asset, id: Id, blob: Id, part: Part)
    requires Clean(a)
    ensures Clean(WithPicture(a, id, blob, part)) && WithPicture(a, id, blob, part).generation == a.generation
  {
    hide Flat;
    hide Insert;
    hide TakesCover;
  }

  /** A new picture counts a generation exactly when it becomes the cover; a gallery
      picture waits for the edit that uses it. */
  lemma {:induction false} PictureCounts(registry: Registry, a: Asset, id: Id, blob: Id, part: Part)
    requires Clean(a) && Lock(a) == Ok && NewPicture(a, id)
    ensures Illustrated(registry, a, id, blob, part).asset.generation
      == a.generation + (if TakesCover(a, part) then 1 else 0)
  {
    IllustratedIs(registry, a, id, blob, part);
    hide *;
    var b := WithPicture(a, id, blob, part);
    PicturedClean(a, id, blob, part);
    CoverShows(a, id, blob, part);
    PicturedFields(a, id, blob, part);
    AsidePictures(registry, a, b);
    CountedBy(registry, a, b);
    if Records(registry, b) == Records(registry, a) {
      FingerprintsAre(registry, b, a);
    } else if Fingerprint(registry, b) == Fingerprint(registry, a) {
      FingerprintsTell(registry, b, a);
    }
  }

  lemma {:induction false} PicturedFields(a: Asset, id: Id, blob: Id, part: Part)
    ensures var b := WithPicture(a, id, blob, part); b == a.(media := b.media, cover := b.cover)
  {
    hide Insert;
    hide TakesCover;
  }

  lemma {:induction false} IllustratedIs(registry: Registry, a: Asset, id: Id, blob: Id, part: Part)
    requires Lock(a) == Ok
    ensures var b := Counted(registry, a, WithPicture(a, id, blob, part));
      Illustrated(registry, a, id, blob, part).asset == b
      && (Fingerprint(registry, b) == Fingerprint(registry, WithPicture(a, id, blob, part)))
  {
    GenerationApart(registry, WithPicture(a, id, blob, part));
    hide Fingerprint;
    hide WithPicture;
  }

  // ---- stored projections -------------------------------------------------

  /** Straight after any edit but an arrangement the stored offers are exactly
      those of the page. */
  lemma {:induction false} OffersExactAfterEdit(registry: Registry, a: Asset, edit: Edit)
    requires !edit.Arrange? && Edited(registry, a, edit).reply == Ok
    ensures var b := Edited(registry, a, edit).asset;
      b.exports == Offered(registry, SubjectOf(b))
  {
    hide EditPage;
    hide DefsOf;
    hide Counted;
    hide Projected;
    hide DropUnowned;
    hide Offered;
    hide SubjectOf;
    var changed := a.(blocks := EditPage(DefsOf(a.kind), a.blocks, edit).value);
    SettledExact(registry, a, changed);
    SettledExact(registry, a, DropUnowned(changed));
  }

  lemma {:induction false} SettledExact(registry: Registry, before: Asset, a: Asset)
    ensures var b := Counted(registry, before, Projected(registry, a)); b.exports == Offered(registry, SubjectOf(b))
  {
    SettledFields(registry, before, a);
    hide *;
  }

  /** After an arrangement they still are if and only if the galleries open with
      the same pictures. */
  lemma {:induction false} OffersExactAfterArrange(registry: Registry, a: Asset, choices: seq<Choice>)
    requires RegistryOk(registry) && PageKept(a) && ArrangePage(DefsOf(a.kind), a.blocks, choices).Done?
    requires a.exports == Offered(registry, SubjectOf(a))
    ensures var b := WithFacets(a.(blocks := ArrangePage(DefsOf(a.kind), a.blocks, choices).value));
      b.exports == Offered(registry, SubjectOf(b)) <==>
        a.exports == [] || GallerySample(SubjectOf(a)) == GallerySample(SubjectOf(b))
  {
    var page := ArrangePage(DefsOf(a.kind), a.blocks, choices).value;
    var b := WithFacets(a.(blocks := page));
    ArrangeKeepsRecords(registry, a, choices);
    RolesHeldOnce(a);
    hide PageKept;
    hide DefsOf;
    hide ArrangePage;
    assert Rearranged(SubjectOf(a), SubjectOf(b));
    assert RolesOnce(SubjectOf(a).elements);
    assert b.exports == a.exports by { hide Offered; hide MeasureFacets; }
    hide *;
    OfferedExactlyFixed(registry, SubjectOf(a), SubjectOf(b));
  }

  lemma {:induction false} RolesHeldOnce(a: Asset)
    requires PageKept(a)
    ensures RolesOnce(Flat(a.blocks))
  {
    hide CatalogOf;
  }
}
