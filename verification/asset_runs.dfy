/** Runs of editing transactions: the generation stands for the fingerprint, and
    the stored projections for the page. */
module AssetRuns {
  import opened Sequences
  import opened Blocks
  import opened Catalog
  import opened PageRules
  import opened PageSteps
  import opened PageInvariant
  import opened Placement
  import opened PlacementExact
  import opened Capability
  import opened CapabilityLaws
  import opened Sorting
  import opened Facets
  import opened AssetState
  import opened AssetLaws
  import Text = FingerprintText

  // ---- what every transaction keeps ---------------------------------------

  ghost predicate Projecting(registry: Registry, a: Asset) {
    && a.facets == MeasureFacets(a.kind, ShownElements(a.blocks))
    && SameCosts(a.exports, Offered(registry, SubjectOf(a)))
  }

  ghost predicate AssetOk(registry: Registry, a: Asset) {
    PageKept(a) && Projecting(registry, a)
  }

  /** What a format module owes of an upload: ids told apart, its items' among
      themselves, and new ones minted for what has none. */
  ghost predicate UploadFresh(upload: Upload) {
    && SuppliedOnce(upload.tagged) && Fresh(upload.mint, Supplied(upload.tagged))
    && (forall i | 0 <= i < |upload.tagged| :: ItemIdsOk(upload.tagged[i].content))
  }

  ghost predicate ChangeFresh(a: Asset, change: Change) {
    && (change.EditBlocks? ==> EditFresh(a.blocks, change.edit))
    && (change.Reimport? ==> UploadFresh(change.upload))
  }

  lemma {:induction false} SameCostsSelf(targets: seq<Target>)
    ensures SameCosts(targets, targets)
  {
  }

  lemma {:induction false} SameCostsChain(a: seq<Target>, b: seq<Target>, c: seq<Target>)
    requires SameCosts(a, b) && SameCosts(b, c)
    ensures SameCosts(a, c)
  {
    forall i | 0 <= i < |a| ensures SameCost(a[i], c[i]) {
      assert SameCost(a[i], b[i]) && SameCost(b[i], c[i]);
      forall k | 0 <= k < |a[i].roles| ensures SameVerdict(a[i].roles[k], c[i].roles[k]) {
        assert SameVerdict(a[i].roles[k], b[i].roles[k]) && SameVerdict(b[i].roles[k], c[i].roles[k]);
      }
    }
  }

  lemma {:induction false} ProjectedProjects(registry: Registry, a: Asset)
    ensures Projecting(registry, Projected(registry, a))
    ensures Projected(registry, a).exports == Offered(registry, SubjectOf(a))
  {
    SameCostsSelf(Offered(registry, SubjectOf(a)));
    hide Offered;
    hide SameCosts;
    hide MeasureFacets;
  }

  /** The fields a settled edit leaves as they were. */
  lemma {:induction false} SettledFields(registry: Registry, before: Asset, a: Asset)
    ensures var b := Counted(registry, before, Projected(registry, a));
      && b.blocks == a.blocks && b.preserved == a.preserved && b.kind == a.kind
      && Records(registry, b) == Records(registry, a)
      && (PageKept(b) <==> PageKept(a)) && (AllOwned(b) <==> AllOwned(a))
      && (Projecting(registry, b) <==> Projecting(registry, Projected(registry, a)))
      && b.exports == Offered(registry, SubjectOf(b))
  {
    hide Fingerprint;
    hide Offered;
    hide MeasureFacets;
    hide ElementRecords;
    hide PictureRecords;
    hide HeaderFields;
    hide Wanted;
    hide Flat;
    hide PageOk;
    hide DefsOf;
    hide CatalogOf;
    hide SameCosts;
    hide Owners;
    hide ShownElements;
  }

  lemma {:induction false} SettledOk(registry: Registry, before: Asset, a: Asset)
    requires PageKept(a)
    ensures AssetOk(registry, Counted(registry, before, Projected(registry, a)))
  {
    SettledFields(registry, before, a);
    ProjectedProjects(registry, a);
    hide PageKept;
    hide Projecting;
    hide Counted;
    hide Projected;
  }

  lemma {:induction false} DropKeepsPage(a: Asset)
    ensures PageKept(DropUnowned(a)) <==> PageKept(a)
  {
    hide PageOk;
    hide DefsOf;
    hide CatalogOf;
    hide Owners;
  }

  lemma {:induction false} OwnedStill(a: Asset, page: seq<Block>)
    requires AllOwned(a) && Owners(a.blocks) <= Owners(page)
    ensures AllOwned(a.(blocks := page))
  {
    hide Owners;
  }

  /** The page after an accepted edit is again a good page. */
  lemma {:induction false} EditedPage(a: Asset, edit: Edit)
    requires PageKept(a) && EditFresh(a.blocks, edit) && EditPage(DefsOf(a.kind), a.blocks, edit).Done?
    ensures PageKept(a.(blocks := EditPage(DefsOf(a.kind), a.blocks, edit).value))
  {
    KeptCatalog(a);
    EditKeepsPage(DefsOf(a.kind), a.blocks, edit);
    hide PageOk;
    hide CatalogOk;
    hide CatalogOf;
    hide EditPage;
  }

  lemma {:induction false} RearrangedOffers(registry: Registry, a: Asset, page: seq<Block>)
    requires Projecting(registry, a) && multiset(Flat(page)) == multiset(Flat(a.blocks))
    ensures Projecting(registry, WithFacets(a.(blocks := page)))
  {
    var b := WithFacets(a.(blocks := page));
    OfferedPermuted(registry, SubjectOf(a), SubjectOf(b));
    SameCostsChain(a.exports, Offered(registry, SubjectOf(a)), Offered(registry, SubjectOf(b)));
    hide Offered;
    hide SameCosts;
    hide MeasureFacets;
  }

  lemma {:induction false} ArrangedOk(registry: Registry, a: Asset, choices: seq<Choice>)
    requires AssetOk(registry, a) && ArrangePage(DefsOf(a.kind), a.blocks, choices).Done?
    ensures AssetOk(registry, WithFacets(a.(blocks := ArrangePage(DefsOf(a.kind), a.blocks, choices).value)))
  {
    var page := ArrangePage(DefsOf(a.kind), a.blocks, choices).value;
    hide PageKept;
    hide Projecting;
    hide ArrangePage;
    hide DefsOf;
    hide WithFacets;
    ArrangeKeepsRecords(registry, a, choices);
    RearrangedOffers(registry, a, page);
    ArrangedEdit(a, choices);
    FacetsApart(a.(blocks := page));
  }

  lemma {:induction false} ArrangedEdit(a: Asset, choices: seq<Choice>)
    requires PageKept(a) && ArrangePage(DefsOf(a.kind), a.blocks, choices).Done?
    ensures PageKept(a.(blocks := ArrangePage(DefsOf(a.kind), a.blocks, choices).value))
  {
    hide ArrangePage;
    hide PageKept;
    EditedPage(a, Edit.Arrange(choices));
  }

  lemma {:induction false} FacetsApart(a: Asset)
    ensures PageKept(WithFacets(a)) <==> PageKept(a)
    ensures AllOwned(WithFacets(a)) <==> AllOwned(a)
  {
    hide PageOk;
    hide CatalogOf;
    hide DefsOf;
    hide Owners;
    hide MeasureFacets;
  }

  lemma {:induction false} EditedOk(registry: Registry, a: Asset, edit: Edit)
    requires AssetOk(registry, a) && EditFresh(a.blocks, edit)
    ensures AssetOk(registry, Edited(registry, a, edit).asset)
  {
    hide EditPage;
    hide DefsOf;
    hide Counted;
    hide Projected;
    hide DropUnowned;
    hide WithFacets;
    hide PageKept;
    hide Projecting;
    if EditPage(DefsOf(a.kind), a.blocks, edit).Done? {
      var changed := a.(blocks := EditPage(DefsOf(a.kind), a.blocks, edit).value);
      EditedPage(a, edit);
      DropKeepsPage(changed);
      match edit
      case Arrange(choices) =>
        ArrangeIs(a, edit);
        ArrangedOk(registry, a, choices);
      case Add(_, _, _) => SettledOk(registry, a, changed);
      case _ => SettledOk(registry, a, DropUnowned(changed));
    }
  }

  lemma {:induction false} ArrangeIs(a: Asset, edit: Edit)
    requires edit.Arrange?
    ensures EditPage(DefsOf(a.kind), a.blocks, edit) == ArrangePage(DefsOf(a.kind), a.blocks, edit.choices)
  {
    hide ArrangePage;
  }

  /** Two assets alike in everything a page and its projections rest on. */
  ghost predicate SamePage(a: Asset, b: Asset) {
    b.kind == a.kind && b.origin == a.origin && b.blocks == a.blocks && b.exports == a.exports && b.facets == a.facets
  }

  lemma {:induction false} SamePageOk(registry: Registry, a: Asset, b: Asset)
    requires AssetOk(registry, a) && SamePage(a, b)
    ensures AssetOk(registry, b)
  {
    hide Offered;
    hide SameCosts;
    hide MeasureFacets;
    hide PageOk;
    hide CatalogOf;
    hide DefsOf;
  }

  /** Naming an asset, dropping a namespace and adding a picture leave page and
      projections alone. */
  lemma {:induction false} OthersSame(registry: Registry, a: Asset, change: Change)
    requires !change.EditBlocks? && !change.Reimport?
    ensures SamePage(a, Changed(registry, a, change).asset)
  {
    hide Fingerprint;
    hide Insert;
    hide Filter;
    hide Edited;
    hide Reimported;
    hide OutsideNamespace;
    hide TakesCover;
  }

  /** The page a file is laid out as is a good one. */
  lemma {:induction false} ImportedPage(kind: Kind, upload: Upload)
    requires UploadFresh(upload) && Imported(kind, upload).Some?
    ensures CatalogOf(kind).Some? && PageOk(DefsOf(kind), Imported(kind, upload).value)
  {
    assert Readable(upload.tagged);
    PlacePageOk(kind, upload.tagged, upload.mint);
    hide PageOk;
    hide PlaceAll;
  }

  lemma {:induction false} ReimportedOk(registry: Registry, a: Asset, upload: Upload)
    requires AssetOk(registry, a) && UploadFresh(upload)
    ensures AssetOk(registry, Reimported(registry, a, upload).asset)
  {
    hide AssetOk;
    hide Imported;
    hide PageKept;
    hide UploadFresh;
    hide Counted;
    hide Projected;
    if Imported(a.kind, upload).Some? {
      ImportedKept(a, upload);
      SettledOk(registry, a, Replaced(a, Imported(a.kind, upload).value, upload));
    }
  }

  /** Every transaction keeps the page rules and leaves the stored projections
      those of the page. */
  lemma {:induction false} ChangedOk(registry: Registry, a: Asset, change: Change)
    requires AssetOk(registry, a) && ChangeFresh(a, change)
    ensures AssetOk(registry, Changed(registry, a, change).asset)
  {
    hide AssetOk;
    hide Edited;
    hide EditFresh;
    hide UploadFresh;
    hide Reimported;
    if change.EditBlocks? {
      EditedOk(registry, a, change.edit);
    } else if change.Reimport? {
      ReimportedOk(registry, a, change.upload);
    } else {
      OthersSame(registry, a, change);
      hide Changed;
      SamePageOk(registry, a, Changed(registry, a, change).asset);
    }
  }

  /** An asset made from a file, or from nothing, starts out so. */
  lemma {:induction false} CreatedOk(
    registry: Registry, kind: Kind, header: Header, upload: Upload, rating: Option<bool>, draft: bool
  )
    requires UploadFresh(upload) && Created(registry, kind, header, upload, rating, draft).Some?
    ensures AssetOk(registry, Created(registry, kind, header, upload, rating, draft).value)
  {
    ImportedPage(kind, upload);
    var page := Imported(kind, upload).value;
    var bare := Asset(kind, upload.origin, header, upload.cover, page, upload.preserved, upload.media,
                      rating, draft, false, false, 1, [], map[]);
    ProjectedProjects(registry, bare);
    hide Imported;
    hide Projecting;
    hide Offered;
    hide MeasureFacets;
    hide PageOk;
    hide CatalogOf;
    hide DefsOf;
    hide ShownElements;
  }

  // ---- the generation -----------------------------------------------------

  lemma {:induction false} CountedBy(registry: Registry, before: Asset, after: Asset)
    requires after.generation == before.generation
    ensures var b := Counted(registry, before, after);
      && Fingerprint(registry, b) == Fingerprint(registry, after)
      && b.generation == before.generation +
           (if Fingerprint(registry, b) == Fingerprint(registry, before) then 0 else 1)
  {
    GenerationApart(registry, after);
    hide Fingerprint;
  }

  lemma {:induction false} GenerationApart(registry: Registry, a: Asset)
    ensures Fingerprint(registry, a.(generation := a.generation + 1)) == Fingerprint(registry, a)
  {
    hide ElementRecords;
    hide PictureRecords;
    hide HeaderFields;
    hide Wanted;
    hide Flat;
  }

  lemma {:induction false} ArrangeKeepsFingerprint(registry: Registry, a: Asset, choices: seq<Choice>)
    requires PageKept(a) && ArrangePage(DefsOf(a.kind), a.blocks, choices).Done?
    ensures var page := ArrangePage(DefsOf(a.kind), a.blocks, choices).value;
      Fingerprint(registry, WithFacets(a.(blocks := page))) == Fingerprint(registry, a)
  {
    hide ArrangePage;
    ArrangeKeepsRecords(registry, a, choices);
    hide ElementRecords;
    hide PictureRecords;
    hide HeaderFields;
    hide Wanted;
    hide Flat;
    hide PageKept;
  }

  lemma {:induction false} SettledGeneration(registry: Registry, a: Asset)
    ensures Projected(registry, a).generation == a.generation
    ensures DropUnowned(a).generation == a.generation
    ensures WithFacets(a).generation == a.generation
  {
    hide Offered;
    hide MeasureFacets;
    hide Owners;
  }

  lemma {:induction false} EditedCounts(registry: Registry, a: Asset, edit: Edit)
    requires PageKept(a)
    ensures var b := Edited(registry, a, edit).asset;
      b.generation == a.generation +
        (if Fingerprint(registry, b) == Fingerprint(registry, a) then 0 else 1)
  {
    hide PageKept;
    hide EditPage;
    hide DefsOf;
    hide Fingerprint;
    hide Counted;
    hide Projected;
    hide DropUnowned;
    hide WithFacets;
    if EditPage(DefsOf(a.kind), a.blocks, edit).Done? {
      var changed := a.(blocks := EditPage(DefsOf(a.kind), a.blocks, edit).value);
      SettledGeneration(registry, changed);
      SettledGeneration(registry, DropUnowned(changed));
      match edit
      case Arrange(choices) =>
        ArrangeIs(a, edit);
        ArrangeKeepsFingerprint(registry, a, choices);
      case Add(_, _, _) => CountedBy(registry, a, Projected(registry, changed));
      case _ => CountedBy(registry, a, Projected(registry, DropUnowned(changed)));
    }
  }

  lemma {:induction false} IdentifiedCounts(registry: Registry, a: Asset, name: string, rating: Option<bool>)
    ensures var b := Identified(registry, a, name, rating).asset;
      b.generation == a.generation +
        (if Fingerprint(registry, b) == Fingerprint(registry, a) then 0 else 1)
  {
    hide Fingerprint;
    hide Counted;
    CountedBy(registry, a, a.(header := a.header.(name := name), rating := rating));
  }

  lemma {:induction false} DeletedCounts(registry: Registry, a: Asset, namespace: string)
    ensures var b := NamespaceDeleted(registry, a, namespace).asset;
      b.generation == a.generation +
        (if Fingerprint(registry, b) == Fingerprint(registry, a) then 0 else 1)
  {
    hide Fingerprint;
    hide Counted;
    CountedBy(registry, a, a.(preserved := Sorting.Filter(OutsideNamespace(namespace), a.preserved)));
  }

  lemma {:induction false} ReimportedCounts(registry: Registry, a: Asset, upload: Upload)
    ensures var b := Reimported(registry, a, upload).asset;
      b.generation == a.generation +
        (if Fingerprint(registry, b) == Fingerprint(registry, a) then 0 else 1)
  {
    hide Fingerprint;
    hide Counted;
    hide Projected;
    hide Imported;
    if Imported(a.kind, upload).Some? {
      var next := Replaced(a, Imported(a.kind, upload).value, upload);
      SettledGeneration(registry, next);
      CountedBy(registry, a, Projected(registry, next));
    }
  }

  lemma {:induction false} IllustratedCounts(registry: Registry, a: Asset, id: Id, blob: Id, part: Part)
    ensures var b := Illustrated(registry, a, id, blob, part).asset;
      b.generation == a.generation +
        (if Fingerprint(registry, b) == Fingerprint(registry, a) then 0 else 1)
  {
    hide Fingerprint;
    hide Counted;
    hide Insert;
    hide TakesCover;
    CountedBy(registry, a, WithPicture(a, id, blob, part));
  }

  /** Each transaction moves the counter by one exactly when it altered what a
      reader could download, though an arrangement never looks. */
  lemma {:induction false} GenerationStep(registry: Registry, a: Asset, change: Change)
    requires PageKept(a)
    ensures var b := Changed(registry, a, change).asset;
      b.generation == a.generation +
        (if Fingerprint(registry, b) == Fingerprint(registry, a) then 0 else 1)
  {
    hide Fingerprint;
    hide Edited;
    hide Identified;
    hide NamespaceDeleted;
    hide Reimported;
    hide Illustrated;
    hide PageKept;
    match change
    case EditBlocks(edit) => EditedCounts(registry, a, edit);
    case SetIdentity(name, rating) => IdentifiedCounts(registry, a, name, rating);
    case DeleteNamespace(namespace) => DeletedCounts(registry, a, namespace);
    case Reimport(upload) => ReimportedCounts(registry, a, upload);
    case AddPicture(id, blob, part) => IllustratedCounts(registry, a, id, blob, part);
  }

  ghost function RunOf(registry: Registry, a: Asset, changes: seq<Change>): Asset
    decreases |changes|
  {
    if changes == [] then a else RunOf(registry, Changed(registry, a, changes[0]).asset, changes[1..])
  }

  ghost predicate RunFresh(registry: Registry, a: Asset, changes: seq<Change>)
    decreases |changes|
  {
    changes == [] ||
    (ChangeFresh(a, changes[0]) && RunFresh(registry, Changed(registry, a, changes[0]).asset, changes[1..]))
  }

  lemma {:induction false} SettledKeeps(registry: Registry, before: Asset, a: Asset)
    requires PageKept(a)
    ensures PageKept(Counted(registry, before, Projected(registry, a)))
  {
    hide *;
    SettledFields(registry, before, a);
  }

  lemma {:induction false} EditedKeeps(registry: Registry, a: Asset, edit: Edit)
    requires PageKept(a) && EditFresh(a.blocks, edit)
    ensures PageKept(Edited(registry, a, edit).asset)
  {
    hide PageKept;
    hide EditFresh;
    hide EditPage;
    hide DefsOf;
    hide Counted;
    hide Projected;
    hide DropUnowned;
    hide WithFacets;
    if EditPage(DefsOf(a.kind), a.blocks, edit).Done? {
      var changed := a.(blocks := EditPage(DefsOf(a.kind), a.blocks, edit).value);
      EditedPage(a, edit);
      FacetsApart(changed);
      SettledKeeps(registry, a, changed);
      DropKeepsPage(changed);
      SettledKeeps(registry, a, DropUnowned(changed));
    }
  }

  lemma {:induction false} IdentifiedKeeps(registry: Registry, a: Asset, name: string, answer: Option<bool>)
    requires PageKept(a)
    ensures PageKept(Identified(registry, a, name, answer).asset)
  {
    hide PageOk;
    hide CatalogOf;
    hide DefsOf;
    hide Fingerprint;
  }

  lemma {:induction false} DeletedKeeps(registry: Registry, a: Asset, namespace: string)
    requires PageKept(a)
    ensures PageKept(NamespaceDeleted(registry, a, namespace).asset)
  {
    hide PageOk;
    hide CatalogOf;
    hide DefsOf;
    hide Fingerprint;
  }

  lemma {:induction false} ReimportedKeeps(registry: Registry, a: Asset, upload: Upload)
    requires PageKept(a) && UploadFresh(upload)
    ensures PageKept(Reimported(registry, a, upload).asset)
  {
    hide PageKept;
    hide UploadFresh;
    hide Imported;
    hide Counted;
    hide Projected;
    if Imported(a.kind, upload).Some? {
      var next := Replaced(a, Imported(a.kind, upload).value, upload);
      ImportedKept(a, upload);
      SettledFields(registry, a, next);
    }
  }

  lemma {:induction false} ImportedKept(a: Asset, upload: Upload)
    requires UploadFresh(upload) && Imported(a.kind, upload).Some?
    ensures PageKept(Replaced(a, Imported(a.kind, upload).value, upload))
  {
    ImportedPage(a.kind, upload);
    hide Imported;
    hide PageOk;
    hide CatalogOf;
    hide DefsOf;
    hide UploadFresh;
  }

  /** Every transaction keeps the page rules. */
  lemma {:induction false} PageStaysKept(registry: Registry, a: Asset, change: Change)
    requires PageKept(a) && ChangeFresh(a, change)
    ensures PageKept(Changed(registry, a, change).asset)
  {
    hide Edited;
    hide Identified;
    hide NamespaceDeleted;
    hide Reimported;
    hide PageKept;
    hide EditFresh;
    hide UploadFresh;
    match change
    case EditBlocks(edit) => EditedKeeps(registry, a, edit);
    case SetIdentity(name, rating) => IdentifiedKeeps(registry, a, name, rating);
    case DeleteNamespace(namespace) => DeletedKeeps(registry, a, namespace);
    case Reimport(upload) => ReimportedKeeps(registry, a, upload);
    case AddPicture(id, blob, part) => IllustratedKeeps(registry, a, id, blob, part);
  }

  lemma {:induction false} IllustratedKeeps(registry: Registry, a: Asset, id: Id, blob: Id, part: Part)
    requires PageKept(a)
    ensures PageKept(Illustrated(registry, a, id, blob, part).asset)
  {
    hide TakesCover;
    hide PageOk;
    hide CatalogOf;
    hide DefsOf;
    hide Fingerprint;
    hide Insert;
  }

  /** Over any run from a good page the generation never falls, and where it stands
      still so does everything a reader could download. */
  lemma {:induction false} GenerationTracks(registry: Registry, a: Asset, changes: seq<Change>)
    requires PageKept(a) && RunFresh(registry, a, changes)
    ensures var b := RunOf(registry, a, changes);
      && PageKept(b)
      && a.generation <= b.generation
      && (a.generation == b.generation ==> Fingerprint(registry, a) == Fingerprint(registry, b))
    decreases |changes|
  {
    if changes != [] {
      var next := Changed(registry, a, changes[0]).asset;
      PageStaysKept(registry, a, changes[0]);
      GenerationStep(registry, a, changes[0]);
      hide Changed;
      hide PageKept;
      hide Fingerprint;
      GenerationTracks(registry, next, changes[1..]);
    }
  }

  // ---- fingerprints and records -------------------------------------------

  ghost predicate NulFree(s: string) { Text.NUL !in s }

  /** Stored text holds no NUL. */
  ghost predicate Clean(a: Asset) {
    && NulFree(a.origin)
    && NulFree(a.header.name) && NulFree(a.header.blurb) && NulFree(a.header.assetVersion)
    && NulFree(a.header.creditedAuthor) && NulFree(a.header.nickname)
    && (forall e | e in Flat(a.blocks) :: NulFree(e.content.body))
    && (forall row | row in a.preserved :: NulFree(row.namespace) && NulFree(row.payload))
  }

  lemma {:induction false} IdsArePlain(id: Id)
    ensures NulFree(IdText(id))
  {
    if id >= 10 { IdsArePlain(id / 10); }
  }

  lemma {:induction false} KindsArePlain(kind: Kind)
    ensures NulFree(KindText(kind))
  {
  }

  predicate Textual(role: Role) {
    role in {NoRole, Description, Personality, Scenario, Greetings, GroupGreetings, ExampleDialogue, SystemPrompt}
  }

  predicate Prompting(role: Role) {
    role in {PostHistoryInstructions, CreatorNotes, GalleryImages, ExpressionImages, LorebookEntries, PromptFragments}
  }

  lemma {:induction false} TextualArePlain(role: Role)
    requires Textual(role)
    ensures NulFree(RoleText(role))
  {
  }

  lemma {:induction false} PromptingArePlain(role: Role)
    requires Prompting(role)
    ensures NulFree(RoleText(role))
  {
  }

  lemma {:induction false} OthersArePlain(role: Role)
    requires !Textual(role) && !Prompting(role)
    ensures NulFree(RoleText(role))
  {
  }

  lemma {:induction false} RolesArePlain(role: Role)
    ensures NulFree(RoleText(role))
  {
    hide RoleText;
    hide NulFree;
    hide Textual;
    hide Prompting;
    if Textual(role) { TextualArePlain(role); } else if Prompting(role) { PromptingArePlain(role); } else { OthersArePlain(role); }
  }

  lemma {:induction false} NamesArePlain(owner: Owner, field: HeaderField)
    ensures NulFree(OwnerText(owner)) && NulFree(FieldName(field))
  {
  }

  lemma {:induction false} ElementsAreWhole(elements: seq<Element>)
    requires forall e | e in elements :: NulFree(e.content.body)
    ensures forall r | r in ElementRecords(elements) :: Text.Whole(r)
  {
    Sorting.SortBag(IdLe, elements);
    forall r | r in ElementRecords(elements) ensures Text.Whole(r) {
      var kept := Sorting.Filter(NotEmpty, ById(elements));
      var i :| 0 <= i < |kept| && ElementRecords(elements)[i] == r;
      assert kept[i] in kept;
      assert kept[i] in multiset(ById(elements));
      IdsArePlain(kept[i].id);
      RolesArePlain(kept[i].role);
      hide IdText;
      hide RoleText;
    }
  }

  lemma {:induction false} RowsAreWhole(a: Asset)
    requires Clean(a)
    ensures forall r | r in Map(PreservedRecord, a.preserved) :: Text.Whole(r)
  {
    forall r | r in Map(PreservedRecord, a.preserved) ensures Text.Whole(r) {
      var i :| 0 <= i < |a.preserved| && PreservedRecord(a.preserved[i]) == r;
      assert a.preserved[i] in a.preserved;
      IdsArePlain(a.preserved[i].ownerId);
      NamesArePlain(a.preserved[i].owner, Name);
      hide IdText;
      hide OwnerText;
    }
  }

  lemma {:induction false} PicturesAreWhole(media: seq<Media>, wanted: set<Id>)
    ensures forall r | r in PictureRecords(media, wanted) :: Text.Whole(r)
  {
    forall r | r in PictureRecords(media, wanted) ensures Text.Whole(r) {
      var kept := Sorting.Filter((m: Media) => IsWanted(wanted, m), media);
      var i :| 0 <= i < |kept| && PictureRecord(kept[i]) == r;
      IdsArePlain(kept[i].id);
      IdsArePlain(kept[i].blob);
      hide IdText;
    }
  }

  lemma {:induction false} HeaderIsWhole(a: Asset, field: HeaderField)
    requires Clean(a)
    ensures Text.Whole(HeaderRecord(a.header)(field))
  {
    NamesArePlain(AssetOwned, field);
    hide FieldName;
    hide Flat;
    assert NulFree(FieldValue(a.header, field));
    hide FieldValue;
  }

  lemma {:induction false} HeadersAreWhole(registry: Registry, a: Asset)
    requires Clean(a)
    ensures forall r | r in Map(HeaderRecord(a.header), HeaderFields(registry, a.kind)) :: Text.Whole(r)
  {
    hide Clean;
    hide HeaderFields;
    hide HeaderRecord;
    hide Text.Whole;
    var fields := HeaderFields(registry, a.kind);
    forall r | r in Map(HeaderRecord(a.header), fields) ensures Text.Whole(r) {
      var i :| 0 <= i < |fields| && HeaderRecord(a.header)(fields[i]) == r;
      HeaderIsWhole(a, fields[i]);
    }
  }

  lemma {:induction false} RecordsAreWhole(registry: Registry, a: Asset)
    requires Clean(a)
    ensures forall r | r in Records(registry, a) :: Text.Whole(r)
  {
    var asset := Text.Record(Text.Asset, [KindText(a.kind), a.origin]);
    KindsArePlain(a.kind);
    assert Text.Whole(asset);
    HeadersAreWhole(registry, a);
    ElementsAreWhole(Flat(a.blocks));
    RowsAreWhole(a);
    PicturesAreWhole(a.media, Wanted(a.cover, Flat(a.blocks)));
    hide Text.Whole;
    hide ElementRecords;
    hide PictureRecords;
    hide HeaderFields;
    hide Wanted;
    hide KindText;
    hide Flat;
  }

  /** Two assets with one fingerprint have the same things to download. */
  lemma {:induction false} FingerprintsTell(registry: Registry, a: Asset, b: Asset)
    requires Clean(a) && Clean(b) && Fingerprint(registry, a) == Fingerprint(registry, b)
    ensures Records(registry, a) == Records(registry, b)
  {
    RecordsAreWhole(registry, a);
    RecordsAreWhole(registry, b);
    hide Records;
    hide Text.Whole;
    Text.UniquelyDecodable(Records(registry, a), Records(registry, b));
  }

  /** Where a run leaves the generation, the same things are there to download:
      record for record, for stored text without NULs. */
  lemma {:induction false} GenerationTells(registry: Registry, a: Asset, changes: seq<Change>)
    requires PageKept(a) && RunFresh(registry, a, changes)
    requires var b := RunOf(registry, a, changes); Clean(a) && Clean(b) && b.generation == a.generation
    ensures Records(registry, RunOf(registry, a, changes)) == Records(registry, a)
  {
    hide PageKept;
    hide Clean;
    hide RunOf;
    hide RunFresh;
    hide Records;
    hide Fingerprint;
    GenerationTracks(registry, a, changes);
    FingerprintsTell(registry, RunOf(registry, a, changes), a);
  }

  // ---- from a file on -----------------------------------------------------

  lemma {:induction false} RunKeepsAsset(registry: Registry, a: Asset, changes: seq<Change>)
    requires AssetOk(registry, a) && RunFresh(registry, a, changes)
    ensures AssetOk(registry, RunOf(registry, a, changes))
    decreases |changes|
  {
    if changes != [] {
      ChangedOk(registry, a, changes[0]);
      hide Changed;
      hide AssetOk;
      RunKeepsAsset(registry, Changed(registry, a, changes[0]).asset, changes[1..]);
    }
  }

  /** From its creation on, through any run, an asset keeps the page rules, stores
      the projections of its page, and counts a generation for each change. */
  lemma {:induction false} CreatedAssetsStayOk(
    registry: Registry, kind: Kind, header: Header, upload: Upload, rating: Option<bool>, draft: bool, changes: seq<Change>
  )
    requires UploadFresh(upload) && Created(registry, kind, header, upload, rating, draft).Some?
    requires RunFresh(registry, Created(registry, kind, header, upload, rating, draft).value, changes)
    ensures var a := Created(registry, kind, header, upload, rating, draft).value;
      var b := RunOf(registry, a, changes);
      && AssetOk(registry, b) && a.generation <= b.generation
      && (a.generation == b.generation ==> Fingerprint(registry, a) == Fingerprint(registry, b))
  {
    hide Created;
    hide RunOf;
    hide RunFresh;
    hide UploadFresh;
    hide PageKept;
    hide Projecting;
    hide Fingerprint;
    CreatedOk(registry, kind, header, upload, rating, draft);
    var a := Created(registry, kind, header, upload, rating, draft).value;
    RunKeepsAsset(registry, a, changes);
    GenerationTracks(registry, a, changes);
  }
}
