/** What each transaction leaves in the asset's row, field by field, and what a
    reader could download that the generation stands for. */
module AssetStores {
  import opened Sequences
  import opened Sorting
  import opened Blocks
  import opened Catalog
  import opened PageRules
  import opened PageSteps
  import opened PageInvariant
  import opened EditExact
  import opened Capability
  import opened Facets
  import opened AssetState
  import opened AssetLaws
  import opened AssetRuns
  import opened AssetExact
  import Text = FingerprintText

  // ---- what an edit leaves ------------------------------------------------

  /** Whether a preserved row belongs to the asset, or to an element or an item that
      is on the page. */
  ghost predicate OwnedOn(page: seq<Block>, row: Preserved) {
    row.owner == AssetOwned
    || exists e :: e in Flat(page) && (e.id == row.ownerId || row.ownerId in ItemIds(e.content))
  }

  /** Everything but the page and what is derived from it is as it was. */
  ghost predicate Framed(a: Asset, b: Asset) {
    && b.kind == a.kind && b.origin == a.origin && b.header == a.header && b.cover == a.cover && b.media == a.media
    && b.rating == a.rating && b.draft == a.draft && b.deleted == a.deleted && b.withheld == a.withheld
    && a.generation <= b.generation <= a.generation + 1
  }

  /** The rows that are left are those owned on the page, in their order. */
  ghost predicate OwnedRowsLeft(page: seq<Block>, rows: seq<Preserved>, left: seq<Preserved>)
    decreases |rows|
  {
    if rows == [] then left == []
    else if OwnedOn(page, rows[0]) then left != [] && left[0] == rows[0] && OwnedRowsLeft(page, rows[1..], left[1..])
    else OwnedRowsLeft(page, rows[1..], left)
  }

  lemma {:induction false} OwnedIsKept(page: seq<Block>, row: Preserved)
    ensures Kept(Owners(page), row) <==> OwnedOn(page, row)
  {
    hide Flat;
  }

  lemma {:induction false} FilterLeaves(page: seq<Block>, rows: seq<Preserved>)
    ensures OwnedRowsLeft(page, rows, Filter(KeptRows(Owners(page)), rows))
    decreases |rows|
  {
    if rows != [] {
      OwnedIsKept(page, rows[0]);
      hide Owners;
      hide OwnedOn;
      FilterLeaves(page, rows[1..]);
      var left := Filter(KeptRows(Owners(page)), rows);
      if OwnedOn(page, rows[0]) { assert left[1..] == Filter(KeptRows(Owners(page)), rows[1..]); }
    }
  }

  lemma {:induction false} SettledFrame(registry: Registry, before: Asset, a: Asset)
    requires Framed(before, a) && a.generation == before.generation
    ensures var b := Counted(registry, before, Projected(registry, a));
      Framed(before, b) && b.blocks == a.blocks && b.preserved == a.preserved
  {
    hide Fingerprint;
    hide Offered;
    hide MeasureFacets;
    hide ShownElements;
  }

  lemma {:induction false} DroppedFrame(before: Asset, a: Asset)
    requires Framed(before, a)
    ensures var b := DropUnowned(a);
      Framed(before, b) && b.blocks == a.blocks && b.generation == a.generation && OwnedRowsLeft(a.blocks, a.preserved, b.preserved)
  {
    FilterLeaves(a.blocks, a.preserved);
    hide Owners;
    hide OwnedRowsLeft;
  }

  lemma {:induction false} EditIs(registry: Registry, a: Asset, edit: Edit)
    requires Edited(registry, a, edit).reply == Ok
    ensures EditPage(DefsOf(a.kind), a.blocks, edit).Done?
    ensures var changed := a.(blocks := EditPage(DefsOf(a.kind), a.blocks, edit).value);
      Edited(registry, a, edit).asset ==
        if edit.Arrange? then WithFacets(changed)
        else Counted(registry, a, Projected(registry, if edit.Add? then changed else DropUnowned(changed)))
  {
    hide EditPage;
    hide DefsOf;
    hide Counted;
    hide Projected;
    hide DropUnowned;
    hide WithFacets;
  }

  lemma {:induction false} ShownFrame(a: Asset, page: seq<Block>)
    ensures var b := WithFacets(a.(blocks := page)); Framed(a, b) && b.blocks == page && b.preserved == a.preserved
  {
    hide MeasureFacets;
    hide ShownElements;
  }

  /** An accepted edit leaves the page it asks for; a save, a removal and a move also
      drop the preserved rows that nothing on the page owns any more; and nothing else
      of the asset changes but the projections and the generation. */
  lemma {:induction false} EditLeaves(registry: Registry, a: Asset, edit: Edit)
    requires PageKept(a) && Edited(registry, a, edit).reply == Ok
    ensures Leaves(a, Edited(registry, a, edit).asset, edit)
  {
    LeavesIs(a, Edited(registry, a, edit).asset, edit);
    hide *;
    KeptIds(a);
    EditIs(registry, a, edit);
    var page := EditPage(DefsOf(a.kind), a.blocks, edit).value;
    var changed := a.(blocks := page);
    PageStores(DefsOf(a.kind), a.blocks, edit);
    FramedSelf(a, page);
    if edit.Arrange? {
      ShownFrame(a, page);
    } else if edit.Add? {
      SettledFrame(registry, a, changed);
    } else {
      DroppedFrame(a, changed);
      SettledFrame(registry, a, DropUnowned(changed));
    }
  }

  /** What an accepted edit leaves. */
  ghost predicate Leaves(a: Asset, b: Asset, edit: Edit) {
    && Stores(DefsOf(a.kind), a.blocks, b.blocks, edit)
    && Framed(a, b)
    && (if edit.Add? || edit.Arrange? then b.preserved == a.preserved else OwnedRowsLeft(b.blocks, a.preserved, b.preserved))
  }

  lemma {:induction false} LeavesIs(a: Asset, b: Asset, edit: Edit)
    ensures Leaves(a, b, edit) <==>
      && Stores(DefsOf(a.kind), a.blocks, b.blocks, edit)
      && Framed(a, b)
      && (if edit.Add? || edit.Arrange? then b.preserved == a.preserved else OwnedRowsLeft(b.blocks, a.preserved, b.preserved))
  {
  }

  predicate OnPage(page: seq<Block>, id: Id) { exists i :: 0 <= i < |page| && page[i].id == id }

  /** Whether the blocks an edit is about are on the page. */
  predicate Points(page: seq<Block>, edit: Edit) {
    match edit
    case Save(id, _) => OnPage(page, id)
    case Remove(id) => OnPage(page, id)
    case Move(source, destination) => source != destination && OnPage(page, source) && OnPage(page, destination)
    case Add(_, _, _) => true
    case Arrange(_) => true
  }

  lemma {:induction false} NotFoundSays(defs: seq<Definition>, page: seq<Block>, edit: Edit)
    ensures EditPage(defs, page, edit) == NotFound <==> !Points(page, edit)
  {
    hide BuilderOk;
    hide StructureOk;
    hide ChoicesOk;
    hide NewBlock;
    hide MayMove;
    hide IsRequired;
  }

  /** What an edit answers: a deleted asset is missing, a withheld one frozen, and so
      is missing a block that is not there; what else the page refuses is refused. */
  lemma {:induction false} EditReplies(registry: Registry, a: Asset, edit: Edit)
    ensures var reply := Edited(registry, a, edit).reply;
      && (reply == Missing <==> a.deleted || (!a.withheld && !Points(a.blocks, edit)))
      && (reply == Frozen <==> !a.deleted && a.withheld)
      && (reply == Refused <==> !a.deleted && !a.withheld && EditPage(DefsOf(a.kind), a.blocks, edit) == Invalid)
      && (reply == Ok <==> !a.deleted && !a.withheld && EditPage(DefsOf(a.kind), a.blocks, edit).Done?)
  {
    NotFoundSays(DefsOf(a.kind), a.blocks, edit);
    hide EditPage;
    hide Projected;
    hide DropUnowned;
    hide WithFacets;
    hide Points;
    hide DefsOf;
    hide Counted;
  }

  /** When an edit does not get as far as the rules of its page. */
  ghost predicate AnswersTo(a: Asset, edit: Edit, reply: Reply) {
    && (reply == Missing <==> a.deleted || (!a.withheld && !Points(a.blocks, edit)))
    && (reply == Frozen <==> !a.deleted && a.withheld)
  }

  lemma {:induction false} EditOutcome(registry: Registry, a: Asset, edit: Edit)
    requires PageKept(a)
    ensures var answer := Edited(registry, a, edit);
      && AnswersTo(a, edit, answer.reply)
      && if answer.reply == Ok then Leaves(a, answer.asset, edit) else answer.asset == a
  {
    EditReplies(registry, a, edit);
    assert AnswersTo(a, edit, Edited(registry, a, edit).reply) by { hide Edited; hide Points; }
    hide *;
    RefusalLeaves(registry, a, edit);
    if Edited(registry, a, edit).reply == Ok { EditLeaves(registry, a, edit); }
  }

  lemma {:induction false} FramedSelf(a: Asset, page: seq<Block>)
    ensures Framed(a, a.(blocks := page))
  {
  }

  lemma {:induction false} KeptIds(a: Asset)
    requires PageKept(a)
    ensures Distinct(BlockIds(a.blocks)) && Distinct(PageIds(a.blocks))
  {
    KeptCatalog(a);
    hide CatalogOk;
    hide DefsOf;
    hide CatalogOf;
  }

  /** A refused edit leaves the asset as it was. */
  lemma {:induction false} RefusalLeaves(registry: Registry, a: Asset, edit: Edit)
    ensures Edited(registry, a, edit).reply != Ok ==> Edited(registry, a, edit).asset == a
  {
    hide EditPage;
    hide DefsOf;
    hide Counted;
    hide Projected;
    hide DropUnowned;
    hide WithFacets;
  }

  // ---- a save and the fingerprint -----------------------------------------

  lemma {:induction false} BagRecorded(x: seq<Element>, y: seq<Element>)
    requires multiset(x) == multiset(y) && Distinct(Ids(x))
    ensures ElementRecords(x) == ElementRecords(y)
  {
    MapPermuted(NoSlot, x, y);
    FacesRecorded(x, y);
    hide ElementRecords;
  }

  /** After an accepted save the recorded elements are the update's and those of the
      other blocks. */
  lemma {:induction false} SavedRecords(registry: Registry, a: Asset, id: Id, update: Update)
    requires PageKept(a) && Edited(registry, a, Edit.Save(id, update)).reply == Ok
    ensures RecordsSave(a.blocks, Edited(registry, a, Edit.Save(id, update)).asset.blocks, id, update)
  {
    hide *;
    var b := Edited(registry, a, Edit.Save(id, update)).asset;
    EditLeaves(registry, a, Edit.Save(id, update));
    LeavesIs(a, b, Edit.Save(id, update));
    SaveKeeps(registry, a, id, update);
    KeptIds(b);
    SaveIsStored(DefsOf(a.kind), a.blocks, b.blocks, id, update);
    StoredRecords(a.blocks, b.blocks, id, update);
  }

  ghost predicate RecordsSave(page: seq<Block>, after: seq<Block>, id: Id, update: Update) {
    exists i :: OnlyAt(page, i, id)
                && ElementRecords(Flat(after)) == ElementRecords(update.elements + Flat(page[..i] + page[i + 1..]))
  }

  lemma {:induction false} SaveIsStored(defs: seq<Definition>, page: seq<Block>, after: seq<Block>, id: Id, update: Update)
    requires Stores(defs, page, after, Edit.Save(id, update))
    ensures StoresSave(page, after, id, update)
  {
  }

  lemma {:induction false} StoredRecords(page: seq<Block>, after: seq<Block>, id: Id, update: Update)
    requires StoresSave(page, after, id, update) && Distinct(PageIds(after))
    ensures RecordsSave(page, after, id, update)
  {
    hide Distinct;
    hide Flat;
    hide Ids;
    hide ElementRecords;
    var i :| OnlyAt(page, i, id) && SavedAt(page, after, i, update);
    assert after == page[i := after[i]];
    ReplacedBag(page, i, after[i]);
    var others := Flat(page[..i] + page[i + 1..]);
    assert multiset(Flat(after)) == multiset(update.elements + others);
    BagRecorded(Flat(after), update.elements + others);
  }

  lemma {:induction false} SaveKeeps(registry: Registry, a: Asset, id: Id, update: Update)
    requires PageKept(a)
    ensures PageKept(Edited(registry, a, Edit.Save(id, update)).asset)
  {
    hide PageKept;
    hide Edited;
    EditedKeeps(registry, a, Edit.Save(id, update));
  }

  // ---- what there is to download ------------------------------------------

  datatype Body = Body(id: Id, role: Role, body: string)

  datatype Picture = Picture(id: Id, blob: Id, current: bool)

  /** The bodies of the elements that hold something. */
  ghost function Bodies(a: Asset): set<Body> {
    set e | e in Flat(a.blocks) && !e.content.empty :: Body(e.id, e.role, e.content.body)
  }

  /** The cover, and the pictures an element points at. */
  ghost function PicturesShown(a: Asset): set<Picture> {
    set m | m in a.media && ((a.cover != NIL && m.id == a.cover) || Pointed(a, m.id)) :: Picture(m.id, m.blob, m.current)
  }

  ghost predicate Pointed(a: Asset, id: Id) {
    exists e :: e in Flat(a.blocks) && id in e.content.pictures
  }

  /** Whether some writer of the kind writes the header field. */
  ghost predicate Reaches(registry: Registry, kind: Kind, field: HeaderField) {
    exists id :: id in registry && registry[id].writes && registry[id].kind == kind && field in registry[id].header
  }

  function HeaderValue(header: Header, field: HeaderField): string {
    match field
    case AssetVersion => header.assetVersion
    case Blurb => header.blurb
    case CreditedAuthor => header.creditedAuthor
    case Name => header.name
    case Nickname => header.nickname
  }

  /** Two assets a reader could download the same things of. */
  ghost predicate SameDownloads(registry: Registry, a: Asset, b: Asset) {
    && a.kind == b.kind && a.origin == b.origin
    && (forall field | Reaches(registry, a.kind, field) :: HeaderValue(a.header, field) == HeaderValue(b.header, field))
    && Bodies(a) == Bodies(b)
    && (forall row :: row in a.preserved <==> row in b.preserved)
    && PicturesShown(a) == PicturesShown(b)
  }

  function RoleLength(role: Role): nat {
    match role
    case NoRole => 0
    case Description => 11
    case Personality => 11
    case Scenario => 8
    case Greetings => 9
    case GroupGreetings => 15
    case ExampleDialogue => 16
    case SystemPrompt => 13
    case PostHistoryInstructions => 25
    case CreatorNotes => 13
    case GalleryImages => 7
    case ExpressionImages => 11
    case LorebookEntries => 16
    case PromptFragments => 16
    case PromptVariables => 16
    case SamplerSettings => 16
    case CompletionSettings => 19
    case AdvancedSettings => 17
    case PromptNudges => 13
    case RegexScripts => 13
    case ThemeTokens => 12
    case ThemeControls => 14
    case Stylesheets => 11
    case PackItems => 10
    case UnknownRole => 1
  }

  /** The first and the eighth letter of the texts that are not told by length. */
  function RoleMark(role: Role): (char, char) {
    match role
    case Description => ('d', 't')
    case Personality => ('p', 'l')
    case ExpressionImages => ('e', 'i')
    case Stylesheets => ('s', 'e')
    case SystemPrompt => ('s', 'p')
    case CreatorNotes => ('c', '_')
    case PromptNudges => ('p', 'n')
    case RegexScripts => ('r', 'c')
    case ExampleDialogue => ('e', '_')
    case LorebookEntries => ('l', 'k')
    case PromptFragments => ('p', 'f')
    case PromptVariables => ('p', 'v')
    case SamplerSettings => ('s', '_')
    case _ => (' ', ' ')
  }

  lemma {:induction false} RoleMarks(role: Role)
    ensures |RoleText(role)| == RoleLength(role)
    ensures RoleLength(role) in {11, 13, 16} ==> (RoleText(role)[0], RoleText(role)[7]) == RoleMark(role)
  {
  }

  lemma {:induction false} RoleTells(r: Role, q: Role)
    requires RoleText(r) == RoleText(q)
    ensures r == q
  {
    RoleMarks(r);
    RoleMarks(q);
    hide RoleText;
    assert RoleLength(r) in {11, 13, 16} ==> RoleMark(r) == RoleMark(q);
  }

  lemma {:induction false} KindTells(a: Kind, b: Kind)
    requires KindText(a) == KindText(b)
    ensures a == b
  {
    assert |KindText(a)| == |KindText(b)|;
    if |KindText(a)| > 0 { assert KindText(a)[0] == KindText(b)[0] && KindText(a)[2] == KindText(b)[2]; }
  }

  lemma {:induction false} OwnerTells(a: Owner, b: Owner)
    requires OwnerText(a) == OwnerText(b)
    ensures a == b
  {
    assert |OwnerText(a)| == |OwnerText(b)|;
  }

  lemma {:induction false} FieldTells(a: HeaderField, b: HeaderField)
    requires FieldName(a) == FieldName(b)
    ensures a == b
  {
    assert |FieldName(a)| == |FieldName(b)|;
  }

  /** What stands among the records of an asset. */
  ghost predicate IsRecord(registry: Registry, a: Asset, r: Text.Record) {
    || r == Text.Record(Text.Asset, [KindText(a.kind), a.origin])
    || (exists field :: Reaches(registry, a.kind, field) && r == Text.Record(Text.Header, [FieldName(field), HeaderValue(a.header, field)]))
    || (exists e :: e in Flat(a.blocks) && !e.content.empty
                    && r == Text.Record(Text.Element, [IdText(e.id), RoleText(e.role), e.content.body]))
    || (exists row :: row in a.preserved
                      && r == Text.Record(Text.Preserved, [OwnerText(row.owner), IdText(row.ownerId), row.namespace, row.payload]))
    || (exists p :: p in PicturesShown(a)
                    && r == Text.Record(Text.Picture, [IdText(p.id), IdText(p.blob), if p.current then "true" else "false"]))
  }

  lemma {:induction false} InMap<A, B>(f: A -> B, s: seq<A>, y: B)
    ensures y in Map(f, s) <==> exists x :: x in s && f(x) == y
  {
    if y in Map(f, s) {
      var i :| 0 <= i < |s| && Map(f, s)[i] == y;
      assert s[i] in s && f(s[i]) == y;
    }
    if x :| x in s && f(x) == y {
      var i :| 0 <= i < |s| && s[i] == x;
      assert Map(f, s)[i] == y;
    }
  }

  lemma {:induction false} InFilter<T>(keep: T -> bool, s: seq<T>, x: T)
    ensures x in Filter(keep, s) <==> x in s && keep(x)
  {
    FilterHas(keep, s);
  }

  lemma {:induction false} FieldsAre(registry: Registry, kind: Kind, field: HeaderField)
    ensures field in HeaderFields(registry, kind) <==> Reaches(registry, kind, field)
  {
    hide Filter;
    InFilter((f: HeaderField) => Exported(registry, kind, f), [AssetVersion, Blurb, CreditedAuthor, Name, Nickname], field);
  }

  lemma {:induction false} HeaderIs(header: Header, field: HeaderField)
    ensures HeaderRecord(header)(field) == Text.Record(Text.Header, [FieldName(field), HeaderValue(header, field)])
  {
  }

  lemma {:induction false} HeadersAre(registry: Registry, a: Asset, r: Text.Record)
    ensures r in Map(HeaderRecord(a.header), HeaderFields(registry, a.kind)) <==>
      exists field :: Reaches(registry, a.kind, field) && r == Text.Record(Text.Header, [FieldName(field), HeaderValue(a.header, field)])
  {
    hide *;
    InMap(HeaderRecord(a.header), HeaderFields(registry, a.kind), r);
    forall field: HeaderField
      ensures field in HeaderFields(registry, a.kind) <==> Reaches(registry, a.kind, field)
      ensures HeaderRecord(a.header)(field) == Text.Record(Text.Header, [FieldName(field), HeaderValue(a.header, field)])
    {
      FieldsAre(registry, a.kind, field);
      HeaderIs(a.header, field);
    }
  }

  lemma {:induction false} ElementsAre(elements: seq<Element>, r: Text.Record)
    ensures r in ElementRecords(elements) <==>
      exists e :: e in elements && !e.content.empty && r == Text.Record(Text.Element, [IdText(e.id), RoleText(e.role), e.content.body])
  {
    SortBag(IdLe, elements);
    InMap(ElementRecord, Filter(NotEmpty, ById(elements)), r);
    forall e: Element
      ensures e in Filter(NotEmpty, ById(elements)) <==> e in elements && !e.content.empty
      ensures ElementRecord(e) == Text.Record(Text.Element, [IdText(e.id), RoleText(e.role), e.content.body])
    {
      InFilter(NotEmpty, ById(elements), e);
      assert e in ById(elements) <==> e in multiset(ById(elements));
      assert e in elements <==> e in multiset(elements);
    }
    assert ElementRecords(elements) == Map(ElementRecord, Filter(NotEmpty, ById(elements)));
    hide ElementRecords;
    hide ElementRecord;
    hide Filter;
    hide Sort;
    hide IdText;
    hide RoleText;
    hide Map;
  }

  lemma {:induction false} RowsAre(rows: seq<Preserved>, r: Text.Record)
    ensures r in Map(PreservedRecord, rows) <==>
      exists row :: row in rows
                    && r == Text.Record(Text.Preserved, [OwnerText(row.owner), IdText(row.ownerId), row.namespace, row.payload])
  {
    InMap(PreservedRecord, rows, r);
    hide OwnerText;
    hide IdText;
    hide Map;
    forall row: Preserved
      ensures PreservedRecord(row) ==
              Text.Record(Text.Preserved, [OwnerText(row.owner), IdText(row.ownerId), row.namespace, row.payload])
    {
    }
    hide PreservedRecord;
  }

  lemma {:induction false} PicturesAre(a: Asset, r: Text.Record)
    ensures r in PictureRecords(a.media, Wanted(a.cover, Flat(a.blocks))) <==>
      exists p :: p in PicturesShown(a)
                  && r == Text.Record(Text.Picture, [IdText(p.id), IdText(p.blob), if p.current then "true" else "false"])
  {
    var wanted := Wanted(a.cover, Flat(a.blocks));
    var keep := (m: Media) => IsWanted(wanted, m);
    assert PictureRecords(a.media, wanted) == Map(PictureRecord, Filter(keep, a.media));
    InMap(PictureRecord, Filter(keep, a.media), r);
    forall m: Media
      ensures m in Filter(keep, a.media) <==> m in a.media && ((a.cover != NIL && m.id == a.cover) || Pointed(a, m.id))
    {
      InFilter(keep, a.media, m);
    }
    hide Flat;
    hide Filter;
    hide IdText;
    hide PictureRecords;
    hide Map;
    hide Wanted;
    if m :| m in Filter(keep, a.media) && PictureRecord(m) == r {
      assert Picture(m.id, m.blob, m.current) in PicturesShown(a);
    }
    if p :| p in PicturesShown(a)
            && r == Text.Record(Text.Picture, [IdText(p.id), IdText(p.blob), if p.current then "true" else "false"]) {
      var m :| m in a.media && ((a.cover != NIL && m.id == a.cover) || Pointed(a, m.id)) && p == Picture(m.id, m.blob, m.current);
      assert m in Filter(keep, a.media) && PictureRecord(m) == r;
    }
  }

  lemma {:induction false} RecordsHold(registry: Registry, a: Asset, r: Text.Record)
    ensures r in Records(registry, a) <==> IsRecord(registry, a, r)
  {
    HeadersAre(registry, a, r);
    ElementsAre(Flat(a.blocks), r);
    RowsAre(a.preserved, r);
    PicturesAre(a, r);
    hide Flat;
    hide ElementRecords;
    hide PictureRecords;
    hide HeaderFields;
    hide HeaderRecord;
    hide PreservedRecord;
    hide Wanted;
    hide PicturesShown;
    hide Reaches;
    hide Map;
    hide IdText;
    hide RoleText;
    hide OwnerText;
    hide KindText;
    hide FieldName;
    hide HeaderValue;
  }

  lemma {:induction false} RecordsWithin(registry: Registry, a: Asset, b: Asset)
    requires forall r | IsRecord(registry, a, r) :: IsRecord(registry, b, r)
    ensures a.kind == b.kind && a.origin == b.origin
    ensures forall field | Reaches(registry, a.kind, field) :: HeaderValue(a.header, field) == HeaderValue(b.header, field)
    ensures Bodies(a) <= Bodies(b)
    ensures forall row | row in a.preserved :: row in b.preserved
    ensures PicturesShown(a) <= PicturesShown(b)
  {
    AssetWithin(registry, a, b);
    HeaderWithin(registry, a, b);
    BodiesWithin(registry, a, b);
    RowsWithin(registry, a, b);
    PicturesWithin(registry, a, b);
    hide *;
  }

  lemma {:induction false} AssetWithin(registry: Registry, a: Asset, b: Asset)
    requires forall r | IsRecord(registry, a, r) :: IsRecord(registry, b, r)
    ensures a.kind == b.kind && a.origin == b.origin
  {
    hide Flat;
    hide PicturesShown;
    hide Reaches;
    hide IdText;
    hide RoleText;
    hide OwnerText;
    hide KindText;
    hide FieldName;
    hide HeaderValue;
    var r := Text.Record(Text.Asset, [KindText(a.kind), a.origin]);
    assert IsRecord(registry, a, r);
    assert r == Text.Record(Text.Asset, [KindText(b.kind), b.origin]);
    assert r.fields[0] == KindText(b.kind) && r.fields[1] == b.origin;
    KindTells(a.kind, b.kind);
  }

  lemma {:induction false} HeaderWithin(registry: Registry, a: Asset, b: Asset)
    requires forall r | IsRecord(registry, a, r) :: IsRecord(registry, b, r)
    ensures forall field | Reaches(registry, a.kind, field) :: HeaderValue(a.header, field) == HeaderValue(b.header, field)
  {
    hide Flat;
    hide PicturesShown;
    hide Reaches;
    hide IdText;
    hide RoleText;
    hide OwnerText;
    hide KindText;
    hide FieldName;
    hide HeaderValue;
    forall field | Reaches(registry, a.kind, field) ensures HeaderValue(a.header, field) == HeaderValue(b.header, field) {
      var r := Text.Record(Text.Header, [FieldName(field), HeaderValue(a.header, field)]);
      assert IsRecord(registry, a, r);
      var other :| Reaches(registry, b.kind, other) && r == Text.Record(Text.Header, [FieldName(other), HeaderValue(b.header, other)]);
      assert r.fields[0] == FieldName(other) && r.fields[1] == HeaderValue(b.header, other);
      FieldTells(field, other);
    }
  }

  lemma {:induction false} BodiesWithin(registry: Registry, a: Asset, b: Asset)
    requires forall r | IsRecord(registry, a, r) :: IsRecord(registry, b, r)
    ensures Bodies(a) <= Bodies(b)
  {
    hide Flat;
    hide PicturesShown;
    hide Reaches;
    hide IdText;
    hide RoleText;
    hide OwnerText;
    hide KindText;
    hide FieldName;
    hide HeaderValue;
    forall body | body in Bodies(a) ensures body in Bodies(b) {
      var e :| e in Flat(a.blocks) && !e.content.empty && body == Body(e.id, e.role, e.content.body);
      var r := Text.Record(Text.Element, [IdText(e.id), RoleText(e.role), e.content.body]);
      assert IsRecord(registry, a, r);
      var f :| f in Flat(b.blocks) && !f.content.empty
               && r == Text.Record(Text.Element, [IdText(f.id), RoleText(f.role), f.content.body]);
      assert r.fields[0] == IdText(f.id) && r.fields[1] == RoleText(f.role) && r.fields[2] == f.content.body;
      IdTextTells(e.id, f.id);
      RoleTells(e.role, f.role);
    }
  }

  lemma {:induction false} RowsWithin(registry: Registry, a: Asset, b: Asset)
    requires forall r | IsRecord(registry, a, r) :: IsRecord(registry, b, r)
    ensures forall row | row in a.preserved :: row in b.preserved
  {
    hide Flat;
    hide PicturesShown;
    hide Reaches;
    hide IdText;
    hide RoleText;
    hide OwnerText;
    hide KindText;
    hide FieldName;
    hide HeaderValue;
    forall row | row in a.preserved ensures row in b.preserved {
      var r := Text.Record(Text.Preserved, [OwnerText(row.owner), IdText(row.ownerId), row.namespace, row.payload]);
      assert IsRecord(registry, a, r);
      var other :| other in b.preserved
                   && r == Text.Record(Text.Preserved, [OwnerText(other.owner), IdText(other.ownerId), other.namespace, other.payload]);
      assert r.fields[0] == OwnerText(other.owner) && r.fields[1] == IdText(other.ownerId);
      assert r.fields[2] == other.namespace && r.fields[3] == other.payload;
      OwnerTells(row.owner, other.owner);
      IdTextTells(row.ownerId, other.ownerId);
    }
  }

  lemma {:induction false} PicturesWithin(registry: Registry, a: Asset, b: Asset)
    requires forall r | IsRecord(registry, a, r) :: IsRecord(registry, b, r)
    ensures PicturesShown(a) <= PicturesShown(b)
  {
    hide Flat;
    hide PicturesShown;
    hide Reaches;
    hide IdText;
    hide RoleText;
    hide OwnerText;
    hide KindText;
    hide FieldName;
    hide HeaderValue;
    forall p | p in PicturesShown(a) ensures p in PicturesShown(b) {
      var r := Text.Record(Text.Picture, [IdText(p.id), IdText(p.blob), if p.current then "true" else "false"]);
      assert IsRecord(registry, a, r);
      var q :| q in PicturesShown(b)
               && r == Text.Record(Text.Picture, [IdText(q.id), IdText(q.blob), if q.current then "true" else "false"]);
      assert r.fields[0] == IdText(q.id) && r.fields[1] == IdText(q.blob);
      assert r.fields[2] == if q.current then "true" else "false";
      assert |"true"| == 4 && |"false"| == 5;
      IdTextTells(p.id, q.id);
      IdTextTells(p.blob, q.blob);
    }
  }

  /** Two NUL-free assets with one fingerprint have the same things to download: the
      same bodies under the same ids and roles, the same preserved rows, the same
      pictures, and the same header as far as any writer reaches. */
  lemma {:induction false} FingerprintMeans(registry: Registry, a: Asset, b: Asset)
    requires Clean(a) && Clean(b) && Fingerprint(registry, a) == Fingerprint(registry, b)
    ensures SameDownloads(registry, a, b)
  {
    FingerprintsTell(registry, a, b);
    hide *;
    forall r ensures IsRecord(registry, a, r) <==> IsRecord(registry, b, r) {
      RecordsHold(registry, a, r);
      RecordsHold(registry, b, r);
    }
    RecordsWithin(registry, a, b);
    RecordsWithin(registry, b, a);
    Downloads(registry, a, b);
  }

  lemma {:induction false} Downloads(registry: Registry, a: Asset, b: Asset)
    requires a.kind == b.kind && a.origin == b.origin
    requires forall field | Reaches(registry, a.kind, field) :: HeaderValue(a.header, field) == HeaderValue(b.header, field)
    requires Bodies(a) <= Bodies(b) <= Bodies(a) && PicturesShown(a) <= PicturesShown(b) <= PicturesShown(a)
    requires (forall row | row in a.preserved :: row in b.preserved) && forall row | row in b.preserved :: row in a.preserved
    ensures SameDownloads(registry, a, b)
  {
    hide Bodies;
    hide PicturesShown;
    hide Reaches;
    hide HeaderValue;
  }

  /** Over every run from a good page, anything a reader could download that is not
      what it was has counted a generation. */
  lemma {:induction false} NewContentCounts(registry: Registry, a: Asset, changes: seq<Change>)
    requires PageKept(a) && AssetRuns.RunFresh(registry, a, changes)
    requires Clean(a) && Clean(RunOf(registry, a, changes))
    ensures !SameDownloads(registry, a, RunOf(registry, a, changes)) ==> RunOf(registry, a, changes).generation > a.generation
  {
    hide *;
    GenerationTracks(registry, a, changes);
    if RunOf(registry, a, changes).generation == a.generation { FingerprintMeans(registry, a, RunOf(registry, a, changes)); }
  }
}
