/** An asset as its row, blocks, preserved data, pictures and projections, and
    what each editing transaction makes of it. */
module AssetState {
  import opened Sequences
  import opened Sorting
  import opened Blocks
  import opened Catalog
  import opened PageSteps
  import opened Placement
  import opened Capability
  import opened Facets
  import Text = FingerprintText

  datatype Owner = AssetOwned | ElementOwned | ItemOwned

  /** Source data a reader could not model, kept under what it belongs to. */
  datatype Preserved = Preserved(owner: Owner, ownerId: Id, namespace: string, payload: string)

  /** What a picture stands for: the asset's face, another one, or neither. */
  datatype Part = Avatar | AvatarAlternate | NoFace

  datatype Media = Media(id: Id, blob: Id, current: bool, part: Part)

  datatype Header = Header(
    name: string, blurb: string, assetVersion: string, creditedAuthor: string, nickname: string)

  /** `preserved` and `media` are in the order their queries read them. */
  datatype Asset = Asset(
    kind: Kind, origin: string, header: Header, cover: Id, blocks: seq<Block>,
    preserved: seq<Preserved>, media: seq<Media>, rating: Option<bool>, draft: bool,
    deleted: bool, withheld: bool, generation: nat, exports: seq<Target>, facets: map<FacetKey, nat>)

  function DefsOf(kind: Kind): seq<Definition> {
    match CatalogOf(kind)
    case None => []
    case Some(defs) => defs
  }

  // ---- what the fingerprint reads -----------------------------------------

  function IdText(id: Id): string {
    if id < 10 then [Digit(id)] else IdText(id / 10) + [Digit(id % 10)]
  }

  function Digit(n: nat): char
    requires n < 10
  {
    "0123456789"[n]
  }

  function KindText(kind: Kind): string {
    match kind
    case CharacterKind => "character"
    case LorebookKind => "lorebook"
    case PresetKind => "preset"
    case ThemeKind => "theme"
    case PackKind => "pack"
    case UnknownKind => ""
  }

  function RoleText(role: Role): string {
    match role
    case NoRole => ""
    case Description => "description"
    case Personality => "personality"
    case Scenario => "scenario"
    case Greetings => "greetings"
    case GroupGreetings => "group_greetings"
    case ExampleDialogue => "example_dialogue"
    case SystemPrompt => "system_prompt"
    case PostHistoryInstructions => "post_history_instructions"
    case CreatorNotes => "creator_notes"
    case GalleryImages => "gallery"
    case ExpressionImages => "expressions"
    case LorebookEntries => "lorebook_entries"
    case PromptFragments => "prompt_fragments"
    case PromptVariables => "prompt_variables"
    case SamplerSettings => "sampler_settings"
    case CompletionSettings => "completion_settings"
    case AdvancedSettings => "advanced_settings"
    case PromptNudges => "prompt_nudges"
    case RegexScripts => "regex_scripts"
    case ThemeTokens => "theme_tokens"
    case ThemeControls => "theme_controls"
    case Stylesheets => "stylesheets"
    case PackItems => "pack_items"
    case UnknownRole => "?"
  }

  function OwnerText(owner: Owner): string {
    match owner
    case AssetOwned => "asset"
    case ElementOwned => "element"
    case ItemOwned => "item"
  }

  function FieldName(field: HeaderField): string {
    match field
    case AssetVersion => "asset_version"
    case Blurb => "blurb"
    case CreditedAuthor => "credited_author"
    case Name => "name"
    case Nickname => "nickname"
  }

  function FieldValue(header: Header, field: HeaderField): string {
    match field
    case AssetVersion => header.assetVersion
    case Blurb => header.blurb
    case CreditedAuthor => header.creditedAuthor
    case Name => header.name
    case Nickname => header.nickname
  }

  predicate Exported(registry: Registry, kind: Kind, field: HeaderField) {
    exists id | id in registry ::
      registry[id].writes && registry[id].kind == kind && field in registry[id].header
  }

  /** The header fields that reach a file, by name and each once. */
  function HeaderFields(registry: Registry, kind: Kind): seq<HeaderField> {
    Filter((field: HeaderField) => Exported(registry, kind, field), [AssetVersion, Blurb, CreditedAuthor, Name, Nickname])
  }

  function HeaderRecord(header: Header): HeaderField -> Text.Record {
    (field: HeaderField) => Text.Record(Text.Header, [FieldName(field), FieldValue(header, field)])
  }

  predicate IdLe(a: Element, b: Element) { a.id <= b.id }

  function ById(elements: seq<Element>): seq<Element> { Sort(IdLe, elements) }

  predicate NotEmpty(element: Element) { !element.content.empty }

  function ElementRecord(element: Element): Text.Record {
    Text.Record(Text.Element, [IdText(element.id), RoleText(element.role), element.content.body])
  }

  /** An empty element is one no writer writes, so it has no record. */
  function ElementRecords(elements: seq<Element>): seq<Text.Record> {
    Map(ElementRecord, Filter(NotEmpty, ById(elements)))
  }

  function PreservedRecord(row: Preserved): Text.Record {
    Text.Record(Text.Preserved, [OwnerText(row.owner), IdText(row.ownerId), row.namespace, row.payload])
  }

  /** The cover and every picture an element points at. */
  function Wanted(cover: Id, elements: seq<Element>): set<Id> {
    (if cover == NIL then {} else {cover}) +
    set e, p | e in elements && p in e.content.pictures :: p
  }

  predicate IsWanted(wanted: set<Id>, media: Media) { media.id in wanted }

  function PictureRecord(media: Media): Text.Record {
    Text.Record(Text.Picture, [IdText(media.id), IdText(media.blob), if media.current then "true" else "false"])
  }

  function PictureRecords(media: seq<Media>, wanted: set<Id>): seq<Text.Record> {
    Map(PictureRecord, Filter((m: Media) => IsWanted(wanted, m), media))
  }

  function Records(registry: Registry, a: Asset): seq<Text.Record> {
    [Text.Record(Text.Asset, [KindText(a.kind), a.origin])]
    + Map(HeaderRecord(a.header), HeaderFields(registry, a.kind))
    + ElementRecords(Flat(a.blocks))
    + Map(PreservedRecord, a.preserved)
    + PictureRecords(a.media, Wanted(a.cover, Flat(a.blocks)))
  }

  /** The digest of a text stands for the text: two are equal when it is. */
  function Fingerprint(registry: Registry, a: Asset): string {
    Text.Text(Records(registry, a))
  }

  // ---- what a transaction derives -----------------------------------------

  function Owners(page: seq<Block>): set<Id> {
    IdsOwning(Flat(page))
  }

  function IdsOwning(elements: seq<Element>): set<Id> {
    (set e | e in elements :: e.id) + set e, x | e in elements && x in ItemIds(e.content) :: x
  }

  predicate Kept(owners: set<Id>, row: Preserved) {
    row.owner == AssetOwned || row.ownerId in owners
  }

  function KeptRows(owners: set<Id>): Preserved -> bool {
    (row: Preserved) => Kept(owners, row)
  }

  /** Drops preserved rows whose element or item the edit detached. */
  function DropUnowned(a: Asset): Asset {
    a.(preserved := Filter(KeptRows(Owners(a.blocks)), a.preserved))
  }

  function SubjectOf(a: Asset): Subject {
    Subject(a.kind, a.origin, Flat(a.blocks), [])
  }

  function WithFacets(a: Asset): Asset {
    a.(facets := MeasureFacets(a.kind, ShownElements(a.blocks)))
  }

  ghost function Projected(registry: Registry, a: Asset): Asset {
    WithFacets(a.(exports := Offered(registry, SubjectOf(a))))
  }

  /** Moves the counter where the change altered the fingerprint. */
  function Counted(registry: Registry, before: Asset, after: Asset): Asset {
    if Fingerprint(registry, after) == Fingerprint(registry, before) then after
    else after.(generation := after.generation + 1)
  }

  // ---- the transactions ---------------------------------------------------

  datatype Reply = Ok | Missing | Refused | Frozen | TooLong | Unanswerable

  datatype Answer = Answer(reply: Reply, asset: Asset)

  /** What taking the asset's lock answers. */
  function Lock(a: Asset): Reply {
    if a.deleted then Missing else if a.withheld then Frozen else Ok
  }

  ghost function Edited(registry: Registry, a: Asset, edit: Edit): Answer {
    if Lock(a) != Ok then Answer(Lock(a), a)
    else
      match EditPage(DefsOf(a.kind), a.blocks, edit)
      case NotFound => Answer(Missing, a)
      case Invalid => Answer(Refused, a)
      case Done(page) =>
        var changed := a.(blocks := page);
        match edit
        case Arrange(_) => Answer(Ok, WithFacets(changed))
        case Add(_, _, _) => Answer(Ok, Counted(registry, a, Projected(registry, changed)))
        case _ => Answer(Ok, Counted(registry, a, Projected(registry, DropUnowned(changed))))
  }

  const MAX_NAME_RUNES := 200

  /** `name` is the given name with the space around it taken off. */
  function Identified(registry: Registry, a: Asset, name: string, rating: Option<bool>): Answer {
    if |name| > MAX_NAME_RUNES then Answer(TooLong, a)
    else if Lock(a) != Ok then Answer(Lock(a), a)
    else if rating.None? && !a.draft then Answer(Unanswerable, a)
    else Answer(Ok, Counted(registry, a, a.(header := a.header.(name := name), rating := rating)))
  }

  function OutsideNamespace(namespace: string): Preserved -> bool {
    (row: Preserved) => row.namespace != namespace
  }

  function NamespaceDeleted(registry: Registry, a: Asset, namespace: string): Answer {
    if Lock(a) != Ok then Answer(Lock(a), a)
    else
      var rows := Filter(OutsideNamespace(namespace), a.preserved);
      if |rows| == |a.preserved| then Answer(Missing, a)
      else Answer(Ok, Counted(registry, a, a.(preserved := rows)))
  }

  // ---- imports and pictures -----------------------------------------------

  /** What reading a file makes of it. `media` and `cover` are the picture rows
      and the cover the asset has once the file's own pictures are stored. */
  datatype Upload = Upload(
    tagged: seq<Element>, mint: nat -> Id, origin: string, version: string, author: string, nickname: string,
    preserved: seq<Preserved>, media: seq<Media>, cover: Id)

  /** A row the import stores: it names what it belongs to, though nothing checks
      that the page holds it. */
  predicate Preservable(row: Preserved) {
    row.namespace != "" && row.payload != "" && (row.owner == AssetOwned || row.ownerId != NIL)
  }

  /** The page a file is laid out as, if it can be imported. */
  function Imported(kind: Kind, upload: Upload): Option<seq<Block>> {
    if (forall e | e in upload.tagged :: WithinLimits(e.content)) && (forall row | row in upload.preserved :: Preservable(row))
    then Placed(kind, upload.tagged, upload.mint)
    else None
  }

  ghost function Created(
    registry: Registry, kind: Kind, header: Header, upload: Upload, rating: Option<bool>, draft: bool
  ): Option<Asset> {
    match Imported(kind, upload)
    case None => None
    case Some(page) =>
      Some(Projected(registry, Asset(kind, upload.origin, header, upload.cover, page, upload.preserved, upload.media,
                                     rating, draft, false, false, 1, [], map[])))
  }

  /** The asset with a new revision's content in place of the old. */
  function Replaced(a: Asset, page: seq<Block>, upload: Upload): Asset {
    a.(blocks := page, preserved := upload.preserved, origin := upload.origin, media := upload.media,
       cover := upload.cover,
       header := a.header.(assetVersion := upload.version, creditedAuthor := upload.author, nickname := upload.nickname))
  }

  ghost function Reimported(registry: Registry, a: Asset, upload: Upload): Answer {
    match Imported(a.kind, upload)
    case None => Answer(Refused, a)
    case Some(page) =>
      if Lock(a) != Ok then Answer(Lock(a), a)
      else Answer(Ok, Counted(registry, a, Projected(registry, Replaced(a, page, upload))))
  }

  predicate MediaLe(a: Media, b: Media) { a.id <= b.id }

  /** Whether a new picture becomes the cover: an alternate only until a primary
      one has taken its place. */
  predicate TakesCover(a: Asset, part: Part) {
    || part == Avatar
    || (part == AvatarAlternate
        && (a.cover == NIL || exists m | m in a.media :: m.id == a.cover && m.part == AvatarAlternate))
  }

  /** The asset with one more picture. */
  function WithPicture(a: Asset, id: Id, blob: Id, part: Part): Asset {
    a.(media := Insert(MediaLe, Media(id, blob, true, part), a.media), cover := if TakesCover(a, part) then id else a.cover)
  }

  function Illustrated(registry: Registry, a: Asset, id: Id, blob: Id, part: Part): Answer {
    if Lock(a) != Ok then Answer(Lock(a), a) else Answer(Ok, Counted(registry, a, WithPicture(a, id, blob, part)))
  }

  // ---- any transaction ----------------------------------------------------

  datatype Change =
    | EditBlocks(edit: Edit)
    | SetIdentity(name: string, rating: Option<bool>)
    | DeleteNamespace(namespace: string)
    | Reimport(upload: Upload)
    | AddPicture(id: Id, blob: Id, part: Part)

  ghost function Changed(registry: Registry, a: Asset, change: Change): Answer {
    match change
    case EditBlocks(edit) => Edited(registry, a, edit)
    case SetIdentity(name, rating) => Identified(registry, a, name, rating)
    case DeleteNamespace(namespace) => NamespaceDeleted(registry, a, namespace)
    case Reimport(upload) => Reimported(registry, a, upload)
    case AddPicture(id, blob, part) => Illustrated(registry, a, id, blob, part)
  }
}
