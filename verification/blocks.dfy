/** The asset content model: elements carry roles, blocks arrange them in the
    slots of a layout, and a kind's catalog says which blocks a page may hold. */
module Blocks {
  import opened Sequences

  /** An identifier. Zero stands for the nil identifier. */
  type Id = nat
  const NIL: Id := 0

  const MAX_PAYLOAD_BYTES := 8 * 1024 * 1024
  const MAX_COLLECTION_ITEMS := 5000
  const MAX_ITEM_BYTES := 8 * 1024 * 1024

  datatype Type =
    | Prose | TextSet | FieldList | DialogueSample | ImageSet | LinkList | EntryTable
    | PromptList | VariableSchema | SettingGroup | ScriptList | ColorSet | StylesheetSet
    | RecordList | UnknownType

  datatype Role =
    | NoRole | Description | Personality | Scenario | Greetings | GroupGreetings
    | ExampleDialogue | SystemPrompt | PostHistoryInstructions | CreatorNotes | GalleryImages
    | ExpressionImages | LorebookEntries | PromptFragments | PromptVariables
    | SamplerSettings | CompletionSettings | AdvancedSettings | PromptNudges | RegexScripts
    | ThemeTokens | ThemeControls | Stylesheets | PackItems | UnknownRole

  datatype Slot = Main | Left | Right | Aside | Middle | Top | Bottom | UnknownSlot

  datatype Layout = Single | Duo | MainAside | Trio | Stack2 | Stack3 | UnknownLayout

  datatype Width = Full | TwoThirds | Half | Third | UnknownWidth

  datatype Display = NoDisplay | Rich | Verbatim | UnknownDisplay

  datatype ItemSize = NoSize | Small | Medium | Large | UnknownSize

  datatype Options = Options(display: Display, itemSize: ItemSize)

  /** One thing inside an element, with the id preserved data is keyed by. An item
      is blank when it holds no text of its own. */
  datatype Item = Item(id: Id, bytes: nat, blank: bool)

  /** The body of an element. `body` is its stored text, `pictures` the media
      its images point at, and `empty` whether a reader would see nothing.
      `texts` are the openings and names of what it holds, those that have any,
      and `count` how many things it holds in all. */
  datatype Content = Content(
    empty: bool, items: seq<Item>, bytes: nat, body: string, pictures: seq<Id>, texts: seq<string>,
    count: nat)

  datatype Element = Element(
    id: Id, typ: Type, role: Role, slot: Slot, options: Options, content: Content)

  datatype DefinitionID =
    | CharacterCore | LorebookCore | PresetCore | PresetSettings | PresetVariables
    | PresetScripts | PresetNudges | ThemeCore | ThemeStylesheet | PackCore | Messages
    | Expressions | Lorebook | ImagePrompts | ModelInstructions | Relationships | Gallery
    | Usage | Changelog | Attributes | AuthorNotes | RunsBestWith | CustomBlock

  datatype Block = Block(
    id: Id, definition: DefinitionID, title: Option<string>, position: int, hidden: bool,
    layout: Layout, width: Width, elements: seq<Element>)

  datatype DefinedElement = DefinedElement(
    role: Role, typ: Type, options: Options, pinned: bool)

  datatype Definition = Definition(
    id: DefinitionID, required: bool, hideable: bool, repeatable: bool,
    elements: seq<DefinedElement>, layouts: seq<Layout>, width: Width,
    choices: seq<DefinedElement>)

  // ---- tables -------------------------------------------------------------

  function Slots(layout: Layout): seq<Slot> {
    match layout
    case Single => [Main]
    case Duo => [Left, Right]
    case MainAside => [Main, Aside]
    case Trio => [Left, Middle, Right]
    case Stack2 => [Top, Bottom]
    case Stack3 => [Top, Middle, Bottom]
    case UnknownLayout => []
  }

  function Columns(width: Width): nat {
    match width
    case Full => 12
    case TwoThirds => 8
    case Half => 6
    case Third => 4
    case UnknownWidth => 0
  }

  function MinimumWidth(layout: Layout): Width {
    match layout
    case Single => Third
    case Duo => TwoThirds
    case MainAside => TwoThirds
    case Trio => Full
    case Stack2 => Third
    case Stack3 => Third
    case UnknownLayout => UnknownWidth
  }

  /** The one element type each role may attach to. */
  function RoleType(role: Role): Option<Type> {
    match role
    case Description | Personality | Scenario => Some(Prose)
    case Greetings | GroupGreetings => Some(TextSet)
    case ExampleDialogue => Some(DialogueSample)
    case GalleryImages | ExpressionImages => Some(ImageSet)
    case SystemPrompt | PostHistoryInstructions | CreatorNotes => Some(Prose)
    case LorebookEntries => Some(EntryTable)
    case PromptFragments => Some(PromptList)
    case PromptVariables => Some(VariableSchema)
    case SamplerSettings | CompletionSettings | AdvancedSettings => Some(SettingGroup)
    case PromptNudges => Some(TextSet)
    case RegexScripts => Some(ScriptList)
    case ThemeTokens => Some(ColorSet)
    case ThemeControls => Some(SettingGroup)
    case Stylesheets => Some(StylesheetSet)
    case PackItems => Some(RecordList)
    case NoRole | UnknownRole => None
  }

  predicate Allows(role: Role, typ: Type) {
    RoleType(role) == Some(typ)
  }

  /** Only the gallery may repeat. A missing role is not counted at all. */
  predicate Singular(role: Role) {
    role != GalleryImages && role != NoRole
  }

  // ---- the page as one list of elements -----------------------------------

  function ElementsOf(holder: Block): seq<Element> { holder.elements }

  function IdOf(element: Element): Id { element.id }

  function RoleOf(element: Element): Role { element.role }

  function BlockId(holder: Block): Id { holder.id }

  function Flat(page: seq<Block>): seq<Element> {
    Flatten(Map(ElementsOf, page))
  }

  function Ids(elements: seq<Element>): seq<Id> { Map(IdOf, elements) }

  function Roles(elements: seq<Element>): seq<Role> { Map(RoleOf, elements) }

  function PageIds(page: seq<Block>): seq<Id> { Ids(Flat(page)) }

  function BlockIds(page: seq<Block>): seq<Id> { Map(BlockId, page) }

  function ItemIds(content: Content): seq<Id> {
    Map((item: Item) => item.id, content.items)
  }

  lemma {:induction false} FlatConcat(p: seq<Block>, q: seq<Block>)
    ensures Flat(p + q) == Flat(p) + Flat(q)
  {
    MapConcat(ElementsOf, p, q);
    FlattenConcat(Map(ElementsOf, p), Map(ElementsOf, q));
  }

  lemma {:induction false} FlatOne(holder: Block)
    ensures Flat([holder]) == holder.elements
  {
    assert Map(ElementsOf, [holder]) == [holder.elements];
    assert Flatten([holder.elements]) == holder.elements + Flatten([holder.elements][1..]);
  }

  lemma {:induction false} FlatAt(page: seq<Block>, i: nat)
    requires i < |page|
    ensures Flat(page) == Flat(page[..i]) + page[i].elements + Flat(page[i + 1..])
  {
    assert page == page[..i] + [page[i]] + page[i + 1..];
    FlatConcat(page[..i] + [page[i]], page[i + 1..]);
    FlatConcat(page[..i], [page[i]]);
    FlatOne(page[i]);
  }

  lemma {:induction false} FlatMembers(page: seq<Block>)
    ensures forall i, j | 0 <= i < |page| && 0 <= j < |page[i].elements| ::
      page[i].elements[j] in Flat(page)
    ensures forall e | e in Flat(page) :: exists i :: 0 <= i < |page| && e in page[i].elements
  {
    var lists := Map(ElementsOf, page);
    FlattenMembers(lists);
    forall i, j | 0 <= i < |page| && 0 <= j < |page[i].elements|
      ensures page[i].elements[j] in Flat(page)
    {
      assert lists[i][j] in Flatten(lists);
    }
    forall e | e in Flat(page) ensures exists i :: 0 <= i < |page| && e in page[i].elements {
      var i :| 0 <= i < |lists| && e in lists[i];
      assert e in page[i].elements;
    }
  }

  lemma {:induction false} IdsWithinPage(page: seq<Block>, i: nat)
    requires i < |page| && Distinct(PageIds(page))
    ensures Distinct(Ids(page[i].elements))
  {
    FlatAt(page, i);
    var above, below := Flat(page[..i]), Flat(page[i + 1..]);
    var ids := Ids(page[i].elements);
    forall k, l | 0 <= k < l < |ids| ensures ids[k] != ids[l] {
      assert PageIds(page)[|above| + k] == ids[k] && PageIds(page)[|above| + l] == ids[l];
    }
  }

  lemma {:induction false} LayoutSlotsDistinct(layout: Layout)
    ensures Distinct(Slots(layout))
  {
  }

  // ---- what makes one block readable --------------------------------------

  predicate WithinLimits(content: Content) {
    && |content.items| <= MAX_COLLECTION_ITEMS
    && (forall item | item in content.items :: item.bytes <= MAX_ITEM_BYTES)
    && content.bytes <= MAX_PAYLOAD_BYTES
  }

  ghost predicate ItemIdsOk(content: Content) {
    NIL !in ItemIds(content) && Distinct(ItemIds(content))
  }

  /** Text bodies name a display and image sets a size; nothing else may. */
  predicate OptionsFit(typ: Type, options: Options) {
    && (if typ in {Prose, TextSet} then options.display in {Rich, Verbatim}
        else options.display == NoDisplay)
    && (if typ == ImageSet then options.itemSize in {Small, Medium, Large}
        else options.itemSize == NoSize)
  }

  /** Everything ValidateStructure asks of one element apart from its slot. */
  ghost predicate ElementOk(element: Element) {
    && WithinLimits(element.content)
    && element.typ != UnknownType
    && element.id != NIL
    && ItemIdsOk(element.content)
    && OptionsFit(element.typ, element.options)
  }

  function SlotOf(element: Element): Slot { element.slot }

  ghost predicate StructureOk(holder: Block) {
    && 0 < |Slots(holder.layout)|
    && |holder.elements| <= |Slots(holder.layout)|
    && (forall e | e in holder.elements :: ElementOk(e) && e.slot in Slots(holder.layout))
    && Distinct(Ids(holder.elements))
    && Distinct(Map(SlotOf, holder.elements))
  }

  method ValidateContentLimits(elements: seq<Element>) returns (ok: bool)
    ensures ok <==> forall e | e in elements :: WithinLimits(e.content)
  {
    for i := 0 to |elements|
      invariant forall e | e in elements[..i] :: WithinLimits(e.content)
    {
      var content := elements[i].content;
      assert elements[i] in elements;
      if |content.items| > MAX_COLLECTION_ITEMS { return false; }
      for k := 0 to |content.items|
        invariant forall item | item in content.items[..k] :: item.bytes <= MAX_ITEM_BYTES
      {
        if content.items[k].bytes > MAX_ITEM_BYTES {
          assert content.items[k] in content.items;
          return false;
        }
      }
      if content.bytes > MAX_PAYLOAD_BYTES { return false; }
    }
    return true;
  }

  method ValidateItemIds(content: Content) returns (ok: bool)
    ensures ok <==> ItemIdsOk(content)
  {
    var ids := ItemIds(content);
    var seen: set<Id> := {};
    for i := 0 to |ids|
      invariant seen == set k | 0 <= k < i :: ids[k]
      invariant NIL !in seen && Distinct(ids[..i])
    {
      if ids[i] == NIL || ids[i] in seen { return false; }
      seen := seen + {ids[i]};
    }
    assert ids[..|ids|] == ids;
    return true;
  }

  /** The options check of ValidateStructure. */
  method ValidateOptions(element: Element) returns (ok: bool)
    ensures ok <==> OptionsFit(element.typ, element.options)
  {
    if element.typ == Prose || element.typ == TextSet {
      if element.options.display != Rich && element.options.display != Verbatim {
        return false;
      }
    } else if element.options.display != NoDisplay {
      return false;
    }
    if element.typ == ImageSet {
      return element.options.itemSize in {Small, Medium, Large};
    }
    return element.options.itemSize == NoSize;
  }

  /** Whether a block can be read without special cases. */
  method ValidateStructure(holder: Block) returns (ok: bool)
    ensures ok <==> StructureOk(holder)
  {
    hide WithinLimits;
    hide ItemIdsOk;
    hide OptionsFit;
    hide Slots;
    var elements := holder.elements;
    ghost var ids, slots := Ids(elements), Map(SlotOf, elements);
    var limits := ValidateContentLimits(elements);
    if !limits { return false; }
    var available := Slots(holder.layout);
    if |available| == 0 || |elements| > |available| { return false; }
    var occupied: set<Slot> := {};
    var identities: set<Id> := {};
    for i := 0 to |elements|
      invariant forall k | 0 <= k < i :: ElementOk(elements[k]) && elements[k].slot in available
      invariant forall x :: x in identities <==> x in ids[..i]
      invariant forall x :: x in occupied <==> x in slots[..i]
      invariant Distinct(ids[..i]) && Distinct(slots[..i])
    {
      var element := elements[i];
      assert element in elements && ids[i] == element.id && slots[i] == element.slot;
      assert ids[..i + 1] == ids[..i] + [ids[i]] && slots[..i + 1] == slots[..i] + [slots[i]];
      if element.typ == UnknownType || element.id == NIL { return false; }
      if element.id in identities { return false; }
      identities := identities + {element.id};
      var itemsOk := ValidateItemIds(element.content);
      if !itemsOk { return false; }
      var optionsOk := ValidateOptions(element);
      if !optionsOk { return false; }
      if element.slot !in available { return false; }
      if element.slot in occupied { return false; }
      occupied := occupied + {element.slot};
    }
    assert ids[..|elements|] == ids && slots[..|elements|] == slots;
    return true;
  }
}
