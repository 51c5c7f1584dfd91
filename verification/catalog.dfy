/** The kind catalogs, and the rules a page keeps against its catalog. */
module Catalog {
  import opened Sequences
  import opened Blocks

  datatype Kind = CharacterKind | LorebookKind | PresetKind | ThemeKind | PackKind | UnknownKind

  function Plain(role: Role, typ: Type): DefinedElement {
    DefinedElement(role, typ, Options(NoDisplay, NoSize), false)
  }

  function Text(role: Role, typ: Type, display: Display): DefinedElement {
    DefinedElement(role, typ, Options(display, NoSize), false)
  }

  function Pictures(role: Role, size: ItemSize): DefinedElement {
    DefinedElement(role, ImageSet, Options(NoDisplay, size), false)
  }

  function Pin(defined: DefinedElement): DefinedElement {
    defined.(pinned := true)
  }

  function Requires(id: DefinitionID, hideable: bool, elements: seq<DefinedElement>,
                    layouts: seq<Layout>, width: Width): Definition {
    Definition(id, true, hideable, false, elements, layouts, width, [])
  }

  function Offers(id: DefinitionID, elements: seq<DefinedElement>, layouts: seq<Layout>,
                  width: Width): Definition {
    Definition(id, false, false, false, elements, layouts, width, [])
  }

  function CharacterCoreTable(): Definition {
    Requires(CharacterCore, true,
             [Pin(Text(Description, Prose, Rich)), Pin(Text(Personality, Prose, Rich)),
              Pin(Text(Scenario, Prose, Rich))],
             [Stack3, Trio], TwoThirds)
  }

  function MessagesTable(): Definition {
    Requires(Messages, false,
             [Pin(Text(Greetings, TextSet, Rich)), Pin(Plain(ExampleDialogue, DialogueSample)),
              Text(GroupGreetings, TextSet, Rich)],
             [Stack2, Stack3], Full)
  }

  function ImagePromptsTable(): Definition {
    Offers(ImagePrompts,
           [Plain(NoRole, FieldList), Text(NoRole, Prose, Verbatim), Text(NoRole, Prose, Verbatim)],
           [Stack3], TwoThirds)
  }

  function ModelInstructionsTable(): Definition {
    Offers(ModelInstructions,
           [Text(SystemPrompt, Prose, Verbatim), Text(PostHistoryInstructions, Prose, Verbatim)],
           [Stack2, Duo], Half)
  }

  function PresetSettingsTable(): Definition {
    Offers(PresetSettings,
           [Plain(SamplerSettings, SettingGroup), Plain(CompletionSettings, SettingGroup),
            Plain(AdvancedSettings, SettingGroup)],
           [Trio, Stack3], Full)
  }

  function ThemeCoreTable(): Definition {
    Requires(ThemeCore, false,
             [Pin(Plain(ThemeTokens, ColorSet)), Pin(Plain(ThemeControls, SettingGroup))],
             [Duo, Stack2], Full)
  }

  function CustomBlockTable(): Definition {
    Definition(CustomBlock, false, false, true, [],
               [Single, Duo, MainAside, Trio, Stack2, Stack3], Full,
               [Text(NoRole, Prose, Rich), Pictures(NoRole, Medium),
                Plain(NoRole, LinkList), Text(NoRole, TextSet, Rich)])
  }

  /** The table entry of one block. No block is in two kinds' own tables. */
  function Entry(id: DefinitionID): Definition {
    match id
    case CharacterCore => CharacterCoreTable()
    case Messages => MessagesTable()
    case Expressions => Offers(id, [Pictures(ExpressionImages, Small)], [Single], Full)
    case Lorebook => Offers(id, [Plain(LorebookEntries, EntryTable)], [Single], TwoThirds)
    case ImagePrompts => ImagePromptsTable()
    case ModelInstructions => ModelInstructionsTable()
    case Relationships => Offers(id, [Plain(NoRole, LinkList)], [Single], Third)
    case LorebookCore =>
      Requires(id, false, [Pin(Plain(LorebookEntries, EntryTable))], [Single], Full)
    case PresetCore =>
      Requires(id, false, [Pin(Plain(PromptFragments, PromptList))], [Single], Full)
    case PresetSettings => PresetSettingsTable()
    case PresetVariables => Offers(id, [Plain(PromptVariables, VariableSchema)], [Single], TwoThirds)
    case PresetScripts => Offers(id, [Plain(RegexScripts, ScriptList)], [Single], TwoThirds)
    case PresetNudges => Offers(id, [Text(PromptNudges, TextSet, Verbatim)], [Single], Third)
    case ThemeCore => ThemeCoreTable()
    case ThemeStylesheet =>
      Requires(id, true, [Pin(Plain(Stylesheets, StylesheetSet))], [Single], Full)
    case PackCore => Requires(id, false, [Pin(Plain(PackItems, RecordList))], [Single], Full)
    case Gallery => Offers(id, [Pictures(GalleryImages, Medium)], [Single], Half)
    case Usage => Offers(id, [Text(NoRole, Prose, Rich)], [Single], Half)
    case Changelog => Offers(id, [Text(NoRole, TextSet, Rich)], [Single], Half)
    case Attributes => Offers(id, [Plain(NoRole, FieldList)], [Single], Third)
    case AuthorNotes => Offers(id, [Text(CreatorNotes, Prose, Rich)], [Single], Third)
    case RunsBestWith => Offers(id, [Plain(NoRole, LinkList)], [Single], Third)
    case CustomBlock => CustomBlockTable()
  }

  function SharedOrder(): seq<DefinitionID> {
    [Gallery, Usage, Changelog, Attributes, AuthorNotes, RunsBestWith, CustomBlock]
  }

  /** A kind's own blocks in page order; an unknown kind has no catalog. */
  function OwnOrder(kind: Kind): Option<seq<DefinitionID>> {
    match kind
    case CharacterKind =>
      Some([CharacterCore, Messages, Expressions, Lorebook, ImagePrompts, ModelInstructions,
            Relationships])
    case LorebookKind => Some([LorebookCore])
    case PresetKind =>
      Some([PresetCore, PresetSettings, PresetVariables, PresetScripts, PresetNudges])
    case ThemeKind => Some([ThemeCore, ThemeStylesheet])
    case PackKind => Some([PackCore])
    case UnknownKind => None
  }

  /** A kind's block definitions in page order. */
  function CatalogOf(kind: Kind): Option<seq<Definition>> {
    match OwnOrder(kind)
    case None => None
    case Some(own) => Some(Map(Entry, own + SharedOrder()))
  }

  // ---- lookups ------------------------------------------------------------

  function Find(defs: seq<Definition>, id: DefinitionID): (found: Option<Definition>)
    ensures found.Some? ==> found.value in defs && found.value.id == id
    ensures found.None? ==> forall d | d in defs :: d.id != id
  {
    if defs == [] then None
    else if defs[0].id == id then Some(defs[0])
    else Find(defs[1..], id)
  }

  function ElementFor(elements: seq<DefinedElement>, role: Role): (found: Option<DefinedElement>)
    ensures found.Some? ==> found.value in elements && found.value.role == role
    ensures found.None? ==> forall e | e in elements :: e.role != role
  {
    if elements == [] then None
    else if elements[0].role == role then Some(elements[0])
    else ElementFor(elements[1..], role)
  }

  /** The first of the layouts with at least `count` slots. */
  function LayoutFor(layouts: seq<Layout>, count: nat): (found: Option<Layout>)
    ensures found.Some? ==> found.value in layouts && count <= |Slots(found.value)|
    ensures found.None? ==> forall l | l in layouts :: |Slots(l)| < count
  {
    if layouts == [] then None
    else if |Slots(layouts[0])| >= count then Some(layouts[0])
    else LayoutFor(layouts[1..], count)
  }

  /** Whether an element of this role can be neither removed nor moved. */
  function Pinned(defs: seq<Definition>, holder: Block, role: Role): bool {
    match Find(defs, holder.definition)
    case None => false
    case Some(d) =>
      match ElementFor(d.elements, role)
      case None => false
      case Some(e) => e.pinned
  }

  // ---- what the tables promise --------------------------------------------

  predicate FitsWidth(d: Definition, layout: Layout) {
    Columns(MinimumWidth(layout)) <= Columns(d.width)
  }

  predicate DefinedOk(e: DefinedElement) {
    e.typ != UnknownType && OptionsFit(e.typ, e.options) && (e.role == NoRole || Allows(e.role, e.typ))
  }

  ghost predicate ElementsOk(elements: seq<DefinedElement>, required: bool) {
    && (forall i | 0 <= i < |elements| ::
          DefinedOk(elements[i]) && (elements[i].pinned ==> required && elements[i].role != NoRole))
    && (forall i, j | 0 <= i < j < |elements| && elements[i].role != NoRole ::
          elements[i].role != elements[j].role)
  }

  /** A layout too wide for the block comes after one with as many slots, so it
      is never the first with room; and the last layout holds every element. */
  ghost predicate LayoutsOk(d: Definition) {
    && d.width != UnknownWidth
    && 0 < |d.layouts|
    && |d.elements| <= |Slots(d.layouts[|d.layouts| - 1])|
    && (forall k | 0 <= k < |d.layouts| :: 1 <= |Slots(d.layouts[k])|)
    && (forall k | 0 <= k < |d.layouts| :: FitsWidth(d, d.layouts[k]) ||
          (0 < k && |Slots(d.layouts[k])| <= |Slots(d.layouts[k - 1])|))
  }

  ghost predicate DefinitionOk(d: Definition) {
    && LayoutsOk(d)
    && ElementsOk(d.elements, d.required)
    && ElementsOk(d.choices, false)
    && (forall i | 0 <= i < |d.choices| :: d.choices[i].role == NoRole)
    && (d.required ==> !d.repeatable && d.choices == [] && d.elements != [])
  }

  lemma {:induction false} FirstWithRoom(layouts: seq<Layout>, count: nat) returns (k: nat)
    requires LayoutFor(layouts, count).Some?
    ensures k < |layouts| && LayoutFor(layouts, count) == Some(layouts[k])
    ensures forall j | 0 <= j < k :: |Slots(layouts[j])| < count
  {
    if |Slots(layouts[0])| >= count {
      k := 0;
    } else {
      k := FirstWithRoom(layouts[1..], count);
      k := k + 1;
      forall j | 0 <= j < k ensures |Slots(layouts[j])| < count {
        if 0 < j { assert layouts[1..][j - 1] == layouts[j]; }
      }
    }
  }

  /** The layout chosen for few enough elements always exists and fits the
      block's width. */
  lemma {:induction false} LayoutRoom(d: Definition, count: nat)
    requires LayoutsOk(d) && (count <= |d.elements| || count <= 1)
    ensures LayoutFor(d.layouts, count).Some?
    ensures LayoutFor(d.layouts, count).value in d.layouts
    ensures FitsWidth(d, LayoutFor(d.layouts, count).value)
    ensures count <= |Slots(LayoutFor(d.layouts, count).value)|
  {
    assert d.layouts[|d.layouts| - 1] in d.layouts;
    hide LayoutFor;
    hide Slots;
    hide Columns;
    var k := FirstWithRoom(d.layouts, count);
    if 0 < k { assert |Slots(d.layouts[k - 1])| < count; }
  }

  /** Each role that may appear once is offered by one definition only. */
  ghost predicate HomedBy(defs: seq<Definition>, home: Role -> DefinitionID) {
    forall i, k | 0 <= i < |defs| && 0 <= k < |defs[i].elements| && Singular(defs[i].elements[k].role) ::
      defs[i].id == home(defs[i].elements[k].role)
  }

  ghost predicate CatalogOk(defs: seq<Definition>) {
    && (forall i, j | 0 <= i < j < |defs| :: defs[i].id != defs[j].id)
    && (forall i | 0 <= i < |defs| :: DefinitionOk(defs[i]))
    && (exists home: Role -> DefinitionID :: HomedBy(defs, home))
    && (exists i :: 0 <= i < |defs| && defs[i].required)
  }

  function HomeOf(role: Role): DefinitionID {
    match role
    case Description | Personality | Scenario => CharacterCore
    case Greetings | ExampleDialogue | GroupGreetings => Messages
    case ExpressionImages => Expressions
    case LorebookEntries => Lorebook
    case SystemPrompt | PostHistoryInstructions => ModelInstructions
    case PromptFragments => PresetCore
    case SamplerSettings | CompletionSettings | AdvancedSettings => PresetSettings
    case PromptVariables => PresetVariables
    case RegexScripts => PresetScripts
    case PromptNudges => PresetNudges
    case ThemeTokens | ThemeControls => ThemeCore
    case Stylesheets => ThemeStylesheet
    case PackItems => PackCore
    case CreatorNotes => AuthorNotes
    case GalleryImages | NoRole | UnknownRole => Gallery
  }

  function RankOf(id: DefinitionID): nat {
    match id
    case CharacterCore => 0 case LorebookCore => 0 case PresetCore => 0 case ThemeCore => 0
    case PackCore => 0
    case Messages => 1 case PresetSettings => 1 case ThemeStylesheet => 1
    case Expressions => 2 case PresetVariables => 2
    case Lorebook => 3 case PresetScripts => 3
    case ImagePrompts => 4 case PresetNudges => 4
    case ModelInstructions => 5 case Relationships => 6
    case Gallery => 7 case Usage => 8 case Changelog => 9 case Attributes => 10
    case AuthorNotes => 11 case RunsBestWith => 12 case CustomBlock => 13
  }

  /** A block of one element in the single layout. */
  predicate OneElement(d: Definition, e: DefinedElement) {
    && d.elements == [e] && d.layouts == [Single] && d.choices == [] && !d.repeatable
    && DefinedOk(e) && (e.pinned ==> d.required && e.role != NoRole)
    && d.width != UnknownWidth
  }

  lemma {:induction false} OneElementOk(d: Definition, e: DefinedElement)
    requires OneElement(d, e)
    ensures DefinitionOk(d)
  {
  }

  predicate SlotFine(e: DefinedElement, required: bool) {
    DefinedOk(e) && (e.pinned ==> required && e.role != NoRole)
  }

  predicate Told(e: DefinedElement, f: DefinedElement) { e.role == NoRole || e.role != f.role }

  /** A block of two or three elements in one or two layouts that fit it. */
  predicate FewElements(d: Definition) {
    && 2 <= |d.elements| <= 3 && 1 <= |d.layouts| <= 2 && d.choices == [] && !d.repeatable
    && SlotFine(d.elements[0], d.required) && SlotFine(d.elements[1], d.required)
    && Told(d.elements[0], d.elements[1])
    && (|d.elements| == 3 ==>
          SlotFine(d.elements[2], d.required) && Told(d.elements[0], d.elements[2]) && Told(d.elements[1], d.elements[2]))
    && d.width != UnknownWidth
    && 1 <= |Slots(d.layouts[0])| && FitsWidth(d, d.layouts[0])
    && (|d.layouts| == 2 ==>
          1 <= |Slots(d.layouts[1])| && (FitsWidth(d, d.layouts[1]) || |Slots(d.layouts[1])| <= |Slots(d.layouts[0])|))
    && |d.elements| <= |Slots(d.layouts[|d.layouts| - 1])|
  }

  lemma {:induction false} FewElementsOk(d: Definition)
    requires FewElements(d)
    ensures DefinitionOk(d)
  {
    hide DefinedOk;
    hide FitsWidth;
    hide Slots;
  }

  lemma {:induction false} CharacterCoreIsFew()
    ensures FewElements(CharacterCoreTable())
  {
    hide Entry;
  }

  lemma {:induction false} MessagesIsFew()
    ensures FewElements(MessagesTable())
  {
    hide Entry;
  }

  lemma {:induction false} ImagePromptsIsFew()
    ensures FewElements(ImagePromptsTable())
  {
    hide Entry;
  }

  lemma {:induction false} ModelInstructionsIsFew()
    ensures FewElements(ModelInstructionsTable())
  {
    hide Entry;
  }

  lemma {:induction false} PresetSettingsIsFew()
    ensures FewElements(PresetSettingsTable())
  {
    hide Entry;
  }

  lemma {:induction false} ThemeCoreIsFew()
    ensures FewElements(ThemeCoreTable())
  {
    hide Entry;
  }

  lemma {:induction false} CustomBlockLayoutsOk()
    ensures LayoutsOk(CustomBlockTable())
  {
  }

  lemma {:induction false} CustomBlockOk()
    ensures DefinitionOk(CustomBlockTable())
  {
    CustomBlockLayoutsOk();
    hide LayoutsOk;
  }

  lemma {:induction false} CustomBlockEntry()
    ensures Entry(CustomBlock) == CustomBlockTable()
  {
  }

  predicate HasSeveral(id: DefinitionID) {
    id in {CharacterCore, Messages, ImagePrompts, ModelInstructions, PresetSettings, ThemeCore, CustomBlock}
  }

  lemma {:induction false} CoresHaveOne(id: DefinitionID)
    requires !HasSeveral(id) && RankOf(id) == 0
    ensures Entry(id).elements != [] && OneElement(Entry(id), Entry(id).elements[0])
  {
    hide CharacterCoreTable; hide MessagesTable; hide ImagePromptsTable; hide ModelInstructionsTable;
    hide PresetSettingsTable; hide ThemeCoreTable; hide CustomBlockTable;
  }

  lemma {:induction false} EarlyHaveOne(id: DefinitionID)
    requires !HasSeveral(id) && 1 <= RankOf(id) < 3
    ensures Entry(id).elements != [] && OneElement(Entry(id), Entry(id).elements[0])
  {
    hide CharacterCoreTable; hide MessagesTable; hide ImagePromptsTable; hide ModelInstructionsTable;
    hide PresetSettingsTable; hide ThemeCoreTable; hide CustomBlockTable;
  }

  lemma {:induction false} LaterHaveOne(id: DefinitionID)
    requires !HasSeveral(id) && 3 <= RankOf(id) < 7
    ensures Entry(id).elements != [] && OneElement(Entry(id), Entry(id).elements[0])
  {
    hide CharacterCoreTable; hide MessagesTable; hide ImagePromptsTable; hide ModelInstructionsTable;
    hide PresetSettingsTable; hide ThemeCoreTable; hide CustomBlockTable;
  }

  lemma {:induction false} SharedHaveOne(id: DefinitionID)
    requires !HasSeveral(id) && 7 <= RankOf(id)
    ensures Entry(id).elements != [] && OneElement(Entry(id), Entry(id).elements[0])
  {
  }

  lemma {:induction false} EntryNamed(id: DefinitionID)
    ensures Entry(id).id == id
  {
  }

  lemma {:induction false} FewTable(id: DefinitionID)
    requires HasSeveral(id) && id != CustomBlock
    ensures FewElements(Entry(id))
  {
    hide FewElements;
    hide CharacterCoreTable;
    hide MessagesTable;
    hide ImagePromptsTable;
    hide ModelInstructionsTable;
    hide PresetSettingsTable;
    hide ThemeCoreTable;
    hide CustomBlockTable;
    match id
    case CharacterCore => CharacterCoreIsFew();
    case Messages => MessagesIsFew();
    case ImagePrompts => ImagePromptsIsFew();
    case ModelInstructions => ModelInstructionsIsFew();
    case PresetSettings => PresetSettingsIsFew();
    case ThemeCore => ThemeCoreIsFew();
  }

  lemma {:induction false} EntryOk(id: DefinitionID)
    ensures DefinitionOk(Entry(id))
  {
    hide DefinitionOk;
    hide Entry;
    hide FewElements;
    hide OneElement;
    if id == CustomBlock {
      CustomBlockOk();
      CustomBlockEntry();
    } else if HasSeveral(id) {
      FewTable(id);
      FewElementsOk(Entry(id));
    } else {
      if RankOf(id) == 0 { CoresHaveOne(id); }
      else if RankOf(id) < 3 { EarlyHaveOne(id); }
      else if RankOf(id) < 7 { LaterHaveOne(id); }
      else { SharedHaveOne(id); }
      OneElementOk(Entry(id), Entry(id).elements[0]);
    }
  }

  lemma {:induction false} OrdersClimb(kind: Kind)
    requires OwnOrder(kind).Some?
    ensures var ids := OwnOrder(kind).value + SharedOrder();
      forall i | 0 < i < |ids| :: RankOf(ids[i - 1]) < RankOf(ids[i])
  {
    hide Entry;
  }

  lemma {:induction false} FirstIsRequired(kind: Kind)
    requires OwnOrder(kind).Some?
    ensures OwnOrder(kind).value != [] && Entry(OwnOrder(kind).value[0]).required
  {
  }

  lemma {:induction false} RanksClimb(ids: seq<DefinitionID>)
    requires forall i | 0 < i < |ids| :: RankOf(ids[i - 1]) < RankOf(ids[i])
    ensures forall i, j | 0 <= i < j < |ids| :: ids[i] != ids[j]
  {
    if ids != [] {
      var n := |ids| - 1;
      RanksClimb(ids[..n]);
      var i := n;
      while 0 < i
        invariant 0 <= i <= n
        invariant forall k | i <= k < n :: RankOf(ids[k]) < RankOf(ids[n])
        invariant i < n ==> RankOf(ids[i]) < RankOf(ids[n])
      {
        i := i - 1;
      }
    }
  }

  function HomeIn(kind: Kind, role: Role): DefinitionID {
    if kind == LorebookKind && role == LorebookEntries then LorebookCore else HomeOf(role)
  }

  lemma {:induction false} SeveralHomed(id: DefinitionID, k: nat)
    requires HasSeveral(id) && RankOf(id) < 7
    requires k < |Entry(id).elements| && Singular(Entry(id).elements[k].role)
    ensures id == HomeOf(Entry(id).elements[k].role)
  {
  }

  lemma {:induction false} OneHomed(id: DefinitionID, k: nat)
    requires !HasSeveral(id) && RankOf(id) < 7 && id != LorebookCore
    requires k < |Entry(id).elements| && Singular(Entry(id).elements[k].role)
    ensures id == HomeOf(Entry(id).elements[k].role)
  {
  }

  lemma {:induction false} SharedHomed(id: DefinitionID, k: nat)
    requires RankOf(id) >= 7 || id == LorebookCore
    requires k < |Entry(id).elements| && Singular(Entry(id).elements[k].role)
    ensures if id == LorebookCore then Entry(id).elements[k].role == LorebookEntries
            else Entry(id).elements[k].role == CreatorNotes && id == AuthorNotes
  {
  }

  lemma {:induction false} EntryHomed(kind: Kind, id: DefinitionID, k: nat)
    requires OwnOrder(kind).Some? && id in OwnOrder(kind).value + SharedOrder()
    requires k < |Entry(id).elements| && Singular(Entry(id).elements[k].role)
    ensures id == HomeIn(kind, Entry(id).elements[k].role)
  {
    hide Entry;
    if RankOf(id) >= 7 || id == LorebookCore { SharedHomed(id, k); }
    else if HasSeveral(id) { SeveralHomed(id, k); }
    else { OneHomed(id, k); }
    LorebookHome(kind, id);
    hide OwnOrder;
    hide SharedOrder;
  }

  /** Only the lorebook kind keeps its entries in the lorebook core. */
  lemma {:induction false} LorebookHome(kind: Kind, id: DefinitionID)
    requires OwnOrder(kind).Some? && id in OwnOrder(kind).value + SharedOrder()
    ensures id == LorebookCore ==> kind == LorebookKind
    ensures kind == LorebookKind ==> id == LorebookCore || RankOf(id) >= 7
  {
  }

  /** Every kind's table keeps the promises the page rules lean on. */
  lemma {:induction false} CatalogsAreOk(kind: Kind)
    requires CatalogOf(kind).Some?
    ensures CatalogOk(CatalogOf(kind).value)
  {
    hide Entry;
    hide HomeOf;
    hide HomeIn;
    hide DefinitionOk;
    var ids := OwnOrder(kind).value + SharedOrder();
    var defs := CatalogOf(kind).value;
    forall i | 0 <= i < |defs| ensures DefinitionOk(defs[i]) && defs[i].id == ids[i] {
      EntryOk(ids[i]);
      EntryNamed(ids[i]);
    }
    OrdersClimb(kind);
    RanksClimb(ids);
    FirstIsRequired(kind);
    var home: Role -> DefinitionID := (role: Role) => HomeIn(kind, role);
    forall i, k | 0 <= i < |defs| && 0 <= k < |defs[i].elements| && Singular(defs[i].elements[k].role)
      ensures defs[i].id == home(defs[i].elements[k].role)
    {
      EntryHomed(kind, ids[i], k);
    }
    assert HomedBy(defs, home);
    assert defs[0].required;
  }
}
