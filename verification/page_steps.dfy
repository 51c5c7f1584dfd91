/** The five editor steps as functions of the page they change. */
module PageSteps {
  import opened Sequences
  import opened Blocks
  import opened Catalog
  import opened PageRules

  datatype Outcome<+T> = Done(value: T) | NotFound | Invalid

  datatype Update = Update(
    title: Option<string>, layout: Layout, width: Width, elements: seq<Element>)

  datatype Choice = Choice(id: Id, hidden: bool, width: Width)

  /** The first block with this id. */
  function IndexOf(page: seq<Block>, id: Id): (found: Option<nat>)
    ensures found.Some? ==> found.value < |page| && page[found.value].id == id
    ensures found.None? ==> forall i | 0 <= i < |page| :: page[i].id != id
  {
    if page == [] then None
    else if page[0].id == id then Some(0)
    else
      match IndexOf(page[1..], id)
      case None => None
      case Some(i) => Some(i + 1)
  }

  function Renumber(page: seq<Block>): (numbered: seq<Block>)
    ensures |numbered| == |page|
    ensures forall i | 0 <= i < |page| :: numbered[i] == page[i].(position := i)
  {
    seq(|page|, i requires 0 <= i < |page| => page[i].(position := i))
  }

  function Without(page: seq<Block>, k: nat): seq<Block>
    requires k < |page|
  {
    page[..k] + page[k + 1..]
  }

  // ---- save ---------------------------------------------------------------

  function Saved(holder: Block, update: Update): Block {
    holder.(title := update.title, layout := update.layout, width := update.width,
            elements := update.elements)
  }

  ghost function SavePage(defs: seq<Definition>, page: seq<Block>, id: Id, update: Update)
    : Outcome<seq<Block>>
  {
    match IndexOf(page, id)
    case None => NotFound
    case Some(i) =>
      var after := page[i := Saved(page[i], update)];
      if StructureOk(after[i]) && BuilderOk(defs, page, after) then Done(after) else Invalid
  }

  // ---- add ----------------------------------------------------------------

  datatype Start = Start(typ: Type, elements: seq<DefinedElement>)

  /** The ways a creator may begin a block. */
  function Starts(d: Definition): seq<Start> {
    if 0 < |d.choices| then Map((choice: DefinedElement) => Start(choice.typ, [choice]), d.choices)
    else if |d.elements| == 0 then []
    else [Start(d.elements[0].typ, d.elements)]
  }

  function StartFor(starts: seq<Start>, typ: Type): (found: Option<Start>)
    ensures found.Some? ==> found.value in starts && found.value.typ == typ
    ensures found.None? ==> forall s | s in starts :: s.typ != typ
  {
    if starts == [] then None
    else if starts[0].typ == typ then Some(starts[0])
    else StartFor(starts[1..], typ)
  }

  function EmptyContent(): Content { Content(true, [], 2, "{}", [], [], 0) }

  function EmptyElement(defined: DefinedElement, id: Id, slot: Slot): Element {
    Element(id, defined.typ, defined.role, slot, defined.options, EmptyContent())
  }

  /** The elements a new block starts with, one to each slot. */
  function StartElements(defined: seq<DefinedElement>, layout: Layout, mint: nat -> Id)
    : (elements: seq<Element>)
    requires |defined| <= |Slots(layout)|
    ensures |elements| == |defined|
    ensures forall i | 0 <= i < |defined| ::
      elements[i] == EmptyElement(defined[i], mint(i), Slots(layout)[i])
  {
    seq(|defined|, i requires 0 <= i < |defined| => EmptyElement(defined[i], mint(i), Slots(layout)[i]))
  }

  /** The block a creator asked the add tray for, at the foot of the page. */
  function NewBlock(defs: seq<Definition>, id: DefinitionID, typ: Type, page: seq<Block>,
                    mint: nat -> Id): Outcome<Block>
  {
    match Find(defs, id)
    case None => Invalid
    case Some(d) =>
      if d.required || (!d.repeatable && exists i :: 0 <= i < |page| && page[i].definition == id) then Invalid
      else
        match StartFor(Starts(d), typ)
        case None => Invalid
        case Some(chosen) =>
          match LayoutFor(d.layouts, |chosen.elements|)
          case None => Invalid
          case Some(layout) =>
            var elements := StartElements(chosen.elements, layout, mint);
            Done(Block(mint(|elements|), id, None, |page|, false, layout, d.width, elements))
  }

  ghost function AddPage(defs: seq<Definition>, page: seq<Block>, id: DefinitionID, typ: Type,
                         mint: nat -> Id): Outcome<seq<Block>>
  {
    match NewBlock(defs, id, typ, page, mint)
    case Done(added) =>
      var after := page + [added];
      if StructureOk(added) && BuilderOk(defs, after, after) then Done(after) else Invalid
    case _ => Invalid
  }

  // ---- arrange ------------------------------------------------------------

  predicate MayHide(defs: seq<Definition>, holder: Block) {
    match Find(defs, holder.definition)
    case None => true
    case Some(d) => !d.required || d.hideable
  }

  predicate ChoiceOk(defs: seq<Definition>, page: seq<Block>, choice: Choice) {
    var at := IndexOf(page, choice.id);
    at.Some? && (choice.hidden ==> MayHide(defs, page[at.value]))
  }

  function Arranged(page: seq<Block>, choice: Choice, position: nat): Block
    requires IndexOf(page, choice.id).Some?
  {
    page[IndexOf(page, choice.id).value].(position := position, hidden := choice.hidden, width := choice.width)
  }

  function ChoiceIds(choices: seq<Choice>): seq<Id> {
    Map((choice: Choice) => choice.id, choices)
  }

  ghost predicate ChoicesOk(defs: seq<Definition>, page: seq<Block>, choices: seq<Choice>) {
    && |choices| == |page|
    && (forall i | 0 <= i < |choices| :: ChoiceOk(defs, page, choices[i]))
    && Distinct(ChoiceIds(choices))
  }

  function ArrangedPage(page: seq<Block>, choices: seq<Choice>): (after: seq<Block>)
    requires forall i | 0 <= i < |choices| :: IndexOf(page, choices[i].id).Some?
    ensures |after| == |choices|
    ensures forall i | 0 <= i < |choices| :: after[i] == Arranged(page, choices[i], i)
  {
    seq(|choices|, i requires 0 <= i < |choices| => Arranged(page, choices[i], i))
  }

  ghost function ArrangePage(defs: seq<Definition>, page: seq<Block>, choices: seq<Choice>)
    : Outcome<seq<Block>>
  {
    if !ChoicesOk(defs, page, choices) then Invalid
    else
      var after := ArrangedPage(page, choices);
      if BuilderOk(defs, page, after) then Done(after) else Invalid
  }

  // ---- remove -------------------------------------------------------------

  predicate IsRequired(defs: seq<Definition>, holder: Block) {
    var d := Find(defs, holder.definition);
    d.Some? && d.value.required
  }

  ghost function RemovePage(defs: seq<Definition>, page: seq<Block>, id: Id): Outcome<seq<Block>> {
    match IndexOf(page, id)
    case None => NotFound
    case Some(k) =>
      if IsRequired(defs, page[k]) || !BuilderOk(defs, page, Without(page, k)) then Invalid
      else Done(Renumber(Without(page, k)))
  }

  // ---- move ---------------------------------------------------------------

  function Occupied(elements: seq<Element>): set<Slot> {
    set i | 0 <= i < |elements| :: elements[i].slot
  }

  function Vacant(slots: seq<Slot>, occupied: set<Slot>): (free: seq<Slot>)
    ensures forall s | s in free :: s in slots && s !in occupied
    ensures forall s | s in slots && s !in occupied :: s in free
    ensures |free| <= |slots|
  {
    if slots == [] then []
    else if slots[0] in occupied then Vacant(slots[1..], occupied)
    else [slots[0]] + Vacant(slots[1..], occupied)
  }

  function FreeSlots(holder: Block): seq<Slot> {
    Vacant(Slots(holder.layout), Occupied(holder.elements))
  }

  function Reslotted(elements: seq<Element>, free: seq<Slot>): (moved: seq<Element>)
    requires |elements| <= |free|
    ensures |moved| == |elements|
    ensures forall i | 0 <= i < |elements| :: moved[i] == elements[i].(slot := free[i])
  {
    seq(|elements|, i requires 0 <= i < |elements| => elements[i].(slot := free[i]))
  }

  /** The checks MoveBlockContent makes before it touches anything. */
  ghost predicate MayMove(defs: seq<Definition>, source: Block, destination: Block) {
    && !IsRequired(defs, source)
    && (forall e | e in source.elements :: !Pinned(defs, source, e.role))
    && source.elements != []
    && |source.elements| <= |FreeSlots(destination)|
  }

  function Filled(source: Block, destination: Block): Block
    requires |source.elements| <= |FreeSlots(destination)|
  {
    destination.(elements := destination.elements + Reslotted(source.elements, FreeSlots(destination)))
  }

  ghost function MovePage(defs: seq<Definition>, page: seq<Block>, sourceId: Id, destinationId: Id)
    : Outcome<seq<Block>>
  {
    var s := IndexOf(page, sourceId);
    var d := IndexOf(page, destinationId);
    if s.None? || d.None? || sourceId == destinationId then NotFound
    else if !MayMove(defs, page[s.value], page[d.value]) then Invalid
    else
      var before := page[d.value := Filled(page[s.value], page[d.value])];
      var after := Renumber(Without(before, s.value));
      if StructureOk(before[d.value]) && BuilderOk(defs, before, after) then Done(after) else Invalid
  }

  // ---- any step -----------------------------------------------------------

  datatype Edit =
    | Save(id: Id, update: Update)
    | Add(definition: DefinitionID, typ: Type, mint: nat -> Id)
    | Arrange(choices: seq<Choice>)
    | Remove(id: Id)
    | Move(sourceId: Id, destinationId: Id)

  ghost function EditPage(defs: seq<Definition>, page: seq<Block>, edit: Edit): Outcome<seq<Block>> {
    match edit
    case Save(id, update) => SavePage(defs, page, id, update)
    case Add(definition, typ, mint) => AddPage(defs, page, definition, typ, mint)
    case Arrange(choices) => ArrangePage(defs, page, choices)
    case Remove(id) => RemovePage(defs, page, id)
    case Move(sourceId, destinationId) => MovePage(defs, page, sourceId, destinationId)
  }

  /** Newly minted identifiers are distinct, not nil, and not in use. */
  ghost predicate Fresh(mint: nat -> Id, used: set<Id>) {
    && (forall i: nat :: mint(i) != NIL && mint(i) !in used)
    && (forall i: nat, j: nat | i != j :: mint(i) != mint(j))
  }

  ghost function Used(page: seq<Block>): set<Id> {
    IdSet(page) + set x | x in BlockIds(page)
  }

  ghost predicate EditFresh(page: seq<Block>, edit: Edit) {
    edit.Add? ==> Fresh(edit.mint, Used(page))
  }

  /** The page after an edit; a refused edit changes nothing. */
  ghost function After(defs: seq<Definition>, page: seq<Block>, edit: Edit): seq<Block> {
    match EditPage(defs, page, edit)
    case Done(after) => after
    case _ => page
  }
}
