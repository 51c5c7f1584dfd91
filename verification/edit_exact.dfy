/** What an accepted edit leaves on the page, block by block and field by field, and
    exactly when a save is accepted. */
module EditExact {
  import opened Sequences
  import opened Blocks
  import opened Catalog
  import opened PageRules
  import opened PageSteps
  import opened PageInvariant
  import opened PageExact

  // ---- what each edit stores ----------------------------------------------

  /** The one block of the page with this id. */
  ghost predicate OnlyAt(page: seq<Block>, i: int, id: Id) {
    && 0 <= i < |page| && page[i].id == id
    && forall j | 0 <= j < |page| && j != i :: page[j].id != id
  }

  /** The same block, perhaps at another position. */
  predicate SameButPosition(b: Block, was: Block) {
    && b.id == was.id && b.definition == was.definition && b.title == was.title && b.hidden == was.hidden
    && b.layout == was.layout && b.width == was.width && b.elements == was.elements
  }

  /** Where block j of the page stood before block k went. */
  function Before(j: int, k: int): int { if j < k then j else j + 1 }

  ghost predicate StoresSave(page: seq<Block>, after: seq<Block>, id: Id, update: Update) {
    exists i :: OnlyAt(page, i, id) && SavedAt(page, after, i, update)
  }

  /** The saved block has what the update brought and is otherwise as it was; so is
      every other block. */
  ghost predicate SavedAt(page: seq<Block>, after: seq<Block>, i: int, update: Update)
    requires 0 <= i < |page|
  {
    && |after| == |page|
    && after[i].title == update.title && after[i].layout == update.layout && after[i].width == update.width
    && after[i].elements == update.elements
    && after[i].id == page[i].id && after[i].definition == page[i].definition
    && after[i].position == page[i].position && after[i].hidden == page[i].hidden
    && forall j | 0 <= j < |page| && j != i :: after[j] == page[j]
  }

  ghost predicate StoresRemove(page: seq<Block>, after: seq<Block>, id: Id) {
    exists k :: OnlyAt(page, k, id) && RemovedAt(page, after, k)
  }

  ghost predicate RemovedAt(page: seq<Block>, after: seq<Block>, k: int)
    requires 0 <= k < |page|
  {
    && |after| + 1 == |page|
    && forall j | 0 <= j < |after| :: after[j].position == j && SameButPosition(after[j], page[Before(j, k)])
  }

  /** The first slot of the layout nothing has taken. */
  ghost predicate NextFree(layout: Layout, taken: seq<Element>, slot: Slot) {
    exists m :: 0 <= m < |Slots(layout)| && FreeAt(layout, taken, m) && Slots(layout)[m] == slot
  }

  ghost predicate FreeAt(layout: Layout, taken: seq<Element>, m: int)
    requires 0 <= m < |Slots(layout)|
  {
    Slots(layout)[m] !in SlotsTaken(taken) && forall n | 0 <= n < m :: Slots(layout)[n] in SlotsTaken(taken)
  }

  function SlotsTaken(elements: seq<Element>): set<Slot> { set e | e in elements :: e.slot }

  /** The elements of a block after those of another were moved in: all of its own,
      then the others in order, each as it was but in the next free slot. */
  ghost predicate MovedInto(source: Block, destination: Block, elements: seq<Element>) {
    var n := |destination.elements|;
    && |elements| == n + |source.elements|
    && elements[..n] == destination.elements
    && forall k | 0 <= k < |source.elements| ::
         && elements[n + k] == source.elements[k].(slot := elements[n + k].slot)
         && NextFree(destination.layout, elements[..n + k], elements[n + k].slot)
  }

  ghost predicate StoresMove(page: seq<Block>, after: seq<Block>, sourceId: Id, destinationId: Id) {
    exists s, d :: OnlyAt(page, s, sourceId) && OnlyAt(page, d, destinationId) && s != d && MovedAt(page, after, s, d)
  }

  ghost predicate MovedAt(page: seq<Block>, after: seq<Block>, s: int, d: int)
    requires 0 <= s < |page| && 0 <= d < |page|
  {
    && |after| + 1 == |page|
    && forall j | 0 <= j < |after| ::
         && after[j].position == j
         && (if Before(j, s) == d
             then MovedInto(page[s], page[d], after[j].elements)
                  && SameButPosition(after[j], page[d].(elements := after[j].elements))
             else SameButPosition(after[j], page[Before(j, s)]))
  }

  /** What a creator gets to start with: the first choice of the type asked for, or
      all the block has to offer. */
  ghost predicate StartsWith(d: Definition, typ: Type, start: seq<DefinedElement>) {
    if d.choices != []
    then exists k :: 0 <= k < |d.choices| && start == [d.choices[k]] && d.choices[k].typ == typ
                     && forall j | 0 <= j < k :: d.choices[j].typ != typ
    else d.elements != [] && start == d.elements && d.elements[0].typ == typ
  }

  /** The first layout with room for so many elements. */
  ghost predicate FirstRoom(layouts: seq<Layout>, count: nat, layout: Layout) {
    exists k :: 0 <= k < |layouts| && layouts[k] == layout && count <= |Slots(layout)|
                && forall j | 0 <= j < k :: |Slots(layouts[j])| < count
  }

  ghost predicate StoresAdd(defs: seq<Definition>, page: seq<Block>, after: seq<Block>, id: DefinitionID, typ: Type,
                            mint: nat -> Id)
  {
    && |after| == |page| + 1 && after[..|page|] == page
    && exists k, start :: 0 <= k < |defs| && defs[k].id == id && StartsWith(defs[k], typ, start)
                          && AddedAs(defs[k], start, mint, |page|, after[|page|])
  }

  /** A new block, shown, untitled and as wide as its definition says, with an empty
      element for each it starts with. */
  ghost predicate AddedAs(d: Definition, start: seq<DefinedElement>, mint: nat -> Id, position: nat, b: Block) {
    && b.definition == d.id && b.title == None && !b.hidden && b.position == position && b.width == d.width
    && FirstRoom(d.layouts, |start|, b.layout)
    && b.id == mint(|start|) && |b.elements| == |start| <= |Slots(b.layout)|
    && forall k | 0 <= k < |start| ::
         && b.elements[k].id == mint(k) && b.elements[k].slot == Slots(b.layout)[k]
         && b.elements[k].role == start[k].role && b.elements[k].typ == start[k].typ
         && b.elements[k].options == start[k].options && b.elements[k].content.empty
         && b.elements[k].content.items == [] && b.elements[k].content.pictures == []
  }

  ghost predicate StoresArrange(page: seq<Block>, after: seq<Block>, choices: seq<Choice>) {
    && |after| == |choices| == |page|
    && forall i | 0 <= i < |choices| :: after[i].position == i && ChosenFrom(page, choices[i], after[i])
  }

  /** The named block with the width and visibility chosen for it. */
  ghost predicate ChosenFrom(page: seq<Block>, choice: Choice, b: Block) {
    exists j :: OnlyAt(page, j, choice.id) && SameButPosition(b, page[j].(hidden := choice.hidden, width := choice.width))
  }

  ghost predicate Stores(defs: seq<Definition>, page: seq<Block>, after: seq<Block>, edit: Edit) {
    match edit
    case Save(id, update) => StoresSave(page, after, id, update)
    case Add(definition, typ, mint) => StoresAdd(defs, page, after, definition, typ, mint)
    case Arrange(choices) => StoresArrange(page, after, choices)
    case Remove(id) => StoresRemove(page, after, id)
    case Move(sourceId, destinationId) => StoresMove(page, after, sourceId, destinationId)
  }

  // ---- they do ------------------------------------------------------------

  lemma {:induction false} OnlyOne(page: seq<Block>, id: Id)
    requires Distinct(BlockIds(page)) && IndexOf(page, id).Some?
    ensures OnlyAt(page, IndexOf(page, id).value, id)
  {
    var i := IndexOf(page, id).value;
    forall j | 0 <= j < |page| && j != i ensures page[j].id != id {
      assert BlockIds(page)[i] == id && BlockIds(page)[j] == page[j].id;
    }
  }

  lemma {:induction false} SaveStores(defs: seq<Definition>, page: seq<Block>, id: Id, update: Update)
    requires Distinct(BlockIds(page)) && SavePage(defs, page, id, update).Done?
    ensures StoresSave(page, SavePage(defs, page, id, update).value, id, update)
  {
    hide StructureOk;
    hide BuilderOk;
    OnlyOne(page, id);
    assert SavedAt(page, SavePage(defs, page, id, update).value, IndexOf(page, id).value, update);
  }

  lemma {:induction false} RemoveStores(defs: seq<Definition>, page: seq<Block>, id: Id)
    requires Distinct(BlockIds(page)) && RemovePage(defs, page, id).Done?
    ensures StoresRemove(page, RemovePage(defs, page, id).value, id)
  {
    hide BuilderOk;
    OnlyOne(page, id);
    WithoutAt'(page, IndexOf(page, id).value);
    assert RemovedAt(page, RemovePage(defs, page, id).value, IndexOf(page, id).value);
  }

  lemma {:induction false} ArrangeStores(defs: seq<Definition>, page: seq<Block>, choices: seq<Choice>)
    requires Distinct(BlockIds(page)) && ArrangePage(defs, page, choices).Done?
    ensures StoresArrange(page, ArrangePage(defs, page, choices).value, choices)
  {
    hide BuilderOk;
    hide ChosenFrom;
    hide Distinct;
    var after := ArrangePage(defs, page, choices).value;
    forall i | 0 <= i < |choices| ensures after[i].position == i && ChosenFrom(page, choices[i], after[i]) {
      ArrangedIsChosen(page, choices[i], i);
    }
  }

  lemma {:induction false} ArrangedIsChosen(page: seq<Block>, choice: Choice, position: nat)
    requires Distinct(BlockIds(page)) && IndexOf(page, choice.id).Some?
    ensures ChosenFrom(page, choice, Arranged(page, choice, position))
  {
    OnlyOne(page, choice.id);
    var j := IndexOf(page, choice.id).value;
    hide IndexOf;
    hide BlockIds;
    assert OnlyAt(page, j, choice.id)
      && SameButPosition(Arranged(page, choice, position), page[j].(hidden := choice.hidden, width := choice.width));
  }

  /** The slots a move fills are the free ones in order. */
  lemma {:induction false} VacantIsNext(slots: seq<Slot>, m: nat, occupied: set<Slot>, k: nat)
    requires m <= |slots| && k < |Vacant(slots[m..], occupied)|
    ensures exists p :: m <= p < |slots| && slots[p] == Vacant(slots[m..], occupied)[k]
                        && forall n | m <= n < p :: slots[n] in occupied || slots[n] in Vacant(slots[m..], occupied)[..k]
    decreases |slots| - m
  {
    if m < |slots| {
      assert slots[m..][1..] == slots[m + 1..] && slots[m..][0] == slots[m];
      var rest := Vacant(slots[m + 1..], occupied);
      if slots[m] in occupied {
        VacantIsNext(slots, m + 1, occupied, k);
      } else {
        assert Vacant(slots[m..], occupied) == [slots[m]] + rest;
        if k > 0 {
          VacantIsNext(slots, m + 1, occupied, k - 1);
          assert ([slots[m]] + rest)[..k] == [slots[m]] + rest[..k - 1];
          var p :| m + 1 <= p < |slots| && slots[p] == rest[k - 1]
                   && forall n | m + 1 <= n < p :: slots[n] in occupied || slots[n] in rest[..k - 1];
          forall n | m <= n < p ensures slots[n] in occupied || slots[n] in Vacant(slots[m..], occupied)[..k] {}
        }
      }
    }
  }

  lemma {:induction false} FilledIs(source: Block, destination: Block)
    requires |source.elements| <= |FreeSlots(destination)|
    ensures MovedInto(source, destination, Filled(source, destination).elements)
    ensures SameButPosition(Filled(source, destination), destination.(elements := Filled(source, destination).elements))
  {
    hide NextFree;
    hide FreeSlots;
    hide Slots;
    var elements, free, n := Filled(source, destination).elements, FreeSlots(destination), |destination.elements|;
    assert elements == destination.elements + Reslotted(source.elements, free);
    forall k | 0 <= k < |source.elements|
      ensures elements[n + k] == source.elements[k].(slot := free[k])
      ensures NextFree(destination.layout, elements[..n + k], free[k])
    {
      SlotIsNext(source, destination, k);
    }
  }

  lemma {:induction false} NextSlot(destination: Block, k: nat) returns (p: nat)
    requires k < |FreeSlots(destination)|
    ensures var slots, free := Slots(destination.layout), FreeSlots(destination);
      && p < |slots| && slots[p] == free[k]
      && (forall m | 0 <= m < p :: slots[m] in Occupied(destination.elements) || slots[m] in free[..k])
      && free[k] !in Occupied(destination.elements) && free[k] !in free[..k]
  {
    var slots, occupied := Slots(destination.layout), Occupied(destination.elements);
    LayoutSlotsDistinct(destination.layout);
    hide Slots;
    VacantDistinct(slots, occupied);
    assert slots[0..] == slots;
    VacantIsNext(slots, 0, occupied, k);
    var free := Vacant(slots, occupied);
    p :| 0 <= p < |slots| && slots[p] == free[k] && forall m | 0 <= m < p :: slots[m] in occupied || slots[m] in free[..k];
    assert free[k] in free;
    assert forall i | 0 <= i < k :: free[i] != free[k];
    hide Vacant;
    hide Occupied;
  }

  lemma {:induction false} SlotIsNext(source: Block, destination: Block, k: nat)
    requires |source.elements| <= |FreeSlots(destination)| && k < |source.elements|
    ensures NextFree(destination.layout, Filled(source, destination).elements[..|destination.elements| + k], FreeSlots(destination)[k])
  {
    hide FreeSlots;
    hide Slots;
    var free, own := FreeSlots(destination), destination.elements;
    var p := NextSlot(destination, k);
    var moved := Reslotted(source.elements, free)[..k];
    var taken := Filled(source, destination).elements[..|own| + k];
    assert taken == own + moved;
    hide Filled;
    TakenSlots(own, moved, free[..k]);
    hide Reslotted;
    hide Occupied;
    assert FreeAt(destination.layout, taken, p);
  }

  /** The slots of some elements and of others put into slots given in order. */
  lemma {:induction false} TakenSlots(own: seq<Element>, moved: seq<Element>, free: seq<Slot>)
    requires |moved| == |free| && forall i | 0 <= i < |free| :: moved[i].slot == free[i]
    ensures forall slot :: slot in SlotsTaken(own + moved) <==> slot in Occupied(own) || slot in free
  {
    forall slot ensures slot in SlotsTaken(own + moved) <==> slot in Occupied(own) || slot in free {
      if slot in SlotsTaken(own + moved) {
        var e :| e in own + moved && e.slot == slot;
        if e in own {
          var i :| 0 <= i < |own| && own[i] == e;
          assert own[i].slot in Occupied(own);
        } else {
          var i :| 0 <= i < |moved| && moved[i] == e;
          assert free[i] in free;
        }
      }
      if slot in Occupied(own) {
        var i :| 0 <= i < |own| && own[i].slot == slot;
        assert own[i] in own + moved;
      }
      if slot in free {
        var i :| 0 <= i < |free| && free[i] == slot;
        assert moved[i] in own + moved;
      }
    }
  }

  lemma {:induction false} MoveStores(defs: seq<Definition>, page: seq<Block>, sourceId: Id, destinationId: Id)
    requires Distinct(BlockIds(page)) && MovePage(defs, page, sourceId, destinationId).Done?
    ensures StoresMove(page, MovePage(defs, page, sourceId, destinationId).value, sourceId, destinationId)
  {
    MovedPage(defs, page, sourceId, destinationId);
    hide MovePage;
    hide StructureOk;
    hide BlocksFit;
    hide ElementsFit;
    hide Filled;
    hide FreeSlots;
    hide IsRequired;
    hide OnlyAt;
    hide MovedInto;
    hide Distinct;
    OnlyOne(page, sourceId);
    OnlyOne(page, destinationId);
    var s, d := IndexOf(page, sourceId).value, IndexOf(page, destinationId).value;
    hide IndexOf;
    MovedIsAt(page, s, d);
  }

  lemma {:induction false} MovedIsAt(page: seq<Block>, s: nat, d: nat)
    requires s < |page| && d < |page| && s != d && |page[s].elements| <= |FreeSlots(page[d])|
    ensures MovedAt(page, Renumber(Without(page[d := Filled(page[s], page[d])], s)), s, d)
  {
    var before := page[d := Filled(page[s], page[d])];
    FilledIs(page[s], page[d]);
    hide Filled;
    hide FreeSlots;
    hide MovedInto;
    WithoutAt'(before, s);
    hide Without;
    var after := Renumber(Without(before, s));
    forall j | 0 <= j < |after| ensures after[j] == before[Before(j, s)].(position := j) {}
  }

  lemma {:induction false} FirstStart(d: Definition, typ: Type)
    requires StartFor(Starts(d), typ).Some?
    ensures StartsWith(d, typ, StartFor(Starts(d), typ).value.elements)
  {
    var chosen := StartFor(Starts(d), typ).value;
    if d.choices != [] {
      var starts := Starts(d);
      FirstOfType(starts, typ);
      var k :| 0 <= k < |starts| && starts[k] == chosen && forall j | 0 <= j < k :: starts[j].typ != typ;
      forall j | 0 <= j < |d.choices| ensures starts[j] == Start(d.choices[j].typ, [d.choices[j]]) {}
    }
  }

  lemma {:induction false} FirstOfType(starts: seq<Start>, typ: Type)
    requires StartFor(starts, typ).Some?
    ensures exists k :: 0 <= k < |starts| && starts[k] == StartFor(starts, typ).value && starts[k].typ == typ
                        && forall j | 0 <= j < k :: starts[j].typ != typ
  {
    if starts[0].typ != typ {
      FirstOfType(starts[1..], typ);
      var k :| 0 <= k < |starts[1..]| && starts[1..][k] == StartFor(starts[1..], typ).value && starts[1..][k].typ == typ
               && forall j | 0 <= j < k :: starts[1..][j].typ != typ;
      assert starts[k + 1] == starts[1..][k];
      forall j | 0 <= j < k + 1 ensures starts[j].typ != typ {
        if j > 0 { assert starts[j] == starts[1..][j - 1]; }
      }
    }
  }

  lemma {:induction false} RoomIsFirst(layouts: seq<Layout>, count: nat)
    requires LayoutFor(layouts, count).Some?
    ensures FirstRoom(layouts, count, LayoutFor(layouts, count).value)
  {
    hide Slots;
    if |Slots(layouts[0])| < count {
      var rest := layouts[1..];
      RoomIsFirst(rest, count);
      var k :| 0 <= k < |rest| && rest[k] == LayoutFor(rest, count).value && count <= |Slots(rest[k])|
               && forall j | 0 <= j < k :: |Slots(rest[j])| < count;
      assert layouts[k + 1] == rest[k];
      forall j | 0 <= j < k + 1 ensures |Slots(layouts[j])| < count {
        if j > 0 { assert layouts[j] == rest[j - 1]; }
      }
    }
  }

  lemma {:induction false} FirstFound(defs: seq<Definition>, id: DefinitionID) returns (k: nat)
    requires Find(defs, id).Some?
    ensures k < |defs| && defs[k] == Find(defs, id).value && defs[k].id == id && forall m | 0 <= m < k :: defs[m].id != id
  {
    if defs[0].id == id {
      k := 0;
    } else {
      var n := FirstFound(defs[1..], id);
      k := n + 1;
      forall m | 0 <= m < k ensures defs[m].id != id { if m > 0 { assert defs[m] == defs[1..][m - 1]; } }
    }
  }

  lemma {:induction false} StartedAs(d: Definition, start: seq<DefinedElement>, mint: nat -> Id, position: nat, layout: Layout)
    requires LayoutFor(d.layouts, |start|) == Some(layout) && |start| <= |Slots(layout)|
    ensures AddedAs(d, start, mint, position,
                    Block(mint(|start|), d.id, None, position, false, layout, d.width, StartElements(start, layout, mint)))
  {
    RoomIsFirst(d.layouts, |start|);
    hide Slots;
    hide LayoutFor;
    hide FirstRoom;
  }

  lemma {:induction false} AddStores(defs: seq<Definition>, page: seq<Block>, id: DefinitionID, typ: Type, mint: nat -> Id)
    requires AddPage(defs, page, id, typ, mint).Done?
    ensures StoresAdd(defs, page, AddPage(defs, page, id, typ, mint).value, id, typ, mint)
  {
    hide StructureOk;
    hide BuilderOk;
    hide Slots;
    hide StartsWith;
    hide AddedAs;
    var k := FirstFound(defs, id);
    hide Find;
    var d := defs[k];
    FirstStart(d, typ);
    hide Starts;
    hide StartFor;
    var start := StartFor(Starts(d), typ).value.elements;
    StartedAs(d, start, mint, |page|, LayoutFor(d.layouts, |start|).value);
    hide LayoutFor;
    hide StartElements;
    assert AddedAs(d, start, mint, |page|, NewBlock(defs, id, typ, page, mint).value);
  }

  /** What an accepted edit leaves, for every edit. */
  lemma {:induction false} PageStores(defs: seq<Definition>, page: seq<Block>, edit: Edit)
    requires Distinct(BlockIds(page)) && EditPage(defs, page, edit).Done?
    ensures Stores(defs, page, EditPage(defs, page, edit).value, edit)
  {
    hide SavePage;
    hide AddPage;
    hide ArrangePage;
    hide RemovePage;
    hide MovePage;
    hide StoresSave;
    hide StoresAdd;
    hide StoresArrange;
    hide StoresRemove;
    hide StoresMove;
    hide Distinct;
    match edit
    case Save(id, update) => SaveStores(defs, page, id, update);
    case Add(definition, typ, mint) => AddStores(defs, page, definition, typ, mint);
    case Arrange(choices) => ArrangeStores(defs, page, choices);
    case Remove(id) => RemoveStores(defs, page, id);
    case Move(sourceId, destinationId) => MoveStores(defs, page, sourceId, destinationId);
  }

  // ---- when an arrangement is accepted ------------------------------------

  /** Nothing the catalog says of the block keeps it on show: where its definition is
      required it may still be hidden. */
  ghost predicate Hideable(defs: seq<Definition>, b: Block) {
    forall k | 0 <= k < |defs| && defs[k].id == b.definition && (forall m | 0 <= m < k :: defs[m].id != b.definition) ::
      defs[k].required ==> defs[k].hideable
  }

  /** One choice: a block of the page, hidden only where it may be, and of a width its
      layout fits. */
  ghost predicate Choosable(defs: seq<Definition>, page: seq<Block>, choice: Choice) {
    exists j :: OnlyAt(page, j, choice.id) && (choice.hidden ==> Hideable(defs, page[j]))
                && WidthFits(page[j].layout, choice.width)
  }

  lemma {:induction false} HideableIs(defs: seq<Definition>, b: Block)
    ensures MayHide(defs, b) <==> Hideable(defs, b)
  {
    if Find(defs, b.definition).Some? {
      var k := FirstFound(defs, b.definition);
      forall l | 0 <= l < |defs| && defs[l].id == b.definition && (forall m | 0 <= m < l :: defs[m].id != b.definition)
        ensures l == k
      {
      }
    }
  }

  lemma {:induction false} ChoosableIs(defs: seq<Definition>, page: seq<Block>, choice: Choice)
    requires Distinct(BlockIds(page))
    ensures Choosable(defs, page, choice) <==>
      ChoiceOk(defs, page, choice) && WidthFits(page[IndexOf(page, choice.id).value].layout, choice.width)
  {
    hide MayHide;
    hide Hideable;
    hide WidthFits;
    if IndexOf(page, choice.id).Some? {
      OnlyOne(page, choice.id);
      var i := IndexOf(page, choice.id).value;
      HideableIs(defs, page[i]);
      forall j | OnlyAt(page, j, choice.id) ensures j == i {}
    }
  }

  /** On a good page an arrangement is accepted exactly when it names as many blocks as
      there are, none twice, each of them one that is there, hidden only where it may
      be and of a width its layout fits. */
  lemma {:induction false} ArrangeAccepts(defs: seq<Definition>, page: seq<Block>, choices: seq<Choice>)
    requires CatalogOk(defs) && PageOk(defs, page)
    ensures ArrangePage(defs, page, choices).Done? <==>
      && |choices| == |page|
      && (forall i, j | 0 <= i < j < |choices| :: choices[i].id != choices[j].id)
      && (forall i | 0 <= i < |choices| :: Choosable(defs, page, choices[i]))
  {
    ArrangeExactly(defs, page, choices);
    assert Distinct(BlockIds(page)) by { PageParts(defs, page); }
    hide *;
    AllChoosable(defs, page, choices);
  }

  lemma {:induction false} AllChoosable(defs: seq<Definition>, page: seq<Block>, choices: seq<Choice>)
    requires Distinct(BlockIds(page))
    ensures (|choices| == |page| && (forall i, j | 0 <= i < j < |choices| :: choices[i].id != choices[j].id)
             && forall i | 0 <= i < |choices| :: Choosable(defs, page, choices[i]))
        <==> ChoicesOk(defs, page, choices)
             && forall i | 0 <= i < |choices| :: WidthFits(page[IndexOf(page, choices[i].id).value].layout, choices[i].width)
  {
    forall i | 0 <= i < |choices| ensures Choosable(defs, page, choices[i]) <==>
      ChoiceOk(defs, page, choices[i]) && WidthFits(page[IndexOf(page, choices[i].id).value].layout, choices[i].width)
    {
      ChoosableIs(defs, page, choices[i]);
    }
    hide Choosable;
    hide WidthFits;
    hide MayHide;
    assert Distinct(ChoiceIds(choices)) <==> forall i, j | 0 <= i < j < |choices| :: choices[i].id != choices[j].id by {
      assert forall i | 0 <= i < |choices| :: ChoiceIds(choices)[i] == choices[i].id;
    }
    hide Distinct;
    hide ChoiceIds;
    assert forall i | 0 <= i < |choices| && ChoiceOk(defs, page, choices[i]) :: IndexOf(page, choices[i].id).Some?;
    hide ChoiceOk;
  }

  // ---- when a save is accepted --------------------------------------------

  /** The block as the update would leave it. */
  function Rewritten(b: Block, update: Update): Block {
    b.(title := update.title, layout := update.layout, width := update.width, elements := update.elements)
  }

  /** The block stays readable and fits its definition; its elements are its own, each
      of a role that fits it, none of a role that may be carried once and is carried
      twice or elsewhere; and what is pinned in it is still there. */
  ghost predicate Savable(defs: seq<Definition>, page: seq<Block>, i: int, update: Update)
    requires 0 <= i < |page|
  {
    && StructureOk(Rewritten(page[i], update)) && BlockFits(defs, Rewritten(page[i], update))
    && (forall e | e in update.elements :: RoleFits(e) && e.id in Ids(page[i].elements))
    && RolesOnce(update.elements)
    && (forall e | e in update.elements && Singular(e.role) :: e.role !in Roles(Flat(Without(page, i))))
    && (forall e | e in page[i].elements && Pinned(defs, page[i], e.role) :: Holds(Rewritten(page[i], update), e))
  }

  lemma {:induction false} ReplacedBag(page: seq<Block>, i: nat, b: Block)
    requires i < |page|
    ensures multiset(Flat(page[i := b])) == multiset(Flat(Without(page, i)) + b.elements)
  {
    var after := page[i := b];
    FlatWithout(after, i);
    assert Without(after, i) == Without(page, i);
  }

  lemma {:induction false} ElementsFitSuffix(x: seq<Element>, y: seq<Element>)
    requires ElementsFit(x + y)
    ensures ElementsFit(x) && ElementsFit(y) && forall e | e in y :: e.id !in Ids(x)
  {
    assert multiset(x + y) == multiset(y + x);
    SameBagFits(x + y, y + x);
    ElementsFitPrefix(x, y);
    ElementsFitPrefix(y, x);
    assert Ids(x + y) == Ids(x) + Ids(y);
    forall e | e in y ensures e.id !in Ids(x) {
      var j :| 0 <= j < |y| && y[j] == e;
      assert Ids(x + y)[|x| + j] == e.id;
      assert forall k | 0 <= k < |x| :: Ids(x)[k] == Ids(x + y)[k] != Ids(x + y)[|x| + j];
    }
    hide ElementsFit;
  }

  lemma {:induction false} ElementsFitBoth(x: seq<Element>, y: seq<Element>)
    requires ElementsFit(x)
    ensures ElementsFit(x + y) <==>
      && ElementsFit(y) && (forall e | e in y :: e.id !in Ids(x))
      && forall e | e in y && Singular(e.role) :: e.role !in Roles(x)
  {
    hide ElementsFit;
    hide Ids;
    hide Roles;
    if ElementsFit(x + y) { ElementsFitSuffix(x, y); }
    if ElementsFit(y) && forall e | e in y :: e.id !in Ids(x) { ElementsFitJoin(x, y); }
  }

  lemma {:induction false} SavedFit(page: seq<Block>, i: nat, b: Block)
    requires i < |page| && ElementsFit(Flat(page)) && Distinct(Ids(b.elements))
    ensures (ElementsFit(Flat(page[i := b])) && Known(IdSet(page), Flat(page[i := b]))) <==>
      && (forall e | e in b.elements :: RoleFits(e) && e.id in Ids(page[i].elements))
      && RolesOnce(b.elements)
      && (forall e | e in b.elements && Singular(e.role) :: e.role !in Roles(Flat(Without(page, i))))
  {
    hide *;
    var after, others := page[i := b], Flat(Without(page, i));
    ReplacedBag(page, i, b);
    assert page == page[i := page[i]];
    ReplacedBag(page, i, page[i]);
    SameBag(Flat(page), others + page[i].elements);
    SameBag(Flat(after), others + b.elements);
    ElementsFitSuffix(others, page[i].elements);
    ElementsFitBoth(others, b.elements);
    FitsAre(b.elements);
    KnownHere(page, i, b, others);
  }

  lemma {:induction false} SameBag(x: seq<Element>, y: seq<Element>)
    requires multiset(x) == multiset(y)
    ensures ElementsFit(x) <==> ElementsFit(y)
  {
    if ElementsFit(x) { SameBagFits(x, y); }
    if ElementsFit(y) { SameBagFits(y, x); }
  }

  lemma {:induction false} FitsAre(elements: seq<Element>)
    requires Distinct(Ids(elements))
    ensures ElementsFit(elements) <==> RolesOnce(elements) && forall e | e in elements :: RoleFits(e)
  {
  }

  /** Known ids that no other block holds are the block's own. */
  lemma {:induction false} KnownHere(page: seq<Block>, i: nat, b: Block, others: seq<Element>)
    requires i < |page| && others == Flat(Without(page, i))
    requires forall e | e in page[i].elements :: e.id !in Ids(others)
    ensures (Known(IdSet(page), Flat(page[i := b])) && forall e | e in b.elements :: e.id !in Ids(others)) <==>
      forall e | e in b.elements :: e.id in Ids(page[i].elements)
  {
    assert page == page[i := page[i]];
    ReplacedBag(page, i, page[i]);
    ReplacedBag(page, i, b);
    var after := page[i := b];
    hide Flat;
    hide Without;
    forall x ensures x in IdSet(page) <==> x in Ids(others) || x in Ids(page[i].elements) { IdsJoin(page, others, page[i].elements, x); }
    hide IdSet;
    forall e ensures e in Flat(after) <==> e in others || e in b.elements {
      assert e in multiset(Flat(after)) <==> e in multiset(others + b.elements);
    }
    forall e | e in others ensures e.id in Ids(others) {
      var k :| 0 <= k < |others| && others[k] == e;
      assert Ids(others)[k] == e.id;
    }
    forall x | x in Ids(page[i].elements) ensures x !in Ids(others) {
      var k :| 0 <= k < |page[i].elements| && Ids(page[i].elements)[k] == x;
      assert page[i].elements[k] in page[i].elements;
    }
    hide Ids;
  }

  lemma {:induction false} IdsJoin(page: seq<Block>, x: seq<Element>, y: seq<Element>, id: Id)
    requires multiset(Flat(page)) == multiset(x + y)
    ensures id in IdSet(page) <==> id in Ids(x) || id in Ids(y)
  {
    MapPermuted(IdOf, Flat(page), x + y);
    MapConcat(IdOf, x, y);
    hide Flat;
    assert id in PageIds(page) <==> id in multiset(PageIds(page));
    assert id in Ids(x + y) <==> id in multiset(Ids(x + y));
  }

  lemma {:induction false} SavedBlocksFit(defs: seq<Definition>, page: seq<Block>, i: nat, b: Block)
    requires i < |page| && BlocksFit(defs, page) && b.definition == page[i].definition
    ensures BlocksFit(defs, page[i := b]) <==> BlockFits(defs, b)
  {
    var after := page[i := b];
    hide BlockFits;
    hide MayRepeat;
    assert forall j | 0 <= j < |page| :: after[j].definition == page[j].definition;
    if BlocksFit(defs, after) { assert BlockFits(defs, after[i]); }
    forall j | 0 <= j < |page| && j != i ensures BlockFits(defs, after[j]) { assert BlockFits(defs, page[j]); }
    forall j, k | 0 <= j < k < |after| && after[j].definition == after[k].definition
      ensures MayRepeat(defs, after[j].definition)
    {
      assert page[j].definition == page[k].definition;
    }
  }

  lemma {:induction false} SavedPins(defs: seq<Definition>, page: seq<Block>, i: nat, b: Block)
    requires i < |page| && Distinct(BlockIds(page)) && b.id == page[i].id
    ensures PinnedKept(defs, page, page[i := b]) <==>
      forall e | e in page[i].elements && Pinned(defs, page[i], e.role) :: Holds(b, e)
  {
    var after := page[i := b];
    hide Holds;
    hide Pinned;
    OwnBlock(page, i, b);
    if PinnedKept(defs, page, after) {
      forall e | e in page[i].elements && Pinned(defs, page[i], e.role) ensures Holds(b, e) {
        var j :| 0 <= j < |page[i].elements| && page[i].elements[j] == e;
        assert PinnedPresent(after, page[i].id, page[i].elements[j]);
      }
    }
    if forall e | e in page[i].elements && Pinned(defs, page[i], e.role) :: Holds(b, e) {
      forall m, j | 0 <= m < |page| && 0 <= j < |page[m].elements| && Pinned(defs, page[m], page[m].elements[j].role)
        ensures PinnedPresent(after, page[m].id, page[m].elements[j])
      {
        assert page[m].elements[j] in page[m].elements;
        if m != i { HoldsOwn(page[m], j); }
        assert after[m].id == page[m].id && Holds(after[m], page[m].elements[j]);
      }
    }
  }

  lemma {:induction false} OwnBlock(page: seq<Block>, i: nat, b: Block)
    requires i < |page| && Distinct(BlockIds(page)) && b.id == page[i].id
    ensures forall e | PinnedPresent(page[i := b], b.id, e) :: Holds(b, e)
  {
    var after := page[i := b];
    hide Holds;
    forall e | PinnedPresent(after, b.id, e) ensures Holds(b, e) {
      var k :| 0 <= k < |after| && after[k].id == b.id && Holds(after[k], e);
      DistinctAt(BlockIds(page), k, i);
    }
  }

  /** On a good page a save is accepted exactly when the block is there and the update
      is one it can take. */
  lemma {:induction false} SaveExactly(defs: seq<Definition>, page: seq<Block>, id: Id, update: Update)
    requires CatalogOk(defs) && PageOk(defs, page)
    ensures SavePage(defs, page, id, update).Done? <==> exists i :: OnlyAt(page, i, id) && Savable(defs, page, i, update)
  {
    PageParts(defs, page);
    hide PageOk;
    hide CatalogOk;
    if IndexOf(page, id).Some? {
      var i := IndexOf(page, id).value;
      OnlyOne(page, id);
      SavesAt(defs, page, i, update);
      SaveIs(defs, page, id, update);
      forall j | OnlyAt(page, j, id) ensures j == i {}
    }
    hide Savable;
    hide SavePage;
    hide IndexOf;
    hide Distinct;
  }

  lemma {:induction false} SaveIs(defs: seq<Definition>, page: seq<Block>, id: Id, update: Update)
    requires IndexOf(page, id).Some?
    ensures var i := IndexOf(page, id).value;
      var b := Rewritten(page[i], update);
      SavePage(defs, page, id, update).Done? <==> StructureOk(b) && BuilderOk(defs, page, page[i := b])
  {
    hide StructureOk;
    hide BuilderOk;
    hide IndexOf;
  }

  lemma {:induction false} SavesAt(defs: seq<Definition>, page: seq<Block>, i: nat, update: Update)
    requires i < |page| && BlocksFit(defs, page) && ElementsFit(Flat(page)) && Distinct(BlockIds(page))
    ensures var b := Rewritten(page[i], update);
      Savable(defs, page, i, update) <==> StructureOk(b) && BuilderOk(defs, page, page[i := b])
  {
    var b := Rewritten(page[i], update);
    assert b.elements == update.elements && b.id == page[i].id && b.definition == page[i].definition;
    Builder(defs, page, page[i := b]);
    assert StructureOk(b) ==> Distinct(Ids(b.elements));
    SavedBlocksFit(defs, page, i, b);
    SavedPins(defs, page, i, b);
    hide *;
    if StructureOk(b) { SavedFit(page, i, b); }
    SavableIs(defs, page, i, update);
  }

  lemma {:induction false} SavableIs(defs: seq<Definition>, page: seq<Block>, i: nat, update: Update)
    requires i < |page|
    ensures var b := Rewritten(page[i], update);
      Savable(defs, page, i, update) <==>
        && StructureOk(b) && BlockFits(defs, b)
        && (forall e | e in b.elements :: RoleFits(e) && e.id in Ids(page[i].elements))
        && RolesOnce(b.elements)
        && (forall e | e in b.elements && Singular(e.role) :: e.role !in Roles(Flat(Without(page, i))))
        && (forall e | e in page[i].elements && Pinned(defs, page[i], e.role) :: Holds(b, e))
  {
    hide StructureOk;
    hide BlockFits;
    hide RoleFits;
    hide Holds;
  }
}
