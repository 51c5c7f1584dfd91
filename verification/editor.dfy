/** The editing transactions as they run: the asset's row and its blocks are
    fields, rewritten in place and settled before the transaction commits. */
module Editor {
  import opened Sequences
  import opened Sorting
  import opened Blocks
  import opened Catalog
  import opened PageRules
  import opened PageSteps
  import opened PageInvariant
  import opened Placement
  import opened Capability
  import opened Facets
  import opened AssetState
  import opened AssetLaws
  import opened AssetRuns
  import opened AssetStores
  import Text = FingerprintText

  // ---- reading a page -----------------------------------------------------

  lemma {:induction false} FirstIndex(page: seq<Block>, id: Id, i: nat)
    requires i < |page| && page[i].id == id && forall k | 0 <= k < i :: page[k].id != id
    ensures IndexOf(page, id) == Some(i)
  {
    if i > 0 {
      assert forall k | 0 <= k < i - 1 :: page[1..][k].id == page[k + 1].id;
      FirstIndex(page[1..], id, i - 1);
    }
  }

  method Locate(page: seq<Block>, id: Id) returns (found: Option<nat>)
    ensures found == IndexOf(page, id)
  {
    for i := 0 to |page|
      invariant forall k | 0 <= k < i :: page[k].id != id
    {
      if page[i].id != id { continue; }
      FirstIndex(page, id, i);
      return Some(i);
    }
    return None;
  }

  method AllElements(page: seq<Block>) returns (elements: seq<Element>)
    ensures elements == Flat(page)
  {
    elements := [];
    assert Flat(page[..0]) == elements;
    for i := 0 to |page|
      invariant elements == Flat(page[..i])
    {
      NextBlock(page, i);
      assert page[i].elements[..|page[i].elements|] == page[i].elements;
      elements := elements + page[i].elements;
      hide Flat;
    }
    assert page[..|page|] == page;
  }

  /** The elements and items that can own a preserved row. */
  method CollectOwners(page: seq<Block>) returns (owners: set<Id>)
    ensures owners == Owners(page)
  {
    var elements := AllElements(page);
    owners := {};
    for i := 0 to |elements|
      invariant owners == IdsOwning(elements[..i])
    {
      assert elements[..i + 1] == elements[..i] + [elements[i]];
      OwningOne(elements[..i], elements[i]);
      owners := owners + {elements[i].id} + set x | x in ItemIds(elements[i].content);
    }
    assert elements[..|elements|] == elements;
  }

  lemma {:induction false} OwningOne(elements: seq<Element>, e: Element)
    ensures IdsOwning(elements + [e]) == IdsOwning(elements) + {e.id} + set x | x in ItemIds(e.content)
  {
    var all := elements + [e];
    assert e in all;
    forall f | f in all ensures f in elements || f == e {}
    forall f | f in elements ensures f in all {}
    hide ItemIds;
  }

  /** Sets each block's position to where it stands. */
  method ClosePositions(remaining: seq<Block>) returns (closed: seq<Block>)
    ensures closed == Renumber(remaining)
  {
    closed := remaining;
    for position := 0 to |remaining|
      invariant |closed| == |remaining|
      invariant closed[..position] == Renumber(remaining)[..position] && closed[position..] == remaining[position..]
    {
      closed := closed[position := closed[position].(position := position)];
    }
  }

  // ---- the pictures and records of a fingerprint --------------------------

  method WantedPictures(cover: Id, elements: seq<Element>) returns (wanted: set<Id>)
    ensures wanted == Wanted(cover, elements)
  {
    wanted := if cover == NIL then {} else {cover};
    for i := 0 to |elements|
      invariant wanted == Wanted(cover, elements[..i])
    {
      assert elements[..i + 1] == elements[..i] + [elements[i]];
      WantedOne(cover, elements[..i], elements[i]);
      wanted := wanted + set p | p in elements[i].content.pictures;
    }
    assert elements[..|elements|] == elements;
  }

  lemma {:induction false} WantedOne(cover: Id, elements: seq<Element>, e: Element)
    ensures Wanted(cover, elements + [e]) == Wanted(cover, elements) + set p | p in e.content.pictures
  {
    var all := elements + [e];
    assert e in all;
    forall f | f in all ensures f in elements || f == e {}
    forall f | f in elements ensures f in all {}
  }

  lemma {:induction false} RecordsOne(s: seq<Element>, e: Element)
    ensures RecordsIn(s + [e]) == RecordsIn(s) + (if NotEmpty(e) then [ElementRecord(e)] else [])
  {
    FilterConcat(NotEmpty, s, [e]);
    assert Filter(NotEmpty, [e]) == if NotEmpty(e) then [e] else [];
    MapConcat(ElementRecord, Filter(NotEmpty, s), Filter(NotEmpty, [e]));
    assert Map(ElementRecord, [e]) == [ElementRecord(e)];
    assert Map(ElementRecord, []) == [];
    hide ElementRecord;
  }

  method RecordElements(elements: seq<Element>) returns (records: seq<Text.Record>)
    ensures records == ElementRecords(elements)
  {
    var sorted := ById(elements);
    records := [];
    assert RecordsIn(sorted[..0]) == records;
    for i := 0 to |sorted|
      invariant records == RecordsIn(sorted[..i])
    {
      assert sorted[..i + 1] == sorted[..i] + [sorted[i]];
      RecordsOne(sorted[..i], sorted[i]);
      hide RecordsIn;
      if sorted[i].content.empty { continue; }
      records := records + [ElementRecord(sorted[i])];
    }
    assert sorted[..|sorted|] == sorted;
  }

  // ---- what a step makes of a page ----------------------------------------

  /** The rest of a page without one block, or where that block is refused. */
  method WithoutBlock(defs: seq<Definition>, page: seq<Block>, id: Id) returns (reply: Reply, remaining: seq<Block>)
    requires Distinct(BlockIds(page))
    ensures var at := IndexOf(page, id);
      match reply
      case Ok => at.Some? && !IsRequired(defs, page[at.value]) && remaining == Without(page, at.value)
      case Refused => at.Some? && IsRequired(defs, page[at.value])
      case Missing => at.None?
      case _ => false
  {
    remaining := [];
    var found := false;
    ghost var at := 0;
    for i := 0 to |page|
      invariant !found ==> remaining == page[..i] && forall k | 0 <= k < i :: page[k].id != id
      invariant found ==> at < i && IndexOf(page, id) == Some(at) && !IsRequired(defs, page[at])
      invariant found ==> remaining == page[..at] + page[at + 1..i]
    {
      if page[i].id != id {
        remaining := remaining + [page[i]];
        continue;
      }
      if found { SameBlock(page, at, i); }
      FirstIndex(page, id, i);
      found := true;
      at := i;
      var definition := Find(defs, page[i].definition);
      if definition.Some? && definition.value.required { return Refused, remaining; }
    }
    reply := if found then Ok else Missing;
  }

  /** The page without one optional block and the gap closed. */
  method Shrink(defs: seq<Definition>, page: seq<Block>, id: Id) returns (reply: Reply, after: seq<Block>)
    requires Distinct(BlockIds(page))
    ensures match RemovePage(defs, page, id)
            case Done(closed) => reply == Ok && after == closed
            case NotFound => reply == Missing
            case Invalid => reply == Refused
  {
    hide RemovePage;
    hide BuilderOk;
    hide Without;
    hide Renumber;
    hide IsRequired;
    RemoveAccepts(defs, page, id);
    reply, after := WithoutBlock(defs, page, id);
    if reply != Ok { return; }
    var ok := ValidateBuilderConstraints(defs, page, after);
    if !ok { return Refused, after; }
    after := ClosePositions(after);
  }

  /** The page with one block's title, layout, width and elements rewritten. */
  method Rewrite(defs: seq<Definition>, page: seq<Block>, id: Id, update: Update)
    returns (reply: Reply, after: seq<Block>)
    ensures match SavePage(defs, page, id, update)
            case Done(saved) => reply == Ok && after == saved
            case NotFound => reply == Missing
            case Invalid => reply == Refused
  {
    hide StructureOk;
    hide BuilderOk;
    var at := Locate(page, id);
    if at.None? { return Missing, page; }
    var i := at.value;
    after := page[i := page[i].(title := update.title, layout := update.layout, width := update.width,
                                elements := update.elements)];
    var fits := ValidateStructure(after[i]);
    if !fits { return Refused, after; }
    var ok := ValidateBuilderConstraints(defs, page, after);
    if !ok { return Refused, after; }
    return Ok, after;
  }

  /** The way a block starts with this content. */
  method StartWith(starts: seq<Start>, typ: Type) returns (chosen: Option<Start>)
    ensures chosen == StartFor(starts, typ)
  {
    for i := 0 to |starts|
      invariant StartFor(starts, typ) == StartFor(starts[i..], typ)
    {
      assert starts[i..][1..] == starts[i + 1..];
      if starts[i].typ == typ { return Some(starts[i]); }
    }
    return None;
  }

  method AlreadyThere(page: seq<Block>, id: DefinitionID) returns (there: bool)
    ensures there <==> exists i :: 0 <= i < |page| && page[i].definition == id
  {
    for i := 0 to |page|
      invariant forall k | 0 <= k < i :: page[k].definition != id
    {
      if page[i].definition == id { return true; }
    }
    return false;
  }

  method BuildElements(defined: seq<DefinedElement>, layout: Layout, mint: nat -> Id) returns (elements: seq<Element>)
    requires |defined| <= |Slots(layout)|
    ensures elements == StartElements(defined, layout, mint)
  {
    hide Slots;
    elements := [];
    for i := 0 to |defined|
      invariant |elements| == i
      invariant forall k | 0 <= k < i :: elements[k] == EmptyElement(defined[k], mint(k), Slots(layout)[k])
    {
      elements := elements + [Element(mint(i), defined[i].typ, defined[i].role, Slots(layout)[i],
                                      defined[i].options, EmptyContent())];
    }
  }

  /** The block a creator asked the add tray for. */
  method BuildBlock(defs: seq<Definition>, id: DefinitionID, typ: Type, page: seq<Block>, mint: nat -> Id)
    returns (built: Outcome<Block>)
    ensures built == NewBlock(defs, id, typ, page, mint)
  {
    hide Find;
    hide Starts;
    hide StartFor;
    hide LayoutFor;
    hide Slots;
    var definition := Find(defs, id);
    if definition.None? { return Invalid; }
    var d := definition.value;
    if d.required { return Invalid; }
    if !d.repeatable {
      var there := AlreadyThere(page, id);
      if there { return Invalid; }
    }
    var chosen := StartWith(Starts(d), typ);
    if chosen.None? { return Invalid; }
    var layout := LayoutFor(d.layouts, |chosen.value.elements|);
    if layout.None? { return Invalid; }
    var elements := BuildElements(chosen.value.elements, layout.value, mint);
    return Done(Block(mint(|elements|), id, None, |page|, false, layout.value, d.width, elements));
  }

  method Append(defs: seq<Definition>, page: seq<Block>, id: DefinitionID, typ: Type, mint: nat -> Id)
    returns (reply: Reply, after: seq<Block>)
    ensures match AddPage(defs, page, id, typ, mint)
            case Done(added) => reply == Ok && after == added
            case NotFound => false
            case Invalid => reply == Refused
  {
    hide NewBlock;
    hide StructureOk;
    hide BuilderOk;
    after := page;
    var built := BuildBlock(defs, id, typ, page, mint);
    if !built.Done? { return Refused, page; }
    var fits := ValidateStructure(built.value);
    if !fits { return Refused, page; }
    after := page + [built.value];
    var ok := ValidateBuilderConstraints(defs, after, after);
    if !ok { return Refused, after; }
    return Ok, after;
  }

  /** Gives each named block its place, width and visibility, each once. */
  method Rearrange(defs: seq<Definition>, page: seq<Block>, choices: seq<Choice>)
    returns (after: Option<seq<Block>>)
    requires Distinct(BlockIds(page))
    ensures after.Some? <==> ChoicesOk(defs, page, choices)
    ensures after.Some? ==> after.value == ArrangedPage(page, choices)
  {
    hide IndexOf;
    hide Find;
    if |choices| != |page| { return None; }
    var byId: map<Id, Block> := ById'(page);
    var arranged: seq<Block> := [];
    var seen: set<Id> := {};
    var ids := ChoiceIds(choices);
    for i := 0 to |choices|
      invariant forall k | 0 <= k < i :: ChoiceOk(defs, page, choices[k])
      invariant |arranged| == i && forall k | 0 <= k < i :: arranged[k] == Arranged(page, choices[k], k)
      invariant forall x :: x in seen <==> x in ids[..i]
      invariant Distinct(ids[..i])
    {
      var choice := choices[i];
      hide Distinct;
      assert ids[..i + 1] == ids[..i] + [choice.id];
      if choice.id !in byId { return None; }
      var holder := byId[choice.id];
      if choice.id in seen {
        RepeatedChoice(choices, i);
        return None;
      }
      DistinctSnoc(ids[..i], choice.id);
      seen := seen + {choice.id};
      var definition := Find(defs, holder.definition);
      if choice.hidden && definition.Some? && definition.value.required && !definition.value.hideable { return None; }
      arranged := arranged + [holder.(position := i, hidden := choice.hidden, width := choice.width)];
    }
    assert ids[..|choices|] == ids;
    return Some(arranged);
  }

  lemma {:induction false} RepeatedChoice(choices: seq<Choice>, i: nat)
    requires i < |choices| && choices[i].id in ChoiceIds(choices)[..i]
    ensures !Distinct(ChoiceIds(choices))
  {
    var k :| 0 <= k < i && ChoiceIds(choices)[k] == choices[i].id;
    assert ChoiceIds(choices)[k] == ChoiceIds(choices)[i];
  }

  lemma {:induction false} DistinctSnoc<T>(s: seq<T>, x: T)
    requires Distinct(s) && x !in s
    ensures Distinct(s + [x])
  {
  }

  method ById'(page: seq<Block>) returns (byId: map<Id, Block>)
    requires Distinct(BlockIds(page))
    ensures forall id :: id in byId <==> IndexOf(page, id).Some?
    ensures forall id | id in byId :: byId[id] == page[IndexOf(page, id).value]
  {
    byId := map[];
    for i := 0 to |page|
      invariant forall k | 0 <= k < i :: page[k].id in byId && byId[page[k].id] == page[k]
      invariant forall id | id in byId :: exists k :: 0 <= k < i && page[k].id == id
    {
      forall k | 0 <= k < i ensures page[k].id != page[i].id {
        assert BlockIds(page)[k] != BlockIds(page)[i];
      }
      byId := byId[page[i].id := page[i]];
    }
    forall id | id in byId ensures IndexOf(page, id).Some? {
      var k :| 0 <= k < |page| && page[k].id == id;
    }
  }

  method TakenSlots(elements: seq<Element>) returns (occupied: set<Slot>)
    ensures occupied == Occupied(elements)
  {
    occupied := {};
    for i := 0 to |elements|
      invariant occupied == Occupied(elements[..i])
    {
      assert elements[..i + 1] == elements[..i] + [elements[i]];
      forall s ensures s in Occupied(elements[..i + 1]) <==> s in occupied || s == elements[i].slot {
        if s in Occupied(elements[..i]) {
          var k :| 0 <= k < i && elements[..i][k].slot == s;
          assert elements[..i + 1][k].slot == s;
        }
        if s == elements[i].slot { assert elements[..i + 1][i].slot == s; }
      }
      occupied := occupied + {elements[i].slot};
    }
    assert elements[..|elements|] == elements;
  }

  lemma {:induction false} VacantSnoc(slots: seq<Slot>, slot: Slot, occupied: set<Slot>)
    ensures Vacant(slots + [slot], occupied) == Vacant(slots, occupied) + (if slot in occupied then [] else [slot])
  {
    if slots == [] {
      assert [slot][1..] == [];
    } else {
      VacantSnoc(slots[1..], slot, occupied);
      assert (slots + [slot])[1..] == slots[1..] + [slot] && (slots + [slot])[0] == slots[0];
    }
  }

  method RoomIn(destination: Block) returns (free: seq<Slot>)
    ensures free == FreeSlots(destination)
  {
    var occupied := TakenSlots(destination.elements);
    var slots := Slots(destination.layout);
    hide Slots;
    hide Occupied;
    free := [];
    for i := 0 to |slots|
      invariant free == Vacant(slots[..i], occupied)
    {
      assert slots[..i + 1] == slots[..i] + [slots[i]];
      VacantSnoc(slots[..i], slots[i], occupied);
      if slots[i] !in occupied { free := free + [slots[i]]; }
    }
    assert slots[..|slots|] == slots;
  }

  /** Appends the source's elements to the destination, each in a free slot. */
  method PourInto(source: Block, destination: Block, free: seq<Slot>) returns (filled: Block)
    requires free == FreeSlots(destination) && |source.elements| <= |free|
    ensures filled == Filled(source, destination)
  {
    hide FreeSlots;
    filled := destination;
    var moved := Reslotted(source.elements, free);
    for i := 0 to |source.elements|
      invariant filled == destination.(elements := destination.elements + moved[..i])
    {
      assert moved[..i + 1] == moved[..i] + [moved[i]];
      filled := filled.(elements := filled.elements + [source.elements[i].(slot := free[i])]);
    }
    assert moved[..|source.elements|] == moved;
  }

  method AnyPinned(defs: seq<Definition>, source: Block) returns (pinned: bool)
    ensures pinned <==> exists e :: e in source.elements && Pinned(defs, source, e.role)
  {
    for i := 0 to |source.elements|
      invariant forall e | e in source.elements[..i] :: !Pinned(defs, source, e.role)
    {
      if Pinned(defs, source, source.elements[i].role) {
        assert source.elements[i] in source.elements;
        return true;
      }
    }
    assert source.elements[..|source.elements|] == source.elements;
    return false;
  }

  /** Moves what one block holds into another and closes the gap it leaves. The
      page being checked against is the one already holding the moved elements. */
  method Merge(defs: seq<Definition>, page: seq<Block>, sourceId: Id, destinationId: Id)
    returns (reply: Reply, after: seq<Block>)
    requires Distinct(BlockIds(page))
    ensures match MovePage(defs, page, sourceId, destinationId)
            case Done(moved) => reply == Ok && after == moved
            case NotFound => reply == Missing
            case Invalid => reply == Refused
  {
    hide StructureOk;
    hide BuilderOk;
    hide Pinned;
    hide FreeSlots;
    after := page;
    var s := Locate(page, sourceId);
    var d := Locate(page, destinationId);
    if s.None? || d.None? || sourceId == destinationId { return Missing, page; }
    var source, destination := page[s.value], page[d.value];
    var definition := Find(defs, source.definition);
    if definition.Some? && definition.value.required { return Refused, page; }
    var pinned := AnyPinned(defs, source);
    if pinned { return Refused, page; }
    if |source.elements| == 0 { return Refused, page; }
    var free := RoomIn(destination);
    if |free| < |source.elements| { return Refused, page; }
    var filled := PourInto(source, destination, free);
    hide Filled;
    var before := page[d.value := filled];
    var remaining := before[..s.value] + before[s.value + 1..];
    after := ClosePositions(remaining);
    var fits := ValidateStructure(filled);
    if !fits { return Refused, page; }
    var ok := ValidateBuilderConstraints(defs, before, after);
    if !ok { return Refused, page; }
    return Ok, after;
  }

  /** An edit's answer, read off the page step it makes. */
  lemma {:induction false} EditedIs(registry: Registry, a: Asset, edit: Edit)
    ensures Lock(a) != Ok ==> Edited(registry, a, edit) == Answer(Lock(a), a)
    ensures Lock(a) == Ok ==>
      match EditPage(DefsOf(a.kind), a.blocks, edit)
      case NotFound => Edited(registry, a, edit) == Answer(Missing, a)
      case Invalid => Edited(registry, a, edit) == Answer(Refused, a)
      case Done(page) => Edited(registry, a, edit) == Answer(Ok, Committed(registry, a, edit, a.(blocks := page)))
    ensures match edit
            case Save(id, update) => EditPage(DefsOf(a.kind), a.blocks, edit) == SavePage(DefsOf(a.kind), a.blocks, id, update)
            case Add(id, typ, mint) => EditPage(DefsOf(a.kind), a.blocks, edit) == AddPage(DefsOf(a.kind), a.blocks, id, typ, mint)
            case Arrange(choices) => EditPage(DefsOf(a.kind), a.blocks, edit) == ArrangePage(DefsOf(a.kind), a.blocks, choices)
            case Remove(id) => EditPage(DefsOf(a.kind), a.blocks, edit) == RemovePage(DefsOf(a.kind), a.blocks, id)
            case Move(s, d) => EditPage(DefsOf(a.kind), a.blocks, edit) == MovePage(DefsOf(a.kind), a.blocks, s, d)
  {
    hide SavePage;
    hide AddPage;
    hide ArrangePage;
    hide RemovePage;
    hide MovePage;
    hide DefsOf;
    hide Counted;
    hide Projected;
    hide DropUnowned;
    hide WithFacets;
  }

  lemma {:induction false} FreshEdit(page: seq<Block>, definition: DefinitionID, typ: Type, mint: nat -> Id)
    requires Fresh(mint, Used(page))
    ensures EditFresh(page, Edit.Add(definition, typ, mint))
  {
    hide Fresh;
    hide Used;
  }

  lemma {:induction false} ArrangeAccepts(defs: seq<Definition>, page: seq<Block>, choices: seq<Choice>)
    ensures !ChoicesOk(defs, page, choices) ==> ArrangePage(defs, page, choices) == Invalid
    ensures ChoicesOk(defs, page, choices) ==>
      ArrangePage(defs, page, choices) ==
        (if BuilderOk(defs, page, ArrangedPage(page, choices)) then Done(ArrangedPage(page, choices)) else Invalid)
  {
    hide BuilderOk;
    hide ArrangedPage;
  }

  lemma {:induction false} RemoveAccepts(defs: seq<Definition>, page: seq<Block>, id: Id)
    ensures RemovePage(defs, page, id) ==
      var at := IndexOf(page, id);
      if at.None? then NotFound
      else if IsRequired(defs, page[at.value]) || !BuilderOk(defs, page, Without(page, at.value)) then Invalid
      else Done(Renumber(Without(page, at.value)))
  {
    hide BuilderOk;
    hide Without;
    hide Renumber;
    hide IsRequired;
  }

  ghost function Committed(registry: Registry, a: Asset, edit: Edit, changed: Asset): Asset {
    match edit
    case Arrange(_) => WithFacets(changed)
    case Add(_, _, _) => Counted(registry, a, Projected(registry, changed))
    case _ => Counted(registry, a, Projected(registry, DropUnowned(changed)))
  }

  lemma {:induction false} CommittedIs(registry: Registry, a: Asset, edit: Edit, page: seq<Block>)
    ensures var changed := a.(blocks := page);
      Committed(registry, a, edit, changed) ==
        if edit.Arrange? then WithFacets(changed)
        else Counted(registry, a, Projected(registry, if edit.Add? then changed else DropUnowned(changed)))
  {
    hide Counted;
    hide Projected;
    hide DropUnowned;
    hide WithFacets;
  }

  // ---- the asset ----------------------------------------------------------

  class Editing {
    const registry: Registry
    const kind: Kind
    const draft: bool
    const deleted: bool
    const withheld: bool
    var origin: string
    var media: seq<Media>
    var cover: Id
    var header: Header
    var blocks: seq<Block>
    var preserved: seq<Preserved>
    var rating: Option<bool>
    var generation: nat
    var exports: seq<Target>
    var facets: map<FacetKey, nat>

    constructor (registry: Registry, a: Asset)
      ensures State() == a && this.registry == registry
    {
      this.registry := registry;
      kind, origin, media, cover := a.kind, a.origin, a.media, a.cover;
      draft, deleted, withheld := a.draft, a.deleted, a.withheld;
      header, blocks, preserved, rating := a.header, a.blocks, a.preserved, a.rating;
      generation, exports, facets := a.generation, a.exports, a.facets;
    }

    function State(): Asset
      reads this
    {
      Asset(kind, origin, header, cover, blocks, preserved, media, rating, draft, deleted, withheld,
            generation, exports, facets)
    }

    method TakeLock() returns (reply: Reply)
      ensures reply == Lock(State())
      ensures reply == if deleted then Missing else if withheld then Frozen else Ok
    {
      if deleted { return Missing; }
      if withheld { return Frozen; }
      return Ok;
    }

    method ContentFingerprint() returns (digest: string)
      ensures digest == Fingerprint(registry, State())
    {
      var records := [Text.Record(Text.Asset, [KindText(kind), origin])];
      var fields := HeaderFields(registry, kind);
      records := records + Map(HeaderRecord(header), fields);
      var elements := AllElements(blocks);
      var written := RecordElements(elements);
      var wanted := WantedPictures(cover, elements);
      records := records + written + Map(PreservedRecord, preserved) + PictureRecords(media, wanted);
      hide Map;
      hide ElementRecords;
      hide PictureRecords;
      hide HeaderFields;
      hide Wanted;
      hide Flat;
      digest := Text.WriteRecords(records);
    }

    /** Recomputes what the page offers and counts. */
    method WriteProjections()
      modifies this`exports, this`facets
      ensures State() == Projected(registry, old(State()))
      ensures exports == Offered(registry, SubjectOf(State()))
    {
      hide Offered;
      hide MeasureFacets;
      hide ShownElements;
      hide Flat;
      var elements := AllElements(blocks);
      exports := OfferedTargets(registry, Subject(kind, origin, elements, []));
      WriteFacetProjection();
    }

    method WriteFacetProjection()
      modifies this`facets
      ensures State() == WithFacets(old(State()))
    {
      hide MeasureFacets;
      hide ShownElements;
      var shown := Shown(blocks);
      facets := CountFacets(kind, shown);
    }

    method DropUnownedPreservedData()
      modifies this`preserved
      ensures State() == DropUnowned(old(State()))
    {
      hide Owners;
      var owners := CollectOwners(blocks);
      preserved := Filter(KeptRows(owners), preserved);
    }

    /** Advances the counter where the fingerprint moved. */
    method MoveContentGeneration(before: string, ghost was: Asset)
      requires before == Fingerprint(registry, was)
      modifies this`generation
      ensures State() == Counted(registry, was, old(State()))
    {
      hide Fingerprint;
      var after := ContentFingerprint();
      if after == before { return; }
      generation := generation + 1;
    }

    /** Writes a page and everything derived from it. */
    method Settle(page: seq<Block>, drop: bool, fingerprint: string)
      requires fingerprint == Fingerprint(registry, State())
      modifies this
      ensures var changed := old(State()).(blocks := page);
        State() == Counted(registry, old(State()), Projected(registry, if drop then DropUnowned(changed) else changed))
    {
      hide Fingerprint;
      hide Counted;
      hide Projected;
      hide DropUnowned;
      ghost var was := State();
      blocks := page;
      if drop { DropUnownedPreservedData(); }
      WriteProjections();
      MoveContentGeneration(fingerprint, was);
    }

    /** Writes an arrangement, which touches only what the page shows. */
    method Show(page: seq<Block>)
      modifies this
      ensures State() == WithFacets(old(State()).(blocks := page))
    {
      hide WithFacets;
      blocks := page;
      WriteFacetProjection();
    }

    /** Rewrites one block and leaves every other block untouched. */
    method SaveBlock(id: Id, update: Update) returns (reply: Reply)
      requires PageKept(State())
      modifies this
      ensures Answer(reply, State()) == Edited(registry, old(State()), Edit.Save(id, update))
      ensures if reply == Ok then Leaves(old(State()), State(), Edit.Save(id, update)) else State() == old(State())
      ensures AnswersTo(old(State()), Edit.Save(id, update), reply)
      ensures PageKept(State())
    {
      ghost var was := State();
      assert was.kind == kind && was.blocks == blocks;
      hide *;
      KeptCatalog(was);
      EditedIs(registry, was, Edit.Save(id, update));
      EditOutcome(registry, was, Edit.Save(id, update));
      EditedKeeps(registry, was, Edit.Save(id, update));
      var locked := TakeLock();
      if locked != Ok { return locked; }
      var fingerprint := ContentFingerprint();
      var page: seq<Block>;
      reply, page := Rewrite(DefsOf(kind), blocks, id, update);
      if reply != Ok { return; }
      Settle(page, true, fingerprint);
      CommittedIs(registry, was, Edit.Save(id, update), page);
    }

    /** Puts one optional block at the foot of the page. */
    method AddBlock(definition: DefinitionID, typ: Type, mint: nat -> Id) returns (reply: Reply)
      requires PageKept(State()) && Fresh(mint, Used(blocks))
      modifies this
      ensures Answer(reply, State()) == Edited(registry, old(State()), Edit.Add(definition, typ, mint))
      ensures if reply == Ok then Leaves(old(State()), State(), Edit.Add(definition, typ, mint)) else State() == old(State())
      ensures AnswersTo(old(State()), Edit.Add(definition, typ, mint), reply)
      ensures PageKept(State())
    {
      ghost var was := State();
      assert was.kind == kind && was.blocks == blocks;
      hide *;
      KeptCatalog(was);
      assert EditFresh(was.blocks, Edit.Add(definition, typ, mint)) by { FreshEdit(was.blocks, definition, typ, mint); }
      EditedIs(registry, was, Edit.Add(definition, typ, mint));
      EditOutcome(registry, was, Edit.Add(definition, typ, mint));
      EditedKeeps(registry, was, Edit.Add(definition, typ, mint));
      var locked := TakeLock();
      if locked != Ok { return locked; }
      var fingerprint := ContentFingerprint();
      var page: seq<Block>;
      reply, page := Append(DefsOf(kind), blocks, definition, typ, mint);
      if reply != Ok { return; }
      Settle(page, false, fingerprint);
      CommittedIs(registry, was, Edit.Add(definition, typ, mint), page);
    }

    /** Changes page presentation without changing exported content. */
    method ArrangeBlocks(choices: seq<Choice>) returns (reply: Reply)
      requires PageKept(State())
      modifies this
      ensures Answer(reply, State()) == Edited(registry, old(State()), Edit.Arrange(choices))
      ensures if reply == Ok then Leaves(old(State()), State(), Edit.Arrange(choices)) else State() == old(State())
      ensures AnswersTo(old(State()), Edit.Arrange(choices), reply)
      ensures PageKept(State())
    {
      ghost var was := State();
      assert was.kind == kind && was.blocks == blocks;
      hide *;
      KeptCatalog(was);
      EditedIs(registry, was, Edit.Arrange(choices));
      EditOutcome(registry, was, Edit.Arrange(choices));
      EditedKeeps(registry, was, Edit.Arrange(choices));
      var locked := TakeLock();
      if locked != Ok { return locked; }
      var arranged := Rearrange(DefsOf(kind), blocks, choices);
      ArrangeAccepts(DefsOf(kind), blocks, choices);
      if arranged.None? { return Refused; }
      var ok := ValidateBuilderConstraints(DefsOf(kind), blocks, arranged.value);
      if !ok { return Refused; }
      Show(arranged.value);
      CommittedIs(registry, was, Edit.Arrange(choices), arranged.value);
      return Ok;
    }

    /** Deletes one optional block and closes the gap in page order. */
    method RemoveBlock(id: Id) returns (reply: Reply)
      requires PageKept(State())
      modifies this
      ensures Answer(reply, State()) == Edited(registry, old(State()), Edit.Remove(id))
      ensures if reply == Ok then Leaves(old(State()), State(), Edit.Remove(id)) else State() == old(State())
      ensures AnswersTo(old(State()), Edit.Remove(id), reply)
      ensures PageKept(State())
    {
      ghost var was := State();
      assert was.kind == kind && was.blocks == blocks;
      hide *;
      KeptCatalog(was);
      EditedIs(registry, was, Edit.Remove(id));
      EditOutcome(registry, was, Edit.Remove(id));
      EditedKeeps(registry, was, Edit.Remove(id));
      var locked := TakeLock();
      if locked != Ok { return locked; }
      var fingerprint := ContentFingerprint();
      var closed: seq<Block>;
      reply, closed := Shrink(DefsOf(kind), blocks, id);
      if reply != Ok { return; }
      Settle(closed, true, fingerprint);
      CommittedIs(registry, was, Edit.Remove(id), closed);
    }

    /** Moves unpinned elements, then removes their old block. */
    method MoveBlockContent(sourceId: Id, destinationId: Id) returns (reply: Reply)
      requires PageKept(State())
      modifies this
      ensures Answer(reply, State()) == Edited(registry, old(State()), Edit.Move(sourceId, destinationId))
      ensures if reply == Ok then Leaves(old(State()), State(), Edit.Move(sourceId, destinationId)) else State() == old(State())
      ensures AnswersTo(old(State()), Edit.Move(sourceId, destinationId), reply)
      ensures PageKept(State())
    {
      ghost var was := State();
      assert was.kind == kind && was.blocks == blocks;
      hide *;
      KeptCatalog(was);
      EditedIs(registry, was, Edit.Move(sourceId, destinationId));
      EditOutcome(registry, was, Edit.Move(sourceId, destinationId));
      EditedKeeps(registry, was, Edit.Move(sourceId, destinationId));
      var locked := TakeLock();
      if locked != Ok { return locked; }
      var fingerprint := ContentFingerprint();
      var page: seq<Block>;
      reply, page := Merge(DefsOf(kind), blocks, sourceId, destinationId);
      if reply != Ok { return; }
      Settle(page, true, fingerprint);
      CommittedIs(registry, was, Edit.Move(sourceId, destinationId), page);
    }

    /** Saves the header fields the publish floor reads. */
    method SetIdentity(name: string, answer: Option<bool>) returns (reply: Reply)
      requires PageKept(State())
      modifies this
      ensures Answer(reply, State()) == Identified(registry, old(State()), name, answer)
      ensures reply == Ok <==> |name| <= 200 && !deleted && !withheld && (answer.Some? || draft)
      ensures if reply == Ok then header == old(header).(name := name) && rating == answer else State() == old(State())
      ensures blocks == old(blocks) && preserved == old(preserved) && media == old(media) && cover == old(cover)
      ensures origin == old(origin) && exports == old(exports) && facets == old(facets)
      ensures PageKept(State())
    {
      hide PageKept;
      hide Fingerprint;
      hide Counted;
      ghost var was := State();
      IdentifiedKeeps(registry, was, name, answer);
      if |name| > MAX_NAME_RUNES { return TooLong; }
      var locked := TakeLock();
      if locked != Ok { return locked; }
      if answer.None? && !draft { return Unanswerable; }
      var fingerprint := ContentFingerprint();
      header := header.(name := name);
      rating := answer;
      MoveContentGeneration(fingerprint, was);
      return Ok;
    }

    /** Takes one preserved namespace out of the asset for good. */
    method DeletePreservedNamespace(namespace: string) returns (reply: Reply)
      requires PageKept(State())
      modifies this
      ensures Answer(reply, State()) == NamespaceDeleted(registry, old(State()), namespace)
      ensures reply == Ok <==> !deleted && !withheld && exists row :: row in old(preserved) && row.namespace == namespace
      ensures reply == Ok ==> forall row :: row in preserved <==> row in old(preserved) && row.namespace != namespace
      ensures reply != Ok ==> State() == old(State())
      ensures blocks == old(blocks) && header == old(header) && rating == old(rating) && media == old(media)
      ensures cover == old(cover) && origin == old(origin) && exports == old(exports) && facets == old(facets)
      ensures PageKept(State())
    {
      hide PageKept;
      hide Fingerprint;
      hide Counted;
      ghost var was := State();
      DeletedKeeps(registry, was, namespace);
      var locked := TakeLock();
      if locked != Ok { return locked; }
      var fingerprint := ContentFingerprint();
      var rows := |preserved|;
      var kept := Filter(OutsideNamespace(namespace), preserved);
      FilterKeeps(OutsideNamespace(namespace), preserved);
      forall row ensures row in kept <==> row in preserved && row.namespace != namespace {
        InFilter(OutsideNamespace(namespace), preserved, row);
      }
      hide Filter;
      if |kept| == rows { return Missing; }
      preserved := kept;
      MoveContentGeneration(fingerprint, was);
      return Ok;
    }

    /** Lays a file out as a page, where it may be imported. */
    method LayOut(upload: Upload) returns (page: Option<seq<Block>>)
      ensures page == Imported(kind, upload)
      ensures page == (if (forall e | e in upload.tagged :: WithinLimits(e.content))
                          && (forall row | row in upload.preserved ::
                                row.namespace != "" && row.payload != "" && (row.owner == AssetOwned || row.ownerId != NIL))
                       then Placed(kind, upload.tagged, upload.mint) else None)
    {
      hide Placed;
      hide WithinLimits;
      var limits := ValidateContentLimits(upload.tagged);
      if !limits { return None; }
      for i := 0 to |upload.preserved|
        invariant forall k | 0 <= k < i :: Preservable(upload.preserved[k])
      {
        if !Preservable(upload.preserved[i]) {
          assert upload.preserved[i] in upload.preserved;
          return None;
        }
      }
      page := Place(kind, upload.tagged, upload.mint);
    }

    /** Puts a new revision's content in place of what the asset held. */
    method ReplaceContent(upload: Upload) returns (reply: Reply)
      requires PageKept(State()) && UploadFresh(upload)
      modifies this
      ensures Answer(reply, State()) == Reimported(registry, old(State()), upload)
      ensures reply == Ok ==>
        && Placed(kind, upload.tagged, upload.mint) == Some(blocks)
        && preserved == upload.preserved && media == upload.media && cover == upload.cover && origin == upload.origin
        && header == Header(old(header).name, old(header).blurb, upload.version, upload.author, upload.nickname)
        && rating == old(rating) && exports == Offered(registry, SubjectOf(State()))
      ensures reply != Ok ==> State() == old(State())
      ensures PageKept(State())
    {
      hide PageKept;
      hide UploadFresh;
      hide Imported;
      hide Fingerprint;
      hide Counted;
      hide Projected;
      ghost var was := State();
      hide Offered;
      hide Placed;
      hide WithinLimits;
      hide DefsOf;
      hide MeasureFacets;
      hide ShownElements;
      ReimportedKeeps(registry, was, upload);
      var page := LayOut(upload);
      if page.None? { return Refused; }
      var locked := TakeLock();
      if locked != Ok { return locked; }
      var fingerprint := ContentFingerprint();
      blocks := page.value;
      preserved := upload.preserved;
      media, cover := upload.media, upload.cover;
      origin := upload.origin;
      header := header.(assetVersion := upload.version, creditedAuthor := upload.author, nickname := upload.nickname);
      WriteProjections();
      MoveContentGeneration(fingerprint, was);
      return Ok;
    }

    /** Adds one picture, which may become the cover. */
    method AddPicture(id: Id, blob: Id, part: Part) returns (reply: Reply)
      requires PageKept(State())
      modifies this
      ensures Answer(reply, State()) == Illustrated(registry, old(State()), id, blob, part)
      ensures reply == Ok <==> !deleted && !withheld
      ensures reply == Ok ==>
        && multiset(media) == multiset(old(media)) + multiset{Media(id, blob, true, part)}
        && cover == (if part == Avatar
                        || (part == AvatarAlternate
                            && (old(cover) == NIL || exists m | m in old(media) :: m.id == old(cover) && m.part == AvatarAlternate))
                     then id else old(cover))
      ensures reply != Ok ==> State() == old(State())
      ensures blocks == old(blocks) && preserved == old(preserved) && header == old(header) && rating == old(rating)
      ensures origin == old(origin) && exports == old(exports) && facets == old(facets)
      ensures PageKept(State())
    {
      hide PageKept;
      hide Fingerprint;
      hide Counted;
      hide Insert;
      ghost var was := State();
      IllustratedKeeps(registry, was, id, blob, part);
      var locked := TakeLock();
      if locked != Ok { return locked; }
      var fingerprint := ContentFingerprint();
      var alternate := cover == NIL || exists m | m in media :: m.id == cover && m.part == AvatarAlternate;
      InsertBag(MediaLe, Media(id, blob, true, part), media);
      media := Insert(MediaLe, Media(id, blob, true, part), media);
      match part {
        case Avatar => cover := id;
        case AvatarAlternate => if alternate { cover := id; }
        case NoFace =>
      }
      MoveContentGeneration(fingerprint, was);
      return Ok;
    }
  }
}
