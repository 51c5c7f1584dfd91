/** The rules a saved page is checked against, and what a page keeps. */
module PageRules {
  import opened Sequences
  import opened Blocks
  import opened Catalog

  // ---- one block against its definition -----------------------------------

  ghost predicate BlockFits(defs: seq<Definition>, holder: Block) {
    var d := Find(defs, holder.definition);
    && d.Some?
    && holder.layout in d.value.layouts
    && Columns(holder.width) != 0
    && Columns(MinimumWidth(holder.layout)) <= Columns(holder.width)
  }

  ghost predicate MayRepeat(defs: seq<Definition>, id: DefinitionID) {
    var d := Find(defs, id);
    d.Some? && d.value.repeatable
  }

  ghost predicate BlocksFit(defs: seq<Definition>, page: seq<Block>) {
    && (forall i | 0 <= i < |page| :: BlockFits(defs, page[i]))
    && (forall i, j | 0 <= i < j < |page| && page[i].definition == page[j].definition ::
          MayRepeat(defs, page[i].definition))
  }

  // ---- the elements of a page together ------------------------------------

  predicate RoleFits(element: Element) {
    element.role == NoRole || Allows(element.role, element.typ)
  }

  ghost predicate RolesOnce(elements: seq<Element>) {
    forall r | Singular(r) :: multiset(Roles(elements))[r] <= 1
  }

  ghost predicate ElementsFit(elements: seq<Element>) {
    && Distinct(Ids(elements))
    && (forall e | e in elements :: RoleFits(e))
    && RolesOnce(elements)
  }

  ghost predicate Known(existing: set<Id>, elements: seq<Element>) {
    forall e | e in elements :: e.id in existing
  }

  // ---- pinned elements ----------------------------------------------------

  ghost predicate Holds(holder: Block, original: Element) {
    exists e :: e in holder.elements && e.id == original.id && e.role == original.role && e.typ == original.typ
  }

  ghost predicate PinnedPresent(after: seq<Block>, blockId: Id, original: Element) {
    exists i :: 0 <= i < |after| && after[i].id == blockId && Holds(after[i], original)
  }

  ghost predicate PinnedKept(defs: seq<Definition>, before: seq<Block>, after: seq<Block>) {
    forall i, j | 0 <= i < |before| && 0 <= j < |before[i].elements|
                  && Pinned(defs, before[i], before[i].elements[j].role) ::
      PinnedPresent(after, before[i].id, before[i].elements[j])
  }

  ghost function IdSet(page: seq<Block>): set<Id> {
    set x | x in PageIds(page)
  }

  /** Everything ValidateBuilderConstraints asks of a page and its replacement. */
  ghost predicate BuilderOk(defs: seq<Definition>, before: seq<Block>, after: seq<Block>) {
    && BlocksFit(defs, after)
    && ElementsFit(Flat(after)) && Known(IdSet(before), Flat(after))
    && PinnedKept(defs, before, after)
  }

  // ---- what a page keeps --------------------------------------------------

  ghost predicate Positioned(page: seq<Block>) {
    forall i | 0 <= i < |page| :: page[i].position == i
  }

  ghost predicate RequiredPresent(defs: seq<Definition>, page: seq<Block>) {
    forall k | 0 <= k < |defs| && defs[k].required :: exists i :: 0 <= i < |page| && page[i].definition == defs[k].id
  }

  /** Each pinned element of the block's definition is in the block. */
  ghost predicate PinnedHome(defs: seq<Definition>, holder: Block) {
    var d := Find(defs, holder.definition);
    d.Some? ==>
      forall k | 0 <= k < |d.value.elements| && d.value.elements[k].pinned ::
        exists e :: e in holder.elements && e.role == d.value.elements[k].role && e.typ == d.value.elements[k].typ
  }

  ghost predicate ShownIfRequired(defs: seq<Definition>, holder: Block) {
    var d := Find(defs, holder.definition);
    d.Some? && d.value.required && !d.value.hideable ==> !holder.hidden
  }

  ghost predicate PageOk(defs: seq<Definition>, page: seq<Block>) {
    && Positioned(page)
    && Distinct(BlockIds(page))
    && BlocksFit(defs, page)
    && RequiredPresent(defs, page)
    && (forall i | 0 <= i < |page| :: StructureOk(page[i]))
    && ElementsFit(Flat(page))
    && (forall i | 0 <= i < |page| :: PinnedHome(defs, page[i]) && ShownIfRequired(defs, page[i]))
  }

  // ---- the checks, as the loops that make them ----------------------------

  lemma {:induction false} ElementsFitPrefix(x: seq<Element>, y: seq<Element>)
    requires ElementsFit(x + y)
    ensures ElementsFit(x)
  {
    MapConcat(IdOf, x, y);
    MapConcat(RoleOf, x, y);
    assert Ids(x) == Ids(x + y)[..|x|];
    forall e | e in x ensures RoleFits(e) { assert e in x + y; }
    forall r | Singular(r) ensures multiset(Roles(x))[r] <= 1 {
      assert multiset(Roles(x + y))[r] <= 1;
    }
  }

  lemma {:induction false} ElementsFitSnoc(x: seq<Element>, e: Element)
    ensures ElementsFit(x + [e]) <==>
      ElementsFit(x) && e.id !in Ids(x) && RoleFits(e) && (Singular(e.role) ==> e.role !in Roles(x))
  {
    assert Ids(x + [e]) == Ids(x) + [e.id] && Roles(x + [e]) == Roles(x) + [e.role];
    if ElementsFit(x + [e]) {
      ElementsFitPrefix(x, [e]);
      assert Ids(x + [e])[|x|] == e.id;
      assert e in x + [e];
      forall k | 0 <= k < |x| ensures Ids(x)[k] != e.id {
        assert Ids(x + [e])[k] != Ids(x + [e])[|x|];
      }
      if Singular(e.role) {
        assert multiset(Roles(x + [e]))[e.role] <= 1;
        assert multiset(Roles(x) + [e.role]) == multiset(Roles(x)) + multiset{e.role};
      }
    }
    if ElementsFit(x) && e.id !in Ids(x) && RoleFits(e) && (Singular(e.role) ==> e.role !in Roles(x)) {
      assert Distinct(Ids(x + [e]));
      forall y | y in x + [e] ensures RoleFits(y) { assert y in x || y == e; }
      forall r | Singular(r) ensures multiset(Roles(x) + [e.role])[r] <= 1 {
        assert multiset(Roles(x))[r] <= 1;
      }
    }
  }

  lemma {:induction false} BlocksFitSnoc(defs: seq<Definition>, page: seq<Block>, b: Block)
    ensures BlocksFit(defs, page + [b]) <==>
      && BlocksFit(defs, page) && BlockFits(defs, b)
      && ((exists k :: 0 <= k < |page| && page[k].definition == b.definition) ==> MayRepeat(defs, b.definition))
  {
    hide BlockFits;
    hide MayRepeat;
    var after := page + [b];
    assert forall i | 0 <= i < |page| :: after[i] == page[i];
    assert after[|page|] == b;
    if BlocksFit(defs, after) {
      assert BlockFits(defs, after[|page|]);
      forall i | 0 <= i < |page| ensures BlockFits(defs, page[i]) { assert BlockFits(defs, after[i]); }
      forall i, j | 0 <= i < j < |page| && page[i].definition == page[j].definition
        ensures MayRepeat(defs, page[i].definition)
      {
        assert after[i].definition == after[j].definition;
      }
      forall k | 0 <= k < |page| && page[k].definition == b.definition ensures MayRepeat(defs, b.definition) {
        assert after[k].definition == after[|page|].definition;
      }
    }
  }

  lemma {:induction false} BlocksFitPrefix(defs: seq<Definition>, page: seq<Block>, n: nat)
    requires n <= |page| && BlocksFit(defs, page)
    ensures BlocksFit(defs, page[..n])
  {
    hide BlockFits;
    hide MayRepeat;
    forall i | 0 <= i < n ensures BlockFits(defs, page[..n][i]) { assert BlockFits(defs, page[i]); }
    forall i, j | 0 <= i < j < n && page[..n][i].definition == page[..n][j].definition
      ensures MayRepeat(defs, page[..n][i].definition)
    {
      assert page[i].definition == page[j].definition;
    }
  }

  method CheckBlocks(defs: seq<Definition>, after: seq<Block>) returns (ok: bool)
    ensures ok <==> BlocksFit(defs, after)
  {
    var seen: set<DefinitionID> := {};
    assert BlocksFit(defs, after[..0]);
    hide BlocksFit;
    hide Find;
    hide Columns;
    hide MinimumWidth;
    for i := 0 to |after|
      invariant BlocksFit(defs, after[..i])
      invariant forall id :: id in seen <==> exists k :: 0 <= k < i && after[..i][k].definition == id
    {
      var holder := after[i];
      BlocksFitSnoc(defs, after[..i], holder);
      assert after[..i + 1] == after[..i] + [holder];
      if BlocksFit(defs, after) { BlocksFitPrefix(defs, after, i + 1); }
      var definition := Find(defs, holder.definition);
      if definition.None? { return false; }
      if holder.definition in seen && !definition.value.repeatable { return false; }
      seen := seen + {holder.definition};
      if holder.layout !in definition.value.layouts { return false; }
      if Columns(holder.width) == 0 { return false; }
      if Columns(holder.width) < Columns(MinimumWidth(holder.layout)) { return false; }
    }
    assert after[..|after|] == after;
    return true;
  }

  /** The elements read when the loops of CheckElements reach block i, element j. */
  lemma {:induction false} ReadUpTo(page: seq<Block>, i: nat, j: nat, read: seq<Element>)
    requires i < |page| && j < |page[i].elements|
    requires read == Flat(page[..i]) + page[i].elements[..j]
    ensures exists rest :: Flat(page) == (read + [page[i].elements[j]]) + rest
  {
    var elements := page[i].elements;
    FlatAt(page, i);
    assert elements == elements[..j] + [elements[j]] + elements[j + 1..];
    assert Flat(page) == (read + [elements[j]]) + (elements[j + 1..] + Flat(page[i + 1..]));
  }

  /** A page whose loops reach a misfit is refused as a whole. */
  lemma {:induction false} MisfitRefuses(page: seq<Block>, i: nat, j: nat, read: seq<Element>)
    requires i < |page| && j < |page[i].elements|
    requires read == Flat(page[..i]) + page[i].elements[..j]
    ensures ElementsFit(Flat(page)) ==> ElementsFit(read + [page[i].elements[j]])
    ensures page[i].elements[j] in Flat(page)
  {
    ReadUpTo(page, i, j, read);
    var rest :| Flat(page) == (read + [page[i].elements[j]]) + rest;
    if ElementsFit(Flat(page)) { ElementsFitPrefix(read + [page[i].elements[j]], rest); }
    assert Flat(page)[|read|] == page[i].elements[j];
  }

  function CountOf(counts: map<Role, int>, role: Role): int {
    if role in counts then counts[role] else 0
  }

  /** What the maps of CheckElements hold after reading some elements. */
  ghost predicate Reading(existing: set<Id>, read: seq<Element>, ids: set<Id>, counts: map<Role, int>) {
    && ElementsFit(read) && Known(existing, read)
    && (forall x :: x in ids <==> x in Ids(read))
    && (forall r | r != NoRole :: CountOf(counts, r) == multiset(Roles(read))[r])
  }

  lemma {:induction false} ReadsOne(existing: set<Id>, read: seq<Element>, ids: set<Id>, counts: map<Role, int>, e: Element)
    requires Reading(existing, read, ids, counts)
    ensures ElementsFit(read + [e]) && Known(existing, read + [e]) <==>
      e.id !in ids && e.id in existing && RoleFits(e) && (Singular(e.role) ==> CountOf(counts, e.role) == 0)
    ensures ElementsFit(read + [e]) && Known(existing, read + [e]) ==>
      Reading(existing, read + [e], ids + {e.id},
              if e.role == NoRole then counts else counts[e.role := CountOf(counts, e.role) + 1])
  {
    ElementsFitSnoc(read, e);
    assert Ids(read + [e]) == Ids(read) + [e.id] && Roles(read + [e]) == Roles(read) + [e.role];
    if Known(existing, read + [e]) { assert e in read + [e]; }
    hide ElementsFit;
  }

  lemma {:induction false} ReadingEnds(existing: set<Id>, read: seq<Element>, ids: set<Id>, counts: map<Role, int>)
    requires Reading(existing, read, ids, counts)
    ensures ElementsFit(read) && Known(existing, read)
  {
  }

  lemma {:induction false} KnownMember(existing: set<Id>, page: seq<Block>, i: nat, j: nat, read: seq<Element>)
    requires i < |page| && j < |page[i].elements|
    requires read == Flat(page[..i]) + page[i].elements[..j]
    ensures Known(existing, Flat(page)) ==> Known(existing, read + [page[i].elements[j]])
  {
    ReadUpTo(page, i, j, read);
    var rest :| Flat(page) == (read + [page[i].elements[j]]) + rest;
    forall e | e in read + [page[i].elements[j]] ensures e in Flat(page) {
      assert e in (read + [page[i].elements[j]]) + rest;
    }
  }

  lemma {:induction false} NextBlock(page: seq<Block>, i: nat)
    requires i < |page|
    ensures Flat(page[..i + 1]) == Flat(page[..i]) + page[i].elements[..|page[i].elements|]
  {
    assert page[..i + 1] == page[..i] + [page[i]];
    FlatConcat(page[..i], [page[i]]);
    FlatOne(page[i]);
    assert page[i].elements[..|page[i].elements|] == page[i].elements;
  }

  /** Reads one more element into the maps of CheckElements, or refuses it. */
  method ReadElement(existing: set<Id>, elementIds: set<Id>, roleCount: map<Role, int>, element: Element,
                     ghost read: seq<Element>)
    returns (ok: bool, ids: set<Id>, counts: map<Role, int>)
    requires Reading(existing, read, elementIds, roleCount)
    ensures ok <==> ElementsFit(read + [element]) && Known(existing, read + [element])
    ensures ok ==> Reading(existing, read + [element], ids, counts)
  {
    ids, counts := elementIds, roleCount;
    ReadsOne(existing, read, elementIds, roleCount, element);
    hide Reading;
    hide ElementsFit;
    hide Known;
    if element.id in elementIds { return false, ids, counts; }
    if element.id !in existing { return false, ids, counts; }
    ids := elementIds + {element.id};
    if element.role != NoRole {
      if !Allows(element.role, element.typ) { return false, ids, counts; }
      counts := roleCount[element.role := CountOf(roleCount, element.role) + 1];
      if Singular(element.role) && counts[element.role] > 1 {
        AtLeastOne(existing, read, elementIds, roleCount, element.role);
        return false, ids, counts;
      }
    }
    return true, ids, counts;
  }

  lemma {:induction false} AtLeastOne(existing: set<Id>, read: seq<Element>, ids: set<Id>, counts: map<Role, int>, role: Role)
    requires Reading(existing, read, ids, counts) && role != NoRole
    ensures CountOf(counts, role) >= 0
  {
  }

  method CheckElements(before: seq<Block>, after: seq<Block>) returns (ok: bool)
    ensures ok <==> ElementsFit(Flat(after)) && Known(IdSet(before), Flat(after))
  {
    var existing: set<Id> := set x | x in PageIds(before);
    var roleCount: map<Role, int> := map[];
    var elementIds: set<Id> := {};
    ghost var read: seq<Element> := [];
    assert Reading(existing, read, elementIds, roleCount);
    assert existing == IdSet(before);
    assert Flat(after[..0]) == read;
    hide *;
    for i := 0 to |after|
      invariant read == Flat(after[..i]) && Reading(existing, read, elementIds, roleCount)
    {
      var elements := after[i].elements;
      for j := 0 to |elements|
        invariant read == Flat(after[..i]) + elements[..j]
        invariant Reading(existing, read, elementIds, roleCount)
      {
        MisfitRefuses(after, i, j, read);
        KnownMember(existing, after, i, j, read);
        ok, elementIds, roleCount := ReadElement(existing, elementIds, roleCount, elements[j], read);
        if !ok { return; }
        read := read + [elements[j]];
      }
      NextBlock(after, i);
    }
    assert after[..|after|] == after;
    ReadingEnds(existing, read, elementIds, roleCount);
    return true;
  }

  method PinnedElementPresent(blocks: seq<Block>, blockId: Id, original: Element) returns (present: bool)
    ensures present <==> PinnedPresent(blocks, blockId, original)
  {
    for i := 0 to |blocks|
      invariant forall k | 0 <= k < i :: blocks[k].id == blockId ==> !Holds(blocks[k], original)
    {
      if blocks[i].id != blockId { continue; }
      for j := 0 to |blocks[i].elements|
        invariant forall e | e in blocks[i].elements[..j] ::
          !(e.id == original.id && e.role == original.role && e.typ == original.typ)
      {
        var candidate := blocks[i].elements[j];
        if candidate.id == original.id && candidate.role == original.role && candidate.typ == original.typ {
          assert Holds(blocks[i], original);
          return true;
        }
      }
      assert blocks[i].elements[..|blocks[i].elements|] == blocks[i].elements;
    }
    return false;
  }

  method CheckPins(defs: seq<Definition>, before: seq<Block>, after: seq<Block>) returns (ok: bool)
    ensures ok <==> PinnedKept(defs, before, after)
  {
    for i := 0 to |before|
      invariant forall k, l | 0 <= k < i && 0 <= l < |before[k].elements|
                              && Pinned(defs, before[k], before[k].elements[l].role) ::
        PinnedPresent(after, before[k].id, before[k].elements[l])
    {
      if Find(defs, before[i].definition).None? { continue; }
      for j := 0 to |before[i].elements|
        invariant forall l | 0 <= l < j && Pinned(defs, before[i], before[i].elements[l].role) ::
          PinnedPresent(after, before[i].id, before[i].elements[l])
      {
        if !Pinned(defs, before[i], before[i].elements[j].role) { continue; }
        var present := PinnedElementPresent(after, before[i].id, before[i].elements[j]);
        if !present { return false; }
      }
    }
    return true;
  }

  /** The kind catalog's rules across an asset. */
  method ValidateBuilderConstraints(defs: seq<Definition>, before: seq<Block>, after: seq<Block>)
    returns (ok: bool)
    ensures ok <==> BuilderOk(defs, before, after)
  {
    ok := CheckBlocks(defs, after);
    if !ok { return; }
    ok := CheckElements(before, after);
    if !ok { return; }
    ok := CheckPins(defs, before, after);
  }
}
