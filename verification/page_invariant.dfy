/** Every editor step keeps the page, and the checks inside Move, Remove, Add
    and Arrange refuse exactly what a caller can foresee. */
module PageInvariant {
  import opened Sequences
  import opened Blocks
  import opened Catalog
  import opened PageRules
  import opened PageSteps

  // ---- elements up to their slots -----------------------------------------

  function NoSlot(element: Element): Element { element.(slot := Main) }

  function Faces(elements: seq<Element>): seq<Element> { Map(NoSlot, elements) }

  ghost predicate SameFaces(x: seq<Element>, y: seq<Element>) {
    multiset(Faces(x)) == multiset(Faces(y))
  }

  lemma {:induction false} FacesHave(x: seq<Element>, y: seq<Element>)
    requires SameFaces(x, y)
    ensures forall e | e in x :: exists f :: f in y && NoSlot(f) == NoSlot(e)
  {
    forall e | e in x ensures exists f :: f in y && NoSlot(f) == NoSlot(e) {
      var i :| 0 <= i < |x| && x[i] == e;
      assert Faces(x)[i] in multiset(Faces(x));
      assert NoSlot(e) in Faces(y);
      var j :| 0 <= j < |y| && Faces(y)[j] == NoSlot(e);
      assert y[j] in y;
    }
  }

  lemma {:induction false} FacesFit(x: seq<Element>, y: seq<Element>)
    requires SameFaces(x, y) && ElementsFit(x)
    ensures ElementsFit(y)
  {
    assert Ids(x) == Map(IdOf, Faces(x)) && Ids(y) == Map(IdOf, Faces(y));
    MapPermuted(IdOf, Faces(x), Faces(y));
    PermutedDistinct(Ids(x), Ids(y));
    assert Roles(x) == Map(RoleOf, Faces(x)) && Roles(y) == Map(RoleOf, Faces(y));
    MapPermuted(RoleOf, Faces(x), Faces(y));
    FacesHave(y, x);
    forall e | e in y ensures RoleFits(e) {
      var f :| f in x && NoSlot(f) == NoSlot(e);
      assert RoleFits(NoSlot(f)) && RoleFits(NoSlot(e));
    }
  }

  lemma {:induction false} FacesSplit(x: seq<Element>, y: seq<Element>, z: seq<Element>)
    requires multiset(x) == multiset(y + z)
    ensures multiset(Faces(x)) == multiset(Faces(y)) + multiset(Faces(z))
  {
    MapPermuted(NoSlot, x, y + z);
    MapConcat(NoSlot, y, z);
  }

  // ---- pages with one block changed ---------------------------------------

  lemma {:induction false} FlatWithout(page: seq<Block>, k: nat)
    requires k < |page|
    ensures multiset(Flat(page)) == multiset(Flat(Without(page, k)) + page[k].elements)
  {
    FlatAt(page, k);
    FlatConcat(page[..k], page[k + 1..]);
  }

  lemma {:induction false} FlatReplace(page: seq<Block>, k: nat, holder: Block)
    requires k < |page|
    ensures Flat(page[k := holder]) == Flat(page[..k]) + holder.elements + Flat(page[k + 1..])
  {
    var after := page[k := holder];
    FlatAt(after, k);
    assert after[..k] == page[..k] && after[k + 1..] == page[k + 1..];
  }

  lemma {:induction false} FlatOfSameElements(p: seq<Block>, q: seq<Block>)
    requires |p| == |q| && forall i | 0 <= i < |p| :: p[i].elements == q[i].elements
    ensures Flat(p) == Flat(q)
  {
    assert Map(ElementsOf, p) == Map(ElementsOf, q);
  }

  lemma {:induction false} WithoutAt'(page: seq<Block>, k: nat)
    requires k < |page|
    ensures var w := Without(page, k);
      && |w| == |page| - 1
      && (forall i | 0 <= i < |page| && i != k :: w[if i < k then i else i - 1] == page[i])
      && (forall i | 0 <= i < |w| :: w[i] == page[if i < k then i else i + 1])
  {
    var w := Without(page, k);
    forall i | 0 <= i < |w| ensures w[i] == page[if i < k then i else i + 1] {
      if i < k { assert w[i] == page[..k][i]; } else { assert w[i] == page[k + 1..][i - k]; }
    }
    hide Without;
    forall i | 0 <= i < |page| && i != k ensures w[if i < k then i else i - 1] == page[i] {}
  }

  // ---- pins and the catalog -----------------------------------------------

  lemma {:induction false} DefinitionHolds(defs: seq<Definition>, id: DefinitionID)
    requires CatalogOk(defs) && Find(defs, id).Some?
    ensures DefinitionOk(Find(defs, id).value)
  {
    var d := Find(defs, id).value;
    var i :| 0 <= i < |defs| && defs[i] == d;
  }

  lemma {:induction false} OneOfEach(defs: seq<Definition>, i: nat, j: nat)
    requires CatalogOk(defs) && i < |defs| && j < |defs| && defs[i].id == defs[j].id
    ensures i == j
  {
  }

  lemma {:induction false} FindAt(defs: seq<Definition>, i: nat)
    requires CatalogOk(defs) && i < |defs|
    ensures Find(defs, defs[i].id) == Some(defs[i])
  {
    assert defs[i] in defs;
    var d := Find(defs, defs[i].id);
    var j :| 0 <= j < |defs| && defs[j] == d.value;
    OneOfEach(defs, i, j);
  }

  lemma {:induction false} OnlyRequiredPin(defs: seq<Definition>, holder: Block, role: Role)
    requires CatalogOk(defs) && Pinned(defs, holder, role)
    ensures IsRequired(defs, holder)
  {
    DefinitionHolds(defs, holder.definition);
    var d := Find(defs, holder.definition).value;
    var e := ElementFor(d.elements, role).value;
    var k :| 0 <= k < |d.elements| && d.elements[k] == e;
    hide LayoutsOk;
  }

  lemma {:induction false} PinnedByRole(defs: seq<Definition>, holder: Block, k: nat)
    requires CatalogOk(defs) && Find(defs, holder.definition).Some?
    requires k < |Find(defs, holder.definition).value.elements|
    requires Find(defs, holder.definition).value.elements[k].pinned
    ensures Pinned(defs, holder, Find(defs, holder.definition).value.elements[k].role)
  {
    DefinitionHolds(defs, holder.definition);
    var d := Find(defs, holder.definition).value;
    var role := d.elements[k].role;
    assert role != NoRole;
    assert d.elements[k] in d.elements;
    var e := ElementFor(d.elements, role).value;
    var j :| 0 <= j < |d.elements| && d.elements[j] == e;
    assert j == k;
    hide LayoutsOk;
  }

  lemma {:induction false} SameBlock(after: seq<Block>, m: nat, n: nat)
    requires Distinct(BlockIds(after)) && m < |after| && n < |after| && after[m].id == after[n].id
    ensures m == n
  {
    DistinctAt(BlockIds(after), m, n);
  }

  /** A block keeps its pinned elements through any accepted change. */
  lemma {:induction false} PinnedHomeKept(defs: seq<Definition>, before: seq<Block>, after: seq<Block>, i: nat, m: nat)
    requires CatalogOk(defs) && i < |before| && m < |after|
    requires PinnedHome(defs, before[i]) && PinnedKept(defs, before, after)
    requires before[i].id == after[m].id && before[i].definition == after[m].definition
    requires Distinct(BlockIds(after))
    ensures PinnedHome(defs, after[m])
  {
    var d := Find(defs, after[m].definition);
    if d.Some? {
      forall k | 0 <= k < |d.value.elements| && d.value.elements[k].pinned
        ensures exists e :: e in after[m].elements && e.role == d.value.elements[k].role
                            && e.typ == d.value.elements[k].typ
      {
        var e :| e in before[i].elements && e.role == d.value.elements[k].role
                 && e.typ == d.value.elements[k].typ;
        var j :| 0 <= j < |before[i].elements| && before[i].elements[j] == e;
        PinnedByRole(defs, before[i], k);
        var n :| 0 <= n < |after| && after[n].id == before[i].id && Holds(after[n], e);
        SameBlock(after, m, n);
      }
    }
  }

  lemma {:induction false} PageFromParts(defs: seq<Definition>, page: seq<Block>)
    requires Positioned(page) && Distinct(BlockIds(page)) && RequiredPresent(defs, page)
    requires BlocksFit(defs, page) && ElementsFit(Flat(page))
    requires forall i | 0 <= i < |page| ::
      StructureOk(page[i]) && PinnedHome(defs, page[i]) && ShownIfRequired(defs, page[i])
    ensures PageOk(defs, page)
  {
    hide Positioned;
    hide Distinct;
    hide RequiredPresent;
    hide BlocksFit;
    hide ElementsFit;
    hide Flat;
    hide StructureOk;
    hide PinnedHome;
    hide ShownIfRequired;
    hide BlockIds;
  }

  // ---- each step keeps the page -------------------------------------------

  /** Another content for one block leaves the shape of the page. */
  lemma {:induction false} OneReplaced(defs: seq<Definition>, page: seq<Block>, i: nat, b: Block)
    requires i < |page| && b.id == page[i].id && b.definition == page[i].definition && b.position == page[i].position
    ensures var after := page[i := b];
      && BlockIds(after) == BlockIds(page)
      && (Positioned(page) ==> Positioned(after))
      && (RequiredPresent(defs, page) ==> RequiredPresent(defs, after))
  {
    var after := page[i := b];
    if RequiredPresent(defs, page) {
      forall k | 0 <= k < |defs| && defs[k].required
        ensures exists m :: 0 <= m < |after| && after[m].definition == defs[k].id
      {
        var m :| 0 <= m < |page| && page[m].definition == defs[k].id;
        assert after[m].definition == defs[k].id;
      }
    }
  }

  /** What an accepted save is. */
  lemma {:induction false} SavedPage(defs: seq<Definition>, page: seq<Block>, id: Id, update: Update)
    requires SavePage(defs, page, id, update).Done?
    ensures IndexOf(page, id).Some?
    ensures var i := IndexOf(page, id).value;
      var b := Saved(page[i], update);
      var after := page[i := b];
      && SavePage(defs, page, id, update).value == after && StructureOk(b)
      && b.id == page[i].id && b.definition == page[i].definition && b.position == page[i].position && b.hidden == page[i].hidden
      && BlocksFit(defs, after) && ElementsFit(Flat(after)) && PinnedKept(defs, page, after)
  {
    hide StructureOk;
    hide BlocksFit;
    hide ElementsFit;
    hide PinnedKept;
    hide Known;
    hide Flat;
    hide IndexOf;
  }

  lemma {:induction false} SaveKeepsPage(defs: seq<Definition>, page: seq<Block>, id: Id, update: Update)
    requires CatalogOk(defs) && PageOk(defs, page)
    requires SavePage(defs, page, id, update).Done?
    ensures PageOk(defs, SavePage(defs, page, id, update).value)
  {
    hide CatalogOk;
    hide SavePage;
    hide StructureOk;
    hide BlocksFit;
    hide ElementsFit;
    hide PinnedHome;
    hide PinnedKept;
    hide Flat;
    hide Saved;
    hide Positioned;
    hide RequiredPresent;
    hide IndexOf;
    SavedPage(defs, page, id, update);
    var i := IndexOf(page, id).value;
    var after := page[i := Saved(page[i], update)];
    OneReplaced(defs, page, i, Saved(page[i], update));
    forall m | 0 <= m < |after|
      ensures StructureOk(after[m]) && PinnedHome(defs, after[m]) && ShownIfRequired(defs, after[m])
    {
      assert m != i ==> after[m] == page[m];
      if m == i { PinnedHomeKept(defs, page, after, m, m); }
    }
    hide Distinct;
    hide BlockIds;
  }

  lemma {:induction false} NewBlockUnpinned(defs: seq<Definition>, page: seq<Block>, id: DefinitionID,
                                            typ: Type, mint: nat -> Id)
    requires CatalogOk(defs) && NewBlock(defs, id, typ, page, mint).Done?
    ensures var added := NewBlock(defs, id, typ, page, mint).value;
      && PinnedHome(defs, added) && !added.hidden && added.position == |page|
      && exists i: nat :: added.id == mint(i)
  {
    DefinitionHolds(defs, id);
    hide LayoutsOk;
    var added := NewBlock(defs, id, typ, page, mint).value;
    assert added.id == mint(|added.elements|);
  }

  /** What an accepted addition is. */
  lemma {:induction false} AddedPage(defs: seq<Definition>, page: seq<Block>, id: DefinitionID, typ: Type,
                                     mint: nat -> Id)
    requires AddPage(defs, page, id, typ, mint).Done?
    ensures NewBlock(defs, id, typ, page, mint).Done?
    ensures var added := NewBlock(defs, id, typ, page, mint).value;
      var after := page + [added];
      && AddPage(defs, page, id, typ, mint).value == after && StructureOk(added)
      && BlocksFit(defs, after) && ElementsFit(Flat(after))
  {
    hide NewBlock;
    hide StructureOk;
    hide BlocksFit;
    hide ElementsFit;
    hide Flat;
  }

  lemma {:induction false} OneMoreBlock(defs: seq<Definition>, page: seq<Block>, added: Block)
    requires PageOk(defs, page) && added.position == |page| && added.id !in BlockIds(page)
    requires StructureOk(added) && PinnedHome(defs, added) && !added.hidden
    requires BlocksFit(defs, page + [added]) && ElementsFit(Flat(page + [added]))
    ensures PageOk(defs, page + [added])
  {
    hide StructureOk;
    hide ElementsFit;
    hide BlocksFit;
    hide PinnedHome;
    hide Flat;
    var after := page + [added];
    assert BlockIds(after) == BlockIds(page) + [added.id];
    forall k | 0 <= k < |defs| && defs[k].required
      ensures exists m :: 0 <= m < |after| && after[m].definition == defs[k].id
    {
      var m :| 0 <= m < |page| && page[m].definition == defs[k].id;
      assert after[m].definition == defs[k].id;
    }
    forall m | 0 <= m < |after|
      ensures StructureOk(after[m]) && PinnedHome(defs, after[m]) && ShownIfRequired(defs, after[m])
    {
      assert m < |page| ==> after[m] == page[m];
    }
  }

  lemma {:induction false} AddKeepsPage(defs: seq<Definition>, page: seq<Block>, id: DefinitionID, typ: Type,
                     mint: nat -> Id)
    requires CatalogOk(defs) && PageOk(defs, page) && Fresh(mint, Used(page))
    requires AddPage(defs, page, id, typ, mint).Done?
    ensures PageOk(defs, AddPage(defs, page, id, typ, mint).value)
  {
    hide CatalogOk;
    hide AddPage;
    hide NewBlock;
    hide PageOk;
    hide StructureOk;
    hide ElementsFit;
    hide BlocksFit;
    hide PinnedHome;
    hide Flat;
    AddedPage(defs, page, id, typ, mint);
    NewBlockUnpinned(defs, page, id, typ, mint);
    var added := NewBlock(defs, id, typ, page, mint).value;
    var i: nat :| added.id == mint(i);
    assert mint(i) !in Used(page);
    OneMoreBlock(defs, page, added);
  }

  lemma {:induction false} ChoicesCover(page: seq<Block>, choices: seq<Choice>, m: nat)
    requires Distinct(BlockIds(page)) && Distinct(ChoiceIds(choices)) && |choices| == |page|
    requires forall i | 0 <= i < |choices| :: IndexOf(page, choices[i].id).Some?
    requires m < |page|
    ensures multiset(ChoiceIds(choices)) == multiset(BlockIds(page))
    ensures exists i :: 0 <= i < |choices| && IndexOf(page, choices[i].id) == Some(m)
  {
    var chosen, ids := ChoiceIds(choices), BlockIds(page);
    forall x | x in chosen ensures x in ids {
      var i :| 0 <= i < |choices| && choices[i].id == x;
      assert ids[IndexOf(page, x).value] == x;
    }
    DistinctMembersPermute(chosen, ids);
    assert ids[m] in multiset(ids);
    assert ids[m] in chosen;
    var i :| 0 <= i < |choices| && chosen[i] == ids[m];
    SameBlock(page, m, IndexOf(page, choices[i].id).value);
  }

  lemma {:induction false} ArrangeKeepsRequired(defs: seq<Definition>, page: seq<Block>, choices: seq<Choice>)
    requires Distinct(BlockIds(page)) && RequiredPresent(defs, page) && ChoicesOk(defs, page, choices)
    ensures RequiredPresent(defs, ArrangedPage(page, choices))
  {
    var after := ArrangedPage(page, choices);
    forall k | 0 <= k < |defs| && defs[k].required
      ensures exists i :: 0 <= i < |after| && after[i].definition == defs[k].id
    {
      var m :| 0 <= m < |page| && page[m].definition == defs[k].id;
      ChoicesCover(page, choices, m);
      var i :| 0 <= i < |choices| && IndexOf(page, choices[i].id) == Some(m);
      assert after[i].definition == defs[k].id;
    }
  }

  lemma {:induction false} ArrangedBlock(defs: seq<Definition>, page: seq<Block>, choice: Choice, position: nat)
    requires ChoiceOk(defs, page, choice)
    requires forall i | 0 <= i < |page| ::
      StructureOk(page[i]) && PinnedHome(defs, page[i]) && ShownIfRequired(defs, page[i])
    ensures var b := Arranged(page, choice, position);
      StructureOk(b) && PinnedHome(defs, b) && ShownIfRequired(defs, b)
  {
    var m := IndexOf(page, choice.id).value;
    assert StructureOk(page[m]) && PinnedHome(defs, page[m]) && ShownIfRequired(defs, page[m]);
  }

  lemma {:induction false} ArrangeKeepsPage(defs: seq<Definition>, page: seq<Block>, choices: seq<Choice>)
    requires CatalogOk(defs) && PageOk(defs, page)
    requires ArrangePage(defs, page, choices).Done?
    ensures PageOk(defs, ArrangePage(defs, page, choices).value)
  {
    hide CatalogOk;
    hide StructureOk;
    hide PinnedHome;
    hide ShownIfRequired;
    hide RequiredPresent;
    hide BlocksFit;
    hide ElementsFit;
    hide PinnedKept;
    hide Flat;
    hide IndexOf;
    var after := ArrangedPage(page, choices);
    assert ArrangePage(defs, page, choices).value == after && Positioned(after);
    assert BlockIds(after) == ChoiceIds(choices);
    ArrangeKeepsRequired(defs, page, choices);
    forall i | 0 <= i < |after|
      ensures StructureOk(after[i]) && PinnedHome(defs, after[i]) && ShownIfRequired(defs, after[i])
    {
      ArrangedBlock(defs, page, choices[i], i);
    }
    hide *;
    PageFromParts(defs, after);
  }

  lemma {:induction false} PositionIsNothing(defs: seq<Definition>, holder: Block, position: int)
    ensures var moved := holder.(position := position);
      && (StructureOk(holder) ==> StructureOk(moved))
      && (PinnedHome(defs, holder) ==> PinnedHome(defs, moved))
      && (ShownIfRequired(defs, holder) ==> ShownIfRequired(defs, moved))
      && (BlockFits(defs, holder) <==> BlockFits(defs, moved))
  {
  }

  lemma {:induction false} BlocksFitRenumbered(defs: seq<Definition>, page: seq<Block>)
    ensures BlocksFit(defs, page) <==> BlocksFit(defs, Renumber(page))
  {
    var after := Renumber(page);
    forall i | 0 <= i < |page| ensures BlockFits(defs, page[i]) <==> BlockFits(defs, after[i]) {
      PositionIsNothing(defs, page[i], i);
    }
    forall i | 0 <= i < |page| ensures page[i].definition == after[i].definition {
    }
    hide Renumber;
  }

  lemma {:induction false} ClosingKeepsIds(page: seq<Block>, k: nat)
    requires k < |page| && Distinct(BlockIds(page))
    ensures Distinct(BlockIds(Renumber(Without(page, k)))) && Positioned(Renumber(Without(page, k)))
  {
    hide Without;
    var w := Without(page, k);
    WithoutAt'(page, k);
    var before, ids := BlockIds(page), BlockIds(Renumber(w));
    forall i | 0 <= i < |ids| ensures ids[i] == before[if i < k then i else i + 1] {
      assert Renumber(w)[i] == w[i].(position := i);
    }
    hide Renumber;
    hide BlockIds;
    forall i, j | 0 <= i < j < |ids| ensures ids[i] != ids[j] {
      assert before[if i < k then i else i + 1] != before[if j < k then j else j + 1];
    }
  }

  lemma {:induction false} ClosingKeepsBlocks(defs: seq<Definition>, page: seq<Block>, k: nat)
    requires k < |page|
    requires forall i | 0 <= i < |page| ::
      StructureOk(page[i]) && PinnedHome(defs, page[i]) && ShownIfRequired(defs, page[i])
    ensures var after := Renumber(Without(page, k));
      forall i | 0 <= i < |after| ::
        StructureOk(after[i]) && PinnedHome(defs, after[i]) && ShownIfRequired(defs, after[i])
  {
    var after := Renumber(Without(page, k));
    WithoutAt'(page, k);
    hide *;
    forall i | 0 <= i < |after|
      ensures StructureOk(after[i]) && PinnedHome(defs, after[i]) && ShownIfRequired(defs, after[i])
    {
      PositionIsNothing(defs, page[if i < k then i else i + 1], i);
    }
  }

  lemma {:induction false} ClosingKeepsRequired(defs: seq<Definition>, page: seq<Block>, k: nat)
    requires CatalogOk(defs) && k < |page| && !IsRequired(defs, page[k]) && RequiredPresent(defs, page)
    ensures RequiredPresent(defs, Renumber(Without(page, k)))
  {
    var after := Renumber(Without(page, k));
    WithoutAt'(page, k);
    hide Without;
    forall n | 0 <= n < |defs| && defs[n].required
      ensures exists i :: 0 <= i < |after| && after[i].definition == defs[n].id
    {
      var m :| 0 <= m < |page| && page[m].definition == defs[n].id;
      FindAt(defs, n);
      assert m != k;
      assert after[if m < k then m else m - 1].definition == defs[n].id;
    }
  }

  /** Closing the gap after a removed optional block keeps the rest of the page. */
  lemma {:induction false} ClosingKeepsPage(defs: seq<Definition>, page: seq<Block>, k: nat)
    requires CatalogOk(defs) && k < |page| && !IsRequired(defs, page[k])
    requires Distinct(BlockIds(page)) && RequiredPresent(defs, page)
    requires forall i | 0 <= i < |page| ::
      StructureOk(page[i]) && PinnedHome(defs, page[i]) && ShownIfRequired(defs, page[i])
    requires BlocksFit(defs, Without(page, k)) && ElementsFit(Flat(Without(page, k)))
    ensures PageOk(defs, Renumber(Without(page, k)))
  {
    hide *;
    var w, after := Without(page, k), Renumber(Without(page, k));
    ClosingKeepsIds(page, k);
    ClosingKeepsRequired(defs, page, k);
    ClosingKeepsBlocks(defs, page, k);
    BlocksFitRenumbered(defs, w);
    FlatOfSameElements(after, w);
    PageFromParts(defs, after);
  }

  lemma {:induction false} RemoveKeepsPage(defs: seq<Definition>, page: seq<Block>, id: Id)
    requires CatalogOk(defs) && PageOk(defs, page)
    requires RemovePage(defs, page, id).Done?
    ensures PageOk(defs, RemovePage(defs, page, id).value)
  {
    ClosingKeepsPage(defs, page, IndexOf(page, id).value);
  }

  lemma {:induction false} MoveKeepsPage(defs: seq<Definition>, page: seq<Block>, sourceId: Id, destinationId: Id)
    requires CatalogOk(defs) && PageOk(defs, page)
    requires MovePage(defs, page, sourceId, destinationId).Done?
    ensures PageOk(defs, MovePage(defs, page, sourceId, destinationId).value)
  {
    hide CatalogOk;
    hide MovePage;
    hide StructureOk;
    hide BlocksFit;
    hide ElementsFit;
    hide PinnedHome;
    hide Flat;
    hide Filled;
    hide FreeSlots;
    hide Positioned;
    hide RequiredPresent;
    hide IndexOf;
    hide IsRequired;
    MovedPage(defs, page, sourceId, destinationId);
    var s := IndexOf(page, sourceId).value;
    var d := IndexOf(page, destinationId).value;
    var before := page[d := Filled(page[s], page[d])];
    OneReplaced(defs, page, d, Filled(page[s], page[d]));
    forall i | 0 <= i < |before|
      ensures StructureOk(before[i]) && PinnedHome(defs, before[i]) && ShownIfRequired(defs, before[i])
    {
      assert i != d ==> before[i] == page[i];
      if i == d { FilledKeepsPins(defs, page[s], page[d]); }
    }
    hide PageOk;
    hide Distinct;
    hide BlockIds;
    FlatOfSameElements(Renumber(Without(before, s)), Without(before, s));
    BlocksFitRenumbered(defs, Without(before, s));
    ClosingKeepsPage(defs, before, s);
  }

  /** What an accepted move is. */
  lemma {:induction false} MovedPage(defs: seq<Definition>, page: seq<Block>, sourceId: Id, destinationId: Id)
    requires MovePage(defs, page, sourceId, destinationId).Done?
    ensures var s, d := IndexOf(page, sourceId), IndexOf(page, destinationId);
      && s.Some? && d.Some? && s.value != d.value && |page[s.value].elements| <= |FreeSlots(page[d.value])|
      && !IsRequired(defs, page[s.value])
      && var b := Filled(page[s.value], page[d.value]);
      && b.id == page[d.value].id && b.definition == page[d.value].definition && b.position == page[d.value].position
      && b.hidden == page[d.value].hidden && StructureOk(b)
      && var after := Renumber(Without(page[d.value := b], s.value));
      && MovePage(defs, page, sourceId, destinationId).value == after
      && BlocksFit(defs, after) && ElementsFit(Flat(after))
  {
    hide StructureOk;
    hide BlocksFit;
    hide ElementsFit;
    hide PinnedKept;
    hide Known;
    hide Flat;
    hide FreeSlots;
    hide Reslotted;
    hide Renumber;
    hide Without;
  }

  lemma {:induction false} FilledKeepsPins(defs: seq<Definition>, source: Block, destination: Block)
    requires |source.elements| <= |FreeSlots(destination)| && PinnedHome(defs, destination)
    ensures PinnedHome(defs, Filled(source, destination))
  {
    var d := Find(defs, destination.definition);
    if d.Some? {
      forall k | 0 <= k < |d.value.elements| && d.value.elements[k].pinned
        ensures exists e :: e in Filled(source, destination).elements
                            && e.role == d.value.elements[k].role && e.typ == d.value.elements[k].typ
      {
        var e :| e in destination.elements && e.role == d.value.elements[k].role
                 && e.typ == d.value.elements[k].typ;
        assert e in Filled(source, destination).elements;
      }
    }
  }

  lemma {:induction false} EditKeepsPage(defs: seq<Definition>, page: seq<Block>, edit: Edit)
    requires CatalogOk(defs) && PageOk(defs, page) && EditFresh(page, edit)
    ensures PageOk(defs, After(defs, page, edit))
  {
    hide CatalogOk;
    hide PageOk;
    if EditPage(defs, page, edit).Done? {
      match edit
      case Save(id, update) => SaveKeepsPage(defs, page, id, update);
      case Add(definition, typ, mint) => AddKeepsPage(defs, page, definition, typ, mint);
      case Arrange(choices) => ArrangeKeepsPage(defs, page, choices);
      case Remove(id) => RemoveKeepsPage(defs, page, id);
      case Move(sourceId, destinationId) => MoveKeepsPage(defs, page, sourceId, destinationId);
    }
  }

  // ---- whole runs ---------------------------------------------------------

  ghost function Run(defs: seq<Definition>, page: seq<Block>, edits: seq<Edit>): seq<Block>
    decreases |edits|
  {
    if edits == [] then page else Run(defs, After(defs, page, edits[0]), edits[1..])
  }

  ghost predicate RunFresh(defs: seq<Definition>, page: seq<Block>, edits: seq<Edit>)
    decreases |edits|
  {
    edits == [] ||
    (EditFresh(page, edits[0]) && RunFresh(defs, After(defs, page, edits[0]), edits[1..]))
  }

  /** The page invariant holds after any run of edits, accepted or refused. */
  lemma {:induction false} RunKeepsPage(defs: seq<Definition>, page: seq<Block>, edits: seq<Edit>)
    requires CatalogOk(defs) && PageOk(defs, page) && RunFresh(defs, page, edits)
    ensures PageOk(defs, Run(defs, page, edits))
    decreases |edits|
  {
    hide CatalogOk;
    hide PageOk;
    if edits != [] {
      EditKeepsPage(defs, page, edits[0]);
      RunKeepsPage(defs, After(defs, page, edits[0]), edits[1..]);
    }
  }
}
