/** Laying tagged elements out as the page a kind's catalog declares. */
module Placement {
  import opened Sequences
  import opened Blocks
  import opened Catalog
  import opened PageSteps

  // ---- the layout as a function -------------------------------------------

  datatype Taking = Nobody | One(at: nat) | Several

  predicate Matches(defined: DefinedElement, element: Element) {
    element.role == defined.role && element.typ == defined.typ
  }

  predicate Candidate(defined: DefinedElement, tagged: seq<Element>, placed: seq<bool>, i: nat)
    requires i < |tagged| == |placed|
  {
    !placed[i] && Matches(defined, tagged[i])
  }

  /** What a search of the first n elements takes for a catalog slot. */
  function Taken(defined: DefinedElement, tagged: seq<Element>, placed: seq<bool>, n: nat): (t: Taking)
    requires n <= |tagged| == |placed|
    ensures t.Nobody? ==> forall i | 0 <= i < n :: !Candidate(defined, tagged, placed, i)
    ensures t.One? ==> t.at < n && Candidate(defined, tagged, placed, t.at)
    ensures t.One? ==> forall i | 0 <= i < n && i != t.at :: !Candidate(defined, tagged, placed, i)
    ensures t.Several? ==>
      exists i, j :: 0 <= i < j < n && Candidate(defined, tagged, placed, i) && Candidate(defined, tagged, placed, j)
  {
    if n == 0 then Nobody
    else
      var before := Taken(defined, tagged, placed, n - 1);
      if !Candidate(defined, tagged, placed, n - 1) then before
      else if before.Nobody? then One(n - 1)
      else Several
  }

  /** The elements taken so far, what is marked, and how many ids were minted. */
  datatype Filling = Filling(placed: seq<bool>, minted: nat, elements: seq<Element>)

  function Adopted(element: Element, defined: DefinedElement, minted: Id): Element {
    element.(id := if element.id == NIL then minted else element.id, options := defined.options)
  }

  function FillOne(defined: DefinedElement, tagged: seq<Element>, mint: nat -> Id, f: Filling)
    : (g: Option<Filling>)
    requires |f.placed| == |tagged|
    ensures g.Some? ==> |g.value.placed| == |tagged|
  {
    match Taken(defined, tagged, f.placed, |tagged|)
    case Several => None
    case Nobody =>
      if !defined.pinned then Some(f)
      else Some(Filling(f.placed, f.minted + 1,
                        f.elements + [EmptyElement(defined, mint(f.minted), UnknownSlot)]))
    case One(i) =>
      Some(Filling(f.placed[i := true], if tagged[i].id == NIL then f.minted + 1 else f.minted,
                   f.elements + [Adopted(tagged[i], defined, mint(f.minted))]))
  }

  function Fill(slots: seq<DefinedElement>, tagged: seq<Element>, mint: nat -> Id, f: Filling)
    : (g: Option<Filling>)
    requires |f.placed| == |tagged|
    ensures g.Some? ==> |g.value.placed| == |tagged|
    decreases |slots|
  {
    if slots == [] then Some(f)
    else
      match Fill(slots[..|slots| - 1], tagged, mint, f)
      case None => None
      case Some(g) => FillOne(slots[|slots| - 1], tagged, mint, g)
  }

  datatype Placing = Placing(placed: seq<bool>, minted: nat, blocks: seq<Block>)

  function PlaceOne(d: Definition, tagged: seq<Element>, mint: nat -> Id, p: Placing): (q: Option<Placing>)
    requires |p.placed| == |tagged|
    ensures q.Some? ==> |q.value.placed| == |tagged|
  {
    match Fill(d.elements, tagged, mint, Filling(p.placed, p.minted, []))
    case None => None
    case Some(f) =>
      if f.elements == [] && !d.required then Some(Placing(f.placed, f.minted, p.blocks))
      else
        match LayoutFor(d.layouts, |f.elements|)
        case None => None
        case Some(layout) =>
          Some(Placing(f.placed, f.minted + 1, p.blocks +
                       [Block(mint(f.minted), d.id, None, |p.blocks|, false, layout, d.width,
                              Reslotted(f.elements, Slots(layout)))]))
  }

  function PlaceAll(defs: seq<Definition>, tagged: seq<Element>, mint: nat -> Id): (q: Option<Placing>)
    ensures q.Some? ==> |q.value.placed| == |tagged|
    decreases |defs|
  {
    if defs == [] then Some(Placing(seq(|tagged|, _ => false), 0, []))
    else
      match PlaceAll(defs[..|defs| - 1], tagged, mint)
      case None => None
      case Some(p) => PlaceOne(defs[|defs| - 1], tagged, mint, p)
  }

  function Placed(kind: Kind, tagged: seq<Element>, mint: nat -> Id): Option<seq<Block>> {
    match CatalogOf(kind)
    case None => None
    case Some(defs) =>
      match PlaceAll(defs, tagged, mint)
      case None => None
      case Some(p) => if false in p.placed then None else Some(p.blocks)
  }

  // ---- the layout as the loops that make it -------------------------------

  /** The one unplaced element matching a catalog slot, or -1 for none. */
  method Take(defined: DefinedElement, tagged: seq<Element>, placed: array<bool>)
    returns (ok: bool, found: int)
    requires placed.Length == |tagged|
    ensures var t := Taken(defined, tagged, placed[..], |tagged|);
      if ok then (if found < 0 then t.Nobody? else t == One(found)) else t.Several?
  {
    found := -1;
    for i := 0 to |tagged|
      invariant -1 <= found < i
      invariant var t := Taken(defined, tagged, placed[..], i);
        if found < 0 then t.Nobody? else t == One(found)
    {
      var candidate := tagged[i];
      if placed[i] || candidate.role != defined.role || candidate.typ != defined.typ { continue; }
      if found >= 0 {
        StaysSeveral(defined, tagged, placed[..], i + 1, |tagged|);
        return false, 0;
      }
      found := i;
    }
    return true, found;
  }

  lemma {:induction false} StaysSeveral(defined: DefinedElement, tagged: seq<Element>, placed: seq<bool>, m: nat, n: nat)
    requires m <= n <= |tagged| == |placed| && Taken(defined, tagged, placed, m).Several?
    ensures Taken(defined, tagged, placed, n).Several?
    decreases n
  {
    if m < n { StaysSeveral(defined, tagged, placed, m, n - 1); }
  }

  lemma {:induction false} StaysStuck(slots: seq<DefinedElement>, tagged: seq<Element>, mint: nat -> Id, f: Filling,
                                      n: nat)
    requires |f.placed| == |tagged| && n <= |slots| && Fill(slots[..n], tagged, mint, f).None?
    ensures Fill(slots, tagged, mint, f).None?
    decreases |slots|
  {
    if n < |slots| {
      assert slots[..|slots| - 1][..n] == slots[..n];
      StaysStuck(slots[..|slots| - 1], tagged, mint, f, n);
    } else {
      assert slots[..n] == slots;
    }
  }

  lemma {:induction false} NextSlot(slots: seq<DefinedElement>, tagged: seq<Element>, mint: nat -> Id, f: Filling, i: nat)
    requires |f.placed| == |tagged| && i < |slots|
    ensures Fill(slots[..i + 1], tagged, mint, f) ==
      match Fill(slots[..i], tagged, mint, f)
      case None => None
      case Some(g) => FillOne(slots[i], tagged, mint, g)
  {
    assert slots[..i + 1][..i] == slots[..i];
  }

  /** Takes a definition's elements out of what a source supplied, marking what
      it took. `minted` counts the ids minted so far. */
  method FillDefinition(d: Definition, tagged: seq<Element>, placed: array<bool>, mint: nat -> Id,
                        start: nat)
    returns (elements: Option<seq<Element>>, minted: nat)
    requires placed.Length == |tagged|
    modifies placed
    ensures Fill(d.elements, tagged, mint, Filling(old(placed[..]), start, [])) ==
      match elements case None => None case Some(es) => Some(Filling(placed[..], minted, es))
  {
    var taken: seq<Element> := [];
    minted := start;
    ghost var first := Filling(placed[..], start, []);
    assert Fill(d.elements[..0], tagged, mint, first) == Some(Filling(placed[..], minted, taken));
    hide Fill;
    hide Taken;
    for i := 0 to |d.elements|
      invariant Fill(d.elements[..i], tagged, mint, first) == Some(Filling(placed[..], minted, taken))
    {
      var defined := d.elements[i];
      NextSlot(d.elements, tagged, mint, first, i);
      var ok, found := Take(defined, tagged, placed);
      if !ok {
        StaysStuck(d.elements, tagged, mint, first, i + 1);
        return None, minted;
      }
      if found < 0 {
        if !defined.pinned { continue; }
        taken := taken + [Element(mint(minted), defined.typ, defined.role, UnknownSlot,
                                  defined.options, EmptyContent())];
        minted := minted + 1;
        continue;
      }
      var element := tagged[found];
      if element.typ != defined.typ { assert false; }
      placed[found] := true;
      if element.id == NIL {
        element := element.(id := mint(minted));
        minted := minted + 1;
      }
      element := element.(options := defined.options);
      taken := taken + [element];
    }
    assert d.elements[..|d.elements|] == d.elements;
    return Some(taken), minted;
  }

  lemma {:induction false} StaysUnplaced(defs: seq<Definition>, tagged: seq<Element>, mint: nat -> Id, n: nat)
    requires n <= |defs| && PlaceAll(defs[..n], tagged, mint).None?
    ensures PlaceAll(defs, tagged, mint).None?
    decreases |defs|
  {
    if n < |defs| {
      assert defs[..|defs| - 1][..n] == defs[..n];
      StaysUnplaced(defs[..|defs| - 1], tagged, mint, n);
    } else {
      assert defs[..n] == defs;
    }
  }

  lemma {:induction false} NextDefinition(defs: seq<Definition>, tagged: seq<Element>, mint: nat -> Id, i: nat)
    requires i < |defs|
    ensures PlaceAll(defs[..i + 1], tagged, mint) ==
      match PlaceAll(defs[..i], tagged, mint)
      case None => None
      case Some(p) => PlaceOne(defs[i], tagged, mint, p)
  {
    assert defs[..i + 1][..i] == defs[..i];
  }

  method AssignSlots(elements: seq<Element>, slots: seq<Slot>) returns (slotted: seq<Element>)
    requires |elements| <= |slots|
    ensures slotted == Reslotted(elements, slots)
  {
    slotted := elements;
    for k := 0 to |slotted|
      invariant |slotted| == |elements|
      invariant slotted[..k] == Reslotted(elements, slots)[..k] && slotted[k..] == elements[k..]
    {
      slotted := slotted[k := slotted[k].(slot := slots[k])];
    }
  }

  /** Fills one definition after another, marking what each took. */
  method PlaceDefinitions(definitions: seq<Definition>, tagged: seq<Element>, placed: array<bool>, mint: nat -> Id)
    returns (page: Option<seq<Block>>)
    requires placed.Length == |tagged| && placed[..] == seq(|tagged|, _ => false)
    modifies placed
    ensures page.None? <==> PlaceAll(definitions, tagged, mint).None?
    ensures page.Some? ==>
      && PlaceAll(definitions, tagged, mint).value.placed == placed[..]
      && PlaceAll(definitions, tagged, mint).value.blocks == page.value
  {
    hide Fill;
    hide Slots;
    hide Reslotted;
    hide LayoutFor;
    var blocks: seq<Block> := [];
    var minted: nat := 0;
    assert PlaceAll(definitions[..0], tagged, mint) == Some(Placing(placed[..], minted, blocks));
    hide PlaceAll;
    for i := 0 to |definitions|
      invariant PlaceAll(definitions[..i], tagged, mint) == Some(Placing(placed[..], minted, blocks))
    {
      var definition := definitions[i];
      NextDefinition(definitions, tagged, mint, i);
      var elements, now := FillDefinition(definition, tagged, placed, mint, minted);
      if elements.None? {
        StaysUnplaced(definitions, tagged, mint, i + 1);
        return None;
      }
      minted := now;
      if |elements.value| == 0 && !definition.required { continue; }
      var layout := LayoutFor(definition.layouts, |elements.value|);
      if layout.None? {
        StaysUnplaced(definitions, tagged, mint, i + 1);
        return None;
      }
      var slotted := AssignSlots(elements.value, Slots(layout.value));
      blocks := blocks + [Block(mint(minted), definition.id, None, |blocks|, false, layout.value,
                                definition.width, slotted)];
      minted := minted + 1;
    }
    assert definitions[..|definitions|] == definitions;
    return Some(blocks);
  }

  /** Arranges role-tagged elements into the blocks a kind's catalog declares. */
  method Place(kind: Kind, tagged: seq<Element>, mint: nat -> Id) returns (page: Option<seq<Block>>)
    ensures page == Placed(kind, tagged, mint)
  {
    hide CatalogOf;
    hide PlaceAll;
    var definitions := CatalogOf(kind);
    if definitions.None? { return None; }
    var placed := new bool[|tagged|](_ => false);
    assert placed[..] == seq(|tagged|, _ => false);
    page := PlaceDefinitions(definitions.value, tagged, placed, mint);
    if page.None? { return; }
    for i := 0 to |tagged|
      invariant forall k | 0 <= k < i :: placed[k]
    {
      if !placed[i] {
        assert placed[..][i] == false;
        return None;
      }
    }
  }
}
