/** The counts a catalog listing filters on, measured on what a page shows. */
module Facets {
  import opened Sequences
  import opened Blocks
  import opened Catalog

  datatype FacetKey =
    | LorebookFacet | AlternateGreetings | ExpressionsFacet | GalleryFacet | VariablesFacet
    | RegexScriptsFacet | ItemsFacet

  datatype Facet = Facet(key: FacetKey, role: Role, typ: Type, alternates: bool)

  function FacetsOf(kind: Kind): seq<Facet> {
    match kind
    case CharacterKind =>
      [Facet(LorebookFacet, LorebookEntries, EntryTable, false),
       Facet(AlternateGreetings, Greetings, TextSet, true),
       Facet(ExpressionsFacet, ExpressionImages, ImageSet, false),
       Facet(GalleryFacet, GalleryImages, ImageSet, false)]
    case PresetKind =>
      [Facet(VariablesFacet, PromptVariables, VariableSchema, false),
       Facet(RegexScriptsFacet, RegexScripts, ScriptList, false)]
    case PackKind => [Facet(ItemsFacet, PackItems, RecordList, false)]
    case _ => []
  }

  function CountWritten(items: seq<Item>): nat {
    if items == [] then 0 else (if items[0].blank then 0 else 1) + CountWritten(items[1..])
  }

  /** What one element adds to a facet: its items, or the texts past the first. */
  function Measure(facet: Facet, element: Element): nat {
    if element.role != facet.role || element.typ != facet.typ then 0
    else if facet.alternates then
      var written := CountWritten(element.content.items);
      if written == 0 then 0 else written - 1
    else |element.content.items|
  }

  function Total(facet: Facet, elements: seq<Element>): nat {
    if elements == [] then 0 else Measure(facet, elements[0]) + Total(facet, elements[1..])
  }

  function MeasureAll(facets: seq<Facet>, elements: seq<Element>): map<FacetKey, nat> {
    if facets == [] then map[]
    else
      var last := facets[|facets| - 1];
      MeasureAll(facets[..|facets| - 1], elements)[last.key := Total(last, elements)]
  }

  function MeasureFacets(kind: Kind, elements: seq<Element>): map<FacetKey, nat> {
    MeasureAll(FacetsOf(kind), elements)
  }

  function ShownElements(page: seq<Block>): seq<Element> {
    if page == [] then []
    else (if page[0].hidden then [] else page[0].elements) + ShownElements(page[1..])
  }

  // ---- the same as loops --------------------------------------------------

  lemma {:induction false} TotalConcat(facet: Facet, x: seq<Element>, y: seq<Element>)
    ensures Total(facet, x + y) == Total(facet, x) + Total(facet, y)
  {
    if x == [] {
      assert x + y == y;
    } else {
      TotalConcat(facet, x[1..], y);
      assert (x + y)[1..] == x[1..] + y && (x + y)[0] == x[0];
    }
  }

  lemma {:induction false} CountConcat(x: seq<Item>, y: seq<Item>)
    ensures CountWritten(x + y) == CountWritten(x) + CountWritten(y)
  {
    if x == [] {
      assert x + y == y;
    } else {
      CountConcat(x[1..], y);
      assert (x + y)[1..] == x[1..] + y && (x + y)[0] == x[0];
    }
  }

  /** Where something is written. */
  function WrittenAt(items: seq<Item>): set<nat> {
    set i: nat | i < |items| && !items[i].blank
  }

  lemma {:induction false} CountIsWritten(items: seq<Item>)
    ensures CountWritten(items) == |WrittenAt(items)|
  {
    if items == [] {
      assert WrittenAt(items) == {};
    } else {
      var n := |items| - 1;
      assert items == items[..n] + [items[n]];
      CountConcat(items[..n], [items[n]]);
      assert CountWritten([items[n]]) == if items[n].blank then 0 else 1;
      CountIsWritten(items[..n]);
      assert WrittenAt(items) == WrittenAt(items[..n]) + if items[n].blank then {} else {n};
    }
  }

  lemma {:induction false} ShownConcat(p: seq<Block>, q: seq<Block>)
    ensures ShownElements(p + q) == ShownElements(p) + ShownElements(q)
  {
    if p == [] {
      assert p + q == q;
    } else {
      ShownConcat(p[1..], q);
      assert (p + q)[1..] == p[1..] + q && (p + q)[0] == p[0];
    }
  }

  method MeasureElement(facet: Facet, element: Element) returns (count: nat)
    requires element.role == facet.role
    ensures count == Measure(facet, element)
    ensures count ==
      if element.typ != facet.typ then 0
      else if !facet.alternates then |element.content.items|
      else if WrittenAt(element.content.items) == {} then 0
      else |WrittenAt(element.content.items)| - 1
  {
    CountIsWritten(element.content.items);
    if element.typ != facet.typ { return 0; }
    if !facet.alternates { return |element.content.items|; }
    var items := element.content.items;
    var written := 0;
    for i := 0 to |items|
      invariant written == CountWritten(items[..i])
    {
      assert items[..i + 1] == items[..i] + [items[i]];
      CountConcat(items[..i], [items[i]]);
      if !items[i].blank { written := written + 1; }
    }
    assert items[..|items|] == items;
    return if written == 0 then 0 else written - 1;
  }

  method CountFacet(facet: Facet, elements: seq<Element>) returns (total: nat)
    ensures total == Total(facet, elements)
  {
    total := 0;
    for i := 0 to |elements|
      invariant total == Total(facet, elements[..i])
    {
      assert elements[..i + 1] == elements[..i] + [elements[i]];
      TotalConcat(facet, elements[..i], [elements[i]]);
      assert Total(facet, [elements[i]]) == Measure(facet, elements[i]) + Total(facet, []);
      if elements[i].role != facet.role { continue; }
      var count := MeasureElement(facet, elements[i]);
      total := total + count;
    }
    assert elements[..|elements|] == elements;
  }

  method CountFacets(kind: Kind, elements: seq<Element>) returns (counts: map<FacetKey, nat>)
    ensures counts == MeasureFacets(kind, elements)
  {
    hide FacetsOf;
    hide Total;
    var facets := FacetsOf(kind);
    counts := map[];
    for i := 0 to |facets|
      invariant counts == MeasureAll(facets[..i], elements)
    {
      assert facets[..i + 1][..i] == facets[..i];
      var total := CountFacet(facets[i], elements);
      counts := counts[facets[i].key := total];
    }
    assert facets[..|facets|] == facets;
  }

  method Shown(page: seq<Block>) returns (elements: seq<Element>)
    ensures elements == ShownElements(page)
  {
    elements := [];
    for i := 0 to |page|
      invariant elements == ShownElements(page[..i])
    {
      assert page[..i + 1] == page[..i] + [page[i]];
      ShownConcat(page[..i], [page[i]]);
      assert ShownElements([page[i]]) == (if page[i].hidden then [] else page[i].elements) + ShownElements([]);
      if page[i].hidden { continue; }
      elements := elements + page[i].elements;
    }
    assert page[..|page|] == page;
  }

  // ---- what the counts mean -----------------------------------------------

  lemma {:induction false} TotalPermuted(facet: Facet, x: seq<Element>, y: seq<Element>)
    requires multiset(x) == multiset(y)
    ensures Total(facet, x) == Total(facet, y)
    decreases |x|
  {
    if x == [] {
      assert |y| == |multiset(y)| == 0;
    } else {
      var j := TakeHead(x, y);
      TotalPermuted(facet, x[1..], y[..j] + y[j + 1..]);
      assert y == y[..j] + ([y[j]] + y[j + 1..]);
      TotalConcat(facet, y[..j], [y[j]] + y[j + 1..]);
      TotalConcat(facet, y[..j], y[j + 1..]);
      assert ([y[j]] + y[j + 1..])[1..] == y[j + 1..];
    }
  }

  lemma {:induction false} AllPermuted(facets: seq<Facet>, x: seq<Element>, y: seq<Element>)
    requires multiset(x) == multiset(y)
    ensures MeasureAll(facets, x) == MeasureAll(facets, y)
    decreases |facets|
  {
    if facets != [] {
      AllPermuted(facets[..|facets| - 1], x, y);
      TotalPermuted(facets[|facets| - 1], x, y);
    }
  }

  /** Counts do not depend on the order of the page. */
  lemma {:induction false} FacetsPermuted(kind: Kind, x: seq<Element>, y: seq<Element>)
    requires multiset(x) == multiset(y)
    ensures MeasureFacets(kind, x) == MeasureFacets(kind, y)
  {
    hide FacetsOf;
    AllPermuted(FacetsOf(kind), x, y);
  }

  lemma {:induction false} KeysOnce(kind: Kind, i: nat, j: nat)
    requires i < |FacetsOf(kind)| && j < |FacetsOf(kind)| && FacetsOf(kind)[i].key == FacetsOf(kind)[j].key
    ensures i == j
  {
  }

  lemma {:induction false} AllMeasured(facets: seq<Facet>, elements: seq<Element>, i: nat)
    requires i < |facets|
    requires forall j, k | 0 <= j < |facets| && 0 <= k < |facets| && facets[j].key == facets[k].key :: j == k
    ensures facets[i].key in MeasureAll(facets, elements)
    ensures MeasureAll(facets, elements)[facets[i].key] == Total(facets[i], elements)
    decreases |facets|
  {
    var n := |facets| - 1;
    if i < n { AllMeasured(facets[..n], elements, i); }
  }

  /** Each facet of a kind is counted under its own key. */
  lemma {:induction false} FacetCounted(kind: Kind, elements: seq<Element>, i: nat)
    requires i < |FacetsOf(kind)|
    ensures var facet := FacetsOf(kind)[i];
      facet.key in MeasureFacets(kind, elements) && MeasureFacets(kind, elements)[facet.key] == Total(facet, elements)
  {
    forall j, k | 0 <= j < |FacetsOf(kind)| && 0 <= k < |FacetsOf(kind)| && FacetsOf(kind)[j].key == FacetsOf(kind)[k].key
      ensures j == k
    {
      KeysOnce(kind, j, k);
    }
    hide FacetsOf;
    AllMeasured(FacetsOf(kind), elements, i);
  }

  /** Hiding a block takes exactly its own counts away. */
  lemma {:induction false} HidingTakesAway(facet: Facet, page: seq<Block>, i: nat)
    requires i < |page| && !page[i].hidden
    ensures Total(facet, ShownElements(page)) ==
      Total(facet, ShownElements(page[i := page[i].(hidden := true)])) + Total(facet, page[i].elements)
  {
    var gone := page[i := page[i].(hidden := true)];
    assert page == page[..i] + ([page[i]] + page[i + 1..]);
    assert gone == page[..i] + ([gone[i]] + page[i + 1..]);
    ShownConcat(page[..i], [page[i]] + page[i + 1..]);
    ShownConcat(page[..i], [gone[i]] + page[i + 1..]);
    assert ([page[i]] + page[i + 1..])[1..] == page[i + 1..] && ([gone[i]] + page[i + 1..])[1..] == page[i + 1..];
    var above, below := ShownElements(page[..i]), ShownElements(page[i + 1..]);
    assert ShownElements([page[i]] + page[i + 1..]) == page[i].elements + below;
    assert ShownElements([gone[i]] + page[i + 1..]) == [] + below == below;
    TotalConcat(facet, above, page[i].elements + below);
    TotalConcat(facet, page[i].elements, below);
    TotalConcat(facet, above, below);
  }
}
