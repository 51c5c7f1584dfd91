/** Browsing the catalog page by page: newest first, each page naming the last
    row it showed as the place the next one starts from. */
module Listing {
  import opened Sequences
  import opened Sorting

  datatype Row = Row(madeAt: int, id: nat, name: string)

  datatype Cursor = Cursor(madeAt: int, id: nat)

  datatype Page = Page(items: seq<Row>, next: Option<Cursor>)

  /** Newest first; rows made at one instant by falling id. */
  predicate Later(a: Row, b: Row) { a.madeAt > b.madeAt || (a.madeAt == b.madeAt && a.id >= b.id) }

  function Past(before: Option<Cursor>): Row -> bool {
    (row: Row) => before.None? || row.madeAt < before.value.madeAt
      || (row.madeAt == before.value.madeAt && row.id < before.value.id)
  }

  function Both(keep: Row -> bool, before: Option<Cursor>): Row -> bool {
    (row: Row) => keep(row) && Past(before)(row)
  }

  const MOST: nat := 24

  /** The page size a request gets. */
  function Limit(asked: int): (limit: nat)
    ensures 1 <= limit <= 24
    ensures 1 <= asked <= 24 ==> limit == asked
    ensures !(1 <= asked <= 24) ==> limit == 24
  {
    if asked <= 0 || asked > MOST then MOST else asked
  }

  function Least(a: nat, b: nat): nat { if a < b then a else b }

  /** The rows one request fetches: one more than it shows. */
  ghost function Fetched(catalog: seq<Row>, keep: Row -> bool, before: Option<Cursor>, size: nat): seq<Row> {
    var found := Sort(Later, Filter(Both(keep, before), catalog));
    found[..Least(size, |found|)]
  }

  function CursorOf(row: Row): Cursor { Cursor(row.madeAt, row.id) }

  ghost function PageOf(catalog: seq<Row>, keep: Row -> bool, before: Option<Cursor>, limit: nat): Page
    requires limit > 0
  {
    var rows := Fetched(catalog, keep, before, limit + 1);
    Page(
      rows[..Least(limit, |rows|)],
      if |rows| > limit then Some(CursorOf(rows[limit - 1])) else None
    )
  }

  /** Shows a page of the rows fetched for it. */
  method Show(rows: seq<Row>, asked: int, ghost catalog: seq<Row>, ghost keep: Row -> bool, ghost before: Option<Cursor>)
    returns (page: Page)
    requires rows == Fetched(catalog, keep, before, Limit(asked) + 1)
    ensures page == PageOf(catalog, keep, before, Limit(asked))
  {
    var limit := Limit(asked);
    var shown := rows[..Least(|rows|, limit)];
    var items: seq<Row> := [];
    for i := 0 to |shown|
      invariant items == shown[..i]
    {
      items := items + [shown[i]];
    }
    var next := None;
    if |rows| > limit && |items| > 0 {
      next := Some(CursorOf(rows[limit - 1]));
    }
    page := Page(items, next);
  }

  // ---- following the cursors ----------------------------------------------

  ghost predicate UniqueIds(rows: seq<Row>) {
    forall i, j | 0 <= i < j < |rows| :: rows[i].id != rows[j].id
  }

  /** The whole listing a filter leaves, newest first. */
  ghost function Listed(catalog: seq<Row>, keep: Row -> bool): seq<Row> {
    Sort(Later, Filter(keep, catalog))
  }

  lemma {:induction false} LaterIsTotal()
    ensures Total(Later)
  {
  }

  /** Distinct ids, told without naming positions. */
  ghost predicate IdsTell(rows: seq<Row>) {
    Distinct(rows) && forall a, b | a in rows && b in rows && a.id == b.id :: a == b
  }

  lemma {:induction false} UniqueTells(rows: seq<Row>)
    requires UniqueIds(rows)
    ensures IdsTell(rows)
  {
  }

  lemma {:induction false} ListedIsOrdered(catalog: seq<Row>, keep: Row -> bool)
    requires UniqueIds(catalog)
    ensures Ascending(Later, Listed(catalog, keep)) && IdsTell(Listed(catalog, keep))
    ensures Tells(Later, Filter(keep, catalog))
  {
    UniqueTells(catalog);
    LaterIsTotal();
    var kept := Filter(keep, catalog);
    FilterDistinct(keep, catalog);
    SortAscends(Later, kept);
    SortBag(Later, kept);
    PermutedDistinct(Listed(catalog, keep), kept);
    forall a | a in Listed(catalog, keep) ensures a in kept {
      assert a in multiset(Listed(catalog, keep));
    }
  }

  /** In an ordered listing the rows past the one before k are those from k on. */
  lemma {:induction false} PastFrom(all: seq<Row>, before: Option<Cursor>, k: nat)
    requires Ascending(Later, all) && IdsTell(all) && k <= |all|
    requires if k == 0 then before == None else before == Some(CursorOf(all[k - 1]))
    ensures forall i | 0 <= i < |all| :: Past(before)(all[i]) <==> k <= i
  {
    forall i | 0 <= i < |all| ensures Past(before)(all[i]) <==> k <= i {
      if k > 0 {
        assert i < k - 1 ==> Later(all[i], all[k - 1]);
        assert i > k - 1 ==> Later(all[k - 1], all[i]) && all[i] != all[k - 1];
        assert all[i] in all && all[k - 1] in all;
      }
    }
  }

  /** Asking past the row before k gives the listing from k on. */
  lemma {:induction false} FoundFrom(catalog: seq<Row>, keep: Row -> bool, before: Option<Cursor>, k: nat)
    requires UniqueIds(catalog) && k <= |Listed(catalog, keep)|
    requires if k == 0 then before == None else before == Some(CursorOf(Listed(catalog, keep)[k - 1]))
    ensures Sort(Later, Filter(Both(keep, before), catalog)) == Listed(catalog, keep)[k..]
  {
    var all := Listed(catalog, keep);
    var past := Past(before);
    hide Past;
    hide Sort;
    hide Filter;
    hide UniqueIds;
    ListedIsOrdered(catalog, keep);
    LaterIsTotal();
    FilterBoth(keep, before, catalog);
    FilterSort(Later, past, Filter(keep, catalog));
    assert all == all[..k] + all[k..];
    FilterConcat(past, all[..k], all[k..]);
    PastFrom(all, before, k);
    FilterNone(past, all[..k]);
    FilterAll(past, all[k..]);
  }

  lemma {:induction false} FilterBoth(keep: Row -> bool, before: Option<Cursor>, rows: seq<Row>)
    ensures Filter(Both(keep, before), rows) == Filter(Past(before), Filter(keep, rows))
  {
    if rows != [] { FilterBoth(keep, before, rows[1..]); }
  }

  /** Pages in the order a reader meets them: the first from the start, each one
      from where the one before it left off. */
  ghost predicate Followed(catalog: seq<Row>, keep: Row -> bool, limit: nat, pages: seq<Page>)
    requires limit > 0
  {
    && pages != [] && pages[0] == PageOf(catalog, keep, None, limit)
    && (forall i | 0 <= i < |pages| - 1 ::
          pages[i].next.Some? && pages[i + 1] == PageOf(catalog, keep, pages[i].next, limit))
  }

  function Shown(pages: seq<Page>): seq<Row> { Flatten(Map((p: Page) => p.items, pages)) }

  lemma {:induction false} ShownConcat(pages: seq<Page>, page: Page)
    ensures Shown(pages + [page]) == Shown(pages) + page.items
  {
    var items := (p: Page) => p.items;
    MapConcat(items, pages, [page]);
    FlattenConcat(Map(items, pages), Map(items, [page]));
    assert Map(items, [page])[1..] == [];
  }

  /** One page of the listing from k on. */
  lemma {:induction false} PageFrom(catalog: seq<Row>, keep: Row -> bool, before: Option<Cursor>, limit: nat, k: nat)
    requires UniqueIds(catalog) && limit > 0 && k <= |Listed(catalog, keep)|
    requires if k == 0 then before == None else before == Some(CursorOf(Listed(catalog, keep)[k - 1]))
    ensures var all, page := Listed(catalog, keep), PageOf(catalog, keep, before, limit);
      if |all| > k + limit then page == Page(all[k..k + limit], Some(CursorOf(all[k + limit - 1])))
      else page == Page(all[k..], None)
  {
    FoundFrom(catalog, keep, before, k);
    hide Sort;
    hide Filter;
  }

  /** The rows a number of full pages hold. */
  function Full(pages: nat, limit: nat): (rows: nat)
    ensures rows == pages * limit && rows >= 0
  {
    pages * limit
  }

  lemma {:induction false} OneMore(pages: nat, limit: nat)
    ensures Full(pages + 1, limit) == Full(pages, limit) + limit
    ensures pages > 0 ==> Full(pages, limit) >= limit
  {
    if pages > 0 { OneMore(pages - 1, limit); }
  }

  /** What the reader has seen after some pages, and where the next one starts. */
  ghost predicate ReadTo(all: seq<Row>, shown: seq<Row>, next: Option<Cursor>, k: nat) {
    if |all| > k && k > 0 then shown == all[..k] && next == Some(CursorOf(all[k - 1]))
    else shown == all && next == None
  }

  lemma {:induction false} ReadOn(
    catalog: seq<Row>, keep: Row -> bool, limit: nat, shown: seq<Row>, next: Option<Cursor>, k: nat
  )
    requires UniqueIds(catalog) && limit > 0
    requires if k == 0 then shown == [] && next.None? else next.Some? && ReadTo(Listed(catalog, keep), shown, next, k)
    ensures var page := PageOf(catalog, keep, next, limit);
      ReadTo(Listed(catalog, keep), shown + page.items, page.next, k + limit)
    ensures k <= |Listed(catalog, keep)|
  {
    hide PageOf;
    hide Listed;
    hide UniqueIds;
    var all := Listed(catalog, keep);
    PageFrom(catalog, keep, next, limit, k);
    assert |all| > k + limit ==> all[..k] + all[k..k + limit] == all[..k + limit];
    assert all[..k] + all[k..] == all;
  }

  /** After any number of pages the reader has seen the listing up to there, and
      each page but the last was full. */
  lemma {:induction false} PagesAreAPrefix(catalog: seq<Row>, keep: Row -> bool, limit: nat, pages: seq<Page>)
    requires UniqueIds(catalog) && limit > 0 && Followed(catalog, keep, limit, pages)
    ensures ReadTo(Listed(catalog, keep), Shown(pages), pages[|pages| - 1].next, Full(|pages|, limit))
  {
    hide PageOf;
    hide Listed;
    hide ReadTo;
    hide Full;
    hide UniqueIds;
    var last := |pages| - 1;
    var seen := pages[..last];
    assert pages == seen + [pages[last]];
    ShownConcat(seen, pages[last]);
    OneMore(last, limit);
    if last == 0 {
      assert Shown(seen) == [] && Full(0, limit) == 0 * limit;
      ReadOn(catalog, keep, limit, [], None, 0);
    } else {
      PagesAreAPrefix(catalog, keep, limit, seen);
      ReadOn(catalog, keep, limit, Shown(seen), pages[last - 1].next, Full(last, limit));
    }
  }

  /** Following the cursors to the end shows the whole listing in order, every
      asset the filter leaves once, for every page size asked for. */
  lemma {:induction false} CursorsShowEverything(catalog: seq<Row>, keep: Row -> bool, asked: int, pages: seq<Page>)
    requires UniqueIds(catalog) && Followed(catalog, keep, Limit(asked), pages)
    requires pages[|pages| - 1].next.None?
    ensures Shown(pages) == Listed(catalog, keep)
    ensures Ascending(Later, Shown(pages)) && Distinct(Shown(pages))
    ensures multiset(Shown(pages)) == multiset(Filter(keep, catalog))
  {
    PagesAreAPrefix(catalog, keep, Limit(asked), pages);
    ListedIsOrdered(catalog, keep);
    SortBag(Later, Filter(keep, catalog));
  }

  lemma {:induction false} MoreMeansFull(catalog: seq<Row>, keep: Row -> bool, before: Option<Cursor>, limit: nat)
    requires limit > 0
    ensures var page := PageOf(catalog, keep, before, limit); page.next.Some? ==> |page.items| == limit
  {
    hide Sort;
    hide Filter;
  }

  lemma {:induction false} LastIsNotEmpty(catalog: seq<Row>, keep: Row -> bool, limit: nat, pages: seq<Page>)
    requires UniqueIds(catalog) && limit > 0 && Followed(catalog, keep, limit, pages) && |pages| > 1
    ensures pages[|pages| - 1].items != []
  {
    var last := |pages| - 1;
    var seen := pages[..last];
    var k := Full(last, limit);
    assert pages[last - 1].next.Some?;
    PagesAreAPrefix(catalog, keep, limit, seen);
    assert k < |Listed(catalog, keep)| && k > 0;
    PageFrom(catalog, keep, pages[last - 1].next, limit, k);
    hide Listed;
    hide PageOf;
  }

  /** Following the cursors ends: every page but the last is full and the last shows
      something unless it is the only one, so no run of pages outlasts the listing. */
  lemma {:induction false} CursorsEnd(catalog: seq<Row>, keep: Row -> bool, asked: int, pages: seq<Page>)
    requires UniqueIds(catalog) && Followed(catalog, keep, Limit(asked), pages)
    ensures forall i | 0 <= i < |pages| - 1 :: |pages[i].items| == Limit(asked)
    ensures |pages| > 1 ==> pages[|pages| - 1].items != []
    ensures |pages| <= 1 || (|pages| - 1) * Limit(asked) < |Filter(keep, catalog)|
  {
    var limit := Limit(asked);
    SortBag(Later, Filter(keep, catalog));
    assert |multiset(Listed(catalog, keep))| == |multiset(Filter(keep, catalog))|;
    forall i | 0 <= i < |pages| - 1 ensures |pages[i].items| == limit {
      MoreMeansFull(catalog, keep, if i == 0 then None else pages[i - 1].next, limit);
    }
    hide PageOf;
    if |pages| > 1 {
      LastIsNotEmpty(catalog, keep, limit, pages);
      var seen := pages[..|pages| - 1];
      assert pages[|pages| - 2].next.Some?;
      PagesAreAPrefix(catalog, keep, limit, seen);
    }
  }
}
