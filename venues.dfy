/** The venue list (src/components/Venues/index.jsx): client-side search over
    all venues, the page count and page slices of the search results, and the
    Previous/Next and query handlers that move the current page. */
module Venues {
  import opened Js

  /** `VENUES_PER_PAGE`. */
  const VenuesPerPage: int := 20

  /** The parts of a venue's location the search reads. */
  datatype Location = Location(city: Value, country: Value, address: Value)

  /** A venue as the search reads it; `location` is `None` when the record has
      none, so that `venue.location?.city` is `undefined`. */
  datatype Venue = Venue(name: Value, description: Value, location: Option<Location>)

  function CityOf(v: Venue): Value {
    if v.location.Some? then v.location.value.city else Undefined
  }

  function CountryOf(v: Venue): Value {
    if v.location.Some? then v.location.value.country else Undefined
  }

  function AddressOf(v: Venue): Value {
    if v.location.Some? then v.location.value.address else Undefined
  }

  /** The template literal the filter searches, white space included. */
  function SearchableText(v: Venue): string {
    "\n          " + ToText(v.name) + " \n          " + ToText(v.description) +
    "\n          " + ToText(CityOf(v)) + " \n          " + ToText(CountryOf(v)) +
    " \n          " + ToText(AddressOf(v)) + "\n        "
  }

  /** The filter's test: the lower-cased text contains the lower-cased query. */
  predicate Matches(v: Venue, query: string) {
    Includes(ToLower(SearchableText(v)), ToLower(query))
  }

  /** The filter's callback for one query. */
  function MatchesQuery(query: string): Venue -> bool {
    v => Matches(v, query)
  }

  /** `allVenues.filter(...)`. */
  function Filter(venues: seq<Venue>, query: string): seq<Venue> {
    FilterSeq(venues, MatchesQuery(query))
  }

  /** `filteredVenues`: nothing while the query is empty. */
  function FilteredVenues(allVenues: seq<Venue>, query: string): seq<Venue> {
    if query != "" then Filter(allVenues, query) else []
  }

  /** The search distributes over concatenation; with `FilterOne` this fixes
      it as the order-preserving sublist of the matching venues. */
  lemma FilterConcat(a: seq<Venue>, b: seq<Venue>, query: string)
    ensures Filter(a + b, query) == Filter(a, query) + Filter(b, query)
  {
    FilterSeqConcat(a, b, MatchesQuery(query));
  }

  lemma FilterOne(v: Venue, query: string)
    ensures Filter([v], query) == if Matches(v, query) then [v] else []
  {
    var keep := MatchesQuery(query);
    assert [v][1..] == [] && FilterSeq([], keep) == [];
    assert keep(v) == Matches(v, query);
    assert FilterSeq([v], keep) == (if keep(v) then [v] else []) + FilterSeq([v][1..], keep);
  }

  /** The results are exactly the matching venues of the list. */
  lemma FilterMembers(venues: seq<Venue>, query: string, v: Venue)
    ensures v in Filter(venues, query) <==> v in venues && Matches(v, query)
  {
    FilterSeqMembers(venues, MatchesQuery(query), v);
  }

  /** An empty query shows no search results; a non-empty one shows the
      matching venues in their original order. */
  lemma FilteredVenuesMeaning(allVenues: seq<Venue>, query: string)
    ensures query == "" ==> FilteredVenues(allVenues, query) == []
    ensures query != "" ==> forall v :: v in FilteredVenues(allVenues, query) <==> v in allVenues && Matches(v, query)
    ensures |FilteredVenues(allVenues, query)| <= |allVenues|
  {
    if query != "" {
      forall v ensures v in FilteredVenues(allVenues, query) <==> v in allVenues && Matches(v, query) {
        FilterMembers(allVenues, query, v);
      }
    }
    FilterSeqShorter(allVenues, MatchesQuery(query));
  }

  /** `searchPageCount`: `Math.ceil(n / VENUES_PER_PAGE)`. */
  function PageCount(n: nat): (r: nat)
    ensures n <= r * VenuesPerPage
    ensures n > 0 ==> (r - 1) * VenuesPerPage < n
    ensures n == 0 ==> r == 0
  {
    (n + VenuesPerPage - 1) / VenuesPerPage
  }

  /** `paginatedVenues` while searching: the slice for page `page`. */
  function Page<T>(items: seq<T>, page: int): seq<T> {
    Slice(items, (page - 1) * VenuesPerPage, page * VenuesPerPage)
  }

  function Min(a: int, b: int): int {
    if a <= b then a else b
  }

  /** A page from 1 on is the run of at most 20 items starting at
      `(page - 1) * 20`; page 1..count are non-empty. */
  lemma PageWindow<T>(items: seq<T>, page: int)
    requires page >= 1
    ensures Page(items, page) ==
      items[Min((page - 1) * VenuesPerPage, |items|)..Min(page * VenuesPerPage, |items|)]
    ensures |Page(items, page)| <= VenuesPerPage
    ensures page <= PageCount(|items|) ==> Page(items, page) != []
  {
  }

  /** Page 0, which Next reaches when a search finds nothing, is always empty. */
  lemma PageZeroEmpty<T>(items: seq<T>)
    ensures Page(items, 0) == []
  {
  }

  /** The concatenation of pages 1..count. */
  function Pages<T>(items: seq<T>, count: nat): seq<T> {
    if count == 0 then [] else Pages(items, count - 1) + Page(items, count)
  }

  lemma {:induction false} PagesPrefix<T>(items: seq<T>, count: nat)
    ensures Pages(items, count) == items[..Min(count * VenuesPerPage, |items|)]
  {
    if count > 0 {
      PagesPrefix(items, count - 1);
      PageWindow(items, count);
      var a := Min((count - 1) * VenuesPerPage, |items|);
      var b := Min(count * VenuesPerPage, |items|);
      assert items[..a] + items[a..b] == items[..b];
    }
  }

  /** Pages 1 to `searchPageCount` together list the search results once each,
      in order. */
  lemma PagesCoverResults<T>(items: seq<T>)
    ensures Pages(items, PageCount(|items|)) == items
  {
    PagesPrefix(items, PageCount(|items|));
    assert items[..|items|] == items;
  }

  /** `paginatedVenues`: while searching, page `page` of the search results;
      otherwise the server's page as it is. */
  function PaginatedVenues(allVenues: seq<Venue>, venues: seq<Venue>, query: string, page: int): seq<Venue> {
    if query != "" then Page(FilteredVenues(allVenues, query), page) else venues
  }

  /** Without a query the list shows the server's page; with one, a page from
      1 on shows at most 20 venues, each a venue of the full list that matches
      the query. */
  lemma PaginatedVenuesMeaning(allVenues: seq<Venue>, venues: seq<Venue>, query: string, page: int)
    ensures query == "" ==> PaginatedVenues(allVenues, venues, query, page) == venues
    ensures query != "" && page >= 1 ==>
      |PaginatedVenues(allVenues, venues, query, page)| <= VenuesPerPage &&
      forall v :: v in PaginatedVenues(allVenues, venues, query, page) ==> v in allVenues && Matches(v, query)
  {
    if query != "" && page >= 1 {
      var results := FilteredVenues(allVenues, query);
      PageWindow(results, page);
      FilteredVenuesMeaning(allVenues, query);
      forall v | v in PaginatedVenues(allVenues, venues, query, page)
        ensures v in allVenues && Matches(v, query)
      {
        var a, b := Min((page - 1) * VenuesPerPage, |results|), Min(page * VenuesPerPage, |results|);
        var j :| a <= j < b && results[j] == v;
        assert v in results;
      }
    }
  }

  /** The component's state: its `useState` variables. `venues` and
      `pageCount` are the server's page when no query is active. */
  class VenueList {
    var allVenues: seq<Venue>
    var venues: seq<Venue>
    var query: string
    var currentPage: int
    var pageCount: int

    constructor ()
      ensures allVenues == [] && venues == [] && query == "" && currentPage == 1 && pageCount == 1
    {
      allVenues, venues, query := [], [], "";
      currentPage, pageCount := 1, 1;
    }

    function Results(): seq<Venue>
      reads this
    {
      FilteredVenues(allVenues, query)
    }

    function SearchPageCount(): nat
      reads this
    {
      PageCount(|Results()|)
    }

    /** The page count the pager shows and Next stops at. */
    function LastPage(): int
      reads this
    {
      if query != "" then SearchPageCount() else pageCount
    }

    /** `paginatedVenues` for the current state. */
    function Shown(): (r: seq<Venue>)
      reads this
      ensures query == "" ==> r == venues
      ensures query != "" && currentPage >= 1 ==>
        |r| <= VenuesPerPage && forall v :: v in r ==> v in allVenues && Matches(v, query)
    {
      PaginatedVenuesMeaning(allVenues, venues, query, currentPage);
      PaginatedVenues(allVenues, venues, query, currentPage)
    }

    /** All venues for the search have arrived (the paged fetch is not modelled). */
    method AllVenuesLoaded(all: seq<Venue>)
      modifies this
      ensures allVenues == all
      ensures venues == old(venues) && query == old(query)
      ensures currentPage == old(currentPage) && pageCount == old(pageCount)
    {
      allVenues := all;
    }

    /** One server page has arrived; a missing or zero `meta.pageCount` counts as 1. */
    method ServerPageLoaded(data: seq<Venue>, metaPageCount: Option<int>)
      modifies this
      ensures venues == data
      ensures pageCount == if metaPageCount.Some? && metaPageCount.value != 0 then metaPageCount.value else 1
      ensures allVenues == old(allVenues) && query == old(query) && currentPage == old(currentPage)
    {
      venues := data;
      pageCount := if metaPageCount.Some? && metaPageCount.value != 0 then metaPageCount.value else 1;
    }

    /** The search box's `setQuery`: store the query and go back to page 1. */
    method SetQuery(q: string)
      modifies this
      ensures query == q && currentPage == 1
      ensures allVenues == old(allVenues) && venues == old(venues) && pageCount == old(pageCount)
    {
      query := q;
      currentPage := 1;
    }

    /** Previous: one page back, never below 1. */
    method Previous()
      modifies this
      ensures currentPage == if old(currentPage) - 1 > 1 then old(currentPage) - 1 else 1
      ensures currentPage >= 1
      ensures allVenues == old(allVenues) && venues == old(venues)
      ensures query == old(query) && pageCount == old(pageCount)
    {
      currentPage := if currentPage - 1 > 1 then currentPage - 1 else 1;
    }

    /** Next: one page on, never past the last page; with no search results
        the last page is 0 and so is the current page afterwards. */
    method Next()
      modifies this
      ensures currentPage == Min(old(currentPage) + 1, old(LastPage()))
      ensures currentPage <= LastPage()
      ensures allVenues == old(allVenues) && venues == old(venues)
      ensures query == old(query) && pageCount == old(pageCount)
    {
      currentPage := Min(currentPage + 1, LastPage());
    }
  }
}
