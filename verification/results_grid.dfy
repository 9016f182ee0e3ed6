/** The results pager of the property search view: a fixed page size of six,
    the slice shown for the current page, the page count, the "showing a-b of n"
    header, which page numbers and ellipses the pagination bar renders, and the
    guarded Previous/Next buttons that move the current page. */
module ResultsGrid {

  const PropertiesPerPage: nat := 6

  /** A listing as the grid receives it. Image and rating are left out. */
  datatype Property = Property(
    id: string,
    name: string,
    price: int,
    location: string,
    amenities: seq<string>,
    description: string)

  function Min(a: int, b: int): int { if a <= b then a else b }

  function Max(a: int, b: int): int { if a <= b then b else a }

  /** How `Array.prototype.slice` reads one bound against a list of length n:
      a negative bound counts back from the end, and every bound is clamped
      to 0..n. */
  function SliceIndex(i: int, n: nat): (r: nat)
    ensures r <= n
    ensures 0 <= i ==> r == Min(i, n)
    ensures i < 0 ==> r == Max(n + i, 0)
  {
    if i < 0 then (if n + i < 0 then 0 else n + i)
    else if i > n then n
    else i
  }

  /** `s.slice(start, end)`. */
  function Slice<T>(s: seq<T>, start: int, end: int): seq<T>
  {
    var from, to := SliceIndex(start, |s|), SliceIndex(end, |s|);
    if from < to then s[from..to] else []
  }

  /** `Math.ceil(count / propertiesPerPage)`: the least number of pages of six
      that holds count items. */
  function TotalPages(count: nat): (r: nat)
    ensures count <= r * PropertiesPerPage
    ensures r > 0 ==> (r - 1) * PropertiesPerPage < count
    ensures r == 0 <==> count == 0
  {
    (count + PropertiesPerPage - 1) / PropertiesPerPage
  }

  /** `properties.slice(indexOfFirstProperty, indexOfLastProperty)` with
      `indexOfLastProperty = page * 6` and `indexOfFirstProperty = that - 6`.
      From page 1 on, page p is the run of items from index (p-1)*6 up to
      but excluding min(p*6, n), in list order; no page, not even one with a
      negative number, holds more than six items, and each of pages
      1..TotalPages holds at least one. */
  function PageSlice<T>(items: seq<T>, page: int): (r: seq<T>)
    ensures |r| <= PropertiesPerPage
    ensures page >= 1 ==>
      r == items[Min((page - 1) * PropertiesPerPage, |items|)..Min(page * PropertiesPerPage, |items|)]
    ensures 1 <= page <= TotalPages(|items|) ==> |r| >= 1
  {
    var last := page * PropertiesPerPage;
    var first := last - PropertiesPerPage;
    Slice(items, first, last)
  }

  /** The slices of pages 1..k put back to back: the first min(6k, n) items. */
  function PagesUpTo<T>(items: seq<T>, k: nat): (r: seq<T>)
    ensures r == items[..Min(k * PropertiesPerPage, |items|)]
  {
    if k == 0 then []
    else
      var before := PagesUpTo(items, k - 1);
      assert items[..Min(k * PropertiesPerPage, |items|)]
          == items[..Min((k - 1) * PropertiesPerPage, |items|)] + PageSlice(items, k);
      before + PageSlice(items, k)
  }

  /** Concatenating the pages 1..TotalPages gives back the whole list, in order. */
  lemma PagesReassemble<T>(items: seq<T>)
    ensures PagesUpTo(items, TotalPages(|items|)) == items
  {
    assert items[..|items|] == items;
  }

  /** The header text "Showing results a-b of n": a = (p-1)*6 + 1 and
      b = min(p*6, n). For every page 1..TotalPages these are the one-based
      positions of the first and the last item the grid shows. */
  function ShowingRange(page: int, count: nat): (r: (int, int))
    ensures r.0 == (page - 1) * PropertiesPerPage + 1
    ensures r.1 == Min(page * PropertiesPerPage, count)
    ensures 1 <= page <= TotalPages(count) ==> 1 <= r.0 <= r.1 <= count
  {
    var last := page * PropertiesPerPage;
    var first := last - PropertiesPerPage;
    (first + 1, Min(last, count))
  }

  /** The header describes exactly the slice on the grid. */
  lemma HeaderMatchesPage<T>(items: seq<T>, page: int)
    requires 1 <= page <= TotalPages(|items|)
    ensures PageSlice(items, page) == items[ShowingRange(page, |items|).0 - 1..ShowingRange(page, |items|).1]
    ensures |PageSlice(items, page)| == ShowingRange(page, |items|).1 - ShowingRange(page, |items|).0 + 1
  {
  }

  /** On an empty listing the grid stays on page 1 and its header reads
      "Showing results 1-0 of 0": the one page the invariant allows shows
      nothing. */
  lemma EmptyListingHeader<T>(items: seq<T>)
    requires items == []
    ensures ShowingRange(1, |items|) == (1, 0)
    ensures PageSlice(items, 1) == []
    ensures TotalPages(|items|) == 0 && !PaginationVisible(|items|)
  {
  }

  /** The pagination bar is rendered only when there is more than one page. */
  function PaginationVisible(count: nat): (r: bool)
    ensures r <==> TotalPages(count) >= 2
  {
    count > PropertiesPerPage
  }

  /** What the pagination bar renders in the slot of one page number. */
  datatype Slot = PageNumber | Ellipsis | Nothing

  /** The first page, the last page and the pages next to the current one are
      shown as numbers; slot 2 becomes an ellipsis when the current page is past
      3, and slot totalPages-1 becomes one when the current page is more than
      two before the end; every other slot renders nothing. */
  function SlotFor(page: int, current: int, totalPages: int): (r: Slot)
    ensures r == PageNumber <==>
      page == 1 || page == totalPages || current - 1 <= page <= current + 1
    ensures r == Ellipsis ==>
      (page == 2 && current > 3) || (page == totalPages - 1 && current < totalPages - 2)
  {
    if page == 1 || page == totalPages || (page >= current - 1 && page <= current + 1) then PageNumber
    else if page == 2 && current > 3 then Ellipsis
    else if page == totalPages - 1 && current < totalPages - 2 then Ellipsis
    else Nothing
  }

  /** Every page whose number is not shown lies behind an ellipsis on its own
      side of the current page: slot 2 for the pages before it, slot
      totalPages-1 for the pages after it. */
  lemma {:induction false} HiddenPageBehindEllipsis(page: int, current: int, totalPages: int)
    requires 1 <= current <= totalPages
    requires 1 <= page <= totalPages
    requires SlotFor(page, current, totalPages) == Nothing
    ensures page < current ==> 2 < current - 1 && SlotFor(2, current, totalPages) == Ellipsis
    ensures page > current ==> current + 1 < totalPages - 1 && SlotFor(totalPages - 1, current, totalPages) == Ellipsis
    ensures page < current - 1 || page > current + 1
  {
  }

  /** Nine listings, the size of the mock data, make two pages of six and three. */
  lemma NinePropertiesTwoPages<T>(items: seq<T>)
    requires |items| == 9
    ensures TotalPages(|items|) == 2
    ensures PageSlice(items, 1) == items[..6] && PageSlice(items, 2) == items[6..]
    ensures |PageSlice(items, 1)| == 6 && |PageSlice(items, 2)| == 3
    ensures PaginationVisible(|items|)
  {
  }

  /** The grid's state: the listing it was given and `currentPage`. */
  class ResultsGridView {
    const properties: seq<Property>
    var currentPage: int

    /** The current page is a real page, or page 1 of an empty listing. */
    ghost predicate Valid()
      reads this
    {
      1 <= currentPage <= Max(1, TotalPages(|properties|))
    }

    /** The grid starts on page 1. */
    constructor (properties: seq<Property>)
      ensures this.properties == properties && currentPage == 1
      ensures Valid()
    {
      this.properties := properties;
      currentPage := 1;
    }

    /** The properties shown on the current page: between one and six of
        them whenever there is anything to show. */
    function CurrentProperties(): (r: seq<Property>)
      reads this
      ensures |r| <= PropertiesPerPage
      ensures Valid() && properties != [] ==> 1 <= |r|
      ensures Valid() ==> r == properties[(currentPage - 1) * PropertiesPerPage..Min(currentPage * PropertiesPerPage, |properties|)]
    {
      PageSlice(properties, currentPage)
    }

    /** `handlePageChange`: sets the page as given, with no clamping of its own. */
    method HandlePageChange(page: int)
      modifies this
      ensures currentPage == page
    {
      currentPage := page;
    }

    /** Previous: moves back one page only while the current page is past 1. */
    method ClickPrevious()
      requires Valid()
      modifies this
      ensures Valid()
      ensures currentPage == if old(currentPage) > 1 then old(currentPage) - 1 else old(currentPage)
    {
      if currentPage > 1 {
        HandlePageChange(currentPage - 1);
      }
    }

    /** Next: moves on one page only while the current page is before the last. */
    method ClickNext()
      requires Valid()
      modifies this
      ensures Valid()
      ensures currentPage ==
        if old(currentPage) < TotalPages(|properties|) then old(currentPage) + 1 else old(currentPage)
    {
      if currentPage < TotalPages(|properties|) {
        HandlePageChange(currentPage + 1);
      }
    }

    /** A page-number link: only pages 1..totalPages shown as numbers have one. */
    method ClickPageLink(page: int)
      requires Valid()
      requires 1 <= page <= TotalPages(|properties|)
      requires SlotFor(page, currentPage, TotalPages(|properties|)) == PageNumber
      modifies this
      ensures Valid() && currentPage == page
    {
      HandlePageChange(page);
    }
  }
}
