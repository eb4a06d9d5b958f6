/**
  The portfolio section: a fixed list of work samples, a filter tab bar that
  narrows the grid to one kind of media, and a lightbox that shows one sample
  of the filtered grid at a time with circular previous/next navigation.
 */
module Portfolio {
  import opened Seqs

  /** The filter tabs; every item carries one of the four non-`All` kinds.
      The tab ids are "all", "photos", "videos", "vacation-rentals" and
      "3d-tours". */
  datatype FilterType = All | Photos | Videos | VacationRentals | ThreeDTours

  datatype PortfolioItem = PortfolioItem(
    id: int,
    itemType: FilterType,
    title: string,
    category: string,
    thumbnail: string,
    isVideo: bool)

  datatype Option<T> = None | Some(value: T)

  const LUXURY_ESTATE := PortfolioItem(1, Photos, "Luxury Estate Photography", "Photography",
    "https://images.unsplash.com/photo-1613490493576-7fde63acd811?w=800&auto=format&fit=crop", false)
  const MODERN_HOME := PortfolioItem(2, Videos, "Modern Home Tour", "Videography",
    "https://images.unsplash.com/photo-1600596542815-ffad4c1539a9?w=800&auto=format&fit=crop", true)
  const VIRTUAL_WALKTHROUGH := PortfolioItem(3, ThreeDTours, "Virtual Walkthrough", "3D Tour",
    "https://images.unsplash.com/photo-1600607687939-ce8a6c25118c?w=800&auto=format&fit=crop", false)
  const BEACH_HOUSE := PortfolioItem(4, VacationRentals, "Beach House Rental", "Vacation Rental",
    "https://images.unsplash.com/photo-1602343168117-bb8ffe3e2e9f?w=800&auto=format&fit=crop", false)
  const DOWNTOWN_CONDO := PortfolioItem(5, Photos, "Downtown Condo", "Photography",
    "https://images.unsplash.com/photo-1512917774080-9991f1c4c750?w=800&auto=format&fit=crop", false)
  const WATERFRONT := PortfolioItem(6, Videos, "Waterfront Property", "Videography",
    "https://images.unsplash.com/photo-1600585154340-be6161a56a0c?w=800&auto=format&fit=crop", true)

  /** `portfolioItems`, in display order. */
  const PORTFOLIO_ITEMS: seq<PortfolioItem> :=
    [LUXURY_ESTATE, MODERN_HOME, VIRTUAL_WALKTHROUGH, BEACH_HOUSE, DOWNTOWN_CONDO, WATERFRONT]

  // -------------------------------------------------------------- filtering

  /** `items.filter((item) => item.type === t)`. */
  function OfType(items: seq<PortfolioItem>, t: FilterType): (r: seq<PortfolioItem>)
    ensures forall x :: x in r <==> x in items && x.itemType == t
    ensures forall k :: 0 <= k < |r| ==> r[k].itemType == t
    ensures |r| <= |items|
  {
    if items == [] then []
    else (if items[0].itemType == t then [items[0]] else []) + OfType(items[1..], t)
  }

  /** The filter keeps the matching items in their original order. */
  lemma {:induction false} OfTypeKeepsOrder(items: seq<PortfolioItem>, t: FilterType)
    ensures IsSubsequence(OfType(items, t), items)
  {
    if items != [] {
      OfTypeKeepsOrder(items[1..], t);
      assert [items[0]] + items[1..] == items;
      if items[0].itemType == t {
        SubsequenceCons(items[0], OfType(items[1..], t), items[1..]);
      } else {
        assert OfType(items, t) == [] + OfType(items[1..], t) == OfType(items[1..], t);
        SubsequenceSkip(items[0], OfType(items[1..], t), items[1..]);
      }
    }
  }

  /** The filter keeps every matching item as often as it occurs, and nothing
      else. */
  lemma {:induction false} OfTypeCounts(items: seq<PortfolioItem>, t: FilterType, x: PortfolioItem)
    ensures multiset(OfType(items, t))[x] == if x.itemType == t then multiset(items)[x] else 0
  {
    if items != [] {
      OfTypeCounts(items[1..], t, x);
      assert items == [items[0]] + items[1..];
      assert multiset(items) == multiset([items[0]]) + multiset(items[1..]);
    }
  }

  /** `filteredItems`: the whole list under "all", otherwise the items of the
      chosen kind. */
  function FilteredItems(active: FilterType, items: seq<PortfolioItem>): (r: seq<PortfolioItem>)
    ensures forall x :: x in r <==> x in items && (active == All || x.itemType == active)
    ensures |r| <= |items|
  {
    if active == All then items else OfType(items, active)
  }

  /** Whatever the filter, the grid shows the surviving items in the list's
      order, each as often as it occurs in the list. */
  lemma FilteredKeepsOrder(active: FilterType, items: seq<PortfolioItem>)
    ensures IsSubsequence(FilteredItems(active, items), items)
    ensures forall x :: x in items && (active == All || x.itemType == active) ==>
      multiset(FilteredItems(active, items))[x] == multiset(items)[x]
  {
    if active == All {
      SubsequenceRefl(items);
    } else {
      OfTypeKeepsOrder(items, active);
      forall x | x in items && x.itemType == active
        ensures multiset(FilteredItems(active, items))[x] == multiset(items)[x]
      {
        OfTypeCounts(items, active, x);
      }
    }
  }

  /** The filter looks at one item at a time. */
  lemma OfTypeCons(x: PortfolioItem, xs: seq<PortfolioItem>, t: FilterType)
    ensures OfType([x] + xs, t) == (if x.itemType == t then [x] else []) + OfType(xs, t)
  {
    assert ([x] + xs)[1..] == xs;
  }

  /** The "Photos" tab shows the two photography samples, first to last. */
  lemma PhotosTab()
    ensures FilteredItems(Photos, PORTFOLIO_ITEMS) == [LUXURY_ESTATE, DOWNTOWN_CONDO]
  {
    var rest := [MODERN_HOME, VIRTUAL_WALKTHROUGH, BEACH_HOUSE, DOWNTOWN_CONDO, WATERFRONT];
    assert PORTFOLIO_ITEMS == [LUXURY_ESTATE] + rest;
    PhotosAfterFirst();
    OfTypeCons(LUXURY_ESTATE, rest, Photos);
  }

  lemma PhotosAfterFirst()
    ensures OfType([MODERN_HOME, VIRTUAL_WALKTHROUGH, BEACH_HOUSE, DOWNTOWN_CONDO, WATERFRONT], Photos)
      == [DOWNTOWN_CONDO]
  {
    var s3 := [BEACH_HOUSE, DOWNTOWN_CONDO, WATERFRONT];
    var s2 := [VIRTUAL_WALKTHROUGH] + s3;
    PhotosLastThree();
    OfTypeCons(VIRTUAL_WALKTHROUGH, s3, Photos);
    OfTypeCons(MODERN_HOME, s2, Photos);
    assert [MODERN_HOME] + s2 == [MODERN_HOME, VIRTUAL_WALKTHROUGH, BEACH_HOUSE, DOWNTOWN_CONDO, WATERFRONT];
  }

  lemma PhotosLastThree()
    ensures OfType([BEACH_HOUSE, DOWNTOWN_CONDO, WATERFRONT], Photos) == [DOWNTOWN_CONDO]
  {
    var s5: seq<PortfolioItem> := [WATERFRONT];
    var s4 := [DOWNTOWN_CONDO] + s5;
    assert [WATERFRONT] + [] == s5;
    OfTypeCons(WATERFRONT, [], Photos);
    OfTypeCons(DOWNTOWN_CONDO, s5, Photos);
    OfTypeCons(BEACH_HOUSE, s4, Photos);
    assert [BEACH_HOUSE] + s4 == [BEACH_HOUSE, DOWNTOWN_CONDO, WATERFRONT];
  }

  /** An item of another kind is dropped, so the filtered list is shorter. */
  lemma {:induction false} OfTypeDropsOther(items: seq<PortfolioItem>, t: FilterType, k: int)
    requires 0 <= k < |items| && items[k].itemType != t
    ensures |OfType(items, t)| < |items|
  {
    if k > 0 {
      OfTypeDropsOther(items[1..], t, k - 1);
    }
  }

  /** Every tab other than "All" shows fewer samples than the six of "All"; the
      "Videos" tab shows only videos. */
  lemma TabsNarrow(t: FilterType)
    requires t != All
    ensures |FilteredItems(t, PORTFOLIO_ITEMS)| < |PORTFOLIO_ITEMS|
    ensures t == Videos ==> forall x :: x in FilteredItems(t, PORTFOLIO_ITEMS) ==> x.isVideo
  {
    var items := PORTFOLIO_ITEMS;
    if t == Photos {
      OfTypeDropsOther(items, t, 1);
    } else {
      OfTypeDropsOther(items, t, 0);
    }
  }

  // ------------------------------------------------------------- navigation

  /** `goToNext`: one step forward, from the last item back to the first. */
  function NextIndex(i: int, len: int): (r: int)
    ensures 0 <= i < len ==> 0 <= r < len
  {
    if i == len - 1 then 0 else i + 1
  }

  /** `goToPrevious`: one step back, from the first item to the last. */
  function PreviousIndex(i: int, len: int): (r: int)
    ensures 0 <= i < len ==> 0 <= r < len
  {
    if i == 0 then len - 1 else i - 1
  }

  /** Previous undoes next and next undoes previous on the valid indices. */
  lemma NavigationInverse(i: int, len: int)
    requires 0 <= i < len
    ensures PreviousIndex(NextIndex(i, len), len) == i
    ensures NextIndex(PreviousIndex(i, len), len) == i
  {
  }

  /** Next, pressed `k` times. */
  function NextIndexIterated(i: int, len: int, k: nat): int
    decreases k
  {
    if k == 0 then i else NextIndex(NextIndexIterated(i, len, k - 1), len)
  }

  /** Pressing next `k` times, up to once per item, moves `k` places forward
      and wraps past the end at most once. */
  lemma {:induction false} NextIndexIteratedWraps(i: int, len: int, k: nat)
    requires 0 <= i < len && k <= len
    ensures NextIndexIterated(i, len, k) == if i + k < len then i + k else i + k - len
    decreases k
  {
    if k > 0 {
      NextIndexIteratedWraps(i, len, k - 1);
    }
  }

  /** Pressing next once per item comes back to the starting item. */
  lemma NextIndexFullCircle(i: int, len: int)
    requires 0 <= i < len
    ensures NextIndexIterated(i, len, len) == i
  {
    NextIndexIteratedWraps(i, len, len);
  }

  /** With a single item both buttons stay on it. */
  lemma SingleItemFixed()
    ensures NextIndex(0, 1) == 0 && PreviousIndex(0, 1) == 0
  {
  }

  // ----------------------------------------------------------------- render

  /** `filteredItems[currentImageIndex]`, undefined outside the list. */
  function ItemAt(items: seq<PortfolioItem>, i: int): (r: Option<PortfolioItem>)
    ensures r.Some? <==> 0 <= i < |items|
    ensures r.Some? ==> r.value in items
  {
    if 0 <= i < |items| then Some(items[i]) else None
  }

  /** `lightboxOpen && currentItem`: the overlay is on screen exactly when the
      lightbox is open on an index inside the filtered list. */
  predicate OverlayVisible(lightboxOpen: bool, items: seq<PortfolioItem>, i: int)
    ensures OverlayVisible(lightboxOpen, items, i) <==> lightboxOpen && 0 <= i < |items|
  {
    lightboxOpen && ItemAt(items, i).Some?
  }

  /** The previous and next buttons are drawn only when there is somewhere else
      to go: on a non-empty list they show exactly when no item is its own
      successor. */
  predicate NavigationVisible(items: seq<PortfolioItem>)
    ensures items != [] ==>
      (NavigationVisible(items) <==> forall i :: 0 <= i < |items| ==> NextIndex(i, |items|) != i)
  {
    assert |items| == 1 ==> NextIndex(0, |items|) == 0;
    |items| > 1
  }

  /** The "n / total" counter under the overlay: one-based, so it runs from 1
      to the number of filtered items. */
  function Counter(items: seq<PortfolioItem>, i: int): (r: (int, int))
    ensures r.0 == i + 1 && r.1 == |items|
    ensures 0 <= i < |items| ==> 1 <= r.0 <= r.1
  {
    (i + 1, |items|)
  }

  /** Next advances the counter by one and wraps from the total back to 1;
      previous steps it back by one and wraps from 1 to the total. */
  lemma CounterFollowsNavigation(items: seq<PortfolioItem>, i: int)
    requires 0 <= i < |items|
    ensures var n := Counter(items, i).0;
      Counter(items, NextIndex(i, |items|)).0 == if n == |items| then 1 else n + 1
    ensures var n := Counter(items, i).0;
      Counter(items, PreviousIndex(i, |items|)).0 == if n == 1 then |items| else n - 1
  {
  }

  /** While the overlay is up and the navigation buttons are drawn, both buttons
      keep it up and move to a different item. */
  lemma NavigationKeepsOverlay(open: bool, items: seq<PortfolioItem>, i: int)
    requires OverlayVisible(open, items, i) && NavigationVisible(items)
    ensures OverlayVisible(open, items, NextIndex(i, |items|)) && NextIndex(i, |items|) != i
    ensures OverlayVisible(open, items, PreviousIndex(i, |items|)) && PreviousIndex(i, |items|) != i
  {
  }

  /** Without items, the previous button would leave the list: the render guard
      is what keeps the overlay from showing nothing. */
  lemma PreviousOnEmptyLeavesList()
    ensures PreviousIndex(0, 0) == -1 && ItemAt([], -1) == None
  {
  }

  // ---------------------------------------------------------------- gallery

  /** The component's state. */
  class Gallery {
    var activeFilter: FilterType
    var lightboxOpen: bool
    var currentImageIndex: int

    /** The grid as currently filtered. */
    function Items(): (r: seq<PortfolioItem>)
      reads this
      ensures forall x :: x in r <==> x in PORTFOLIO_ITEMS && (activeFilter == All || x.itemType == activeFilter)
      ensures |r| <= |PORTFOLIO_ITEMS|
    {
      FilteredItems(activeFilter, PORTFOLIO_ITEMS)
    }

    constructor ()
      ensures activeFilter == All && !lightboxOpen && currentImageIndex == 0
      ensures Items() == PORTFOLIO_ITEMS
    {
      activeFilter := All;
      lightboxOpen := false;
      currentImageIndex := 0;
    }

    /** A click on a filter tab. */
    method SetActiveFilter(filter: FilterType)
      modifies this`activeFilter
      ensures activeFilter == filter
    {
      activeFilter := filter;
    }

    /** `openLightbox(index)`; the grid passes the index of the clicked tile. */
    method OpenLightbox(index: int)
      modifies this`currentImageIndex, this`lightboxOpen
      ensures currentImageIndex == index && lightboxOpen
      ensures 0 <= index < |Items()| ==> OverlayVisible(lightboxOpen, Items(), currentImageIndex)
    {
      currentImageIndex := index;
      lightboxOpen := true;
    }

    /** `closeLightbox`: only the open flag changes; the index is kept. */
    method CloseLightbox()
      modifies this`lightboxOpen
      ensures !lightboxOpen
      ensures !OverlayVisible(lightboxOpen, Items(), currentImageIndex)
    {
      lightboxOpen := false;
    }

    /** `goToPrevious`. */
    method GoToPrevious()
      modifies this`currentImageIndex
      ensures currentImageIndex == PreviousIndex(old(currentImageIndex), |Items()|)
      ensures 0 <= old(currentImageIndex) < |Items()| ==> 0 <= currentImageIndex < |Items()|
    {
      var len := |Items()|;
      currentImageIndex := if currentImageIndex == 0 then len - 1 else currentImageIndex - 1;
    }

    /** `goToNext`. */
    method GoToNext()
      modifies this`currentImageIndex
      ensures currentImageIndex == NextIndex(old(currentImageIndex), |Items()|)
      ensures 0 <= old(currentImageIndex) < |Items()| ==> 0 <= currentImageIndex < |Items()|
    {
      var len := |Items()|;
      currentImageIndex := if currentImageIndex == len - 1 then 0 else currentImageIndex + 1;
    }
  }
}
