/** `src/components/Table/EarthquakeTable.tsx`: the search filter, the pages of fifty rows,
    the reset to page 1, the page-button window and the row emphasis. */
module EarthquakeTable {
  import opened Wrappers
  import opened Seqs
  import opened Text
  import opened Types
  import opened Sampling
  import opened EarthquakeContext
  import opened EarthquakeStore

  const ItemsPerPage: nat := 50

  // ---------------------------------------------------------------------------------
  // Search

  /** The table's row test: the lower-cased place or id contains the needle, or the
      magnitude is present (`mag?.`) and its rendering contains it. */
  predicate TableMatches(ops: TextOps, q: Quake, needle: string)
  {
    || Includes(Lower(ops, q.place), needle)
    || Includes(Lower(ops, q.id), needle)
    || (q.mag.Num? && Includes(ops.showNumber(q.mag.n), needle))
  }

  /** The `filteredData` memo: an all-whitespace (or empty) debounced term keeps the data as
      it is; otherwise exactly the matching rows are kept, in their original order. */
  function FilteredData(ops: TextOps, data: seq<Quake>, debouncedTerm: string): (filtered: seq<Quake>)
    ensures (forall i :: 0 <= i < |debouncedTerm| ==> IsWhitespace(debouncedTerm[i])) ==> filtered == data
    ensures !IsBlank(debouncedTerm) ==>
      forall q :: q in filtered <==> q in data && TableMatches(ops, q, Lower(ops, debouncedTerm))
    ensures IsSubsequence(filtered, data)
  {
    BlankIffAllWhitespace(debouncedTerm);
    if IsBlank(debouncedTerm) then
      SubsequenceReflexive(data);
      data
    else
      var needle := Lower(ops, debouncedTerm);
      KeepIsSubsequence(data, q => TableMatches(ops, q, needle));
      Keep(data, q => TableMatches(ops, q, needle))
  }

  /** The table's filter is decided record by record: filtering `a + b` is filtering `a`,
      then `b`. */
  lemma FilteredDataBlockwise(ops: TextOps, a: seq<Quake>, b: seq<Quake>, debouncedTerm: string)
    ensures FilteredData(ops, a + b, debouncedTerm) == FilteredData(ops, a, debouncedTerm) + FilteredData(ops, b, debouncedTerm)
  {
    if !IsBlank(debouncedTerm) {
      KeepAppend(a, b, q => TableMatches(ops, q, Lower(ops, debouncedTerm)));
    }
  }

  /** The memo body with its side effect: the value handed to `setFilteredData` is the value
      the memo returns, on both branches. */
  method ComputeFilteredData(store: Store, ops: TextOps, data: seq<Quake>, debouncedTerm: string)
    returns (filtered: seq<Quake>)
    modifies store
    ensures filtered == FilteredData(ops, data, debouncedTerm)
    ensures store.filteredData == filtered && store.searchTerm == old(store.searchTerm)
  {
    if IsBlank(debouncedTerm) {
      store.SetFilteredData(data);
      return data;
    }
    var needle := Lower(ops, debouncedTerm);
    filtered := Keep(data, q => TableMatches(ops, q, needle));
    store.SetFilteredData(filtered);
  }

  // ---------------------------------------------------------------------------------
  // Pages

  /** `Math.ceil(filteredData.length / ITEMS_PER_PAGE)`: no pages for no rows, and the
      least number of full-or-partial pages of fifty that holds every row. */
  function TotalPages(n: nat): (pages: nat)
    ensures pages == 0 <==> n == 0
    ensures n <= pages * ItemsPerPage < n + ItemsPerPage
  {
    CeilDiv(n, ItemsPerPage)
  }

  /** The `paginatedData` memo: `filteredData.slice(startIndex, startIndex + 50)`. */
  function PaginatedData(filtered: seq<Quake>, page: int): (rows: seq<Quake>)
    ensures page >= 1 ==>
      var start := (page - 1) * ItemsPerPage;
      && rows == filtered[Min(start, |filtered|)..Min(start + ItemsPerPage, |filtered|)]
      && |rows| <= ItemsPerPage
      && (rows == [] <==> start >= |filtered|)
  {
    var start := (page - 1) * ItemsPerPage;
    Slice(filtered, start, start + ItemsPerPage)
  }

  /** Pages `1..k` laid end to end. */
  function PagesUpTo(filtered: seq<Quake>, k: nat): seq<Quake>
  {
    if k == 0 then [] else PagesUpTo(filtered, k - 1) + PaginatedData(filtered, k)
  }

  lemma {:induction false} PagesUpToPrefix(filtered: seq<Quake>, k: nat)
    ensures PagesUpTo(filtered, k) == filtered[..Min(k * ItemsPerPage, |filtered|)]
  {
    if k > 0 {
      PagesUpToPrefix(filtered, k - 1);
    }
  }

  /** Reading pages `1..totalPages` in turn shows every filtered row once, in order. */
  lemma PagesReassemble(filtered: seq<Quake>)
    ensures PagesUpTo(filtered, TotalPages(|filtered|)) == filtered
  {
    PagesUpToPrefix(filtered, TotalPages(|filtered|));
  }

  /** "Showing a-b of n": `min((p - 1) * 50 + 1, n)` and `min(p * 50, n)`. */
  function ShowingRange(page: int, n: nat): (int, int)
  {
    (Min((page - 1) * ItemsPerPage + 1, n), Min(page * ItemsPerPage, n))
  }

  /** The "Showing" caption names the 1-based positions of the first and last rows of the
      page; on a page past the end (or with no rows) both ends read `n`. */
  lemma ShowingMatchesPage(filtered: seq<Quake>, page: int)
    requires page >= 1
    ensures var (first, last) := ShowingRange(page, |filtered|);
            var rows := PaginatedData(filtered, page);
            && (rows != [] ==>
                  && 1 <= first <= last <= |filtered|
                  && last - first + 1 == |rows|
                  && rows[0] == filtered[first - 1] && rows[|rows| - 1] == filtered[last - 1])
            && (rows == [] ==> first == last == |filtered|)
  {
  }

  // ---------------------------------------------------------------------------------
  // The current page

  /** The `currentPage` state of the table, with the debounced term its reset effect last saw. */
  class Pager {
    var currentPage: int
    var lastTerm: string

    ghost predicate Valid()
      reads this
    {
      currentPage >= 1
    }

    constructor (debouncedTerm: string)
      ensures Valid() && currentPage == 1 && lastTerm == debouncedTerm
    {
      currentPage := 1;
      lastTerm := debouncedTerm;
    }

    /** The effect on `[debouncedSearchTerm]`: a changed term sends the table back to page 1. */
    method OnDebouncedTerm(debouncedTerm: string)
      requires Valid()
      modifies this
      ensures Valid() && lastTerm == debouncedTerm
      ensures currentPage == if debouncedTerm != old(lastTerm) then 1 else old(currentPage)
    {
      if debouncedTerm != lastTerm {
        currentPage := 1;
        lastTerm := debouncedTerm;
      }
    }

    /** The Previous button: disabled on page 1, otherwise one page back. */
    method ClickPrevious()
      requires Valid()
      modifies this
      ensures Valid() && lastTerm == old(lastTerm)
      ensures currentPage == if old(currentPage) == 1 then 1 else old(currentPage) - 1
    {
      if currentPage != 1 {
        currentPage := currentPage - 1;
      }
    }

    /** The Next button: disabled on the last page, otherwise one page on. */
    method ClickNext(totalPages: nat)
      requires Valid()
      modifies this
      ensures Valid() && lastTerm == old(lastTerm)
      ensures currentPage == if old(currentPage) == totalPages then totalPages else old(currentPage) + 1
    {
      if currentPage != totalPages {
        currentPage := currentPage + 1;
      }
    }

    /** A numbered button: `handlePageChange(i)` for a page of the window. */
    method ClickPage(page: int)
      requires Valid() && page >= 1
      modifies this
      ensures Valid() && currentPage == page && lastTerm == old(lastTerm)
    {
      currentPage := page;
    }
  }

  // ---------------------------------------------------------------------------------
  // The page buttons

  datatype PageButton = Previous(disabled: bool) | PageNumber(page: int, active: bool) | Next(disabled: bool)

  /** The first page of the window: as close to two pages before the current one as
      the range `1..totalPages` allows for a window of `min(5, totalPages)` pages. */
  function WindowStart(currentPage: int, totalPages: int): (start: int)
    ensures totalPages > 1 ==> 1 <= start && start + Min(5, totalPages) - 1 <= totalPages
    ensures totalPages > 1 && 1 <= currentPage <= totalPages ==>
      start <= currentPage <= start + Min(5, totalPages) - 1
    ensures totalPages > 1 && 3 <= currentPage <= totalPages - 2 ==> start == currentPage - 2
  {
    Max(1, Min(currentPage - 2, totalPages - 4))
  }

  /** `renderPagination`: nothing for at most one page; otherwise Previous (disabled exactly
      on page 1), the window of `min(5, totalPages)` consecutive page numbers with the
      current one active, and Next (disabled exactly on the last page). */
  method RenderPagination(currentPage: int, totalPages: int) returns (buttons: Option<seq<PageButton>>)
    ensures buttons.None? <==> totalPages <= 1
    ensures buttons.Some? ==>
      var b, w, start := buttons.value, Min(5, totalPages), WindowStart(currentPage, totalPages);
      && |b| == w + 2
      && b[0] == Previous(currentPage == 1)
      && b[|b| - 1] == Next(currentPage == totalPages)
      && forall k :: 1 <= k <= w ==> b[k] == PageNumber(start + k - 1, start + k - 1 == currentPage)
  {
    if totalPages <= 1 {
      return None;
    }
    var maxVisiblePages := 5;
    var startPage := Max(1, currentPage - maxVisiblePages / 2);
    var endPage := Min(totalPages, startPage + maxVisiblePages - 1);
    if endPage - startPage < maxVisiblePages - 1 {
      startPage := Max(1, endPage - maxVisiblePages + 1);
    }
    var pages := [Previous(currentPage == 1)];
    for i := startPage to endPage + 1
      invariant |pages| == 1 + i - startPage
      invariant pages[0] == Previous(currentPage == 1)
      invariant forall k :: 1 <= k < |pages| ==>
        pages[k] == PageNumber(startPage + k - 1, startPage + k - 1 == currentPage)
    {
      pages := pages + [PageNumber(i, currentPage == i)];
    }
    pages := pages + [Next(currentPage == totalPages)];
    return Some(pages);
  }

  // ---------------------------------------------------------------------------------
  // Rows and selection

  datatype RowStyle = SelectedRow | HoveredRow | EvenRow | OddRow

  /** Row background: selected before hovered, otherwise striped by the row's index on the page. */
  function RowStyleOf(selection: SelectionState, q: Quake, index: nat): (style: RowStyle)
    ensures style == SelectedRow <==> selection.selectedId == Some(q.id)
    ensures style == HoveredRow <==> selection.selectedId != Some(q.id) && selection.hoveredId == Some(q.id)
    ensures style == EvenRow ==> index % 2 == 0
    ensures style == OddRow ==> index % 2 == 1
  {
    match EmphasisOf(selection, q.id)
    case Selected => SelectedRow
    case Hovered => HoveredRow
    case Plain => if index % 2 == 0 then EvenRow else OddRow
  }

  /** `handleRowClick`. */
  method HandleRowClick(ctx: SelectionContext, q: Quake)
    modifies ctx
    ensures ctx.selectedId == Some(q.id) && ctx.hoveredId == old(ctx.hoveredId)
  {
    ctx.SetSelectedId(Some(q.id));
  }

  /** `handleRowHover`. */
  method HandleRowHover(ctx: SelectionContext, q: Quake)
    modifies ctx
    ensures ctx.hoveredId == Some(q.id) && ctx.selectedId == old(ctx.selectedId)
  {
    ctx.SetHoveredId(Some(q.id));
  }

  /** `handleRowLeave`. */
  method HandleRowLeave(ctx: SelectionContext)
    modifies ctx
    ensures ctx.hoveredId == None && ctx.selectedId == old(ctx.selectedId)
  {
    ctx.SetHoveredId(None);
  }
}
