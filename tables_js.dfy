// The browser side of the dynamic tables, modules/static/shipwithdjango/js/tables.js:
// the pagination bar `addPaginationControls` builds, its "Showing X to Y"
// caption, and the query `searchAndSortTable` sends back to `DynamicTableData`.
module TablesJs {
  import opened Wrappers
  import opened Text
  import TableViews

  /**
   * One element of the pagination bar: a button that loads `page`, showing
   * `caption` when one is given and the page number otherwise, highlighted when
   * `page` is the current page; or an ellipsis.
   */
  datatype Control = Button(page: int, caption: Option<string>, current: bool) | Ellipsis
  {
    /** The button's text, `text || page`. */
    function Text(): string
      requires Button?
    {
      if caption.Some? then caption.value else IntToString(page)
    }
  }

  /** `createPageButton(page, text)`. */
  function PageButton(page: int, caption: Option<string>, currentPage: int): (c: Control)
    ensures c.Button? && c.page == page && c.caption == caption
    ensures c.current <==> page == currentPage
  {
    Button(page, caption, page == currentPage)
  }

  function Max(a: int, b: int): int { if a < b then b else a }
  function Min(a: int, b: int): int { if a < b then a else b }

  /** The pages `lo` to `hi`, ascending; none when `lo > hi`. */
  function Range(lo: int, hi: int): (r: seq<int>)
    ensures |r| == if lo <= hi then hi - lo + 1 else 0
    ensures forall k :: 0 <= k < |r| ==> r[k] == lo + k
    decreases hi - lo
  {
    if lo > hi then [] else Range(lo, hi - 1) + [hi]
  }

  /** Numbered buttons for the pages `lo` to `hi`, ascending. */
  function MiddleButtons(lo: int, hi: int, currentPage: int): (r: seq<Control>)
    ensures |r| == if lo <= hi then hi - lo + 1 else 0
    ensures forall k :: 0 <= k < |r| ==> r[k] == PageButton(lo + k, None, currentPage)
    decreases hi - lo
  {
    if lo > hi then [] else MiddleButtons(lo, hi - 1, currentPage) + [PageButton(hi, None, currentPage)]
  }

  /** The first and last of the pages numbered between page 1 and the last page: up to two on either side of the current one. */
  function MiddleLow(currentPage: int): int { Max(2, currentPage - 2) }
  function MiddleHigh(currentPage: int, numPages: int): int { Min(numPages - 1, currentPage + 2) }

  /** The pages with a numbered button, in bar order: 1, the middle pages, and the last page when there are several. */
  function NumberedPages(currentPage: int, numPages: int): seq<int>
  {
    [1] + Range(MiddleLow(currentPage), MiddleHigh(currentPage, numPages)) + (if numPages > 1 then [numPages] else [])
  }

  function PreviousPart(currentPage: int): seq<Control>
  {
    if currentPage > 1 then [PageButton(currentPage - 1, Some("Previous"), currentPage)] else []
  }

  function LeadingPart(currentPage: int): seq<Control>
  {
    if currentPage > 3 then [Ellipsis] else []
  }

  function TrailingPart(currentPage: int, numPages: int): seq<Control>
  {
    if currentPage < numPages - 2 then [Ellipsis] else []
  }

  function LastPart(currentPage: int, numPages: int): seq<Control>
  {
    if numPages > 1 then [PageButton(numPages, None, currentPage)] else []
  }

  function NextPart(currentPage: int, numPages: int): seq<Control>
  {
    if currentPage < numPages then [PageButton(currentPage + 1, Some("Next"), currentPage)] else []
  }

  /** The bar after 'Previous' and before 'Next': no element there carries a caption. */
  function Inner(currentPage: int, numPages: int): seq<Control>
  {
    [PageButton(1, None, currentPage)] + LeadingPart(currentPage) +
    MiddleButtons(MiddleLow(currentPage), MiddleHigh(currentPage, numPages), currentPage) +
    TrailingPart(currentPage, numPages) + LastPart(currentPage, numPages)
  }

  /** The bar `addPaginationControls` builds, left to right. */
  function Controls(currentPage: int, numPages: int): seq<Control>
  {
    PreviousPart(currentPage) + Inner(currentPage, numPages) + NextPart(currentPage, numPages)
  }

  /** The numbered buttons of a bar, in order. */
  function Numbered(cs: seq<Control>): (r: seq<int>)
    ensures |r| <= |cs|
  {
    if |cs| == 0 then []
    else
      var last := cs[|cs| - 1];
      Numbered(cs[..|cs| - 1]) + (if last.Button? && last.caption.None? then [last.page] else [])
  }

  lemma {:induction false} NumberedAppend(a: seq<Control>, b: seq<Control>)
    ensures Numbered(a + b) == Numbered(a) + Numbered(b)
    decreases |b|
  {
    if |b| > 0 {
      assert (a + b)[..|a + b| - 1] == a + b[..|b| - 1];
      NumberedAppend(a, b[..|b| - 1]);
    } else {
      assert a + b == a;
    }
  }

  lemma {:induction false} NumberedMiddle(lo: int, hi: int, currentPage: int)
    ensures Numbered(MiddleButtons(lo, hi, currentPage)) == Range(lo, hi)
    decreases hi - lo
  {
    if lo <= hi {
      var bs := MiddleButtons(lo, hi, currentPage);
      NumberedMiddle(lo, hi - 1, currentPage);
      assert bs[..|bs| - 1] == MiddleButtons(lo, hi - 1, currentPage);
    }
  }

  lemma NumberedSingle(c: Control)
    ensures Numbered([c]) == if c.Button? && c.caption.None? then [c.page] else []
  {
    assert [c][..0] == [];
  }

  lemma NumberedInner(currentPage: int, numPages: int)
    ensures Numbered(Inner(currentPage, numPages)) == NumberedPages(currentPage, numPages)
  {
    var first := [PageButton(1, None, currentPage)];
    var lead := LeadingPart(currentPage);
    var middle := MiddleButtons(MiddleLow(currentPage), MiddleHigh(currentPage, numPages), currentPage);
    var trail := TrailingPart(currentPage, numPages);
    var last := LastPart(currentPage, numPages);
    var mid := Range(MiddleLow(currentPage), MiddleHigh(currentPage, numPages));
    var lastPages := if numPages > 1 then [numPages] else [];
    NumberedSingle(PageButton(1, None, currentPage));
    if currentPage > 3 {
      NumberedSingle(Ellipsis);
    }
    NumberedAppend(first, lead);
    assert Numbered(first + lead) == [1];
    NumberedMiddle(MiddleLow(currentPage), MiddleHigh(currentPage, numPages), currentPage);
    NumberedAppend(first + lead, middle);
    assert Numbered(first + lead + middle) == [1] + mid;
    if currentPage < numPages - 2 {
      NumberedSingle(Ellipsis);
    }
    NumberedAppend(first + lead + middle, trail);
    assert Numbered(first + lead + middle + trail) == [1] + mid;
    if numPages > 1 {
      NumberedSingle(last[0]);
    }
    NumberedAppend(first + lead + middle + trail, last);
    assert Numbered(first + lead + middle + trail + last) == [1] + mid + lastPages;
  }

  /** The numbered buttons of the bar are exactly page 1, the middle pages and the last page. */
  lemma NumberedControls(currentPage: int, numPages: int)
    ensures Numbered(Controls(currentPage, numPages)) == NumberedPages(currentPage, numPages)
  {
    var prev := PreviousPart(currentPage);
    var inner := Inner(currentPage, numPages);
    var next := NextPart(currentPage, numPages);
    var ps := NumberedPages(currentPage, numPages);
    assert Numbered(prev) == [] by {
      if currentPage > 1 {
        NumberedSingle(prev[0]);
      }
    }
    assert Numbered(next) == [] by {
      if currentPage < numPages {
        NumberedSingle(next[0]);
      }
    }
    NumberedInner(currentPage, numPages);
    NumberedAppend(prev, inner);
    assert Numbered(prev + inner) == ps;
    NumberedAppend(prev + inner, next);
    assert Numbered(prev + inner + next) == ps + [];
    assert Controls(currentPage, numPages) == prev + inner + next;
  }

  /** The numbered pages are strictly increasing, so none appears twice; the first is 1 and the last page is there iff there are several. */
  lemma NumberedPagesIncrease(currentPage: int, numPages: int)
    ensures var ps := NumberedPages(currentPage, numPages);
      (forall i, j :: 0 <= i < j < |ps| ==> ps[i] < ps[j]) &&
      ps[0] == 1 && (numPages > 1 <==> numPages in ps[1..]) &&
      (numPages >= 1 ==> forall i :: 0 <= i < |ps| ==> 1 <= ps[i] <= numPages)
  {
    var lo := MiddleLow(currentPage);
    var mid := Range(lo, MiddleHigh(currentPage, numPages));
    var ps := NumberedPages(currentPage, numPages);
    assert |ps| == 1 + |mid| + (if numPages > 1 then 1 else 0);
    forall i | 0 <= i < |ps|
      ensures ps[i] == if i == 0 then 1 else if i <= |mid| then lo + i - 1 else numPages
    {
      if 0 < i <= |mid| {
        assert ps[i] == mid[i - 1];
      }
    }
    forall i, j | 0 <= i < j < |ps|
      ensures ps[i] < ps[j]
    {
    }
    if numPages > 1 {
      assert ps[1..][|ps| - 2] == numPages;
    }
  }

  /** For a current page within range, exactly one numbered button is highlighted. */
  lemma OneCurrentButton(currentPage: int, numPages: int)
    requires 1 <= currentPage <= numPages
    ensures var ps := NumberedPages(currentPage, numPages);
      exists i :: 0 <= i < |ps| && ps[i] == currentPage && forall j :: 0 <= j < |ps| && j != i ==> ps[j] != currentPage
  {
    var mid := Range(MiddleLow(currentPage), MiddleHigh(currentPage, numPages));
    var ps := NumberedPages(currentPage, numPages);
    NumberedPagesIncrease(currentPage, numPages);
    var i;
    if currentPage == 1 {
      i := 0;
    } else if currentPage == numPages {
      i := |ps| - 1;
    } else {
      i := 1 + currentPage - MiddleLow(currentPage);
      assert mid[i - 1] == currentPage;
      assert ps[i] == mid[i - 1];
    }
    assert ps[i] == currentPage;
    forall j | 0 <= j < |ps| && j != i
      ensures ps[j] != currentPage
    {
      if j < i {
        assert ps[j] < ps[i];
      } else {
        assert ps[i] < ps[j];
      }
    }
  }

  lemma InnerUncaptioned(currentPage: int, numPages: int)
    ensures forall c :: c in Inner(currentPage, numPages) ==> c.Ellipsis? || c.caption.None?
  {
    var middle := MiddleButtons(MiddleLow(currentPage), MiddleHigh(currentPage, numPages), currentPage);
    assert forall c :: c in middle ==> c.Button? && c.caption.None?;
  }

  /** 'Previous' is in the bar iff the current page is past 1, and then it comes first. */
  lemma PreviousShown(currentPage: int, numPages: int)
    ensures var cs := Controls(currentPage, numPages);
      (currentPage > 1 <==> Button(currentPage - 1, Some("Previous"), false) in cs) &&
      (currentPage > 1 ==> cs[0] == Button(currentPage - 1, Some("Previous"), false))
  {
    InnerUncaptioned(currentPage, numPages);
  }

  /** 'Next' is in the bar iff pages remain after the current one, and then it comes last. */
  lemma NextShown(currentPage: int, numPages: int)
    ensures var cs := Controls(currentPage, numPages);
      (currentPage < numPages <==> Button(currentPage + 1, Some("Next"), false) in cs) &&
      (currentPage < numPages ==> cs[|cs| - 1] == Button(currentPage + 1, Some("Next"), false))
  {
    InnerUncaptioned(currentPage, numPages);
  }

  lemma EllipsesInner(currentPage: int, numPages: int)
    ensures multiset(Inner(currentPage, numPages))[Ellipsis] ==
      (if currentPage > 3 then 1 else 0) + (if currentPage < numPages - 2 then 1 else 0)
  {
    var middle := MiddleButtons(MiddleLow(currentPage), MiddleHigh(currentPage, numPages), currentPage);
    assert forall c :: c in middle ==> c.Button?;
    assert multiset(middle)[Ellipsis] == 0;
  }

  /** One ellipsis after page 1 when the current page is past 3, and one before the last page when it is more than 2 pages from the end. */
  lemma EllipsesShown(currentPage: int, numPages: int)
    ensures multiset(Controls(currentPage, numPages))[Ellipsis] ==
      (if currentPage > 3 then 1 else 0) + (if currentPage < numPages - 2 then 1 else 0)
  {
    EllipsesInner(currentPage, numPages);
  }

  /** The two numbers of the "Showing X to Y of N items" caption. */
  function ShowingRange(currentPage: int, perPage: int, total: int): (r: (int, int))
    ensures r.0 <= total && r.1 <= total
  {
    (Min((currentPage - 1) * perPage + 1, total), Min(currentPage * perPage, total))
  }

  function ShowingLabel(currentPage: int, perPage: int, total: int): (s: string)
    ensures StartsWith(s, "Showing ") && EndsWith(s, " items")
  {
    var r := ShowingRange(currentPage, perPage, total);
    "Showing " + IntToString(r.0) + " to " + IntToString(r.1) + " of " + IntToString(total) + " items"
  }

  /**
   * With no search applied, the caption drawn from a reply of the view
   * counts exactly the rows of the page it carries ("Showing 0 to 0" for an
   * empty table, whose one page is empty).
   */
  lemma ShowingCountsPageRows(view: TableViews.TableView, query: map<string, string>, rows: seq<TableViews.Row>)
    requires TableViews.TableData(view, query, rows).Ok?
    requires !TableViews.Searching(view, TableViews.SearchTerm(query))
    ensures var reply := TableViews.TableData(view, query, rows).value;
      var r := ShowingRange(reply.page.number, reply.page.perPage, reply.total);
      (reply.total == 0 ==> r == (0, 0) && reply.page.objects == []) &&
      (reply.total > 0 ==> r.1 - r.0 + 1 == |reply.page.objects|)
  {
    var reply := TableViews.TableData(view, query, rows).value;
    TableViews.TotalIgnoresSearch(view, query, rows);
    assert TableViews.Searched(view, query, rows) == rows;
    assert reply.page.objects == TableViews.PageRows(rows, reply.page.perPage, reply.page.number);
    TableViews.PageBounds(|rows|, reply.page.perPage, reply.page.number);
  }

  /** A two-row table searched for "a", two rows a page: only the first row matches. */
  function SearchedView(): TableViews.TableView
  {
    TableViews.TableView("-created_at", [], ["action"], 2)
  }

  function SearchedRows(): seq<TableViews.Row>
  {
    [map["action" := TableViews.TextValue("a")], map["action" := TableViews.TextValue("b")]]
  }

  lemma OnlyFirstRowMatches()
    ensures TableViews.Filtered(SearchedRows(), ["action"], "a") == SearchedRows()[..1]
  {
    var rows := SearchedRows();
    assert rows[..1][..0] == [];
    assert rows[..2][..1] == rows[..1];
    assert Lower("a") == "a" && Lower("b") == "b";
    assert OccursAt("a", "a", 0);
    assert TableViews.Matches(rows[0], ["action"], "a") by {
      assert TableViews.FieldContains(rows[0], ["action"][0], "a");
    }
    assert !TableViews.Matches(rows[1], ["action"], "a") by {
      TableViews.AbsentCharNotContained("b", 'a');
    }
    assert rows[..2] == rows;
  }

  /**
   * Under a search the caption still counts the whole table: with one of
   * the two rows matching, the reply's one page holds one row, but the
   * caption reads "Showing 1 to 2 of 2 items".
   */
  lemma SearchedCaptionCountsWholeTable()
    ensures TableViews.TableData(SearchedView(), map["search" := "a"], SearchedRows()).Ok?
    ensures var reply := TableViews.TableData(SearchedView(), map["search" := "a"], SearchedRows()).value;
      reply.total == 2 && |reply.page.objects| == 1 &&
      ShowingRange(reply.page.number, reply.page.perPage, reply.total) == (1, 2)
  {
    var query := map["search" := "a"];
    OnlyFirstRowMatches();
    assert TableViews.Searched(SearchedView(), query, SearchedRows()) == SearchedRows()[..1];
    assert TableViews.NumPages(1, 2) == 1;
  }

  /** `addPaginationControls`, with its `for` loop over the middle pages. */
  method AddPaginationControls(currentPage: int, numPages: int) returns (controls: seq<Control>)
    ensures controls == Controls(currentPage, numPages)
  {
    controls := [];
    controls := AppendIf(controls, currentPage > 1, PageButton(currentPage - 1, Some("Previous"), currentPage));
    ghost var prev := controls;
    controls := AppendIf(controls, true, PageButton(1, None, currentPage));
    controls := AppendIf(controls, currentPage > 3, Ellipsis);
    Assoc(prev, [PageButton(1, None, currentPage)], LeadingPart(currentPage));
    ghost var inner := [PageButton(1, None, currentPage)] + LeadingPart(currentPage);
    var lo := Max(2, currentPage - 2);
    var hi := Min(numPages - 1, currentPage + 2);
    controls := AppendMiddle(controls, lo, hi, currentPage);
    Assoc(prev, inner, MiddleButtons(lo, hi, currentPage));
    inner := inner + MiddleButtons(lo, hi, currentPage);
    controls := AppendIf(controls, currentPage < numPages - 2, Ellipsis);
    Assoc(prev, inner, TrailingPart(currentPage, numPages));
    inner := inner + TrailingPart(currentPage, numPages);
    controls := AppendIf(controls, numPages > 1, PageButton(numPages, None, currentPage));
    Assoc(prev, inner, LastPart(currentPage, numPages));
    inner := inner + LastPart(currentPage, numPages);
    controls := AppendIf(controls, currentPage < numPages, PageButton(currentPage + 1, Some("Next"), currentPage));
  }

  lemma Assoc(a: seq<Control>, b: seq<Control>, c: seq<Control>)
    ensures a + b + c == a + (b + c)
  {
  }

  /** `if (cond) paginationWrapper.appendChild(c)`. */
  method AppendIf(controls: seq<Control>, cond: bool, c: Control) returns (r: seq<Control>)
    ensures r == controls + (if cond then [c] else [])
  {
    r := controls;
    if cond {
      r := r + [c];
    }
  }

  /** The `for` loop of `addPaginationControls`: a numbered button for each page from `lo` to `hi`. */
  method AppendMiddle(controls: seq<Control>, lo: int, hi: int, currentPage: int) returns (r: seq<Control>)
    ensures r == controls + MiddleButtons(lo, hi, currentPage)
  {
    r := controls;
    var page := lo;
    while page <= hi
      invariant lo <= page <= Max(lo, hi + 1)
      invariant r == controls + MiddleButtons(lo, page - 1, currentPage)
      decreases hi - page
    {
      r := r + [PageButton(page, None, currentPage)];
      page := page + 1;
    }
  }

  /** The form controls `searchAndSortTable` reads: each value when its element exists. */
  datatype TableForm = TableForm(sortSelect: Option<string>, searchField: Option<string>, perPageSelect: Option<string>)

  /**
   * The query `searchAndSortTable(table, page)` sends, as the server reads
   * it; `None` when the table has neither a sort select nor a search field,
   * in which case no request is made.
   */
  function Params(form: TableForm, page: int): (q: Option<map<string, string>>)
    ensures q.None? <==> form.sortSelect.None? && form.searchField.None?
    ensures q.Some? ==> "page" in q.value && q.value["page"] == IntToString(page)
    ensures q.Some? ==> ("sort_field" in q.value <==> form.sortSelect.Some? && form.sortSelect.value != "none")
    ensures q.Some? && "sort_field" in q.value ==> q.value["sort_field"] == form.sortSelect.value
    ensures q.Some? ==> ("search" in q.value <==> form.searchField.Some? && form.searchField.value != "")
    ensures q.Some? && "search" in q.value ==> q.value["search"] == form.searchField.value
    ensures q.Some? ==> ("per_page" in q.value <==> form.perPageSelect.Some?)
    ensures q.Some? && "per_page" in q.value ==> q.value["per_page"] == form.perPageSelect.value
    ensures q.Some? ==> q.value.Keys <= {"sort_field", "search", "per_page", "page"}
  {
    if form.sortSelect.None? && form.searchField.None? then None
    else
      var withSort: map<string, string> := if form.sortSelect.Some? && form.sortSelect.value != "none" then map["sort_field" := form.sortSelect.value] else map[];
      var withSearch := if form.searchField.Some? && form.searchField.value != "" then withSort["search" := form.searchField.value] else withSort;
      var withPerPage := if form.perPageSelect.Some? then withSearch["per_page" := form.perPageSelect.value] else withSearch;
      Some(withPerPage["page" := IntToString(page)])
  }

  /** The server shows the page the browser asks for whenever it exists; a 'none' sort falls back to the view's default. */
  lemma ServerHonoursRequest(form: TableForm, page: int, view: TableViews.TableView, rows: seq<TableViews.Row>)
    requires form.sortSelect.Some? || form.searchField.Some?
    requires TableViews.ProcessedPage(view, Params(form, page).value, rows).Ok?
    ensures var p := TableViews.ProcessedPage(view, Params(form, page).value, rows).value;
      1 <= page <= p.numPages ==> p.number == page
    ensures form.sortSelect == Some("none") ==> TableViews.SortField(view, Params(form, page).value) == view.sortDefault
  {
    ParseIntOfIntToString(page);
  }

  /** `searchAndSortTable`'s parameter building, one `params.set` at a time. */
  method SearchAndSortParams(form: TableForm, page: int) returns (r: Option<map<string, string>>)
    ensures r == Params(form, page)
  {
    if form.sortSelect.None? && form.searchField.None? {
      return None;
    }
    var params: map<string, string> := map[];
    if form.sortSelect.Some? && form.sortSelect.value != "none" {
      params := params["sort_field" := form.sortSelect.value];
    }
    if form.searchField.Some? && form.searchField.value != "" {
      params := params["search" := form.searchField.value];
    }
    if form.perPageSelect.Some? {
      params := params["per_page" := form.perPageSelect.value];
    }
    params := params["page" := IntToString(page)];
    return Some(params);
  }
}
