// The generic table views of modules/views/__init__.py: the query-string
// rules of `DynamicTableData` (sort field, page size, search, page number,
// Django's `Paginator` with no orphans and an allowed empty first page) and
// the rows `ExcelModelExport` writes.
module TableViews {
  import opened Wrappers
  import opened Text
  import opened Responses

  /** A model field's value, as the views read it with `getattr`. */
  datatype Value = BoolValue(b: bool) | NoneValue | IntValue(i: int) | TextValue(s: string)

  /** One model instance: its field values by name. */
  type Row = map<string, Value>

  /** The class attributes of a `DynamicTableData` subclass. */
  datatype TableView = TableView(sortDefault: string, sortOptions: seq<string>, searchFields: seq<string>, paginateBy: int)

  /** `get_sort_field`: the request's `sort_field` when given, else `sort_default`. */
  function SortField(view: TableView, query: map<string, string>): (r: string)
    ensures "sort_field" in query ==> r == query["sort_field"]
    ensures "sort_field" !in query ==> r == view.sortDefault
  {
    if "sort_field" in query then query["sort_field"] else view.sortDefault
  }

  /** `get_per_page`: `int(per_page)` when given (which raises on text that is not an integer), else `paginate_by`. */
  function PerPage(view: TableView, query: map<string, string>): (r: Result<int, Raised>)
    ensures "per_page" !in query ==> r == Ok(view.paginateBy)
    ensures "per_page" in query ==> (r.Ok? <==> ParseInt(query["per_page"]).Some?)
    ensures "per_page" in query && r.Ok? ==> r.value == ParseInt(query["per_page"]).value
  {
    if "per_page" in query then
      match ParseInt(query["per_page"])
      case None => Err(ValueError("per_page"))
      case Some(n) => Ok(n)
    else Ok(view.paginateBy)
  }

  /** `get_search_term`: the `search` parameter, when given. */
  function SearchTerm(query: map<string, string>): (r: Option<string>)
    ensures r.Some? <==> "search" in query
  {
    if "search" in query then Some(query["search"]) else None
  }

  /** A search is applied only for a non-empty term and a non-empty list of search fields. */
  predicate Searching(view: TableView, term: Option<string>)
  {
    term.Some? && |term.value| > 0 && |view.searchFields| > 0
  }

  /**
   * `field__icontains=term`: the field's value, as the database casts it to
   * text, contains the term, letters compared case-blind. A text field is
   * compared as it is; an integer field (the `amount` of a credit action) by
   * its decimal digits; a NULL never matches.
   */
  predicate FieldContains(row: Row, field: string, term: string)
  {
    field in row &&
    match row[field]
    case TextValue(s) => Contains(Lower(s), Lower(term))
    case IntValue(i) => Contains(Lower(IntToString(i)), Lower(term))
    case _ => false
  }

  /** The search is blind to the case of the term. */
  lemma SearchIgnoresCase(row: Row, field: string, term: string)
    ensures FieldContains(row, field, Upper(term)) <==> FieldContains(row, field, term)
  {
    LowerOfUpper(term);
  }

  /** The credit action the lemmas below search: an action text and an amount of -25. */
  function SpentRow(): Row
  {
    map["action" := TextValue("Bonus"), "amount" := IntValue(-25)]
  }

  lemma SpentAmountText()
    ensures Lower(IntToString(-25)) == "-25"
  {
    assert NatToString(25) == "25";
  }

  /** A credit action of -25 credits is found by searching its amount for "25". */
  lemma AmountIsSearched()
    ensures Matches(SpentRow(), ["action", "amount"], "25")
  {
    SpentAmountText();
    assert Lower("25") == "25";
    assert OccursAt("-25", "25", 1);
    assert FieldContains(SpentRow(), ["action", "amount"][1], "25");
  }

  /** A single character absent from a text is not contained in it. */
  lemma AbsentCharNotContained(s: string, c: char)
    requires forall k :: 0 <= k < |s| ==> s[k] != c
    ensures !Contains(s, [c])
  {
    forall k: nat | k <= |s| ensures !OccursAt(s, [c], k) {
      if k < |s| {
        assert s[k..k + 1][0] == s[k];
      }
    }
  }

  lemma ActionLacksSeven()
    ensures !Contains(Lower("Bonus"), Lower("7"))
  {
    assert Lower("7") == ['7'];
    forall k | 0 <= k < |Lower("Bonus")| ensures Lower("Bonus")[k] != '7' {
      assert "Bonus"[k] != '7';
    }
    AbsentCharNotContained(Lower("Bonus"), '7');
  }

  lemma AmountLacksSeven()
    ensures !Contains(Lower(IntToString(-25)), Lower("7"))
  {
    SpentAmountText();
    assert Lower("7") == ['7'];
    AbsentCharNotContained("-25", '7');
  }

  /** ... and not by searching for "7", which neither its action nor its amount holds. */
  lemma AbsentDigitNotFound()
    ensures !Matches(SpentRow(), ["action", "amount"], "7")
  {
    ActionLacksSeven();
    AmountLacksSeven();
    assert !FieldContains(SpentRow(), "action", "7");
    assert !FieldContains(SpentRow(), "amount", "7");
  }

  /** The OR of one `icontains` lookup per search field. */
  predicate Matches(row: Row, fields: seq<string>, term: string)
  {
    exists i :: 0 <= i < |fields| && FieldContains(row, fields[i], term)
  }

  /** `queryset.filter(search_query)`: the matching rows, in order. */
  function Filtered(rows: seq<Row>, fields: seq<string>, term: string): (r: seq<Row>)
    ensures |r| <= |rows|
  {
    if |rows| == 0 then []
    else
      var kept := Filtered(rows[..|rows| - 1], fields, term);
      if Matches(rows[|rows| - 1], fields, term) then kept + [rows[|rows| - 1]] else kept
  }

  /** The filter keeps exactly the rows that match some search field. */
  lemma {:induction false} FilteredKeepsMatches(rows: seq<Row>, fields: seq<string>, term: string, x: Row)
    ensures x in Filtered(rows, fields, term) <==> x in rows && Matches(x, fields, term)
  {
    if |rows| > 0 {
      FilteredKeepsMatches(rows[..|rows| - 1], fields, term, x);
      assert rows == rows[..|rows| - 1] + [rows[|rows| - 1]];
    }
  }

  /** The rows the view pages through: filtered when a search applies, the whole queryset otherwise. */
  function Searched(view: TableView, query: map<string, string>, rows: seq<Row>): (r: seq<Row>)
    ensures !Searching(view, SearchTerm(query)) ==> r == rows
  {
    var term := SearchTerm(query);
    if Searching(view, term) then Filtered(rows, view.searchFields, term.value) else rows
  }

  /** `Paginator.num_pages` with no orphans and an allowed empty first page. */
  function NumPages(count: nat, perPage: int): (r: int)
    requires perPage >= 1
    ensures r >= 1
    ensures (r - 1) * perPage < count <= r * perPage || (count == 0 && r == 1)
  {
    if count == 0 then 1 else (count + perPage - 1) / perPage
  }

  /**
   * The page the view shows for `GET.get('page', 1)`: text that is not an
   * integer gives page 1 (`PageNotAnInteger`); a number below 1 or past the
   * last page gives the last page (`EmptyPage`).
   */
  function PageNumber(page: Option<string>, numPages: int): (r: int)
    requires numPages >= 1
    ensures 1 <= r <= numPages
    ensures page.None? ==> r == 1
    ensures page.Some? && ParseInt(page.value).None? ==> r == 1
    ensures page.Some? && ParseInt(page.value).Some? ==>
      var n := ParseInt(page.value).value;
      r == if 1 <= n <= numPages then n else numPages
  {
    if page.None? then 1
    else
      match ParseInt(page.value)
      case None => 1
      case Some(n) => if n < 1 || n > numPages then numPages else n
  }

  lemma MulMono(a: int, b: int, c: int)
    requires a <= b && c >= 0
    ensures a * c <= b * c
  {
    assert b * c - a * c == (b - a) * c;
  }

  /** Where page `number` starts and, for any page but the last, ends. */
  lemma PageBounds(count: nat, perPage: int, number: int)
    requires perPage >= 1 && 1 <= number <= NumPages(count, perPage)
    ensures number * perPage == (number - 1) * perPage + perPage
    ensures 0 <= (number - 1) * perPage <= count
    ensures count > 0 ==> (number - 1) * perPage < count
    ensures number < NumPages(count, perPage) ==> number * perPage < count
  {
    var np := NumPages(count, perPage);
    MulMono(0, number - 1, perPage);
    MulMono(number - 1, np - 1, perPage);
    if number < np {
      MulMono(number, np - 1, perPage);
    }
  }

  /** The objects on page `number`: the slice Django's `Paginator.page` takes. */
  function PageRows(rows: seq<Row>, perPage: int, number: int): (r: seq<Row>)
    requires perPage >= 1 && 1 <= number <= NumPages(|rows|, perPage)
    ensures |r| <= perPage && (|rows| > 0 ==> |r| >= 1)
    ensures number < NumPages(|rows|, perPage) ==> |r| == perPage
  {
    PageBounds(|rows|, perPage, number);
    var bottom := (number - 1) * perPage;
    var top := if bottom + perPage >= |rows| then |rows| else bottom + perPage;
    rows[bottom..top]
  }

  /** The page `get_processed_queryset` returns, with what `get` reports of its paginator. */
  datatype Page = Page(number: int, numPages: int, perPage: int, objects: seq<Row>)

  /** The JSON body of `DynamicTableData.get`, the rendered HTML left out. */
  datatype TableReply = TableReply(sortDefault: string, sortOptions: seq<string>, total: int, page: Page)

  /**
   * `get_processed_queryset`. A page size that does not parse raises
   * `ValueError`; a page size of 0 makes Django's page count divide by zero;
   * a negative one gives a page count below 1, so even the last page raises
   * `EmptyPage`.
   */
  function ProcessedPage(view: TableView, query: map<string, string>, rows: seq<Row>): (r: Result<Page, Raised>)
    ensures r.Ok? <==> PerPage(view, query).Ok? && PerPage(view, query).value >= 1
    ensures r.Ok? ==>
      var matched := Searched(view, query, rows);
      r.value.perPage == PerPage(view, query).value &&
      r.value.numPages == NumPages(|matched|, r.value.perPage) &&
      1 <= r.value.number <= r.value.numPages &&
      r.value.objects == PageRows(matched, r.value.perPage, r.value.number)
  {
    var matched := Searched(view, query, rows);
    match PerPage(view, query)
    case Err(e) => Err(e)
    case Ok(per) =>
      if per == 0 then Err(ZeroDivision)
      else if per < 0 then Err(EmptyPage("That page contains no results"))
      else
        var numPages := NumPages(|matched|, per);
        var number := PageNumber(if "page" in query then Some(query["page"]) else None, numPages);
        Ok(Page(number, numPages, per, PageRows(matched, per, number)))
  }

  /** `DynamicTableData.get`. */
  function TableData(view: TableView, query: map<string, string>, rows: seq<Row>): (r: Result<TableReply, Raised>)
    ensures r.Ok? <==> ProcessedPage(view, query, rows).Ok?
    ensures r.Ok? ==> r.value.page == ProcessedPage(view, query, rows).value
    ensures r.Ok? ==> r.value.sortDefault == view.sortDefault && r.value.sortOptions == view.sortOptions
  {
    match ProcessedPage(view, query, rows)
    case Err(e) => Err(e)
    case Ok(page) => Ok(TableReply(view.sortDefault, view.sortOptions, |rows|, page))
  }

  /** 'total' counts the whole queryset, not the rows a search leaves. */
  lemma TotalIgnoresSearch(view: TableView, query: map<string, string>, rows: seq<Row>)
    requires TableData(view, query, rows).Ok?
    ensures TableData(view, query, rows).value.total == |rows|
    ensures TableData(view, query, rows).value.page.numPages == NumPages(|Searched(view, query, rows)|, TableData(view, query, rows).value.page.perPage)
  {
  }

  /** Every object on a page matches the search, when one applies. */
  lemma PageRowsMatch(view: TableView, query: map<string, string>, rows: seq<Row>, x: Row)
    requires ProcessedPage(view, query, rows).Ok? && x in ProcessedPage(view, query, rows).value.objects
    requires Searching(view, SearchTerm(query))
    ensures x in rows && Matches(x, view.searchFields, SearchTerm(query).value)
  {
    var p := ProcessedPage(view, query, rows).value;
    var matched := Searched(view, query, rows);
    assert p.objects == PageRows(matched, p.perPage, p.number);
    assert x in matched;
    FilteredKeepsMatches(rows, view.searchFields, SearchTerm(query).value, x);
  }

  /** The pages of a result, read in order, give back every row exactly once. */
  lemma {:induction false} PagesCoverRows(rows: seq<Row>, perPage: int, n: int)
    requires perPage >= 1 && 0 <= n <= NumPages(|rows|, perPage)
    ensures AllPages(rows, perPage, n) == rows[..if n * perPage <= |rows| then n * perPage else |rows|]
  {
    if n > 0 {
      PagesCoverRows(rows, perPage, n - 1);
      PageBounds(|rows|, perPage, n);
      var bottom := (n - 1) * perPage;
      var top := if n * perPage <= |rows| then n * perPage else |rows|;
      assert AllPages(rows, perPage, n - 1) == rows[..bottom];
      assert PageRows(rows, perPage, n) == rows[bottom..top];
      assert rows[..bottom] + rows[bottom..top] == rows[..top];
    }
  }

  /** The objects of pages 1 to `n`, one after the other. */
  function AllPages(rows: seq<Row>, perPage: int, n: int): seq<Row>
    requires perPage >= 1 && 0 <= n <= NumPages(|rows|, perPage)
  {
    if n == 0 then [] else AllPages(rows, perPage, n - 1) + PageRows(rows, perPage, n)
  }

  lemma PagesCoverAll(rows: seq<Row>, perPage: int)
    requires perPage >= 1
    ensures AllPages(rows, perPage, NumPages(|rows|, perPage)) == rows
  {
    PagesCoverRows(rows, perPage, NumPages(|rows|, perPage));
  }

  // ----- ExcelModelExport -----

  const FIELDS_MISSING: string := "You must define fields or override the get_fields method"
  const FIELD_DICT_INCOMPLETE: string := "If you pass a field as a dictionary, it must have a header and a field key."

  /** `format_field_value`; booleans are tested before `None`, as `bool` is the first branch. */
  function FormatFieldValue(v: Value): (r: string)
    ensures v.BoolValue? ==> r == if v.b then "Yes" else "No"
    ensures v.NoneValue? ==> r == ""
    ensures v.IntValue? ==> r == IntToString(v.i)
    ensures v.TextValue? ==> r == v.s
  {
    match v
    case BoolValue(b) => if b then "Yes" else "No"
    case NoneValue => ""
    case IntValue(i) => IntToString(i)
    case TextValue(s) => s
  }

  /** One entry of `fields`: a field name, a dict, or a value of another type. */
  datatype FieldSpec = FieldName(name: string) | FieldDict(entries: map<string, string>) | OtherSpec

  /** A column of the export: its header and the attribute it reads. */
  datatype Column = Column(header: string, field: string)

  /** The column one entry gives: `None` for an entry of another type, an error for an incomplete dict. */
  function ColumnOf(spec: FieldSpec): (r: Result<Option<Column>, Raised>)
    ensures spec.FieldName? ==> r == Ok(Some(Column(spec.name, spec.name)))
    ensures spec.OtherSpec? ==> r == Ok(None)
    ensures spec.FieldDict? ==> (r.Ok? <==> "header" in spec.entries && "field" in spec.entries)
    ensures spec.FieldDict? && r.Ok? ==> r.value == Some(Column(spec.entries["header"], spec.entries["field"]))
  {
    match spec
    case FieldName(name) => Ok(Some(Column(name, name)))
    case OtherSpec => Ok(None)
    case FieldDict(entries) =>
      if "header" !in entries || "field" !in entries then Err(ValueError(FIELD_DICT_INCOMPLETE))
      else Ok(Some(Column(entries["header"], entries["field"])))
  }

  /** The columns of a list of entries, in order; the first incomplete dict raises. */
  function Columns(specs: seq<FieldSpec>): (r: Result<seq<Column>, Raised>)
    ensures r.Ok? ==> |r.value| <= |specs|
  {
    if |specs| == 0 then Ok([])
    else
      match Columns(specs[..|specs| - 1])
      case Err(e) => Err(e)
      case Ok(cols) =>
        match ColumnOf(specs[|specs| - 1])
        case Err(e) => Err(e)
        case Ok(c) => Ok(if c.Some? then cols + [c.value] else cols)
  }

  /** `get_formatted_fields`, with `get_fields` raising on an empty list. */
  function FormattedFields(specs: seq<FieldSpec>): Result<seq<Column>, Raised>
  {
    if |specs| == 0 then Err(NotImplemented(FIELDS_MISSING)) else Columns(specs)
  }

  /** The columns fail exactly when some entry is a dict without 'header' or 'field'. */
  lemma {:induction false} ColumnsFailOnIncompleteDict(specs: seq<FieldSpec>)
    ensures Columns(specs).Err? <==> exists i :: 0 <= i < |specs| && ColumnOf(specs[i]).Err?
  {
    if |specs| > 0 {
      var init := specs[..|specs| - 1];
      ColumnsFailOnIncompleteDict(init);
      if exists i :: 0 <= i < |init| && ColumnOf(init[i]).Err? {
        var i :| 0 <= i < |init| && ColumnOf(init[i]).Err?;
        assert specs[i] == init[i];
      }
      if exists i :: 0 <= i < |specs| && ColumnOf(specs[i]).Err? {
        var i :| 0 <= i < |specs| && ColumnOf(specs[i]).Err?;
        if i < |init| {
          assert init[i] == specs[i];
        }
      }
    }
  }

  /** Plain field names give one column each, headed by the name, in order. */
  lemma {:induction false} NamesGiveOwnColumns(specs: seq<FieldSpec>)
    requires forall i :: 0 <= i < |specs| ==> specs[i].FieldName?
    ensures Columns(specs).Ok? && |Columns(specs).value| == |specs|
    ensures forall i :: 0 <= i < |specs| ==> Columns(specs).value[i] == Column(specs[i].name, specs[i].name)
  {
    if |specs| > 0 {
      var init := specs[..|specs| - 1];
      NamesGiveOwnColumns(init);
      var cols := Columns(specs).value;
      forall i | 0 <= i < |specs|
        ensures cols[i] == Column(specs[i].name, specs[i].name)
      {
        if i < |init| {
          assert init[i] == specs[i];
          assert cols[i] == Columns(init).value[i];
        }
      }
    }
  }

  /** The loop of `get_formatted_fields`. */
  method GetFormattedFields(specs: seq<FieldSpec>) returns (r: Result<seq<Column>, Raised>)
    ensures r == FormattedFields(specs)
  {
    if |specs| == 0 {
      return Err(NotImplemented(FIELDS_MISSING));
    }
    var formatted: seq<Column> := [];
    var i := 0;
    while i < |specs|
      invariant 0 <= i <= |specs|
      invariant Columns(specs[..i]) == Ok(formatted)
    {
      assert specs[..i + 1][..i] == specs[..i];
      match specs[i] {
        case FieldDict(entries) =>
          if "header" !in entries || "field" !in entries {
            ColumnsErrorStays(specs, i + 1);
            return Err(ValueError(FIELD_DICT_INCOMPLETE));
          }
          formatted := formatted + [Column(entries["header"], entries["field"])];
        case FieldName(name) =>
          formatted := formatted + [Column(name, name)];
        case OtherSpec =>
      }
      i := i + 1;
    }
    assert specs[..|specs|] == specs;
    return Ok(formatted);
  }

  lemma {:induction false} ColumnsErrorStays(specs: seq<FieldSpec>, n: nat)
    requires n <= |specs| && Columns(specs[..n]).Err?
    ensures Columns(specs) == Columns(specs[..n])
    decreases |specs| - n
  {
    if n < |specs| {
      assert specs[..n + 1][..n] == specs[..n];
      ColumnsErrorStays(specs, n + 1);
    } else {
      assert specs[..n] == specs;
    }
  }

  /** The header row: each column's header. */
  function Headers(cols: seq<Column>): (r: seq<string>)
    ensures |r| == |cols| && forall i :: 0 <= i < |cols| ==> r[i] == cols[i].header
  {
    seq(|cols|, i requires 0 <= i < |cols| => cols[i].header)
  }

  /** One data row: each column's attribute, formatted; an attribute the object lacks raises. */
  function Cells(obj: Row, cols: seq<Column>): (r: Result<seq<string>, Raised>)
    ensures r.Ok? <==> forall i :: 0 <= i < |cols| ==> cols[i].field in obj
    ensures r.Ok? ==> |r.value| == |cols| && forall i :: 0 <= i < |cols| ==> r.value[i] == FormatFieldValue(obj[cols[i].field])
  {
    if forall i :: 0 <= i < |cols| ==> cols[i].field in obj then
      Ok(seq(|cols|, i requires 0 <= i < |cols| => FormatFieldValue(obj[cols[i].field])))
    else
      Err(AttributeError(MissingField(obj, cols)))
  }

  /** The first column whose attribute the object lacks. */
  function MissingField(obj: Row, cols: seq<Column>): string
  {
    if |cols| == 0 then "" else if cols[0].field !in obj then cols[0].field else MissingField(obj, cols[1..])
  }

  /** The data rows for the objects, in queryset order; the first failing object raises. */
  function DataRows(objects: seq<Row>, cols: seq<Column>): (r: Result<seq<seq<string>>, Raised>)
    ensures r.Ok? ==> |r.value| == |objects|
    ensures r.Ok? ==> forall k :: 0 <= k < |objects| ==> Cells(objects[k], cols) == Ok(r.value[k])
  {
    if |objects| == 0 then Ok([])
    else
      match DataRows(objects[..|objects| - 1], cols)
      case Err(e) => Err(e)
      case Ok(rows) =>
        match Cells(objects[|objects| - 1], cols)
        case Err(e) => Err(e)
        case Ok(cells) => Ok(rows + [cells])
  }

  /** The dataset `ExcelModelExport.get` writes: the header row, then one row per object. */
  function ExportRows(objects: seq<Row>, specs: seq<FieldSpec>): (r: Result<seq<seq<string>>, Raised>)
  {
    match FormattedFields(specs)
    case Err(e) => Err(e)
    case Ok(cols) =>
      match DataRows(objects, cols)
      case Err(e) => Err(e)
      case Ok(rows) => Ok([Headers(cols)] + rows)
  }

  /**
   * A successful export has one row more than the queryset, headers first,
   * every row as wide as the column list; an empty field list raises.
   */
  lemma ExportShape(objects: seq<Row>, specs: seq<FieldSpec>)
    ensures |specs| == 0 ==> ExportRows(objects, specs) == Err(NotImplemented(FIELDS_MISSING))
    ensures ExportRows(objects, specs).Ok? ==>
      var rows := ExportRows(objects, specs).value;
      var cols := FormattedFields(specs).value;
      |rows| == 1 + |objects| && rows[0] == Headers(cols) &&
      forall k :: 0 <= k < |rows| ==> |rows[k]| == |cols|
  {
    if ExportRows(objects, specs).Ok? {
      var rows := ExportRows(objects, specs).value;
      var cols := FormattedFields(specs).value;
      var data := DataRows(objects, cols).value;
      forall k | 0 <= k < |rows|
        ensures |rows[k]| == |cols|
      {
        if k > 0 {
          assert rows[k] == data[k - 1];
        }
      }
    }
  }

  /** The loop of `ExcelModelExport.get` that fills the dataset. */
  method Export(objects: seq<Row>, specs: seq<FieldSpec>) returns (r: Result<seq<seq<string>>, Raised>)
    ensures r == ExportRows(objects, specs)
  {
    var fields := GetFormattedFields(specs);
    if fields.Err? {
      return Err(fields.error);
    }
    var cols := fields.value;
    var data: seq<seq<string>> := [];
    var k := 0;
    while k < |objects|
      invariant 0 <= k <= |objects|
      invariant DataRows(objects[..k], cols) == Ok(data)
    {
      assert objects[..k + 1][..k] == objects[..k];
      var cells := Cells(objects[k], cols);
      if cells.Err? {
        DataRowsErrorStays(objects, cols, k + 1);
        return Err(cells.error);
      }
      data := data + [cells.value];
      k := k + 1;
    }
    assert objects[..|objects|] == objects;
    return Ok([Headers(cols)] + data);
  }

  lemma {:induction false} DataRowsErrorStays(objects: seq<Row>, cols: seq<Column>, n: nat)
    requires n <= |objects| && DataRows(objects[..n], cols).Err?
    ensures DataRows(objects, cols) == DataRows(objects[..n], cols)
    decreases |objects| - n
  {
    if n < |objects| {
      assert objects[..n + 1][..n] == objects[..n];
      DataRowsErrorStays(objects, cols, n + 1);
    } else {
      assert objects[..n] == objects;
    }
  }
}
