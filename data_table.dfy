/** The generic table of components/admin/data-table.tsx: a search box that
    filters on one field, and page-by-page display with previous and next
    buttons. `search` and `currentPage` are the component's state; the data,
    the searched field, whether to paginate and the page size are its
    properties. */
module DataTable {
  import opened Types
  import opened Lists
  import opened Text

  /** `item[searchKey]`: the searched field's value, a string or anything
      else. */
  datatype FieldValue = StringValue(text: string) | OtherValue

  /** The search keeps a string field whose lowercased text contains the
      lowercased query, and keeps any item whose field is not a string. */
  predicate Matches(v: FieldValue, query: string) {
    match v
    case StringValue(text) => Contains(Lower(text), Lower(query))
    case OtherValue => true
  }

  function MatchesQuery<T>(field: T -> FieldValue, query: string): T -> bool {
    (x: T) => Matches(field(x), query)
  }

  /** `filteredData`. */
  function Filtered<T(==,!new)>(data: seq<T>, searchKey: Option<T -> FieldValue>, query: string): (r: seq<T>)
    ensures searchKey.None? ==> r == data
    ensures searchKey.Some? ==> forall x :: x in r <==> x in data && Matches(searchKey.value(x), query)
    ensures searchKey.Some? ==> forall x :: multiset(r)[x] == if Matches(searchKey.value(x), query) then multiset(data)[x] else 0
    ensures searchKey.Some? ==> IsSubsequence(r, data)
  {
    if searchKey.None? then data
    else
      var keep := MatchesQuery(searchKey.value, query);
      forall x ensures x in Filter(data, keep) <==> x in data && keep(x) {
        FilterMember(data, keep, x);
      }
      forall x ensures multiset(Filter(data, keep))[x] == if keep(x) then multiset(data)[x] else 0 {
        FilterMultiplicity(data, keep, x);
      }
      FilterIsSubsequence(data, keep);
      Filter(data, keep)
  }

  lemma StartsWithEmpty(s: string)
    ensures Contains(s, "")
  {
    assert s[..0] == "";
  }

  /** An empty query keeps every row. */
  lemma EmptyQueryKeepsAll<T(!new)>(data: seq<T>, searchKey: Option<T -> FieldValue>)
    ensures Filtered(data, searchKey, "") == data
  {
    if searchKey.Some? {
      var keep := MatchesQuery(searchKey.value, "");
      forall i | 0 <= i < |data| ensures keep(data[i]) {
        if searchKey.value(data[i]).StringValue? {
          StartsWithEmpty(Lower(searchKey.value(data[i]).text));
        }
      }
      FilterAll(data, keep);
    }
  }

  /** `Math.ceil(n / pageSize)`. */
  function TotalPages(n: nat, pageSize: nat): nat
    requires pageSize >= 1
  {
    (n + pageSize - 1) / pageSize
  }

  /** The pages are the fewest that hold every row: none for no rows, and
      otherwise the last page is the one holding the last row. */
  lemma TotalPagesMeaning(n: nat, pageSize: nat)
    requires pageSize >= 1
    ensures var t := TotalPages(n, pageSize);
            (t - 1) * pageSize < n <= t * pageSize || (n == 0 && t == 0)
    ensures TotalPages(n, pageSize) == 0 <==> n == 0
  {
    var a := n + pageSize - 1;
    var t := a / pageSize;
    assert a == t * pageSize + a % pageSize;
    if n > 0 {
      assert t >= 1;
    }
  }

  /** `(currentPage - 1) * pageSize`. */
  function StartIndex(page: int, pageSize: nat): int {
    (page - 1) * pageSize
  }

  /** `s.slice(start, end)` for non-negative bounds: both are clamped to the
      length, and a range that ends before it starts is empty. */
  function Slice<T>(s: seq<T>, start: nat, end: nat): seq<T> {
    var a := if start < |s| then start else |s|;
    var b := if end < |s| then end else |s|;
    if a < b then s[a..b] else []
  }

  /** `paginatedData`. */
  function Visible<T>(filtered: seq<T>, showPagination: bool, page: nat, pageSize: nat): seq<T>
    requires page >= 1
  {
    if showPagination then
      var start := (page - 1) * pageSize;
      Slice(filtered, start, start + pageSize)
    else filtered
  }

  function Min(a: int, b: int): int {
    if a < b then a else b
  }

  /** A page never shows more than `pageSize` rows, and a page in range shows
      exactly the rows from `start + 1` to `min(start + pageSize, n)` that
      the caption names; past the last page nothing is shown. */
  lemma PageContents<T>(filtered: seq<T>, page: nat, pageSize: nat)
    requires page >= 1 && pageSize >= 1
    ensures |Visible(filtered, true, page, pageSize)| <= pageSize
    ensures var start := StartIndex(page, pageSize);
            page <= TotalPages(|filtered|, pageSize) ==>
              0 <= start < Min(start + pageSize, |filtered|)
              && Visible(filtered, true, page, pageSize) == filtered[start..Min(start + pageSize, |filtered|)]
    ensures page > TotalPages(|filtered|, pageSize) ==> Visible(filtered, true, page, pageSize) == []
  {
    var n := |filtered|;
    var start := (page - 1) * pageSize;
    assert start == StartIndex(page, pageSize);
    TotalPagesMeaning(n, pageSize);
    var t := TotalPages(n, pageSize);
    if page <= t {
      MulMono(page - 1, t - 1, pageSize);
    } else {
      MulMono(t, page - 1, pageSize);
    }
  }

  lemma MulMono(x: nat, y: nat, b: nat)
    requires x <= y
    ensures x * b <= y * b
  {
    assert y * b == x * b + (y - x) * b;
  }

  /** The table's own state over fixed properties. */
  class Table<T(==,!new)> {
    const data: seq<T>
    const searchKey: Option<T -> FieldValue>
    const showPagination: bool
    const pageSize: nat
    var search: string
    var currentPage: nat

    predicate Valid()
      reads this
    {
      pageSize >= 1 && currentPage >= 1
    }

    constructor(data: seq<T>, searchKey: Option<T -> FieldValue>, showPagination: bool, pageSize: nat)
      requires pageSize >= 1
      ensures Valid()
      ensures this.data == data && this.searchKey == searchKey
      ensures this.showPagination == showPagination && this.pageSize == pageSize
      ensures search == "" && currentPage == 1
    {
      this.data := data;
      this.searchKey := searchKey;
      this.showPagination := showPagination;
      this.pageSize := pageSize;
      search := "";
      currentPage := 1;
    }

    function FilteredData(): seq<T>
      reads this
    {
      Filtered(data, searchKey, search)
    }

    function Pages(): nat
      reads this
      requires Valid()
    {
      TotalPages(|FilteredData()|, pageSize)
    }

    function Rows(): seq<T>
      reads this
      requires Valid()
    {
      Visible(FilteredData(), showPagination, currentPage, pageSize)
    }

    /** The caption and the buttons appear only with more than one page. */
    predicate ShowsControls()
      reads this
      requires Valid()
    {
      showPagination && Pages() > 1
    }

    /** Typing in the search box goes back to the first page. */
    method SetSearch(text: string)
      requires Valid()
      modifies this`search, this`currentPage
      ensures Valid()
      ensures search == text && currentPage == 1
    {
      search := text;
      currentPage := 1;
    }

    /** `Math.max(1, p - 1)`. */
    method Prev()
      requires Valid()
      modifies this`currentPage
      ensures Valid()
      ensures currentPage == if old(currentPage) > 1 then old(currentPage) - 1 else 1
    {
      if currentPage > 1 {
        currentPage := currentPage - 1;
      }
    }

    /** `Math.min(totalPages, p + 1)`; the button exists only while the
        controls are shown. */
    method Next()
      requires Valid() && ShowsControls()
      modifies this`currentPage
      ensures Valid()
      ensures currentPage == Min(old(Pages()), old(currentPage) + 1)
      ensures currentPage <= Pages()
    {
      currentPage := Min(Pages(), currentPage + 1);
    }
  }
}
