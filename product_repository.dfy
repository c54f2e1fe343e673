/** The product repository of
    src/infrastructure/repositories/SupabaseProductRepository.ts. Each method
    builds one query against the product table and wraps the answer in a
    data/error envelope. The query is modelled as a plan (filter, orderings,
    row range) and the backend's answer as an input value. */
module ProductRepository {
  import opened Common
  import opened Domain

  const UnexpectedErrorCode: string := "UNEXPECTED_ERROR"
  const NotFoundCode: string := "NOT_FOUND"
  const NotFoundText: string := "商品不存在"
  const CreatedAtColumn: string := "created_at"

  /** The repository's methods, each with its own error texts. */
  datatype Operation = GetAll | GetById | Create | Update | Delete | UpdateStock | GetByCategory | Search

  const FailureEnding: string := "失敗: "
  const UnexpectedEnding: string := "時發生未預期的錯誤"

  /** The text put before the backend's message when the query reports an
      error: it says that the operation failed, and a colon and space separate
      it from the backend's message. */
  function FailurePrefix(op: Operation): (prefix: string)
    ensures |prefix| > |FailureEnding| && prefix[|prefix| - |FailureEnding|..] == FailureEnding
    ensures prefix[..|prefix| - |FailureEnding|] == OperationName(op)
  {
    var prefix := OperationName(op) + FailureEnding;
    assert prefix[|OperationName(op)|..] == FailureEnding;
    assert prefix[..|OperationName(op)|] == OperationName(op);
    prefix
  }

  /** The message of the envelope built when the call throws: it says that an
      unexpected error occurred during the operation. */
  function UnexpectedText(op: Operation): (text: string)
    ensures |text| > |UnexpectedEnding| && text[|text| - |UnexpectedEnding|..] == UnexpectedEnding
    ensures text[..|text| - |UnexpectedEnding|] == OperationName(op)
  {
    var text := OperationName(op) + UnexpectedEnding;
    assert text[|OperationName(op)|..] == UnexpectedEnding;
    assert text[..|OperationName(op)|] == OperationName(op);
    text
  }

  /** The name of the operation that opens both of its texts. */
  function OperationName(op: Operation): string
  {
    match op
    case GetAll => "取得商品列表"
    case GetById => "取得商品"
    case Create => "建立商品"
    case Update => "更新商品"
    case Delete => "刪除商品"
    case UpdateStock => "更新庫存"
    case GetByCategory => "取得類別商品"
    case Search => "搜尋商品"
  }

  /** Every method has its own texts, so a message tells which call failed. */
  lemma TextsIdentifyOperation(a: Operation, b: Operation)
    ensures FailurePrefix(a) == FailurePrefix(b) ==> a == b
    ensures UnexpectedText(a) == UnexpectedText(b) ==> a == b
  {
    NamesIdentifyOperation(a, b);
  }

  lemma NamesIdentifyOperation(a: Operation, b: Operation)
    ensures OperationName(a) == OperationName(b) ==> a == b
  {
  }

  // ---------------------------------------------------------------------------
  // Pagination

  /** An inclusive range of row positions, counted from 0. */
  datatype RowRange = RowRange(first: int, last: int)

  /** The range applied for a page: only when both page and limit are truthy,
      page p with limit L covering positions (p - 1) * L to (p - 1) * L + L - 1. */
  function PageRange(options: PaginationOptions): (r: Option<RowRange>)
    ensures r.Some? <==> TruthyNumber(options.page) && TruthyNumber(options.limit)
    ensures r.Some? ==> r.value.first == (options.page.value - 1) * options.limit.value
    ensures r.Some? ==> r.value.last - r.value.first + 1 == options.limit.value
  {
    if options.page.Some? && options.page.value != 0 && options.limit.Some? && options.limit.value != 0 then
      var first := (options.page.value - 1) * options.limit.value;
      Some(RowRange(first, first + options.limit.value - 1))
    else None
  }

  function PageOptions(page: int, limit: int): PaginationOptions
  {
    PaginationOptions(Some(page), Some(limit), None, None)
  }

  /** Page 1 starts at position 0, and each page ends right before the next
      one starts. */
  lemma PagesAreAdjacent(page: int, limit: int)
    requires page != 0 && page != -1 && limit != 0
    ensures page == 1 ==> PageRange(PageOptions(page, limit)).value.first == 0
    ensures PageRange(PageOptions(page, limit)).value.last + 1 ==
            PageRange(PageOptions(page + 1, limit)).value.first
  {
  }

  /** With a positive limit, every position n >= 0 lies on exactly one
      positive page: page n / limit + 1. */
  lemma {:induction false} PositionOnExactlyOnePage(n: int, page: int, limit: int)
    requires n >= 0 && page >= 1 && limit >= 1
    ensures var r := PageRange(PageOptions(page, limit)).value;
      r.first <= n <= r.last <==> page == n / limit + 1
  {
    var r := PageRange(PageOptions(page, limit)).value;
    var q := n / limit;
    assert n == q * limit + n % limit && 0 <= n % limit < limit;
    assert r.first == (page - 1) * limit;
    if page - 1 < q {
      assert (page - 1) * limit + limit == page * limit;
      MultiplyMonotone(page, q, limit);
      assert r.last < n;
    } else if page - 1 > q {
      MultiplyMonotone(q + 1, page - 1, limit);
      assert r.first > n;
    } else {
      assert r.first == q * limit;
    }
  }

  lemma MultiplyMonotone(a: int, b: int, c: int)
    requires a <= b && c >= 0
    ensures a * c <= b * c
  {
  }

  // ---------------------------------------------------------------------------
  // Query plans

  datatype Filter =
    | NoFilter
    | IdEquals(id: string)
    | CategoryEquals(category: string)
    | OrFilter(condition: string)

  datatype Ordering = Ordering(column: string, ascending: bool)

  /** A read query: the rows matching the filter, sorted by the orderings in
      turn, restricted to the row range when there is one. */
  datatype QueryPlan = QueryPlan(filter: Filter, orderings: seq<Ordering>, range: Option<RowRange>)

  const NewestFirst: Ordering := Ordering(CreatedAtColumn, false)

  const NamePattern: string := "name.ilike.%"
  const DescriptionPattern: string := "description.ilike.%"

  /** The case-insensitive match of the search text in the name or the
      description: the text, wrapped in wildcards, once after each column's
      pattern, the two conditions separated by a comma. */
  function SearchCondition(query: string): (c: string)
    ensures var n := |NamePattern| + |query|;
      && |c| == n + 2 + |DescriptionPattern| + |query| + 1
      && c[..|NamePattern|] == NamePattern && c[|NamePattern|..n] == query && c[n..n + 2] == "%,"
      && c[n + 2..n + 2 + |DescriptionPattern|] == DescriptionPattern
      && c[n + 2 + |DescriptionPattern|..|c| - 1] == query && c[|c| - 1] == '%'
  {
    var head := NamePattern + query + "%,";
    var tail := DescriptionPattern + query + "%";
    assert head[|NamePattern| + |query|..] == "%,";
    assert tail[..|DescriptionPattern|] == DescriptionPattern;
    assert (head + tail)[|head|..] == tail;
    head + tail
  }

  /** `getAll`: newest first, then the requested column when `sortBy` is
      truthy (ascending only for `asc`). */
  function GetAllPlan(options: PaginationOptions): (plan: QueryPlan)
    ensures plan.filter == NoFilter && plan.range == PageRange(options)
    ensures |plan.orderings| >= 1 && plan.orderings[0] == NewestFirst
    ensures |plan.orderings| == 2 <==> TruthyString(options.sortBy)
    ensures |plan.orderings| == 2 ==>
      plan.orderings[1] == Ordering(options.sortBy.value, options.sortOrder == Some(Asc))
  {
    var extra := if options.sortBy.Some? && options.sortBy.value != "" then
      [Ordering(options.sortBy.value, options.sortOrder == Some(Asc))] else [];
    QueryPlan(NoFilter, [NewestFirst] + extra, PageRange(options))
  }

  /** `getByCategory`: the unsorted `getAll` plan restricted to the category's
      rows, so newest first and paged the same way; `sortBy` is ignored. */
  function GetByCategoryPlan(category: string, options: PaginationOptions): (plan: QueryPlan)
    ensures plan == GetAllPlan(options.(sortBy := None)).(filter := CategoryEquals(category))
  {
    QueryPlan(CategoryEquals(category), [NewestFirst], PageRange(options))
  }

  /** `search`: the unsorted `getAll` plan restricted to rows whose name or
      description contains the text; `sortBy` is ignored. */
  function SearchPlan(query: string, options: PaginationOptions): (plan: QueryPlan)
    ensures plan == GetAllPlan(options.(sortBy := None)).(filter := OrFilter(SearchCondition(query)))
  {
    QueryPlan(OrFilter(SearchCondition(query)), [NewestFirst], PageRange(options))
  }

  /** The filtered queries ignore the sort options, and all three read queries
      page the same way. */
  lemma SortOnlyInGetAll(category: string, query: string, options: PaginationOptions, sortBy: Option<string>, order: Option<SortOrder>)
    ensures var other := options.(sortBy := sortBy, sortOrder := order);
      && GetByCategoryPlan(category, other) == GetByCategoryPlan(category, options)
      && SearchPlan(query, other) == SearchPlan(query, options)
      && GetAllPlan(other).range == GetAllPlan(options).range
  {
  }

  // ---------------------------------------------------------------------------
  // Envelopes

  /** The error the backend's query reports. */
  datatype BackendError = BackendError(message: string, code: string)

  /** `{ data, error }` as the query resolves. */
  datatype QueryReply<T> = QueryReply(data: Option<T>, error: Option<BackendError>)

  /** The error of the envelope, or None when the query went through: the
      backend's error behind the method's prefix with the backend's code, or
      the unexpected-error text with UNEXPECTED_ERROR when the call threw. */
  function FailureOf<T>(reply: Reply<QueryReply<T>>, op: Operation): (e: Option<RepositoryError>)
    ensures e.None? <==> reply.Answered? && reply.response.error.None?
    ensures reply.Answered? && reply.response.error.Some? ==>
      e == Some(RepositoryError(FailurePrefix(op) + reply.response.error.value.message,
                                Some(reply.response.error.value.code)))
    ensures reply.Threw? ==> e == Some(RepositoryError(UnexpectedText(op), Some(UnexpectedErrorCode)))
  {
    match reply
    case Threw(_) => Some(RepositoryError(UnexpectedText(op), Some(UnexpectedErrorCode)))
    case Answered(QueryReply(_, error)) =>
      if error.Some? then Some(RepositoryError(FailurePrefix(op) + error.value.message, Some(error.value.code)))
      else None
  }

  /** `getAll`, `getByCategory` and `search`: the rows, or `[]` when the
      backend gives none. */
  function ListResult(reply: Reply<QueryReply<seq<Product>>>, op: Operation): (r: RepositoryResult<seq<Product>>)
    requires op == GetAll || op == GetByCategory || op == Search
    ensures r.error == FailureOf(reply, op)
    ensures r.error.Some? <==> r.data.None?
    ensures r.data.Some? ==> r.data.value == (if reply.response.data.Some? then reply.response.data.value else [])
  {
    var e := FailureOf(reply, op);
    if e.Some? then RepositoryResult(None, e)
    else RepositoryResult(Some(if reply.response.data.Some? then reply.response.data.value else []), None)
  }

  /** `getById`: the row, or NOT_FOUND when the query went through without one. */
  function GetByIdResult(reply: Reply<QueryReply<Product>>): (r: RepositoryResult<Product>)
    ensures r.error.Some? <==> r.data.None?
    ensures r.data.Some? ==> reply.Answered? && reply.response.error.None? && r.data == reply.response.data
    ensures FailureOf(reply, GetById).Some? ==> r.error == FailureOf(reply, GetById)
    ensures FailureOf(reply, GetById).None? && reply.response.data.None? ==>
      r.error == Some(RepositoryError(NotFoundText, Some(NotFoundCode)))
  {
    var e := FailureOf(reply, GetById);
    if e.Some? then RepositoryResult(None, e)
    else if reply.response.data.None? then RepositoryResult(None, Some(RepositoryError(NotFoundText, Some(NotFoundCode))))
    else RepositoryResult(reply.response.data, None)
  }

  /** `create`, `update` and `updateStock`: the returned row as it is, which
      may be absent even though there is no error. */
  function SingleResult(reply: Reply<QueryReply<Product>>, op: Operation): (r: RepositoryResult<Product>)
    requires op == Create || op == Update || op == UpdateStock
    ensures r.error == FailureOf(reply, op)
    ensures r.error.Some? ==> r.data.None?
    ensures r.error.None? ==> r.data == reply.response.data
  {
    var e := FailureOf(reply, op);
    if e.Some? then RepositoryResult(None, e) else RepositoryResult(reply.response.data, None)
  }

  /** `delete`: no data either way; only the error tells the outcome. */
  function DeleteResult(reply: Reply<QueryReply<()>>): (r: RepositoryResult<()>)
    ensures r.data.None? && r.error == FailureOf(reply, Delete)
  {
    RepositoryResult(None, FailureOf(reply, Delete))
  }

  /** Across all methods, an envelope with an error carries no data, and a
      query that went through never carries an error unless `getById` found
      no row. */
  lemma EnvelopesSeparateDataAndError(list: Reply<QueryReply<seq<Product>>>, single: Reply<QueryReply<Product>>,
                                      op: Operation)
    ensures op == GetAll || op == GetByCategory || op == Search ==>
      var r := ListResult(list, op); r.error.Some? ==> r.data.None?
    ensures op == Create || op == Update || op == UpdateStock ==>
      var r := SingleResult(single, op); r.error.Some? <==> (single.Threw? || single.response.error.Some?)
    ensures GetByIdResult(single).error.Some? <==>
      (single.Threw? || single.response.error.Some? || single.response.data.None?)
  {
  }
}
