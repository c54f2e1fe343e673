/** The product list manager of src/hooks/useProducts.ts: it holds the products,
    a loading flag, an error text and the three query inputs (pagination,
    category and search text); a load picks one repository query from them, and
    the category and search setters clear each other. Repository replies, and
    what the repository throws, are parameters. */
module ProductsHook {
  import opened Common
  import opened Domain

  const LoadUnknownErrorText: string := "載入商品時發生未知錯誤"
  const GetUnknownErrorText: string := "取得商品時發生未知錯誤"
  const StockUnknownErrorText: string := "更新庫存時發生未知錯誤"

  // ---------------------------------------------------------------------------
  // `String.prototype.trim`

  /** The characters `trim` strips: white space and line terminators. */
  predicate IsTrimmable(c: char)
  {
    || c == '\t' || c == '\n' || c == '\U{000B}' || c == '\U{000C}' || c == '\r' || c == ' '
    || c == '\U{00A0}' || c == '\U{1680}' || ('\U{2000}' <= c <= '\U{200A}')
    || c == '\U{2028}' || c == '\U{2029}' || c == '\U{202F}' || c == '\U{205F}'
    || c == '\U{3000}' || c == '\U{FEFF}'
  }

  /** `trimStart`: the longest suffix that does not start with white space. */
  function TrimStart(s: string): (r: string)
    ensures |r| <= |s| && r == s[|s| - |r|..]
    ensures r == "" || !IsTrimmable(r[0])
  {
    if |s| > 0 && IsTrimmable(s[0]) then TrimStart(s[1..]) else s
  }

  /** `trimEnd`: the longest prefix that does not end with white space. */
  function TrimEnd(s: string): (r: string)
    ensures |r| <= |s| && r == s[..|r|]
    ensures r == "" || !IsTrimmable(r[|r| - 1])
  {
    if |s| > 0 && IsTrimmable(s[|s| - 1]) then TrimEnd(s[..|s| - 1]) else s
  }

  /** `trim`: a slice of the text with only white space cut off on either
      side, and neither starting nor ending with white space. */
  function Trim(s: string): (t: string)
    ensures |t| <= |s|
    ensures exists i, j :: 0 <= i <= j <= |s| && t == s[i..j] && AllTrimmable(s[..i]) && AllTrimmable(s[j..])
    ensures t == "" || (!IsTrimmable(t[0]) && !IsTrimmable(t[|t| - 1]))
  {
    var t := TrimEnd(TrimStart(s));
    var i := |s| - |TrimStart(s)|;
    TrimSlice(s);
    assert 0 <= i <= i + |t| <= |s| && t == s[i..i + |t|] && AllTrimmable(s[..i]) && AllTrimmable(s[i + |t|..]);
    t
  }

  /** Where the trimmed text sits: after the white space `trimStart` cuts and
      before the white space `trimEnd` cuts. */
  lemma TrimSlice(s: string)
    ensures var i, t := |s| - |TrimStart(s)|, TrimEnd(TrimStart(s));
      && i + |t| <= |s| && t == s[i..i + |t|]
      && AllTrimmable(s[..i]) && AllTrimmable(s[i + |t|..])
  {
    var u := TrimStart(s);
    TrimStartSuffix(s);
    TrimEndSide(s, |s| - |u|, u);
  }

  /** What `trimEnd` keeps of the suffix `u` of `s` from `i` on is a slice of
      `s` followed only by white space. */
  lemma TrimEndSide(s: string, i: nat, u: string)
    requires i <= |s| && u == s[i..]
    ensures var t := TrimEnd(u);
      i + |t| <= |s| && t == s[i..i + |t|] && AllTrimmable(s[i + |t|..])
  {
    TrimEndPrefix(u);
    SliceOfSuffix(s, i, u, TrimEnd(u));
  }

  /** A prefix `t` of the suffix `u` of `s` from `i` on is the slice of `s` from
      `i`, and what follows it in `u` is what follows it in `s`. */
  lemma SliceOfSuffix(s: string, i: nat, u: string, t: string)
    requires i <= |s| && u == s[i..] && |t| <= |u| && t == u[..|t|]
    ensures i + |t| <= |s| && t == s[i..i + |t|] && s[i + |t|..] == u[|t|..]
  {
  }

  ghost predicate AllTrimmable(s: string)
  {
    forall i :: 0 <= i < |s| ==> IsTrimmable(s[i])
  }

  lemma {:induction false} TrimEndPrefix(s: string)
    ensures AllTrimmable(s[|TrimEnd(s)|..])
    decreases |s|
  {
    if |s| > 0 && IsTrimmable(s[|s| - 1]) {
      var init := s[..|s| - 1];
      TrimEndPrefix(init);
      var m := |TrimEnd(s)|;
      forall k | 0 <= k < |s| - m ensures IsTrimmable(s[m..][k]) {
        if m + k < |s| - 1 {
          assert s[m..][k] == init[m..][k];
        }
      }
    }
  }

  lemma {:induction false} TrimStartEmpty(s: string)
    ensures TrimStart(s) == "" <==> AllTrimmable(s)
    decreases |s|
  {
    if |s| > 0 {
      TrimStartEmpty(s[1..]);
      assert AllTrimmable(s) <==> IsTrimmable(s[0]) && AllTrimmable(s[1..]) by {
        forall i | 0 < i < |s| ensures s[i] == s[1..][i - 1] { }
      }
    }
  }

  lemma {:induction false} TrimEndEmpty(s: string)
    ensures TrimEnd(s) == "" <==> AllTrimmable(s)
    decreases |s|
  {
    if |s| > 0 {
      var init := s[..|s| - 1];
      TrimEndEmpty(init);
      assert AllTrimmable(s) <==> IsTrimmable(s[|s| - 1]) && AllTrimmable(init) by {
        forall i | 0 <= i < |s| - 1 ensures s[i] == init[i] { }
      }
    }
  }

  lemma {:induction false} TrimStartSuffix(s: string)
    ensures |TrimStart(s)| <= |s| && TrimStart(s) == s[|s| - |TrimStart(s)|..]
    ensures AllTrimmable(s[..|s| - |TrimStart(s)|])
    decreases |s|
  {
    if |s| > 0 && IsTrimmable(s[0]) {
      TrimStartSuffix(s[1..]);
      var n := |s| - |TrimStart(s)|;
      forall i | 0 < i < n ensures IsTrimmable(s[..n][i]) {
        assert s[..n][i] == s[1..][..n - 1][i - 1];
      }
    }
  }

  /** The trimmed text is empty exactly when every character of the text is
      white space (so an empty text trims to empty). */
  lemma TrimBlank(s: string)
    ensures Trim(s) == "" <==> AllTrimmable(s)
  {
    var t := TrimStart(s);
    TrimEndEmpty(t);
    TrimStartEmpty(s);
    TrimStartSuffix(s);
    var n := |s| - |t|;
    assert s == s[..n] + t;
  }

  // ---------------------------------------------------------------------------
  // Choosing the query

  /** The repository query a load runs, with its arguments. */
  datatype ProductQuery =
    | SearchQuery(query: string, pagination: PaginationOptions)
    | CategoryQuery(category: string, pagination: PaginationOptions)
    | AllQuery(pagination: PaginationOptions)

  /** A non-blank search text wins (and is passed untrimmed), then a non-empty
      category, then all products. */
  function SelectQuery(searchQuery: string, category: Option<string>, pagination: PaginationOptions): (q: ProductQuery)
    ensures q.SearchQuery? <==> !AllTrimmable(searchQuery)
    ensures q.SearchQuery? ==> q.query == searchQuery
    ensures q.CategoryQuery? <==> AllTrimmable(searchQuery) && TruthyString(category)
    ensures q.CategoryQuery? ==> q.category == category.value
    ensures q.AllQuery? <==> AllTrimmable(searchQuery) && !TruthyString(category)
    ensures q.pagination == pagination
  {
    TrimBlank(searchQuery);
    if Trim(searchQuery) != "" then SearchQuery(searchQuery, pagination)
    else if category.Some? && category.value != "" then CategoryQuery(category.value, pagination)
    else AllQuery(pagination)
  }

  /** After `setCategory(c)` a load filters by `c` if it is non-empty and
      otherwise loads everything; after `setSearchQuery(q)` a load searches for
      `q` if it is non-blank and otherwise loads everything. Either way at most
      one filter is in force. */
  lemma SettersSelectOneFilter(c: Option<string>, q: string, p: PaginationOptions)
    ensures SelectQuery("", c, p) == if TruthyString(c) then CategoryQuery(c.value, p) else AllQuery(p)
    ensures SelectQuery(q, None, p) == if AllTrimmable(q) then AllQuery(p) else SearchQuery(q, p)
  {
  }

  /** The products after a successful stock update: the patch keeps the
      length and order of the list, gives the matching products the new
      absolute stock and changes nothing else about them, and leaves every
      other product exactly as it was. */
  function PatchStock(products: seq<Product>, id: string, quantity: int): (r: seq<Product>)
    ensures |r| == |products|
    ensures forall i :: 0 <= i < |products| && products[i].id != id ==> r[i] == products[i]
    ensures forall i :: 0 <= i < |products| && products[i].id == id ==>
      r[i].stock == quantity && r[i].(stock := products[i].stock) == products[i]
  {
    seq(|products|, i requires 0 <= i < |products| =>
      if products[i].id == id then products[i].(stock := quantity) else products[i])
  }

  /** The stock is set, not adjusted: of two updates of the same product the
      later one wins, so repeating an update changes nothing. */
  lemma PatchStockLastWins(products: seq<Product>, id: string, a: int, b: int)
    ensures PatchStock(PatchStock(products, id, a), id, b) == PatchStock(products, id, b)
    ensures PatchStock(PatchStock(products, id, a), id, a) == PatchStock(products, id, a)
  {
    var once := PatchStock(products, id, b);
    var twice := PatchStock(PatchStock(products, id, a), id, b);
    assert |twice| == |once|;
    forall i | 0 <= i < |once|
      ensures twice[i] == once[i]
    {
    }
    var same := PatchStock(PatchStock(products, id, a), id, a);
    forall i | 0 <= i < |same|
      ensures same[i] == PatchStock(products, id, a)[i]
    {
    }
  }

  /** Updates of two different products can be applied in either order. */
  lemma PatchStockCommutes(products: seq<Product>, id1: string, a: int, id2: string, b: int)
    requires id1 != id2
    ensures PatchStock(PatchStock(products, id1, a), id2, b) == PatchStock(PatchStock(products, id2, b), id1, a)
  {
    var left := PatchStock(PatchStock(products, id1, a), id2, b);
    var right := PatchStock(PatchStock(products, id2, b), id1, a);
    forall i | 0 <= i < |left|
      ensures left[i] == right[i]
    {
    }
  }

  class ProductCatalog {
    var products: seq<Product>
    var loading: bool
    var error: Option<string>
    var pagination: PaginationOptions
    var category: Option<string>
    var searchQuery: string

    /** The hook's initial state: no products, loading, no error, no filters. */
    constructor ()
      ensures products == [] && loading && error.None?
      ensures pagination == NoPagination && category.None? && searchQuery == ""
    {
      products := [];
      loading := true;
      error := None;
      pagination := NoPagination;
      category := None;
      searchQuery := "";
    }

    /** `loadProducts`: run the selected query (returned here; `reply` is its
        answer). An error or a throw records the message and empties the list;
        otherwise the list becomes the data, or empty when there is none.
        Loading is false afterwards in every case. */
    method LoadProducts(reply: Reply<RepositoryResult<seq<Product>>>) returns (query: ProductQuery)
      modifies this
      ensures query == SelectQuery(searchQuery, category, pagination)
      ensures pagination == old(pagination) && category == old(category) && searchQuery == old(searchQuery)
      ensures !loading
      ensures reply.Threw? ==>
        error == Some(ThrownMessage(reply.thrown, LoadUnknownErrorText)) && products == []
      ensures reply.Answered? && reply.response.error.Some? ==>
        error == Some(reply.response.error.value.message) && products == []
      ensures reply.Answered? && reply.response.error.None? ==>
        && error.None?
        && products == (if reply.response.data.Some? then reply.response.data.value else [])
    {
      query := SelectQuery(searchQuery, category, pagination);
      loading := true;
      error := None;
      ApplyLoadReply(reply);
    }

    /** The answer half of `loadProducts`: record the outcome of the query and
        end loading. */
    method ApplyLoadReply(reply: Reply<RepositoryResult<seq<Product>>>)
      modifies this
      ensures pagination == old(pagination) && category == old(category) && searchQuery == old(searchQuery)
      ensures !loading
      ensures reply.Threw? ==>
        error == Some(ThrownMessage(reply.thrown, LoadUnknownErrorText)) && products == []
      ensures reply.Answered? && reply.response.error.Some? ==>
        error == Some(reply.response.error.value.message) && products == []
      ensures reply.Answered? && reply.response.error.None? ==>
        && error == old(error)
        && products == (if reply.response.data.Some? then reply.response.data.value else [])
    {
      match reply {
        case Answered(result) =>
          if result.error.Some? {
            error := Some(result.error.value.message);
            products := [];
          } else {
            products := if result.data.Some? then result.data.value else [];
          }
        case Threw(t) =>
          error := Some(ThrownMessage(t, LoadUnknownErrorText));
          products := [];
      }
      loading := false;
    }

    /** `getProductById`: the repository's data, or None after recording the
        error. The list and the loading flag are not touched. */
    method GetProductById(id: string, reply: Reply<RepositoryResult<Product>>) returns (p: Option<Product>)
      modifies this
      ensures products == old(products) && loading == old(loading)
      ensures pagination == old(pagination) && category == old(category) && searchQuery == old(searchQuery)
      ensures reply.Threw? ==> p.None? && error == Some(ThrownMessage(reply.thrown, GetUnknownErrorText))
      ensures reply.Answered? && reply.response.error.Some? ==>
        p.None? && error == Some(reply.response.error.value.message)
      ensures reply.Answered? && reply.response.error.None? ==>
        p == reply.response.data && error == old(error)
    {
      match reply {
        case Answered(result) =>
          if result.error.Some? {
            error := Some(result.error.value.message);
            p := None;
          } else {
            p := result.data;
          }
        case Threw(t) =>
          error := Some(ThrownMessage(t, GetUnknownErrorText));
          p := None;
      }
    }

    /** `updateStock`: on success set the matching products' stock to the
        given absolute value and answer true; on an error or a throw record the
        message, keep the list and answer false. */
    method UpdateStock(id: string, quantity: int, reply: Reply<RepositoryResult<Product>>) returns (ok: bool)
      modifies this
      ensures loading == old(loading)
      ensures pagination == old(pagination) && category == old(category) && searchQuery == old(searchQuery)
      ensures ok <==> reply.Answered? && reply.response.error.None?
      ensures ok ==> products == PatchStock(old(products), id, quantity) && error == old(error)
      ensures !ok ==> products == old(products)
      ensures reply.Threw? ==> error == Some(ThrownMessage(reply.thrown, StockUnknownErrorText))
      ensures reply.Answered? && reply.response.error.Some? ==>
        error == Some(reply.response.error.value.message)
    {
      match reply {
        case Answered(result) =>
          if result.error.Some? {
            error := Some(result.error.value.message);
            ok := false;
          } else {
            products := PatchStock(products, id, quantity);
            ok := true;
          }
        case Threw(t) =>
          error := Some(ThrownMessage(t, StockUnknownErrorText));
          ok := false;
      }
    }

    /** `refetch`: one more load with the current query inputs. */
    method Refetch(reply: Reply<RepositoryResult<seq<Product>>>) returns (query: ProductQuery)
      modifies this
      ensures query == SelectQuery(searchQuery, category, pagination)
      ensures pagination == old(pagination) && category == old(category) && searchQuery == old(searchQuery)
      ensures !loading
      ensures reply.Threw? ==>
        error == Some(ThrownMessage(reply.thrown, LoadUnknownErrorText)) && products == []
      ensures reply.Answered? && reply.response.error.Some? ==>
        error == Some(reply.response.error.value.message) && products == []
      ensures reply.Answered? && reply.response.error.None? ==>
        && error.None?
        && products == (if reply.response.data.Some? then reply.response.data.value else [])
    {
      query := LoadProducts(reply);
    }

    method SetPagination(options: PaginationOptions)
      modifies this
      ensures pagination == options
      ensures products == old(products) && loading == old(loading) && error == old(error)
      ensures category == old(category) && searchQuery == old(searchQuery)
    {
      pagination := options;
    }

    /** `setCategory`: choose the category and clear the search text. */
    method SetCategory(newCategory: Option<string>)
      modifies this
      ensures category == newCategory && searchQuery == ""
      ensures products == old(products) && loading == old(loading) && error == old(error)
      ensures pagination == old(pagination)
    {
      category := newCategory;
      searchQuery := "";
    }

    /** `setSearchQuery`: set the search text and clear the category. */
    method SetSearchQuery(query: string)
      modifies this
      ensures searchQuery == query && category.None?
      ensures products == old(products) && loading == old(loading) && error == old(error)
      ensures pagination == old(pagination)
    {
      searchQuery := query;
      category := None;
    }
  }
}
