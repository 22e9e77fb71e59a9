/**
 * The listing side of the repository: page and limit normalisation, the offset, the
 * choice of the one query path a listing runs, the total-pages ceiling, the search
 * pattern, and the conversion of the rows a query returns into models.
 *
 * The generated queries' SQL is not part of this model: what a query answers on given
 * tables is supplied by the caller as an `Sql` record, and every listing reports the
 * queries it issued, so the choice of query and its arguments are observable.
 */
module Queries {
  import opened Wrappers
  import opened Errors
  import opened Model
  import opened Rows
  import opened StoreModel

  const DefaultLimit: int := 10
  const SearchCap: int := 100

  /** A page below 1 becomes 1. */
  function NormalizePage(page: int): int {
    if page < 1 then 1 else page
  }

  /** A limit below 1 becomes the default of 10. */
  function NormalizeLimit(limit: int): int {
    if limit < 1 then DefaultLimit else limit
  }

  /** The listing parameters after the repository overwrites page and limit in place. */
  function NormalizeParams(params: ProductQueryParams): (p: ProductQueryParams)
    ensures p.page >= 1 && p.limit >= 1
    ensures params.page >= 1 ==> p.page == params.page
    ensures params.page < 1 ==> p.page == 1
    ensures params.limit >= 1 ==> p.limit == params.limit
    ensures params.limit < 1 ==> p.limit == DefaultLimit
    ensures p.productType == params.productType && p.keyword == params.keyword
  {
    params.(page := NormalizePage(params.page), limit := NormalizeLimit(params.limit))
  }

  lemma NormalizeIdempotent(params: ProductQueryParams)
    ensures NormalizeParams(NormalizeParams(params)) == NormalizeParams(params)
  {
  }

  /** The rows skipped before a page: (page - 1) * limit. */
  function Offset(page: int, limit: int): (off: int)
    requires page >= 1 && limit >= 1
    ensures off >= 0
    ensures off == (page - 1) * limit
  {
    (page - 1) * limit
  }

  /** Consecutive pages start a full limit apart, the first at 0. */
  lemma OffsetsTile(page: int, limit: int)
    requires page >= 1 && limit >= 1
    ensures Offset(1, limit) == 0
    ensures Offset(page + 1, limit) == Offset(page, limit) + limit
  {
  }

  /** The number of pages of `limit` rows needed for `count` rows: the ceiling of count / limit. */
  function CeilDiv(count: int, limit: int): (pages: int)
    requires limit >= 1
    ensures (pages - 1) * limit < count <= pages * limit
  {
    -((-count) / limit)
  }

  /** The ceiling is the least page count that covers every row. */
  lemma CeilDivLeast(count: int, limit: int, pages: int)
    requires limit >= 1 && count <= pages * limit
    ensures CeilDiv(count, limit) <= pages
  {
  }

  lemma CeilDivBounds(count: int, limit: int)
    requires limit >= 1 && count >= 0
    ensures CeilDiv(count, limit) >= 0
    ensures count == 0 <==> CeilDiv(count, limit) == 0
    ensures count <= limit ==> CeilDiv(count, limit) <= 1
  {
    if count == 0 {
      CeilDivLeast(count, limit, 0);
    }
    if count <= limit {
      CeilDivLeast(count, limit, 1);
    }
  }

  /** The `LIKE` pattern for a keyword: the keyword with a wildcard on each side. */
  function SearchPattern(keyword: string): (pattern: string)
    ensures |pattern| == |keyword| + 2
    ensures pattern[0] == '%' && pattern[|pattern| - 1] == '%'
    ensures pattern[1..|pattern| - 1] == keyword
  {
    "%" + keyword + "%"
  }

  /** The generated queries a listing can issue, with the arguments it passes. */
  datatype Query =
    | CountProductsByType(productType: string)
    | ListProductsByType(productType: string, limit: int, offset: int)
    | CountSearchProductsByName(pattern: string)
    | SearchProductsByName(pattern: string, limit: int, offset: int)
    | CountAllPublishedProducts
    | ListAllPublishedProducts(limit: int, offset: int)
    | ListProductsByDiscount(limit: int, offset: int)
    | ListProductsBySelled(limit: int, offset: int)
    | ListDraftProducts(shop: string, limit: int, offset: int)
    | ListPublishedProducts(shop: string, limit: int, offset: int)

  /** What the database answers to a count query and to a row query on given tables. */
  datatype Sql = Sql(count: (Tables, Query) -> Result<int, DbError>, rows: (Tables, Query) -> Result<seq<DbProduct>, DbError>)

  /** The three paths of the general listing, in order of precedence. */
  datatype Filter = ByType(productType: string) | ByKeyword(pattern: string) | AllPublished

  function SelectFilter(params: ProductQueryParams): (f: Filter)
    ensures f.ByType? <==> params.productType != ""
    ensures f.ByKeyword? <==> params.productType == "" && params.keyword != ""
    ensures f.AllPublished? <==> params.productType == "" && params.keyword == ""
    ensures f.ByType? ==> f.productType == params.productType
    ensures f.ByKeyword? ==> f.pattern == SearchPattern(params.keyword)
  {
    if params.productType != "" then ByType(params.productType)
    else if params.keyword != "" then ByKeyword(SearchPattern(params.keyword))
    else AllPublished
  }

  function CountQuery(f: Filter): Query {
    match f
    case ByType(t) => CountProductsByType(t)
    case ByKeyword(p) => CountSearchProductsByName(p)
    case AllPublished => CountAllPublishedProducts
  }

  /** The row query of a filter; limit and offset go through the int32 cast. */
  function RowsQuery(f: Filter, limit: int, offset: int): Query {
    match f
    case ByType(t) => ListProductsByType(t, Int32(limit), Int32(offset))
    case ByKeyword(p) => SearchProductsByName(p, Int32(limit), Int32(offset))
    case AllPublished => ListAllPublishedProducts(Int32(limit), Int32(offset))
  }

  /** Every row, converted, in order. */
  function ConvertAll(rows: seq<DbProduct>): seq<ProductModel>
    decreases |rows|
  {
    if rows == [] then [] else ConvertAll(rows[..|rows| - 1]) + [FromDbProduct(rows[|rows| - 1])]
  }

  /** Conversion yields exactly one model per row, in row order. */
  lemma {:induction false} ConvertAllIndex(rows: seq<DbProduct>)
    ensures |ConvertAll(rows)| == |rows|
    ensures forall i :: 0 <= i < |rows| ==> ConvertAll(rows)[i] == FromDbProduct(rows[i])
    decreases |rows|
  {
    if rows != [] {
      var init := rows[..|rows| - 1];
      ConvertAllIndex(init);
      assert forall i :: 0 <= i < |init| ==> init[i] == rows[i];
    }
  }

  /** A paged listing: the parameters as left after normalisation, the queries issued, the answer. */
  datatype Listing = Listing(params: ProductQueryParams, issued: seq<Query>, result: Result<ProductResponse, DbError>)

  /** An unpaged listing: the queries issued and the models or the error. */
  datatype RowsListing = RowsListing(issued: seq<Query>, result: Result<seq<ProductModel>, DbError>)

  /**
   * A count query and then, if it answered, a row query; the response reports the
   * normalised page, the count, the pages it spans and the converted rows.
   */
  function Paged(t: Tables, sql: Sql, p: ProductQueryParams, countQ: Query, rowsQ: Query): Listing
    requires p.limit >= 1
  {
    match sql.count(t, countQ)
    case Failure(e) => Listing(p, [countQ], Failure(e))
    case Success(count) =>
      match sql.rows(t, rowsQ)
      case Failure(e) => Listing(p, [countQ, rowsQ], Failure(e))
      case Success(rows) =>
        Listing(p, [countQ, rowsQ], Success(ProductResponse(p.page, CeilDiv(count, p.limit), count, ConvertAll(rows))))
  }

  /** FindAllProducts. */
  function FindAllProducts(t: Tables, sql: Sql, params: ProductQueryParams): Listing {
    var p := NormalizeParams(params);
    var f := SelectFilter(p);
    Paged(t, sql, p, CountQuery(f), RowsQuery(f, p.limit, Offset(p.page, p.limit)))
  }

  /** FindProductsByDiscount: counted over all published products. */
  function FindProductsByDiscount(t: Tables, sql: Sql, params: ProductQueryParams): Listing {
    var p := NormalizeParams(params);
    Paged(t, sql, p, CountAllPublishedProducts,
          ListProductsByDiscount(Int32(p.limit), Int32(Offset(p.page, p.limit))))
  }

  /** FindProductsBySelled: counted over all published products. */
  function FindProductsBySelled(t: Tables, sql: Sql, params: ProductQueryParams): Listing {
    var p := NormalizeParams(params);
    Paged(t, sql, p, CountAllPublishedProducts,
          ListProductsBySelled(Int32(p.limit), Int32(Offset(p.page, p.limit))))
  }

  /** One row query, converted. */
  function Unpaged(t: Tables, sql: Sql, q: Query): RowsListing {
    match sql.rows(t, q)
    case Failure(e) => RowsListing([q], Failure(e))
    case Success(rows) => RowsListing([q], Success(ConvertAll(rows)))
  }

  /** SearchProducts: the first 100 name matches. */
  function SearchProducts(t: Tables, sql: Sql, keyword: string): RowsListing {
    Unpaged(t, sql, SearchProductsByName(SearchPattern(keyword), SearchCap, 0))
  }

  /** FindAllDraftsForShop and FindAllPublishForShop of the repository. */
  function ShopListing(t: Tables, sql: Sql, drafts: bool, shop: string, limit: int, offset: int): RowsListing {
    Unpaged(t, sql, if drafts then ListDraftProducts(shop, Int32(limit), Int32(offset))
                    else ListPublishedProducts(shop, Int32(limit), Int32(offset)))
  }

  /**
   * The general listing runs exactly one path: the type filter when a type is given,
   * else the keyword search when a keyword is given, else all published products.
   */
  lemma OnePath(t: Tables, sql: Sql, params: ProductQueryParams)
    ensures var l := FindAllProducts(t, sql, params);
      && 1 <= |l.issued| <= 2
      && (params.productType != "" ==>
            forall q :: q in l.issued ==> q.CountProductsByType? || q.ListProductsByType?)
      && (params.productType == "" && params.keyword != "" ==>
            forall q :: q in l.issued ==> q.CountSearchProductsByName? || q.SearchProductsByName?)
      && (params.productType == "" && params.keyword == "" ==>
            forall q :: q in l.issued ==> q.CountAllPublishedProducts? || q.ListAllPublishedProducts?)
  {
  }

  /** A keyword search passes the wildcard pattern, not the bare keyword. */
  lemma KeywordUsesPattern(t: Tables, sql: Sql, params: ProductQueryParams)
    requires params.productType == "" && params.keyword != ""
    ensures FindAllProducts(t, sql, params).issued[0] == CountSearchProductsByName("%" + params.keyword + "%")
  {
  }

  /** What a successful paged listing responds. */
  lemma PagedResponse(t: Tables, sql: Sql, p: ProductQueryParams, countQ: Query, rowsQ: Query)
    requires p.limit >= 1
    requires Paged(t, sql, p, countQ, rowsQ).result.Success?
    ensures sql.count(t, countQ).Success? && sql.rows(t, rowsQ).Success?
    ensures var resp := Paged(t, sql, p, countQ, rowsQ).result.value;
      && resp.currentPage == p.page
      && resp.total == sql.count(t, countQ).value
      && (resp.totalPages - 1) * p.limit < resp.total <= resp.totalPages * p.limit
      && |resp.data| == |sql.rows(t, rowsQ).value|
      && (forall i :: 0 <= i < |resp.data| ==> resp.data[i] == FromDbProduct(sql.rows(t, rowsQ).value[i]))
  {
    ConvertAllIndex(sql.rows(t, rowsQ).value);
  }

  /** Errors from either query are returned as they are, and the row query is not run after a failed count. */
  lemma PagedErrors(t: Tables, sql: Sql, p: ProductQueryParams, countQ: Query, rowsQ: Query)
    requires p.limit >= 1
    ensures sql.count(t, countQ).Failure? ==>
      Paged(t, sql, p, countQ, rowsQ) == Listing(p, [countQ], Failure(sql.count(t, countQ).error))
    ensures sql.count(t, countQ).Success? && sql.rows(t, rowsQ).Failure? ==>
      Paged(t, sql, p, countQ, rowsQ).result == Failure(sql.rows(t, rowsQ).error)
  {
  }

  /** The discount and bestseller listings ignore the type and keyword entirely. */
  lemma RankedIgnoreFilters(t: Tables, sql: Sql, params: ProductQueryParams, productType: string, keyword: string)
    ensures var other := params.(productType := productType, keyword := keyword);
      && FindProductsByDiscount(t, sql, other).issued == FindProductsByDiscount(t, sql, params).issued
      && FindProductsByDiscount(t, sql, other).result == FindProductsByDiscount(t, sql, params).result
      && FindProductsBySelled(t, sql, other).issued == FindProductsBySelled(t, sql, params).issued
      && FindProductsBySelled(t, sql, other).result == FindProductsBySelled(t, sql, params).result
      && FindProductsByDiscount(t, sql, params).issued[0] == CountAllPublishedProducts
      && FindProductsBySelled(t, sql, params).issued[0] == CountAllPublishedProducts
  {
  }

  /** The search issues one query, for at most 100 rows from the start, whatever the keyword. */
  lemma SearchIsCapped(t: Tables, sql: Sql, keyword: string)
    ensures SearchProducts(t, sql, keyword).issued == [SearchProductsByName(SearchPattern(keyword), 100, 0)]
  {
  }

  /**
   * The page size and offset the row query receives go through the int32 cast while
   * the total pages divide by the limit as given. A limit of 2^32 + 10, say, fetches
   * 10 rows a page and reports pages of 2^32 + 10 rows.
   */
  lemma WideLimitWraps(t: Tables, sql: Sql, params: ProductQueryParams)
    ensures var p := NormalizeParams(params);
      var l := FindAllProducts(t, sql, params);
      && l.params == p
      && (|l.issued| == 2 ==>
            && (l.issued[1].ListProductsByType? || l.issued[1].SearchProductsByName? || l.issued[1].ListAllPublishedProducts?)
            && l.issued[1].limit == Int32(p.limit)
            && l.issued[1].offset == Int32(Offset(p.page, p.limit)))
      && (l.result.Success? ==> l.result.value.totalPages == CeilDiv(l.result.value.total, p.limit))
    ensures var l := FindAllProducts(t, sql, ProductQueryParams(1, TwoTo32 + 10, "", ""));
      l.params.limit == TwoTo32 + 10 && (|l.issued| == 2 ==> l.issued[1] == ListAllPublishedProducts(10, 0))
  {
  }

  /** The shop listings issue one query with the given shop, limit and offset, cast to int32. */
  lemma ShopListingQuery(t: Tables, sql: Sql, drafts: bool, shop: string, limit: int, offset: int)
    requires -TwoTo31 <= limit < TwoTo31 && -TwoTo31 <= offset < TwoTo31
    ensures ShopListing(t, sql, drafts, shop, limit, offset).issued ==
      [if drafts then ListDraftProducts(shop, limit, offset) else ListPublishedProducts(shop, limit, offset)]
  {
    Int32Fits(limit);
    Int32Fits(offset);
  }
}
