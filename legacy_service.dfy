/**
 * The older copy of the catalog service (internal/service/product.service.go). It runs
 * the same workflows as the live service, with two differences: its own errors are
 * ad-hoc messages rather than shared error values, and create goes through a role
 * check whose outcome is a constant that always lets the caller through.
 */
module LegacyService {
  import opened Wrappers
  import opened Errors
  import opened Model
  import opened StoreModel
  import opened Queries
  import opened Repo
  import CatalogService

  /** An error of the older service: an ad-hoc message, or an error passed through as it came. */
  datatype LegacyError = Text(message: string) | Forwarded(cause: Error)

  /** The role check's placeholder outcome. */
  const IsAdmin: bool := true

  /** How the older service reports each error of the shared workflows. */
  function Describe(e: Error): LegacyError {
    match e
    case InvalidInput => Text("invalid product input")
    case NotAuthorizedToCreate => Text("user not authorized to create products")
    case InvalidProductType => Text("invalid product type")
    case Unauthorized => Text("unauthorized to update this product")
    case _ => Forwarded(e)
  }

  function DescribeResult(r: Result<ProductModel, Error>): Result<ProductModel, LegacyError> {
    match r
    case Success(p) => Success(p)
    case Failure(e) => Failure(Describe(e))
  }

  function DescribeOption(e: Option<Error>): Option<LegacyError> {
    match e
    case None => None
    case Some(cause) => Some(Describe(cause))
  }

  /** No two errors read the same, so the wording loses nothing. */
  lemma DescribeInjective(e1: Error, e2: Error)
    ensures Describe(e1) == Describe(e2) ==> e1 == e2
  {
  }

  /**
   * The role check never refuses: create behaves exactly like the live service's, in
   * the store and in the outcome, up to the wording of the errors.
   */
  lemma RoleCheckNeverRefuses(db: Db, input: ProductInput, caller: Option<string>, id: string, now: Time)
    ensures var (db', r) := CatalogService.CreateSpec(db, input, caller, IsAdmin, id, now);
      && r != Failure(NotAuthorizedToCreate)
      && (db', r) == CatalogService.CreateSpec(db, input, caller, true, id, now)
      && DescribeResult(r) != Failure(Text("user not authorized to create products"))
  {
  }

  /** The older copy of the service, over the same repository. */
  class ProductService {
    const repo: ProductRepository

    constructor (repo: ProductRepository)
      ensures this.repo == repo
    {
      this.repo := repo;
    }

    method CreateProduct(input: ProductInput, caller: Option<string>, id: string, now: Time) returns (r: Result<ProductModel, LegacyError>)
      modifies repo
      ensures var (db', res) := CatalogService.CreateSpec(old(repo.State()), input, caller, IsAdmin, id, now);
        repo.State() == db' && r == DescribeResult(res)
    {
      var res := CatalogService.CreateProductWorkflow(repo, input, caller, IsAdmin, id, now);
      r := DescribeResult(res);
    }

    method UpdateProduct(id: string, input: ProductInput, caller: Option<string>, now: Time) returns (err: Option<LegacyError>)
      modifies repo
      ensures var (db', e) := CatalogService.UpdateSpec(old(repo.State()), id, input, caller, now);
        repo.State() == db' && err == DescribeOption(e)
    {
      var e := CatalogService.UpdateProductWorkflow(repo, id, input, caller, now);
      err := DescribeOption(e);
    }

    method PublishProduct(id: string, shop: string) returns (err: Option<Error>)
      modifies repo
      ensures (repo.State(), err) == CatalogService.PublishSpec(old(repo.State()), id, shop, true)
    {
      var e := repo.PublishProductByShop(id, shop);
      err := CatalogService.Lift(e);
    }

    method UnPublishProduct(id: string, shop: string) returns (err: Option<Error>)
      modifies repo
      ensures (repo.State(), err) == CatalogService.PublishSpec(old(repo.State()), id, shop, false)
    {
      var e := repo.UnPublishProductByShop(id, shop);
      err := CatalogService.Lift(e);
    }

    method FindProduct(id: string) returns (r: Result<ProductModel, DbError>)
      ensures r == StoreModel.FindProduct(repo.State(), id)
    {
      r := repo.FindProduct(id);
    }

    method FindAllProducts(sql: Sql, params: ProductQueryParams) returns (p: ProductQueryParams, issued: seq<Query>, r: Result<ProductResponse, DbError>)
      ensures Listing(p, issued, r) == Queries.FindAllProducts(repo.Contents(), sql, params)
    {
      p, issued, r := repo.FindAllProducts(sql, params);
    }

    method FindAllDraftsForShop(sql: Sql, shop: string, page: int, limit: int) returns (issued: seq<Query>, r: Result<seq<ProductModel>, DbError>)
      ensures RowsListing(issued, r) == CatalogService.ShopPage(repo.Contents(), sql, true, shop, page, limit)
    {
      var pg, lim := page, limit;
      if pg < 1 {
        pg := 1;
      }
      if lim < 1 {
        lim := 10;
      }
      var offset := (pg - 1) * lim;
      issued, r := repo.FindAllDraftsForShop(sql, shop, lim, offset);
    }

    method FindAllPublishForShop(sql: Sql, shop: string, page: int, limit: int) returns (issued: seq<Query>, r: Result<seq<ProductModel>, DbError>)
      ensures RowsListing(issued, r) == CatalogService.ShopPage(repo.Contents(), sql, false, shop, page, limit)
    {
      var pg, lim := page, limit;
      if pg < 1 {
        pg := 1;
      }
      if lim < 1 {
        lim := 10;
      }
      var offset := (pg - 1) * lim;
      issued, r := repo.FindAllPublishForShop(sql, shop, lim, offset);
    }

    method GetProductsByDiscount(sql: Sql, params: ProductQueryParams) returns (p: ProductQueryParams, issued: seq<Query>, r: Result<ProductResponse, DbError>)
      ensures Listing(p, issued, r) == Queries.FindProductsByDiscount(repo.Contents(), sql, params)
    {
      p, issued, r := repo.FindProductsByDiscount(sql, params);
    }

    method GetProductsBySelled(sql: Sql, params: ProductQueryParams) returns (p: ProductQueryParams, issued: seq<Query>, r: Result<ProductResponse, DbError>)
      ensures Listing(p, issued, r) == Queries.FindProductsBySelled(repo.Contents(), sql, params)
    {
      p, issued, r := repo.FindProductsBySelled(sql, params);
    }

    method SearchProducts(sql: Sql, keyword: string) returns (issued: seq<Query>, r: Result<seq<ProductModel>, DbError>)
      ensures RowsListing(issued, r) == Queries.SearchProducts(repo.Contents(), sql, keyword)
    {
      issued, r := repo.SearchProducts(sql, keyword);
    }
  }
}
