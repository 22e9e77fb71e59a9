/**
 * The product repository as an object over the store it writes: each table is a field,
 * every write is appended to the log before it runs, and each method's effect is the
 * matching transition of the store model. The listing methods normalise the paging
 * parameters, pick and issue their queries, and convert the returned rows in a loop.
 */
module Repo {
  import opened Wrappers
  import opened Errors
  import opened Model
  import opened Rows
  import opened StoreModel
  import opened Queries

  /** Every row converted in order, as the repository's conversion loops do. */
  method ConvertRows(rows: seq<DbProduct>) returns (products: seq<ProductModel>)
    ensures products == ConvertAll(rows)
  {
    products := [];
    for i := 0 to |rows|
      invariant products == ConvertAll(rows[..i])
    {
      products := products + [FromDbProduct(rows[i])];
      assert rows[..i + 1][..i] == rows[..i];
    }
    assert rows[..|rows|] == rows;
  }

  /** The in-place defaulting of page and limit, and the offset derived from them. */
  method PageParams(params: ProductQueryParams) returns (p: ProductQueryParams, offset: int)
    ensures p == NormalizeParams(params)
    ensures offset == Offset(p.page, p.limit)
  {
    p := params;
    if p.page < 1 {
      p := p.(page := 1);
    }
    if p.limit < 1 {
      p := p.(limit := DefaultLimit);
    }
    offset := (p.page - 1) * p.limit;
  }

  /** Whether a row matches a gorm map filter: every named column holds the given value. */
  predicate Matches(row: DbProduct, query: map<string, Value>) {
    forall col :: col in query ==> Column(row, col) == query[col]
  }

  /** CountProducts: the number of product rows the map filter matches. */
  function CountMatching(t: Tables, down: set<Table>, query: map<string, Value>): Result<int, DbError> {
    if ProductsTable in down then Failure(Unavailable)
    else if exists col :: col in query && col !in ProductColumns then Failure(UnknownColumn)
    else Success(|set id | id in t.products && Matches(t.products[id], query)|)
  }

  /** The empty filter counts every product, and a filter never counts more than there are. */
  lemma CountMatchingBounds(t: Tables, query: map<string, Value>)
    ensures CountMatching(t, {}, map[]) == Success(|t.products|)
    ensures CountMatching(t, {}, query).Success? ==> CountMatching(t, {}, query).value <= |t.products|
  {
    assert (set id | id in t.products && Matches(t.products[id], map[])) == t.products.Keys;
    var matched := set id | id in t.products && Matches(t.products[id], query);
    assert matched <= t.products.Keys;
    SubsetCard(matched, t.products.Keys);
  }

  /** A further condition never adds matches. */
  lemma CountMatchingNarrows(t: Tables, query: map<string, Value>, col: string, v: Value)
    requires col !in query && CountMatching(t, {}, query[col := v]).Success?
    ensures CountMatching(t, {}, query).Success?
    ensures CountMatching(t, {}, query[col := v]).value <= CountMatching(t, {}, query).value
  {
    var wide := set id | id in t.products && Matches(t.products[id], query);
    var narrow := set id | id in t.products && Matches(t.products[id], query[col := v]);
    forall id | id in narrow ensures id in wide {
      var row := t.products[id];
      forall c | c in query ensures Column(row, c) == query[c] {
        assert query[col := v][c] == query[c];
      }
    }
    SubsetCard(narrow, wide);
  }

  lemma SubsetCard<T>(a: set<T>, b: set<T>)
    requires a <= b
    ensures |a| <= |b|
  {
    assert b == a + (b - a);
  }

  class ProductRepository {
    var products: map<string, DbProduct>
    var mushrooms: map<string, DbVariant>
    var vegetables: map<string, DbVariant>
    var bonsais: map<string, DbVariant>
    var inventories: seq<DbInventory>
    var log: seq<Write>
    var down: set<Table>

    /** The tables as a value. */
    function Contents(): Tables
      reads this
    {
      Tables(products, mushrooms, vegetables, bonsais, inventories)
    }

    /** The whole store as a value. */
    function State(): Db
      reads this
    {
      Db(Contents(), log, down)
    }

    constructor (initial: Db)
      ensures State() == initial
    {
      products := initial.tables.products;
      mushrooms := initial.tables.mushrooms;
      vegetables := initial.tables.vegetables;
      bonsais := initial.tables.bonsais;
      inventories := initial.tables.inventories;
      log := initial.log;
      down := initial.down;
    }

    /** CreateMushroom, CreateVegetable and CreateBonsai: insert into the variant's own table. */
    method CreateVariant(v: VariantModel) returns (err: Option<DbError>)
      modifies this
      ensures (State(), err) == StoreModel.CreateVariant(old(State()), v)
    {
      var kind := KindOf(v);
      log := log + [VariantInsert(kind, v.id)];
      if VariantTable(kind) in down {
        return Some(Unavailable);
      }
      match kind {
        case Mushroom =>
          if v.id in mushrooms { return Some(DuplicateKey); }
          mushrooms := mushrooms[v.id := ToDbVariant(v)];
        case Vegetable =>
          if v.id in vegetables { return Some(DuplicateKey); }
          vegetables := vegetables[v.id := ToDbVariant(v)];
        case Bonsai =>
          if v.id in bonsais { return Some(DuplicateKey); }
          bonsais := bonsais[v.id := ToDbVariant(v)];
      }
      err := None;
    }

    /** CreateProduct: insert the product's row with the nullable-column mapping. */
    method CreateProduct(p: ProductModel) returns (err: Option<DbError>)
      modifies this
      ensures (State(), err) == StoreModel.CreateProduct(old(State()), p)
    {
      log := log + [ProductInsert(p.id)];
      if ProductsTable in down {
        return Some(Unavailable);
      }
      if p.id in products {
        return Some(DuplicateKey);
      }
      products := products[p.id := ToDbProduct(p)];
      err := None;
    }

    /** InsertInventory: append an inventory row. */
    method InsertInventory(inv: InventoryInput) returns (err: Option<DbError>)
      modifies this
      ensures (State(), err) == StoreModel.InsertInventory(old(State()), inv)
    {
      log := log + [InventoryInsert(inv.productId)];
      if InventoryTable in down {
        return Some(Unavailable);
      }
      inventories := inventories + [ToDbInventory(inv)];
      err := None;
    }

    /** FindProduct: look the row up and read it back. */
    method FindProduct(id: string) returns (r: Result<ProductModel, DbError>)
      ensures r == StoreModel.FindProduct(State(), id)
    {
      if ProductsTable in down {
        return Failure(Unavailable);
      }
      if id !in products {
        return Failure(NoRows);
      }
      r := Success(FromDbProduct(products[id]));
    }

    /** UpdateProductByID: a map-based update of one product row. */
    method UpdateProductByID(id: string, patch: map<string, Value>) returns (err: Option<DbError>)
      modifies this
      ensures (State(), err) == StoreModel.UpdateProductByID(old(State()), id, patch)
    {
      log := log + [ProductUpdate(id, patch)];
      if ProductsTable in down {
        return Some(Unavailable);
      }
      var fault := PatchFault(patch);
      if fault.Some? {
        return fault;
      }
      if id in products {
        products := products[id := ApplyPatch(products[id], patch)];
      }
      err := None;
    }

    /** PublishProductByShop. */
    method PublishProductByShop(id: string, shop: string) returns (err: Option<DbError>)
      modifies this
      ensures (State(), err) == StoreModel.Publish(old(State()), id, shop)
    {
      err := SetFlags(PublishWrite(id, shop), id, shop, true);
    }

    /** UnPublishProductByShop. */
    method UnPublishProductByShop(id: string, shop: string) returns (err: Option<DbError>)
      modifies this
      ensures (State(), err) == StoreModel.Unpublish(old(State()), id, shop)
    {
      err := SetFlags(UnpublishWrite(id, shop), id, shop, false);
    }

    method SetFlags(entry: Write, id: string, shop: string, published: bool) returns (err: Option<DbError>)
      modifies this
      ensures (State(), err) == StoreModel.SetFlags(old(State()), entry, id, shop, published)
    {
      log := log + [entry];
      if ProductsTable in down {
        return Some(Unavailable);
      }
      if id in products && products[id].productShop == shop {
        products := products[id := products[id].(isDraft := !published, isPublished := published)];
      }
      err := None;
    }

    /** CountProducts: count the rows a gorm map filter matches. */
    method CountProducts(query: map<string, Value>) returns (r: Result<int, DbError>)
      ensures r == CountMatching(Contents(), down, query)
    {
      if ProductsTable in down {
        return Failure(Unavailable);
      }
      if exists col :: col in query && col !in ProductColumns {
        return Failure(UnknownColumn);
      }
      r := Success(|set id | id in products && Matches(products[id], query)|);
    }

    /** A count query and then, if it answered, a row query converted into a response. */
    method RunPaged(sql: Sql, p: ProductQueryParams, countQ: Query, rowsQ: Query) returns (issued: seq<Query>, r: Result<ProductResponse, DbError>)
      requires p.limit >= 1
      ensures Listing(p, issued, r) == Paged(Contents(), sql, p, countQ, rowsQ)
    {
      issued := [countQ];
      var count := sql.count(Contents(), countQ);
      if count.Failure? {
        return issued, Failure(count.error);
      }
      issued := issued + [rowsQ];
      var rows := sql.rows(Contents(), rowsQ);
      if rows.Failure? {
        return issued, Failure(rows.error);
      }
      var data := ConvertRows(rows.value);
      var totalPages := CeilDiv(count.value, p.limit);
      r := Success(ProductResponse(p.page, totalPages, count.value, data));
    }

    /** FindAllProducts: the type filter, else the keyword search, else all published products. */
    method FindAllProducts(sql: Sql, params: ProductQueryParams) returns (p: ProductQueryParams, issued: seq<Query>, r: Result<ProductResponse, DbError>)
      ensures Listing(p, issued, r) == Queries.FindAllProducts(Contents(), sql, params)
    {
      var offset;
      p, offset := PageParams(params);
      var countQ, rowsQ;
      if p.productType != "" {
        countQ := CountProductsByType(p.productType);
        rowsQ := ListProductsByType(p.productType, Int32(p.limit), Int32(offset));
      } else if p.keyword != "" {
        var pattern := "%" + p.keyword + "%";
        countQ := CountSearchProductsByName(pattern);
        rowsQ := SearchProductsByName(pattern, Int32(p.limit), Int32(offset));
      } else {
        countQ := CountAllPublishedProducts;
        rowsQ := ListAllPublishedProducts(Int32(p.limit), Int32(offset));
      }
      issued, r := RunPaged(sql, p, countQ, rowsQ);
    }

    /** FindProductsByDiscount: ranked by discount, counted over all published products. */
    method FindProductsByDiscount(sql: Sql, params: ProductQueryParams) returns (p: ProductQueryParams, issued: seq<Query>, r: Result<ProductResponse, DbError>)
      ensures Listing(p, issued, r) == Queries.FindProductsByDiscount(Contents(), sql, params)
    {
      var offset;
      p, offset := PageParams(params);
      issued, r := RunPaged(sql, p, CountAllPublishedProducts, ListProductsByDiscount(Int32(p.limit), Int32(offset)));
    }

    /** FindProductsBySelled: ranked by units sold, counted over all published products. */
    method FindProductsBySelled(sql: Sql, params: ProductQueryParams) returns (p: ProductQueryParams, issued: seq<Query>, r: Result<ProductResponse, DbError>)
      ensures Listing(p, issued, r) == Queries.FindProductsBySelled(Contents(), sql, params)
    {
      var offset;
      p, offset := PageParams(params);
      issued, r := RunPaged(sql, p, CountAllPublishedProducts, ListProductsBySelled(Int32(p.limit), Int32(offset)));
    }

    /** One row query, converted. */
    method RunUnpaged(sql: Sql, q: Query) returns (issued: seq<Query>, r: Result<seq<ProductModel>, DbError>)
      ensures RowsListing(issued, r) == Unpaged(Contents(), sql, q)
    {
      issued := [q];
      var rows := sql.rows(Contents(), q);
      if rows.Failure? {
        return issued, Failure(rows.error);
      }
      var data := ConvertRows(rows.value);
      r := Success(data);
    }

    /** SearchProducts: the first 100 rows whose name matches the keyword. */
    method SearchProducts(sql: Sql, keyword: string) returns (issued: seq<Query>, r: Result<seq<ProductModel>, DbError>)
      ensures RowsListing(issued, r) == Queries.SearchProducts(Contents(), sql, keyword)
    {
      var pattern := "%" + keyword + "%";
      issued, r := RunUnpaged(sql, SearchProductsByName(pattern, 100, 0));
    }

    /** FindAllDraftsForShop: one page of the shop's drafts. */
    method FindAllDraftsForShop(sql: Sql, shop: string, limit: int, offset: int) returns (issued: seq<Query>, r: Result<seq<ProductModel>, DbError>)
      ensures RowsListing(issued, r) == ShopListing(Contents(), sql, true, shop, limit, offset)
    {
      issued, r := RunUnpaged(sql, ListDraftProducts(shop, Int32(limit), Int32(offset)));
    }

    /** FindAllPublishForShop: one page of the shop's published products. */
    method FindAllPublishForShop(sql: Sql, shop: string, limit: int, offset: int) returns (issued: seq<Query>, r: Result<seq<ProductModel>, DbError>)
      ensures RowsListing(issued, r) == ShopListing(Contents(), sql, false, shop, limit, offset)
    {
      issued, r := RunUnpaged(sql, ListPublishedProducts(shop, Int32(limit), Int32(offset)));
    }
  }
}
