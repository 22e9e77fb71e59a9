/**
 * The store behind the repository, as values: the products, the three variant tables
 * and the inventory rows, a log of every write as it is issued, and the set of tables
 * that cannot be reached. Each repository write is a transition from one store to the
 * next together with the error it reports.
 */
module StoreModel {
  import opened Wrappers
  import opened Errors
  import opened Model
  import opened Rows
  import Variants

  datatype Table = ProductsTable | VariantTable(kind: ProductKind) | InventoryTable

  datatype Tables = Tables(
    products: map<string, DbProduct>,
    mushrooms: map<string, DbVariant>,
    vegetables: map<string, DbVariant>,
    bonsais: map<string, DbVariant>,
    inventories: seq<DbInventory>)

  /** A write as the repository issues it, whether or not it then succeeds. */
  datatype Write =
    | VariantInsert(kind: ProductKind, id: string)
    | ProductInsert(id: string)
    | InventoryInsert(productId: string)
    | ProductUpdate(id: string, patch: map<string, Value>)
    | PublishWrite(id: string, shop: string)
    | UnpublishWrite(id: string, shop: string)

  datatype Db = Db(tables: Tables, log: seq<Write>, down: set<Table>)

  function VariantRows(t: Tables, kind: ProductKind): map<string, DbVariant> {
    match kind
    case Mushroom => t.mushrooms
    case Vegetable => t.vegetables
    case Bonsai => t.bonsais
  }

  function WithVariantRows(t: Tables, kind: ProductKind, rows: map<string, DbVariant>): (t': Tables)
    ensures VariantRows(t', kind) == rows
    ensures forall k :: k != kind ==> VariantRows(t', k) == VariantRows(t, k)
    ensures t'.products == t.products && t'.inventories == t.inventories
  {
    match kind
    case Mushroom => t.(mushrooms := rows)
    case Vegetable => t.(vegetables := rows)
    case Bonsai => t.(bonsais := rows)
  }

  /** The table kind a variant row belongs in. */
  function RowKind(row: DbVariant): ProductKind {
    match row
    case DbMushroom(_, _, _, _, _, _) => Mushroom
    case DbVegetable(_, _, _, _, _, _) => Vegetable
    case DbBonsai(_, _, _, _, _, _, _) => Bonsai
  }

  /** CreateMushroom, CreateVegetable, CreateBonsai: insert into the variant's own table. */
  function CreateVariant(db: Db, v: VariantModel): (Db, Option<DbError>) {
    var kind := KindOf(v);
    var log := db.log + [VariantInsert(kind, v.id)];
    if VariantTable(kind) in db.down then (db.(log := log), Some(Unavailable))
    else if v.id in VariantRows(db.tables, kind) then (db.(log := log), Some(DuplicateKey))
    else
      var rows := VariantRows(db.tables, kind)[v.id := ToDbVariant(v)];
      (db.(tables := WithVariantRows(db.tables, kind, rows), log := log), None)
  }

  /** CreateProduct: insert the product's row. */
  function CreateProduct(db: Db, p: ProductModel): (Db, Option<DbError>) {
    var log := db.log + [ProductInsert(p.id)];
    if ProductsTable in db.down then (db.(log := log), Some(Unavailable))
    else if p.id in db.tables.products then (db.(log := log), Some(DuplicateKey))
    else (db.(tables := db.tables.(products := db.tables.products[p.id := ToDbProduct(p)]), log := log), None)
  }

  /** InsertInventory: append an inventory row. */
  function InsertInventory(db: Db, inv: InventoryInput): (Db, Option<DbError>) {
    var log := db.log + [InventoryInsert(inv.productId)];
    if InventoryTable in db.down then (db.(log := log), Some(Unavailable))
    else (db.(tables := db.tables.(inventories := db.tables.inventories + [ToDbInventory(inv)]), log := log), None)
  }

  /** FindProduct: the product row with the id, read back into a model. */
  function FindProduct(db: Db, id: string): (r: Result<ProductModel, DbError>) {
    if ProductsTable in db.down then Failure(Unavailable)
    else if id !in db.tables.products then Failure(NoRows)
    else Success(FromDbProduct(db.tables.products[id]))
  }

  /**
   * UpdateProductByID: a map-based update of the product row with the id. The map is
   * refused whole when it names a column the table lacks or gives one a value it will
   * not store; an id that matches no row changes nothing and reports nothing.
   */
  function UpdateProductByID(db: Db, id: string, patch: map<string, Value>): (Db, Option<DbError>) {
    var log := db.log + [ProductUpdate(id, patch)];
    if ProductsTable in db.down then (db.(log := log), Some(Unavailable))
    else if PatchFault(patch).Some? then (db.(log := log), PatchFault(patch))
    else if id !in db.tables.products then (db.(log := log), None)
    else
      var row := ApplyPatch(db.tables.products[id], patch);
      (db.(tables := db.tables.(products := db.tables.products[id := row]), log := log), None)
  }

  /** Set the draft and published flags of the row with the id when that shop owns it. */
  function SetFlags(db: Db, entry: Write, id: string, shop: string, published: bool): (Db, Option<DbError>) {
    var log := db.log + [entry];
    if ProductsTable in db.down then (db.(log := log), Some(Unavailable))
    else if id in db.tables.products && db.tables.products[id].productShop == shop then
      var row := db.tables.products[id].(isDraft := !published, isPublished := published);
      (db.(tables := db.tables.(products := db.tables.products[id := row]), log := log), None)
    else (db.(log := log), None)
  }

  /** PublishProductByShop: the owning shop takes the product out of draft and publishes it. */
  function Publish(db: Db, id: string, shop: string): (Db, Option<DbError>) {
    SetFlags(db, PublishWrite(id, shop), id, shop, true)
  }

  /** UnPublishProductByShop: the owning shop withdraws the product back to draft. */
  function Unpublish(db: Db, id: string, shop: string): (Db, Option<DbError>) {
    SetFlags(db, UnpublishWrite(id, shop), id, shop, false)
  }

  /** Every row sits under its own id, in the table of its own kind. */
  predicate KeysConsistent(t: Tables) {
    && (forall id :: id in t.products ==> t.products[id].id == id)
    && (forall kind, id :: id in VariantRows(t, kind) ==>
          VariantRows(t, kind)[id].id == id && RowKind(VariantRows(t, kind)[id]) == kind)
  }

  /** Exactly one of draft and published holds for every product. */
  predicate FlagsConsistent(t: Tables) {
    forall id :: id in t.products ==> t.products[id].isDraft == !t.products[id].isPublished
  }

  /** Every product has a known type tag and a row in that type's variant table. */
  predicate Linked(t: Tables) {
    forall id :: id in t.products ==>
      var kind := Variants.ParseKind(t.products[id].productType);
      kind.Some? && id in VariantRows(t, kind.value)
  }

  predicate Valid(t: Tables) {
    KeysConsistent(t) && FlagsConsistent(t) && Linked(t)
  }

  /** Each write appends exactly its own entry to the log and nothing else. */
  lemma WritesAreLogged(db: Db, v: VariantModel, p: ProductModel, inv: InventoryInput,
                        id: string, shop: string, patch: map<string, Value>)
    ensures CreateVariant(db, v).0.log == db.log + [VariantInsert(KindOf(v), v.id)]
    ensures CreateProduct(db, p).0.log == db.log + [ProductInsert(p.id)]
    ensures InsertInventory(db, inv).0.log == db.log + [InventoryInsert(inv.productId)]
    ensures UpdateProductByID(db, id, patch).0.log == db.log + [ProductUpdate(id, patch)]
    ensures Publish(db, id, shop).0.log == db.log + [PublishWrite(id, shop)]
    ensures Unpublish(db, id, shop).0.log == db.log + [UnpublishWrite(id, shop)]
  {
  }

  /** A write that reports an error leaves every table as it was. */
  lemma FailedWritesChangeNoTable(db: Db, v: VariantModel, p: ProductModel, inv: InventoryInput,
                                  id: string, shop: string, patch: map<string, Value>)
    ensures CreateVariant(db, v).1.Some? ==> CreateVariant(db, v).0.tables == db.tables
    ensures CreateProduct(db, p).1.Some? ==> CreateProduct(db, p).0.tables == db.tables
    ensures InsertInventory(db, inv).1.Some? ==> InsertInventory(db, inv).0.tables == db.tables
    ensures UpdateProductByID(db, id, patch).1.Some? ==> UpdateProductByID(db, id, patch).0.tables == db.tables
    ensures Publish(db, id, shop).1.Some? ==> Publish(db, id, shop).0.tables == db.tables
    ensures Unpublish(db, id, shop).1.Some? ==> Unpublish(db, id, shop).0.tables == db.tables
  {
  }

  /** A product that was inserted is found again, as the row mapping reads it back. */
  lemma CreateThenFind(db: Db, p: ProductModel)
    requires CreateProduct(db, p).1.None?
    ensures FindProduct(CreateProduct(db, p).0, p.id) == Success(FromDbProduct(ToDbProduct(p)))
  {
  }

  /**
   * Publishing is idempotent, and publishing after unpublishing (or the other way
   * round) ends in the same state as the last call alone, apart from the log.
   */
  lemma PublishIdempotent(db: Db, id: string, shop: string)
    ensures var once := Publish(db, id, shop).0;
      Publish(once, id, shop).0.tables == once.tables && Publish(once, id, shop).1 == Publish(db, id, shop).1
  {
    var once := Publish(db, id, shop).0;
    if ProductsTable !in db.down && id in db.tables.products && db.tables.products[id].productShop == shop {
      var row := db.tables.products[id].(isDraft := false, isPublished := true);
      assert once.tables.products[id] == row;
      assert row.(isDraft := false, isPublished := true) == row;
      assert once.tables.products[id := row] == once.tables.products;
    }
  }

  lemma UnpublishThenPublish(db: Db, id: string, shop: string)
    ensures Publish(Unpublish(db, id, shop).0, id, shop).0.tables == Publish(db, id, shop).0.tables
  {
    if ProductsTable !in db.down && id in db.tables.products && db.tables.products[id].productShop == shop {
      var row := db.tables.products[id];
      var un := Unpublish(db, id, shop).0;
      assert un.tables.products[id] == row.(isDraft := true, isPublished := false);
      assert un.tables.products[id].(isDraft := false, isPublished := true) == row.(isDraft := false, isPublished := true);
      assert un.tables.products[id := row.(isDraft := false, isPublished := true)]
          == db.tables.products[id := row.(isDraft := false, isPublished := true)];
    }
  }

  /** Only the owning shop can move a product's flags. */
  lemma PublishNeedsOwner(db: Db, id: string, shop: string)
    requires id in db.tables.products && db.tables.products[id].productShop != shop
    ensures Publish(db, id, shop).0.tables == db.tables
    ensures Unpublish(db, id, shop).0.tables == db.tables
  {
  }

  /** Replacing a product row by one with the same id, type and consistent flags keeps the store valid. */
  lemma ReplaceRowKeepsValid(t: Tables, id: string, row: DbProduct)
    requires Valid(t) && id in t.products
    requires row.id == id && row.productType == t.products[id].productType && row.isDraft == !row.isPublished
    ensures Valid(t.(products := t.products[id := row]))
  {
    var t' := t.(products := t.products[id := row]);
    assert forall k :: VariantRows(t', k) == VariantRows(t, k);
    assert KeysConsistent(t');
    assert FlagsConsistent(t');
    forall i | i in t'.products
      ensures Variants.ParseKind(t'.products[i].productType).Some?
      ensures id in VariantRows(t', Variants.ParseKind(t'.products[i].productType).value) || i != id
    {
    }
  }

  /** Publishing and unpublishing keep the store valid. */
  lemma FlagWritesKeepValid(db: Db, id: string, shop: string)
    requires Valid(db.tables)
    ensures Valid(Publish(db, id, shop).0.tables)
    ensures Valid(Unpublish(db, id, shop).0.tables)
  {
    if ProductsTable !in db.down && id in db.tables.products && db.tables.products[id].productShop == shop {
      var row := db.tables.products[id];
      ReplaceRowKeepsValid(db.tables, id, row.(isDraft := false, isPublished := true));
      ReplaceRowKeepsValid(db.tables, id, row.(isDraft := true, isPublished := false));
    }
  }

  /** A variant row lands under its own id in the table of its own kind. */
  lemma VariantRowPlacement(v: VariantModel)
    ensures ToDbVariant(v).id == v.id && RowKind(ToDbVariant(v)) == KindOf(v)
  {
  }

  /** Inserting a variant row keeps the store valid. */
  lemma VariantInsertKeepsValid(db: Db, v: VariantModel)
    requires Valid(db.tables)
    ensures Valid(CreateVariant(db, v).0.tables)
  {
    var kind := KindOf(v);
    if VariantTable(kind) !in db.down && v.id !in VariantRows(db.tables, kind) {
      var t := db.tables;
      var t' := CreateVariant(db, v).0.tables;
      VariantRowPlacement(v);
      assert t'.products == t.products;
      forall k, i | i in VariantRows(t', k)
        ensures VariantRows(t', k)[i].id == i && RowKind(VariantRows(t', k)[i]) == k
      {
        if k != kind || i != v.id {
          assert i in VariantRows(t, k);
        }
      }
      forall i | i in t'.products
        ensures Variants.ParseKind(t'.products[i].productType).Some?
        ensures i in VariantRows(t', Variants.ParseKind(t'.products[i].productType).value)
      {
        assert i in VariantRows(t, Variants.ParseKind(t.products[i].productType).value);
      }
    }
  }

  /**
   * Inserting a product keeps the store valid when its type tag is known, its variant
   * row is already in place and its flags are consistent.
   */
  lemma ProductInsertKeepsValid(db: Db, p: ProductModel)
    requires Valid(db.tables)
    requires Variants.ParseKind(p.productType).Some?
    requires p.id in VariantRows(db.tables, Variants.ParseKind(p.productType).value)
    requires p.isDraft == !p.isPublished
    ensures Valid(CreateProduct(db, p).0.tables)
  {
    var t' := CreateProduct(db, p).0.tables;
    assert forall k :: VariantRows(t', k) == VariantRows(db.tables, k);
  }

  /** Appending an inventory row keeps the store valid. */
  lemma InventoryInsertKeepsValid(db: Db, inv: InventoryInput)
    requires Valid(db.tables)
    ensures Valid(InsertInventory(db, inv).0.tables)
  {
    var t' := InsertInventory(db, inv).0.tables;
    assert forall k :: VariantRows(t', k) == VariantRows(db.tables, k);
  }

  /** An update that names none of the id, the type tag and the flags keeps the store valid. */
  lemma UpdateKeepsValid(db: Db, id: string, patch: map<string, Value>)
    requires Valid(db.tables)
    requires "id" !in patch && "product_type" !in patch && "is_draft" !in patch && "is_published" !in patch
    ensures Valid(UpdateProductByID(db, id, patch).0.tables)
  {
    if ProductsTable !in db.down && PatchFault(patch).None? && id in db.tables.products {
      var row := db.tables.products[id];
      var row' := ApplyPatch(row, patch);
      ApplyPatchRule(row, patch, "id");
      ApplyPatchRule(row, patch, "product_type");
      ApplyPatchRule(row, patch, "is_draft");
      ApplyPatchRule(row, patch, "is_published");
      ReplaceRowKeepsValid(db.tables, id, row');
    }
  }
}
