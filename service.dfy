/**
 * The catalog service workflows. Creating a product validates the input, reads the
 * caller, normalises the description, dispatches on the type tag and then writes the
 * variant row, the product row and the inventory row in that order, stopping at the
 * first failure without undoing earlier writes. Updating a product checks the caller
 * owns it, sends the attribute patch chosen by the stored type and then the sparse
 * patch of the common fields. The caller's identity, the fresh product id and the
 * clock reading are parameters.
 */
module CatalogService {
  import opened Wrappers
  import opened Errors
  import opened Model
  import opened Rows
  import opened StoreModel
  import opened Queries
  import opened Variants
  import opened Description
  import opened Repo

  /** The create path's input check: a name and a positive price. */
  predicate ValidInput(input: ProductInput) {
    input.productName != "" && input.productPrice > 0.0
  }

  /** The description as stored: normalised when one is given. */
  function StoredDescription(description: string): string {
    if description != "" then NormalizeDescription(description) else description
  }

  /** Skipping the empty description changes nothing: it normalises to itself. */
  lemma StoredIsNormalized(description: string)
    ensures StoredDescription(description) == NormalizeDescription(description)
  {
    if description == "" {
      BlankIffEmpty(description);
    }
  }

  /** The product record the create path builds. */
  function NewProduct(input: ProductInput, id: string, shop: string, now: Time): ProductModel {
    ProductModel(
      id, input.productName, input.productPrice, input.productDiscountPrice, input.productThumb,
      StoredDescription(input.productDescription), input.productQuantity, input.productType,
      input.subProductType, input.productVideos, input.productPictures, input.productStatus,
      0, shop, DefaultIsDraft, DefaultIsPublished, now, now)
  }

  function Lift(e: Option<DbError>): (r: Option<Error>)
    ensures r.None? <==> e.None?
  {
    match e
    case None => None
    case Some(cause) => Some(StoreError(cause))
  }

  /**
   * CreateProduct. `caller` is the identity read from the request (None when there
   * is none), `admin` the outcome of a role check (the live service has none and
   * passes true), `id` the generated product id and `now` the clock reading.
   */
  function CreateSpec(db: Db, input: ProductInput, caller: Option<string>, admin: bool, id: string, now: Time): (Db, Result<ProductModel, Error>) {
    if !ValidInput(input) then (db, Failure(InvalidInput))
    else if caller.None? then (db, Failure(IdentityError))
    else if !admin then (db, Failure(NotAuthorizedToCreate))
    else
      var shop := caller.value;
      var product := NewProduct(input, id, shop, now);
      match ParseKind(input.productType)
      case None => (db, Failure(InvalidProductType))
      case Some(kind) =>
        var (db1, e1) := CreateVariant(db, ExtractVariant(kind, id, shop, input.productAttributes));
        if e1.Some? then (db1, Failure(StoreError(e1.value)))
        else
          var (db2, e2) := CreateProduct(db1, product);
          if e2.Some? then (db2, Failure(StoreError(e2.value)))
          else
            var (db3, e3) := InsertInventory(db2, InventoryInput(id, shop, "", input.productQuantity));
            if e3.Some? then (db3, Failure(StoreError(e3.value)))
            else (db3, Success(product))
  }

  /** The columns the update path can name in its main patch. */
  const MainColumns: set<string> := {
    "product_name", "product_price", "product_thumb", "product_description", "product_quantity",
    "product_status", "product_discounted_price", "product_videos", "product_pictures",
    "sub_product_type", "updated_at"}

  /** Whether the update input supplies a column: a non-empty string, a positive number, a non-empty list. */
  predicate Supplies(input: ProductInput, col: string) {
    if col == "product_name" then input.productName != ""
    else if col == "product_price" then input.productPrice > 0.0
    else if col == "product_thumb" then input.productThumb != ""
    else if col == "product_description" then input.productDescription != ""
    else if col == "product_quantity" then input.productQuantity > 0
    else if col == "product_status" then input.productStatus != ""
    else if col == "product_discounted_price" then input.productDiscountPrice > 0.0
    else if col == "product_videos" then |input.productVideos| > 0
    else if col == "product_pictures" then |input.productPictures| > 0
    else if col == "sub_product_type" then input.subProductType != ""
    else col == "updated_at"
  }

  /** The value the update input gives a column. */
  function Supplied(input: ProductInput, now: Time, col: string): Value {
    if col == "product_name" then VString(input.productName)
    else if col == "product_price" then VFloat(input.productPrice)
    else if col == "product_thumb" then VString(input.productThumb)
    else if col == "product_description" then VString(NormalizeDescription(input.productDescription))
    else if col == "product_quantity" then VInt(input.productQuantity)
    else if col == "product_status" then VString(input.productStatus)
    else if col == "product_discounted_price" then VFloat(input.productDiscountPrice)
    else if col == "product_videos" then VStrings(input.productVideos)
    else if col == "product_pictures" then VStrings(input.productPictures)
    else if col == "sub_product_type" then VString(input.subProductType)
    else VTime(now)
  }

  /** The part of the main patch for the columns in `cols`. */
  function PatchOver(input: ProductInput, now: Time, cols: set<string>): map<string, Value> {
    map col | col in cols && col in MainColumns && Supplies(input, col) :: Supplied(input, now, col)
  }

  /** The sparse update of the common fields, with `updated_at` always set. */
  function MainPatch(input: ProductInput, now: Time): map<string, Value> {
    PatchOver(input, now, MainColumns)
  }

  lemma PatchOverStep(input: ProductInput, now: Time, cols: set<string>, col: string, cols': set<string>)
    requires cols' == cols + {col} && col in MainColumns
    ensures PatchOver(input, now, cols') ==
      if Supplies(input, col) then PatchOver(input, now, cols)[col := Supplied(input, now, col)] else PatchOver(input, now, cols)
  {
  }

  /**
   * The sparse-patch rule: each common field enters the patch exactly when it is a
   * non-empty string, a positive number or a non-empty list, the description enters
   * normalised, and `updated_at` is always there. Nothing else is ever named: not the
   * type, the owner, the flags or the id.
   */
  lemma MainPatchRule(input: ProductInput, now: Time)
    ensures var p := MainPatch(input, now);
      && ("product_name" in p <==> input.productName != "")
      && ("product_price" in p <==> input.productPrice > 0.0)
      && ("product_thumb" in p <==> input.productThumb != "")
      && ("product_description" in p <==> input.productDescription != "")
      && ("product_quantity" in p <==> input.productQuantity > 0)
      && ("product_status" in p <==> input.productStatus != "")
      && ("product_discounted_price" in p <==> input.productDiscountPrice > 0.0)
      && ("product_videos" in p <==> |input.productVideos| > 0)
      && ("product_pictures" in p <==> |input.productPictures| > 0)
      && ("sub_product_type" in p <==> input.subProductType != "")
      && p["updated_at"] == VTime(now)
      && ("product_description" in p ==> p["product_description"] == VString(NormalizeDescription(input.productDescription)))
      && ("product_name" in p ==> p["product_name"] == VString(input.productName))
      && ("product_quantity" in p ==> p["product_quantity"] == VInt(input.productQuantity))
      && ("product_price" in p ==> p["product_price"] == VFloat(input.productPrice))
      && ("product_thumb" in p ==> p["product_thumb"] == VString(input.productThumb))
      && ("product_status" in p ==> p["product_status"] == VString(input.productStatus))
      && ("product_discounted_price" in p ==> p["product_discounted_price"] == VFloat(input.productDiscountPrice))
      && ("product_videos" in p ==> p["product_videos"] == VStrings(input.productVideos))
      && ("product_pictures" in p ==> p["product_pictures"] == VStrings(input.productPictures))
      && ("sub_product_type" in p ==> p["sub_product_type"] == VString(input.subProductType))
      && p.Keys <= MainColumns
      && |p| > 0
  {
    var p := MainPatch(input, now);
    assert "updated_at" in p;
    assert p.Keys <= MainColumns;
  }

  /** The database accepts the main patch unless the quantity does not fit an int32 column. */
  lemma MainPatchAccepted(input: ProductInput, now: Time)
    ensures PatchFault(MainPatch(input, now)).None? <==> input.productQuantity < TwoTo31
  {
    var p := MainPatch(input, now);
    if input.productQuantity < TwoTo31 {
      forall col | col in p
        ensures col in ProductColumns && ColumnAccepts(col, p[col])
      {
        SuppliedAccepted(input, now, col);
      }
    } else {
      assert "product_quantity" in p;
      SuppliedAccepted(input, now, "product_quantity");
    }
  }

  /** Every column of the main patch is a product column, and only the quantity can be out of range. */
  lemma SuppliedAccepted(input: ProductInput, now: Time, col: string)
    requires col in MainColumns && Supplies(input, col)
    ensures col in ProductColumns
    ensures ColumnAccepts(col, Supplied(input, now, col)) <==> col != "product_quantity" || input.productQuantity < TwoTo31
  {
    MainColumnsFacts();
  }

  /** The main columns are product columns, and none of them is the id, the owner, the type, a flag or the creation time. */
  lemma MainColumnsFacts()
    ensures MainColumns <= ProductColumns
    ensures "id" !in MainColumns && "product_shop" !in MainColumns && "product_type" !in MainColumns
    ensures "is_draft" !in MainColumns && "is_published" !in MainColumns && "created_at" !in MainColumns
  {
  }

  /** The main patch names main columns only. */
  lemma MainPatchKeys(input: ProductInput, now: Time)
    ensures MainPatch(input, now).Keys <= MainColumns
  {
  }

  /**
   * UpdateProduct. The lookup result decides ownership; the attribute patch is chosen
   * by the stored type and is sent first, through the same product-row update as the
   * main patch, which is sent last.
   */
  function UpdateSpec(db: Db, id: string, input: ProductInput, caller: Option<string>, now: Time): (Db, Option<Error>) {
    if caller.None? then (db, Some(IdentityError))
    else
      match FindProduct(db, id)
      case Failure(e) => (db, Some(StoreError(e)))
      case Success(product) =>
        if product.productShop != caller.value then (db, Some(Unauthorized))
        else
          var (db1, e1) := AttributeUpdate(db, id, product.productType, input.productAttributes);
          if e1.Some? then (db1, Lift(e1))
          else
            var (db2, e2) := UpdateProductByID(db1, id, MainPatch(input, now));
            (db2, Lift(e2))
  }

  /** The attribute step of an update: nothing for an unknown stored type or an empty patch. */
  function AttributeUpdate(db: Db, id: string, storedType: string, bag: map<string, Value>): (Db, Option<DbError>) {
    match ParseKind(storedType)
    case None => (db, None)
    case Some(kind) =>
      var attrs := AttributePatch(kind, bag);
      if |attrs| > 0 then UpdateProductByID(db, id, attrs) else (db, None)
  }

  /** PublishProduct and UnPublishProduct: the ids are forwarded as they are. */
  function PublishSpec(db: Db, id: string, shop: string, publish: bool): (Db, Option<Error>) {
    var (db', e) := if publish then Publish(db, id, shop) else Unpublish(db, id, shop);
    (db', Lift(e))
  }

  /** The shop listings of the service: page and limit defaulted, then offset = (page - 1) * limit. */
  function ShopPage(t: Tables, sql: Sql, drafts: bool, shop: string, page: int, limit: int): RowsListing {
    var l := NormalizeLimit(limit);
    ShopListing(t, sql, drafts, shop, l, Offset(NormalizePage(page), l))
  }

  // ---------------------------------------------------------------------------
  // What the create path promises.

  /** The three writes of a create, in the order they are issued. */
  function CreateWrites(kind: ProductKind, id: string): seq<Write> {
    [VariantInsert(kind, id), ProductInsert(id), InventoryInsert(id)]
  }

  /**
   * Nothing is written, not even attempted, unless the input is valid, the caller is
   * known, the role check passes and the type tag is one of the three; each of those
   * failures has its own error, checked in that order.
   */
  lemma CreateChecksBeforeWriting(db: Db, input: ProductInput, caller: Option<string>, admin: bool, id: string, now: Time)
    ensures var (db', r) := CreateSpec(db, input, caller, admin, id, now);
      && (db'.log == db.log <==> !ValidInput(input) || caller.None? || !admin || ParseKind(input.productType).None?)
      && (db'.log == db.log ==> db' == db && r.Failure?)
      && (r == Failure(InvalidInput) <==> !ValidInput(input))
      && (ValidInput(input) && caller.None? ==> r == Failure(IdentityError))
      && (ValidInput(input) && caller.Some? && !admin ==> r == Failure(NotAuthorizedToCreate))
      && (ValidInput(input) && caller.Some? && admin && ParseKind(input.productType).None? ==> r == Failure(InvalidProductType))
  {
    if ValidInput(input) && caller.Some? && admin && ParseKind(input.productType).Some? {
      CreateWriteOrder(db, input, caller, admin, id, now);
    }
  }

  /**
   * Once the type is known the variant, product and inventory inserts go out in that
   * order, each only after the one before it succeeded; the first failure stops the
   * sequence and its error comes back, as a store error, as the outcome.
   */
  lemma CreateWriteOrder(db: Db, input: ProductInput, caller: Option<string>, admin: bool, id: string, now: Time)
    requires ValidInput(input) && caller.Some? && admin && ParseKind(input.productType).Some?
    ensures var (db', r) := CreateSpec(db, input, caller, admin, id, now);
      var writes := CreateWrites(ParseKind(input.productType).value, id);
      && db.log < db'.log <= db.log + writes
      && (r.Success? ==> db'.log == db.log + writes)
      && (r.Failure? ==> r.error.StoreError?)
    ensures var (db', r) := CreateSpec(db, input, caller, admin, id, now);
      var kind, shop := ParseKind(input.productType).value, caller.value;
      var writes := CreateWrites(kind, id);
      var (db1, e1) := CreateVariant(db, ExtractVariant(kind, id, shop, input.productAttributes));
      var (db2, e2) := CreateProduct(db1, NewProduct(input, id, shop, now));
      var (db3, e3) := InsertInventory(db2, InventoryInput(id, shop, "", input.productQuantity));
      && (e1.Some? ==> db'.log == db.log + writes[..1] && r == Failure(StoreError(e1.value)))
      && (e1.None? && e2.Some? ==> db'.log == db.log + writes[..2] && r == Failure(StoreError(e2.value)))
      && (e1.None? && e2.None? && e3.Some? ==> db'.log == db.log + writes && r == Failure(StoreError(e3.value)))
      && (e1.None? && e2.None? && e3.None? ==> r == Success(NewProduct(input, id, shop, now)))
  {
    var kind := ParseKind(input.productType).value;
    var shop := caller.value;
    var writes := CreateWrites(kind, id);
    var v := ExtractVariant(kind, id, shop, input.productAttributes);
    var (db1, e1) := CreateVariant(db, v);
    assert db1.log == db.log + writes[..1];
    if e1.None? {
      var (db2, e2) := CreateProduct(db1, NewProduct(input, id, shop, now));
      assert db2.log == db.log + writes[..2];
      if e2.None? {
        var (db3, e3) := InsertInventory(db2, InventoryInput(id, shop, "", input.productQuantity));
        assert db3.log == db.log + writes;
      }
    }
  }

  /**
   * There is no rollback: once the variant insert has succeeded its row stays whatever
   * the later inserts report, and so does the product row once that insert has.
   */
  lemma CreateLeavesEarlierRows(db: Db, input: ProductInput, caller: Option<string>, admin: bool, id: string, now: Time)
    requires ValidInput(input) && caller.Some? && admin && ParseKind(input.productType).Some?
    ensures var kind := ParseKind(input.productType).value;
      var v := ExtractVariant(kind, id, caller.value, input.productAttributes);
      var p := NewProduct(input, id, caller.value, now);
      var db' := CreateSpec(db, input, caller, admin, id, now).0;
      && (CreateVariant(db, v).1.None? ==>
            id in VariantRows(db'.tables, kind) && VariantRows(db'.tables, kind)[id] == ToDbVariant(v))
      && (CreateVariant(db, v).1.None? && CreateProduct(CreateVariant(db, v).0, p).1.None? ==>
            id in db'.tables.products && db'.tables.products[id] == ToDbProduct(p))
  {
  }

  /**
   * A product that was created is a draft, owned by the caller, under the given id,
   * with the normalised description; its variant and inventory rows carry the same id
   * and shop, and the stock is the quantity.
   */
  lemma CreatedProduct(db: Db, input: ProductInput, caller: Option<string>, admin: bool, id: string, now: Time)
    requires CreateSpec(db, input, caller, admin, id, now).1.Success?
    ensures caller.Some? && ParseKind(input.productType).Some?
    ensures var (db', r) := CreateSpec(db, input, caller, admin, id, now);
      var p := r.value;
      var kind := ParseKind(input.productType).value;
      && p.id == id && p.productShop == caller.value && p.isDraft && !p.isPublished && p.productSelled == 0
      && p.productName == input.productName && p.productPrice == input.productPrice
      && p.productType == input.productType && p.productQuantity == input.productQuantity
      && p.productDescription == NormalizeDescription(input.productDescription)
      && p.createdAt == now && p.updatedAt == now
      && id in db'.tables.products && db'.tables.products[id] == ToDbProduct(p)
      && id in VariantRows(db'.tables, kind)
      && VariantRows(db'.tables, kind)[id] == ToDbVariant(ExtractVariant(kind, id, caller.value, input.productAttributes))
      && db'.tables.inventories == db.tables.inventories + [ToDbInventory(InventoryInput(id, caller.value, "", input.productQuantity))]
  {
    StoredIsNormalized(input.productDescription);
  }

  /**
   * A created product is found again under its id. Apart from the timestamps, which
   * the insert leaves to the database, it reads back exactly as returned when the
   * discount is not negative and the quantity fits the int32 column.
   */
  lemma CreateThenFindProduct(db: Db, input: ProductInput, caller: Option<string>, admin: bool, id: string, now: Time)
    requires CreateSpec(db, input, caller, admin, id, now).1.Success?
    ensures var (db', r) := CreateSpec(db, input, caller, admin, id, now);
      && StoreModel.FindProduct(db', id) == Success(FromDbProduct(ToDbProduct(r.value)))
      && (input.productDiscountPrice >= 0.0 && -TwoTo31 <= input.productQuantity < TwoTo31 ==>
            StoreModel.FindProduct(db', id) == Success(r.value.(createdAt := 0, updatedAt := 0)))
  {
    CreatedProduct(db, input, caller, admin, id, now);
    var r := CreateSpec(db, input, caller, admin, id, now).1;
    if input.productDiscountPrice >= 0.0 && -TwoTo31 <= input.productQuantity < TwoTo31 {
      WriteReadExact(r.value);
    }
  }

  /** A create, whether it succeeds or stops part way, keeps the store valid. */
  lemma CreateKeepsValid(db: Db, input: ProductInput, caller: Option<string>, admin: bool, id: string, now: Time)
    requires Valid(db.tables)
    ensures Valid(CreateSpec(db, input, caller, admin, id, now).0.tables)
  {
    if ValidInput(input) && caller.Some? && admin && ParseKind(input.productType).Some? {
      var kind := ParseKind(input.productType).value;
      var shop := caller.value;
      var v := ExtractVariant(kind, id, shop, input.productAttributes);
      var p := NewProduct(input, id, shop, now);
      VariantInsertKeepsValid(db, v);
      var (db1, e1) := CreateVariant(db, v);
      if e1.None? {
        ProductInsertKeepsValid(db1, p);
        var (db2, e2) := CreateProduct(db1, p);
        InventoryInsertKeepsValid(db2, InventoryInput(id, shop, "", input.productQuantity));
      }
    }
  }

  // ---------------------------------------------------------------------------
  // What the update path promises.

  /**
   * Nothing is written unless the caller is known, the product is found and the
   * caller's shop owns it; each refusal has its own error.
   */
  lemma UpdateChecksBeforeWriting(db: Db, id: string, input: ProductInput, caller: Option<string>, now: Time)
    ensures var (db', err) := UpdateSpec(db, id, input, caller, now);
      var found := StoreModel.FindProduct(db, id);
      && (caller.None? ==> db' == db && err == Some(IdentityError))
      && (caller.Some? && found.Failure? ==> db' == db && err == Some(StoreError(found.error)))
      && (caller.Some? && found.Success? && found.value.productShop != caller.value ==> db' == db && err == Some(Unauthorized))
      && (db'.log == db.log <==> caller.None? || found.Failure? || found.value.productShop != caller.value)
  {
  }

  /** The attribute keys of every type are names the products table does not have. */
  lemma AttributeKeysAreNotColumns(kind: ProductKind)
    ensures forall key :: key in AttrKeys(kind) ==> key !in ProductColumns
  {
  }

  /**
   * A non-empty attribute patch is sent to the products table, which has none of
   * those columns: the update stops there with the database's error, having changed
   * nothing, and the main patch is never sent.
   */
  lemma AttributeUpdateRejected(db: Db, id: string, input: ProductInput, caller: Option<string>, now: Time)
    requires caller.Some? && StoreModel.FindProduct(db, id).Success?
    requires StoreModel.FindProduct(db, id).value.productShop == caller.value
    requires ParseKind(StoreModel.FindProduct(db, id).value.productType).Some?
    requires |AttributePatch(ParseKind(StoreModel.FindProduct(db, id).value.productType).value, input.productAttributes)| > 0
    ensures var (db', err) := UpdateSpec(db, id, input, caller, now);
      var attrs := AttributePatch(ParseKind(StoreModel.FindProduct(db, id).value.productType).value, input.productAttributes);
      && err == Some(StoreError(UnknownColumn))
      && db'.tables == db.tables
      && db'.log == db.log + [ProductUpdate(id, attrs)]
  {
    var kind := ParseKind(StoreModel.FindProduct(db, id).value.productType).value;
    var attrs := AttributePatch(kind, input.productAttributes);
    var key :| key in attrs;
    AttributeKeysAreNotColumns(kind);
    assert key in AttrKeys(kind) && key !in ProductColumns;
  }

  /**
   * When no attribute patch is sent (an unknown stored type, or no usable attribute)
   * the owner's update sends exactly the main patch; the database applies it unless
   * the quantity does not fit, and then every column is what the patch says or what
   * it was.
   */
  lemma OwnerMainUpdate(db: Db, id: string, input: ProductInput, caller: Option<string>, now: Time)
    requires caller.Some? && StoreModel.FindProduct(db, id).Success?
    requires StoreModel.FindProduct(db, id).value.productShop == caller.value
    requires var kind := ParseKind(StoreModel.FindProduct(db, id).value.productType);
      kind.None? || |AttributePatch(kind.value, input.productAttributes)| == 0
    ensures var (db', err) := UpdateSpec(db, id, input, caller, now);
      && db'.log == db.log + [ProductUpdate(id, MainPatch(input, now))]
      && (err.None? <==> input.productQuantity < TwoTo31)
      && (err.Some? ==> err == Some(StoreError(BadValue)) && db'.tables == db.tables)
      && (err.None? ==> id in db'.tables.products)
      && (err.None? ==> forall col :: col in ProductColumns ==>
            Column(db'.tables.products[id], col) ==
              if col in MainPatch(input, now) then MainPatch(input, now)[col] else Column(db.tables.products[id], col))
  {
    var main := MainPatch(input, now);
    MainPatchAccepted(input, now);
    if input.productQuantity < TwoTo31 {
      forall col | col in ProductColumns
        ensures Column(ApplyPatch(db.tables.products[id], main), col) ==
          if col in main then main[col] else Column(db.tables.products[id], col)
      {
        ApplyPatchRule(db.tables.products[id], main, col);
      }
    } else {
      assert "product_quantity" in main;
      SuppliedAccepted(input, now, "product_quantity");
      assert PatchFault(main) == Some(BadValue);
    }
  }

  /**
   * An update touches at most the one product row: the variant tables and the
   * inventory are never written, the set of products is the same, and the owner, the
   * type tag, the flags and the creation time of every product stay as they were.
   */
  lemma UpdateFixesIdentity(db: Db, id: string, input: ProductInput, caller: Option<string>, now: Time)
    ensures var db' := UpdateSpec(db, id, input, caller, now).0;
      && (forall k :: VariantRows(db'.tables, k) == VariantRows(db.tables, k))
      && db'.tables.inventories == db.tables.inventories
      && db'.tables.products.Keys == db.tables.products.Keys
      && (forall i :: i in db.tables.products ==>
            var before, after := db.tables.products[i], db'.tables.products[i];
            && after.productShop == before.productShop && after.productType == before.productType
            && after.isDraft == before.isDraft && after.isPublished == before.isPublished
            && after.createdAt == before.createdAt)
  {
    var db' := UpdateSpec(db, id, input, caller, now).0;
    var found := StoreModel.FindProduct(db, id);
    if caller.Some? && found.Success? && found.value.productShop == caller.value {
      var (db1, e1) := AttributeUpdate(db, id, found.value.productType, input.productAttributes);
      AttributeUpdateTables(db, id, found.value.productType, input.productAttributes);
      if e1.None? {
        MainPatchKeys(input, now);
        PatchFixesIdentity(db1, id, MainPatch(input, now));
      }
    }
  }

  /** The attribute step never changes a table: a non-empty patch is always refused. */
  lemma AttributeUpdateTables(db: Db, id: string, storedType: string, bag: map<string, Value>)
    ensures AttributeUpdate(db, id, storedType, bag).0.tables == db.tables
  {
    var kind := ParseKind(storedType);
    if kind.Some? && |AttributePatch(kind.value, bag)| > 0 {
      var attrs := AttributePatch(kind.value, bag);
      var key :| key in attrs;
      AttributeKeysAreNotColumns(kind.value);
      assert key in AttrKeys(kind.value) && key !in ProductColumns;
    }
  }

  /** A patch of columns from the main set leaves everything but the one row's other columns in place. */
  lemma PatchFixesIdentity(db: Db, id: string, patch: map<string, Value>)
    requires patch.Keys <= MainColumns
    ensures var db' := UpdateProductByID(db, id, patch).0;
      && (forall k :: VariantRows(db'.tables, k) == VariantRows(db.tables, k))
      && db'.tables.inventories == db.tables.inventories
      && db'.tables.products.Keys == db.tables.products.Keys
      && (forall i :: i in db.tables.products ==>
            var before, after := db.tables.products[i], db'.tables.products[i];
            && after.productShop == before.productShop && after.productType == before.productType
            && after.isDraft == before.isDraft && after.isPublished == before.isPublished
            && after.createdAt == before.createdAt)
  {
    if ProductsTable !in db.down && PatchFault(patch).None? && id in db.tables.products {
      PatchKeepsRowIdentity(db.tables.products[id], patch);
    }
  }

  lemma PatchKeepsRowIdentity(row: DbProduct, patch: map<string, Value>)
    requires patch.Keys <= MainColumns && PatchFault(patch).None?
    ensures var after := ApplyPatch(row, patch);
      && after.productShop == row.productShop && after.productType == row.productType
      && after.isDraft == row.isDraft && after.isPublished == row.isPublished
      && after.createdAt == row.createdAt
  {
    MainColumnsFacts();
  }

  /** An update keeps the store valid. */
  lemma UpdateKeepsStoreValid(db: Db, id: string, input: ProductInput, caller: Option<string>, now: Time)
    requires Valid(db.tables)
    ensures Valid(UpdateSpec(db, id, input, caller, now).0.tables)
  {
    var found := StoreModel.FindProduct(db, id);
    if caller.Some? && found.Success? && found.value.productShop == caller.value {
      var (db1, e1) := AttributeUpdate(db, id, found.value.productType, input.productAttributes);
      AttributeUpdateTables(db, id, found.value.productType, input.productAttributes);
      MainPatchKeys(input, now);
      MainColumnsFacts();
      UpdateKeepsValid(db1, id, MainPatch(input, now));
    }
  }

  // ---------------------------------------------------------------------------
  // Publishing and the shop listings.

  /**
   * Publishing or withdrawing is scoped to the shop named in the call: the owner's
   * product gets the requested flags, anyone else's call changes no table and still
   * reports no error.
   */
  lemma PublishOutcome(db: Db, id: string, shop: string, publish: bool)
    requires ProductsTable !in db.down
    ensures var (db', err) := PublishSpec(db, id, shop, publish);
      && err.None?
      && (id in db.tables.products && db.tables.products[id].productShop == shop ==>
            db'.tables.products == db.tables.products[id := db.tables.products[id].(isDraft := !publish, isPublished := publish)])
      && (id !in db.tables.products || db.tables.products[id].productShop != shop ==> db'.tables == db.tables)
  {
  }

  /** Publishing twice is publishing once. */
  lemma PublishProductIdempotent(db: Db, id: string, shop: string)
    ensures var once := PublishSpec(db, id, shop, true);
      PublishSpec(once.0, id, shop, true).0.tables == once.0.tables && PublishSpec(once.0, id, shop, true).1 == once.1
  {
    PublishIdempotent(db, id, shop);
  }

  /** The service's shop listings ask for one page at a positive limit and a page-aligned offset. */
  lemma ShopPageQuery(t: Tables, sql: Sql, drafts: bool, shop: string, page: int, limit: int)
    requires page < TwoTo31 && limit < TwoTo31
    requires (if page < 1 then 0 else page - 1) * (if limit < 1 then DefaultLimit else limit) < TwoTo31
    ensures var l := if limit < 1 then DefaultLimit else limit;
      var off := (if page < 1 then 0 else page - 1) * l;
      ShopPage(t, sql, drafts, shop, page, limit).issued ==
        [if drafts then ListDraftProducts(shop, l, off) else ListPublishedProducts(shop, l, off)]
  {
    var l := NormalizeLimit(limit);
    ShopListingQuery(t, sql, drafts, shop, l, Offset(NormalizePage(page), l));
  }

  // ---------------------------------------------------------------------------
  // The workflows, step by step.

  /** The update path's main patch, filled key by key. */
  method BuildMainPatch(input: ProductInput, now: Time) returns (updateData: map<string, Value>)
    ensures updateData == MainPatch(input, now)
  {
    updateData := BuildProductFields(input, now);
    updateData := BuildOfferFields(input, now, updateData);
    updateData := BuildMediaFields(input, now, updateData);
    ghost var cols := ProductFields + OfferFields + MediaFields;
    updateData := PutSupplied(input, now, updateData, cols, "updated_at", true, VTime(now));
    assert cols + {"updated_at"} == MainColumns;
  }

  /** The status and the discounted price among the main patch's columns. */
  const OfferFields: set<string> := {"product_status", "product_discounted_price"}

  /** The media and the sub type among the main patch's columns. */
  const MediaFields: set<string> := {"product_videos", "product_pictures", "sub_product_type"}

  /** Adds the status and the discounted price to the product fields' patch. */
  method BuildOfferFields(input: ProductInput, now: Time, patch: map<string, Value>) returns (patch': map<string, Value>)
    requires patch == PatchOver(input, now, ProductFields)
    ensures patch' == PatchOver(input, now, ProductFields + OfferFields)
  {
    ghost var cols := ProductFields;
    patch' := PutSupplied(input, now, patch, cols, "product_status", input.productStatus != "", VString(input.productStatus));
    cols := cols + {"product_status"};
    patch' := PutSupplied(input, now, patch', cols, "product_discounted_price", input.productDiscountPrice > 0.0, VFloat(input.productDiscountPrice));
    cols := cols + {"product_discounted_price"};
    assert cols == ProductFields + OfferFields;
  }

  /** Adds the videos, the pictures and the sub type. */
  method BuildMediaFields(input: ProductInput, now: Time, patch: map<string, Value>) returns (patch': map<string, Value>)
    requires patch == PatchOver(input, now, ProductFields + OfferFields)
    ensures patch' == PatchOver(input, now, ProductFields + OfferFields + MediaFields)
  {
    ghost var cols := ProductFields + OfferFields;
    patch' := PutSupplied(input, now, patch, cols, "product_videos", |input.productVideos| > 0, VStrings(input.productVideos));
    cols := cols + {"product_videos"};
    patch' := PutSupplied(input, now, patch', cols, "product_pictures", |input.productPictures| > 0, VStrings(input.productPictures));
    cols := cols + {"product_pictures"};
    patch' := PutSupplied(input, now, patch', cols, "sub_product_type", input.subProductType != "", VString(input.subProductType));
    cols := cols + {"sub_product_type"};
    assert cols == ProductFields + OfferFields + MediaFields;
  }

  /** The columns of the product itself among the main patch's columns. */
  const ProductFields: set<string> := {
    "product_name", "product_price", "product_thumb", "product_description", "product_quantity"}

  /** The first half of the main patch: name, price, thumbnail, description and quantity. */
  method BuildProductFields(input: ProductInput, now: Time) returns (patch: map<string, Value>)
    ensures patch == PatchOver(input, now, ProductFields)
  {
    patch := map[];
    ghost var cols: set<string> := {};
    patch := PutSupplied(input, now, patch, cols, "product_name", input.productName != "", VString(input.productName));
    cols := cols + {"product_name"};
    patch := PutSupplied(input, now, patch, cols, "product_price", input.productPrice > 0.0, VFloat(input.productPrice));
    cols := cols + {"product_price"};
    patch := PutSupplied(input, now, patch, cols, "product_thumb", input.productThumb != "", VString(input.productThumb));
    cols := cols + {"product_thumb"};
    var html := "";
    if input.productDescription != "" {
      html := RenderDescription(input.productDescription);
    }
    patch := PutSupplied(input, now, patch, cols, "product_description", input.productDescription != "", VString(html));
    cols := cols + {"product_description"};
    patch := PutSupplied(input, now, patch, cols, "product_quantity", input.productQuantity > 0, VInt(input.productQuantity));
    cols := cols + {"product_quantity"};
    assert cols == ProductFields;
  }

  /** One key of the main patch: set when the input supplies it. */
  method PutSupplied(input: ProductInput, now: Time, patch: map<string, Value>, ghost cols: set<string>, col: string, cond: bool, v: Value)
    returns (patch': map<string, Value>)
    requires patch == PatchOver(input, now, cols) && col in MainColumns
    requires cond == Supplies(input, col) && (cond ==> v == Supplied(input, now, col))
    ensures patch' == PatchOver(input, now, cols + {col})
  {
    PatchOverStep(input, now, cols, col, cols + {col});
    patch' := patch;
    if cond {
      patch' := patch'[col := v];
    }
  }

  /** CreateProduct of the service, written against the repository object. */
  method CreateProductWorkflow(repo: ProductRepository, input: ProductInput, caller: Option<string>, admin: bool, id: string, now: Time)
    returns (r: Result<ProductModel, Error>)
    modifies repo
    ensures (repo.State(), r) == CreateSpec(old(repo.State()), input, caller, admin, id, now)
  {
    if input.productName == "" || input.productPrice <= 0.0 {
      return Failure(InvalidInput);
    }
    if caller.None? {
      return Failure(IdentityError);
    }
    var userId := caller.value;
    if !admin {
      return Failure(NotAuthorizedToCreate);
    }
    var description := input.productDescription;
    if description != "" {
      description := RenderDescription(description);
    }
    var product := ProductModel(
      id, input.productName, input.productPrice, input.productDiscountPrice, input.productThumb,
      description, input.productQuantity, input.productType, input.subProductType,
      input.productVideos, input.productPictures, input.productStatus, 0, userId, true, false, now, now);
    var kind := ParseKind(input.productType);
    if kind.None? {
      return Failure(InvalidProductType);
    }
    var variant := BuildVariant(kind.value, id, userId, input.productAttributes);
    var err := repo.CreateVariant(variant);
    if err.Some? {
      return Failure(StoreError(err.value));
    }
    err := repo.CreateProduct(product);
    if err.Some? {
      return Failure(StoreError(err.value));
    }
    err := repo.InsertInventory(InventoryInput(id, userId, "", input.productQuantity));
    if err.Some? {
      return Failure(StoreError(err.value));
    }
    r := Success(product);
  }

  /** UpdateProduct of the service, written against the repository object. */
  method UpdateProductWorkflow(repo: ProductRepository, id: string, input: ProductInput, caller: Option<string>, now: Time)
    returns (err: Option<Error>)
    modifies repo
    ensures (repo.State(), err) == UpdateSpec(old(repo.State()), id, input, caller, now)
  {
    if caller.None? {
      return Some(IdentityError);
    }
    var found := repo.FindProduct(id);
    if found.Failure? {
      return Some(StoreError(found.error));
    }
    var product := found.value;
    if product.productShop != caller.value {
      return Some(Unauthorized);
    }
    var updateData := BuildMainPatch(input, now);
    var kind := ParseKind(product.productType);
    if kind.Some? {
      var attrs := BuildAttributePatch(kind.value, input.productAttributes);
      if |attrs| > 0 {
        var e := repo.UpdateProductByID(id, attrs);
        if e.Some? {
          return Some(StoreError(e.value));
        }
      }
    }
    MainPatchRule(input, now);
    var e := repo.UpdateProductByID(id, updateData);
    err := Lift(e);
  }

  /** The live catalog service. */
  class ProductService {
    const repo: ProductRepository

    constructor (repo: ProductRepository)
      ensures this.repo == repo
    {
      this.repo := repo;
    }

    method CreateProduct(input: ProductInput, caller: Option<string>, id: string, now: Time) returns (r: Result<ProductModel, Error>)
      modifies repo
      ensures (repo.State(), r) == CreateSpec(old(repo.State()), input, caller, true, id, now)
    {
      r := CreateProductWorkflow(repo, input, caller, true, id, now);
    }

    method UpdateProduct(id: string, input: ProductInput, caller: Option<string>, now: Time) returns (err: Option<Error>)
      modifies repo
      ensures (repo.State(), err) == UpdateSpec(old(repo.State()), id, input, caller, now)
    {
      err := UpdateProductWorkflow(repo, id, input, caller, now);
    }

    method PublishProduct(id: string, shop: string) returns (err: Option<Error>)
      modifies repo
      ensures (repo.State(), err) == PublishSpec(old(repo.State()), id, shop, true)
    {
      var e := repo.PublishProductByShop(id, shop);
      err := Lift(e);
    }

    method UnPublishProduct(id: string, shop: string) returns (err: Option<Error>)
      modifies repo
      ensures (repo.State(), err) == PublishSpec(old(repo.State()), id, shop, false)
    {
      var e := repo.UnPublishProductByShop(id, shop);
      err := Lift(e);
    }

    method FindProduct(id: string) returns (r: Result<ProductModel, Error>)
      ensures r.Success? <==> StoreModel.FindProduct(repo.State(), id).Success?
      ensures r.Success? ==> r.value == StoreModel.FindProduct(repo.State(), id).value
      ensures r.Failure? ==> r.error == StoreError(StoreModel.FindProduct(repo.State(), id).error)
    {
      var found := repo.FindProduct(id);
      r := match found
        case Success(p) => Success(p)
        case Failure(e) => Failure(StoreError(e));
    }

    method FindAllProducts(sql: Sql, params: ProductQueryParams) returns (p: ProductQueryParams, issued: seq<Query>, r: Result<ProductResponse, DbError>)
      ensures Listing(p, issued, r) == Queries.FindAllProducts(repo.Contents(), sql, params)
    {
      p, issued, r := repo.FindAllProducts(sql, params);
    }

    method FindAllDraftsForShop(sql: Sql, shop: string, page: int, limit: int) returns (issued: seq<Query>, r: Result<seq<ProductModel>, DbError>)
      ensures RowsListing(issued, r) == ShopPage(repo.Contents(), sql, true, shop, page, limit)
    {
      var pg, lim := page, limit;
      if pg < 1 {
        pg := 1;
      }
      if lim < 1 {
        lim := 10;
      }
      var offset := (pg - 1) * lim;
      issued, r := repo.FindAllDraftsForShop(sql, shop, lim, offset);
    }

    method FindAllPublishForShop(sql: Sql, shop: string, page: int, limit: int) returns (issued: seq<Query>, r: Result<seq<ProductModel>, DbError>)
      ensures RowsListing(issued, r) == ShopPage(repo.Contents(), sql, false, shop, page, limit)
    {
      var pg, lim := page, limit;
      if pg < 1 {
        pg := 1;
      }
      if lim < 1 {
        lim := 10;
      }
      var offset := (pg - 1) * lim;
      issued, r := repo.FindAllPublishForShop(sql, shop, lim, offset);
    }

    method GetProductsByDiscount(sql: Sql, params: ProductQueryParams) returns (p: ProductQueryParams, issued: seq<Query>, r: Result<ProductResponse, DbError>)
      ensures Listing(p, issued, r) == Queries.FindProductsByDiscount(repo.Contents(), sql, params)
    {
      p, issued, r := repo.FindProductsByDiscount(sql, params);
    }

    method GetProductsBySelled(sql: Sql, params: ProductQueryParams) returns (p: ProductQueryParams, issued: seq<Query>, r: Result<ProductResponse, DbError>)
      ensures Listing(p, issued, r) == Queries.FindProductsBySelled(repo.Contents(), sql, params)
    {
      p, issued, r := repo.FindProductsBySelled(sql, params);
    }

    method SearchProducts(sql: Sql, keyword: string) returns (issued: seq<Query>, r: Result<seq<ProductModel>, DbError>)
      ensures RowsListing(issued, r) == Queries.SearchProducts(repo.Contents(), sql, keyword)
    {
      issued, r := repo.SearchProducts(sql, keyword);
    }
  }
}
