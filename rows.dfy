/**
 * The database side of the repository: the rows the generated queries write and read,
 * the nullable-column mapping applied on insert (a value is stored as null exactly when
 * it is empty or not positive), the zero-defaulting read back, Go's `int32(...)` casts,
 * and the column-by-column effect of a map-based update on a product row.
 */
module Rows {
  import opened Wrappers
  import opened Errors
  import opened Model

  const TwoTo31: int := 0x8000_0000
  const TwoTo32: int := 0x1_0000_0000

  /** Go's `int32(x)`: keep the low 32 bits and read them as two's complement. */
  function Int32(x: int): (r: int)
    ensures -TwoTo31 <= r < TwoTo31
    ensures (x - r) % TwoTo32 == 0
  {
    var m := x % TwoTo32;
    if m < TwoTo31 then m else m - TwoTo32
  }

  /** A value that already fits passes the cast unchanged. */
  lemma Int32Fits(x: int)
    requires -TwoTo31 <= x < TwoTo31
    ensures Int32(x) == x
  {
    if x < 0 {
      assert (x + TwoTo32) % TwoTo32 == x + TwoTo32;
    }
  }

  /**
   * The cast is periodic in 2^32 and is the identity exactly on the int32 range; so
   * one past the largest int32 wraps to the smallest.
   */
  lemma Int32Wraps(x: int)
    ensures Int32(x + TwoTo32) == Int32(x)
    ensures Int32(x) == x <==> -TwoTo31 <= x < TwoTo31
    ensures Int32(TwoTo31) == -TwoTo31
  {
    assert (x + TwoTo32) % TwoTo32 == x % TwoTo32;
    if -TwoTo31 <= x < TwoTo31 {
      Int32Fits(x);
    }
  }

  /** A products row as the generated queries see it; nullable columns are options. */
  datatype DbProduct = DbProduct(
    id: string,
    productName: string,
    productPrice: real,
    productDiscountedPrice: Option<real>,
    productThumb: Option<string>,
    productDescription: Option<string>,
    productQuantity: int,
    productType: string,
    subProductType: Option<string>,
    productVideos: Option<seq<string>>,
    productPictures: Option<seq<string>>,
    productStatus: string,
    productSelled: int,
    productShop: string,
    isDraft: bool,
    isPublished: bool,
    createdAt: Option<Time>,
    updatedAt: Option<Time>)

  /** A row of one of the three variant tables. */
  datatype DbVariant =
    | DbMushroom(id: string, productShop: string, weight: Option<real>, origin: Option<string>,
                 freshness: Option<string>, packageType: Option<string>)
    | DbVegetable(id: string, productShop: string, weight: Option<real>, origin: Option<string>,
                  freshness: Option<string>, packageType: Option<string>)
    | DbBonsai(id: string, productShop: string, age: Option<int>, height: Option<int>,
               style: Option<string>, species: Option<string>, potType: Option<string>)

  datatype DbInventory = DbInventory(productId: string, shopId: string, location: Option<string>, stock: int)

  /** A string column that is null when the string is empty. */
  function NullString(s: string): Option<string> {
    if s == "" then None else Some(s)
  }

  /** A decimal column that is null unless the value is positive. */
  function NullPositive(x: real): Option<real> {
    if x > 0.0 then Some(x) else None
  }

  /** An int32 column that is null unless the value is positive; the value goes through the cast. */
  function NullPositiveInt32(x: int): Option<int> {
    if x > 0 then Some(Int32(x)) else None
  }

  /** A JSON list column: no bytes at all for an empty list, the encoded list otherwise. */
  function JsonList(xs: seq<string>): Option<seq<string>> {
    if xs == [] then None else Some(xs)
  }

  /** The insert parameters built from a product. The insert sends no sold count and no timestamps. */
  function ToDbProduct(p: ProductModel): DbProduct {
    DbProduct(
      p.id, p.productName, p.productPrice, NullPositive(p.productDiscountPrice),
      NullString(p.productThumb), NullString(p.productDescription), Int32(p.productQuantity),
      p.productType, NullString(p.subProductType), JsonList(p.productVideos), JsonList(p.productPictures),
      p.productStatus, 0, p.productShop, p.isDraft, p.isPublished, None, None)
  }

  /** Reading a row back: every null column becomes its field's zero value. */
  function FromDbProduct(row: DbProduct): ProductModel {
    ProductModel(
      row.id, row.productName, row.productPrice, row.productDiscountedPrice.GetOr(0.0),
      row.productThumb.GetOr(""), row.productDescription.GetOr(""), row.productQuantity,
      row.productType, row.subProductType.GetOr(""), row.productVideos.GetOr([]),
      row.productPictures.GetOr([]), row.productStatus, row.productSelled, row.productShop,
      row.isDraft, row.isPublished, row.createdAt.GetOr(0), row.updatedAt.GetOr(0))
  }

  /** Exactly which product columns an insert leaves null. */
  lemma ProductNullRule(p: ProductModel)
    ensures var row := ToDbProduct(p);
      && (row.productDiscountedPrice.None? <==> p.productDiscountPrice <= 0.0)
      && (row.productThumb.None? <==> p.productThumb == "")
      && (row.productDescription.None? <==> p.productDescription == "")
      && (row.subProductType.None? <==> p.subProductType == "")
      && (row.productVideos.None? <==> p.productVideos == [])
      && (row.productPictures.None? <==> p.productPictures == [])
      && row.productQuantity == Int32(p.productQuantity)
  {
  }

  /**
   * Writing a product and reading it back returns it with the discount clamped at 0,
   * the quantity through the int32 cast, no sales and zero timestamps; every text and
   * list field survives unchanged.
   */
  lemma WriteReadRoundTrip(p: ProductModel)
    ensures FromDbProduct(ToDbProduct(p)) == p.(
      productDiscountPrice := if p.productDiscountPrice > 0.0 then p.productDiscountPrice else 0.0,
      productQuantity := Int32(p.productQuantity),
      productSelled := 0,
      createdAt := 0,
      updatedAt := 0)
  {
  }

  /** For a product as the service creates it (in-range quantity, no sales yet), only the timestamps are lost. */
  lemma WriteReadExact(p: ProductModel)
    requires p.productDiscountPrice >= 0.0 && -TwoTo31 <= p.productQuantity < TwoTo31 && p.productSelled == 0
    ensures FromDbProduct(ToDbProduct(p)) == p.(createdAt := 0, updatedAt := 0)
  {
    WriteReadRoundTrip(p);
    Int32Fits(p.productQuantity);
  }

  /** The insert parameters built from a variant record. */
  function ToDbVariant(v: VariantModel): DbVariant {
    match v
    case MushroomModel(id, shop, weight, origin, freshness, packageType) =>
      DbMushroom(id, shop, NullPositive(weight), NullString(origin), NullString(freshness), NullString(packageType))
    case VegetableModel(id, shop, weight, origin, freshness, packageType) =>
      DbVegetable(id, shop, NullPositive(weight), NullString(origin), NullString(freshness), NullString(packageType))
    case BonsaiModel(id, shop, age, height, style, species, potType) =>
      DbBonsai(id, shop, NullPositiveInt32(age), NullPositiveInt32(height), NullString(style),
               NullString(species), NullString(potType))
  }

  /** Exactly which variant columns an insert leaves null, and what the others hold. */
  lemma VariantNullRule(v: VariantModel)
    ensures var row := ToDbVariant(v);
      && row.id == v.id && row.productShop == v.productShop
      && (row.DbMushroom? <==> v.MushroomModel?) && (row.DbVegetable? <==> v.VegetableModel?)
      && (!v.BonsaiModel? ==>
            && (row.weight.None? <==> v.weight <= 0.0) && (row.weight.Some? ==> row.weight.value == v.weight)
            && (row.origin.None? <==> v.origin == "")
            && (row.freshness.None? <==> v.freshness == "") && (row.packageType.None? <==> v.packageType == ""))
      && (v.BonsaiModel? ==>
            && (row.age.None? <==> v.age <= 0) && (row.age.Some? ==> row.age.value == Int32(v.age))
            && (row.height.None? <==> v.height <= 0) && (row.height.Some? ==> row.height.value == Int32(v.height))
            && (row.style.None? <==> v.style == "") && (row.species.None? <==> v.species == "")
            && (row.potType.None? <==> v.potType == ""))
  {
  }

  /** The insert parameters built from an inventory input. */
  function ToDbInventory(inv: InventoryInput): DbInventory {
    DbInventory(inv.productId, inv.shopId, NullString(inv.location), Int32(inv.stock))
  }

  lemma InventoryNullRule(inv: InventoryInput)
    ensures var row := ToDbInventory(inv);
      && row.productId == inv.productId && row.shopId == inv.shopId
      && (row.location.None? <==> inv.location == "")
      && row.stock == Int32(inv.stock)
  {
  }

  /** The columns of the products table. */
  const ProductColumns: set<string> := {
    "id", "product_name", "product_price", "product_discounted_price", "product_thumb",
    "product_description", "product_quantity", "product_type", "sub_product_type",
    "product_videos", "product_pictures", "product_status", "product_selled", "product_shop",
    "is_draft", "is_published", "created_at", "updated_at"}

  function OptString(o: Option<string>): Value {
    match o
    case Some(s) => VString(s)
    case None => VNull
  }

  function OptReal(o: Option<real>): Value {
    match o
    case Some(x) => VFloat(x)
    case None => VNull
  }

  function OptStrings(o: Option<seq<string>>): Value {
    match o
    case Some(xs) => VStrings(xs)
    case None => VNull
  }

  function OptTime(o: Option<Time>): Value {
    match o
    case Some(t) => VTime(t)
    case None => VNull
  }

  /** A column of a products row as an update value. */
  function Column(row: DbProduct, col: string): Value {
    if col == "id" then VString(row.id)
    else if col == "product_name" then VString(row.productName)
    else if col == "product_price" then VFloat(row.productPrice)
    else if col == "product_discounted_price" then OptReal(row.productDiscountedPrice)
    else if col == "product_thumb" then OptString(row.productThumb)
    else if col == "product_description" then OptString(row.productDescription)
    else if col == "product_quantity" then VInt(row.productQuantity)
    else if col == "product_type" then VString(row.productType)
    else if col == "sub_product_type" then OptString(row.subProductType)
    else if col == "product_videos" then OptStrings(row.productVideos)
    else if col == "product_pictures" then OptStrings(row.productPictures)
    else if col == "product_status" then VString(row.productStatus)
    else if col == "product_selled" then VInt(row.productSelled)
    else if col == "product_shop" then VString(row.productShop)
    else if col == "is_draft" then VBool(row.isDraft)
    else if col == "is_published" then VBool(row.isPublished)
    else if col == "created_at" then OptTime(row.createdAt)
    else if col == "updated_at" then OptTime(row.updatedAt)
    else VNull
  }

  predicate IsInt32(v: Value) {
    v.VInt? && -TwoTo31 <= v.i < TwoTo31
  }

  /** Whether a column will store a value of this kind. */
  predicate ColumnAccepts(col: string, v: Value) {
    if col in {"id", "product_name", "product_type", "product_status", "product_shop"} then v.VString?
    else if col in {"product_thumb", "product_description", "sub_product_type"} then v.VString? || v.VNull?
    else if col == "product_price" then v.VFloat?
    else if col == "product_discounted_price" then v.VFloat? || v.VNull?
    else if col in {"product_quantity", "product_selled"} then IsInt32(v)
    else if col in {"product_videos", "product_pictures"} then v.VStrings? || v.VNull?
    else if col in {"is_draft", "is_published"} then v.VBool?
    else if col in {"created_at", "updated_at"} then v.VTime? || v.VNull?
    else false
  }

  /** Why the database refuses an update map, if it does. */
  function PatchFault(patch: map<string, Value>): (r: Option<DbError>)
    ensures r.None? <==> forall col :: col in patch ==> col in ProductColumns && ColumnAccepts(col, patch[col])
    ensures r == Some(UnknownColumn) <==> exists col :: col in patch && col !in ProductColumns
  {
    if exists col :: col in patch && col !in ProductColumns then Some(UnknownColumn)
    else if exists col :: col in patch && !ColumnAccepts(col, patch[col]) then Some(BadValue)
    else None
  }

  function PatchString(patch: map<string, Value>, col: string, prev: string): string {
    if col in patch && patch[col].VString? then patch[col].s else prev
  }

  function PatchNullString(patch: map<string, Value>, col: string, prev: Option<string>): Option<string> {
    if col in patch then (if patch[col].VString? then Some(patch[col].s) else None) else prev
  }

  function PatchReal(patch: map<string, Value>, col: string, prev: real): real {
    if col in patch && patch[col].VFloat? then patch[col].f else prev
  }

  function PatchNullReal(patch: map<string, Value>, col: string, prev: Option<real>): Option<real> {
    if col in patch then (if patch[col].VFloat? then Some(patch[col].f) else None) else prev
  }

  function PatchInt(patch: map<string, Value>, col: string, prev: int): int {
    if col in patch && patch[col].VInt? then patch[col].i else prev
  }

  function PatchNullStrings(patch: map<string, Value>, col: string, prev: Option<seq<string>>): Option<seq<string>> {
    if col in patch then (if patch[col].VStrings? then Some(patch[col].items) else None) else prev
  }

  function PatchBool(patch: map<string, Value>, col: string, prev: bool): bool {
    if col in patch && patch[col].VBool? then patch[col].b else prev
  }

  function PatchNullTime(patch: map<string, Value>, col: string, prev: Option<Time>): Option<Time> {
    if col in patch then (if patch[col].VTime? then Some(patch[col].t) else None) else prev
  }

  /** The row after `UPDATE products SET col = value, ...` for every entry of an accepted map. */
  function ApplyPatch(row: DbProduct, patch: map<string, Value>): DbProduct
    requires PatchFault(patch).None?
  {
    DbProduct(
      PatchString(patch, "id", row.id),
      PatchString(patch, "product_name", row.productName),
      PatchReal(patch, "product_price", row.productPrice),
      PatchNullReal(patch, "product_discounted_price", row.productDiscountedPrice),
      PatchNullString(patch, "product_thumb", row.productThumb),
      PatchNullString(patch, "product_description", row.productDescription),
      PatchInt(patch, "product_quantity", row.productQuantity),
      PatchString(patch, "product_type", row.productType),
      PatchNullString(patch, "sub_product_type", row.subProductType),
      PatchNullStrings(patch, "product_videos", row.productVideos),
      PatchNullStrings(patch, "product_pictures", row.productPictures),
      PatchString(patch, "product_status", row.productStatus),
      PatchInt(patch, "product_selled", row.productSelled),
      PatchString(patch, "product_shop", row.productShop),
      PatchBool(patch, "is_draft", row.isDraft),
      PatchBool(patch, "is_published", row.isPublished),
      PatchNullTime(patch, "created_at", row.createdAt),
      PatchNullTime(patch, "updated_at", row.updatedAt))
  }

  /**
   * An accepted update sets exactly the columns it names to the values it gives and
   * leaves every other column as it was.
   */
  lemma ApplyPatchRule(row: DbProduct, patch: map<string, Value>, col: string)
    requires PatchFault(patch).None? && col in ProductColumns
    ensures Column(ApplyPatch(row, patch), col) == if col in patch then patch[col] else Column(row, col)
  {
    if col in patch {
      assert ColumnAccepts(col, patch[col]);
    }
  }
}
