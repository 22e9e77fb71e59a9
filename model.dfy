/**
 * The catalog's records (internal/model/product.go): the common product, the three
 * type-specific variant records, the create/update input with its untyped attribute
 * bag, the inventory input, the listing query and the listing response.
 */
module Model {

  /** An instant as an opaque number; 0 is Go's zero time. */
  type Time = int

  /** A Go `interface{}` value as it can sit in an attribute bag or an update map. */
  datatype Value =
    | VFloat(f: real)             // float64 (every JSON number decodes to this)
    | VInt(i: int)                // int
    | VString(s: string)
    | VBool(b: bool)
    | VStrings(items: seq<string>) // []string
    | VTime(t: Time)              // time.Time
    | VNull

  /** The closed set of product-type tags. */
  datatype ProductKind = Mushroom | Vegetable | Bonsai

  const DefaultIsDraft := true
  const DefaultIsPublished := false

  datatype ProductModel = ProductModel(
    id: string,
    productName: string,
    productPrice: real,
    productDiscountPrice: real,
    productThumb: string,
    productDescription: string,
    productQuantity: int,
    productType: string,
    subProductType: string,
    productVideos: seq<string>,
    productPictures: seq<string>,
    productStatus: string,
    productSelled: int,
    productShop: string,
    isDraft: bool,
    isPublished: bool,
    createdAt: Time,
    updatedAt: Time)

  /**
   * The type-specific side records. Each carries the product's id as its key and the
   * owning shop; mushrooms and vegetables have the same fields.
   */
  datatype VariantModel =
    | MushroomModel(id: string, productShop: string, weight: real, origin: string, freshness: string, packageType: string)
    | VegetableModel(id: string, productShop: string, weight: real, origin: string, freshness: string, packageType: string)
    | BonsaiModel(id: string, productShop: string, age: int, height: int, style: string, species: string, potType: string)

  function KindOf(v: VariantModel): ProductKind {
    match v
    case MushroomModel(_, _, _, _, _, _) => Mushroom
    case VegetableModel(_, _, _, _, _, _) => Vegetable
    case BonsaiModel(_, _, _, _, _, _, _) => Bonsai
  }

  /** The record a variant starts from: only the key and the owning shop are set. */
  function ZeroVariant(kind: ProductKind, id: string, shop: string): (v: VariantModel)
    ensures v.id == id && v.productShop == shop && KindOf(v) == kind
  {
    match kind
    case Mushroom => MushroomModel(id, shop, 0.0, "", "", "")
    case Vegetable => VegetableModel(id, shop, 0.0, "", "", "")
    case Bonsai => BonsaiModel(id, shop, 0, 0, "", "", "")
  }

  datatype ProductInput = ProductInput(
    productName: string,
    productPrice: real,
    productDiscountPrice: real,
    productThumb: string,
    productDescription: string,
    productQuantity: int,
    productType: string,
    subProductType: string,
    productVideos: seq<string>,
    productPictures: seq<string>,
    productStatus: string,
    productAttributes: map<string, Value>)

  datatype InventoryInput = InventoryInput(productId: string, shopId: string, location: string, stock: int)

  datatype ProductQueryParams = ProductQueryParams(page: int, limit: int, productType: string, keyword: string)

  datatype ProductResponse = ProductResponse(currentPage: int, totalPages: int, total: int, data: seq<ProductModel>)

  /** Which record a table holds. */
  datatype RecordKind = ProductRecord | VariantRecord(kind: ProductKind)

  /** The gorm table name of each record kind (the `TableName` methods). */
  function TableName(r: RecordKind): string {
    match r
    case ProductRecord => "products"
    case VariantRecord(Mushroom) => "mushrooms"
    case VariantRecord(Vegetable) => "vegetables"
    case VariantRecord(Bonsai) => "bonsais"
  }

  /** No two record kinds share a table. */
  lemma TableNameInjective(a: RecordKind, b: RecordKind)
    ensures TableName(a) == TableName(b) ==> a == b
  {
  }
}
