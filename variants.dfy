/**
 * Variant dispatch: the product-type tag picks one of three variant records, and the
 * untyped attribute bag of the input fills that record's fields. A field is taken from
 * the bag only when the bag holds its key with exactly the kind the service asserts:
 * a float for `weight`, an int for the bonsai's `age` and `height`, a string otherwise.
 */
module Variants {
  import opened Wrappers
  import opened Model

  /** The tag a product kind is written as. */
  function KindTag(kind: ProductKind): string {
    match kind
    case Mushroom => "Mushroom"
    case Vegetable => "Vegetable"
    case Bonsai => "Bonsai"
  }

  /** The product-type switch: one of the three tags, or nothing for any other string. */
  function ParseKind(tag: string): (r: Option<ProductKind>)
    ensures r.Some? <==> tag == "Mushroom" || tag == "Vegetable" || tag == "Bonsai"
    ensures r.Some? ==> KindTag(r.value) == tag
  {
    if tag == "Mushroom" then Some(Mushroom)
    else if tag == "Vegetable" then Some(Vegetable)
    else if tag == "Bonsai" then Some(Bonsai)
    else None
  }

  lemma ParseKindTag(kind: ProductKind)
    ensures ParseKind(KindTag(kind)) == Some(kind)
  {
  }

  /** The attribute keys each kind reads from the bag. */
  function AttrKeys(kind: ProductKind): set<string> {
    match kind
    case Mushroom => {"weight", "origin", "freshness", "package_type"}
    case Vegetable => {"weight", "origin", "freshness", "package_type"}
    case Bonsai => {"age", "height", "style", "species", "pot_type"}
  }

  /** The type assertion the service makes on the value of `key`. */
  predicate Accepts(key: string, v: Value) {
    if key == "weight" then v.VFloat?
    else if key == "age" || key == "height" then v.VInt?
    else v.VString?
  }

  /** The zero value a field keeps when the bag does not supply it. */
  function ZeroValue(key: string): (v: Value)
    ensures Accepts(key, v)
  {
    if key == "weight" then VFloat(0.0)
    else if key == "age" || key == "height" then VInt(0)
    else VString("")
  }

  /** The field of a variant record named by an attribute key, as a bag value. */
  function FieldValue(v: VariantModel, key: string): Value {
    match v
    case BonsaiModel(_, _, age, height, style, species, potType) =>
      if key == "age" then VInt(age)
      else if key == "height" then VInt(height)
      else if key == "style" then VString(style)
      else if key == "species" then VString(species)
      else if key == "pot_type" then VString(potType)
      else VNull
    case _ =>
      if key == "weight" then VFloat(v.weight)
      else if key == "origin" then VString(v.origin)
      else if key == "freshness" then VString(v.freshness)
      else if key == "package_type" then VString(v.packageType)
      else VNull
  }

  function FloatAttr(bag: map<string, Value>, key: string): real {
    if key in bag && bag[key].VFloat? then bag[key].f else 0.0
  }

  function IntAttr(bag: map<string, Value>, key: string): int {
    if key in bag && bag[key].VInt? then bag[key].i else 0
  }

  function StringAttr(bag: map<string, Value>, key: string): string {
    if key in bag && bag[key].VString? then bag[key].s else ""
  }

  /** The variant record the create path builds from the bag. */
  function ExtractVariant(kind: ProductKind, id: string, shop: string, bag: map<string, Value>): (v: VariantModel)
    ensures v.id == id && v.productShop == shop && KindOf(v) == kind
  {
    match kind
    case Mushroom =>
      MushroomModel(id, shop, FloatAttr(bag, "weight"), StringAttr(bag, "origin"),
                    StringAttr(bag, "freshness"), StringAttr(bag, "package_type"))
    case Vegetable =>
      VegetableModel(id, shop, FloatAttr(bag, "weight"), StringAttr(bag, "origin"),
                     StringAttr(bag, "freshness"), StringAttr(bag, "package_type"))
    case Bonsai =>
      BonsaiModel(id, shop, IntAttr(bag, "age"), IntAttr(bag, "height"), StringAttr(bag, "style"),
                  StringAttr(bag, "species"), StringAttr(bag, "pot_type"))
  }

  /** The bag's entries under `keys` whose values pass the assertion. */
  function Restrict(bag: map<string, Value>, keys: set<string>): (patch: map<string, Value>)
    ensures forall key :: key in patch <==> key in bag && key in keys && Accepts(key, bag[key])
    ensures forall key :: key in patch ==> patch[key] == bag[key]
  {
    map key | key in bag && key in keys && Accepts(key, bag[key]) :: bag[key]
  }

  /** The attribute map the update path builds: the kind's keys whose values pass the assertion. */
  function AttributePatch(kind: ProductKind, bag: map<string, Value>): map<string, Value> {
    Restrict(bag, AttrKeys(kind))
  }

  /** One step of the update path's map building. */
  function Put(patch: map<string, Value>, bag: map<string, Value>, key: string): map<string, Value> {
    if key in bag && Accepts(key, bag[key]) then patch[key := bag[key]] else patch
  }

  lemma RestrictStep(bag: map<string, Value>, keys: set<string>, key: string, keys': set<string>)
    requires keys' == keys + {key}
    ensures Restrict(bag, keys') == Put(Restrict(bag, keys), bag, key)
  {
  }

  /**
   * Extraction is permissive: each field of the record is the bag's value when the
   * bag holds that key with the asserted kind, and the zero value otherwise. The
   * same acceptance rule picks the update's attribute patch.
   */
  lemma ExtractFieldRule(kind: ProductKind, id: string, shop: string, bag: map<string, Value>, key: string)
    requires key in AttrKeys(kind)
    ensures var patch := AttributePatch(kind, bag);
      FieldValue(ExtractVariant(kind, id, shop, bag), key) == if key in patch then patch[key] else ZeroValue(key)
  {
  }

  /** Keys outside the kind's own, and values of another kind, leave no trace on the record. */
  lemma ExtractDependsOnlyOnPatch(kind: ProductKind, id: string, shop: string, bag1: map<string, Value>, bag2: map<string, Value>)
    requires AttributePatch(kind, bag1) == AttributePatch(kind, bag2)
    ensures ExtractVariant(kind, id, shop, bag1) == ExtractVariant(kind, id, shop, bag2)
  {
    var p := AttributePatch(kind, bag1);
    forall key | key in AttrKeys(kind)
      ensures FieldValue(ExtractVariant(kind, id, shop, bag1), key) == FieldValue(ExtractVariant(kind, id, shop, bag2), key)
    {
      ExtractFieldRule(kind, id, shop, bag1, key);
      ExtractFieldRule(kind, id, shop, bag2, key);
    }
    match kind
    case Mushroom =>
      assert FieldValue(ExtractVariant(kind, id, shop, bag1), "weight") == FieldValue(ExtractVariant(kind, id, shop, bag2), "weight");
    case Vegetable =>
      assert FieldValue(ExtractVariant(kind, id, shop, bag1), "weight") == FieldValue(ExtractVariant(kind, id, shop, bag2), "weight");
    case Bonsai =>
      assert FieldValue(ExtractVariant(kind, id, shop, bag1), "age") == FieldValue(ExtractVariant(kind, id, shop, bag2), "age");
      assert FieldValue(ExtractVariant(kind, id, shop, bag1), "height") == FieldValue(ExtractVariant(kind, id, shop, bag2), "height");
  }

  /** With nothing usable in the bag, the record is the bare key-and-shop record. */
  lemma EmptyPatchGivesZero(kind: ProductKind, id: string, shop: string, bag: map<string, Value>)
    requires AttributePatch(kind, bag) == map[]
    ensures ExtractVariant(kind, id, shop, bag) == ZeroVariant(kind, id, shop)
  {
    ExtractDependsOnlyOnPatch(kind, id, shop, bag, map[]);
  }

  /**
   * A bag decoded from JSON holds numbers as floats only, so a bonsai's age and
   * height are never taken from it: they stay 0 and never enter an update patch.
   */
  lemma JsonNumbersLeaveBonsaiSizesZero(id: string, shop: string, bag: map<string, Value>)
    requires forall key :: key in bag ==> !bag[key].VInt?
    ensures ExtractVariant(Bonsai, id, shop, bag).age == 0
    ensures ExtractVariant(Bonsai, id, shop, bag).height == 0
    ensures "age" !in AttributePatch(Bonsai, bag) && "height" !in AttributePatch(Bonsai, bag)
  {
  }

  /** Mushrooms and vegetables read the same keys the same way. */
  lemma ProduceShapesAgree(id: string, shop: string, bag: map<string, Value>)
    ensures var m, g := ExtractVariant(Mushroom, id, shop, bag), ExtractVariant(Vegetable, id, shop, bag);
      m.weight == g.weight && m.origin == g.origin && m.freshness == g.freshness && m.packageType == g.packageType
    ensures AttributePatch(Mushroom, bag) == AttributePatch(Vegetable, bag)
  {
  }

  /** The create path: start from the bare record and set each field the bag supplies. */
  method BuildVariant(kind: ProductKind, id: string, shop: string, bag: map<string, Value>) returns (v: VariantModel)
    ensures v == ExtractVariant(kind, id, shop, bag)
  {
    match kind {
      case Bonsai =>
        var age, height, style, species, potType := 0, 0, "", "", "";
        if "age" in bag && bag["age"].VInt? { age := bag["age"].i; }
        if "height" in bag && bag["height"].VInt? { height := bag["height"].i; }
        if "style" in bag && bag["style"].VString? { style := bag["style"].s; }
        if "species" in bag && bag["species"].VString? { species := bag["species"].s; }
        if "pot_type" in bag && bag["pot_type"].VString? { potType := bag["pot_type"].s; }
        v := BonsaiModel(id, shop, age, height, style, species, potType);
      case _ =>
        var weight, origin, freshness, packageType := 0.0, "", "", "";
        if "weight" in bag && bag["weight"].VFloat? { weight := bag["weight"].f; }
        if "origin" in bag && bag["origin"].VString? { origin := bag["origin"].s; }
        if "freshness" in bag && bag["freshness"].VString? { freshness := bag["freshness"].s; }
        if "package_type" in bag && bag["package_type"].VString? { packageType := bag["package_type"].s; }
        v := if kind == Mushroom then MushroomModel(id, shop, weight, origin, freshness, packageType)
             else VegetableModel(id, shop, weight, origin, freshness, packageType);
    }
  }

  /** Copy `key` into the patch when the bag holds it with the asserted kind. */
  method PutIfAccepted(patch: map<string, Value>, bag: map<string, Value>, key: string) returns (patch': map<string, Value>)
    ensures patch' == Put(patch, bag, key)
  {
    patch' := patch;
    if key in bag && Accepts(key, bag[key]) {
      patch' := patch'[key := bag[key]];
    }
  }

  /** The update path: fill the attribute map key by key. */
  method BuildAttributePatch(kind: ProductKind, bag: map<string, Value>) returns (patch: map<string, Value>)
    ensures patch == AttributePatch(kind, bag)
  {
    patch := map[];
    assert patch == Restrict(bag, {});
    match kind {
      case Bonsai =>
        patch := PutIfAccepted(patch, bag, "age");
        RestrictStep(bag, {}, "age", {"age"});
        patch := PutIfAccepted(patch, bag, "height");
        RestrictStep(bag, {"age"}, "height", {"age", "height"});
        patch := PutIfAccepted(patch, bag, "style");
        RestrictStep(bag, {"age", "height"}, "style", {"age", "height", "style"});
        patch := PutIfAccepted(patch, bag, "species");
        RestrictStep(bag, {"age", "height", "style"}, "species", {"age", "height", "style", "species"});
        patch := PutIfAccepted(patch, bag, "pot_type");
        RestrictStep(bag, {"age", "height", "style", "species"}, "pot_type", AttrKeys(kind));
      case _ =>
        patch := PutIfAccepted(patch, bag, "weight");
        RestrictStep(bag, {}, "weight", {"weight"});
        patch := PutIfAccepted(patch, bag, "origin");
        RestrictStep(bag, {"weight"}, "origin", {"weight", "origin"});
        patch := PutIfAccepted(patch, bag, "freshness");
        RestrictStep(bag, {"weight", "origin"}, "freshness", {"weight", "origin", "freshness"});
        patch := PutIfAccepted(patch, bag, "package_type");
        RestrictStep(bag, {"weight", "origin", "freshness"}, "package_type", AttrKeys(kind));
    }
  }
}
