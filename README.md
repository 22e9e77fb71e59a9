# Catalog core of the marketplace backend, modelled in Dafny

The backend sells three kinds of produce: mushrooms, vegetables and bonsai. It keeps a
product row for each item for sale, plus one row in the table of that product's kind.
Those variant tables hold the attributes that belong to the kind only. A shop
creates a product as a draft, publishes and withdraws it, and edits it. Buyers list
products by type, by name or by all published products, and page
through the results. Listings ranked by discount or by sales ignore the filters.

The model follows the code's layers:

- `wrappers.dfy`, `errors.dfy`: `Option`, `Result` and the service's error values.
- `model.dfy`: the records of `internal/model/product.go`, plus the gorm table names.
- `description.dfy`: the description normaliser, applied on both create and update.
  It splits on newlines, trims each line, drops the blank ones and wraps the rest in
  `<p>…</p>`. There is a specification (`NormalizeDescription`), the loop as the
  code writes it (`RenderDescription`), and the properties of trimming, splitting and
  rendering.
- `variants.dfy`: the type tag and the three kinds; how the attribute map fills a
  variant record on create; and the type-checked attribute patch built on update.
- `rows.dfy`: the row shapes of the generated queries. The rules by
  which empty strings and non-positive numbers become NULL. The 32-bit casts. How a
  product reads back, and what a gorm map update does to a products row.
- `store_model.dfy`: the database as a value: products, the three variant tables,
  the inventory rows, a log of every write as issued, and the tables that cannot be
  reached. Each repository write is a transition, and `Valid` is the store invariant
  (keys match ids, exactly one of draft and published holds, and every product has a
  known type and a variant row).
- `queries.dfy`: paging defaults, offsets, total pages, the search pattern, and the
  choice of query for each listing.
- `repo.dfy`: the repository as a class whose fields are the tables. Each method's
  effect is the matching store transition or listing function.
- `service.dfy`: the live catalog service. `CreateSpec` and `UpdateSpec` give the
  outcome of create and update on the store. The workflows run step by step against
  the repository object and are proved to have exactly that outcome, and the
  lemmas state what create and update promise.
  A database error reaches the live service's caller as `StoreError(cause)`, which carries
  the repository's error unchanged; Go returns the same error value without wrapping it.
- `legacy_service.dfy`: the older duplicate of the service. It runs the same
  workflows, with its own error wording and a role check that always passes.

The SQL behind the generated queries is not part of the code base. So every listing
takes an `Sql` record: the answer each count or row query gives on the current tables.
The model proves which queries are issued, with which arguments, and what is made of
the answers. The caller's identity, the fresh product id and the clock reading are
parameters.

## Model

| member | source | states |
|---|---|---|
| Model.ZeroVariant | internal/model/product.go:33-71 | a variant record starts with only its id and owning shop set, and its kind is the one asked for |
| Model.TableNameInjective | internal/model/product.go:28-30 | the product and the three variant records map to four different tables |
| Description.TrimSpaceIs | internal/service/impl/product.service.impl.go:48 | trimming removes only whitespace, keeps the characters in between, and leaves a non-blank line with non-space ends; the result is empty exactly when the line was blank |
| Description.TrimSpaceParts | internal/service/impl/product.service.impl.go:48 | a line is its trimmed middle between a blank prefix and a blank suffix, and a non-empty middle starts and ends with a non-space character |
| Description.TrimLeftIs | internal/service/impl/product.service.impl.go:48 | the leading trim drops a whitespace prefix and starts at a non-space character |
| Description.TrimRightIs | internal/service/impl/product.service.impl.go:48 | the trailing trim drops a whitespace suffix and ends at a non-space character |
| Description.TrimSpaceFixed | internal/service/impl/product.service.impl.go:48 | a line with non-space ends is left as it is |
| Description.SplitLines | internal/service/impl/product.service.impl.go:46 | splitting on newlines yields at least one piece, even for the empty string |
| Description.SplitLinesSingle | internal/service/impl/product.service.impl.go:46 | no piece of a split contains a newline |
| Description.JoinSplit | internal/service/impl/product.service.impl.go:46 | joining the pieces with newlines gives back the description |
| Description.SplitSingleLine | internal/service/impl/product.service.impl.go:46 | a string without a newline splits into itself alone |
| Description.SplitAppend | internal/service/impl/product.service.impl.go:46 | splitting `a + "\n" + b` is splitting `a` followed by splitting `b` |
| Description.RenderAppend | internal/service/impl/product.service.impl.go:47-51 | the rendering of two runs of lines is the concatenation of their renderings |
| Description.ConcatMapAppend | internal/service/impl/product.service.impl.go:47-51 | appending a rendering per line over two runs of lines equals appending the two results, whatever the per-line rendering |
| Description.RenderIsHtmlOfParagraphs | internal/service/impl/product.service.impl.go:47-51 | the rendering is the concatenation of one `<p>` element per non-blank line, in order, each holding the trimmed line with non-space ends and no newline |
| Description.NormalizeAppend | internal/service/impl/product.service.impl.go:43-53 | normalising two newline-joined texts is normalising each and concatenating |
| Description.NormalizeSingleLine | internal/service/impl/product.service.impl.go:43-53 | a single non-blank line becomes one paragraph of its trimmed text |
| Description.RenderEmptyIff | internal/service/impl/product.service.impl.go:47-51 | the rendering is empty exactly when every line is blank |
| Description.SplitBlankIff | internal/service/impl/product.service.impl.go:46-49 | a description is blank exactly when all its lines are |
| Description.BlankIffEmpty | internal/service/impl/product.service.impl.go:43-53 | the stored description is empty exactly when the input is all whitespace |
| Description.RenderShape | internal/service/impl/product.service.impl.go:47-51 | a rendering has no newline and, when not empty, starts with `<` and ends with `>` |
| Description.NormalizeTwiceWrapsAgain | internal/service/impl/product.service.impl.go:43-53 | normalising is not idempotent: an already normalised description is wrapped in another paragraph |
| Description.RenderDescription | internal/service/impl/product.service.impl.go:45-52 | the loop over the split lines builds exactly the normalised description |
| Variants.ParseKind | internal/service/impl/product.service.impl.go:81-150 | a tag is recognised exactly when it is `Mushroom`, `Vegetable` or `Bonsai`, and the kind recognised prints back as the tag |
| Variants.ParseKindTag | internal/service/impl/product.service.impl.go:81-150 | every kind's tag is recognised as that kind |
| Variants.ZeroValue | internal/service/impl/product.service.impl.go:89-146 | the zero value of each attribute has the type the extraction asserts |
| Variants.ExtractVariant | internal/service/impl/product.service.impl.go:83-146 | the variant built on create has the product's id, the caller's shop and the kind of the tag |
| Variants.ExtractFieldRule | internal/service/impl/product.service.impl.go:89-146 | each attribute field is the supplied value when the key is present with the asserted type, and the zero value otherwise |
| Variants.ExtractDependsOnlyOnPatch | internal/service/impl/product.service.impl.go:89-146 | two attribute maps with the same type-checked entries build the same variant |
| Variants.EmptyPatchGivesZero | internal/service/impl/product.service.impl.go:89-146 | with no usable attribute the variant is the zero record |
| Variants.JsonNumbersLeaveBonsaiSizesZero | internal/service/impl/product.service.impl.go:131-136 | when no attribute is an integer, as with decoded JSON numbers, a bonsai's age and height stay zero and never enter the update patch |
| Variants.ProduceShapesAgree | internal/service/impl/product.service.impl.go:82-123 | mushrooms and vegetables read the same four attributes the same way |
| Variants.BuildVariant | internal/service/impl/product.service.impl.go:83-146 | the field-by-field extraction builds exactly `ExtractVariant` |
| Variants.BuildAttributePatch | internal/service/impl/product.service.impl.go:240-301 | the key-by-key patch equals the restriction of the attribute map to the kind's keys |
| Rows.Int32 | internal/repo/product.repo.go:93 | the cast lands in the int32 range and agrees with its argument modulo 2^32 |
| Rows.Int32Fits | internal/repo/product.repo.go:93 | a value in range is unchanged by the cast |
| Rows.Int32Wraps | internal/repo/product.repo.go:93 | the cast repeats every 2^32, leaves a value unchanged exactly when it is in the int32 range, and takes 2^31 to -2^31 |
| Rows.ProductNullRule | internal/repo/product.repo.go:59-102 | exactly which product columns an insert leaves null (empty strings and lists, a non-positive discount) and what the others hold |
| Rows.WriteReadRoundTrip | internal/repo/product.repo.go:163-219 | reading back an inserted product gives the same record, except for a clamped discount, an int32 quantity, zero sales and zero timestamps |
| Rows.WriteReadExact | internal/repo/product.repo.go:163-219 | with a non-negative discount, an int32 quantity and zero sales, only the timestamps differ |
| Rows.VariantNullRule | internal/repo/product.repo.go:108-148 | exactly which variant columns an insert leaves null, with int32 ages and heights |
| Rows.InventoryNullRule | internal/repo/product.repo.go:151-160 | an inventory row keeps the ids, nulls an empty location and stores the stock as int32 |
| Rows.PatchFault | internal/repo/product.repo.go:222-224 | an update map is accepted exactly when every key is a products column given a value it stores; it fails with an unknown column exactly when some key is not a column |
| Rows.ApplyPatchRule | internal/repo/product.repo.go:222-224 | an accepted update sets each named column to the given value and leaves every other column as it was |
| StoreModel.WritesAreLogged | internal/repo/product.repo.go:58-242 | each repository write appends exactly its own entry to the log, whether or not it succeeds |
| StoreModel.FailedWritesChangeNoTable | internal/repo/product.repo.go:58-242 | a write that reports an error leaves every table unchanged |
| StoreModel.CreateThenFind | internal/repo/product.repo.go:58-105 | an inserted product is found again as the row mapping reads it back |
| StoreModel.PublishIdempotent | internal/repo/product.repo.go:227-233 | publishing twice has the effect and outcome of publishing once |
| StoreModel.UnpublishThenPublish | internal/repo/product.repo.go:227-242 | withdrawing and then publishing ends in the same tables as publishing alone |
| StoreModel.PublishNeedsOwner | internal/repo/product.repo.go:227-242 | a shop that does not own the product cannot change its flags |
| StoreModel.ReplaceRowKeepsValid | internal/repo/product.repo.go:222-242 | replacing a product row by one with the same id and type and consistent flags keeps the store valid |
| StoreModel.FlagWritesKeepValid | internal/repo/product.repo.go:227-242 | publishing and withdrawing keep the store valid |
| StoreModel.VariantRowPlacement | internal/repo/product.repo.go:108-148 | a variant row is stored under its own id, in its own kind's table |
| StoreModel.VariantInsertKeepsValid | internal/repo/product.repo.go:108-148 | inserting a variant row keeps the store valid |
| StoreModel.ProductInsertKeepsValid | internal/repo/product.repo.go:58-105 | inserting a product with a known type, its variant row in place and consistent flags keeps the store valid |
| StoreModel.InventoryInsertKeepsValid | internal/repo/product.repo.go:151-160 | appending an inventory row keeps the store valid |
| StoreModel.UpdateKeepsValid | internal/repo/product.repo.go:222-224 | an update that names neither the id, the type nor the flags keeps the store valid |
| Queries.NormalizeParams | internal/repo/product.repo.go:383-388 | page and limit are at least 1, a page below 1 becomes 1, a limit below 1 becomes 10, anything else is kept, and the filters are untouched |
| Queries.NormalizeIdempotent | internal/repo/product.repo.go:383-388 | normalising twice is normalising once |
| Queries.Offset | internal/repo/product.repo.go:389 | the offset is `(page - 1) * limit` and never negative |
| Queries.OffsetsTile | internal/repo/product.repo.go:389 | page 1 starts at 0 and each page starts one limit after the previous one |
| Queries.CeilDiv | internal/repo/product.repo.go:467 | the total pages is the least number of pages of `limit` rows that hold the count |
| Queries.CeilDivBounds | internal/repo/product.repo.go:467 | no rows means zero pages, otherwise at least one, and at most one when the count fits a single page |
| Queries.SearchPattern | internal/repo/product.repo.go:420 | the pattern is the keyword between two `%` wildcards |
| Queries.SelectFilter | internal/repo/product.repo.go:395-465 | the type filter wins when a type is given, then the keyword search, then all published products |
| Queries.ConvertAllIndex | internal/repo/product.repo.go:594-645 | converting rows keeps their number and order and converts each the way a single read does |
| Queries.OnePath | internal/repo/product.repo.go:395-465 | the general listing issues one or two queries, all of the one chosen path |
| Queries.KeywordUsesPattern | internal/repo/product.repo.go:418-427 | a keyword listing counts with the wildcard pattern |
| Queries.PagedResponse | internal/repo/product.repo.go:467-474 | a successful listing reports the normalised page, the count, the least page total that holds it, and as data the converted rows, one per row in the order the query returned them |
| Queries.PagedErrors | internal/repo/product.repo.go:397-411 | a failed count is returned before any row query, and a failed row query is returned as it is |
| Queries.RankedIgnoreFilters | internal/repo/product.repo.go:478-561 | the discount and bestseller listings count all published products and ignore type and keyword |
| Queries.SearchIsCapped | internal/repo/product.repo.go:564-571 | the search issues one query for at most 100 rows from offset 0 |
| Queries.WideLimitWraps | internal/repo/product.repo.go:453-467 | for every input, the row query gets the int32 casts of the normalised limit and offset, while the page count divides by the normalised limit uncast; a limit of 2^32 + 10 fetches 10 rows |
| Queries.ShopListingQuery | internal/repo/product.repo.go:245-250 | a shop listing issues one query with the shop and the int32 limit and offset |
| Repo.ConvertRows | internal/repo/product.repo.go:414-417 | the conversion loop yields `ConvertAll` of the rows |
| Repo.PageParams | internal/repo/product.repo.go:383-389 | the paging prologue gives the normalised parameters and their offset |
| Repo.CountMatchingBounds | internal/repo/product.repo.go:587-591 | an empty condition counts every product, and no condition counts more |
| Repo.CountMatchingNarrows | internal/repo/product.repo.go:587-591 | adding a condition never raises the count |
| Repo.ProductRepository.constructor | internal/repo/product.repo.go:50-55 | a repository starts from the given store |
| Repo.ProductRepository.CreateVariant | internal/repo/product.repo.go:108-148 | insert into the variant table of the record's kind, as `StoreModel.CreateVariant` |
| Repo.ProductRepository.CreateProduct | internal/repo/product.repo.go:58-105 | insert the product row, as `StoreModel.CreateProduct` |
| Repo.ProductRepository.InsertInventory | internal/repo/product.repo.go:151-160 | append an inventory row, as `StoreModel.InsertInventory` |
| Repo.ProductRepository.FindProduct | internal/repo/product.repo.go:163-219 | the product under the id, read back, or the store's error |
| Repo.ProductRepository.UpdateProductByID | internal/repo/product.repo.go:222-224 | a map update of the product row, as `StoreModel.UpdateProductByID` |
| Repo.ProductRepository.PublishProductByShop | internal/repo/product.repo.go:227-233 | the owner-scoped publish, as `StoreModel.Publish` |
| Repo.ProductRepository.UnPublishProductByShop | internal/repo/product.repo.go:236-242 | the owner-scoped withdrawal, as `StoreModel.Unpublish` |
| Repo.ProductRepository.SetFlags | internal/repo/product.repo.go:227-242 | the common flag update of publish and withdraw |
| Repo.ProductRepository.CountProducts | internal/repo/product.repo.go:587-591 | the number of products whose columns equal the condition's values |
| Repo.ProductRepository.RunPaged | internal/repo/product.repo.go:395-474 | the count query, then the row query, then the response, as `Queries.Paged` |
| Repo.ProductRepository.FindAllProducts | internal/repo/product.repo.go:381-475 | the general listing, as `Queries.FindAllProducts` |
| Repo.ProductRepository.FindProductsByDiscount | internal/repo/product.repo.go:478-518 | the discount listing, as `Queries.FindProductsByDiscount` |
| Repo.ProductRepository.FindProductsBySelled | internal/repo/product.repo.go:521-561 | the bestseller listing, as `Queries.FindProductsBySelled` |
| Repo.ProductRepository.RunUnpaged | internal/repo/product.repo.go:564-584 | one row query and its conversion |
| Repo.ProductRepository.SearchProducts | internal/repo/product.repo.go:564-584 | the capped name search, as `Queries.SearchProducts` |
| Repo.ProductRepository.FindAllDraftsForShop | internal/repo/product.repo.go:245-310 | the shop's drafts page, as `Queries.ShopListing` |
| Repo.ProductRepository.FindAllPublishForShop | internal/repo/product.repo.go:313-378 | the shop's published page, as `Queries.ShopListing` |
| CatalogService.StoredIsNormalized | internal/service/impl/product.service.impl.go:43-53 | skipping the normaliser for an empty description changes nothing |
| CatalogService.MainPatchRule | internal/service/impl/product.service.impl.go:195-237 | each common field enters the update exactly when it is a non-empty string, a positive number or a non-empty list; the description enters normalised; `updated_at` is always set; every supplied field carries the input's own value; nothing outside those columns is named |
| CatalogService.MainPatchAccepted | internal/service/impl/product.service.impl.go:218-220 | the database accepts the main patch exactly when the quantity fits an int32 column |
| CatalogService.SuppliedAccepted | internal/service/impl/product.service.impl.go:197-237 | every supplied column of the main patch is a product column, and its value is accepted unless it is a quantity outside the int32 range |
| CatalogService.MainColumnsFacts | internal/service/impl/product.service.impl.go:195-237 | the update can name only product columns, and never the id, the owner, the type tag, the two flags or the creation time |
| CatalogService.MainPatchKeys | internal/service/impl/product.service.impl.go:195-237 | the main patch names no column outside the eleven the update code sets |
| CatalogService.CreateChecksBeforeWriting | internal/service/impl/product.service.impl.go:32-40 | nothing is written unless the input is valid, the caller is known, the role check passes and the type is known; each refusal has its own error, checked in that order |
| CatalogService.CreateWriteOrder | internal/service/impl/product.service.impl.go:147-172 | the variant, product and inventory inserts go out in that order, each only after the previous one succeeded; the first failing insert ends the log and its own error is returned; when all three succeed the new draft is returned |
| CatalogService.CreateLeavesEarlierRows | internal/service/impl/product.service.impl.go:152-172 | there is no rollback: a successful variant insert, or product insert, stays in the store whatever follows |
| CatalogService.CreatedProduct | internal/service/impl/product.service.impl.go:59-77 | a created product is a draft of the caller's shop under the given id, with the normalised description; its variant and inventory rows share the id and shop, and the stock is the quantity |
| CatalogService.CreateThenFindProduct | internal/service/impl/product.service.impl.go:157-174 | a created product is found again under its id, exactly as returned except for the timestamps when the discount is not negative and the quantity fits |
| CatalogService.CreateKeepsValid | internal/service/impl/product.service.impl.go:81-172 | a create, whole or stopped part way, keeps the store valid |
| CatalogService.UpdateChecksBeforeWriting | internal/service/impl/product.service.impl.go:179-192 | nothing is written unless the caller is known, the product is found and the caller's shop owns it; each refusal has its own error |
| CatalogService.AttributeKeysAreNotColumns | internal/service/impl/product.service.impl.go:240-301 | no attribute key of any kind is a column of the products table |
| CatalogService.AttributeUpdateRejected | internal/service/impl/product.service.impl.go:240-307 | a non-empty attribute patch goes to the products table and fails there with an unknown column; nothing changes and the main patch is never sent |
| CatalogService.OwnerMainUpdate | internal/service/impl/product.service.impl.go:310-314 | without an attribute patch the owner's update sends exactly the main patch; it fails only for a quantity beyond int32, and otherwise every column is what the patch says or what it was |
| CatalogService.UpdateFixesIdentity | internal/service/impl/product.service.impl.go:195-314 | an update never writes the variant tables or the inventory, and never changes the set of products or any product's owner, type, flags or creation time |
| CatalogService.AttributeUpdateTables | internal/service/impl/product.service.impl.go:240-307 | the attribute step never changes a table |
| CatalogService.PatchFixesIdentity | internal/repo/product.repo.go:222-224 | a patch over the main columns touches only the one row's other columns |
| CatalogService.PatchKeepsRowIdentity | internal/repo/product.repo.go:222-224 | a patch over the main columns keeps a row's owner, type, flags and creation time |
| CatalogService.UpdateKeepsStoreValid | internal/service/impl/product.service.impl.go:178-315 | an update keeps the store valid |
| CatalogService.PublishOutcome | internal/service/impl/product.service.impl.go:318-325 | the owner's product gets the requested flags; anyone else's call changes nothing and still reports no error |
| CatalogService.PublishProductIdempotent | internal/service/impl/product.service.impl.go:318-320 | publishing twice is publishing once |
| CatalogService.ShopPageQuery | internal/service/impl/product.service.impl.go:338-361 | a shop page asks for a positive limit and the offset of its page |
| CatalogService.BuildMainPatch | internal/service/impl/product.service.impl.go:195-237 | the key-by-key update map is exactly `MainPatch` |
| CatalogService.BuildProductFields | internal/service/impl/product.service.impl.go:195-220 | the first five keys of the update map, filled as the code does |
| CatalogService.BuildOfferFields | internal/service/impl/product.service.impl.go:221-226 | adds the status and the discounted price to the update map exactly as `MainPatch` has them |
| CatalogService.BuildMediaFields | internal/service/impl/product.service.impl.go:227-235 | adds the videos, the pictures and the sub type exactly as `MainPatch` has them |
| CatalogService.CreateProductWorkflow | internal/service/impl/product.service.impl.go:30-175 | the step-by-step create has exactly the store effect and outcome of `CreateSpec` |
| CatalogService.UpdateProductWorkflow | internal/service/impl/product.service.impl.go:178-315 | the step-by-step update has exactly the store effect and outcome of `UpdateSpec` |
| CatalogService.ProductService.constructor | internal/service/impl/product.service.impl.go:20-24 | the service holds the given repository |
| CatalogService.ProductService.CreateProduct | internal/service/impl/product.service.impl.go:30-175 | `CreateSpec` with no role check |
| CatalogService.ProductService.UpdateProduct | internal/service/impl/product.service.impl.go:178-315 | `UpdateSpec` |
| CatalogService.ProductService.PublishProduct | internal/service/impl/product.service.impl.go:318-320 | the repository's publish, ids forwarded unchanged |
| CatalogService.ProductService.UnPublishProduct | internal/service/impl/product.service.impl.go:323-325 | the repository's withdrawal, ids forwarded unchanged |
| CatalogService.ProductService.FindProduct | internal/service/impl/product.service.impl.go:328-330 | the repository's lookup, success and failure alike |
| CatalogService.ProductService.FindAllProducts | internal/service/impl/product.service.impl.go:333-335 | the repository's general listing |
| CatalogService.ProductService.FindAllDraftsForShop | internal/service/impl/product.service.impl.go:338-348 | page and limit defaulted to 1 and 10, offset `(page - 1) * limit`, then the shop's drafts |
| CatalogService.ProductService.FindAllPublishForShop | internal/service/impl/product.service.impl.go:351-361 | the same paging, then the shop's published products |
| CatalogService.ProductService.GetProductsByDiscount | internal/service/impl/product.service.impl.go:364-366 | the repository's discount listing |
| CatalogService.ProductService.GetProductsBySelled | internal/service/impl/product.service.impl.go:369-371 | the repository's bestseller listing |
| CatalogService.ProductService.SearchProducts | internal/service/impl/product.service.impl.go:374-376 | the repository's search |
| LegacyService.DescribeInjective | internal/service/product.service.go:44-211 | the older service's error wording tells every error apart |
| LegacyService.RoleCheckNeverRefuses | internal/service/product.service.go:54-59 | the placeholder role check never refuses, so create behaves as in the live service |
| LegacyService.ProductService.constructor | internal/service/product.service.go:35-39 | the service holds the given repository |
| LegacyService.ProductService.CreateProduct | internal/service/product.service.go:42-194 | the shared create with the role check's constant, errors reworded |
| LegacyService.ProductService.UpdateProduct | internal/service/product.service.go:197-334 | the shared update, errors reworded |
| LegacyService.ProductService.PublishProduct | internal/service/product.service.go:337-339 | the repository's publish |
| LegacyService.ProductService.UnPublishProduct | internal/service/product.service.go:342-344 | the repository's withdrawal |
| LegacyService.ProductService.FindProduct | internal/service/product.service.go:347-349 | the repository's lookup |
| LegacyService.ProductService.FindAllProducts | internal/service/product.service.go:352-354 | the repository's general listing |
| LegacyService.ProductService.FindAllDraftsForShop | internal/service/product.service.go:357-367 | defaulted paging, then the shop's drafts |
| LegacyService.ProductService.FindAllPublishForShop | internal/service/product.service.go:370-380 | defaulted paging, then the shop's published products |
| LegacyService.ProductService.GetProductsByDiscount | internal/service/product.service.go:383-385 | the repository's discount listing |
| LegacyService.ProductService.GetProductsBySelled | internal/service/product.service.go:388-390 | the repository's bestseller listing |
| LegacyService.ProductService.SearchProducts | internal/service/product.service.go:393-395 | the repository's search |

## Left out

- HTTP handling, request binding and the controller are not part of this model.
- Reading the caller from the request token is not modelled: the caller is an `Option` parameter, `None` when no identity can be read.
- Opening the database, dependency wiring and the singleton registry of the service (internal/service/product.service.go:414-427) are not modelled.
- Fresh ids and clock readings are parameters.
- The database's own defaults are not modelled. An inserted row carries no timestamps and zero sales, so they read back as zero.
- The SQL of the generated queries is not visible. Listing answers come from a caller-supplied `Sql` oracle, so result order and filter semantics are not modelled.
- Publishing is modelled as an owner-scoped flag update. A call that matches no row reports no error.
- Prices and weights are exact `real` numbers. The `%.2f` formatting when writing and the float parsing when reading are not modelled, so rounding to cents is not captured.
- Total pages are computed with integer ceiling division rather than the floating-point ceiling.
- How list values are JSON-encoded is not modelled: a list is stored as given, or as null when empty. A nil slice and an empty slice are the same value.
- Go's 64-bit `int` is unbounded here. Only the explicit int32 casts wrap.
- A gorm map update with a key that is not a products column is assumed to be refused whole by the database, and a value of the wrong kind likewise. gorm's automatic `updated_at` is not modelled beyond the explicit entry the service adds.
- Rows.ColumnAccepts, CatalogService.MainPatchAccepted, CatalogService.SuppliedAccepted and CatalogService.OwnerMainUpdate rest on two assumptions about the database. First, an `int` quantity outside the int32 range is taken to be refused as a bad value, as a strict SQL mode does; a non-strict mode would clamp it and store the update. Second, a plain string list in the update map is taken to be accepted by the JSON columns `product_videos` and `product_pictures`. The record declares no serializer for those fields (internal/model/product.go:16-17), and the update path does not JSON-encode them the way the create path does, so the source does not show that they are accepted.
- CatalogService.CreateSpec: the service overwrites the caller's input description with the rendered HTML in place (internal/service/impl/product.service.impl.go:52). The model computes the rendering and stores it, but does not write it back into the input.
- Concurrency is not modelled. Every call runs alone against the store.
- Inventory rows are modelled as appended without a key check, because the inventory table's constraints are not visible.
- Repo.ProductRepository.CountProducts: the condition map is modelled as column equality on the products table only.
