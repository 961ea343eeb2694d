# Autoflex production planning, in Dafny

Autoflex is a small ERP for a factory. The Kotlin/Quarkus backend keeps four tables:

- products, each with a unit value;
- raw materials, each with a stock quantity;
- recipe lines: one (product, raw material, quantity per unit) row per pair;
- productions: confirmation batches that are PENDING or CONFIRMED.

The backend has four jobs:

- **Plan.** It suggests what to produce. It sorts products by value, most valuable first, and greedily books each product's bottleneck quantity against a ledger of stock already promised.
- **Confirm.** It confirms a batch item by item. Each item checks every raw material's stock before writing any of it.
- **Catalogue.** It serves create, read, update and delete on the catalogue, and paginates listings.
- **Guard.** It issues and rotates refresh tokens, and gates requests with an API key and CORS filters.

The TypeScript front-end keeps the catalogue in Redux slices. It talks to the backend through an HTTP client that normalises the base URL, retries with exponential backoff and wraps failures.

This project models that core and proves what it promises.

- **Quantities.** BigDecimal amounts of scale 2 are integers counting hundredths (`Entities.Amount`). The planner's floor division is then exact integer division.
- **Tables.** The database is a `Catalog.Store` object. Products and raw materials are maps keyed by code. Recipe lines are a sequence unique on the pair. Productions are a map keyed by id.
- **Services.** Service operations are methods that modify the store. Each is proved against a specification function (`ProductionPlanning.Plan`, `ProductionConfirmation.ConfirmAll`, `ProductionService.ConfirmById`, ...) whose properties are lemmas.
- **Front-end state.** Each slice is a class whose fields are the slice state. Each reducer case is a method that changes those fields.
- **Inputs instead of effects.** What the program gets from outside becomes an input: the database sequence value, the clock, random tokens, the signed JWT, the listing a paginated query returns, and the outcomes of `fetch`.
- **Exceptions.** A thrown exception is an `Err` of `Outcomes.Failure`, one constructor per exception class.

Modules, in dependency order:

- `Outcomes`, `Decimal` and `Strings` are shared helpers.
- `Entities`, the four DTO modules, `Paging`, `CodeGenerator` and `Catalog` hold the data.
- The backend logic is `ProductionPlanning`, `ProductionConfirmation`, `ProductionService`, `ProductService`, `RawMaterialService`, `ProductRawMaterialService`, `Auth`, `ApiResponses`, `ProductionsResource` and `ProductionResource`.
- The filters are `HttpAuthFilter`, `AuthFilter` and `CorsFilter`.
- The front-end is `Reducers`, `ProductsSlice`, `RawMaterialsSlice`, `ProductRawMaterialsSlice`, `ProductionSlice`, `ErrorHandler` and `ApiClient`.

## Model

| member | source | states |
|---|---|---|
| Entities.NewRecipeLine | backend/src/main/kotlin/com/autoflex/entity/ProductRawMaterial.kt:39-43 | a new recipe line copies the codes of the linked product and raw material, and keeps the given quantity |
| Entities.WithQuantity | backend/src/main/kotlin/com/autoflex/entity/ProductRawMaterial.kt:28-37 | the only change a recipe line admits keeps both codes and sets the quantity |
| Entities.LinesOf | backend/src/main/kotlin/com/autoflex/service/ProductionService.kt:87-89 | exactly the lines of one product, taken from the table |
| Entities.LinesOfDistinctMaterials | backend/src/main/kotlin/com/autoflex/entity/ProductRawMaterial.kt:12-14 | under the unique (product, raw material) constraint, one product's lines name distinct raw materials |
| Entities.AppendKeepsUniquePairs | backend/src/main/kotlin/com/autoflex/entity/ProductRawMaterial.kt:12-14 | appending a line whose pair is absent keeps pairs unique |
| Entities.NewProduction | backend/src/main/kotlin/com/autoflex/entity/Production.kt:16-24 | a new production is PENDING, stamped with its creation time, and has no items |
| Entities.DefaultQuantityRejected | backend/src/main/kotlin/com/autoflex/entity/ProductionItem.kt:22-25 | an item still holding the default quantity 0 fails the positive-quantity constraint |
| ProductDto.ToView | backend/src/main/kotlin/com/autoflex/service/ProductService.kt:138-144 | the output record carries the product's code, name and value |
| ProductDto.FromCreate | backend/src/main/kotlin/com/autoflex/service/ProductService.kt:100-105 | the product built from a request carries the given code and the request's name and value |
| ProductDto.ApplyUpdate | backend/src/main/kotlin/com/autoflex/service/ProductService.kt:118-119 | a partial update keeps the code and replaces exactly the fields that are present |
| ProductDto.ValidCreateGivesValidProduct | backend/src/main/kotlin/com/autoflex/dto/ProductDto.kt:16-27 | a request that passes validation yields a product that passes the entity constraints |
| ProductDto.BlankUpdateNamePassesRequestValidation | backend/src/main/kotlin/com/autoflex/dto/ProductDto.kt:29-32 | an update name of one space passes request validation, although the entity rejects it as blank |
| ProductDto.ValidUpdateKeepsValidProduct | backend/src/main/kotlin/com/autoflex/dto/ProductDto.kt:29-38 | a valid update with an absent or non-blank name keeps a valid product valid |
| RawMaterialDto.ToView | backend/src/main/kotlin/com/autoflex/service/RawMaterialService.kt:122-128 | the output record holds exactly the code, name and stock quantity |
| RawMaterialDto.FromCreate | backend/src/main/kotlin/com/autoflex/service/RawMaterialService.kt:86-91 | the raw material carries the given code and the request's name and stock quantity |
| RawMaterialDto.ApplyUpdate | backend/src/main/kotlin/com/autoflex/service/RawMaterialService.kt:104-105 | a partial update keeps the code and replaces exactly the present fields |
| RawMaterialDto.ValidCreateGivesValidRawMaterial | backend/src/main/kotlin/com/autoflex/dto/RawMaterialDto.kt:16-27 | a valid create request yields a raw material with non-negative stock and a non-blank name |
| RawMaterialDto.BlankUpdateNamePassesRequestValidation | backend/src/main/kotlin/com/autoflex/dto/RawMaterialDto.kt:29-32 | a blank update name passes request validation but fails the entity constraint |
| ProductRawMaterialDto.ToView | backend/src/main/kotlin/com/autoflex/service/ProductRawMaterialService.kt:84-92 | the output record carries both codes and the quantity, and fills in both names |
| ProductionDto.ValidRequestGivesValidItems | backend/src/main/kotlin/com/autoflex/dto/ProductionDto.kt:21-40 | every item of a valid confirm request has a non-blank code and a positive quantity |
| ProductionDto.StatusName | backend/src/main/kotlin/com/autoflex/service/ProductionService.kt:47 | the status name is "PENDING" exactly for PENDING and "CONFIRMED" exactly for CONFIRMED |
| Paging.DefaultPageRequestValid | backend/src/main/kotlin/com/autoflex/dto/PageRequest.kt:9-22 | the defaults are page 0, size 20 and sort "code", and they pass the bounds |
| Paging.IsAscending | backend/src/main/kotlin/com/autoflex/dto/PageRequest.kt:32-34 | ascending exactly when the sort does not start with '-' |
| Paging.SortField | backend/src/main/kotlin/com/autoflex/dto/PageRequest.kt:24-30 | the field is one character shorter than the sort exactly when the sort is descending |
| Paging.SortRoundTrip | backend/src/main/kotlin/com/autoflex/dto/PageRequest.kt:24-34 | the direction prefix followed by the field gives back the sort parameter |
| Paging.SortStripsOneDash | backend/src/main/kotlin/com/autoflex/dto/PageRequest.kt:25-26 | only one leading '-' is stripped, so "--name" sorts descending by "-name" |
| Paging.TruncDiv | backend/src/main/kotlin/com/autoflex/dto/PageResponse.kt:20 | integer division rounds toward zero, and gives the floor for a non-negative dividend |
| Paging.Of | backend/src/main/kotlin/com/autoflex/dto/PageResponse.kt:13-34 | content, page, size and total pass through unchanged; no pages when size ≤ 0; first iff page 0; last iff page ≥ totalPages − 1 |
| Paging.TotalPagesCeiling | backend/src/main/kotlin/com/autoflex/dto/PageResponse.kt:19-20 | for a positive size and a non-negative total, totalPages is the least n with n · size ≥ total |
| Paging.EmptyIsLast | backend/src/main/kotlin/com/autoflex/dto/PageResponse.kt:19-32 | with no elements there are no pages, and every page from 0 on is the last |
| Paging.PageSlice | backend/src/main/kotlin/com/autoflex/service/ProductService.kt:45-46 | a page is empty past the end of the listing and otherwise holds min(size, rows left from page · size) rows; row i is listing row page · size + i |
| Paging.PageSliceCovers | backend/src/main/kotlin/com/autoflex/service/ProductService.kt:45-46 | every listing row k is on page k / size, at position k % size |
| CodeGenerator.ProductCode | backend/src/main/kotlin/com/autoflex/util/CodeGenerator.kt:24-27 | a product code is "P" followed by at least three characters |
| CodeGenerator.RawMaterialCode | backend/src/main/kotlin/com/autoflex/util/CodeGenerator.kt:36-39 | a raw-material code is "RM" followed by at least three characters |
| CodeGenerator.ThreeDigits | backend/src/main/kotlin/com/autoflex/util/CodeGenerator.kt:26 | a value from 0 to 999 is written as exactly its three decimal digits |
| CodeGenerator.ProductCodeShape | backend/src/main/kotlin/com/autoflex/util/CodeGenerator.kt:26 | values 0 to 999 give "P" and the three digits of the value |
| CodeGenerator.RawMaterialCodeShape | backend/src/main/kotlin/com/autoflex/util/CodeGenerator.kt:38 | values 0 to 999 give "RM" and the three digits of the value |
| CodeGenerator.CodesEncodeValue | backend/src/main/kotlin/com/autoflex/util/CodeGenerator.kt:24-39 | the digits after the prefix read back as the sequence value |
| CodeGenerator.CodesInjective | backend/src/main/kotlin/com/autoflex/util/CodeGenerator.kt:26-38 | distinct sequence values give distinct codes |
| CodeGenerator.ProductAndRawMaterialCodesDiffer | backend/src/main/kotlin/com/autoflex/util/CodeGenerator.kt:26-38 | a product code never equals a raw-material code |
| Decimal.FormatZeroPaddedValue | backend/src/main/kotlin/com/autoflex/util/CodeGenerator.kt:26 | "%03d" writes at least three characters that read back as the value |
| Decimal.FormatAmountRoundTrip | backend/src/main/kotlin/com/autoflex/service/ProductionService.kt:219-220 | an amount written with two decimals in an error message reads back as that amount |
| Decimal.FormatAmountInjective | backend/src/main/kotlin/com/autoflex/service/ProductionService.kt:219-220 | distinct amounts are written differently |
| Catalog.Filter | backend/src/main/kotlin/com/autoflex/entity/Product.kt:31-32 | the kept lines are exactly the table's lines the predicate accepts |
| Catalog.FilterKeepsUniquePairs | backend/src/main/kotlin/com/autoflex/entity/ProductRawMaterial.kt:12-14 | dropping lines keeps the unique constraint |
| Catalog.FilterKeepsLinesValid | backend/src/main/kotlin/com/autoflex/entity/RawMaterial.kt:31-32 | a cascading delete leaves every remaining line pointing at stored rows |
| Catalog.FindPair | backend/src/main/kotlin/com/autoflex/service/ProductRawMaterialService.kt:63-66 | there is no index iff no line has the pair; an index found holds the pair |
| Catalog.ListedProductsCoverTable | backend/src/main/kotlin/com/autoflex/service/ProductService.kt:45-46 | a listing of the products table, each stored row once, holds every stored product |
| Catalog.ListedRawMaterialsCoverTable | backend/src/main/kotlin/com/autoflex/service/RawMaterialService.kt:40-41 | a listing of the raw materials table holds every stored raw material |
| Catalog.Store.constructor | backend/src/main/kotlin/com/autoflex/entity/Product.kt:10-12 | an empty database: no products, raw materials, recipe lines or productions, and the table constraints hold |
| Catalog.FindPairUnique | backend/src/main/kotlin/com/autoflex/entity/ProductRawMaterial.kt:12-14 | under the unique constraint the pair's line is the one found |
| ProductionPlanning.InsertByValue | backend/src/main/kotlin/com/autoflex/service/ProductionService.kt:72-73 | insertion adds exactly one product |
| ProductionPlanning.InsertByValuePermutes | backend/src/main/kotlin/com/autoflex/service/ProductionService.kt:72-73 | insertion adds the product and loses none |
| ProductionPlanning.InsertByValueBelow | backend/src/main/kotlin/com/autoflex/service/ProductionService.kt:72-73 | insertion keeps every value under a shared bound |
| ProductionPlanning.InsertByValueSorted | backend/src/main/kotlin/com/autoflex/service/ProductionService.kt:72-73 | insertion keeps values non-increasing |
| ProductionPlanning.SortByValueDesc | backend/src/main/kotlin/com/autoflex/service/ProductionService.kt:72-73 | the sort keeps the number of products |
| ProductionPlanning.SortByValueDescCorrect | backend/src/main/kotlin/com/autoflex/service/ProductionService.kt:72-73 | the sorted products have non-increasing values and are a permutation of the catalogue |
| ProductionPlanning.WithValueCons | backend/src/main/kotlin/com/autoflex/service/ProductionService.kt:72-73 | products of one value, in order, split over the first product |
| ProductionPlanning.InsertByValueStable | backend/src/main/kotlin/com/autoflex/service/ProductionService.kt:72-73 | insertion puts the product after the others of its value |
| ProductionPlanning.SortStable | backend/src/main/kotlin/com/autoflex/service/ProductionService.kt:72-73 | products of equal value keep their catalogue order |
| ProductionPlanning.StockMap | backend/src/main/kotlin/com/autoflex/service/ProductionService.kt:77 | the stock map has the listed codes as keys, and each entry is the stock of a raw material with that code |
| ProductionPlanning.LineUnits | backend/src/main/kotlin/com/autoflex/service/ProductionService.kt:99-113 | the units a line allows are never negative |
| ProductionPlanning.Bottleneck | backend/src/main/kotlin/com/autoflex/service/ProductionService.kt:96-116 | the bottleneck lies between 0 and Int.MAX_VALUE |
| ProductionPlanning.BottleneckBelowLines | backend/src/main/kotlin/com/autoflex/service/ProductionService.kt:115 | the bottleneck is at most what any single line allows |
| ProductionPlanning.BottleneckFeasible | backend/src/main/kotlin/com/autoflex/service/ProductionService.kt:98-116 | every line has stock for the bottleneck quantity |
| ProductionPlanning.BottleneckMaximal | backend/src/main/kotlin/com/autoflex/service/ProductionService.kt:98-116 | no larger count up to Int.MAX_VALUE is allowed by every line |
| ProductionPlanning.BottleneckZeroAt | backend/src/main/kotlin/com/autoflex/service/ProductionService.kt:104-107 | a line with no remaining stock or a non-positive quantity forces 0, so the early break is sound |
| ProductionPlanning.CommitAdds | backend/src/main/kotlin/com/autoflex/service/ProductionService.kt:120-125 | booking q units adds quantity × q per line to each material's ledger entry |
| ProductionPlanning.QuantityForDistinct | backend/src/main/kotlin/com/autoflex/service/ProductionService.kt:120-125 | with distinct materials a line's own quantity is all that is asked of its material |
| ProductionPlanning.QuantityForAbsent | backend/src/main/kotlin/com/autoflex/service/ProductionService.kt:120-125 | a material no line names is not booked |
| ProductionPlanning.MaxProducible | backend/src/main/kotlin/com/autoflex/service/ProductionService.kt:96-116 | the inner loop, with its early break, computes the bottleneck |
| ProductionPlanning.BookUsage | backend/src/main/kotlin/com/autoflex/service/ProductionService.kt:120-125 | the booking loop yields the committed ledger |
| ProductionPlanning.TotalValue | backend/src/main/kotlin/com/autoflex/service/ProductionService.kt:139-141 | the fold is the sum of the suggestion totals |
| ProductionPlanning.GetProductionSuggestions | backend/src/main/kotlin/com/autoflex/service/ProductionService.kt:70-147 | the imperative planner answers the specified plan |
| ProductionPlanning.PlanOverSuggestions | backend/src/main/kotlin/com/autoflex/service/ProductionService.kt:91-135 | every suggestion has lines and a positive quantity, is for a catalogue product, and has total value × quantity |
| ProductionPlanning.StepAppends | backend/src/main/kotlin/com/autoflex/service/ProductionService.kt:86-136 | one product adds at most one suggestion, about that product |
| ProductionPlanning.PlanOverOrdered | backend/src/main/kotlin/com/autoflex/service/ProductionService.kt:72-73 | over value-sorted products the suggestions come in non-increasing value |
| ProductionPlanning.PlanSuggestions | backend/src/main/kotlin/com/autoflex/service/ProductionService.kt:70-147 | suggestions are ordered by value, well formed and from the catalogue; the total is their sum, 0 when there are none |
| ProductionPlanning.PlanSkipsProductsWithoutLines | backend/src/main/kotlin/com/autoflex/service/ProductionService.kt:91-93 | a product without recipe lines is never suggested |
| ProductionPlanning.PlanOverLedger | backend/src/main/kotlin/com/autoflex/service/ProductionService.kt:118-125 | the ledger holds exactly what the emitted suggestions consume |
| ProductionPlanning.CommitWithinStock | backend/src/main/kotlin/com/autoflex/service/ProductionService.kt:98-125 | booking the bottleneck of lines with distinct materials keeps a ledger entry within its stock |
| ProductionPlanning.StepWithinStock | backend/src/main/kotlin/com/autoflex/service/ProductionService.kt:86-136 | one planner step keeps each ledger entry between 0 and its stock |
| ProductionPlanning.PlanOverWithinStock | backend/src/main/kotlin/com/autoflex/service/ProductionService.kt:86-137 | with unique pairs and non-negative stock the ledger is never negative and never exceeds stock |
| ProductionPlanning.PlanWithinStock | backend/src/main/kotlin/com/autoflex/service/ProductionService.kt:70-147 | what the plan consumes of any raw material is between 0 and its stock |
| ProductionConfirmation.CheckStockOkIff | backend/src/main/kotlin/com/autoflex/service/ProductionService.kt:210-230 | the stock check passes exactly when every line's raw material exists and covers quantity × requested |
| ProductionConfirmation.CheckStockFailure | backend/src/main/kotlin/com/autoflex/service/ProductionService.kt:210-225 | a failed check is a line's raw material not found, or an InsufficientStock carrying that line's need, which exceeds the stock |
| ProductionConfirmation.CheckStockFirstFailure | backend/src/main/kotlin/com/autoflex/service/ProductionService.kt:210-225 | the first failing line decides the failure |
| ProductionConfirmation.MaterialsLast | backend/src/main/kotlin/com/autoflex/service/ProductionService.kt:229 | the planned updates grow by the last line's material |
| ProductionConfirmation.DistinctLast | backend/src/main/kotlin/com/autoflex/service/ProductionService.kt:229 | with distinct materials, the last line's material is new to the lines before it |
| ProductionConfirmation.CheckStockPlans | backend/src/main/kotlin/com/autoflex/service/ProductionService.kt:214-229 | a passing check plans, for each named material, its stock minus its need, and never a negative stock |
| ProductionConfirmation.ApplyStock | backend/src/main/kotlin/com/autoflex/service/ProductionService.kt:234-240 | writing planned stock keeps the set of raw materials |
| ProductionConfirmation.ApplyPlannedStock | backend/src/main/kotlin/com/autoflex/service/ProductionService.kt:228-240 | after the write a named material holds stock minus need; every other raw material is unchanged |
| ProductionConfirmation.ConfirmItem | backend/src/main/kotlin/com/autoflex/service/ProductionService.kt:195-257 | a failed item leaves all stock unchanged; the table keeps its keys |
| ProductionConfirmation.ConfirmItemSucceedsIff | backend/src/main/kotlin/com/autoflex/service/ProductionService.kt:197-256 | an item succeeds iff the product exists, has lines, and every line's raw material exists with enough stock; a success names the product, keeps the quantity and is worth value × quantity |
| ProductionConfirmation.ConfirmItemFailures | backend/src/main/kotlin/com/autoflex/service/ProductionService.kt:197-225 | a missing product and a product without lines are the two NotFound errors; any other failure is a line's missing raw material or a shortfall |
| ProductionConfirmation.ConfirmItemStock | backend/src/main/kotlin/com/autoflex/service/ProductionService.kt:228-256 | a success drops each recipe material by exactly quantity × requested, leaves the others, and reports the product's value × quantity |
| ProductionConfirmation.ConfirmItemKeepsStockValid | backend/src/main/kotlin/com/autoflex/service/ProductionService.kt:217-229 | confirming never drives a valid raw material's stock below zero |
| ProductionConfirmation.ConfirmAll | backend/src/main/kotlin/com/autoflex/service/ProductionService.kt:150-193 | the batch keeps the raw-material keys |
| ProductionConfirmation.ItemOutcomeReports | backend/src/main/kotlin/com/autoflex/service/ProductionService.kt:156-184 | the recorded result reports the item (code, quantity, name, total 0 on failure), and success matches the item's confirmation |
| ProductionConfirmation.ConfirmAllStep | backend/src/main/kotlin/com/autoflex/service/ProductionService.kt:156-185 | the batch over k + 1 items extends the batch over k by item k, which sees the earlier deductions |
| ProductionConfirmation.RecordKeepsBookkept | backend/src/main/kotlin/com/autoflex/service/ProductionService.kt:158-183 | recording one more result keeps the bookkeeping |
| ProductionConfirmation.ConfirmAllBookkeeping | backend/src/main/kotlin/com/autoflex/service/ProductionService.kt:150-193 | one result per item in order; successCount + failureCount = number of items; totalValue sums the successes |
| ProductionConfirmation.ConfirmAllStock | backend/src/main/kotlin/com/autoflex/service/ProductionService.kt:150-193 | after a batch each raw material's stock is its old stock minus what the successful items consumed |
| ProductionConfirmation.ConfirmAllKeepsStockValid | backend/src/main/kotlin/com/autoflex/service/ProductionService.kt:150-193 | no batch drives a valid raw material's stock below zero |
| ProductionService.ConfirmItemKeepsTablesValid | backend/src/main/kotlin/com/autoflex/service/ProductionService.kt:195-257 | an item keeps the raw-material table keyed by code and non-negative |
| ProductionService.ConfirmAllKeepsTablesValid | backend/src/main/kotlin/com/autoflex/service/ProductionService.kt:150-193 | a batch keeps the raw-material table keyed by code and non-negative |
| ProductionService.CheckStockKeys | backend/src/main/kotlin/com/autoflex/service/ProductionService.kt:210-229 | a passing check plans stock only for raw materials that exist |
| ProductionService.CheckAssociations | backend/src/main/kotlin/com/autoflex/service/ProductionService.kt:208-230 | the check loop answers the specified stock check |
| ProductionService.WriteStock | backend/src/main/kotlin/com/autoflex/service/ProductionService.kt:233-240 | the write loop replaces the stock of the planned raw materials and changes no other table |
| ProductionService.ConfirmProductionItem | backend/src/main/kotlin/com/autoflex/service/ProductionService.kt:195-257 | the result and new stock are the specified item confirmation |
| ProductionService.ConfirmOrReport | backend/src/main/kotlin/com/autoflex/service/ProductionService.kt:157-184 | one iteration's try/catch records the specified item outcome |
| ProductionService.ConfirmNext | backend/src/main/kotlin/com/autoflex/service/ProductionService.kt:156-185 | one iteration extends the running counts and results by one recorded item |
| ProductionService.ConfirmProduction | backend/src/main/kotlin/com/autoflex/service/ProductionService.kt:150-193 | the loop answers the specified batch and stores its stock |
| ProductionService.CreateProduction | backend/src/main/kotlin/com/autoflex/service/ProductionService.kt:31-51 | a new PENDING production with the request's items in order, stored under the new id; an invalid item stores nothing |
| ProductionService.RequestsOf | backend/src/main/kotlin/com/autoflex/service/ProductionService.kt:60-62 | a stored production's items, in order, as requests |
| ProductionService.ConfirmById | backend/src/main/kotlin/com/autoflex/service/ProductionService.kt:54-67 | a failure changes neither stock nor productions; the ids are kept |
| ProductionService.ConfirmByIdOutcome | backend/src/main/kotlin/com/autoflex/service/ProductionService.kt:54-67 | NotFound for an unknown id and BadRequest when not PENDING; otherwise the batch over its items, and the production becomes CONFIRMED |
| ProductionService.ConfirmByIdOnce | backend/src/main/kotlin/com/autoflex/service/ProductionService.kt:57-64 | confirming a production a second time is rejected and changes nothing |
| ProductionService.ConfirmProductionById | backend/src/main/kotlin/com/autoflex/service/ProductionService.kt:54-67 | the method answers the specified lifecycle step against the store |
| ProductService.GetByCode | backend/src/main/kotlin/com/autoflex/service/ProductService.kt:73-77 | Ok iff the code is stored, with that product's view; else NotFound "Product with code … not found" |
| ProductService.CreateWithCode | backend/src/main/kotlin/com/autoflex/service/ProductService.kt:100-109 | stores exactly the code with the request's name and value, or rejects an invalid product and stores nothing |
| ProductService.Create | backend/src/main/kotlin/com/autoflex/service/ProductService.kt:81-98 | uses the first code, or on a collision exactly one retry code; a second collision is BadRequest and stores nothing |
| ProductService.Update | backend/src/main/kotlin/com/autoflex/service/ProductService.kt:114-124 | a missing code is NotFound and changes nothing; otherwise only the present fields change |
| ProductService.Delete | backend/src/main/kotlin/com/autoflex/service/ProductService.kt:129-135 | a missing code is NotFound and changes nothing; otherwise exactly that product and its recipe lines go |
| ProductService.GetAllPaginated | backend/src/main/kotlin/com/autoflex/service/ProductService.kt:39-58 | over a listing of exactly the stored products: totalElements is the table size, the page holds min(size, products left from page · size) items, 0 past the end, each the view of the listing row at its offset |
| ProductService.EveryProductOnAPage | backend/src/main/kotlin/com/autoflex/service/ProductService.kt:45-50 | paging through a listing of the table reaches every stored product, for any page size |
| RawMaterialService.GetByCode | backend/src/main/kotlin/com/autoflex/service/RawMaterialService.kt:59-63 | Ok iff the code is stored; else NotFound "Raw material with code … not found" |
| RawMaterialService.CreateWithCode | backend/src/main/kotlin/com/autoflex/service/RawMaterialService.kt:86-95 | stores exactly the code with the request's name and stock, or stores nothing |
| RawMaterialService.Create | backend/src/main/kotlin/com/autoflex/service/RawMaterialService.kt:67-84 | one retry on a collision, then BadRequest with nothing stored |
| RawMaterialService.Update | backend/src/main/kotlin/com/autoflex/service/RawMaterialService.kt:100-109 | a missing code is NotFound and changes nothing; otherwise only the present fields change |
| RawMaterialService.Delete | backend/src/main/kotlin/com/autoflex/service/RawMaterialService.kt:114-119 | a missing code is NotFound; otherwise exactly that raw material and its recipe lines go |
| RawMaterialService.GetAllPaginated | backend/src/main/kotlin/com/autoflex/service/RawMaterialService.kt:35-52 | over a listing of exactly the stored raw materials: totalElements is the table size, the page holds min(size, rows left from page · size) items, 0 past the end, each the view of the listing row at its offset |
| RawMaterialService.EveryRawMaterialOnAPage | backend/src/main/kotlin/com/autoflex/service/RawMaterialService.kt:40-44 | paging through a listing of the table reaches every stored raw material, for any page size |
| ProductRawMaterialService.Views | backend/src/main/kotlin/com/autoflex/service/ProductRawMaterialService.kt:26-27 | one view per line, in order, with the linked names |
| ProductRawMaterialService.GetByProductCode | backend/src/main/kotlin/com/autoflex/service/ProductRawMaterialService.kt:22-28 | NotFound iff the product is absent; otherwise one view per line of that product, in table order, with its codes, quantity, the product's name and the linked raw material's name |
| ProductRawMaterialService.Create | backend/src/main/kotlin/com/autoflex/service/ProductRawMaterialService.kt:31-55 | NotFound for a missing product or raw material, BadRequest for an existing pair; otherwise exactly one line is appended with the requested quantity |
| ProductRawMaterialService.ReplaceKeepsLinesValid | backend/src/main/kotlin/com/autoflex/service/ProductRawMaterialService.kt:68 | changing one line's quantity to a positive one keeps the lines valid |
| ProductRawMaterialService.Update | backend/src/main/kotlin/com/autoflex/service/ProductRawMaterialService.kt:58-72 | a missing pair is NotFound; otherwise only that pair's quantity changes |
| ProductRawMaterialService.RemoveKeepsLinesValid | backend/src/main/kotlin/com/autoflex/service/ProductRawMaterialService.kt:81 | removing a line keeps the lines valid |
| ProductRawMaterialService.RemoveDropsExactlyThePair | backend/src/main/kotlin/com/autoflex/service/ProductRawMaterialService.kt:81 | removing the pair's line leaves exactly the lines of other pairs |
| ProductRawMaterialService.Delete | backend/src/main/kotlin/com/autoflex/service/ProductRawMaterialService.kt:75-82 | a missing pair is NotFound; otherwise the pair's line is cut out of the table and every other line stays, in order |
| Auth.Issue | backend/src/main/kotlin/com/autoflex/service/AuthService.kt:137-148 | stores the token with the user, roles and expiry now + refresh duration; no other entry changes |
| Auth.Login | backend/src/main/kotlin/com/autoflex/service/AuthService.kt:59-75 | succeeds iff both username and password match; a failure is Unauthorized and stores nothing; a success stores a token for {user, admin} and reports the access duration |
| Auth.Refresh | backend/src/main/kotlin/com/autoflex/service/AuthService.kt:84-111 | unknown token: Unauthorized; expired token: removed and Unauthorized; otherwise the old token goes and a new one is stored with the same user and roles |
| Auth.Revoke | backend/src/main/kotlin/com/autoflex/service/AuthService.kt:116-118 | the token is gone and no other token changes |
| Auth.LoginTokenRefreshes | backend/src/main/kotlin/com/autoflex/service/AuthService.kt:66-104 | the token issued at login refreshes successfully before it expires |
| Auth.RevokedTokenRejected | backend/src/main/kotlin/com/autoflex/service/AuthService.kt:116-118 | a revoked token no longer refreshes |
| Auth.RotatedTokenRejected | backend/src/main/kotlin/com/autoflex/service/AuthService.kt:98-99 | after a rotation the old token no longer refreshes |
| Auth.AuthService.constructor | backend/src/main/kotlin/com/autoflex/service/AuthService.kt:28-44 | the service starts with the given configuration and no refresh tokens |
| Auth.AuthService.Authenticate | backend/src/main/kotlin/com/autoflex/service/AuthService.kt:59-75 | the response and new token map are the specified login |
| Auth.AuthService.RefreshToken | backend/src/main/kotlin/com/autoflex/service/AuthService.kt:84-111 | the response and new token map are the specified refresh |
| Auth.AuthService.RevokeToken | backend/src/main/kotlin/com/autoflex/service/AuthService.kt:116-118 | the token map becomes the specified revocation |
| ProductionsResource.ConfirmStatus | backend/src/main/kotlin/com/autoflex/resource/ProductionsResource.kt:80-84 | 200 iff no failure, 400 iff failures and no success, 202 iff both |
| ProductionsResource.ConfirmMessage | backend/src/main/kotlin/com/autoflex/resource/ProductionsResource.kt:89-95 | the message follows the same three-way split and names both counts in the partial case |
| ProductionsResource.Confirmed | backend/src/main/kotlin/com/autoflex/resource/ProductionsResource.kt:79-97 | status from the counts, success iff no failure, the result as data |
| ProductionsResource.ConfirmFailed | backend/src/main/kotlin/com/autoflex/resource/ProductionsResource.kt:98-129 | Concurrency gives 409; InsufficientStock or BadRequest gives 400; anything else gives 500 "An error occurred: …" |
| ProductionsResource.Confirm | backend/src/main/kotlin/com/autoflex/resource/ProductionsResource.kt:77-131 | an outcome maps to the response above; NotFound for an unknown id is 500 |
| ProductionsResource.Created | backend/src/main/kotlin/com/autoflex/resource/ProductionsResource.kt:43-52 | create answers 201 with success and the production |
| ProductionsResource.SuccessesAll | backend/src/main/kotlin/com/autoflex/resource/ProductionsResource.kt:81 | the success count equals the number of results iff every result succeeded |
| ProductionsResource.SuccessesNone | backend/src/main/kotlin/com/autoflex/resource/ProductionsResource.kt:82 | the success count is 0 iff no result succeeded |
| ProductionsResource.ConfirmStatusReflectsItems | backend/src/main/kotlin/com/autoflex/resource/ProductionsResource.kt:80-84 | for a non-empty batch: 200 iff every item succeeded, 400 iff none did, 202 iff some did and some did not |
| ProductionResource.Suggestions | backend/src/main/kotlin/com/autoflex/resource/ProductionResource.kt:39-47 | the suggestions endpoint always answers 200 with success and the summary |
| ProductionResource.ConfirmFailed | backend/src/main/kotlin/com/autoflex/resource/ProductionResource.kt:96-119 | Concurrency gives 409, InsufficientStock gives 400, anything else 500 |
| ProductionResource.ConfirmProduction | backend/src/main/kotlin/com/autoflex/resource/ProductionResource.kt:71-121 | a result uses the same status, success and message as /productions; a failure maps as above |
| ProductionResource.ConfirmEndpointsAgree | backend/src/main/kotlin/com/autoflex/resource/ProductionResource.kt:96-119 | the two confirm endpoints answer alike except for BadRequest, which is 400 on one and 500 on the other |
| HttpAuthFilter.ApiKey | backend/src/main/kotlin/com/autoflex/filter/HttpAuthFilter.kt:61-62 | the header key, else the query parameter |
| HttpAuthFilter.Handle | backend/src/main/kotlin/com/autoflex/filter/HttpAuthFilter.kt:30-82 | unprotected paths pass; /q/openapi passes iff the Referer contains "/swagger-ui", else 403; other protected paths pass iff the key is "projedata", else 401 |
| HttpAuthFilter.OpenApiIgnoresKey | backend/src/main/kotlin/com/autoflex/filter/HttpAuthFilter.kt:37-58 | on /q/openapi the API key makes no difference |
| HttpAuthFilter.HeaderTakesPrecedence | backend/src/main/kotlin/com/autoflex/filter/HttpAuthFilter.kt:61-62 | with a header key the query parameter makes no difference |
| AuthFilter.Filter | backend/src/main/kotlin/com/autoflex/filter/AuthFilter.kt:23-59 | unprotected requests are never aborted; protected ones are aborted with 401 iff the key is missing or not "projedata", header first |
| AuthFilter.ProtectedIffOccurs | backend/src/main/kotlin/com/autoflex/filter/AuthFilter.kt:28-33 | protected iff a listed prefix occurs anywhere in the path or request URI |
| AuthFilter.GuardsAtLeastTheHandlerRoutes | backend/src/main/kotlin/com/autoflex/filter/AuthFilter.kt:14-33 | every path the HTTP handler protects is protected here too |
| AuthFilter.GuardsMoreThanTheHandler | backend/src/main/kotlin/com/autoflex/filter/AuthFilter.kt:14-33 | "/api/health" is protected here but not by the HTTP handler |
| CorsFilter.Filter | backend/src/main/kotlin/com/autoflex/filter/CorsFilter.kt:15-54 | non-OPTIONS requests pass; OPTIONS is answered 200 for no origin or an allowed one, else 403; a 200 carries the methods, headers and max-age 3600, with the origin echoed and credentials, or "*" |
| CorsFilter.AllowedOriginEchoed | backend/src/main/kotlin/com/autoflex/filter/CorsFilter.kt:30-32 | a preflight from an allowed origin echoes it with credentials allowed |
| Reducers.FindIndex | front-end/src/store/slices/productsSlice.ts:126 | the first index that matches, or -1 iff none does |
| Reducers.ReplaceFirst | front-end/src/store/slices/productsSlice.ts:124-130 | length is kept; unchanged when nothing matches; otherwise only the first match is replaced |
| Reducers.FilterOut | front-end/src/store/slices/productsSlice.ts:142 | exactly the non-matching items remain |
| Reducers.FilterOutAppend | front-end/src/store/slices/productsSlice.ts:142 | filtering distributes over concatenation, so the order of the rest is kept |
| Reducers.FilterOutNothing | front-end/src/store/slices/productsSlice.ts:142 | filtering out a code no item has changes nothing |
| Reducers.PaginationOf | front-end/src/store/slices/productsSlice.ts:92-99 | all six pagination fields are copied from the page response |
| Reducers.ErrorMessage | front-end/src/store/slices/productsSlice.ts:81-84 | the rejection message, or the fixed default when it is missing or empty |
| ProductsSlice.ProductsState.constructor | front-end/src/store/slices/productsSlice.ts:7-12 | no items, not loading, no error, no pagination |
| ProductsSlice.ProductsState.ClearError | front-end/src/store/slices/productsSlice.ts:66-68 | only the error is cleared |
| ProductsSlice.ProductsState.Pending | front-end/src/store/slices/productsSlice.ts:73-76 | loading and no error; nothing else changes |
| ProductsSlice.ProductsState.Rejected | front-end/src/store/slices/productsSlice.ts:81-84 | not loading, the message or the thunk's default as error; items unchanged |
| ProductsSlice.ProductsState.FetchFulfilled | front-end/src/store/slices/productsSlice.ts:77-80 | the items become the payload |
| ProductsSlice.ProductsState.FetchPaginatedFulfilled | front-end/src/store/slices/productsSlice.ts:90-101 | the items become the content and pagination copies all six fields |
| ProductsSlice.ProductsState.CreateFulfilled | front-end/src/store/slices/productsSlice.ts:111-114 | the payload is appended |
| ProductsSlice.ProductsState.UpdateFulfilled | front-end/src/store/slices/productsSlice.ts:124-130 | the first item with the payload's code is replaced |
| ProductsSlice.ProductsState.DeleteFulfilled | front-end/src/store/slices/productsSlice.ts:140-143 | every item with the code is removed |
| RawMaterialsSlice.RawMaterialsState.constructor | front-end/src/store/slices/rawMaterialsSlice.ts:11-16 | no items, not loading, no error, no pagination |
| RawMaterialsSlice.RawMaterialsState.ClearError | front-end/src/store/slices/rawMaterialsSlice.ts:70-72 | only the error is cleared |
| RawMaterialsSlice.RawMaterialsState.Pending | front-end/src/store/slices/rawMaterialsSlice.ts:77-80 | loading and no error; nothing else changes |
| RawMaterialsSlice.RawMaterialsState.Rejected | front-end/src/store/slices/rawMaterialsSlice.ts:85-88 | not loading, the message or the default as error; items unchanged |
| RawMaterialsSlice.RawMaterialsState.FetchFulfilled | front-end/src/store/slices/rawMaterialsSlice.ts:81-84 | the items become the payload |
| RawMaterialsSlice.RawMaterialsState.FetchPaginatedFulfilled | front-end/src/store/slices/rawMaterialsSlice.ts:94-105 | the items become the content and pagination copies all six fields |
| RawMaterialsSlice.RawMaterialsState.CreateFulfilled | front-end/src/store/slices/rawMaterialsSlice.ts:115-118 | the payload is appended |
| RawMaterialsSlice.RawMaterialsState.UpdateFulfilled | front-end/src/store/slices/rawMaterialsSlice.ts:128-134 | the first item with the payload's code is replaced |
| RawMaterialsSlice.RawMaterialsState.DeleteFulfilled | front-end/src/store/slices/rawMaterialsSlice.ts:144-147 | every item with the code is removed |
| ProductRawMaterialsSlice.DeleteKeepsOtherPairs | front-end/src/store/slices/productRawMaterialsSlice.ts:123-135 | every item that does not match both codes stays after the delete |
| ProductRawMaterialsSlice.ProductRawMaterialsState.constructor | front-end/src/store/slices/productRawMaterialsSlice.ts:10-14 | no items, not loading, no error |
| ProductRawMaterialsSlice.ProductRawMaterialsState.ClearError | front-end/src/store/slices/productRawMaterialsSlice.ts:60-62 | only the error is cleared |
| ProductRawMaterialsSlice.ProductRawMaterialsState.ClearItems | front-end/src/store/slices/productRawMaterialsSlice.ts:63-65 | only the items are emptied |
| ProductRawMaterialsSlice.ProductRawMaterialsState.Pending | front-end/src/store/slices/productRawMaterialsSlice.ts:70-73 | loading and no error |
| ProductRawMaterialsSlice.ProductRawMaterialsState.Rejected | front-end/src/store/slices/productRawMaterialsSlice.ts:81-84 | not loading, the message or the default; items unchanged |
| ProductRawMaterialsSlice.ProductRawMaterialsState.FetchFulfilled | front-end/src/store/slices/productRawMaterialsSlice.ts:74-80 | the items become the payload's items |
| ProductRawMaterialsSlice.ProductRawMaterialsState.CreateFulfilled | front-end/src/store/slices/productRawMaterialsSlice.ts:90-93 | the payload is appended |
| ProductRawMaterialsSlice.ProductRawMaterialsState.UpdateFulfilled | front-end/src/store/slices/productRawMaterialsSlice.ts:103-113 | the first item matching both codes is replaced, else nothing changes |
| ProductRawMaterialsSlice.ProductRawMaterialsState.DeleteFulfilled | front-end/src/store/slices/productRawMaterialsSlice.ts:123-135 | only the items matching both codes are removed |
| ProductionSlice.ProductionState.constructor | front-end/src/store/slices/productionSlice.ts:6-10 | no summary, not loading, no error |
| ProductionSlice.ProductionState.ClearError | front-end/src/store/slices/productionSlice.ts:24-26 | only the error is cleared |
| ProductionSlice.ProductionState.ClearSummary | front-end/src/store/slices/productionSlice.ts:27-29 | only the summary is cleared |
| ProductionSlice.ProductionState.Pending | front-end/src/store/slices/productionSlice.ts:33-36 | loading and no error; the old summary stays |
| ProductionSlice.ProductionState.Fulfilled | front-end/src/store/slices/productionSlice.ts:37-40 | not loading and the summary is the payload |
| ProductionSlice.ProductionState.Rejected | front-end/src/store/slices/productionSlice.ts:41-44 | not loading, the message or the default; the summary stays |
| ErrorHandler.Resolve | front-end/src/utils/errorHandler.ts:91-95 | each caller option overrides its default, field by field |
| ErrorHandler.Pow2 | front-end/src/utils/errorHandler.ts:19 | powers of two are at least 1 |
| ErrorHandler.RetryDelayMonotone | front-end/src/utils/errorHandler.ts:18-20 | base × 2^attempt grows with the attempt |
| ErrorHandler.Settle | front-end/src/utils/errorHandler.ts:101-124 | a response is returned as it is; a network error is thrown with its message |
| ErrorHandler.RetryFrom | front-end/src/utils/errorHandler.ts:99-129 | the loop stops at the first attempt that is not retried, or at the last one, and settles with it |
| ErrorHandler.Fetch | front-end/src/utils/errorHandler.ts:86-133 | at most maxRetries + 1 attempts; with a negative maxRetries nothing is fetched and it throws "Request failed after retries" |
| ErrorHandler.Delays | front-end/src/utils/errorHandler.ts:109-127 | the k-th wait is the k-th backoff delay |
| ErrorHandler.FetchWithRetry | front-end/src/utils/errorHandler.ts:86-133 | the loop answers the specified fetch and waits the backoff delay before each retry |
| ErrorHandler.ReturnsAtOnce | front-end/src/utils/errorHandler.ts:104-107 | an ok or non-retryable first response is returned after one call |
| ErrorHandler.ThrowsOnlyAtTheEnd | front-end/src/utils/errorHandler.ts:118-129 | the fetch throws iff the final attempt is a network error after every earlier attempt was retried |
| ErrorHandler.ParseErrorResponse | front-end/src/utils/errorHandler.ts:32-59 | the message comes from the body in each of its shapes, and the code is the status in decimal |
| ErrorHandler.ErrorCodeIsStatus | front-end/src/utils/errorHandler.ts:54-58 | the code reads back as the HTTP status |
| ErrorHandler.GetStatusMessage | front-end/src/utils/errorHandler.ts:64-81 | the table entry for a listed status, else "An error occurred (status)" |
| ErrorHandler.StatusTable | front-end/src/utils/errorHandler.ts:64-81 | the table lists exactly the twelve statuses, among them every default retryable status |
| ApiClient.TrimTrailingSlashes | front-end/src/services/api.ts:6 | every trailing '/' is removed and nothing else |
| ApiClient.ApiSuffixExcludesVersion | front-end/src/services/api.ts:8 | a URL ending in "/api" never ends in "/api/v1" |
| ApiClient.AppendVersionEnds | front-end/src/services/api.ts:9 | appending "/v1" to a URL ending in "/api" gives one ending in "/api/v1" |
| ApiClient.AddVersionNormalises | front-end/src/services/api.ts:7-10 | a URL ending in "/api" or "/api/v1" ends in "/api/v1" afterwards, and versioning twice changes nothing |
| ApiClient.ModuleBaseUrl | front-end/src/services/api.ts:5-10 | the base URL from the environment, or the default when unset or empty, never ends in '/' |
| ApiClient.ConstructorKeepsModuleUrl | front-end/src/services/api.ts:26-31 | the constructor leaves the module-level base URL as it is |
| ApiClient.ConstructorStripsOneSlash | front-end/src/services/api.ts:27 | the constructor strips one trailing slash where the module level strips them all |
| ApiClient.RequestUrl | front-end/src/services/api.ts:37 | the base, one '/', and the endpoint without its leading '/' |
| ApiClient.LeadingSlashOptional | front-end/src/services/api.ts:37 | "x" and "/x" give the same URL |
| ApiClient.Request | front-end/src/services/api.ts:52-83 | a non-ok response fails with its status and parsed error; a thrown error fails with status 0 and code NETWORK_ERROR |
| ApiClient.StatusZeroMeansNoResponse | front-end/src/services/api.ts:72-83 | with real HTTP statuses, and when a successful body parses, status 0 marks exactly the calls that never got a response |

## Left out

- Pessimistic locks, `@Version` optimistic locking and the StaleObjectStateException → ConcurrencyException path of `confirmProductionItem` are left out. They concern concurrent transactions, and the model is sequential. `Failure.Concurrency` still exists so that the resources' 409 mapping is modelled.
- ProductionPlanning.Bottleneck: Kotlin's `.toInt()` wrap-around on a floor quotient above Int.MAX_VALUE is not modelled. Quotients are unbounded integers, capped only by the Int.MAX_VALUE starting value.
- Integer overflow of `successCount`, `failureCount` and item quantities is not modelled; they are unbounded integers.
- RawMaterial.kt precision 10 of BigDecimal columns is not modelled; amounts are unbounded integer hundredths.
- Request amounts are assumed to be whole hundredths, since `Entities.Amount` counts hundredths. The request DTOs accept a BigDecimal of any scale. For example, `@Positive @DecimalMin("0.01")` lets `10.125` through. The `scale = 2` columns store such a value rounded, and every later read sees the rounded value. The create and update responses are built from the in-memory entity, so they return the unrounded value. Neither the rounding nor that mismatch is modelled, in ProductDto, RawMaterialDto or ProductRawMaterialService.Create and Update.
- BusinessMetrics counters are left out; they do not change what the services answer.
- The `@CacheResult` caches are left out, and cached reads can answer stale data. Confirming a production (ProductionService.kt:238) writes raw-material stock without evicting the "raw-material-by-code" or "raw-materials" cache, so a later `getByCode` or `getAll` can return the stock from before it. `update(code, request)` has two parameters and no `@CacheKey`, so its `@CacheInvalidate` key is the pair (code, request) (ProductService.kt:112, RawMaterialService.kt:98). That key never matches `getByCode`'s key `code`, so a read after an update can return the old name, value or stock. ProductService.GetByCode and RawMaterialService.GetByCode model a read of the current table, not of the cache.
- The `ConstraintViolation` messages of the services ("Product violates its constraints" and the like) are placeholders. The source's message is whatever text Hibernate Validator puts in its ConstraintViolationException, and ProductionsResource passes that text on in its 500 body ("An error occurred: " + message), so the model's 500 text differs.
- ErrorHandler.Resolve: a caller option present with the value `undefined` still overrides its default in `{...defaults, ...options}`; the model's `None` stands for an absent option only, so it cannot express that case.
- `getAll` and `searchByName` of the catalogue services are left out. They only map a database query's rows to views, and the full-text query is foreign.
- ProductRawMaterialService.GetByProductCode and ProductionConfirmation.ConfirmItem return a product's recipe lines in table order, which is insertion order, and an update keeps a line in place. The repository's `find("productCode", …).list()` has no ORDER BY, so the database decides the order, and in PostgreSQL an updated row can move. The model replaces the database's row order with table order. When several lines fail the stock check, this decides which one `confirmProductionItem` reports: CheckStockFirstFailure names the first failing line in table order, while the source reports the first in the database's order. Whether an item succeeds, and the stock it leaves, do not depend on the order: ConfirmItemSucceedsIff and ConfirmItemStock state both over all of the product's lines.
- ProductService.GetAllPaginated and RawMaterialService.GetAllPaginated take the sorted listing as an input: the table's rows, each once, in some order. The order Panache's `ORDER BY` produces is the database's, not modelled. Every page is cut from this one listing. The source runs a separate LIMIT/OFFSET query per page, and sorting on a non-unique field such as `name` or `value` has no tie-breaker. Tied rows can then come back in a different order from one query to the next, so the source can skip or repeat a row across pages. EveryProductOnAPage and EveryRawMaterialOnAPage hold only for one consistent listing.
- ProductService.GetAllPaginated and RawMaterialService.GetAllPaginated require page ≥ 0 and size ≥ 1. The resources take `PageRequest` as a `@BeanParam` with no `@Valid`, so the `@Min`/`@Max` annotations are not enforced and any size from 1 up is served, as the model does. A size ≤ 0 or a negative page makes Panache's `Page` or Hibernate's first-row offset throw, code outside this repository; that exception is not modelled. The Int overflow of page · size is not modelled either. The raw `sort` field is pasted into `ORDER BY $sortField $direction`. For a field the entity does not have, Hibernate rejects the query and the generic exception mapper answers 500. The model serves a page for every sort string.
- `@Size` counts UTF-16 code units; the model counts the characters of a `string`, so a name with characters outside the Basic Multilingual Plane counts shorter than Jakarta Validation counts it.
- The database-assigned production id and `Instant.now()` are parameters of `CreateProduction`.
- The JWT access token, UUID refresh tokens and the clock are parameters of the Auth functions. One instant `now` stands for each call, where the source reads the clock more than once.
- Auth.Login and Auth.Refresh do not check that the new refresh token is unused. A UUID collision is not modelled.
- Header names are exact strings; HTTP's case-insensitive header lookup is not modelled.
- The CORS response filter (CorsFilter.kt:56-63) has an empty body, so only the request filter is modelled.
- The JSON body of the 401/403 answers and the repository, exception-mapper, health, logging and JAX-RS wrapper files are not part of this model.
- Front-end numbers are carried as integers. JavaScript floating point is not modelled.
- The thunks' network calls are left out: `fetchProducts`, `createProduct` and the others. Only the reducer cases they trigger are modelled. Thunks without reducer cases, such as `searchByName` and `fetchByCode`, are left out.
- ErrorHandler.FetchWithRetry requires at least maxRetries + 1 attempt outcomes as input, the most the loop can use.
- `setTimeout` waiting is recorded as the sequence of delays the loop would wait; no time passes.
- `RequestInit` options and default-header merging in `request` are left out, since they do not change the result.
- ApiClient.Request does not model reading a successful response's JSON or text body. A failure to parse a successful body is not modelled either.
- `parseErrorResponse`'s JSON decoding is replaced by a datatype of body shapes: `ErrorHandler.ErrorBody`. The `details` field of the parsed error is left out; it is the parsed JSON body, or null otherwise. `ErrorHandler.ApiError` carries only the message and the code.
