# Cache-invalidating catalogue backend, in Dafny

This project models the catalogue core of an Express/MongoDB e-commerce backend. One process-wide key/value cache (`myCache`, a `NodeCache`) sits in front of the product, category and review collections.

- **Read handlers** are read-through. On a hit they answer from the cache. On a miss they query the store and cache the answer, sometimes with a one-hour TTL. A lookup of one product, one category or a search that finds nothing answers 404 and caches nothing; the review list of an unknown product is answered and cached as an empty list.
- **Write handlers** change the store, then hand a change descriptor (`InvalidateCacheProps`) to `invalidateCache`. The invalidator derives a set of cache keys from the descriptor and deletes them.
- **Helpers** in the same file:
  - `findAverageRatings` gives a product its review count and floored mean rating;
  - `getChartData` buckets documents by month;
  - `reduceStock` applies an order to stock levels.

The files:

- `types.dfy`: the declarations of `src/Types/types.ts` as datatypes. It also holds the JavaScript coercions the handlers rely on: truthiness, `Number(..)`, `Number(x)` with a fallback, the text `undefined` that a template literal prints for an absent id, and `String.prototype.trim`, which the product schema's `trim` setter applies to descriptions.
- `models.dfy`: the stored entities and first-match lookups. The `Store` class holds the collections in creation order; the write handlers reassign them.
- `json.dfy`: the documents the handlers send and cache, and the response shape.
- `cache.dfy`: the cache as a class over `map<string, Entry>`, with `has`, `get`, `set`, `del`, `del(keys)` and `keys()`.
- `features.dfy`:
  - the key namespace;
  - `StaleKeys`, which says which keys a descriptor removes;
  - `InvalidateCache`, written as the source runs it, rule by rule, and proved to delete exactly `StaleKeys`;
  - `findAverageRatings`, `getChartData` and `reduceStock` as loops proved against specification functions.
- `product_controller.dfy` and `category_controller.dfy`: every handler of the two controllers as a method over the cache and the store, together with:
  - the exact descriptor each write passes;
  - lemmas saying which cached keys survive each write;
  - two scenarios that show a stale read.

External inputs are parameters:
- `slugify`;
- the case-insensitive regex condition (`matches`);
- the MongoDB query with sort, limit and skip (`runQuery`);
- the message with which the database rejects a negative skip (`rejection`);
- the ids the store assigns to new documents;
- the uploaded photo paths.

Where the code behaves surprisingly, the model follows the code as written:
- six handlers call `invalidateCache` without awaiting it (`newProduct`, `updateProduct` and `deleteProduct` at src/Controllers/productController.ts:109, 149 and 173; `newCategory`, `updateCategory` and `deleteCategory` at src/Controllers/categoryController.ts:66, 83 and 100), while `newReview` and `deleteReview` await it (src/Controllers/productController.ts:458 and 495); each handler is modelled as one atomic step;
- the descriptors name only the ids passed in the code, so some cached keys stay stale (see below);
- `newReview` always answers 200 "Review Updated".

## Model

| member | source | states |
|---|---|---|
| Types.ToNumberExamples | src/Controllers/productController.ts:248 | `Number(..)` of a query value: absent is NaN, empty is 0, "25" is 25, "-7" is -7, "4a" is NaN |
| Types.TrimStart | src/Models/productModel.ts:16 | leading removal: a suffix of the input, every dropped character white space, the rest not starting with white space |
| Types.TrimEnd | src/Models/productModel.ts:16 | trailing removal: a prefix of the input, every dropped character white space, the rest not ending with white space |
| Types.TrimEnds | src/Models/productModel.ts:16 | `Trim`, the `trim` setter, built from `TrimStart` then `TrimEnd`: a trimmed string neither starts nor ends with white space |
| Types.TrimIdempotent | src/Models/productModel.ts:16 | trimming twice is trimming once |
| Types.TrimRemovesPadding | src/Models/productModel.ts:16 | a space on each side of a string that neither starts nor ends with white space is removed, and the string, inner spaces and all, comes back |
| Types.TrimBlankExample | src/Models/productModel.ts:16 | a string of white space only trims to the empty string |
| Types.OrDefault | src/Controllers/productController.ts:233-234 | `Number(x)` or-else a default is the number when it is a non-zero number, otherwise the fallback; a non-zero fallback gives a non-zero result |
| Models.IndexWhere | src/Controllers/productController.ts:52 | `findById`/`findOne` pick the first matching document; none is found only when no document matches |
| Models.Filter | src/Controllers/productController.ts:306 | `find(filter)` returns only matching documents and every matching document |
| Models.CategorySlugs | src/Utils/features.ts:62-67 | `Category.findById(id)` resolves exactly the stored ids, each to the slug of its category |
| Cache.NodeCache.Get | src/Controllers/productController.ts:18-19 | `get(key)` gives a value exactly when `has(key)` (the predicate `NodeCache.Has`, true iff the key is stored) holds, and that value is the stored one |
| Cache.NodeCache.Set | src/app.ts:28 | `set` inserts or overwrites one entry, recording its TTL, and changes nothing else |
| Cache.NodeCache.Del | src/Utils/features.ts:50 | `del(key)` removes that key, an absent key being a no-op |
| Cache.NodeCache.DelAll | src/Utils/features.ts:80 | `del(keys)` removes exactly the listed keys |
| Cache.NodeCache.Keys | src/Utils/features.ts:48 | `keys()` lists every stored key once |
| Features.PushEach | src/Utils/features.ts:45-46 | pushing `prefix + id` for each id adds exactly those keys to the array |
| Features.DelEach | src/Utils/features.ts:56-59 | deleting `related-products-{id}` per listed id removes exactly those keys |
| Features.SweepSearchKeys | src/Utils/features.ts:48-52 | the scan removes every key present that starts with `search-products-`, and only those |
| Features.DelCategorySlugs | src/Utils/features.ts:62-78 | each category id that resolves removes `category-{slug}` and `products-category-{slug}`; unresolved ids are skipped |
| Features.InvalidateProducts | src/Utils/features.ts:37-81 | the product rule removes exactly its key set, computed on the keys present when it starts |
| Features.InvalidateCategories | src/Utils/features.ts:82-99 | the category rule removes `all-categories`, `category-{id}` per id, and `products-category-{id}` only for a list |
| Features.InvalidateOrders | src/Utils/features.ts:100-108 | the order rule removes `all-orders`, `my-orders-{userId}` and `order-{orderId}` |
| Features.InvalidateAdmin | src/Utils/features.ts:109-116 | the admin rule removes the four `admin-*` keys |
| Features.InvalidateReviews | src/Utils/features.ts:117-123 | the review rule removes `reviews-{id}` per listed id, or else the one key `review-{reviewId}` |
| Features.InvalidateCache | src/Utils/features.ts:25-124 | the cache afterwards is the cache before minus exactly `StaleKeys`, the union of the rules whose flags are set; no other key is touched |
| Features.ProductChangeRemoves | src/Utils/features.ts:37-80 | with `product` set: both listings, `product-{id}` and `related-products-{id}` per id, every cached search whatever the ids, and both slug keys of each resolving category id |
| Features.UnresolvedCategorySkipped | src/Utils/features.ts:62-68 | a single category id that resolves to nothing adds no key |
| Features.UnresolvedListedCategorySkipped | src/Utils/features.ts:69-77 | an id in a list that resolves to nothing adds no key either |
| Features.CategoryChangeRemoves | src/Utils/features.ts:82-98 | `all-categories` and `category-{id}` are removed; `products-category-{id}` is removed if and only if the ids come as a list containing it |
| Features.ReviewChangeRemoves | src/Utils/features.ts:117-122 | a list removes `reviews-{id}` per id; a single id removes exactly `review-{id}`; no id removes exactly `review-undefined` |
| Features.OrderChangeRemoves | src/Utils/features.ts:100-107 | an absent user id or order id makes the rule remove `my-orders-undefined` or `order-undefined` |
| Features.RulesIndependent | src/Utils/features.ts:37-123 | the removed set is the union of the five flags taken one at a time, and no flag removes nothing |
| Features.MonthDiff | src/Utils/features.ts:182 | the month difference lies in 0..11 |
| Features.FindAverageRatings | src/Utils/features.ts:8-22 | the loop returns the number of the product's reviews and the floor of their mean rating, 0 when there are none |
| Features.FloorMeanIsFloor | src/Utils/features.ts:16 | `FloorMean`, the rating `Math.floor(total / count)` or 0: the largest m with m times the count at most the total |
| Features.FloorMeanBounds | src/Utils/features.ts:16 | the rating lies between the lowest and the highest rating given |
| Features.FloorMeanExamples | src/Utils/features.ts:8-22 | ratings 3, 4, 5 give 4; no ratings give 0 |
| Features.GetChartData | src/Utils/features.ts:178-194 | the array has `length` entries, and entry j holds `BucketSum`, the sum over documents `length-j-1` months old of their property, or their count |
| Features.ChartConservation | src/Utils/features.ts:182-191 | the entries add up to the contribution of every document less than `length` months old |
| Features.OldDocumentIgnored | src/Utils/features.ts:184 | a document `length` or more months old changes no entry |
| Features.ReduceStock | src/Utils/features.ts:126-134 | the loop leaves the store as the sequential specification `ReduceAll` does and reports "Product Not Found" exactly when that stops at an unknown product |
| Features.ReduceStockTotals | src/Utils/features.ts:126-134 | on success each product's stock drops by the total quantity ordered of it, with nothing else about the products changed |
| Features.ReduceStockFailure | src/Utils/features.ts:129-130 | the order fails if and only if some item names no product; it stops at the first such item, with every earlier item applied |
| Features.FailureStops | src/Utils/features.ts:130 | once the loop has thrown, later items change nothing |
| Features.StockMayGoNegative | src/Utils/features.ts:131 | no lower bound: one in stock and two ordered leave -1 |
| ProductController.NewProductRemoves | src/Controllers/productController.ts:109 | `newProduct` removes both listings, every search and the admin keys, and nothing else |
| ProductController.ProductEditRemoves | src/Controllers/productController.ts:149-153 | updating or deleting a product also removes its page and related list, and nothing else |
| ProductController.ReviewWriteRemoves | src/Controllers/productController.ts:458-462 | `newReview` removes the product keys and `review-undefined`, and nothing else |
| ProductController.ReviewWriteKeepsReviewList | src/Controllers/productController.ts:458-462 | `newReview` never removes `reviews-{productId}` |
| ProductController.ReviewDeleteKeepsReviewList | src/Controllers/productController.ts:495-499 | `deleteReview` never removes `reviews-{productId}` either |
| ProductController.WithoutCategoryKeepsCategoryKeys | src/Controllers/productController.ts:149-153 | a descriptor without the category flag or a category id, like every product write's, removes no `category-*` or `products-category-*` key |
| ProductController.LatestProducts | src/Controllers/productController.ts:21 | the eight newest products, newest first |
| ProductController.SearchResult | src/Controllers/productController.ts:338-346 | the products of every category whose name matches, if any category matches; otherwise the products whose name matches |
| ProductController.RelatedTo | src/Controllers/productController.ts:384-389 | the first eight products (or all, if fewer) of the same category, the product itself excluded |
| ProductController.GetLatestProducts | src/Controllers/productController.ts:15-29 | a hit answers the cached document and leaves the cache as it was; a miss caches the newest products without TTL |
| ProductController.GetAdminProducts | src/Controllers/productController.ts:31-44 | the same for `all-products` and every product |
| ProductController.GetSingleProduct | src/Controllers/productController.ts:46-63 | a hit answers the cached product; an unknown id answers 404 and caches nothing; a found product is cached without TTL |
| ProductController.ProductCategory | src/Controllers/productController.ts:292-317 | served from the cache only when both keys are there; an unknown slug answers 404 with neither key set; a miss sets both |
| ProductController.SearchData | src/Controllers/productController.ts:319-360 | an empty query answers 404; a hit answers the cache; an empty result answers 404 uncached; a result is cached for 3600 s |
| ProductController.RelatedProducts | src/Controllers/productController.ts:362-397 | a missing product or category answers 404 even when the related list is cached; a miss caches the related list for 3600 s |
| ProductController.AllReviewsOfProduct | src/Controllers/productController.ts:402-421 | the product's reviews are cached for 3600 s, an empty list included |
| ProductController.NewProduct | src/Controllers/productController.ts:65-116 | 400 without photos, 400 without every field, 401 for an unknown user, a description validation error with no change when the description trims to nothing, and otherwise the product appended (`NewProductDoc`) with its description trimmed, ratings 0 and the user as dealer, `{product, admin}` invalidated, 201 |
| ProductController.EditedProduct | src/Controllers/productController.ts:126-145 | only truthy fields overwrite (price 0 and stock 0 are ignored), a new name resets the slug, a new description is trimmed, a given discount always overwrites, the id, dealer and ratings stay |
| ProductController.EmptyEditChangesNothing | src/Controllers/productController.ts:126-145 | a request with no field and no upload leaves the product as it was |
| ProductController.EditIdempotent | src/Controllers/productController.ts:126-145 | sending the same edit twice has the effect of sending it once |
| ProductController.ZeroPriceIgnored | src/Controllers/productController.ts:139-140 | a price of 0 leaves the stored price unchanged, and a stock of 0 the stored stock, each whatever the other field holds |
| ProductController.DescriptionStaysTrimmed | src/Models/productModel.ts:13-17 | a created product's description is trimmed, and an edit of a trimmed description leaves it trimmed |
| ProductController.ApplyProductUpdate | src/Controllers/productController.ts:126-145 | the handler's assignments, one field at a time, make exactly that edit |
| ProductController.UpdateProduct | src/Controllers/productController.ts:118-159 | 404 and no change for an unknown id; a description validation error, with nothing saved or invalidated, when the edited description is empty; otherwise that product, and only it, is replaced by its edit, and `{product, productId, admin}` is invalidated |
| ProductController.DeleteProduct | src/Controllers/productController.ts:161-183 | 404 and no change for an unknown id; otherwise the product is removed and `{product, productId, admin}` invalidated |
| ProductController.UpsertReviewKeepsOnePerPair | src/Controllers/productController.ts:433-450 | `UpsertReview`, the update-or-create of the user's review: one review per user and product is kept, the pair's review carries the new rating and comment, and other reviews are untouched |
| ProductController.SaveRatings | src/Controllers/productController.ts:453-456 | the product's rating and review count become those `findAverageRatings` computes |
| ProductController.NewReview | src/Controllers/productController.ts:423-468 | 404 for an unknown user or product; otherwise the upsert, the re-rating, `{product, productId, review}` invalidated, and always 200 "Review Updated" |
| ProductController.DeleteReview | src/Controllers/productController.ts:470-505 | 404/404/401 without change; otherwise the review is removed and, if its product exists, the product re-rated and `{product, productId, admin}` invalidated, else 404 with the review already gone |
| ProductController.StaleReviewsAfterNewReview | src/Controllers/productController.ts:404-462 | a review list read after `newReview` answers exactly what it answered before |
| ProductController.SortOf | src/Controllers/productController.ts:271 | no sort for a missing or empty `sort`; by price ascending if and only if `sort` is "asc", otherwise descending |
| ProductController.BaseQueryConditions | src/Controllers/productController.ts:237-268 | each filter is present if and only if its parameter is truthy, regexes case-insensitive, price an upper and discount and ratings lower bounds |
| ProductController.BuildBaseQuery | src/Controllers/productController.ts:237-268 | the field-by-field construction yields that filter |
| ProductController.LimitOf | src/Controllers/productController.ts:234 | the page size is never 0 |
| ProductController.PageDefaults | src/Controllers/productController.ts:233 | a missing, empty, zero or non-numeric page is 1; any other number is taken as given |
| ProductController.TotalPageBounds | src/Controllers/productController.ts:280 | `totalPage`, `CeilDiv(count, limit)` as `Math.ceil` gives it, is the least number of pages holding every match |
| ProductController.EveryMatchOnAPage | src/Controllers/productController.ts:233-280 | every matching position lies on a page no later than `totalPage`, within that page's skip and limit |
| ProductController.PagingExample | src/Controllers/productController.ts:233-280 | `PageOf`, `LimitOf` and `SkipOf` (`(page - 1) * limit`): page "3" of eight skips sixteen; seventeen matches need three pages |
| ProductController.NegativeSkip | src/Controllers/productController.ts:233-235 | the skip is negative exactly when a page below 1 meets a positive page size or a page above 1 a negative one |
| ProductController.NegativePageExample | src/Controllers/productController.ts:233-235 | `?page=-1` gives page -1 and, with the default page size, a skip of -16 |
| ProductController.GetAllProducts | src/Controllers/productController.ts:229-288 | a negative skip, which the database rejects, throws its rejection; otherwise the page is queried with the built filter, sort, limit and skip, and `totalPage` counts the matches |
| CategoryController.NewCategoryRemoves | src/Controllers/categoryController.ts:66 | `newCategory` removes `all-categories` only |
| CategoryController.CategoryEditRemoves | src/Controllers/categoryController.ts:83 | a category edit removes `all-categories`, `category-{id}` and the admin keys |
| CategoryController.CategoryEditKeepsSlugKeys | src/Controllers/categoryController.ts:30-83 | `category-{slug}` is removed if and only if the slug equals the id; `products-category-{slug}` never is |
| CategoryController.GetAllCategories | src/Controllers/categoryController.ts:10-24 | a hit answers the cache unchanged; a miss caches every category without TTL |
| CategoryController.GetCategory | src/Controllers/categoryController.ts:26-44 | cached under `category-{slug}`; an unknown slug answers 404 and caches nothing |
| CategoryController.NewCategory | src/Controllers/categoryController.ts:46-72 | 400 without a name; 200 `success: false` with no change for a taken slug; otherwise created, `all-categories` removed, 201 |
| CategoryController.UpdateCategory | src/Controllers/categoryController.ts:74-89 | a missing name throws in `slugify`, an empty one fails validation, an unknown id answers 404 without invalidating; otherwise renamed in place and `{category, categoryId, admin}` invalidated |
| CategoryController.DeleteCategory | src/Controllers/categoryController.ts:91-105 | 404 without invalidating, or removed and `{category, categoryId, admin}` invalidated |
| CategoryController.StaleCategoryAfterUpdate | src/Controllers/categoryController.ts:30-83 | when the slug is not the id, a category page read after an update answers exactly what it answered before |

## Left out

- `calculatePercentage` and `getInventories`: floating-point ratios with `toFixed` and `Math.round`, and a concurrent fan-out of counts.
- TTL expiry: the TTL is recorded with each entry, but entries never expire in the model, and no clock is modelled.
- Cached values are kept as documents rather than JSON text: `JSON.parse(JSON.stringify(x))` is taken to give back `x`.
- MongoDB query execution is outside the model:
  - regex matching is the `matches` parameter;
  - `getAllProducts`' sorted, limited and skipped query is the `runQuery` parameter;
  - `populate` joins are not modelled;
  - the review list is in store order rather than sorted by `updatedAt`.
- `slugify` is a parameter. The schema's `lowercase` setter on category slugs is not applied: slugs are compared as given.
- Schema validation and id casting: a malformed id or a value the schema rejects would throw. The modelled cases are the empty name on `updateCategory` and the description that trims to nothing on `newProduct` and `updateProduct`.
- NewProduct: a slug that `slugify` leaves empty or a user with an empty name would fail the `slug` or `dealer` validator; those failures are not modelled.
- The error middleware (`errorMiddleware` and `TryCatch`, imported from `./Middlewares/error.js` at src/app.ts:3 and installed at src/app.ts:50) is not modelled: an error thrown inside a handler is taken to answer status 500 with the error's message.
- Photo files (`rm`, multer uploads) are I/O. The upload is its list of paths.
- Routing, authentication middleware, server start-up and the database connection are glue and I/O.
- Concurrency: six handlers do not await `invalidateCache` (all but `newReview` and `deleteReview`), and requests interleave at every store call. Each handler is modelled as one atomic sequential step.
- Numbers are whole numbers. Prices, quantities and ratings with a fraction, and multipart bodies whose numbers arrive as strings, are not modelled.
- Types.ToNumber: only decimal integers with an optional minus sign are parsed. Whitespace, fractions, exponents, hexadecimal and `Infinity` give NaN in the model.
- Features.GetChartData: a document whose chosen property is null or missing is not modelled. Every document carries whole-number `discount` and `total` values.
- Features.ReduceStock: each `save` is modelled as an immediate update of the store, and save failures are not modelled.
- Models.Filter: states which documents are returned but not that store order is kept.
- ProductController.RelatedTo: states how many products of the category other than the product are returned, not which ones: the database's order is not modelled.
- ProductController.GetAllProducts: the page contents are whatever `runQuery` returns. Only the filter, sort, limit, skip and `totalPage` are stated. The database's message for a negative skip is the `rejection` parameter. A `search` or `brand` value that is not a valid regular expression, which the database also rejects, is not modelled. A `price`, `discount` or `ratings` value that `Number` turns into NaN fails the database's number cast, and the handler answers 500; the model answers 200 with `runQuery`'s page.
- ProductController.SearchData: a `query` that is not a valid regular expression, which the database rejects, is not modelled.
- The order and admin-statistics handlers, the only callers of the `order` rule and the cached `admin-*` keys, are not part of this model.
