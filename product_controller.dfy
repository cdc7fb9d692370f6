// src/Controllers/productController.ts: the read-through handlers over the
// process-wide cache, the write handlers together with the change descriptor
// each one hands to the invalidator, and the paging arithmetic of the listing.
module ProductController {
  import opened Types
  import opened Models
  import opened Json
  import opened Cache
  import opened Features

  /** `.limit(8)` of the latest and the related listings. */
  const LISTING_LIMIT := 8

  /** The TTL of searches, related products and review lists. */
  const ONE_HOUR := Seconds(3600)

  // ---------------------------------------------------------------------
  // The change descriptors of the write handlers. None of them carries a
  // category id or a review id.
  // ---------------------------------------------------------------------

  /** `newProduct`: `{ product: true, admin: true }`. */
  const NEW_PRODUCT_CHANGE := NO_CHANGE.(product := true, admin := true)

  /** `updateProduct`, `deleteProduct` and `deleteReview`: `{ product: true, productId, admin: true }`. */
  function ProductEditChange(productId: string): InvalidateCacheProps
  {
    NO_CHANGE.(product := true, productId := One(productId), admin := true)
  }

  /** `newReview`: `{ product: true, productId, review: true }`. */
  function ReviewWriteChange(productId: string): InvalidateCacheProps
  {
    NO_CHANGE.(product := true, productId := One(productId), review := true)
  }

  /** A new product clears both listings, every search and the admin statistics, and nothing else. */
  lemma NewProductRemoves(slugOf: map<string, string>, present: set<string>)
    ensures StaleKeys(NEW_PRODUCT_CHANGE, slugOf, present)
         == {LATEST_PRODUCTS, ALL_PRODUCTS} + SearchKeys(present) + AdminRuleKeys()
  {
    assert Slugs([], slugOf) == {};
  }

  /** Editing or deleting a product also clears that product's page and related list. */
  lemma ProductEditRemoves(productId: string, slugOf: map<string, string>, present: set<string>)
    ensures StaleKeys(ProductEditChange(productId), slugOf, present)
         == {LATEST_PRODUCTS, ALL_PRODUCTS, PRODUCT_PREFIX + productId, RELATED_PREFIX + productId}
            + SearchKeys(present) + AdminRuleKeys()
  {
    var d := ProductEditChange(productId);
    ProductRuleOfOne(d, productId, slugOf, present);
    assert StaleKeys(d, slugOf, present) == ProductRuleKeys(d, slugOf, present) + AdminRuleKeys();
  }

  /** The product rule for one product id and no category id. */
  lemma ProductRuleOfOne(d: InvalidateCacheProps, productId: string, slugOf: map<string, string>, present: set<string>)
    requires d.productId == One(productId) && d.categoryId.Absent?
    ensures ProductRuleKeys(d, slugOf, present)
         == {LATEST_PRODUCTS, ALL_PRODUCTS, PRODUCT_PREFIX + productId, RELATED_PREFIX + productId} + SearchKeys(present)
  {
    PrefixedOne(PRODUCT_PREFIX, productId);
    PrefixedOne(RELATED_PREFIX, productId);
    assert Slugs([], slugOf) == {};
  }

  /**
   * A review write clears what a product edit clears except the admin
   * statistics, plus the key `review-undefined`.
   */
  lemma ReviewWriteRemoves(productId: string, slugOf: map<string, string>, present: set<string>)
    ensures StaleKeys(ReviewWriteChange(productId), slugOf, present)
         == {LATEST_PRODUCTS, ALL_PRODUCTS, PRODUCT_PREFIX + productId, RELATED_PREFIX + productId, "review-undefined"}
            + SearchKeys(present)
  {
    var d := ReviewWriteChange(productId);
    ProductRuleOfOne(d, productId, slugOf, present);
    assert ReviewRuleKeys(d) == {"review-undefined"} by {
      assert REVIEW_PREFIX + "undefined" == "review-undefined";
    }
    assert StaleKeys(d, slugOf, present) == ProductRuleKeys(d, slugOf, present) + ReviewRuleKeys(d);
  }

  /** A review write never clears the product's cached review list `reviews-{productId}`. */
  lemma ReviewWriteKeepsReviewList(productId: string, slugOf: map<string, string>, present: set<string>)
    ensures REVIEWS_PREFIX + productId !in StaleKeys(ReviewWriteChange(productId), slugOf, present)
  {
    var d := ReviewWriteChange(productId);
    assert StaleKeys(d, slugOf, present) == ProductRuleKeys(d, slugOf, present) + ReviewRuleKeys(d);
    assert REVIEW_PREFIX + "undefined" == "review-undefined";
    DistinctFromName(REVIEWS_PREFIX, productId, "review-undefined", 6);
    ReviewListOutsideProductRule(productId, slugOf, present);
  }

  /**
   * Deleting a review never clears the product's cached review list either:
   * `deleteReview` passes the product-edit descriptor, which has no review flag.
   */
  lemma ReviewDeleteKeepsReviewList(productId: string, slugOf: map<string, string>, present: set<string>)
    ensures REVIEWS_PREFIX + productId !in StaleKeys(ProductEditChange(productId), slugOf, present)
  {
    var d := ProductEditChange(productId);
    assert StaleKeys(d, slugOf, present) == ProductRuleKeys(d, slugOf, present) + AdminRuleKeys();
    assert ProductRuleKeys(d, slugOf, present) == ProductRuleKeys(ReviewWriteChange(productId), slugOf, present);
    ReviewListOutsideProductRule(productId, slugOf, present);
    forall name | name in ADMIN_KEYS
      ensures REVIEWS_PREFIX + productId != name
    {
      DistinctFromName(REVIEWS_PREFIX, productId, name, 0);
    }
  }

  lemma ReviewListOutsideProductRule(productId: string, slugOf: map<string, string>, present: set<string>)
    ensures REVIEWS_PREFIX + productId !in ProductRuleKeys(ReviewWriteChange(productId), slugOf, present)
  {
    PrefixedOne(PRODUCT_PREFIX, productId);
    PrefixedOne(RELATED_PREFIX, productId);
    DistinctKeys(REVIEWS_PREFIX, productId, PRODUCT_PREFIX, productId, 0);
    DistinctKeys(REVIEWS_PREFIX, productId, RELATED_PREFIX, productId, 2);
    assert Slugs([], slugOf) == {};
    DistinctFromName(REVIEWS_PREFIX, productId, LATEST_PRODUCTS, 0);
    DistinctFromName(REVIEWS_PREFIX, productId, ALL_PRODUCTS, 0);
    NotStartsWith(REVIEWS_PREFIX, productId, SEARCH_PREFIX, 0);
  }

  /**
   * A descriptor with neither the category flag nor a category id removes no
   * `category-*` and no `products-category-*` key, whatever its other flags:
   * none of the product write handlers touches a cached category listing.
   */
  lemma WithoutCategoryKeepsCategoryKeys(d: InvalidateCacheProps, slugOf: map<string, string>, present: set<string>, slug: string)
    requires !d.category && d.categoryId.Absent?
    ensures CATEGORY_PREFIX + slug !in StaleKeys(d, slugOf, present)
    ensures PRODUCTS_CATEGORY_PREFIX + slug !in StaleKeys(d, slugOf, present)
  {
    assert Slugs([], slugOf) == {};
    KeepsFamily(d, slugOf, present, CATEGORY_PREFIX, slug);
    KeepsFamily(d, slugOf, present, PRODUCTS_CATEGORY_PREFIX, slug);
  }

  lemma KeepsFamily(d: InvalidateCacheProps, slugOf: map<string, string>, present: set<string>, p: string, slug: string)
    requires !d.category && d.categoryId.Absent?
    requires p == CATEGORY_PREFIX || p == PRODUCTS_CATEGORY_PREFIX
    ensures p + slug !in StaleKeys(d, slugOf, present)
  {
    KeepsFamilyProductRule(d, slugOf, present, p, slug);
    KeepsFamilyOtherRules(d, p, slug);
  }

  lemma KeepsFamilyProductRule(d: InvalidateCacheProps, slugOf: map<string, string>, present: set<string>, p: string, slug: string)
    requires d.categoryId.Absent?
    requires p == CATEGORY_PREFIX || p == PRODUCTS_CATEGORY_PREFIX
    ensures p + slug !in ProductRuleKeys(d, slugOf, present)
  {
    assert Slugs([], slugOf) == {};
    var key := p + slug;
    DistinctFromName(p, slug, LATEST_PRODUCTS, 0);
    DistinctFromName(p, slug, ALL_PRODUCTS, 0);
    forall id | id in IdList(d.productId)
      ensures key != PRODUCT_PREFIX + id && key != RELATED_PREFIX + id
    {
      DistinctKeys(p, slug, PRODUCT_PREFIX, id, if p == CATEGORY_PREFIX then 0 else 7);
      DistinctKeys(p, slug, RELATED_PREFIX, id, 0);
    }
    NotStartsWith(p, slug, SEARCH_PREFIX, 0);
  }

  lemma KeepsFamilyOtherRules(d: InvalidateCacheProps, p: string, slug: string)
    requires p == CATEGORY_PREFIX || p == PRODUCTS_CATEGORY_PREFIX
    ensures p + slug !in OrderRuleKeys(d) + AdminRuleKeys() + ReviewRuleKeys(d)
  {
    var key := p + slug;
    DistinctFromName(p, slug, ALL_ORDERS, 0);
    DistinctKeys(p, slug, MY_ORDERS_PREFIX, Interpolate(d.userId), 0);
    DistinctKeys(p, slug, ORDER_PREFIX, Interpolate(d.orderId), 0);
    forall a | a in ADMIN_KEYS ensures key != a {
      DistinctFromName(p, slug, a, 0);
    }
    forall id | id in IdList(d.reviewId) ensures key != REVIEWS_PREFIX + id {
      DistinctKeys(p, slug, REVIEWS_PREFIX, id, 0);
    }
    DistinctKeys(p, slug, REVIEW_PREFIX, ReviewIdText(d.reviewId), 0);
  }

  // ---------------------------------------------------------------------
  // Store queries the read handlers issue on a miss.
  // ---------------------------------------------------------------------

  function Min(a: int, b: int): int
  {
    if a <= b then a else b
  }

  /** `.limit(n)`: the first `n` elements. */
  function Take<T>(s: seq<T>, n: nat): (r: seq<T>)
    ensures |r| == Min(|s|, n) && r == s[..|r|]
  {
    if |s| <= n then s else s[..n]
  }

  function Reverse<T>(s: seq<T>): (r: seq<T>)
    ensures |r| == |s| && forall i :: 0 <= i < |s| ==> r[i] == s[|s| - 1 - i]
  {
    if s == [] then [] else Reverse(s[1..]) + [s[0]]
  }

  /** `Product.find({}).sort({ createdAt: -1 }).limit(8)`: the eight newest products, newest first. */
  function LatestProducts(ps: seq<Product>): (r: seq<Product>)
    ensures |r| == Min(|ps|, LISTING_LIMIT)
    ensures forall i :: 0 <= i < |r| ==> r[i] == ps[|ps| - 1 - i]
  {
    Take(Reverse(ps), LISTING_LIMIT)
  }

  /** `Product.find({ category })`: the products of one category, in store order. */
  function ProductsIn(ps: seq<Product>, categoryId: string): seq<Product>
  {
    Filter(ps, (p: Product) => p.category == categoryId)
  }

  /** A product belongs to a category whose name matches the query. */
  predicate InMatchingCategory(cs: seq<Category>, query: string, matches: (string, string) -> bool, p: Product)
  {
    exists j :: 0 <= j < |cs| && matches(query, cs[j].name) && cs[j].id == p.category
  }

  /**
   * What `searchData` finds: the products whose name matches, unless some
   * category's name matches, in which case the products of every matching
   * category instead.
   */
  function SearchResult(ps: seq<Product>, cs: seq<Category>, query: string, matches: (string, string) -> bool): (r: seq<Product>)
    ensures (exists j :: 0 <= j < |cs| && matches(query, cs[j].name)) ==>
              (forall i :: 0 <= i < |r| ==> InMatchingCategory(cs, query, matches, r[i]))
              && (forall i :: 0 <= i < |ps| && InMatchingCategory(cs, query, matches, ps[i]) ==> ps[i] in r)
    ensures (forall j :: 0 <= j < |cs| ==> !matches(query, cs[j].name)) ==>
              (forall i :: 0 <= i < |r| ==> matches(query, r[i].name))
              && (forall i :: 0 <= i < |ps| && matches(query, ps[i].name) ==> ps[i] in r)
  {
    var categories := Filter(cs, (c: Category) => matches(query, c.name));
    if |categories| > 0 then
      assert categories[0] in cs;
      Filter(ps, (p: Product) => InMatchingCategory(cs, query, matches, p))
    else
      assert forall j :: 0 <= j < |cs| ==> !matches(query, cs[j].name);
      Filter(ps, (p: Product) => matches(query, p.name))
  }

  /** Up to eight other products of the same category. */
  function RelatedTo(ps: seq<Product>, categoryId: string, productId: string): (r: seq<Product>)
    ensures |r| == Min(|Filter(ps, (p: Product) => p.category == categoryId && p.id != productId)|, LISTING_LIMIT)
    ensures r == Filter(ps, (p: Product) => p.category == categoryId && p.id != productId)[..|r|]
    ensures forall i :: 0 <= i < |r| ==> r[i] in ps && r[i].category == categoryId && r[i].id != productId
  {
    Take(Filter(ps, (p: Product) => p.category == categoryId && p.id != productId), LISTING_LIMIT)
  }

  // ---------------------------------------------------------------------
  // Read-through handlers. A hit answers from the cache and leaves it as it
  // was; a miss answers from the store and caches the answer. A lookup of
  // one product, category or search that finds nothing answers 404 and
  // caches nothing; the review list of an unknown product is cached empty.
  // ---------------------------------------------------------------------

  /** `getlatestProducts`, cached without TTL under `latest-products`. */
  method GetLatestProducts(cache: NodeCache, store: Store) returns (res: Response)
    modifies cache
    ensures LATEST_PRODUCTS in old(cache.entries) ==>
              cache.entries == old(cache.entries)
              && res == Response(200, true, Data(old(cache.entries)[LATEST_PRODUCTS].value))
    ensures LATEST_PRODUCTS !in old(cache.entries) ==>
              var doc := ProductList(LatestProducts(store.products));
              cache.entries == old(cache.entries)[LATEST_PRODUCTS := Entry(doc, NoExpiry)]
              && res == Response(200, true, Data(doc))
  {
    var products: Doc;
    if cache.Has(LATEST_PRODUCTS) {
      products := cache.Get(LATEST_PRODUCTS).value;
    } else {
      products := ProductList(LatestProducts(store.products));
      cache.Set(LATEST_PRODUCTS, products, NoExpiry);
    }
    return Response(200, true, Data(products));
  }

  /** `getAdminProducts`: every product, cached without TTL under `all-products`. */
  method GetAdminProducts(cache: NodeCache, store: Store) returns (res: Response)
    modifies cache
    ensures ALL_PRODUCTS in old(cache.entries) ==>
              cache.entries == old(cache.entries)
              && res == Response(200, true, Data(old(cache.entries)[ALL_PRODUCTS].value))
    ensures ALL_PRODUCTS !in old(cache.entries) ==>
              cache.entries == old(cache.entries)[ALL_PRODUCTS := Entry(ProductList(store.products), NoExpiry)]
              && res == Response(200, true, Data(ProductList(store.products)))
  {
    var products: Doc;
    if cache.Has(ALL_PRODUCTS) {
      products := cache.Get(ALL_PRODUCTS).value;
    } else {
      products := ProductList(store.products);
      cache.Set(ALL_PRODUCTS, products, NoExpiry);
    }
    return Response(200, true, Data(products));
  }

  /** `getSingleProduct`, cached without TTL under `product-{id}`. */
  method GetSingleProduct(cache: NodeCache, store: Store, id: string) returns (res: Response)
    modifies cache
    ensures PRODUCT_PREFIX + id in old(cache.entries) ==>
              cache.entries == old(cache.entries)
              && res == Response(200, true, Data(old(cache.entries)[PRODUCT_PREFIX + id].value))
    ensures PRODUCT_PREFIX + id !in old(cache.entries) && ProductById(store.products, id).None? ==>
              cache.entries == old(cache.entries) && res == Error(404, "Product Not Found")
    ensures PRODUCT_PREFIX + id !in old(cache.entries) && ProductById(store.products, id).Some? ==>
              var doc := ProductDoc(store.products[ProductById(store.products, id).value]);
              cache.entries == old(cache.entries)[PRODUCT_PREFIX + id := Entry(doc, NoExpiry)]
              && res == Response(200, true, Data(doc))
  {
    var key := PRODUCT_PREFIX + id;
    var product: Doc;
    if cache.Has(key) {
      product := cache.Get(key).value;
    } else {
      var found := ProductById(store.products, id);
      if found.None? {
        return Error(404, "Product Not Found");
      }
      product := ProductDoc(store.products[found.value]);
      cache.Set(key, product, NoExpiry);
    }
    return Response(200, true, Data(product));
  }

  /**
   * `productCategoryController`: answered from the cache only when both
   * `category-{slug}` and `products-category-{slug}` are there; a miss sets
   * both, an unknown slug sets neither.
   */
  method ProductCategory(cache: NodeCache, store: Store, slug: string) returns (res: Response)
    modifies cache
    ensures CATEGORY_PREFIX + slug in old(cache.entries) && PRODUCTS_CATEGORY_PREFIX + slug in old(cache.entries) ==>
              cache.entries == old(cache.entries)
              && res == Response(200, true, CategoryAndProducts(old(cache.entries)[CATEGORY_PREFIX + slug].value,
                                                                old(cache.entries)[PRODUCTS_CATEGORY_PREFIX + slug].value))
    ensures !(CATEGORY_PREFIX + slug in old(cache.entries) && PRODUCTS_CATEGORY_PREFIX + slug in old(cache.entries))
            && CategoryBySlug(store.categories, slug).None? ==>
              cache.entries == old(cache.entries) && res == Error(404, "Category not found")
    ensures !(CATEGORY_PREFIX + slug in old(cache.entries) && PRODUCTS_CATEGORY_PREFIX + slug in old(cache.entries))
            && CategoryBySlug(store.categories, slug).Some? ==>
              var c := store.categories[CategoryBySlug(store.categories, slug).value];
              var products := ProductList(ProductsIn(store.products, c.id));
              cache.entries == old(cache.entries)[CATEGORY_PREFIX + slug := Entry(CategoryDoc(c), NoExpiry)]
                                                 [PRODUCTS_CATEGORY_PREFIX + slug := Entry(products, NoExpiry)]
              && res == Response(200, true, CategoryAndProducts(CategoryDoc(c), products))
  {
    var categoryKey, productsKey := CATEGORY_PREFIX + slug, PRODUCTS_CATEGORY_PREFIX + slug;
    var category: Doc;
    var products: Doc;
    if cache.Has(categoryKey) && cache.Has(productsKey) {
      category := cache.Get(categoryKey).value;
      products := cache.Get(productsKey).value;
    } else {
      var found := CategoryBySlug(store.categories, slug);
      if found.None? {
        return Error(404, "Category not found");
      }
      var c := store.categories[found.value];
      category := CategoryDoc(c);
      products := ProductList(ProductsIn(store.products, c.id));
      cache.Set(categoryKey, category, NoExpiry);
      cache.Set(productsKey, products, NoExpiry);
    }
    return Response(200, true, CategoryAndProducts(category, products));
  }

  /**
   * `searchData`: an empty query and an empty result both answer 404, and an
   * empty result is not cached; a result is cached for an hour under
   * `search-products-{query}`. `matches(query, name)` stands for the
   * case-insensitive regex condition.
   */
  method SearchData(cache: NodeCache, store: Store, query: Option<string>, matches: (string, string) -> bool)
    returns (res: Response)
    modifies cache
    ensures !TruthyString(query) ==>
              cache.entries == old(cache.entries) && res == Response(404, false, Message("No products found"))
    ensures TruthyString(query) && SEARCH_PREFIX + query.value in old(cache.entries) ==>
              cache.entries == old(cache.entries)
              && res == Response(200, true, Data(old(cache.entries)[SEARCH_PREFIX + query.value].value))
    ensures TruthyString(query) && SEARCH_PREFIX + query.value !in old(cache.entries) ==>
              var found := SearchResult(store.products, store.categories, query.value, matches);
              if found == [] then
                cache.entries == old(cache.entries) && res == Response(404, false, Message("No products found"))
              else
                cache.entries == old(cache.entries)[SEARCH_PREFIX + query.value := Entry(ProductList(found), ONE_HOUR)]
                && res == Response(200, true, Data(ProductList(found)))
  {
    if !TruthyString(query) {
      return Response(404, false, Message("No products found"));
    }
    var cacheKey := SEARCH_PREFIX + query.value;
    if cache.Has(cacheKey) {
      return Response(200, true, Data(cache.Get(cacheKey).value));
    }
    var products := SearchResult(store.products, store.categories, query.value, matches);
    if |products| == 0 {
      return Response(404, false, Message("No products found"));
    }
    cache.Set(cacheKey, ProductList(products), ONE_HOUR);
    return Response(200, true, Data(ProductList(products)));
  }

  /**
   * `relatedProductController`: the product and its category are looked up
   * before the cache, so either missing answers 404 even when
   * `related-products-{productId}` is cached.
   */
  method RelatedProducts(cache: NodeCache, store: Store, productId: string) returns (res: Response)
    modifies cache
    ensures ProductById(store.products, productId).None? ==>
              cache.entries == old(cache.entries) && res == Error(404, "Product not found")
    ensures ProductById(store.products, productId).Some? ==>
              var p := store.products[ProductById(store.products, productId).value];
              var key := RELATED_PREFIX + productId;
              if CategoryById(store.categories, p.category).None? then
                cache.entries == old(cache.entries) && res == Error(404, "Category not found for the product")
              else if key in old(cache.entries) then
                cache.entries == old(cache.entries) && res == Response(200, true, Data(old(cache.entries)[key].value))
              else
                var related := ProductList(RelatedTo(store.products, p.category, productId));
                cache.entries == old(cache.entries)[key := Entry(related, ONE_HOUR)]
                && res == Response(200, true, Data(related))
  {
    var found := ProductById(store.products, productId);
    if found.None? {
      return Error(404, "Product not found");
    }
    var product := store.products[found.value];
    if CategoryById(store.categories, product.category).None? {
      return Error(404, "Category not found for the product");
    }
    var cacheKey := RELATED_PREFIX + productId;
    if cache.Has(cacheKey) {
      return Response(200, true, Data(cache.Get(cacheKey).value));
    }
    var relatedProducts := ProductList(RelatedTo(store.products, product.category, productId));
    cache.Set(cacheKey, relatedProducts, ONE_HOUR);
    return Response(200, true, Data(relatedProducts));
  }

  /** `allReviewsOfProduct`: cached for an hour under `reviews-{id}`, an empty list included. */
  method AllReviewsOfProduct(cache: NodeCache, store: Store, id: string) returns (res: Response)
    modifies cache
    ensures REVIEWS_PREFIX + id in old(cache.entries) ==>
              cache.entries == old(cache.entries)
              && res == Response(200, true, Data(old(cache.entries)[REVIEWS_PREFIX + id].value))
    ensures REVIEWS_PREFIX + id !in old(cache.entries) ==>
              var doc := ReviewList(ReviewsOf(store.reviews, id));
              cache.entries == old(cache.entries)[REVIEWS_PREFIX + id := Entry(doc, ONE_HOUR)]
              && res == Response(200, true, Data(doc))
  {
    var cacheKey := REVIEWS_PREFIX + id;
    var reviews: Doc;
    if cache.Has(cacheKey) {
      reviews := cache.Get(cacheKey).value;
    } else {
      reviews := ReviewList(ReviewsOf(store.reviews, id));
      cache.Set(cacheKey, reviews, ONE_HOUR);
    }
    return Response(200, true, Data(reviews));
  }

  // ---------------------------------------------------------------------
  // Write handlers. Each changes the store, then hands its descriptor to
  // the invalidator, which resolves category ids against the store as it is
  // after the write.
  // ---------------------------------------------------------------------

  /** `User.findById(req.query.id)` finds a user. */
  predicate KnownUser(users: map<string, User>, userId: Option<string>)
  {
    userId.Some? && userId.value in users
  }

  /** `!name || !price || !stock || !description || !category || !brand` is false. */
  predicate AllFieldsGiven(body: NewProductRequestBody)
  {
    TruthyString(body.name) && TruthyNumber(body.price) && TruthyNumber(body.stock)
    && TruthyString(body.description) && TruthyString(body.category) && TruthyString(body.brand)
  }

  /** The message of the validation error raised when the trimmed description is empty. */
  const DESCRIPTION_REQUIRED := "Product validation failed: description: Please enter description"

  /**
   * The document `Product.create` stores: ratings and review count start at
   * 0, the dealer is the user's name, and the schema's `trim` setter trims
   * the description.
   */
  function NewProductDoc(id: string, body: NewProductRequestBody, photos: seq<string>, dealer: string,
                         slugify: string -> string): Product
    requires AllFieldsGiven(body)
  {
    Product(id, body.name.value, slugify(body.name.value), Trim(body.description.value), photos, body.category.value,
            body.price.value, body.stock.value, 0, 0, body.discount, body.brand.value, dealer)
  }

  /**
   * `newProduct`. `photos` are the paths of the uploaded files, `newId` the
   * id the store assigns and `slugify` the slug library.
   */
  method NewProduct(cache: NodeCache, store: Store, body: NewProductRequestBody, photos: seq<string>,
                    userId: Option<string>, newId: string, slugify: string -> string) returns (res: Response)
    modifies cache, store
    ensures photos == [] ==>
              res == Error(400, "Please upload at least one photo") && unchanged(cache) && unchanged(store)
    ensures photos != [] && !AllFieldsGiven(body) ==>
              res == Error(400, "All the fields are mandatory") && unchanged(cache) && unchanged(store)
    ensures photos != [] && AllFieldsGiven(body) && !KnownUser(old(store.users), userId) ==>
              res == Error(401, "Invalid Credentials") && unchanged(cache) && unchanged(store)
    ensures photos != [] && AllFieldsGiven(body) && KnownUser(old(store.users), userId)
            && Trim(body.description.value) == "" ==>
              res == Thrown(DESCRIPTION_REQUIRED) && unchanged(cache) && unchanged(store)
    ensures photos != [] && AllFieldsGiven(body) && KnownUser(old(store.users), userId)
            && Trim(body.description.value) != "" ==>
              && store.products == old(store.products)
                   + [NewProductDoc(newId, body, photos, old(store.users)[userId.value].name, slugify)]
              && store.categories == old(store.categories) && store.reviews == old(store.reviews)
              && store.users == old(store.users)
              && cache.entries == old(cache.entries)
                   - StaleKeys(NEW_PRODUCT_CHANGE, CategorySlugs(store.categories), old(cache.entries).Keys)
              && res == Response(201, true, Message("Product Created Successfully"))
  {
    if photos == [] {
      return Error(400, "Please upload at least one photo");
    }
    if !AllFieldsGiven(body) {
      return Error(400, "All the fields are mandatory");
    }
    if !KnownUser(store.users, userId) {
      return Error(401, "Invalid Credentials");
    }
    var dealer := store.users[userId.value].name;
    if Trim(body.description.value) == "" {
      return Thrown(DESCRIPTION_REQUIRED);
    }
    store.products := store.products + [NewProductDoc(newId, body, photos, dealer, slugify)];
    InvalidateCache(cache, CategorySlugs(store.categories), NEW_PRODUCT_CHANGE);
    return Response(201, true, Message("Product Created Successfully"));
  }

  /**
   * The edit `updateProduct` makes: a non-empty upload replaces the photos,
   * a truthy field overwrites its own (a new name the slug too; a price or
   * stock of 0 is ignored; a description is trimmed by the schema's setter),
   * and a given discount overwrites the discount even when it is 0. The id,
   * the dealer and the ratings stay.
   */
  function EditedProduct(product: Product, body: NewProductRequestBody, photos: seq<string>,
                         slugify: string -> string): (p: Product)
    ensures p.photos == if photos != [] then photos else product.photos
    ensures p.name == if TruthyString(body.name) then body.name.value else product.name
    ensures p.slug == if TruthyString(body.name) then slugify(body.name.value) else product.slug
    ensures p.price == if TruthyNumber(body.price) then body.price.value else product.price
    ensures p.stock == if TruthyNumber(body.stock) then body.stock.value else product.stock
    ensures p.description == if TruthyString(body.description) then Trim(body.description.value) else product.description
    ensures p.category == if TruthyString(body.category) then body.category.value else product.category
    ensures p.brand == if TruthyString(body.brand) then body.brand.value else product.brand
    ensures p.discount == if body.discount.Some? then body.discount else product.discount
    ensures p.id == product.id && p.ratings == product.ratings && p.numOfReviews == product.numOfReviews
    ensures p.dealer == product.dealer
  {
    var description := if TruthyString(body.description) then Trim(body.description.value) else product.description;
    Product(product.id,
            if TruthyString(body.name) then body.name.value else product.name,
            if TruthyString(body.name) then slugify(body.name.value) else product.slug,
            description,
            if photos != [] then photos else product.photos,
            if TruthyString(body.category) then body.category.value else product.category,
            if TruthyNumber(body.price) then body.price.value else product.price,
            if TruthyNumber(body.stock) then body.stock.value else product.stock,
            product.ratings,
            product.numOfReviews,
            if body.discount.Some? then body.discount else product.discount,
            if TruthyString(body.brand) then body.brand.value else product.brand,
            product.dealer)
  }

  /** A request with no field and no upload leaves the product as it was. */
  lemma EmptyEditChangesNothing(product: Product, slugify: string -> string)
    ensures EditedProduct(product, NewProductRequestBody(None, None, None, None, None, None, None, None), [], slugify)
            == product
  {
  }

  /** Sending the same edit twice has the effect of sending it once. */
  lemma EditIdempotent(product: Product, body: NewProductRequestBody, photos: seq<string>, slugify: string -> string)
    ensures EditedProduct(EditedProduct(product, body, photos, slugify), body, photos, slugify)
            == EditedProduct(product, body, photos, slugify)
  {
  }

  /** A price or stock of 0 cannot be set through `updateProduct`. */
  lemma ZeroPriceIgnored(product: Product, body: NewProductRequestBody, photos: seq<string>, slugify: string -> string)
    ensures body.price == Some(0) ==> EditedProduct(product, body, photos, slugify).price == product.price
    ensures body.stock == Some(0) ==> EditedProduct(product, body, photos, slugify).stock == product.stock
  {
  }

  /** Every description the handlers store is already trimmed, and an edit keeps it so. */
  lemma {:induction false} DescriptionStaysTrimmed(product: Product, body: NewProductRequestBody, photos: seq<string>,
                                                   dealer: string, id: string, slugify: string -> string)
    ensures AllFieldsGiven(body) ==>
              Trim(NewProductDoc(id, body, photos, dealer, slugify).description)
              == NewProductDoc(id, body, photos, dealer, slugify).description
    ensures Trim(product.description) == product.description ==>
              Trim(EditedProduct(product, body, photos, slugify).description)
              == EditedProduct(product, body, photos, slugify).description
  {
    if body.description.Some? {
      TrimIdempotent(body.description.value);
    }
  }

  /** The handler's statements, one field at a time, make exactly that edit. */
  method ApplyProductUpdate(product: Product, body: NewProductRequestBody, photos: seq<string>,
                            slugify: string -> string) returns (p: Product)
    ensures p == EditedProduct(product, body, photos, slugify)
  {
    p := product;
    if photos != [] {
      p := p.(photos := photos);
    }
    if TruthyString(body.name) {
      p := p.(name := body.name.value, slug := slugify(body.name.value));
    }
    if TruthyNumber(body.price) {
      p := p.(price := body.price.value);
    }
    if TruthyNumber(body.stock) {
      p := p.(stock := body.stock.value);
    }
    if TruthyString(body.description) {
      p := p.(description := Trim(body.description.value));
    }
    if TruthyString(body.category) {
      p := p.(category := body.category.value);
    }
    if TruthyString(body.brand) {
      p := p.(brand := body.brand.value);
    }
    if body.discount.Some? {
      p := p.(discount := body.discount);
    }
  }

  /**
   * `updateProduct`: 404 for an unknown id; a validation error, with nothing
   * saved or invalidated, when the edited description is empty; otherwise the
   * edit, saved in place, and `{product, productId, admin}`.
   */
  method UpdateProduct(cache: NodeCache, store: Store, id: string, body: NewProductRequestBody, photos: seq<string>,
                       slugify: string -> string) returns (res: Response)
    modifies cache, store
    ensures ProductById(old(store.products), id).None? ==>
              res == Error(404, "Product Not Found") && unchanged(cache) && unchanged(store)
    ensures ProductById(old(store.products), id).Some?
            && EditedProduct(old(store.products)[ProductById(old(store.products), id).value], body, photos, slugify)
               .description == "" ==>
              res == Thrown(DESCRIPTION_REQUIRED) && unchanged(cache) && unchanged(store)
    ensures ProductById(old(store.products), id).Some?
            && EditedProduct(old(store.products)[ProductById(old(store.products), id).value], body, photos, slugify)
               .description != "" ==>
              var i := ProductById(old(store.products), id).value;
              && store.products == old(store.products)[i := EditedProduct(old(store.products)[i], body, photos, slugify)]
              && store.categories == old(store.categories) && store.reviews == old(store.reviews)
              && store.users == old(store.users)
              && cache.entries == old(cache.entries)
                   - StaleKeys(ProductEditChange(id), CategorySlugs(store.categories), old(cache.entries).Keys)
              && res == Response(200, true, Message("Product Updated Successfully"))
  {
    var found := ProductById(store.products, id);
    if found.None? {
      return Error(404, "Product Not Found");
    }
    var product := ApplyProductUpdate(store.products[found.value], body, photos, slugify);
    if product.description == "" {
      return Thrown(DESCRIPTION_REQUIRED);
    }
    store.products := store.products[found.value := product];
    InvalidateCache(cache, CategorySlugs(store.categories), ProductEditChange(product.id));
    return Response(200, true, Message("Product Updated Successfully"));
  }

  /** `deleteProduct`: 404 for an unknown id, otherwise the product is removed and `{product, productId, admin}` invalidated. */
  method DeleteProduct(cache: NodeCache, store: Store, id: string) returns (res: Response)
    modifies cache, store
    ensures ProductById(old(store.products), id).None? ==>
              res == Error(404, "Product Not Found") && unchanged(cache) && unchanged(store)
    ensures ProductById(old(store.products), id).Some? ==>
              && store.products == RemoveAt(old(store.products), ProductById(old(store.products), id).value)
              && store.categories == old(store.categories) && store.reviews == old(store.reviews)
              && store.users == old(store.users)
              && cache.entries == old(cache.entries)
                   - StaleKeys(ProductEditChange(id), CategorySlugs(store.categories), old(cache.entries).Keys)
              && res == Response(200, true, Message("Product Deleted Successfully"))
  {
    var found := ProductById(store.products, id);
    if found.None? {
      return Error(404, "Product Not Found");
    }
    var product := store.products[found.value];
    store.products := RemoveAt(store.products, found.value);
    InvalidateCache(cache, CategorySlugs(store.categories), ProductEditChange(product.id));
    return Response(200, true, Message("Product Deleted Successfully"));
  }

  // ---------------------------------------------------------------------
  // Reviews
  // ---------------------------------------------------------------------

  /** At most one review per (user, product) pair. */
  predicate OnePerPair(rs: seq<Review>)
  {
    forall i, j :: 0 <= i < j < |rs| ==> !(rs[i].user == rs[j].user && rs[i].product == rs[j].product)
  }

  /** The review collection after `newReview`: the pair's review is updated in place, or a new one appended. */
  function UpsertReview(rs: seq<Review>, user: string, product: string, comment: string, rating: int,
                        newId: string): seq<Review>
  {
    var existing := ReviewByUserAndProduct(rs, user, product);
    if existing.Some? then rs[existing.value := rs[existing.value].(comment := comment, rating := rating)]
    else rs + [Review(newId, user, product, rating, comment)]
  }

  /**
   * An upsert keeps one review per pair, and afterwards the pair's review
   * carries the new rating and comment; it grows the collection only when the
   * pair had no review, and leaves every other review as it was.
   */
  lemma UpsertReviewKeepsOnePerPair(rs: seq<Review>, user: string, product: string, comment: string,
                                    rating: int, newId: string)
    requires OnePerPair(rs)
    ensures var r := UpsertReview(rs, user, product, comment, rating, newId);
            && OnePerPair(r)
            && ReviewByUserAndProduct(r, user, product).Some?
            && r[ReviewByUserAndProduct(r, user, product).value].rating == rating
            && r[ReviewByUserAndProduct(r, user, product).value].comment == comment
            && |r| == |rs| + (if ReviewByUserAndProduct(rs, user, product).Some? then 0 else 1)
            && forall j :: 0 <= j < |rs| && !(rs[j].user == user && rs[j].product == product) ==> r[j] == rs[j]
  {
    var r := UpsertReview(rs, user, product, comment, rating, newId);
    var existing := ReviewByUserAndProduct(rs, user, product);
    if existing.Some? {
      var k := existing.value;
      assert forall j :: 0 <= j < |r| ==> r[j].user == rs[j].user && r[j].product == rs[j].product;
      var found := ReviewByUserAndProduct(r, user, product);
      assert found.Some? && found.value == k by {
        assert r[k].user == user && r[k].product == product;
      }
    } else {
      var n := |rs|;
      assert forall j :: 0 <= j < n ==> r[j] == rs[j];
      assert r[n].user == user && r[n].product == product;
    }
  }

  /** The product's ratings and review count recomputed by `findAverageRatings`. */
  function Rerated(p: Product, rs: seq<Review>): Product
  {
    p.(ratings := FloorMean(RatingsOf(ReviewsOf(rs, p.id))), numOfReviews := |ReviewsOf(rs, p.id)|)
  }

  /** `product.ratings = ratings; product.numOfReviews = numOfReviews; await product.save()`. */
  method SaveRatings(store: Store, i: nat)
    requires i < |store.products|
    modifies store
    ensures store.products == old(store.products)[i := Rerated(old(store.products)[i], store.reviews)]
    ensures store.categories == old(store.categories) && store.reviews == old(store.reviews)
    ensures store.users == old(store.users)
  {
    var product := store.products[i];
    var numOfReviews, ratings := FindAverageRatings(store, product.id);
    store.products := store.products[i := product.(ratings := ratings, numOfReviews := numOfReviews)];
  }

  /**
   * `newReview`: upserts the user's review of the product, recomputes the
   * product's rating, and invalidates `{product, productId, review}`. The
   * answer is always 200 "Review Updated": `alreadyReviewed` holds the
   * created review by the time the status is chosen.
   */
  method NewReview(cache: NodeCache, store: Store, userId: Option<string>, productId: string, comment: string,
                   rating: int, newId: string) returns (res: Response)
    modifies cache, store
    ensures !KnownUser(old(store.users), userId) ==>
              res == Error(404, "Not Logged In") && unchanged(cache) && unchanged(store)
    ensures KnownUser(old(store.users), userId) && ProductById(old(store.products), productId).None? ==>
              res == Error(404, "Product Not Found") && unchanged(cache) && unchanged(store)
    ensures KnownUser(old(store.users), userId) && ProductById(old(store.products), productId).Some? ==>
              var i := ProductById(old(store.products), productId).value;
              && store.reviews == UpsertReview(old(store.reviews), userId.value, productId, comment, rating, newId)
              && store.products == old(store.products)[i := Rerated(old(store.products)[i], store.reviews)]
              && store.categories == old(store.categories) && store.users == old(store.users)
              && cache.entries == old(cache.entries)
                   - StaleKeys(ReviewWriteChange(productId), CategorySlugs(store.categories), old(cache.entries).Keys)
              && res == Response(200, true, Message("Review Updated"))
  {
    if !KnownUser(store.users, userId) {
      return Error(404, "Not Logged In");
    }
    var found := ProductById(store.products, productId);
    if found.None? {
      return Error(404, "Product Not Found");
    }
    var product := store.products[found.value];
    store.reviews := UpsertReview(store.reviews, userId.value, product.id, comment, rating, newId);
    SaveRatings(store, found.value);
    InvalidateCache(cache, CategorySlugs(store.categories), ReviewWriteChange(product.id));
    return Response(200, true, Message("Review Updated"));
  }

  /**
   * `deleteReview`: only the review's author may delete it. The review is
   * gone before the product is looked up, so a missing product answers 404
   * with the review already deleted and nothing invalidated.
   */
  method DeleteReview(cache: NodeCache, store: Store, userId: Option<string>, reviewId: string)
    returns (res: Response)
    modifies cache, store
    ensures !KnownUser(old(store.users), userId) ==>
              res == Error(404, "Not Logged In") && unchanged(cache) && unchanged(store)
    ensures KnownUser(old(store.users), userId) && ReviewById(old(store.reviews), reviewId).None? ==>
              res == Error(404, "Review Not Found") && unchanged(cache) && unchanged(store)
    ensures KnownUser(old(store.users), userId) && ReviewById(old(store.reviews), reviewId).Some? ==>
              var k := ReviewById(old(store.reviews), reviewId).value;
              var review := old(store.reviews)[k];
              var found := ProductById(old(store.products), review.product);
              if review.user != userId.value then
                res == Error(401, "Not Authorized") && unchanged(cache) && unchanged(store)
              else
                && store.reviews == RemoveAt(old(store.reviews), k)
                && store.categories == old(store.categories) && store.users == old(store.users)
                && (found.None? ==>
                      res == Error(404, "Product Not Found") && unchanged(cache)
                      && store.products == old(store.products))
                && (found.Some? ==>
                      && store.products == old(store.products)[found.value := Rerated(old(store.products)[found.value], store.reviews)]
                      && cache.entries == old(cache.entries)
                           - StaleKeys(ProductEditChange(review.product), CategorySlugs(store.categories), old(cache.entries).Keys)
                      && res == Response(200, true, Message("Review Deleted")))
  {
    if !KnownUser(store.users, userId) {
      return Error(404, "Not Logged In");
    }
    var k := ReviewById(store.reviews, reviewId);
    if k.None? {
      return Error(404, "Review Not Found");
    }
    var review := store.reviews[k.value];
    if review.user != userId.value {
      return Error(401, "Not Authorized");
    }
    store.reviews := RemoveAt(store.reviews, k.value);
    var found := ProductById(store.products, review.product);
    if found.None? {
      return Error(404, "Product Not Found");
    }
    var product := store.products[found.value];
    SaveRatings(store, found.value);
    InvalidateCache(cache, CategorySlugs(store.categories), ProductEditChange(product.id));
    return Response(200, true, Message("Review Deleted"));
  }

  /**
   * A product's review list outlives a new review of that product: the list
   * read after `newReview` answers exactly what the read before it answered,
   * whatever the review did to the store.
   */
  method StaleReviewsAfterNewReview(cache: NodeCache, store: Store, userId: Option<string>, productId: string,
                                    comment: string, rating: int, newId: string)
    returns (before: Response, after: Response)
    modifies cache, store
    ensures after == before
  {
    before := AllReviewsOfProduct(cache, store, productId);
    ghost var cached := cache.entries;
    var _ := NewReview(cache, store, userId, productId, comment, rating, newId);
    ReviewWriteKeepsReviewList(productId, CategorySlugs(store.categories), cached.Keys);
    after := AllReviewsOfProduct(cache, store, productId);
  }

  // ---------------------------------------------------------------------
  // getAllProducts: filter building and paging
  // ---------------------------------------------------------------------

  /** Products per page when `PRODUCT_PER_PAGE` gives nothing usable. */
  const DEFAULT_PER_PAGE := 8

  /** The argument of `.sort(..)`: `sort && { price: sort === "asc" ? 1 : -1 }`. */
  datatype SortSpec = Unsorted | ByPrice(direction: int)

  function SortOf(sort: Option<string>): (r: SortSpec)
    ensures r.Unsorted? <==> !TruthyString(sort)
    ensures r.ByPrice? ==> (r.direction == 1 <==> sort.value == "asc") && (r.direction == 1 || r.direction == -1)
  {
    if !TruthyString(sort) then Unsorted
    else ByPrice(if sort.value == "asc" then 1 else -1)
  }

  /** The filter `getAllProducts` builds. */
  function BaseQueryOf(q: SearchRequestQuery): BaseQuery
  {
    BaseQuery(
      if TruthyString(q.search) then Some(Regex(q.search.value, "i")) else None,
      if TruthyString(q.price) then Some(ToNumber(q.price)) else None,
      if TruthyString(q.brand) then Some(Regex(q.brand.value, "i")) else None,
      if TruthyString(q.discount) then Some(ToNumber(q.discount)) else None,
      if TruthyString(q.ratings) then Some(ToNumber(q.ratings)) else None)
  }

  /**
   * One condition per truthy parameter and none for a missing or empty one:
   * a case-insensitive regex on name and brand, an upper bound on price, and
   * lower bounds on discount and ratings.
   */
  lemma BaseQueryConditions(q: SearchRequestQuery)
    ensures var b := BaseQueryOf(q);
            && (b.name.Some? <==> TruthyString(q.search))
            && (b.name.Some? ==> b.name.value == Regex(q.search.value, "i"))
            && (b.priceAtMost.Some? <==> TruthyString(q.price))
            && (b.priceAtMost.Some? ==> b.priceAtMost.value == ToNumber(q.price))
            && (b.brand.Some? <==> TruthyString(q.brand))
            && (b.brand.Some? ==> b.brand.value == Regex(q.brand.value, "i"))
            && (b.discountAtLeast.Some? <==> TruthyString(q.discount))
            && (b.discountAtLeast.Some? ==> b.discountAtLeast.value == ToNumber(q.discount))
            && (b.ratingsAtLeast.Some? <==> TruthyString(q.ratings))
            && (b.ratingsAtLeast.Some? ==> b.ratingsAtLeast.value == ToNumber(q.ratings))
  {
  }

  /** `const baseQuery = {}` followed by one assignment per truthy parameter. */
  method BuildBaseQuery(q: SearchRequestQuery) returns (b: BaseQuery)
    ensures b == BaseQueryOf(q)
  {
    b := EMPTY_QUERY;
    if TruthyString(q.search) {
      b := b.(name := Some(Regex(q.search.value, "i")));
    }
    if TruthyString(q.price) {
      b := b.(priceAtMost := Some(ToNumber(q.price)));
    }
    if TruthyString(q.brand) {
      b := b.(brand := Some(Regex(q.brand.value, "i")));
    }
    if TruthyString(q.discount) {
      b := b.(discountAtLeast := Some(ToNumber(q.discount)));
    }
    if TruthyString(q.ratings) {
      b := b.(ratingsAtLeast := Some(ToNumber(q.ratings)));
    }
  }

  /** `Number(req.query.page) || 1`. */
  function PageOf(q: SearchRequestQuery): int
  {
    OrDefault(ToNumber(q.page), 1)
  }

  /** `Number(process.env.PRODUCT_PER_PAGE) || 8`; never 0. */
  function LimitOf(perPage: Option<string>): (limit: int)
    ensures limit != 0
  {
    OrDefault(ToNumber(perPage), DEFAULT_PER_PAGE)
  }

  /** `(page - 1) * limit`. */
  function SkipOf(page: int, limit: int): int
  {
    (page - 1) * limit
  }

  /** `Math.ceil(n / d)` for a whole `n` and a non-zero whole `d`. */
  function CeilDiv(n: int, d: int): int
    requires d != 0
  {
    if d > 0 then -((-n) / d) else -(n / (-d))
  }

  /** A missing, empty, zero or non-numeric page is page 1; any other number is taken as given. */
  lemma PageDefaults(q: SearchRequestQuery)
    ensures q.page.None? || q.page == Some("") ==> PageOf(q) == 1
    ensures ToNumber(q.page).NaN? || ToNumber(q.page) == Num(0) ==> PageOf(q) == 1
    ensures ToNumber(q.page).Num? && ToNumber(q.page).value != 0 ==> PageOf(q) == ToNumber(q.page).value
    ensures PageOf(q) != 0
  {
  }

  /** `totalPage` is the least number of pages of `limit` products that hold every matching product. */
  lemma TotalPageBounds(count: nat, limit: int)
    requires limit > 0
    ensures var total := CeilDiv(count, limit);
            && total >= 0
            && (total - 1) * limit < count <= total * limit
  {
    var total := CeilDiv(count, limit);
    var n: int := count;
    var q := (-n) / limit;
    assert q * limit + (-n) % limit == -n;
    assert total == -q;
  }

  /**
   * Every matching product is on exactly one page within `totalPage`: the
   * product at position `k` of the result is on page `k / limit + 1`, which
   * skips fewer than `k + 1` products and shows position `k`.
   */
  lemma EveryMatchOnAPage(count: nat, limit: int, k: nat)
    requires limit > 0 && k < count
    ensures var page := k / limit + 1;
            && 1 <= page <= CeilDiv(count, limit)
            && SkipOf(page, limit) <= k < SkipOf(page, limit) + limit
  {
    var page := k / limit + 1;
    assert (page - 1) * limit + k % limit == k;
    TotalPageBounds(count, limit);
    var total := CeilDiv(count, limit);
    assert (page - 1) * limit <= k < count <= total * limit;
    assert (total - (page - 1)) * limit > 0;
    PositiveFactor(total - (page - 1), limit);
  }

  /** The third page of eight skips sixteen products, and seventeen matches need three pages. */
  lemma PagingExample()
    ensures PageOf(SearchRequestQuery(None, None, None, Some("3"), None, None, None)) == 3
    ensures LimitOf(None) == 8
    ensures SkipOf(3, 8) == 16 && CeilDiv(17, 8) == 3 && CeilDiv(16, 8) == 2 && CeilDiv(0, 8) == 0
  {
    assert IsDigits("3");
    assert "3"[..0] == "";
  }

  /**
   * The skip is negative exactly when a page below 1 meets a positive page
   * size, or a page above 1 meets a negative one; the database rejects it.
   */
  lemma NegativeSkip(q: SearchRequestQuery, perPage: Option<string>)
    ensures SkipOf(PageOf(q), LimitOf(perPage)) < 0
            <==> (PageOf(q) < 1 && LimitOf(perPage) > 0) || (PageOf(q) > 1 && LimitOf(perPage) < 0)
  {
    ProductSign(PageOf(q) - 1, LimitOf(perPage));
  }

  /** A product is negative exactly when its factors have opposite signs. */
  lemma ProductSign(a: int, b: int)
    ensures a * b < 0 <==> (a < 0 && b > 0) || (a > 0 && b < 0)
  {
    if a < 0 && b > 0 {
      assert (-a) * b > 0;
    } else if a > 0 && b < 0 {
      assert a * (-b) > 0;
    } else if a <= 0 && b < 0 {
      assert (-a) * (-b) >= 0;
    } else {
      assert a * b >= 0;
    }
  }

  /** `?page=-1` with the default page size skips -16 products. */
  lemma NegativePageExample()
    ensures PageOf(SearchRequestQuery(None, None, None, Some("-1"), None, None, None)) == -1
    ensures SkipOf(-1, LimitOf(None)) == -16
  {
    assert "-1"[1..] == "1" && "1"[..0] == "";
  }

  /**
   * `getAllProducts`. The store query with its sort, limit and skip is
   * `runQuery`; `matches(filter, p)` decides whether a product satisfies the
   * filter, and `totalPage` counts the matches. A negative skip makes the
   * database reject the query; `rejection` is the message it gives, and the
   * rejection is thrown out of the handler.
   */
  method GetAllProducts(store: Store, q: SearchRequestQuery, perPage: Option<string>,
                        matches: (BaseQuery, Product) -> bool,
                        runQuery: (BaseQuery, SortSpec, int, int) -> seq<Product>, rejection: string)
    returns (res: Response)
    ensures SkipOf(PageOf(q), LimitOf(perPage)) < 0 ==> res == Thrown(rejection)
    ensures SkipOf(PageOf(q), LimitOf(perPage)) >= 0 ==>
              var limit := LimitOf(perPage);
              var filtered := Filter(store.products, (p: Product) => matches(BaseQueryOf(q), p));
              res == Response(200, true,
                              Page(ProductList(runQuery(BaseQueryOf(q), SortOf(q.sort), limit, SkipOf(PageOf(q), limit))),
                                   CeilDiv(|filtered|, limit)))
  {
    var page := PageOf(q);
    var limit := LimitOf(perPage);
    var skip := SkipOf(page, limit);
    var baseQuery := BuildBaseQuery(q);
    if skip < 0 {
      return Thrown(rejection);
    }
    var products := runQuery(baseQuery, SortOf(q.sort), limit, skip);
    var filteredOnlyProduct := Filter(store.products, (p: Product) => matches(baseQuery, p));
    var totalPage := CeilDiv(|filteredOnlyProduct|, limit);
    return Response(200, true, Page(ProductList(products), totalPage));
  }
}
