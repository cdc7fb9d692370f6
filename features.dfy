// src/Utils/features.ts: the cache invalidator, the rating aggregate, the
// chart bucketing and the stock reduction of an order.
module Features {
  import opened Types
  import opened Models
  import opened Cache

  // ---------------------------------------------------------------------
  // Cache key namespace. Every key is a fixed name or a prefix followed by
  // an id, a slug or a search query.
  // ---------------------------------------------------------------------

  const LATEST_PRODUCTS := "latest-products"
  const ALL_PRODUCTS := "all-products"
  const ALL_CATEGORIES := "all-categories"
  const ALL_ORDERS := "all-orders"
  const ADMIN_KEYS := ["admin-stats", "admin-pie-charts", "admin-bar-charts", "admin-line-charts"]

  const PRODUCT_PREFIX := "product-"
  const RELATED_PREFIX := "related-products-"
  const SEARCH_PREFIX := "search-products-"
  const CATEGORY_PREFIX := "category-"
  const PRODUCTS_CATEGORY_PREFIX := "products-category-"
  const REVIEWS_PREFIX := "reviews-"
  const REVIEW_PREFIX := "review-"
  const MY_ORDERS_PREFIX := "my-orders-"
  const ORDER_PREFIX := "order-"

  /** `s.startsWith(prefix)`. */
  predicate StartsWith(s: string, prefix: string)
  {
    |prefix| <= |s| && s[..|prefix|] == prefix
  }

  /** The ids an `IdArg` carries: none, one, or the list. */
  function IdList(a: IdArg): seq<string>
  {
    match a
    case Absent => []
    case One(id) => [id]
    case Many(ids) => ids
  }

  /** The keys `prefix + id` for each listed id. */
  function Prefixed(prefix: string, ids: seq<string>): set<string>
  {
    set id | id in ids :: prefix + id
  }

  /** The keys present in the cache that begin with `search-products-`. */
  function SearchKeys(present: set<string>): set<string>
  {
    set k | k in present && StartsWith(k, SEARCH_PREFIX)
  }

  /** The slugs of those listed category ids that resolve to a category. */
  function Slugs(ids: seq<string>, slugOf: map<string, string>): set<string>
  {
    set id | id in ids && id in slugOf :: slugOf[id]
  }

  /** `category-{slug}` and `products-category-{slug}` for each slug. */
  function SlugKeys(slugs: set<string>): set<string>
  {
    (set s | s in slugs :: CATEGORY_PREFIX + s) + (set s | s in slugs :: PRODUCTS_CATEGORY_PREFIX + s)
  }

  /** The keys the product rule removes, given the keys present when it scans. */
  function ProductRuleKeys(d: InvalidateCacheProps, slugOf: map<string, string>, present: set<string>): set<string>
  {
    {LATEST_PRODUCTS, ALL_PRODUCTS}
    + Prefixed(PRODUCT_PREFIX, IdList(d.productId))
    + Prefixed(RELATED_PREFIX, IdList(d.productId))
    + SearchKeys(present)
    + SlugKeys(Slugs(IdList(d.categoryId), slugOf))
  }

  /** The category rule: `products-category-{id}` only for a list of ids. */
  function CategoryRuleKeys(d: InvalidateCacheProps): set<string>
  {
    {ALL_CATEGORIES}
    + Prefixed(CATEGORY_PREFIX, IdList(d.categoryId))
    + (if d.categoryId.Many? then Prefixed(PRODUCTS_CATEGORY_PREFIX, d.categoryId.ids) else {})
  }

  function OrderRuleKeys(d: InvalidateCacheProps): set<string>
  {
    {ALL_ORDERS, MY_ORDERS_PREFIX + Interpolate(d.userId), ORDER_PREFIX + Interpolate(d.orderId)}
  }

  function AdminRuleKeys(): set<string>
  {
    KeySet(ADMIN_KEYS)
  }

  /** The text `${reviewId}` gives when `reviewId` is not a list. */
  function ReviewIdText(a: IdArg): string
  {
    match a
    case One(id) => id
    case _ => "undefined"
  }

  /** A list of review ids gives `reviews-{id}` keys, anything else the one key `review-{reviewId}`. */
  function ReviewRuleKeys(d: InvalidateCacheProps): set<string>
  {
    if d.reviewId.Many? then Prefixed(REVIEWS_PREFIX, d.reviewId.ids)
    else {REVIEW_PREFIX + ReviewIdText(d.reviewId)}
  }

  /**
   * Every key `invalidateCache(d)` deletes when the cache holds the keys
   * `present`: the union of the rules of the flags that are set.
   */
  function StaleKeys(d: InvalidateCacheProps, slugOf: map<string, string>, present: set<string>): set<string>
  {
    (if d.product then ProductRuleKeys(d, slugOf, present) else {})
    + (if d.category then CategoryRuleKeys(d) else {})
    + (if d.order then OrderRuleKeys(d) else {})
    + (if d.admin then AdminRuleKeys() else {})
    + (if d.review then ReviewRuleKeys(d) else {})
  }

  // ---------------------------------------------------------------------
  // invalidateCache, one method per rule, run in the order of the source.
  // ---------------------------------------------------------------------

  lemma PrefixedSnoc(prefix: string, ids: seq<string>, i: nat)
    requires i < |ids|
    ensures Prefixed(prefix, ids[..i + 1]) == Prefixed(prefix, ids[..i]) + {prefix + ids[i]}
  {
    assert ids[..i + 1] == ids[..i] + [ids[i]];
  }

  lemma SlugsSnoc(ids: seq<string>, i: nat, slugOf: map<string, string>)
    requires i < |ids|
    ensures Slugs(ids[..i + 1], slugOf) == Slugs(ids[..i], slugOf) + (if ids[i] in slugOf then {slugOf[ids[i]]} else {})
  {
    assert ids[..i + 1] == ids[..i] + [ids[i]];
  }

  /** `ids.forEach((i) => keys.push(prefix + i))`. */
  method PushEach(keys: seq<string>, prefix: string, ids: seq<string>) returns (keys': seq<string>)
    ensures KeySet(keys') == KeySet(keys) + Prefixed(prefix, ids)
  {
    keys' := keys;
    for i := 0 to |ids|
      invariant KeySet(keys') == KeySet(keys) + Prefixed(prefix, ids[..i])
    {
      PrefixedSnoc(prefix, ids, i);
      KeySetAppend(keys', prefix + ids[i]);
      keys' := keys' + [prefix + ids[i]];
    }
    assert ids[..|ids|] == ids;
  }

  /** `ids.forEach((id) => myCache.del(prefix + id))`. */
  method DelEach(cache: NodeCache, prefix: string, ids: seq<string>)
    modifies cache
    ensures cache.entries == old(cache.entries) - Prefixed(prefix, ids)
  {
    DeleteNothing(cache.entries);
    for i := 0 to |ids|
      invariant cache.entries == old(cache.entries) - Prefixed(prefix, ids[..i])
    {
      PrefixedSnoc(prefix, ids, i);
      cache.Del(prefix + ids[i]);
    }
    assert ids[..|ids|] == ids;
  }

  /** The scan of `myCache.keys()` that deletes every search result. */
  method SweepSearchKeys(cache: NodeCache)
    modifies cache
    ensures cache.entries == old(cache.entries) - SearchKeys(old(cache.entries).Keys)
  {
    var keys := cache.Keys();
    DeleteNothing(cache.entries);
    for i := 0 to |keys|
      invariant cache.entries == old(cache.entries) - (set k | k in keys[..i] && StartsWith(k, SEARCH_PREFIX))
    {
      assert keys[..i + 1] == keys[..i] + [keys[i]];
      if StartsWith(keys[i], SEARCH_PREFIX) {
        cache.Del(keys[i]);
      }
    }
    assert keys[..|keys|] == keys;
  }

  lemma SlugKeysUnion(a: set<string>, b: set<string>)
    ensures SlugKeys(a + b) == SlugKeys(a) + SlugKeys(b)
  {
  }

  lemma PrefixedOne(prefix: string, id: string)
    ensures Prefixed(prefix, [id]) == {prefix + id}
  {
  }

  /** The two deletions for one resolved category. */
  method DelSlugKeys(cache: NodeCache, slug: string)
    modifies cache
    ensures cache.entries == old(cache.entries) - SlugKeys({slug})
  {
    cache.Del(CATEGORY_PREFIX + slug);
    cache.Del(PRODUCTS_CATEGORY_PREFIX + slug);
    DeleteTwice(old(cache.entries), {CATEGORY_PREFIX + slug}, {PRODUCTS_CATEGORY_PREFIX + slug});
    assert SlugKeys({slug}) == {CATEGORY_PREFIX + slug} + {PRODUCTS_CATEGORY_PREFIX + slug};
  }

  /** Resolves each category id through the store and deletes its two slug keys. */
  method DelCategorySlugs(cache: NodeCache, categoryId: IdArg, slugOf: map<string, string>)
    modifies cache
    ensures cache.entries == old(cache.entries) - SlugKeys(Slugs(IdList(categoryId), slugOf))
  {
    if categoryId.One? {
      DelOneCategorySlug(cache, categoryId.id, slugOf);
    } else {
      // an absent id lists nothing; a list is walked with `for ... of`
      DelListedCategorySlugs(cache, IdList(categoryId), slugOf);
    }
  }

  method DelOneCategorySlug(cache: NodeCache, id: string, slugOf: map<string, string>)
    modifies cache
    ensures cache.entries == old(cache.entries) - SlugKeys(Slugs([id], slugOf))
  {
    assert Slugs([id], slugOf) == if id in slugOf then {slugOf[id]} else {};
    if id in slugOf {
      DelSlugKeys(cache, slugOf[id]);
    } else {
      DeleteNothing(cache.entries);
    }
  }

  lemma DeleteSlugStep<V>(m: map<string, V>, before: set<string>, slug: string)
    ensures m - SlugKeys(before) - SlugKeys({slug}) == m - SlugKeys(before + {slug})
  {
    DeleteTwice(m, SlugKeys(before), SlugKeys({slug}));
    SlugKeysUnion(before, {slug});
  }

  method DelListedCategorySlugs(cache: NodeCache, ids: seq<string>, slugOf: map<string, string>)
    modifies cache
    ensures cache.entries == old(cache.entries) - SlugKeys(Slugs(ids, slugOf))
  {
    DeleteNothing(cache.entries);
    for i := 0 to |ids|
      invariant cache.entries == old(cache.entries) - SlugKeys(Slugs(ids[..i], slugOf))
    {
      SlugsSnoc(ids, i, slugOf);
      if ids[i] in slugOf {
        DeleteSlugStep(old(cache.entries), Slugs(ids[..i], slugOf), slugOf[ids[i]]);
        DelSlugKeys(cache, slugOf[ids[i]]);
      }
    }
    assert ids[..|ids|] == ids;
  }

  /** Deletes the keys of the product rule. */
  method InvalidateProducts(cache: NodeCache, d: InvalidateCacheProps, slugOf: map<string, string>)
    modifies cache
    ensures cache.entries == old(cache.entries) - ProductRuleKeys(d, slugOf, old(cache.entries).Keys)
  {
    ghost var e0 := cache.entries;
    var productKeys := [LATEST_PRODUCTS, ALL_PRODUCTS];
    KeySetOfTwo(LATEST_PRODUCTS, ALL_PRODUCTS);
    match d.productId {
      case One(id) =>
        KeySetAppend(productKeys, PRODUCT_PREFIX + id);
        PrefixedOne(PRODUCT_PREFIX, id);
        productKeys := productKeys + [PRODUCT_PREFIX + id];
      case Many(ids) =>
        productKeys := PushEach(productKeys, PRODUCT_PREFIX, ids);
      case Absent =>
    }
    ghost var named := KeySet(productKeys);
    assert named == {LATEST_PRODUCTS, ALL_PRODUCTS} + Prefixed(PRODUCT_PREFIX, IdList(d.productId));

    // the sweep of every cached search result
    SweepSearchKeys(cache);
    ghost var search := SearchKeys(e0.Keys);

    match d.productId {
      case One(id) =>
        PrefixedOne(RELATED_PREFIX, id);
        cache.Del(RELATED_PREFIX + id);
      case Many(ids) =>
        DelEach(cache, RELATED_PREFIX, ids);
      case Absent =>
        DeleteNothing(cache.entries);
    }
    ghost var related := Prefixed(RELATED_PREFIX, IdList(d.productId));
    DeleteTwice(e0, search, related);

    DelCategorySlugs(cache, d.categoryId, slugOf);
    ghost var slugKeys := SlugKeys(Slugs(IdList(d.categoryId), slugOf));
    DeleteTwice(e0, search + related, slugKeys);

    cache.DelAll(productKeys);
    DeleteTwice(e0, search + related + slugKeys, named);
    assert search + related + slugKeys + named == ProductRuleKeys(d, slugOf, e0.Keys);
  }

  /** Deletes the keys of the category rule. */
  method InvalidateCategories(cache: NodeCache, d: InvalidateCacheProps)
    modifies cache
    ensures cache.entries == old(cache.entries) - CategoryRuleKeys(d)
  {
    var categoryKeys := [ALL_CATEGORIES];
    if d.categoryId.One? {
      categoryKeys := categoryKeys + [CATEGORY_PREFIX + d.categoryId.id];
    }
    if d.categoryId.Many? {
      categoryKeys := PushEach(categoryKeys, CATEGORY_PREFIX, d.categoryId.ids);
    }
    ghost var named := KeySet(categoryKeys);
    assert named == {ALL_CATEGORIES} + Prefixed(CATEGORY_PREFIX, IdList(d.categoryId));
    if d.categoryId.Many? {
      // the source pushes every `category-{id}` a second time, then deletes
      // the category listings one by one
      categoryKeys := PushEach(categoryKeys, CATEGORY_PREFIX, d.categoryId.ids);
      DelEach(cache, PRODUCTS_CATEGORY_PREFIX, d.categoryId.ids);
    } else {
      DeleteNothing(cache.entries);
    }
    ghost var listings := if d.categoryId.Many? then Prefixed(PRODUCTS_CATEGORY_PREFIX, d.categoryId.ids) else {};
    cache.DelAll(categoryKeys);
    DeleteTwice(old(cache.entries), listings, named);
  }

  /** Deletes the keys of the order rule in one `del`. */
  method InvalidateOrders(cache: NodeCache, d: InvalidateCacheProps)
    modifies cache
    ensures cache.entries == old(cache.entries) - OrderRuleKeys(d)
  {
    var ordersKeys := [ALL_ORDERS, MY_ORDERS_PREFIX + Interpolate(d.userId), ORDER_PREFIX + Interpolate(d.orderId)];
    KeySetOfThree(ordersKeys[0], ordersKeys[1], ordersKeys[2]);
    cache.DelAll(ordersKeys);
  }

  /** Deletes the four dashboard keys in one `del`. */
  method InvalidateAdmin(cache: NodeCache)
    modifies cache
    ensures cache.entries == old(cache.entries) - AdminRuleKeys()
  {
    cache.DelAll(ADMIN_KEYS);
  }

  /** Deletes the keys of the review rule, one `del` per key. */
  method InvalidateReviews(cache: NodeCache, d: InvalidateCacheProps)
    modifies cache
    ensures cache.entries == old(cache.entries) - ReviewRuleKeys(d)
  {
    var reviewKeys: seq<string>;
    if d.reviewId.Many? {
      var ids := d.reviewId.ids;
      reviewKeys := seq(|ids|, i requires 0 <= i < |ids| => REVIEWS_PREFIX + ids[i]);
      assert KeySet(reviewKeys) == Prefixed(REVIEWS_PREFIX, ids) by {
        forall k | k in Prefixed(REVIEWS_PREFIX, ids) ensures k in reviewKeys {
          var id :| id in ids && k == REVIEWS_PREFIX + id;
          var i :| 0 <= i < |ids| && ids[i] == id;
          assert reviewKeys[i] == k;
        }
      }
    } else {
      reviewKeys := [REVIEW_PREFIX + ReviewIdText(d.reviewId)];
    }
    DeleteNothing(cache.entries);
    for i := 0 to |reviewKeys|
      invariant cache.entries == old(cache.entries) - KeySet(reviewKeys[..i])
    {
      KeySetSnoc(reviewKeys, i);
      cache.Del(reviewKeys[i]);
    }
    assert reviewKeys[..|reviewKeys|] == reviewKeys;
  }

  /**
   * `invalidateCache(d)`: applies the rule of every flag that is set, in
   * the source's order, and deletes nothing else. `slugOf` is the
   * id-to-slug lookup of the category collection.
   */
  method InvalidateCache(cache: NodeCache, slugOf: map<string, string>, d: InvalidateCacheProps)
    modifies cache
    ensures cache.entries == old(cache.entries) - StaleKeys(d, slugOf, old(cache.entries).Keys)
  {
    ghost var e0 := cache.entries;
    ghost var p := if d.product then ProductRuleKeys(d, slugOf, e0.Keys) else {};
    ghost var c := if d.category then CategoryRuleKeys(d) else {};
    ghost var o := if d.order then OrderRuleKeys(d) else {};
    ghost var a := if d.admin then AdminRuleKeys() else {};
    ghost var r := if d.review then ReviewRuleKeys(d) else {};
    if d.product {
      InvalidateProducts(cache, d, slugOf);
    } else {
      DeleteNothing(e0);
    }
    assert cache.entries == e0 - p;
    ghost var e1 := cache.entries;
    if d.category {
      InvalidateCategories(cache, d);
    } else {
      DeleteNothing(e1);
    }
    assert cache.entries == e1 - c;
    ghost var e2 := cache.entries;
    if d.order {
      InvalidateOrders(cache, d);
    } else {
      DeleteNothing(e2);
    }
    assert cache.entries == e2 - o;
    ghost var e3 := cache.entries;
    if d.admin {
      InvalidateAdmin(cache);
    } else {
      DeleteNothing(e3);
    }
    assert cache.entries == e3 - a;
    ghost var e4 := cache.entries;
    if d.review {
      InvalidateReviews(cache, d);
    } else {
      DeleteNothing(e4);
    }
    assert cache.entries == e4 - r;
    DeleteInSteps(e0, e1, e2, e3, e4, cache.entries, p, c, o, a, r);
  }

  // ---------------------------------------------------------------------
  // What the invalidator removes.
  // ---------------------------------------------------------------------

  /** Keys whose prefixes differ at a position both prefixes have are different. */
  lemma DistinctKeys(p: string, x: string, q: string, y: string, i: nat)
    requires i < |p| && i < |q| && p[i] != q[i]
    ensures p + x != q + y
  {
    assert (p + x)[i] == p[i];
    assert (q + y)[i] == q[i];
  }

  /** A key built from a prefix differs from a fixed key the prefix disagrees with. */
  lemma DistinctFromName(p: string, x: string, name: string, i: nat)
    requires i < |p| && i < |name| && p[i] != name[i]
    ensures p + x != name
  {
    assert (p + x)[i] == p[i];
  }

  /** A key never starts with a prefix it disagrees with at some position. */
  lemma NotStartsWith(p: string, x: string, q: string, i: nat)
    requires i < |p| && i < |q| && p[i] != q[i]
    ensures !StartsWith(p + x, q)
  {
    if |q| <= |p + x| {
      assert (p + x)[..|q|][i] == p[i];
    }
  }

  /** Two keys of one family are equal exactly when their ids are. */
  lemma SameFamily(p: string, x: string, y: string)
    ensures p + x == p + y <==> x == y
  {
    if p + x == p + y {
      assert x == (p + x)[|p|..];
      assert y == (p + y)[|p|..];
    }
  }

  /**
   * A product change removes both listings, the page and the related list of
   * every given product id, every cached search whatever the ids, and the two
   * keys of every given category id that resolves to a slug.
   */
  lemma ProductChangeRemoves(d: InvalidateCacheProps, slugOf: map<string, string>, present: set<string>)
    requires d.product
    ensures LATEST_PRODUCTS in StaleKeys(d, slugOf, present)
    ensures ALL_PRODUCTS in StaleKeys(d, slugOf, present)
    ensures forall id :: id in IdList(d.productId) ==>
              PRODUCT_PREFIX + id in StaleKeys(d, slugOf, present) && RELATED_PREFIX + id in StaleKeys(d, slugOf, present)
    ensures forall k :: k in present && StartsWith(k, SEARCH_PREFIX) ==> k in StaleKeys(d, slugOf, present)
    ensures forall id :: id in IdList(d.categoryId) && id in slugOf ==>
              CATEGORY_PREFIX + slugOf[id] in StaleKeys(d, slugOf, present)
              && PRODUCTS_CATEGORY_PREFIX + slugOf[id] in StaleKeys(d, slugOf, present)
  {
    forall id | id in IdList(d.categoryId) && id in slugOf
      ensures CATEGORY_PREFIX + slugOf[id] in SlugKeys(Slugs(IdList(d.categoryId), slugOf))
      ensures PRODUCTS_CATEGORY_PREFIX + slugOf[id] in SlugKeys(Slugs(IdList(d.categoryId), slugOf))
    {
      assert slugOf[id] in Slugs(IdList(d.categoryId), slugOf);
    }
  }

  /** A category id that resolves to no category is skipped: the product rule adds no key for it. */
  lemma UnresolvedCategorySkipped(d: InvalidateCacheProps, slugOf: map<string, string>, present: set<string>, id: string)
    requires d.categoryId.One? && d.categoryId.id == id && id !in slugOf
    ensures ProductRuleKeys(d, slugOf, present) == ProductRuleKeys(d.(categoryId := Absent), slugOf, present)
  {
    assert Slugs([id], slugOf) == {};
    assert Slugs([], slugOf) == {};
  }

  /** In a list of category ids, an id that resolves to no category adds no key either. */
  lemma UnresolvedListedCategorySkipped(d: InvalidateCacheProps, slugOf: map<string, string>, present: set<string>,
                                        id: string)
    requires d.categoryId.Many? && id !in slugOf
    ensures ProductRuleKeys(d.(categoryId := Many(d.categoryId.ids + [id])), slugOf, present)
            == ProductRuleKeys(d, slugOf, present)
  {
    assert Slugs(d.categoryId.ids + [id], slugOf) == Slugs(d.categoryId.ids, slugOf);
  }

  /**
   * The category rule removes `all-categories` and `category-{id}` for each
   * given id, and `products-category-{id}` exactly when the ids come as a list.
   */
  lemma CategoryChangeRemoves(d: InvalidateCacheProps, id: string)
    ensures ALL_CATEGORIES in CategoryRuleKeys(d)
    ensures id in IdList(d.categoryId) ==> CATEGORY_PREFIX + id in CategoryRuleKeys(d)
    ensures PRODUCTS_CATEGORY_PREFIX + id in CategoryRuleKeys(d) <==> d.categoryId.Many? && id in d.categoryId.ids
  {
    var key := PRODUCTS_CATEGORY_PREFIX + id;
    DistinctKeys(PRODUCTS_CATEGORY_PREFIX, id, ALL_CATEGORIES, "", 0);
    assert ALL_CATEGORIES + "" == ALL_CATEGORIES;
    forall x | x in IdList(d.categoryId) ensures key != CATEGORY_PREFIX + x {
      DistinctKeys(PRODUCTS_CATEGORY_PREFIX, id, CATEGORY_PREFIX, x, 0);
    }
    if d.categoryId.Many? && key in Prefixed(PRODUCTS_CATEGORY_PREFIX, d.categoryId.ids) {
      var x :| x in d.categoryId.ids && key == PRODUCTS_CATEGORY_PREFIX + x;
      SameFamily(PRODUCTS_CATEGORY_PREFIX, id, x);
    }
  }

  /**
   * The review rule: a list of ids removes `reviews-{id}` for each, anything
   * else removes exactly `review-{reviewId}`, which is `review-undefined`
   * when no id is given.
   */
  lemma ReviewChangeRemoves(d: InvalidateCacheProps)
    ensures d.reviewId.Many? ==> forall id :: id in d.reviewId.ids ==> REVIEWS_PREFIX + id in ReviewRuleKeys(d)
    ensures d.reviewId.One? ==> ReviewRuleKeys(d) == {REVIEW_PREFIX + d.reviewId.id}
    ensures d.reviewId.Absent? ==> ReviewRuleKeys(d) == {"review-undefined"}
  {
    assert REVIEW_PREFIX + "undefined" == "review-undefined";
  }

  /** The order rule writes "undefined" into the keys of absent ids. */
  lemma OrderChangeRemoves(d: InvalidateCacheProps)
    ensures d.userId.None? ==> "my-orders-undefined" in OrderRuleKeys(d)
    ensures d.orderId.None? ==> "order-undefined" in OrderRuleKeys(d)
  {
    assert MY_ORDERS_PREFIX + "undefined" == "my-orders-undefined";
    assert ORDER_PREFIX + "undefined" == "order-undefined";
  }

  /** The rules are independent: the keys of a descriptor are the union of those of its flags taken one at a time. */
  lemma RulesIndependent(d: InvalidateCacheProps, slugOf: map<string, string>, present: set<string>)
    ensures StaleKeys(d, slugOf, present)
         == StaleKeys(d.(category := false, order := false, admin := false, review := false), slugOf, present)
          + StaleKeys(d.(product := false, order := false, admin := false, review := false), slugOf, present)
          + StaleKeys(d.(product := false, category := false, admin := false, review := false), slugOf, present)
          + StaleKeys(d.(product := false, category := false, order := false, review := false), slugOf, present)
          + StaleKeys(d.(product := false, category := false, order := false, admin := false), slugOf, present)
    ensures StaleKeys(d.(product := false, category := false, order := false, admin := false, review := false), slugOf, present) == {}
  {
  }

  // ---------------------------------------------------------------------
  // findAverageRatings
  // ---------------------------------------------------------------------

  function Sum(xs: seq<int>): int
  {
    if xs == [] then 0 else Sum(xs[..|xs| - 1]) + xs[|xs| - 1]
  }

  function RatingsOf(rs: seq<Review>): (xs: seq<int>)
    ensures |xs| == |rs| && forall i :: 0 <= i < |rs| ==> xs[i] == rs[i].rating
  {
    seq(|rs|, i requires 0 <= i < |rs| => rs[i].rating)
  }

  /** `Math.floor(total / n) || 0`: the floor of the mean, and 0 for no ratings (0/0 is NaN). */
  function FloorMean(xs: seq<int>): int
  {
    if |xs| == 0 then 0 else Sum(xs) / |xs|
  }

  /** The review count and floored mean rating of one product. */
  method FindAverageRatings(store: Store, productId: string) returns (numOfReviews: nat, ratings: int)
    ensures numOfReviews == |ReviewsOf(store.reviews, productId)|
    ensures ratings == FloorMean(RatingsOf(ReviewsOf(store.reviews, productId)))
  {
    var totalRating := 0;
    var reviews := ReviewsOf(store.reviews, productId);
    ghost var xs := RatingsOf(reviews);
    for i := 0 to |reviews|
      invariant totalRating == Sum(xs[..i])
    {
      assert xs[..i + 1][..i] == xs[..i];
      totalRating := totalRating + reviews[i].rating;
    }
    assert xs[..|reviews|] == xs;
    ratings := if |reviews| == 0 then 0 else totalRating / |reviews|;
    numOfReviews := |reviews|;
  }

  /** The floored mean is the largest m with m * n <= total. */
  lemma FloorMeanIsFloor(xs: seq<int>)
    requires |xs| > 0
    ensures FloorMean(xs) * |xs| <= Sum(xs) < (FloorMean(xs) + 1) * |xs|
  {
  }

  lemma {:induction false} SumBounds(xs: seq<int>, lo: int, hi: int)
    requires forall i :: 0 <= i < |xs| ==> lo <= xs[i] <= hi
    ensures lo * |xs| <= Sum(xs) <= hi * |xs|
  {
    if xs != [] {
      SumBounds(xs[..|xs| - 1], lo, hi);
    }
  }

  /** The mean rating lies between the lowest and the highest rating given. */
  lemma FloorMeanBounds(xs: seq<int>, lo: int, hi: int)
    requires |xs| > 0
    requires forall i :: 0 <= i < |xs| ==> lo <= xs[i] <= hi
    ensures lo <= FloorMean(xs) <= hi
  {
    SumBounds(xs, lo, hi);
    var n, m := |xs|, FloorMean(xs);
    FloorMeanIsFloor(xs);
    assert (m + 1 - lo) * n > 0;
    PositiveFactor(m + 1 - lo, n);
    assert (hi - m) * n >= 0;
    NonNegativeFactor(hi - m, n);
  }

  lemma PositiveFactor(a: int, n: int)
    requires n > 0 && a * n > 0
    ensures a > 0
  {
  }

  lemma NonNegativeFactor(a: int, n: int)
    requires n > 0 && a * n >= 0
    ensures a >= 0
  {
  }

  /** Ratings 3, 4 and 5 give an average of 4 over three reviews; no reviews give 0. */
  lemma FloorMeanExamples()
    ensures FloorMean([3, 4, 5]) == 4 && FloorMean([]) == 0 && FloorMean([4, 5]) == 4
  {
    assert [3, 4, 5][..2] == [3, 4];
    assert [3, 4][..1] == [3];
    assert [4, 5][..1] == [4];
    assert [3][..0] == [] && [4][..0] == [];
    assert Sum([3, 4, 5]) == 12 && Sum([4, 5]) == 9;
  }

  // ---------------------------------------------------------------------
  // getChartData
  // ---------------------------------------------------------------------

  /** What `Date.getMonth()` returns. */
  type Month = m: int | 0 <= m < 12

  datatype ChartProperty = Discount | Total

  /** A document with its creation month and the two numeric fields a chart may sum. */
  datatype ChartDoc = ChartDoc(createdMonth: Month, discount: int, total: int)

  /** How many months before `today` the document was created, modulo a year. */
  function MonthDiff(today: Month, created: Month): (d: int)
    ensures 0 <= d < 12
  {
    (today - created + 12) % 12
  }

  /** What one document adds to its bucket: the chosen field, or 1 when counting. */
  function Contribution(doc: ChartDoc, property: Option<ChartProperty>): int
  {
    match property
    case None => 1
    case Some(Discount) => doc.discount
    case Some(Total) => doc.total
  }

  /** The value of bucket `j`: what the documents `length - j - 1` months old contribute. */
  function BucketSum(docs: seq<ChartDoc>, length: nat, today: Month, property: Option<ChartProperty>, j: int): int
  {
    if docs == [] then 0
    else
      var doc := docs[|docs| - 1];
      var diff := MonthDiff(today, doc.createdMonth);
      BucketSum(docs[..|docs| - 1], length, today, property, j)
      + (if diff < length && length - diff - 1 == j then Contribution(doc, property) else 0)
  }

  /** One bucket per month, oldest first; the last bucket is the current month. */
  method GetChartData(length: nat, docArr: seq<ChartDoc>, today: Month, property: Option<ChartProperty>)
    returns (data: array<int>)
    ensures data.Length == length
    ensures forall j :: 0 <= j < length ==> data[j] == BucketSum(docArr, length, today, property, j)
  {
    data := new int[length](_ => 0);
    for i := 0 to |docArr|
      invariant forall j :: 0 <= j < length ==> data[j] == BucketSum(docArr[..i], length, today, property, j)
    {
      assert docArr[..i + 1][..i] == docArr[..i];
      var monthDiff := MonthDiff(today, docArr[i].createdMonth);
      if monthDiff < length {
        data[length - monthDiff - 1] := data[length - monthDiff - 1] + Contribution(docArr[i], property);
      }
    }
    assert docArr[..|docArr|] == docArr;
  }

  /** The sum of the first `n` buckets. */
  function BucketsTotal(docs: seq<ChartDoc>, length: nat, today: Month, property: Option<ChartProperty>, n: nat): int
  {
    if n == 0 then 0 else BucketsTotal(docs, length, today, property, n - 1) + BucketSum(docs, length, today, property, n - 1)
  }

  /** The sum of what the documents younger than `length` months contribute. */
  function InRangeTotal(docs: seq<ChartDoc>, length: nat, today: Month, property: Option<ChartProperty>): int
  {
    if docs == [] then 0
    else
      var doc := docs[|docs| - 1];
      InRangeTotal(docs[..|docs| - 1], length, today, property)
      + (if MonthDiff(today, doc.createdMonth) < length then Contribution(doc, property) else 0)
  }

  lemma {:induction false} BucketsTotalSnoc(docs: seq<ChartDoc>, doc: ChartDoc, length: nat, today: Month,
                                            property: Option<ChartProperty>, n: nat)
    ensures var diff := MonthDiff(today, doc.createdMonth);
            BucketsTotal(docs + [doc], length, today, property, n)
            == BucketsTotal(docs, length, today, property, n)
               + (if diff < length && length - diff - 1 < n then Contribution(doc, property) else 0)
  {
    assert (docs + [doc])[..|docs|] == docs;
    if n > 0 {
      BucketsTotalSnoc(docs, doc, length, today, property, n - 1);
    }
  }

  /**
   * Nothing is lost or counted twice: the buckets add up to the contribution
   * of every document less than `length` months old, and older documents
   * contribute nothing.
   */
  lemma {:induction false} ChartConservation(docs: seq<ChartDoc>, length: nat, today: Month, property: Option<ChartProperty>)
    ensures BucketsTotal(docs, length, today, property, length) == InRangeTotal(docs, length, today, property)
  {
    if docs == [] {
      ChartEmpty(length, today, property, length);
    } else {
      var init, doc := docs[..|docs| - 1], docs[|docs| - 1];
      assert docs == init + [doc];
      ChartConservation(init, length, today, property);
      BucketsTotalSnoc(init, doc, length, today, property, length);
    }
  }

  lemma {:induction false} ChartEmpty(length: nat, today: Month, property: Option<ChartProperty>, n: nat)
    ensures BucketsTotal([], length, today, property, n) == 0
  {
    if n > 0 {
      ChartEmpty(length, today, property, n - 1);
    }
  }

  /** A document `length` or more months old leaves every bucket as it was. */
  lemma OldDocumentIgnored(docs: seq<ChartDoc>, doc: ChartDoc, length: nat, today: Month,
                           property: Option<ChartProperty>, j: int)
    requires MonthDiff(today, doc.createdMonth) >= length
    ensures BucketSum(docs + [doc], length, today, property, j) == BucketSum(docs, length, today, property, j)
  {
    assert (docs + [doc])[..|docs|] == docs;
  }

  // ---------------------------------------------------------------------
  // reduceStock
  // ---------------------------------------------------------------------

  /** The products after an order, and whether and where it stopped at an unknown product. */
  datatype StockOutcome = Done(products: seq<Product>) | Failed(products: seq<Product>, at: nat)

  /** One iteration: subtract the quantity from the first product with the item's id, if any. */
  function ReduceOne(ps: seq<Product>, item: OrderItemType): Option<seq<Product>>
  {
    var i := ProductById(ps, item.productId);
    if i.None? then None
    else Some(ps[i.value := ps[i.value].(stock := ps[i.value].stock - item.quantity)])
  }

  /** The items applied in order; the first unknown product stops the loop, earlier items stay applied. */
  function ReduceAll(ps: seq<Product>, items: seq<OrderItemType>): StockOutcome
  {
    if items == [] then Done(ps)
    else
      match ReduceAll(ps, items[..|items| - 1])
      case Failed(q, k) => Failed(q, k)
      case Done(q) =>
        match ReduceOne(q, items[|items| - 1])
        case None => Failed(q, |items| - 1)
        case Some(q') => Done(q')
  }

  lemma {:induction false} FailureStops(ps: seq<Product>, items: seq<OrderItemType>, n: nat)
    requires n <= |items| && ReduceAll(ps, items[..n]).Failed?
    ensures ReduceAll(ps, items) == ReduceAll(ps, items[..n])
    decreases |items| - n
  {
    if n < |items| {
      assert items[..n + 1][..n] == items[..n];
      FailureStops(ps, items, n + 1);
    } else {
      assert items[..n] == items;
    }
  }

  /** `reduceStock(orderItems)`: saves each product in turn; an unknown product throws. */
  method ReduceStock(store: Store, orderItems: seq<OrderItemType>) returns (error: Option<string>)
    modifies store
    ensures store.products == ReduceAll(old(store.products), orderItems).products
    ensures error.Some? <==> ReduceAll(old(store.products), orderItems).Failed?
    ensures error.Some? ==> error.value == "Product Not Found"
    ensures store.categories == old(store.categories) && store.reviews == old(store.reviews)
    ensures store.users == old(store.users)
  {
    error := None;
    for i := 0 to |orderItems|
      invariant ReduceAll(old(store.products), orderItems[..i]) == Done(store.products)
      invariant store.categories == old(store.categories) && store.reviews == old(store.reviews)
      invariant store.users == old(store.users)
    {
      assert orderItems[..i + 1][..i] == orderItems[..i];
      var order := orderItems[i];
      var product := ProductById(store.products, order.productId);
      if product.None? {
        FailureStops(old(store.products), orderItems, i + 1);
        return Some("Product Not Found");
      }
      var p := store.products[product.value];
      store.products := store.products[product.value := p.(stock := p.stock - order.quantity)];
    }
    assert orderItems[..|orderItems|] == orderItems;
  }

  /** Only stock changes: the same products, in the same order, with the same other fields. */
  predicate SameExceptStock(ps: seq<Product>, qs: seq<Product>)
  {
    |ps| == |qs| && forall i :: 0 <= i < |ps| ==> qs[i] == ps[i].(stock := qs[i].stock)
  }

  /** The stock of the product `findById` finds. */
  function StockOf(ps: seq<Product>, id: string): int
  {
    var i := ProductById(ps, id);
    if i.Some? then ps[i.value].stock else 0
  }

  /** The total quantity the items order of one product. */
  function Ordered(items: seq<OrderItemType>, id: string): int
  {
    if items == [] then 0
    else Ordered(items[..|items| - 1], id) + (if items[|items| - 1].productId == id then items[|items| - 1].quantity else 0)
  }

  lemma SameExceptStockLookup(ps: seq<Product>, qs: seq<Product>, id: string)
    requires SameExceptStock(ps, qs)
    ensures ProductById(qs, id) == ProductById(ps, id)
  {
    var a, b := ProductById(ps, id), ProductById(qs, id);
    assert forall j :: 0 <= j < |ps| ==> (ps[j].id == id <==> qs[j].id == id);
    if a.Some? {
      assert qs[a.value].id == id;
    }
    if b.Some? {
      assert ps[b.value].id == id;
    }
  }

  /**
   * When every item names a stored product, each product's stock drops by
   * the total quantity ordered of it, with no lower bound, and nothing else
   * about the products changes.
   */
  lemma {:induction false} ReduceStockTotals(ps: seq<Product>, items: seq<OrderItemType>)
    requires ReduceAll(ps, items).Done?
    ensures SameExceptStock(ps, ReduceAll(ps, items).products)
    ensures forall id :: ProductById(ps, id).Some? ==>
              StockOf(ReduceAll(ps, items).products, id) == StockOf(ps, id) - Ordered(items, id)
  {
    if items != [] {
      var init, item := items[..|items| - 1], items[|items| - 1];
      ReduceStockTotals(ps, init);
      var q := ReduceAll(ps, init).products;
      var q' := ReduceAll(ps, items).products;
      var k := ProductById(q, item.productId).value;
      assert q' == q[k := q[k].(stock := q[k].stock - item.quantity)];
      forall id | ProductById(ps, id).Some?
        ensures StockOf(q', id) == StockOf(ps, id) - Ordered(items, id)
      {
        SameExceptStockLookup(ps, q, id);
        assert SameExceptStock(q, q');
        SameExceptStockLookup(q, q', id);
        if id == item.productId {
          assert StockOf(q', id) == StockOf(q, id) - item.quantity;
        } else {
          var j := ProductById(q, id).value;
          assert j != k;
        }
      }
    }
  }

  /** The order fails exactly when some item names no stored product, and at the first such item. */
  lemma {:induction false} ReduceStockFailure(ps: seq<Product>, items: seq<OrderItemType>)
    ensures ReduceAll(ps, items).Failed? <==> exists k :: 0 <= k < |items| && ProductById(ps, items[k].productId).None?
    ensures ReduceAll(ps, items).Failed? ==>
              var k := ReduceAll(ps, items).at;
              && k < |items|
              && ProductById(ps, items[k].productId).None?
              && (forall j :: 0 <= j < k ==> ProductById(ps, items[j].productId).Some?)
              && ReduceAll(ps, items[..k]) == Done(ReduceAll(ps, items).products)
  {
    FailsIffUnknown(ps, items);
    FailsAtFirstUnknown(ps, items);
  }

  /** Some item of the order names no stored product. */
  predicate HasUnknown(ps: seq<Product>, items: seq<OrderItemType>)
  {
    exists k :: 0 <= k < |items| && ProductById(ps, items[k].productId).None?
  }

  lemma HasUnknownSnoc(ps: seq<Product>, items: seq<OrderItemType>)
    requires items != []
    ensures HasUnknown(ps, items)
            <==> HasUnknown(ps, items[..|items| - 1]) || ProductById(ps, items[|items| - 1].productId).None?
  {
    var init := items[..|items| - 1];
    assert forall j :: 0 <= j < |init| ==> init[j] == items[j];
    if HasUnknown(ps, items) && !ProductById(ps, items[|items| - 1].productId).None? {
      var k :| 0 <= k < |items| && ProductById(ps, items[k].productId).None?;
      assert init[k] == items[k];
    }
  }

  lemma {:induction false} FailsIffUnknown(ps: seq<Product>, items: seq<OrderItemType>)
    ensures ReduceAll(ps, items).Failed? <==> HasUnknown(ps, items)
  {
    if items != [] {
      FailsIffUnknown(ps, items[..|items| - 1]);
      HasUnknownSnoc(ps, items);
      if ReduceAll(ps, items[..|items| - 1]).Done? {
        FailureAtLast(ps, items);
      }
    }
  }

  lemma {:induction false} FailsAtFirstUnknown(ps: seq<Product>, items: seq<OrderItemType>)
    ensures ReduceAll(ps, items).Failed? ==>
              var k := ReduceAll(ps, items).at;
              && k < |items|
              && ProductById(ps, items[k].productId).None?
              && (forall j :: 0 <= j < k ==> ProductById(ps, items[j].productId).Some?)
              && ReduceAll(ps, items[..k]) == Done(ReduceAll(ps, items).products)
  {
    if items != [] {
      var init := items[..|items| - 1];
      var r := ReduceAll(ps, init);
      assert forall j :: 0 <= j < |init| ==> init[j] == items[j];
      if r.Done? {
        FailsIffUnknown(ps, init);
        FailureAtLast(ps, items);
      } else {
        FailsAtFirstUnknown(ps, init);
        assert init[..r.at] == items[..r.at];
      }
    }
  }

  /** When every item but the last succeeds, the order fails exactly at an unknown last product. */
  lemma FailureAtLast(ps: seq<Product>, items: seq<OrderItemType>)
    requires items != [] && ReduceAll(ps, items[..|items| - 1]).Done?
    ensures ReduceAll(ps, items).Failed? <==> ProductById(ps, items[|items| - 1].productId).None?
    ensures ReduceAll(ps, items).Failed? ==>
              ReduceAll(ps, items).at == |items| - 1
              && ReduceAll(ps, items[..|items| - 1]) == Done(ReduceAll(ps, items).products)
  {
    var init, item := items[..|items| - 1], items[|items| - 1];
    ReduceStockTotals(ps, init);
    SameExceptStockLookup(ps, ReduceAll(ps, init).products, item.productId);
  }

  /** Stock may go negative: one unit in stock and two ordered leaves -1. */
  lemma StockMayGoNegative(p: Product, item: OrderItemType)
    requires p.stock == 1 && item.productId == p.id && item.quantity == 2
    ensures ReduceAll([p], [item]) == Done([p.(stock := -1)])
  {
    assert [item][..0] == [];
  }
}
