// src/Controllers/categoryController.ts: the two read-through handlers and
// the three write handlers with the change descriptors they invalidate.
module CategoryController {
  import opened Types
  import opened Models
  import opened Json
  import opened Cache
  import opened Features

  /** `newCategory`: `{ category: true }`. */
  const NEW_CATEGORY_CHANGE := NO_CHANGE.(category := true)

  /** `updateCategory` and `deleteCategory`: `{ category: true, categoryId: id, admin: true }`. */
  function CategoryEditChange(id: string): InvalidateCacheProps
  {
    NO_CHANGE.(category := true, categoryId := One(id), admin := true)
  }

  /** A new category clears only the category listing. */
  lemma NewCategoryRemoves(slugOf: map<string, string>, present: set<string>)
    ensures StaleKeys(NEW_CATEGORY_CHANGE, slugOf, present) == {ALL_CATEGORIES}
  {
    assert Prefixed(CATEGORY_PREFIX, []) == {};
  }

  /** Editing or deleting a category clears the listing, `category-{id}` and the admin statistics. */
  lemma CategoryEditRemoves(id: string, slugOf: map<string, string>, present: set<string>)
    ensures StaleKeys(CategoryEditChange(id), slugOf, present) == {ALL_CATEGORIES, CATEGORY_PREFIX + id} + AdminRuleKeys()
  {
    PrefixedOne(CATEGORY_PREFIX, id);
  }

  /**
   * The category's page is cached under its slug but invalidated under its
   * id: `category-{slug}` is cleared exactly when the slug is the id, and
   * `products-category-{slug}` never is.
   */
  lemma CategoryEditKeepsSlugKeys(id: string, slug: string, slugOf: map<string, string>, present: set<string>)
    ensures CATEGORY_PREFIX + slug in StaleKeys(CategoryEditChange(id), slugOf, present) <==> slug == id
    ensures PRODUCTS_CATEGORY_PREFIX + slug !in StaleKeys(CategoryEditChange(id), slugOf, present)
  {
    CategoryEditRemoves(id, slugOf, present);
    SameFamily(CATEGORY_PREFIX, slug, id);
    DistinctFromName(CATEGORY_PREFIX, slug, ALL_CATEGORIES, 0);
    DistinctFromName(PRODUCTS_CATEGORY_PREFIX, slug, ALL_CATEGORIES, 0);
    DistinctKeys(PRODUCTS_CATEGORY_PREFIX, slug, CATEGORY_PREFIX, id, 0);
    forall a | a in ADMIN_KEYS
      ensures CATEGORY_PREFIX + slug != a && PRODUCTS_CATEGORY_PREFIX + slug != a
    {
      DistinctFromName(CATEGORY_PREFIX, slug, a, 0);
      DistinctFromName(PRODUCTS_CATEGORY_PREFIX, slug, a, 0);
    }
  }

  /** `getAllCategories`: every category, cached without TTL under `all-categories`. */
  method GetAllCategories(cache: NodeCache, store: Store) returns (res: Response)
    modifies cache
    ensures ALL_CATEGORIES in old(cache.entries) ==>
              cache.entries == old(cache.entries)
              && res == Response(200, true, Data(old(cache.entries)[ALL_CATEGORIES].value))
    ensures ALL_CATEGORIES !in old(cache.entries) ==>
              cache.entries == old(cache.entries)[ALL_CATEGORIES := Entry(CategoryList(store.categories), NoExpiry)]
              && res == Response(200, true, Data(CategoryList(store.categories)))
  {
    var categories: Doc;
    if cache.Has(ALL_CATEGORIES) {
      categories := cache.Get(ALL_CATEGORIES).value;
    } else {
      categories := CategoryList(store.categories);
      cache.Set(ALL_CATEGORIES, categories, NoExpiry);
    }
    return Response(200, true, Data(categories));
  }

  /** `getCategory`, cached without TTL under `category-{slug}`; an unknown slug caches nothing. */
  method GetCategory(cache: NodeCache, store: Store, slug: string) returns (res: Response)
    modifies cache
    ensures CATEGORY_PREFIX + slug in old(cache.entries) ==>
              cache.entries == old(cache.entries)
              && res == Response(200, true, Data(old(cache.entries)[CATEGORY_PREFIX + slug].value))
    ensures CATEGORY_PREFIX + slug !in old(cache.entries) && CategoryBySlug(store.categories, slug).None? ==>
              cache.entries == old(cache.entries) && res == Error(404, "Category not found")
    ensures CATEGORY_PREFIX + slug !in old(cache.entries) && CategoryBySlug(store.categories, slug).Some? ==>
              var doc := CategoryDoc(store.categories[CategoryBySlug(store.categories, slug).value]);
              cache.entries == old(cache.entries)[CATEGORY_PREFIX + slug := Entry(doc, NoExpiry)]
              && res == Response(200, true, Data(doc))
  {
    var key := CATEGORY_PREFIX + slug;
    var category: Doc;
    if cache.Has(key) {
      category := cache.Get(key).value;
    } else {
      var found := CategoryBySlug(store.categories, slug);
      if found.None? {
        return Error(404, "Category not found");
      }
      category := CategoryDoc(store.categories[found.value]);
      cache.Set(key, category, NoExpiry);
    }
    return Response(200, true, Data(category));
  }

  /**
   * `newCategory`: a missing name answers 400; a name whose slug is taken
   * answers 200 with `success: false` and changes nothing; otherwise the
   * category is created and only the category listing is invalidated.
   */
  method NewCategory(cache: NodeCache, store: Store, body: NewCategoryRequestBody, newId: string,
                     slugify: string -> string) returns (res: Response)
    modifies cache, store
    ensures !TruthyString(body.name) ==>
              res == Error(400, "All the fields are mandatory") && unchanged(cache) && unchanged(store)
    ensures TruthyString(body.name) && CategoryBySlug(old(store.categories), slugify(body.name.value)).Some? ==>
              res == Response(200, false, Message("Category already exists")) && unchanged(cache) && unchanged(store)
    ensures TruthyString(body.name) && CategoryBySlug(old(store.categories), slugify(body.name.value)).None? ==>
              && store.categories == old(store.categories) + [Category(newId, body.name.value, slugify(body.name.value))]
              && store.products == old(store.products) && store.reviews == old(store.reviews)
              && store.users == old(store.users)
              && cache.entries == old(cache.entries) - {ALL_CATEGORIES}
              && res == Response(201, true, Message("Category Created Successfully"))
  {
    if !TruthyString(body.name) {
      return Error(400, "All the fields are mandatory");
    }
    var name := body.name.value;
    var slug := slugify(name);
    if CategoryBySlug(store.categories, slug).Some? {
      return Response(200, false, Message("Category already exists"));
    }
    store.categories := store.categories + [Category(newId, name, slug)];
    InvalidateCache(cache, CategorySlugs(store.categories), NEW_CATEGORY_CHANGE);
    NewCategoryRemoves(CategorySlugs(store.categories), old(cache.entries).Keys);
    return Response(201, true, Message("Category Created Successfully"));
  }

  /** What the update validators say about an empty name. */
  const NAME_REQUIRED := "Validation failed: name: Please enter Name"

  /** What `slugify` throws when given no string. */
  const SLUGIFY_NEEDS_STRING := "slugify: string argument expected"

  /**
   * `updateCategory`: the name is slugified before anything else, so a
   * missing name throws; an empty one fails the update validators. An
   * unknown id answers 404 without invalidating; otherwise the category is
   * renamed in place and `{category, categoryId, admin}` invalidated.
   */
  method UpdateCategory(cache: NodeCache, store: Store, id: string, name: Option<string>,
                        slugify: string -> string) returns (res: Response)
    modifies cache, store
    ensures name.None? ==> res == Thrown(SLUGIFY_NEEDS_STRING) && unchanged(cache) && unchanged(store)
    ensures name == Some("") ==> res == Thrown(NAME_REQUIRED) && unchanged(cache) && unchanged(store)
    ensures TruthyString(name) && CategoryById(old(store.categories), id).None? ==>
              res == Error(404, "Category not found") && unchanged(cache) && unchanged(store)
    ensures TruthyString(name) && CategoryById(old(store.categories), id).Some? ==>
              var i := CategoryById(old(store.categories), id).value;
              var updated := Category(id, name.value, slugify(name.value));
              && store.categories == old(store.categories)[i := updated]
              && store.products == old(store.products) && store.reviews == old(store.reviews)
              && store.users == old(store.users)
              && cache.entries == old(cache.entries)
                   - StaleKeys(CategoryEditChange(id), CategorySlugs(store.categories), old(cache.entries).Keys)
              && res == Response(200, true, Data(CategoryDoc(updated)))
  {
    if name.None? {
      return Thrown(SLUGIFY_NEEDS_STRING);
    }
    var slug := slugify(name.value);
    if name.value == "" {
      return Thrown(NAME_REQUIRED);
    }
    var found := CategoryById(store.categories, id);
    if found.None? {
      return Error(404, "Category not found");
    }
    var category := store.categories[found.value].(name := name.value, slug := slug);
    store.categories := store.categories[found.value := category];
    InvalidateCache(cache, CategorySlugs(store.categories), CategoryEditChange(id));
    return Response(200, true, Data(CategoryDoc(category)));
  }

  /** `deleteCategory`: 404 without invalidating, or the category is removed and `{category, categoryId, admin}` invalidated. */
  method DeleteCategory(cache: NodeCache, store: Store, id: string) returns (res: Response)
    modifies cache, store
    ensures CategoryById(old(store.categories), id).None? ==>
              res == Error(404, "Category not found") && unchanged(cache) && unchanged(store)
    ensures CategoryById(old(store.categories), id).Some? ==>
              && store.categories == RemoveAt(old(store.categories), CategoryById(old(store.categories), id).value)
              && store.products == old(store.products) && store.reviews == old(store.reviews)
              && store.users == old(store.users)
              && cache.entries == old(cache.entries)
                   - StaleKeys(CategoryEditChange(id), CategorySlugs(store.categories), old(cache.entries).Keys)
              && res == Response(200, true, Message("Category deleted successfully"))
  {
    var found := CategoryById(store.categories, id);
    if found.None? {
      return Error(404, "Category not found");
    }
    store.categories := RemoveAt(store.categories, found.value);
    InvalidateCache(cache, CategorySlugs(store.categories), CategoryEditChange(id));
    return Response(200, true, Message("Category deleted successfully"));
  }

  /**
   * A category page read by slug outlives an update of that category whose
   * id differs from the slug: the read after the update answers exactly
   * what the read before it answered.
   */
  method StaleCategoryAfterUpdate(cache: NodeCache, store: Store, id: string, slug: string, name: Option<string>,
                                  slugify: string -> string) returns (before: Response, after: Response)
    requires slug != id
    modifies cache, store
    ensures before.status == 200 ==> after == before
  {
    before := GetCategory(cache, store, slug);
    ghost var cached := cache.entries;
    var _ := UpdateCategory(cache, store, id, name, slugify);
    CategoryEditKeepsSlugKeys(id, slug, CategorySlugs(store.categories), cached.Keys);
    after := GetCategory(cache, store, slug);
  }
}
