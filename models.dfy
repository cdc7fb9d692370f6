// The persisted entities (src/Models/*.ts) and the document store that holds
// them. The store is a plain object whose collections the write handlers
// replace; queries are the first-match and filter functions below.
module Models {
  import opened Types

  /** A product; `ratings` and `numOfReviews` default to 0 on creation. */
  datatype Product = Product(
    id: string,
    name: string,
    slug: string,
    description: string,
    photos: seq<string>,
    category: string,
    price: int,
    stock: int,
    ratings: int,
    numOfReviews: int,
    discount: Option<int>,
    brand: string,
    dealer: string)

  datatype Category = Category(id: string, name: string, slug: string)

  datatype Review = Review(id: string, user: string, product: string, rating: int, comment: string)

  datatype User = User(id: string, name: string)

  /** The index of the first element satisfying `p`, as `findOne`/`findById` pick it. */
  function IndexWhere<T>(s: seq<T>, p: T -> bool): (r: Option<nat>)
    ensures r.Some? ==> r.value < |s| && p(s[r.value])
    ensures r.Some? ==> forall j :: 0 <= j < r.value ==> !p(s[j])
    ensures r.None? ==> forall j :: 0 <= j < |s| ==> !p(s[j])
  {
    if s == [] then None
    else if p(s[0]) then Some(0)
    else
      var r := IndexWhere(s[1..], p);
      if r.None? then None else Some(r.value + 1)
  }

  /** The elements satisfying `p`, in store order, as `find(filter)` returns them. */
  function Filter<T>(s: seq<T>, p: T -> bool): (r: seq<T>)
    ensures |r| <= |s|
    ensures forall i :: 0 <= i < |r| ==> r[i] in s && p(r[i])
    ensures forall i :: 0 <= i < |s| && p(s[i]) ==> s[i] in r
  {
    if s == [] then []
    else (if p(s[0]) then [s[0]] else []) + Filter(s[1..], p)
  }

  function RemoveAt<T>(s: seq<T>, i: nat): (r: seq<T>)
    requires i < |s|
  {
    s[..i] + s[i + 1..]
  }

  function ProductById(ps: seq<Product>, id: string): Option<nat>
  {
    IndexWhere(ps, (p: Product) => p.id == id)
  }

  function CategoryById(cs: seq<Category>, id: string): Option<nat>
  {
    IndexWhere(cs, (c: Category) => c.id == id)
  }

  function CategoryBySlug(cs: seq<Category>, slug: string): Option<nat>
  {
    IndexWhere(cs, (c: Category) => c.slug == slug)
  }

  function ReviewById(rs: seq<Review>, id: string): Option<nat>
  {
    IndexWhere(rs, (r: Review) => r.id == id)
  }

  function ReviewByUserAndProduct(rs: seq<Review>, user: string, product: string): Option<nat>
  {
    IndexWhere(rs, (r: Review) => r.user == user && r.product == product)
  }

  /** `Review.find({ product })`. */
  function ReviewsOf(rs: seq<Review>, product: string): seq<Review>
  {
    Filter(rs, (r: Review) => r.product == product)
  }

  /**
   * The id-to-slug lookup the invalidator performs through `Category.findById`:
   * every stored id maps to the slug of the first category with that id.
   */
  function CategorySlugs(cs: seq<Category>): (m: map<string, string>)
    ensures forall id :: id in m <==> CategoryById(cs, id).Some?
    ensures forall id :: id in m ==> m[id] == cs[CategoryById(cs, id).value].slug
  {
    if cs == [] then map[]
    else CategorySlugs(cs[1..])[cs[0].id := cs[0].slug]
  }

  /** The database: products, categories and reviews in creation order, users by id. */
  class Store {
    var products: seq<Product>
    var categories: seq<Category>
    var reviews: seq<Review>
    var users: map<string, User>

    constructor (products: seq<Product>, categories: seq<Category>, reviews: seq<Review>, users: map<string, User>)
      ensures this.products == products && this.categories == categories
      ensures this.reviews == reviews && this.users == users
    {
      this.products := products;
      this.categories := categories;
      this.reviews := reviews;
      this.users := users;
    }
  }
}
