// The JSON documents the handlers send and cache. A cached value is stored
// as the document itself: `JSON.parse(JSON.stringify(x))` gives back `x` for
// these plain records, so the text in between is not modelled.
module Json {
  import opened Models

  datatype Doc =
    | ProductList(products: seq<Product>)
    | ProductDoc(product: Product)
    | CategoryList(categories: seq<Category>)
    | CategoryDoc(category: Category)
    | ReviewList(reviews: seq<Review>)

  /** The JSON body of a response besides its `success` field. */
  datatype Body =
    | Message(text: string)
    | Data(doc: Doc)
    | CategoryAndProducts(category: Doc, products: Doc)
    | Page(products: Doc, totalPage: int)

  /** `res.status(status).json({ success, ... })`. */
  datatype Response = Response(status: nat, success: bool, body: Body)

  /** What `next(new ErrorHandler(message, status))` sends. */
  function Error(status: nat, message: string): Response
  {
    Response(status, false, Message(message))
  }

  /** An error thrown inside a handler, answered with status 500 and its message. */
  function Thrown(message: string): Response
  {
    Error(500, message)
  }
}
