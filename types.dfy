// The declarations of src/Types/types.ts as datatypes, together with the
// few JavaScript coercions the controllers depend on: truthiness, `Number(..)`,
// the text a template literal produces for an absent value, and `trim`.
module Types {

  datatype Option<+T> = None | Some(value: T)

  /** A field typed `string | string[]` and optional: absent, one id, or a list. */
  datatype IdArg = Absent | One(id: string) | Many(ids: seq<string>)

  /**
   * The change descriptor handed to the cache invalidator. Every field is
   * optional in the source; an absent flag is `false`. `userId` and `orderId`
   * are single strings only, the other three ids may also be lists.
   */
  datatype InvalidateCacheProps = InvalidateCacheProps(
    product: bool,
    order: bool,
    admin: bool,
    category: bool,
    review: bool,
    userId: Option<string>,
    orderId: Option<string>,
    productId: IdArg,
    categoryId: IdArg,
    reviewId: IdArg)

  /** The descriptor with no flag and no id set. */
  const NO_CHANGE := InvalidateCacheProps(false, false, false, false, false, None, None, Absent, Absent, Absent)

  /**
   * The fields `newProduct` and `updateProduct` read from the request body.
   * The handlers test each one for truthiness, so each may be missing.
   */
  datatype NewProductRequestBody = NewProductRequestBody(
    name: Option<string>,
    description: Option<string>,
    price: Option<int>,
    stock: Option<int>,
    category: Option<string>,
    brand: Option<string>,
    dealer: Option<string>,
    discount: Option<int>)

  datatype NewCategoryRequestBody = NewCategoryRequestBody(name: Option<string>)

  /** A MongoDB `{ $regex, $options }` condition. */
  datatype Regex = Regex(pattern: string, options: string)

  /** The result of JavaScript's `Number(..)` restricted to integers. */
  datatype JsNumber = NaN | Num(value: int)

  /**
   * The product filter: at most five optional conditions. `name` and `brand`
   * are regexes, `price` is an upper bound (`$lte`), `discount` and `ratings`
   * are lower bounds (`$gte`).
   */
  datatype BaseQuery = BaseQuery(
    name: Option<Regex>,
    priceAtMost: Option<JsNumber>,
    brand: Option<Regex>,
    discountAtLeast: Option<JsNumber>,
    ratingsAtLeast: Option<JsNumber>)

  const EMPTY_QUERY := BaseQuery(None, None, None, None, None)

  /** The query string of the product listing: every parameter an optional string. */
  datatype SearchRequestQuery = SearchRequestQuery(
    search: Option<string>,
    price: Option<string>,
    sort: Option<string>,
    page: Option<string>,
    brand: Option<string>,
    discount: Option<string>,
    ratings: Option<string>)

  /** One line of an order; `quantity` is a whole number in practice. */
  datatype OrderItemType = OrderItemType(
    name: string,
    photo: string,
    price: int,
    quantity: int,
    productId: string)

  /** `${s}` in a template literal: the string itself, or "undefined". */
  function Interpolate(s: Option<string>): string
  {
    if s.Some? then s.value else "undefined"
  }

  /** A string is truthy when it is present and not empty. */
  predicate TruthyString(s: Option<string>)
  {
    s.Some? && s.value != ""
  }

  /** A number is truthy when it is present and not zero (NaN is not modelled here). */
  predicate TruthyNumber(n: Option<int>)
  {
    n.Some? && n.value != 0
  }

  predicate IsDigits(s: string)
  {
    forall i :: 0 <= i < |s| ==> '0' <= s[i] <= '9'
  }

  function DigitsValue(s: string): (n: nat)
    requires IsDigits(s)
  {
    if s == [] then 0 else 10 * DigitsValue(s[..|s| - 1]) + (s[|s| - 1] - '0') as int
  }

  /**
   * `Number(s)` for an optional query-string value: undefined is NaN, the
   * empty string is 0, a decimal integer with an optional minus sign is its
   * value, and anything else is NaN.
   */
  function ToNumber(s: Option<string>): JsNumber
  {
    if s.None? then NaN
    else if s.value == "" then Num(0)
    else if IsDigits(s.value) then Num(DigitsValue(s.value))
    else if |s.value| > 1 && s.value[0] == '-' && IsDigits(s.value[1..]) then Num(-(DigitsValue(s.value[1..]) as int))
    else NaN
  }

  /** `Number(..)` on the values a query string carries. */
  lemma ToNumberExamples()
    ensures ToNumber(None) == NaN
    ensures ToNumber(Some("")) == Num(0)
    ensures ToNumber(Some("25")) == Num(25)
    ensures ToNumber(Some("-7")) == Num(-7)
    ensures ToNumber(Some("4a")) == NaN
  {
    assert "25"[..1] == "2" && "2"[..0] == "";
    assert "-7"[1..] == "7" && "7"[..0] == "";
    assert !IsDigits("4a") by { assert !('0' <= "4a"[1] <= '9'); }
  }

  /**
   * The characters `String.prototype.trim` removes: the white space and line
   * terminator code points of ECMAScript (section 12.2 and 12.3 of ECMA-262).
   */
  predicate IsJsWhitespace(c: char)
  {
    c == '\t' || c == '\n' || c == '\U{000B}' || c == '\U{000C}' || c == '\r' || c == ' '
    || c == '\U{00A0}' || c == '\U{1680}' || '\U{2000}' <= c <= '\U{200A}' || c == '\U{2028}' || c == '\U{2029}'
    || c == '\U{202F}' || c == '\U{205F}' || c == '\U{3000}' || c == '\U{FEFF}'
  }

  /** Drops the leading white space: what is left is a suffix that starts with no white space. */
  function TrimStart(s: string): (r: string)
    ensures |r| <= |s| && r == s[|s| - |r|..]
    ensures r == [] || !IsJsWhitespace(r[0])
    ensures forall i :: 0 <= i < |s| - |r| ==> IsJsWhitespace(s[i])
  {
    if s != [] && IsJsWhitespace(s[0]) then TrimStart(s[1..]) else s
  }

  /** Drops the trailing white space: what is left is a prefix that ends with no white space. */
  function TrimEnd(s: string): (r: string)
    ensures |r| <= |s| && r == s[..|r|]
    ensures r == [] || !IsJsWhitespace(r[|r| - 1])
    ensures forall i :: |r| <= i < |s| ==> IsJsWhitespace(s[i])
  {
    if s != [] && IsJsWhitespace(s[|s| - 1]) then TrimEnd(s[..|s| - 1]) else s
  }

  /** `s.trim()`, which the schema's `trim: true` setter applies. */
  function Trim(s: string): (r: string)
  {
    TrimEnd(TrimStart(s))
  }

  /** The trimmed string neither starts nor ends with white space. */
  lemma TrimEnds(s: string)
    ensures Trim(s) == [] || (!IsJsWhitespace(Trim(s)[0]) && !IsJsWhitespace(Trim(s)[|Trim(s)| - 1]))
  {
    var t := TrimStart(s);
    if Trim(s) != [] {
      assert Trim(s)[0] == t[0];
    }
  }

  /** Trimming twice is trimming once. */
  lemma {:induction false} TrimIdempotent(s: string)
    ensures Trim(Trim(s)) == Trim(s)
  {
    var r := Trim(s);
    TrimEnds(s);
    if r != [] {
      assert TrimStart(r) == r;
      assert TrimEnd(r) == r;
    }
  }

  /** Padding a string that starts and ends with no white space: trimming gives it back, inner spaces and all. */
  lemma TrimRemovesPadding(w: string)
    requires w != [] && !IsJsWhitespace(w[0]) && !IsJsWhitespace(w[|w| - 1])
    ensures Trim(" " + w + " ") == w
  {
    var padded := " " + w + " ";
    assert padded[1..] == w + " ";
    assert (w + " ")[0] == w[0];
    assert TrimStart(padded) == w + " ";
    assert (w + " ")[..|w|] == w;
    assert TrimEnd(w) == w;
  }

  /** A string of white space only trims to the empty string. */
  lemma TrimBlankExample()
    ensures Trim("\t \n") == ""
  {
    var s := "\t \n";
    assert s[1..] == " \n" && s[1..][1..] == "\n" && s[1..][1..][1..] == "";
  }

  /** `Number(s) || fallback`: 0 and NaN are falsy and give the fallback. */
  function OrDefault(n: JsNumber, fallback: int): (r: int)
    ensures n.Num? && n.value != 0 ==> r == n.value
    ensures !(n.Num? && n.value != 0) ==> r == fallback
    ensures fallback != 0 ==> r != 0
  {
    if n.Num? && n.value != 0 then n.value else fallback
  }
}
