/** The Product record of BACKEND/Model/Product.js: fields, bounds and defaults. */
module ProductModel {
  import opened Base
  import opened JsText

  /** A product's database identifier (Mongo's `_id`), opaque here. */
  type ProductId = string

  /**
   * The optional inline image. `data` holds the uploaded base64 text; the
   * decoding to bytes is not part of this model.
   */
  datatype Image = Image(data: Option<string>, contentType: Option<string>)

  /**
   * Prices are whole rupees; JavaScript numbers with fractions are not
   * modelled. `imageUrl` is None when a `null` was stored.
   */
  datatype Product = Product(
    name: string,
    price: int,
    discountPrice: int,
    imageUrl: Option<string>,
    image: Option<Image>,
    description: string,
    stock: int)

  /** The schema's constraints on a stored product: name required and trimmed, prices and stock at least 0. */
  predicate SchemaValid(p: Product)
  {
    && p.name != [] && Trim(p.name) == p.name
    && p.price >= 0
    && p.discountPrice >= 0
    && p.stock >= 0
  }

  /**
   * The document the schema stores for the given fields: the name is trimmed,
   * each supplied field is stored as given,
   * and each absent field takes its default (`discountPrice` 0, `imageUrl`
   * and `description` the empty string, `stock` 0). When the supplied fields
   * meet the schema's bounds, the stored product is schema-valid.
   */
  function Stored(name: string, price: int, discountPrice: Option<int>, imageUrl: Field<string>,
                  image: Option<Image>, description: Option<string>, stock: Option<int>): (p: Product)
    ensures discountPrice.None? ==> p.discountPrice == 0
    ensures imageUrl.Absent? ==> p.imageUrl == Some("")
    ensures imageUrl.Null? ==> p.imageUrl == None
    ensures description.None? ==> p.description == []
    ensures stock.None? ==> p.stock == 0
    ensures discountPrice.Some? ==> p.discountPrice == discountPrice.value
    ensures imageUrl.Given? ==> p.imageUrl == Some(imageUrl.value)
    ensures description.Some? ==> p.description == description.value
    ensures stock.Some? ==> p.stock == stock.value
    ensures p.name == Trim(name) && p.price == price && p.image == image
    ensures !Blank(name) && price >= 0
            && (discountPrice.Some? ==> discountPrice.value >= 0)
            && (stock.Some? ==> stock.value >= 0)
            ==> SchemaValid(p)
  {
    TrimIdempotent(name);
    Product(
      Trim(name),
      price,
      if discountPrice.Some? then discountPrice.value else 0,
      match imageUrl
      case Absent => Some("")
      case Null => None
      case Given(u) => Some(u),
      image,
      if description.Some? then description.value else "",
      if stock.Some? then stock.value else 0)
  }
}
