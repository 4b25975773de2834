/**
 * The product administration of BACKEND/Routes/AdminRouter.js: the
 * validation chain shared by create and update, and the create, update,
 * delete and image-fetch handlers over the product store.
 */
module AdminRouter {
  import opened Base
  import opened JsText
  import opened ProductModel

  /**
   * The body of a create or update request. A field is None when it is absent
   * or `null`, or, for `price`, `discountPrice` and `stock`, not a number, and
   * for `name`, not a string; the guards reject all of these alike. Only
   * `imageUrl` keeps `null` apart from an absent key, because the store does.
   */
  datatype ProductInput = ProductInput(
    name: Option<string>,
    price: Option<int>,
    discountPrice: Option<int>,
    imageUrl: Field<string>,
    imageBase64: Option<string>,
    imageContentType: Option<string>,
    description: Option<string>,
    stock: Option<int>)

  /** The validation failures, one per guard. */
  datatype ProductError =
    | NameRequired
    | PriceNotPositive
    | DiscountRequired
    | DiscountNotBelowPrice
    | DescriptionRequired
    | StockNegative
    | ImageRequired

  /** The position of each guard in the chain. */
  function Rank(e: ProductError): nat
  {
    match e
    case NameRequired => 0
    case PriceNotPositive => 1
    case DiscountRequired => 2
    case DiscountNotBelowPrice => 3
    case DescriptionRequired => 4
    case StockNegative => 5
    case ImageRequired => 6
  }

  /** The message of the 400 reply for each guard. */
  function Message(e: ProductError): string
  {
    match e
    case NameRequired => "Name is required"
    case PriceNotPositive => "Price must be > 0"
    case DiscountRequired => "Discount price is required (0 or more)"
    case DiscountNotBelowPrice => "Discount price must be less than price"
    case DescriptionRequired => "Description is required"
    case StockNegative => "Stock must be 0 or more"
    case ImageRequired => "Image is required via upload or imageUrl"
  }

  function BadRequest(e: ProductError): ApiError
  {
    ApiError(400, Message(e))
  }

  const NotFound := ApiError(404, "Not found")
  const ImageNotFound := ApiError(404, "Image not found")
  const CreateFailed := ApiError(400, "Failed to create product")

  /** The Content-Type served when the stored image has none. */
  const DefaultContentType: string := "application/octet-stream"

  /** An inline upload: both the base64 data and its content type are present and non-empty. */
  predicate HasUpload(inp: ProductInput)
  {
    Truthy(inp.imageBase64) && Truthy(inp.imageContentType)
  }

  /** An image URL that is not blank. */
  predicate HasUrl(inp: ProductInput)
  {
    inp.imageUrl.Given? && !Blank(inp.imageUrl.value)
  }

  /** Guard `e` rejects the input. */
  predicate Fails(inp: ProductInput, e: ProductError)
  {
    match e
    case NameRequired => inp.name.None? || Blank(inp.name.value)
    case PriceNotPositive => inp.price.None? || inp.price.value <= 0
    case DiscountRequired => inp.discountPrice.None? || inp.discountPrice.value < 0
    case DiscountNotBelowPrice =>
      inp.price.Some? && inp.discountPrice.Some? && inp.discountPrice.value >= inp.price.value
    case DescriptionRequired => inp.description.None? || Blank(inp.description.value)
    case StockNegative => inp.stock.None? || inp.stock.value < 0
    case ImageRequired => !HasUpload(inp) && !HasUrl(inp)
  }

  /**
   * What an acceptable product is: a non-blank name, a price above 0, a
   * discount of at least 0 and below the price, a non-blank description, a
   * stock of at least 0, and an upload or a non-blank image URL.
   */
  predicate Acceptable(inp: ProductInput)
  {
    && inp.name.Some? && !Blank(inp.name.value)
    && inp.price.Some? && inp.price.value > 0
    && inp.discountPrice.Some? && 0 <= inp.discountPrice.value < inp.price.value
    && inp.description.Some? && !Blank(inp.description.value)
    && inp.stock.Some? && inp.stock.value >= 0
    && (HasUpload(inp) || HasUrl(inp))
  }

  /**
   * The validation chain: None when the input is acceptable; otherwise the
   * first guard in chain order that rejects it, which decides the message.
   */
  function Validate(inp: ProductInput): (r: Option<ProductError>)
    ensures r.None? <==> Acceptable(inp)
    ensures r.Some? ==> Fails(inp, r.value)
    ensures r.Some? ==> forall e :: Rank(e) < Rank(r.value) ==> !Fails(inp, e)
  {
    if inp.name.None? || Blank(inp.name.value) then Some(NameRequired)
    else if inp.price.None? || inp.price.value <= 0 then Some(PriceNotPositive)
    else if inp.discountPrice.None? || inp.discountPrice.value < 0 then Some(DiscountRequired)
    else if inp.discountPrice.value >= inp.price.value then Some(DiscountNotBelowPrice)
    else if inp.description.None? || Blank(inp.description.value) then Some(DescriptionRequired)
    else if inp.stock.None? || inp.stock.value < 0 then Some(StockNegative)
    else if !HasUpload(inp) && !HasUrl(inp) then Some(ImageRequired)
    else None
  }

  /** Acceptable means that no guard of the chain rejects the input. */
  lemma AcceptableIffNoGuardFails(inp: ProductInput)
    ensures Acceptable(inp) <==> forall e :: !Fails(inp, e)
  {
    if !Acceptable(inp) {
      var e := Validate(inp).value;
      assert Fails(inp, e);
    }
  }

  /** The image attached to the document: only when both the data and its content type are supplied. */
  function UploadedImage(inp: ProductInput): (img: Option<Image>)
    ensures img.Some? <==> HasUpload(inp)
    ensures img.Some? ==> img.value.data == inp.imageBase64 && img.value.contentType == inp.imageContentType
  {
    if HasUpload(inp) then Some(Image(inp.imageBase64, inp.imageContentType)) else None
  }

  /**
   * The product an accepted create request stores: the name trimmed, the
   * other fields as given, an absent image URL replaced by the empty string
   * and a `null` one stored as `null`, the inline image attached only for an
   * upload. It meets the schema.
   */
  function NewProduct(inp: ProductInput): (p: Product)
    requires Acceptable(inp)
    ensures SchemaValid(p)
    ensures p.name == Trim(inp.name.value) && p.price == inp.price.value
    ensures p.discountPrice == inp.discountPrice.value && p.stock == inp.stock.value
    ensures p.description == inp.description.value
    ensures p.imageUrl == match inp.imageUrl
                          case Absent => Some("")
                          case Null => None
                          case Given(u) => Some(u)
    ensures p.image == UploadedImage(inp)
  {
    Stored(inp.name.value, inp.price.value, inp.discountPrice, inp.imageUrl,
           UploadedImage(inp), inp.description, inp.stock)
  }

  /**
   * The product an accepted update leaves: the submitted fields replace the
   * stored ones (the name trimmed), a `null` image URL clears the stored one,
   * while an absent image URL and a missing upload keep the stored URL and
   * image. It meets the schema.
   */
  function UpdatedProduct(old_: Product, inp: ProductInput): (p: Product)
    requires Acceptable(inp)
    ensures SchemaValid(p)
    ensures p.name == Trim(inp.name.value) && p.price == inp.price.value
    ensures p.discountPrice == inp.discountPrice.value && p.stock == inp.stock.value
    ensures p.description == inp.description.value
    ensures p.imageUrl == match inp.imageUrl
                          case Absent => old_.imageUrl
                          case Null => None
                          case Given(u) => Some(u)
    ensures p.image == (if HasUpload(inp) then UploadedImage(inp) else old_.image)
  {
    var url := if !inp.imageUrl.Absent? then inp.imageUrl
               else if old_.imageUrl.Some? then Given(old_.imageUrl.value) else Null;
    var img := if HasUpload(inp) then UploadedImage(inp) else old_.image;
    Stored(inp.name.value, inp.price.value, inp.discountPrice, url, img, inp.description, inp.stock)
  }

  /** Storing a schema-valid product under any id keeps every stored product schema-valid. */
  lemma ReplaceKeepsValid(m: map<ProductId, Product>, id: ProductId, p: Product)
    requires AllSchemaValid(m) && SchemaValid(p)
    ensures AllSchemaValid(m[id := p])
  {
  }

  /** Every product of a collection meets the schema. */
  predicate AllSchemaValid(m: map<ProductId, Product>)
  {
    forall k :: k in m ==> SchemaValid(m[k])
  }

  /** The reply of the image endpoint: the Content-Type header and the body. */
  datatype ImageReply = ImageReply(contentType: string, data: string)

  /** The product collection, keyed by product id. */
  class ProductStore {
    var products: map<ProductId, Product>

    /** Every stored product meets the schema. */
    ghost predicate Valid()
      reads this
    {
      AllSchemaValid(products)
    }

    constructor ()
      ensures Valid() && products == map[]
    {
      products := map[];
    }

    /**
     * POST /admin/products: a rejected input gives the first failing guard's
     * 400 and stores nothing; an accepted one is stored under the new id. A
     * new id already in use makes the insert throw: 400, nothing stored.
     */
    method Create(inp: ProductInput, newId: ProductId) returns (r: Result<Product>)
      requires Valid()
      modifies this
      ensures Valid()
      ensures Validate(inp).Some? ==> r == Err(BadRequest(Validate(inp).value)) && products == old(products)
      ensures Validate(inp).None? && newId in old(products) ==> r == Err(CreateFailed) && products == old(products)
      ensures Validate(inp).None? && newId !in old(products) ==>
                r == Ok(NewProduct(inp)) && products == old(products)[newId := NewProduct(inp)]
    {
      var failure := Validate(inp);
      if failure.Some? {
        return Err(BadRequest(failure.value));
      }
      var doc := NewProduct(inp);
      if newId in products {
        return Err(CreateFailed);
      }
      ReplaceKeepsValid(products, newId, doc);
      products := products[newId := doc];
      r := Ok(doc);
    }

    /**
     * PUT /admin/products/:id: the same validation first; then an absent id
     * gives 404 with the store unchanged, and a present one is replaced by the
     * updated product, every other product untouched.
     */
    method Update(id: ProductId, inp: ProductInput) returns (r: Result<Product>)
      requires Valid()
      modifies this
      ensures Valid()
      ensures Validate(inp).Some? ==> r == Err(BadRequest(Validate(inp).value)) && products == old(products)
      ensures Validate(inp).None? && id !in old(products) ==> r == Err(NotFound) && products == old(products)
      ensures Validate(inp).None? && id in old(products) ==>
                var p := UpdatedProduct(old(products)[id], inp);
                r == Ok(p) && products == old(products)[id := p]
    {
      var failure := Validate(inp);
      if failure.Some? {
        return Err(BadRequest(failure.value));
      }
      if id !in products {
        return Err(NotFound);
      }
      var updated := UpdatedProduct(products[id], inp);
      ReplaceKeepsValid(products, id, updated);
      products := products[id := updated];
      r := Ok(updated);
    }

    /** DELETE /admin/products/:id: 404 for an absent id; otherwise exactly that product is removed. */
    method Delete(id: ProductId) returns (r: Result<()>)
      requires Valid()
      modifies this
      ensures Valid()
      ensures id !in old(products) ==> r == Err(NotFound) && products == old(products)
      ensures id in old(products) ==> r == Ok(()) && products == old(products) - {id}
    {
      if id !in products {
        return Err(NotFound);
      }
      products := products - {id};
      r := Ok(());
    }

    /**
     * GET /admin/products/:id/image: 404 unless the product exists and has an
     * image with data; the stored content type, or a generic binary one.
     */
    method FetchImage(id: ProductId) returns (r: Result<ImageReply>)
      ensures r.Err? <==> id !in products || products[id].image.None? || products[id].image.value.data.None?
      ensures r.Err? ==> r.error == ImageNotFound
      ensures r.Ok? ==> r.value.data == products[id].image.value.data.value
      ensures r.Ok? ==> var ct := products[id].image.value.contentType;
                        r.value.contentType == if Truthy(ct) then ct.value else DefaultContentType
    {
      if id !in products || products[id].image.None? || products[id].image.value.data.None? {
        return Err(ImageNotFound);
      }
      var image := products[id].image.value;
      var contentType := if Truthy(image.contentType) then image.contentType.value else DefaultContentType;
      r := Ok(ImageReply(contentType, image.data.value));
    }
  }
}
