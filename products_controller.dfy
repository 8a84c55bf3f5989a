/** The admin product endpoints: the creation check, the field-by-field edit merge with
    JavaScript's falsy fallback, the not-found paths of edit and delete, and the
    newest-first listing. The product collection is a sequence in creation order. */
module ProductsController {
  import opened Js

  /** The product fields as they arrive in a request body or sit in the store. */
  datatype ProductFields = ProductFields(image: Value, title: Value, description: Value,
                                         category: Value, brand: Value, price: Value,
                                         salePrice: Value, totalStock: Value, averageReview: Value)

  datatype StoredProduct = StoredProduct(id: nat, fields: ProductFields)

  datatype Reply =
    | Failure(status: nat, message: string)
    | Saved(status: nat, product: StoredProduct)
    | Listing(count: nat, data: seq<StoredProduct>)
    | Deleted(message: string, product: StoredProduct)

  const MissingRequired := Failure(400, "Required fields are missing")
  const UploadFailed := Failure(500, "Error Occurred while uploading a product")
  const NotFound := Failure(404, "Product not found")
  const EditFailed := Failure(500, "Error Occurred while editing a product")
  const DeleteFailed := Failure(500, "Error Occurred while deleting a product")

  /** `AddProduct`'s check: image, title, category, price and totalStock must be truthy. */
  predicate CreationAccepted(body: ProductFields)
  {
    Truthy(body.image) && Truthy(body.title) && Truthy(body.category)
    && Truthy(body.price) && Truthy(body.totalStock)
  }

  /** A numeric zero price or stock is refused, though the string "0" is not. */
  lemma ZeroIsMissing(body: ProductFields)
    ensures body.price == Num(0) || body.totalStock == Num(0) ==> !CreationAccepted(body)
    ensures (Truthy(body.image) && Truthy(body.title) && Truthy(body.category)
             && body.price == Str("0") && body.totalStock == Str("0")) ==> CreationAccepted(body)
  {
  }

  /** Description, brand, sale price and average review play no part in the check. */
  lemma OptionalFieldsIgnored(body: ProductFields, description: Value, brand: Value, salePrice: Value, averageReview: Value)
    ensures CreationAccepted(body)
            == CreationAccepted(body.(description := description, brand := brand,
                                      salePrice := salePrice, averageReview := averageReview))
  {
  }

  /** The document `AddProduct` saves: the body's eight fields; the average review is not
      taken from the body. */
  function Created(body: ProductFields): (p: ProductFields)
    ensures p.averageReview == Null
    ensures p.(averageReview := body.averageReview) == body
  {
    body.(averageReview := Null)
  }

  /** The price and sale-price rule: the empty string clears the field to 0, any other
      falsy value keeps the old one. */
  function PriceEdit(incoming: Value, current: Value): (r: Value)
    ensures incoming == Str("") ==> r == Num(0)
    ensures incoming != Str("") && Truthy(incoming) ==> r == incoming
    ensures incoming != Str("") && !Truthy(incoming) ==> r == current
  {
    if incoming == Str("") then Num(0) else Or(incoming, current)
  }

  /** The edit as a whole, field by field: `incoming || old`, with the price rule for the
      two prices. */
  function MergeEdit(current: ProductFields, body: ProductFields): ProductFields
  {
    ProductFields(Or(body.image, current.image), Or(body.title, current.title),
                  Or(body.description, current.description), Or(body.category, current.category),
                  Or(body.brand, current.brand), PriceEdit(body.price, current.price),
                  PriceEdit(body.salePrice, current.salePrice), Or(body.totalStock, current.totalStock),
                  Or(body.averageReview, current.averageReview))
  }

  /** An edit that sends only falsy values, none of them the empty string for a price,
      changes nothing. */
  lemma FalsyEditKeepsProduct(current: ProductFields, body: ProductFields)
    requires !Truthy(body.image) && !Truthy(body.title) && !Truthy(body.description)
    requires !Truthy(body.category) && !Truthy(body.brand) && !Truthy(body.totalStock)
    requires !Truthy(body.averageReview)
    requires !Truthy(body.price) && body.price != Str("")
    requires !Truthy(body.salePrice) && body.salePrice != Str("")
    ensures MergeEdit(current, body) == current
  {
  }

  /** A truthy field always lands in the product. */
  lemma TruthyEditLands(current: ProductFields, body: ProductFields)
    ensures Truthy(body.title) ==> MergeEdit(current, body).title == body.title
    ensures Truthy(body.image) ==> MergeEdit(current, body).image == body.image
    ensures Truthy(body.totalStock) ==> MergeEdit(current, body).totalStock == body.totalStock
    ensures Truthy(body.price) ==> MergeEdit(current, body).price == body.price
  {
  }

  /** After an edit the price is the number 0 exactly when the body sent "", or sent
      nothing usable and the price was already 0: a numeric 0 in the body does not zero it,
      while the string "0" a form sends is truthy and is kept as it is. */
  lemma PriceZeroOnlyByEmptyString(current: ProductFields, body: ProductFields)
    ensures MergeEdit(current, body).price == Num(0)
            <==> body.price == Str("") || (!Truthy(body.price) && current.price == Num(0))
    ensures body.price == Num(0) ==> MergeEdit(current, body).price == current.price
    ensures body.price == Str("0") ==> MergeEdit(current, body).price == Str("0")
  {
  }

  /** No edit can make a stocked product's stock falsy, the number 0 included; the string
      "0" a form sends is truthy and is kept as it is. */
  lemma StockNeverZeroed(current: ProductFields, body: ProductFields)
    requires Truthy(current.totalStock)
    ensures Truthy(MergeEdit(current, body).totalStock)
    ensures MergeEdit(current, body).totalStock != Num(0)
    ensures body.totalStock == Str("0") ==> MergeEdit(current, body).totalStock == Str("0")
  {
  }

  /** `Product.find({}).sort({ createdAt: -1 })`: the collection, last created first. */
  function NewestFirst(ps: seq<StoredProduct>): (r: seq<StoredProduct>)
    ensures |r| == |ps|
    ensures forall i :: 0 <= i < |ps| ==> r[i] == ps[|ps| - 1 - i]
  {
    if |ps| == 0 then [] else [ps[|ps| - 1]] + NewestFirst(ps[..|ps| - 1])
  }

  /** Ids grow with creation order. */
  predicate Increasing(ps: seq<StoredProduct>)
  {
    forall i, j :: 0 <= i < j < |ps| ==> ps[i].id < ps[j].id
  }

  /** With ids in creation order, the listing's ids go down. */
  lemma NewestFirstDescending(ps: seq<StoredProduct>)
    requires Increasing(ps)
    ensures forall i, j :: 0 <= i < j < |ps| ==> NewestFirst(ps)[i].id > NewestFirst(ps)[j].id
  {
  }

  /** `findById`: the position of the product with this id. */
  function Find(ps: seq<StoredProduct>, id: nat): (k: int)
    ensures -1 <= k < |ps|
    ensures k >= 0 ==> ps[k].id == id
    ensures k == -1 <==> forall j :: 0 <= j < |ps| ==> ps[j].id != id
  {
    if |ps| == 0 then -1
    else if ps[0].id == id then 0
    else
      var k := Find(ps[1..], id);
      assert forall j :: 1 <= j < |ps| ==> ps[j] == ps[1..][j - 1];
      if k == -1 then -1 else k + 1
  }

  /** `ps` without its `k`-th element. */
  function RemoveAt(ps: seq<StoredProduct>, k: nat): (r: seq<StoredProduct>)
    requires k < |ps|
    ensures |r| == |ps| - 1
  {
    ps[..k] + ps[k + 1..]
  }

  /** Removing one product keeps the ids increasing, drops every product with its id, and
      keeps only products that were there. */
  lemma RemovalKeepsOrder(ps: seq<StoredProduct>, k: nat)
    requires Increasing(ps) && k < |ps|
    ensures Increasing(RemoveAt(ps, k))
    ensures forall j :: 0 <= j < |ps| - 1 ==> RemoveAt(ps, k)[j].id != ps[k].id
    ensures forall j :: 0 <= j < |ps| - 1 ==> RemoveAt(ps, k)[j] in ps
  {
    var r := RemoveAt(ps, k);
    forall j | 0 <= j < |r|
      ensures r[j] == ps[if j < k then j else j + 1]
    {
    }
  }

  /** The product collection. */
  class ProductCatalog {
    var products: seq<StoredProduct>
    var nextId: nat

    /** Ids are handed out in increasing order and are all below the next one. */
    predicate Valid()
      reads this
    {
      Increasing(products) && forall i :: 0 <= i < |products| ==> products[i].id < nextId
    }

    constructor ()
      ensures Valid() && products == [] && nextId == 0
    {
      products := [];
      nextId := 0;
    }

    /** `AddProduct`; `saveFails` stands for the store refusing the document. */
    method AddProduct(body: ProductFields, saveFails: bool) returns (reply: Reply)
      requires Valid()
      modifies this
      ensures Valid()
      ensures !CreationAccepted(body) ==> reply == MissingRequired && products == old(products) && nextId == old(nextId)
      ensures CreationAccepted(body) && saveFails ==> reply == UploadFailed && products == old(products) && nextId == old(nextId)
      ensures CreationAccepted(body) && !saveFails ==>
                && reply == Saved(201, StoredProduct(old(nextId), Created(body)))
                && products == old(products) + [reply.product]
                && nextId == old(nextId) + 1
    {
      if !CreationAccepted(body) {
        return MissingRequired;
      }
      if saveFails {
        return UploadFailed;
      }
      var p := StoredProduct(nextId, Created(body));
      products := products + [p];
      nextId := nextId + 1;
      reply := Saved(201, p);
    }

    /** `fetchAllProducts`: the count is the length of the newest-first list. */
    method FetchAll() returns (reply: Reply)
      requires Valid()
      ensures reply.Listing? && reply.data == NewestFirst(products) && reply.count == |reply.data|
      ensures reply.count == |products|
    {
      var data := NewestFirst(products);
      reply := Listing(|data|, data);
    }

    /** `editProduct`: the nine assignments on the loaded document, then the save. */
    method EditProduct(id: nat, body: ProductFields, saveFails: bool) returns (reply: Reply)
      requires Valid()
      modifies this`products
      ensures Valid()
      ensures Find(old(products), id) == -1 ==> reply == NotFound && products == old(products)
      ensures Find(old(products), id) >= 0 && saveFails ==> reply == EditFailed && products == old(products)
      ensures Find(old(products), id) >= 0 && !saveFails ==>
                var k := Find(old(products), id);
                && reply == Saved(200, StoredProduct(id, MergeEdit(old(products)[k].fields, body)))
                && products == old(products)[k := reply.product]
    {
      var k := Find(products, id);
      if k == -1 {
        return NotFound;
      }
      var p := products[k].fields;
      p := p.(title := Or(body.title, p.title));
      p := p.(description := Or(body.description, p.description));
      p := p.(category := Or(body.category, p.category));
      p := p.(brand := Or(body.brand, p.brand));
      p := p.(price := if body.price == Str("") then Num(0) else Or(body.price, p.price));
      p := p.(salePrice := if body.salePrice == Str("") then Num(0) else Or(body.salePrice, p.salePrice));
      p := p.(totalStock := Or(body.totalStock, p.totalStock));
      p := p.(image := Or(body.image, p.image));
      p := p.(averageReview := Or(body.averageReview, p.averageReview));
      if saveFails {
        return EditFailed;
      }
      var saved := StoredProduct(id, p);
      products := products[k := saved];
      reply := Saved(200, saved);
    }

    /** `deleteProduct`: `deleteFails` stands for `findByIdAndDelete` throwing, which is
        answered with 500 before the result is looked at; otherwise 404 for an unknown id,
        else the product is removed. */
    method DeleteProduct(id: nat, deleteFails: bool) returns (reply: Reply)
      requires Valid()
      modifies this`products
      ensures Valid()
      ensures deleteFails ==> reply == DeleteFailed && products == old(products)
      ensures !deleteFails && Find(old(products), id) == -1 ==> reply == NotFound && products == old(products)
      ensures !deleteFails && Find(old(products), id) >= 0 ==>
                var k := Find(old(products), id);
                && reply == Deleted("Product deleted successfully", old(products)[k])
                && products == RemoveAt(old(products), k)
      ensures !deleteFails ==> forall j :: 0 <= j < |products| ==> products[j].id != id
    {
      if deleteFails {
        return DeleteFailed;
      }
      var k := Find(products, id);
      if k == -1 {
        return NotFound;
      }
      reply := Deleted("Product deleted successfully", products[k]);
      RemovalKeepsOrder(products, k);
      products := RemoveAt(products, k);
    }
  }
}
