/**
 * The product page: catalogue lookup by the route's id, the "other products" list,
 * the pincode field's sanitiser and delivery check, and the add-to-cart button that
 * builds the `p-<id>-<size>` cart line.
 */
module ProductDetail {
  import opened Wrappers
  import opened Text
  import CartContext

  datatype Media = Media(poster: string, video: string)

  datatype Product = Product(
    id: string,
    name: string,
    price: string,
    media: seq<Media>,
    colors: seq<string>,
    description: string)

  function Gallery(poster: string, video: string): seq<Media> {
    [Media(poster, video), Media(poster, video), Media(poster, video)]
  }

  /** The page's catalogue; the paths are given as `encodeURI` leaves them. */
  const Catalog: seq<Product> := [
    Product("1", "Spidey Motion", "₹799", Gallery("/Spidy.png", "/spidy0001-0250.mkv"),
            ["Black", "White", "Navy"],
            "Premium oversized tee with dynamic Spidey-inspired motion art."),
    Product("2", "Sound of Rain", "₹799", Gallery("/Sound%20of%20rain.png", "/soundofrain0001-0250.mkv"),
            ["White", "Black", "Grey"],
            "Ambient rain-inspired visual for calm, moody aesthetics."),
    Product("3", "Shinchan Vibes", "₹799", Gallery("/shinchan.png", "/0001-0250.mkv"),
            ["Navy", "Black", "Purple"],
            "Playful Shinchan motion graphic on premium oversized fit.")
  ]

  const Sizes: seq<string> := ["S", "M", "L", "XL", "XXL"]

  /** The price every product page puts in the cart. */
  const CartPrice: int := 799

  /** The position of the first product from `from` on whose id is `id`. */
  function IndexFrom(products: seq<Product>, id: Option<string>, from: nat): (k: Option<nat>)
    requires from <= |products|
    ensures k.Some? ==> from <= k.value < |products| && Some(products[k.value].id) == id
    ensures k.Some? ==> forall j :: from <= j < k.value ==> Some(products[j].id) != id
    ensures k.None? ==> forall j :: from <= j < |products| ==> Some(products[j].id) != id
    decreases |products| - from
  {
    if from == |products| then None
    else if Some(products[from].id) == id then Some(from)
    else IndexFrom(products, id, from + 1)
  }

  /** `products.find(p => p.id === id)`; the route's id is `None` when the parameter is missing. */
  function FindProduct(products: seq<Product>, id: Option<string>): Option<Product> {
    match IndexFrom(products, id, 0)
    case Some(k) => Some(products[k])
    case None => None
  }

  /** The lookup returns the first product with the id, and nothing exactly when no product has it. */
  lemma FindProductFirst(products: seq<Product>, id: Option<string>)
    ensures FindProduct(products, id).None? <==> forall j :: 0 <= j < |products| ==> Some(products[j].id) != id
    ensures FindProduct(products, id).Some? ==>
      exists k :: 0 <= k < |products| && products[k] == FindProduct(products, id).value &&
        Some(products[k].id) == id && forall j :: 0 <= j < k ==> Some(products[j].id) != id
  {
    var k := IndexFrom(products, id, 0);
    if k.Some? {
      assert products[k.value] == FindProduct(products, id).value;
    }
  }

  /** `products.filter(p => p.id !== id)`. */
  function OtherProducts(products: seq<Product>, id: Option<string>): seq<Product> {
    if products == [] then []
    else if Some(products[0].id) != id then [products[0]] + OtherProducts(products[1..], id)
    else OtherProducts(products[1..], id)
  }

  /** The other products are exactly those with another id. */
  lemma {:induction false} OtherProductsMembers(products: seq<Product>, id: Option<string>)
    ensures forall p :: p in OtherProducts(products, id) <==> p in products && Some(p.id) != id
  {
    if products != [] {
      OtherProductsMembers(products[1..], id);
      assert products == [products[0]] + products[1..];
    }
  }

  /** The filter keeps the catalogue's order: it works piecewise over any split. */
  lemma {:induction false} OtherProductsOrder(a: seq<Product>, b: seq<Product>, id: Option<string>)
    ensures OtherProducts(a + b, id) == OtherProducts(a, id) + OtherProducts(b, id)
  {
    if a != [] {
      assert (a + b)[1..] == a[1..] + b;
      OtherProductsOrder(a[1..], b, id);
    } else {
      assert a + b == b;
    }
  }

  /** On the page of product 2 the other products are 1 and 3, in that order. */
  lemma OtherProductsOfSecond()
    ensures OtherProducts(Catalog, Some("2")) == [Catalog[0], Catalog[2]]
  {
    assert Catalog[1..] == [Catalog[1], Catalog[2]];
    assert Catalog[1..][1..] == [Catalog[2]];
  }

  /** What the route renders. */
  datatype View = NotFound | Detail(product: Product, others: seq<Product>)

  function Render(id: Option<string>): View {
    match FindProduct(Catalog, id)
    case None => NotFound
    case Some(p) => Detail(p, OtherProducts(Catalog, id))
  }

  /** An unknown id renders "Product not found"; a known one renders that product without itself in the list. */
  lemma RenderCases(id: Option<string>)
    ensures Render(id).NotFound? <==> forall j :: 0 <= j < |Catalog| ==> Some(Catalog[j].id) != id
    ensures Render(id).Detail? ==> Some(Render(id).product.id) == id && Render(id).product !in Render(id).others
  {
    OtherProductsMembers(Catalog, id);
    FindProductFirst(Catalog, id);
  }

  // ---------------------------------------------------------------------------
  // Pincode

  /** The field's `onChange`: `value.replace(/\D/g, "").slice(0, 6)`. */
  function SanitizePincode(raw: string): string {
    var d := Digits(raw);
    if |d| <= 6 then d else d[..6]
  }

  /**
   * The stored pincode holds only digits, at most six, and is the start of the input's
   * digits; it takes all of them when there are six or fewer. Sanitising again changes nothing.
   */
  lemma SanitizePincodeSpec(raw: string)
    ensures AllDigits(SanitizePincode(raw)) && |SanitizePincode(raw)| <= 6
    ensures SanitizePincode(raw) <= Digits(raw)
    ensures |SanitizePincode(raw)| == if |Digits(raw)| <= 6 then |Digits(raw)| else 6
    ensures SanitizePincode(SanitizePincode(raw)) == SanitizePincode(raw)
  {
    DigitsOfDigits(SanitizePincode(raw));
  }

  // ---------------------------------------------------------------------------
  // Cart line

  /** The cart id `p-<product id>-<size>`. */
  function CartId(productId: string, size: string): string {
    "p-" + productId + "-" + size
  }

  /** The argument `handleAddToCart` passes to `addItem` once a size is chosen. */
  function CartLine(product: Product, image: nat, size: string): CartContext.NewItem
    requires image < |product.media|
  {
    CartContext.NewItem(CartId(product.id, size), product.name, CartPrice,
                        product.media[image].poster, None, None, Some(size))
  }

  lemma DashFollows(a: string, b: string)
    ensures (a + "-" + b)[|a|] == '-'
    ensures forall i :: 0 <= i < |a| ==> (a + "-" + b)[i] == a[i]
  {
  }

  lemma {:induction false} SplitAtDash(a: string, b: string, c: string, d: string)
    requires '-' !in a && '-' !in c
    requires a + "-" + b == c + "-" + d
    ensures a == c && b == d
  {
    var x := a + "-" + b;
    DashFollows(a, b);
    DashFollows(c, d);
    assert a == x[..|a|] == c;
    assert b == x[|a| + 1..] == d;
  }

  /** Distinct products or sizes get distinct cart ids, so they never merge into one cart line. */
  lemma CartIdInjective(p1: string, s1: string, p2: string, s2: string)
    requires '-' !in p1 && '-' !in p2
    requires CartId(p1, s1) == CartId(p2, s2)
    ensures p1 == p2 && s1 == s2
  {
    var x := CartId(p1, s1);
    assert x == "p-" + (p1 + "-" + s1);
    assert x == "p-" + (p2 + "-" + s2);
    assert x[2..] == p1 + "-" + s1;
    assert x[2..] == p2 + "-" + s2;
    SplitAtDash(p1, s1, p2, s2);
  }

  /** The catalogue's ids contain no dash. */
  lemma CatalogIdsHaveNoDash(p: Product)
    requires p in Catalog
    ensures '-' !in p.id
  {
  }

  /** Within the catalogue, two cart lines share a key only for the same product id and size. */
  lemma CatalogCartIdsDistinct(p1: Product, s1: string, p2: Product, s2: string)
    requires p1 in Catalog && p2 in Catalog
    requires CartId(p1.id, s1) == CartId(p2.id, s2)
    ensures p1.id == p2.id && s1 == s2
  {
    CatalogIdsHaveNoDash(p1);
    CatalogIdsHaveNoDash(p2);
    CartIdInjective(p1.id, s1, p2.id, s2);
  }

  // ---------------------------------------------------------------------------
  // The page's state as updated by its handlers

  datatype Notice = DeliveryAvailable | InvalidPincode

  class ProductPage {
    const product: Product
    var selectedImage: nat
    var selectedSize: string
    var pincode: string
    var deliveryChecked: bool

    ghost predicate Valid()
      reads this
    {
      selectedImage < |product.media| && AllDigits(pincode) && |pincode| <= 6
    }

    constructor (p: Product)
      requires |p.media| > 0
      ensures Valid() && product == p
      ensures selectedImage == 0 && selectedSize == "" && pincode == "" && !deliveryChecked
    {
      product := p;
      selectedImage := 0;
      selectedSize := "";
      pincode := "";
      deliveryChecked := false;
    }

    method SelectSize(size: string)
      requires Valid() && size in Sizes
      modifies this
      ensures Valid() && selectedSize == size
      ensures selectedImage == old(selectedImage) && pincode == old(pincode) && deliveryChecked == old(deliveryChecked)
    {
      selectedSize := size;
    }

    /** A gallery thumbnail's click. */
    method SelectImage(index: nat)
      requires Valid() && index < |product.media|
      modifies this
      ensures Valid() && selectedImage == index
      ensures selectedSize == old(selectedSize) && pincode == old(pincode) && deliveryChecked == old(deliveryChecked)
    {
      selectedImage := index;
    }

    /** The pincode field's `onChange`. */
    method PincodeChanged(raw: string)
      requires Valid()
      modifies this
      ensures Valid() && pincode == SanitizePincode(raw)
      ensures selectedImage == old(selectedImage) && selectedSize == old(selectedSize) && deliveryChecked == old(deliveryChecked)
    {
      pincode := SanitizePincode(raw);
      SanitizePincodeSpec(raw);
    }

    /** `handleCheckDelivery`: six digits set the flag; anything else only warns. */
    method CheckDelivery() returns (notice: Notice)
      requires Valid()
      modifies this
      ensures Valid()
      ensures |pincode| == 6 ==> deliveryChecked && notice == DeliveryAvailable
      ensures |pincode| != 6 ==> deliveryChecked == old(deliveryChecked) && notice == InvalidPincode
      ensures pincode == old(pincode) && selectedSize == old(selectedSize) && selectedImage == old(selectedImage)
    {
      if |pincode| == 6 {
        deliveryChecked := true;
        notice := DeliveryAvailable;
      } else {
        notice := InvalidPincode;
      }
    }

    /** `handleAddToCart`: the `addItem` call it makes, or none when no size is chosen. */
    method AddToCart() returns (call: Option<CartContext.NewItem>)
      requires Valid()
      ensures call.None? <==> selectedSize == ""
      ensures call.Some? ==> call.value == CartLine(product, selectedImage, selectedSize)
      ensures call.Some? ==> call.value.id == CartId(product.id, selectedSize) && call.value.price == CartPrice
      ensures call.Some? ==> call.value.image == product.media[selectedImage].poster
      ensures call.Some? ==> call.value.color.None? && call.value.size == Some(selectedSize)
      ensures call.Some? ==> call.value.name == product.name && call.value.quantity.None?
    {
      if selectedSize == "" {
        return None;
      }
      call := Some(CartLine(product, selectedImage, selectedSize));
    }
  }
}
