/** The quantity selector of components/ProductDetails.tsx and the add
    requests the detail page sends to the storefront. */
module ProductDetails {
  import opened Types

  /** The arguments of one `onAddToCart(product, quantity)` call. */
  datatype AddRequest = AddRequest(product: Product, quantity: int)

  /** The larger of one and `quantity + delta`: never below one, otherwise
      the plain sum. */
  function Clamp(quantity: int, delta: int): (r: int)
    ensures r >= 1 && r >= quantity + delta
    ensures r == 1 || r == quantity + delta
  {
    if quantity + delta > 1 then quantity + delta else 1
  }

  /** The minus button at one keeps one; the plus button adds exactly one;
      the minus button above one takes exactly one away. */
  lemma StepButtons(quantity: int)
    requires quantity >= 1
    ensures Clamp(1, -1) == 1
    ensures Clamp(quantity, 1) == quantity + 1
    ensures quantity > 1 ==> Clamp(quantity, -1) == quantity - 1
  {
  }

  class Panel {
    var product: Product
    var quantity: int
    var selectedSize: string
    var selectedColor: string

    ghost predicate Valid()
      reads this
    {
      quantity >= 1
    }

    /** Mounting the page for `p`. */
    constructor (p: Product)
      ensures product == p && quantity == 1 && selectedSize == "" && selectedColor == ""
      ensures Valid()
    {
      product := p;
      quantity := 1;
      selectedSize := "";
      selectedColor := "";
    }

    /** `handleQuantityChange(delta)`. */
    method ChangeQuantity(delta: int)
      modifies this`quantity
      ensures quantity == Clamp(old(quantity), delta)
      ensures Valid()
    {
      quantity := Clamp(quantity, delta);
    }

    /** A new `product` prop, as when a related card is clicked. When its id
        differs, the effect on `product.id` resets quantity, size and colour;
        with the same id they are kept. */
    method ShowProduct(p: Product)
      modifies this
      ensures product == p
      ensures old(product).id != p.id ==> quantity == 1 && selectedSize == "" && selectedColor == ""
      ensures old(product).id == p.id ==>
                quantity == old(quantity) && selectedSize == old(selectedSize) && selectedColor == old(selectedColor)
      ensures old(Valid()) ==> Valid()
    {
      var changed := product.id != p.id;
      product := p;
      if changed {
        quantity := 1;
        selectedSize := "";
        selectedColor := "";
      }
    }

    method SelectSize(size: string)
      modifies this`selectedSize
      ensures selectedSize == size
    {
      selectedSize := size;
    }

    method SelectColor(color: string)
      modifies this`selectedColor
      ensures selectedColor == color
    {
      selectedColor := color;
    }

    /** "Add to Cart" and "Order Now": both send the shown product with the
        selected quantity, which is at least one, and change nothing here. */
    method AddToCartClicked() returns (request: AddRequest)
      requires Valid()
      ensures request.product == product && request.quantity == quantity
      ensures request.quantity >= 1
    {
      request := AddRequest(product, quantity);
    }

    /** A related card's add button sends that card's product with one unit,
        whatever the selector shows. */
    method RelatedAddClicked(p: Product) returns (request: AddRequest)
      ensures request.product == p && request.quantity == 1
    {
      request := AddRequest(p, 1);
    }
  }
}
