/** The state controller of App.tsx: the five pieces of state the root
    component holds (plus the search text) and the named handlers that
    replace them. The cart transforms themselves are the functions of
    module Cart. */
module Storefront {
  import opened Types
  import Cart
  import Catalog
  import ProductDetails
  import Sequences

  class App {
    var currentView: View
    var cart: seq<CartItem>
    var isLoggedIn: bool
    var isCartOpen: bool
    var searchQuery: string
    var selectedProduct: Option<Product>

    /** Fresh page load. `saved` is the cart read back from browser storage;
        `None` stands for a missing entry or one that fails to parse, both of
        which start with an empty cart. */
    constructor (saved: Option<seq<CartItem>>)
      ensures currentView == Home && !isLoggedIn && !isCartOpen
      ensures cart == (if saved.Some? then saved.value else [])
      ensures searchQuery == "" && selectedProduct == None
    {
      currentView := Home;
      cart := if saved.Some? then saved.value else [];
      isLoggedIn := false;
      isCartOpen := false;
      searchQuery := "";
      selectedProduct := None;
    }

    /** Unique ids and positive quantities, which every handler keeps. */
    ghost predicate CartWellFormed()
      reads this
    {
      Cart.WellFormed(cart)
    }

    /** The badge number: total units in the cart. */
    function CartCount(): int
      reads this
    {
      Cart.Count(cart)
    }

    /** The drawer total, in cents. */
    function CartTotal(): int
      reads this
    {
      Cart.Total(cart)
    }

    /** The products listed on the shop page: in catalog order, exactly
        those whose name matches the search text. */
    function FilteredProducts(): (r: seq<Product>)
      reads this
      ensures forall p :: p in r <==> p in Catalog.Products && Catalog.NameMatches(p, searchQuery)
      ensures Sequences.IsSubsequence(r, Catalog.Products)
    {
      Catalog.FilterIsSubsequence(Catalog.Products, searchQuery);
      Catalog.Filter(searchQuery)
    }

    /** The detail page takes the place of the current view exactly when a
        product is selected and the view is not the login page. */
    predicate DetailsShown()
      reads this
    {
      selectedProduct.Some? && currentView != View.Login
    }

    /** The related strip handed to the detail page: four catalog products,
        none of them the selected one. */
    function RelatedProducts(): (r: seq<Product>)
      reads this
      requires selectedProduct.Some?
      ensures |r| == 4
      ensures forall p :: p in r ==> p in Catalog.Products && p.id != selectedProduct.value.id
    {
      Catalog.RelatedProperties(selectedProduct.value.id);
      Catalog.Related(selectedProduct.value.id)
    }

    /** `handleSetCurrentView`: clears the selection, then switches view. */
    method SetCurrentView(view: View)
      modifies this
      ensures currentView == view && selectedProduct == None && !DetailsShown()
      ensures cart == old(cart) && isLoggedIn == old(isLoggedIn)
      ensures isCartOpen == old(isCartOpen) && searchQuery == old(searchQuery)
    {
      selectedProduct := None;
      currentView := view;
    }

    /** `handleLogin`: authenticates and redirects to the shop, without
        touching the selection, so a product selected before the redirect to
        the login page is shown again. */
    method Login()
      modifies this
      ensures isLoggedIn && currentView == Shop
      ensures DetailsShown() == old(selectedProduct).Some?
      ensures cart == old(cart) && selectedProduct == old(selectedProduct)
      ensures isCartOpen == old(isCartOpen) && searchQuery == old(searchQuery)
    {
      isLoggedIn := true;
      currentView := Shop;
    }

    /** `handleLogout`: drops the session and the whole cart, back to home. */
    method Logout()
      modifies this
      ensures !isLoggedIn && cart == [] && currentView == Home
      ensures CartCount() == 0 && CartTotal() == 0 && CartWellFormed()
      ensures selectedProduct == old(selectedProduct)
      ensures isCartOpen == old(isCartOpen) && searchQuery == old(searchQuery)
    {
      isLoggedIn := false;
      cart := [];
      currentView := Home;
    }

    /** `addToCart(product, quantity)`. Logged out, only the view changes, to
        the login page (the selection is kept, but the login page hides the
        detail overlay). Logged in, the cart becomes `Cart.AddItem` of the
        old cart and the drawer opens. */
    method AddToCart(product: Product, quantity: int)
      modifies this
      ensures !old(isLoggedIn) ==>
                cart == old(cart) && isCartOpen == old(isCartOpen) && currentView == View.Login && !DetailsShown()
      ensures old(isLoggedIn) ==>
                cart == Cart.AddItem(old(cart), product, quantity) && isCartOpen && currentView == old(currentView)
      ensures old(isLoggedIn) && Cart.UniqueIds(old(cart)) ==> CartCount() == old(CartCount()) + quantity
      ensures old(CartWellFormed()) && quantity >= 1 ==> CartWellFormed()
      ensures isLoggedIn == old(isLoggedIn) && selectedProduct == old(selectedProduct)
      ensures searchQuery == old(searchQuery)
    {
      if !isLoggedIn {
        currentView := View.Login;
        return;
      }
      ghost var before := cart;
      cart := Cart.AddItem(cart, product, quantity);
      isCartOpen := true;
      if Cart.UniqueIds(before) {
        Cart.AddRaisesCount(before, product, quantity);
      }
      if Cart.WellFormed(before) && quantity >= 1 {
        Cart.AddKeepsWellFormed(before, product, quantity);
      }
    }

    /** `removeFromCart(id)`: the cart becomes `Cart.RemoveId` of the old cart;
        nothing else changes, whether or not the user is logged in. */
    method RemoveFromCart(id: int)
      modifies this
      ensures cart == Cart.RemoveId(old(cart), id)
      ensures !Cart.InCart(old(cart), id) ==> cart == old(cart)
      ensures CartCount() == old(CartCount()) - Cart.QuantityOf(old(cart), id)
      ensures old(CartWellFormed()) ==> CartWellFormed()
      ensures currentView == old(currentView) && isLoggedIn == old(isLoggedIn)
      ensures isCartOpen == old(isCartOpen) && selectedProduct == old(selectedProduct)
      ensures searchQuery == old(searchQuery)
    {
      ghost var before := cart;
      cart := Cart.RemoveId(cart, id);
      if !Cart.InCart(before, id) {
        Cart.RemoveAbsent(before, id);
      }
      Cart.RemoveLowersCount(before, id);
      if Cart.WellFormed(before) {
        Cart.RemoveKeepsWellFormed(before, id);
      }
    }

    /** Typing in the shop's search box; the shop page then lists
        `FilteredProducts()` for the new text. */
    method SetSearchQuery(query: string)
      modifies this
      ensures searchQuery == query
      ensures currentView == old(currentView) && cart == old(cart) && isLoggedIn == old(isLoggedIn)
      ensures isCartOpen == old(isCartOpen) && selectedProduct == old(selectedProduct)
    {
      searchQuery := query;
    }

    /** Clicking a product card, on any page or in the related strip. */
    method SelectProduct(product: Product)
      modifies this
      ensures selectedProduct == Some(product)
      ensures DetailsShown() <==> currentView != View.Login
      ensures forall p :: p in RelatedProducts() ==> p.id != product.id
      ensures currentView == old(currentView) && cart == old(cart) && isLoggedIn == old(isLoggedIn)
      ensures isCartOpen == old(isCartOpen) && searchQuery == old(searchQuery)
    {
      selectedProduct := Some(product);
    }

    /** The detail page's back button. */
    method CloseDetails()
      modifies this
      ensures selectedProduct == None && !DetailsShown()
      ensures currentView == old(currentView) && cart == old(cart) && isLoggedIn == old(isLoggedIn)
      ensures isCartOpen == old(isCartOpen) && searchQuery == old(searchQuery)
    {
      selectedProduct := None;
    }

    /** The navigation bar's cart button. */
    method OpenCart()
      modifies this`isCartOpen
      ensures isCartOpen
    {
      isCartOpen := true;
    }

    /** The drawer's backdrop and close button. */
    method CloseCart()
      modifies this`isCartOpen
      ensures !isCartOpen
    {
      isCartOpen := false;
    }

    /** The empty drawer's "Go Shopping" button. */
    method GoShopping()
      modifies this
      ensures !isCartOpen && currentView == Shop && selectedProduct == None
      ensures cart == old(cart) && isLoggedIn == old(isLoggedIn) && searchQuery == old(searchQuery)
    {
      isCartOpen := false;
      SetCurrentView(Shop);
    }
  }

  /** The detail page's "Add to Cart" or "Order Now" button: the panel's
      request goes to `addToCart` unchanged. As the panel's quantity is at
      least one, a well-formed cart stays well-formed. */
  method AddFromDetails(app: App, panel: ProductDetails.Panel)
    requires panel.Valid()
    modifies app
    ensures old(app.CartWellFormed()) ==> app.CartWellFormed()
    ensures old(app.isLoggedIn) ==> app.cart == Cart.AddItem(old(app.cart), panel.product, panel.quantity)
    ensures !old(app.isLoggedIn) ==> app.cart == old(app.cart) && app.currentView == View.Login
  {
    var request := panel.AddToCartClicked();
    app.AddToCart(request.product, request.quantity);
  }

  /** A related card's add button, which always asks for one unit. */
  method AddFromRelated(app: App, panel: ProductDetails.Panel, product: Product)
    modifies app
    ensures old(app.CartWellFormed()) ==> app.CartWellFormed()
    ensures old(app.isLoggedIn) ==> app.cart == Cart.AddItem(old(app.cart), product, 1)
    ensures !old(app.isLoggedIn) ==> app.cart == old(app.cart) && app.currentView == View.Login
  {
    var request := panel.RelatedAddClicked(product);
    app.AddToCart(request.product, request.quantity);
  }

  /** A worked session: log in, add a figure twice, remove it, log out. */
  method ShoppingSession()
  {
    var app := new App(None);
    var figure := Catalog.Products[0];
    app.AddToCart(figure, 1);
    assert app.cart == [] && app.currentView == View.Login;
    app.Login();
    app.AddToCart(figure, 1);
    Cart.AddNew([], figure, 1);
    assert app.cart == [CartItem(figure, 1)];
    app.AddToCart(figure, 2);
    assert app.CartCount() == 3;
    app.RemoveFromCart(figure.id);
    app.Logout();
    assert app.cart == [] && app.currentView == Home;
  }
}
