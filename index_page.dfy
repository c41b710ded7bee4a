/**
 * The `Index` page component of src/pages/Index.tsx as an object: its three
 * pieces of state are fields, and each event handler is one atomic state
 * transition that installs the cart value computed in module Cart.
 */
module IndexPage {
  import opened Menu
  import opened Cart

  class Index {
    /** The cart lines, in the order the dishes were first added. */
    var cart: seq<CartItem>
    /** `All` or the name of the category whose button was pressed last. */
    var selectedCategory: string
    /** Whether the cart panel is shown. */
    var isCartOpen: bool

    /** Every handler keeps one line per dish, whatever its arguments. */
    ghost predicate Valid()
      reads this
    {
      UniqueIds(cart)
    }

    /** The initial state: an empty cart, the whole menu shown, the cart panel closed. */
    constructor ()
      ensures Valid()
      ensures cart == [] && selectedCategory == All && !isCartOpen
    {
      cart := [];
      selectedCategory := All;
      isCartOpen := false;
    }

    /** `addToCart`: one more of `item`, as a new last line when the dish is not in the cart yet. */
    method AddToCart(item: MenuItem)
      requires Valid()
      modifies this
      ensures Valid()
      ensures cart == Add(old(cart), item)
      ensures selectedCategory == old(selectedCategory) && isCartOpen == old(isCartOpen)
      ensures Reachable(old(cart)) && item in Catalog() ==>
        Reachable(cart) && Total(cart) == Total(old(cart)) + item.price
    {
      AddKeepsUniqueIds(cart, item);
      if Reachable(cart) && item in Catalog() {
        AddFromCatalog(cart, item);
      }
      cart := Add(cart, item);
    }

    /** `removeFromCart`: drops the dish's line, if any. */
    method RemoveFromCart(id: int)
      requires Valid()
      modifies this
      ensures Valid()
      ensures cart == Remove(old(cart), id)
      ensures !HasLine(cart, id)
      ensures selectedCategory == old(selectedCategory) && isCartOpen == old(isCartOpen)
      ensures Reachable(old(cart)) ==> Reachable(cart)
    {
      RemoveKeepsUniqueIds(cart, id);
      RemoveIdempotent(cart, id);
      if Reachable(cart) {
        RemoveKeepsReachable(cart, id);
      }
      cart := Remove(cart, id);
    }

    /** `updateQuantity`: 0 delegates to `RemoveFromCart`; any other value overwrites the dish's quantity. */
    method UpdateQuantity(id: int, quantity: int)
      requires Valid()
      modifies this
      ensures Valid()
      ensures cart == Update(old(cart), id, quantity)
      ensures selectedCategory == old(selectedCategory) && isCartOpen == old(isCartOpen)
      ensures !HasLine(old(cart), id) ==> cart == old(cart)
    {
      UpdateKeepsUniqueIds(cart, id, quantity);
      if !HasLine(cart, id) {
        UpdateAbsent(cart, id, quantity);
      }
      if quantity == 0 {
        RemoveFromCart(id);
        return;
      }
      cart := Update(cart, id, quantity);
    }

    /** The minus button of line `k`. */
    method DecrementClicked(k: int)
      requires Valid() && 0 <= k < |cart|
      modifies this
      ensures Valid()
      ensures cart == Update(old(cart), old(cart)[k].item.id, old(cart)[k].quantity - 1)
      ensures selectedCategory == old(selectedCategory) && isCartOpen == old(isCartOpen)
      ensures Reachable(old(cart)) ==> Reachable(cart)
      ensures Total(cart) == Total(old(cart)) - old(cart)[k].item.price
    {
      var before := cart;
      DecrementEffect(before, k);
      UpdateQuantity(before[k].item.id, before[k].quantity - 1);
    }

    /** The plus button of line `k`: on a line the page can show, the same as adding its dish once more. */
    method IncrementClicked(k: int)
      requires Valid() && 0 <= k < |cart|
      modifies this
      ensures Valid()
      ensures cart == Update(old(cart), old(cart)[k].item.id, old(cart)[k].quantity + 1)
      ensures selectedCategory == old(selectedCategory) && isCartOpen == old(isCartOpen)
      ensures old(cart)[k].quantity != -1 ==> cart == Add(old(cart), old(cart)[k].item)
      ensures Reachable(old(cart)) ==> Reachable(cart)
      ensures Total(cart) == Total(old(cart)) + old(cart)[k].item.price
    {
      var before := cart;
      IncrementEffect(before, k);
      UpdateQuantity(before[k].item.id, before[k].quantity + 1);
    }

    /** `totalPrice`: the `reduce` accumulating price times quantity, line by line. */
    method TotalPrice() returns (sum: int)
      ensures sum == Total(cart) && sum == LineSum(cart)
      ensures Positive(cart) ==> sum >= 0
    {
      sum := 0;
      var i := 0;
      while i < |cart|
        invariant 0 <= i <= |cart|
        invariant Reduce(cart[i..], sum) == Total(cart)
      {
        assert cart[i..][1..] == cart[i + 1..];
        sum := sum + cart[i].item.price * cart[i].quantity;
        i := i + 1;
      }
      if Positive(cart) {
        TotalNonNegative(cart);
      }
    }

    /** `filteredItems`: the dishes the menu grid shows for the current selection. */
    function FilteredItems(): (r: seq<MenuItem>)
      reads this
      ensures selectedCategory == All ==> r == Catalog()
      ensures selectedCategory != All ==>
        forall x :: x in r <==> x in Catalog() && x.category == selectedCategory
    {
      Filtered(Catalog(), selectedCategory)
    }

    /** A category button, or the "all" button with `All`. */
    method SelectCategory(category: string)
      requires Valid()
      modifies this
      ensures Valid()
      ensures selectedCategory == category
      ensures cart == old(cart) && isCartOpen == old(isCartOpen)
    {
      selectedCategory := category;
    }

    /** The cart panel's open/close toggle. */
    method SetCartOpen(open: bool)
      requires Valid()
      modifies this
      ensures Valid()
      ensures isCartOpen == open
      ensures cart == old(cart) && selectedCategory == old(selectedCategory)
    {
      isCartOpen := open;
    }

    /** `handleOrderSubmit`: the order is placed, the cart emptied and the panel closed. */
    method HandleOrderSubmit()
      requires Valid()
      modifies this
      ensures Valid()
      ensures cart == [] && Total(cart) == 0 && !isCartOpen
      ensures Reachable(cart)
      ensures selectedCategory == old(selectedCategory)
    {
      cart := [];
      isCartOpen := false;
    }
  }
}
