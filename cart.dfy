/**
 * The shopping cart of the cafeteria page (src/pages/Index.tsx): the cart
 * line type and the pure computation of each new cart value that the page's
 * handlers hand to React, with the properties those handlers promise.
 */
module Cart {
  import opened Menu

  /** A dish of the catalog together with how many of it were ordered. */
  datatype CartItem = CartItem(item: MenuItem, quantity: int)

  datatype Option<T> = None | Some(value: T)

  /** What one line contributes to the bill. */
  function LineTotal(line: CartItem): int
  {
    line.item.price * line.quantity
  }

  /** Some line of the cart carries dish `id`. */
  ghost predicate HasLine(cart: seq<CartItem>, id: int)
  {
    exists k :: 0 <= k < |cart| && cart[k].item.id == id
  }

  /** At most one line per dish id. */
  ghost predicate UniqueIds(cart: seq<CartItem>)
  {
    forall i, j :: 0 <= i < j < |cart| ==> cart[i].item.id != cart[j].item.id
  }

  /** Every line has quantity at least 1. */
  ghost predicate Positive(cart: seq<CartItem>)
  {
    forall k :: 0 <= k < |cart| ==> cart[k].quantity >= 1
  }

  /** Every line holds a dish of the catalog. */
  ghost predicate FromCatalog(cart: seq<CartItem>)
  {
    forall k :: 0 <= k < |cart| ==> cart[k].item in Catalog()
  }

  /** The states the page's buttons can reach: one positive line per catalog dish. */
  ghost predicate Reachable(cart: seq<CartItem>)
  {
    UniqueIds(cart) && Positive(cart) && FromCatalog(cart)
  }

  /** `find` on the dish id: the first line carrying `id`, if any. */
  function Find(cart: seq<CartItem>, id: int): (r: Option<CartItem>)
    ensures r.None? <==> !HasLine(cart, id)
    ensures r.Some? ==> r.value.item.id == id
    ensures r.Some? ==>
      exists k :: 0 <= k < |cart| && cart[k] == r.value && forall j :: 0 <= j < k ==> cart[j].item.id != id
  {
    if cart == [] then None
    else if cart[0].item.id == id then Some(cart[0])
    else
      var r := Find(cart[1..], id);
      if r.Some? then
        ghost var k :| 0 <= k < |cart[1..]| && cart[1..][k] == r.value && forall j :: 0 <= j < k ==> cart[1..][j].item.id != id;
        assert cart[k + 1] == r.value;
        r
      else
        assert forall k :: 1 <= k < |cart| ==> cart[k] == cart[1..][k - 1];
        r
  }

  /** The `map` of `addToCart`: every line carrying `id` gets one more. */
  function Increment(cart: seq<CartItem>, id: int): (r: seq<CartItem>)
    ensures |r| == |cart|
    ensures forall k :: 0 <= k < |cart| ==>
      r[k] == if cart[k].item.id == id then cart[k].(quantity := cart[k].quantity + 1) else cart[k]
  {
    if cart == [] then []
    else
      [if cart[0].item.id == id then cart[0].(quantity := cart[0].quantity + 1) else cart[0]]
      + Increment(cart[1..], id)
  }

  /** The `map` of `updateQuantity`: every line carrying `id` gets quantity `quantity`. */
  function Assign(cart: seq<CartItem>, id: int, quantity: int): (r: seq<CartItem>)
    ensures |r| == |cart|
    ensures forall k :: 0 <= k < |cart| ==>
      r[k] == if cart[k].item.id == id then cart[k].(quantity := quantity) else cart[k]
  {
    if cart == [] then []
    else
      [if cart[0].item.id == id then cart[0].(quantity := quantity) else cart[0]]
      + Assign(cart[1..], id, quantity)
  }

  /**
   * `addToCart`: a dish already in the cart gets one more of it, in place;
   * a new dish is appended as a line of quantity 1.
   */
  function Add(cart: seq<CartItem>, item: MenuItem): (r: seq<CartItem>)
    ensures HasLine(cart, item.id) ==> |r| == |cart|
    ensures HasLine(cart, item.id) ==>
      forall k :: 0 <= k < |r| ==>
        r[k].item == cart[k].item &&
        r[k].quantity == cart[k].quantity + (if cart[k].item.id == item.id then 1 else 0)
    ensures !HasLine(cart, item.id) ==> r == cart + [CartItem(item, 1)]
  {
    if Find(cart, item.id).Some? then Increment(cart, item.id)
    else cart + [CartItem(item, 1)]
  }

  /** `removeFromCart`: the `filter` that drops every line carrying `id`. */
  function Remove(cart: seq<CartItem>, id: int): (r: seq<CartItem>)
    ensures |r| <= |cart|
    ensures forall k :: 0 <= k < |r| ==> r[k].item.id != id
  {
    if cart == [] then []
    else (if cart[0].item.id != id then [cart[0]] else []) + Remove(cart[1..], id)
  }

  /**
   * `updateQuantity`: quantity 0 removes the dish; any other quantity
   * overwrites the quantity of the lines carrying `id` and changes nothing else.
   */
  function Update(cart: seq<CartItem>, id: int, quantity: int): (r: seq<CartItem>)
    ensures quantity == 0 ==> r == Remove(cart, id)
    ensures quantity != 0 ==> |r| == |cart|
    ensures quantity != 0 ==>
      forall k :: 0 <= k < |r| ==>
        r[k].item == cart[k].item &&
        r[k].quantity == if cart[k].item.id == id then quantity else cart[k].quantity
  {
    if quantity == 0 then Remove(cart, id) else Assign(cart, id, quantity)
  }

  /** The callback of `reduce`, folded from the left starting at `sum`. */
  function Reduce(cart: seq<CartItem>, sum: int): int
  {
    if cart == [] then sum else Reduce(cart[1..], sum + LineTotal(cart[0]))
  }

  /** `totalPrice`: the reduce over the cart starting at 0, which is the sum of the line totals. */
  function Total(cart: seq<CartItem>): (r: int)
    ensures r == LineSum(cart)
  {
    ReduceIsLineSum(cart, 0);
    Reduce(cart, 0)
  }

  /** The sum of the line totals, written as a plain recursion: the reference for `Total`. */
  function LineSum(cart: seq<CartItem>): int
  {
    if cart == [] then 0 else LineTotal(cart[0]) + LineSum(cart[1..])
  }

  /** How many of dish `id` the cart holds, over all its lines. */
  function Quantity(cart: seq<CartItem>, id: int): int
  {
    if cart == [] then 0
    else (if cart[0].item.id == id then cart[0].quantity else 0) + Quantity(cart[1..], id)
  }

  /** How many times dish `id` occurs in a list of dishes. */
  function Occurrences(items: seq<MenuItem>, id: int): nat
  {
    if items == [] then 0 else (if items[0].id == id then 1 else 0) + Occurrences(items[1..], id)
  }

  /** A run of `addToCart` clicks, one per dish of `items`, in order. */
  function AddAll(cart: seq<CartItem>, items: seq<MenuItem>): seq<CartItem>
    decreases |items|
  {
    if items == [] then cart else AddAll(Add(cart, items[0]), items[1..])
  }

  // ---------------------------------------------------------------------------
  // The total

  lemma {:induction false} ReduceIsLineSum(cart: seq<CartItem>, sum: int)
    ensures Reduce(cart, sum) == sum + LineSum(cart)
  {
    if cart != [] {
      ReduceIsLineSum(cart[1..], sum + LineTotal(cart[0]));
    }
  }

  lemma {:induction false} LineSumAppend(a: seq<CartItem>, b: seq<CartItem>)
    ensures LineSum(a + b) == LineSum(a) + LineSum(b)
  {
    if a == [] {
      assert a + b == b;
    } else {
      assert (a + b)[1..] == a[1..] + b;
      LineSumAppend(a[1..], b);
    }
  }

  /** Appending a line adds its line total. */
  lemma TotalAppend(cart: seq<CartItem>, line: CartItem)
    ensures Total(cart + [line]) == Total(cart) + LineTotal(line)
  {
    LineSumAppend(cart, [line]);
    assert LineSum([line]) == LineTotal(line) + LineSum([]);
  }

  /** Replacing line `k` swaps its line total for the new one. */
  lemma TotalReplace(cart: seq<CartItem>, k: int, line: CartItem)
    requires 0 <= k < |cart|
    ensures Total(cart[k := line]) == Total(cart) - LineTotal(cart[k]) + LineTotal(line)
  {
    assert cart == cart[..k] + [cart[k]] + cart[k + 1..];
    assert cart[k := line] == cart[..k] + [line] + cart[k + 1..];
    LineSumAppend(cart[..k] + [cart[k]], cart[k + 1..]);
    LineSumAppend(cart[..k], [cart[k]]);
    LineSumAppend(cart[..k] + [line], cart[k + 1..]);
    LineSumAppend(cart[..k], [line]);
    assert LineSum([line]) == LineTotal(line) + LineSum([]);
    assert LineSum([cart[k]]) == LineTotal(cart[k]) + LineSum([]);
  }

  /** Dropping line `k` subtracts its line total. */
  lemma TotalDelete(cart: seq<CartItem>, k: int)
    requires 0 <= k < |cart|
    ensures Total(cart[..k] + cart[k + 1..]) == Total(cart) - LineTotal(cart[k])
  {
    assert cart == cart[..k] + [cart[k]] + cart[k + 1..];
    LineSumAppend(cart[..k] + [cart[k]], cart[k + 1..]);
    LineSumAppend(cart[..k], [cart[k]]);
    LineSumAppend(cart[..k], cart[k + 1..]);
    assert LineSum([cart[k]]) == LineTotal(cart[k]) + LineSum([]);
  }

  lemma {:induction false} LineSumNonNegative(cart: seq<CartItem>)
    requires Positive(cart)
    ensures LineSum(cart) >= 0
  {
    if cart != [] {
      assert Positive(cart[1..]) by {
        forall k | 0 <= k < |cart[1..]| ensures cart[1..][k].quantity >= 1 {
          assert cart[1..][k] == cart[k + 1];
        }
      }
      LineSumNonNegative(cart[1..]);
      assert cart[0].quantity >= 1;
    }
  }

  /** With every quantity at least 1 the bill is never negative. */
  lemma TotalNonNegative(cart: seq<CartItem>)
    requires Positive(cart)
    ensures Total(cart) >= 0
  {
    LineSumNonNegative(cart);
  }

  // ---------------------------------------------------------------------------
  // Quantities per dish

  lemma {:induction false} QuantityAppend(a: seq<CartItem>, b: seq<CartItem>, id: int)
    ensures Quantity(a + b, id) == Quantity(a, id) + Quantity(b, id)
  {
    if a == [] {
      assert a + b == b;
    } else {
      assert (a + b)[1..] == a[1..] + b;
      QuantityAppend(a[1..], b, id);
    }
  }

  /** A cart without dish `id` holds none of it. */
  lemma {:induction false} QuantityAbsent(cart: seq<CartItem>, id: int)
    requires !HasLine(cart, id)
    ensures Quantity(cart, id) == 0
  {
    if cart != [] {
      assert !HasLine(cart[1..], id) by {
        forall k | 0 <= k < |cart[1..]| ensures cart[1..][k].item.id != id {
          assert cart[1..][k] == cart[k + 1];
        }
      }
      QuantityAbsent(cart[1..], id);
    }
  }

  /** With one line per dish, the lines before and after line `k` do not carry its dish. */
  lemma OtherLinesLackId(cart: seq<CartItem>, k: int)
    requires UniqueIds(cart) && 0 <= k < |cart|
    ensures !HasLine(cart[..k], cart[k].item.id) && !HasLine(cart[k + 1..], cart[k].item.id)
  {
    var id, before, after := cart[k].item.id, cart[..k], cart[k + 1..];
    forall j | 0 <= j < |before| ensures before[j].item.id != id {
      assert before[j] == cart[j];
    }
    forall j | 0 <= j < |after| ensures after[j].item.id != id {
      assert after[j] == cart[k + 1 + j];
    }
  }

  /** With one line per dish, the quantity of a dish is the quantity on its line. */
  lemma QuantityOfLine(cart: seq<CartItem>, k: int)
    requires UniqueIds(cart) && 0 <= k < |cart|
    ensures Quantity(cart, cart[k].item.id) == cart[k].quantity
  {
    var id := cart[k].item.id;
    assert cart == cart[..k] + [cart[k]] + cart[k + 1..];
    QuantityAppend(cart[..k] + [cart[k]], cart[k + 1..], id);
    QuantityAppend(cart[..k], [cart[k]], id);
    OtherLinesLackId(cart, k);
    QuantityAbsent(cart[..k], id);
    QuantityAbsent(cart[k + 1..], id);
    assert Quantity([cart[k]], id) == cart[k].quantity + Quantity([], id);
  }

  /** Replacing line `k` by one with the same dish changes the dish's quantity by the difference. */
  lemma QuantityReplace(cart: seq<CartItem>, k: int, line: CartItem, id: int)
    requires 0 <= k < |cart| && line.item == cart[k].item
    ensures Quantity(cart[k := line], id) ==
      Quantity(cart, id) + (if cart[k].item.id == id then line.quantity - cart[k].quantity else 0)
  {
    assert cart == cart[..k] + [cart[k]] + cart[k + 1..];
    assert cart[k := line] == cart[..k] + [line] + cart[k + 1..];
    QuantityAppend(cart[..k] + [cart[k]], cart[k + 1..], id);
    QuantityAppend(cart[..k], [cart[k]], id);
    QuantityAppend(cart[..k] + [line], cart[k + 1..], id);
    QuantityAppend(cart[..k], [line], id);
    assert Quantity([line], id) == (if line.item.id == id then line.quantity else 0) + Quantity([], id);
    assert Quantity([cart[k]], id) == (if cart[k].item.id == id then cart[k].quantity else 0) + Quantity([], id);
  }

  // ---------------------------------------------------------------------------
  // addToCart

  /** On a dish already in the cart, `Add` bumps exactly that line by one, in place. */
  lemma AddIncrementsLine(cart: seq<CartItem>, item: MenuItem, k: int)
    requires UniqueIds(cart) && 0 <= k < |cart| && cart[k].item.id == item.id
    ensures Add(cart, item) == cart[k := cart[k].(quantity := cart[k].quantity + 1)]
  {
    var r := Add(cart, item);
    var s := cart[k := cart[k].(quantity := cart[k].quantity + 1)];
    assert |r| == |s|;
    forall j | 0 <= j < |r| ensures r[j] == s[j] {
      if j != k {
        assert cart[j].item.id != item.id;
      }
    }
  }

  /** `Add` keeps one line per dish. */
  lemma AddKeepsUniqueIds(cart: seq<CartItem>, item: MenuItem)
    requires UniqueIds(cart)
    ensures UniqueIds(Add(cart, item))
  {
  }

  /** `Add` never lowers a quantity, and new lines start at 1. */
  lemma AddKeepsPositive(cart: seq<CartItem>, item: MenuItem)
    requires Positive(cart)
    ensures Positive(Add(cart, item))
  {
  }

  /** `Add` changes the dish's quantity by one and no other dish's quantity. */
  lemma AddQuantity(cart: seq<CartItem>, item: MenuItem, id: int)
    requires UniqueIds(cart)
    ensures Quantity(Add(cart, item), id) == Quantity(cart, id) + (if id == item.id then 1 else 0)
  {
    if HasLine(cart, item.id) {
      var k :| 0 <= k < |cart| && cart[k].item.id == item.id;
      AddIncrementsLine(cart, item, k);
      QuantityReplace(cart, k, cart[k].(quantity := cart[k].quantity + 1), id);
    } else {
      QuantityAppend(cart, [CartItem(item, 1)], id);
      assert Quantity([CartItem(item, 1)], id) == (if item.id == id then 1 else 0) + Quantity([], id);
    }
  }

  /**
   * When the lines already carrying the dish carry its price, one more
   * `addToCart` raises the total by exactly that price.
   */
  lemma AddTotal(cart: seq<CartItem>, item: MenuItem)
    requires UniqueIds(cart)
    requires forall k :: 0 <= k < |cart| && cart[k].item.id == item.id ==> cart[k].item.price == item.price
    ensures Total(Add(cart, item)) == Total(cart) + item.price
  {
    if HasLine(cart, item.id) {
      var k :| 0 <= k < |cart| && cart[k].item.id == item.id;
      var bumped := cart[k].(quantity := cart[k].quantity + 1);
      assert Add(cart, item) == cart[k := bumped] by {
        AddIncrementsLine(cart, item, k);
      }
      TotalReplace(cart, k, bumped);
      var p, q := item.price, cart[k].quantity;
      assert LineTotal(bumped) == LineTotal(cart[k]) + p by {
        assert p * (q + 1) == p * q + p;
      }
    } else {
      TotalAppend(cart, CartItem(item, 1));
    }
  }

  /** Catalog ids are distinct, so a catalog line with a catalog dish's id is that dish. */
  lemma CatalogLinesAgree(cart: seq<CartItem>, item: MenuItem)
    requires FromCatalog(cart) && item in Catalog()
    ensures forall k :: 0 <= k < |cart| && cart[k].item.id == item.id ==> cart[k].item == item
  {
    CatalogIdsDistinct();
    var c := Catalog();
    forall k | 0 <= k < |cart| && cart[k].item.id == item.id ensures cart[k].item == item {
      var i :| 0 <= i < |c| && c[i] == item;
      var j :| 0 <= j < |c| && c[j] == cart[k].item;
      assert c[i].id == i + 1 && c[j].id == j + 1;
    }
  }

  /** Every click on a catalog dish's button keeps the cart reachable and raises the total by its price. */
  lemma AddFromCatalog(cart: seq<CartItem>, item: MenuItem)
    requires Reachable(cart) && item in Catalog()
    ensures Reachable(Add(cart, item))
    ensures Total(Add(cart, item)) == Total(cart) + item.price
  {
    CatalogLinesAgree(cart, item);
    AddTotal(cart, item);
    AddKeepsUniqueIds(cart, item);
    AddKeepsPositive(cart, item);
  }

  /** Adding the same dish three times to an empty cart gives one line of quantity 3. */
  lemma AddThrice(item: MenuItem)
    ensures Add(Add(Add([], item), item), item) == [CartItem(item, 3)]
  {
    var one := Add([], item);
    assert one == [CartItem(item, 1)];
    assert HasLine(one, item.id) by { assert one[0].item.id == item.id; }
    var two := Add(one, item);
    assert two == [CartItem(item, 2)];
    assert HasLine(two, item.id) by { assert two[0].item.id == item.id; }
  }

  lemma {:induction false} AddAllQuantity(cart: seq<CartItem>, items: seq<MenuItem>, id: int)
    requires UniqueIds(cart)
    ensures UniqueIds(AddAll(cart, items))
    ensures Quantity(AddAll(cart, items), id) == Quantity(cart, id) + Occurrences(items, id)
    decreases |items|
  {
    if items != [] {
      AddKeepsUniqueIds(cart, items[0]);
      AddQuantity(cart, items[0], id);
      AddAllQuantity(Add(cart, items[0]), items[1..], id);
    }
  }

  lemma {:induction false} AddAllLines(cart: seq<CartItem>, items: seq<MenuItem>, id: int)
    ensures HasLine(AddAll(cart, items), id) <==> HasLine(cart, id) || Occurrences(items, id) > 0
    decreases |items|
  {
    if items != [] {
      var next := Add(cart, items[0]);
      assert HasLine(next, id) <==> HasLine(cart, id) || items[0].id == id by {
        if HasLine(cart, items[0].id) {
          assert forall k :: 0 <= k < |next| ==> next[k].item.id == cart[k].item.id;
        } else {
          assert next[|cart|].item.id == items[0].id;
          assert forall k :: 0 <= k < |cart| ==> next[k] == cart[k];
        }
      }
      AddAllLines(next, items[1..], id);
    }
  }

  /**
   * Any run of `addToCart` clicks from an empty cart leaves one line per dish
   * clicked, none for the others, each with quantity equal to its number of clicks.
   */
  lemma AddAllFromEmpty(items: seq<MenuItem>, id: int)
    ensures UniqueIds(AddAll([], items))
    ensures HasLine(AddAll([], items), id) <==> Occurrences(items, id) > 0
    ensures forall k :: 0 <= k < |AddAll([], items)| && AddAll([], items)[k].item.id == id ==>
      AddAll([], items)[k].quantity == Occurrences(items, id)
  {
    var c := AddAll([], items);
    AddAllQuantity([], items, id);
    AddAllLines([], items, id);
    forall k | 0 <= k < |c| && c[k].item.id == id ensures c[k].quantity == Occurrences(items, id) {
      QuantityOfLine(c, k);
    }
  }

  // ---------------------------------------------------------------------------
  // removeFromCart

  /** The lines left by a removal are exactly the lines of other dishes. */
  lemma {:induction false} RemoveMembers(cart: seq<CartItem>, id: int)
    ensures forall l :: l in Remove(cart, id) <==> l in cart && l.item.id != id
  {
    if cart != [] {
      RemoveMembers(cart[1..], id);
      assert cart == [cart[0]] + cart[1..];
    }
  }

  /** Removing a dish that is not in the cart changes nothing. */
  lemma {:induction false} RemoveAbsent(cart: seq<CartItem>, id: int)
    requires !HasLine(cart, id)
    ensures Remove(cart, id) == cart
  {
    if cart != [] {
      assert !HasLine(cart[1..], id) by {
        forall k | 0 <= k < |cart[1..]| ensures cart[1..][k].item.id != id {
          assert cart[1..][k] == cart[k + 1];
        }
      }
      RemoveAbsent(cart[1..], id);
      assert cart[0].item.id != id;
      assert cart == [cart[0]] + cart[1..];
    }
  }

  /** After a removal no line carries the dish, and a second removal changes nothing. */
  lemma RemoveIdempotent(cart: seq<CartItem>, id: int)
    ensures !HasLine(Remove(cart, id), id)
    ensures Remove(Remove(cart, id), id) == Remove(cart, id)
  {
    var r := Remove(cart, id);
    RemoveMembers(cart, id);
    assert !HasLine(r, id) by {
      forall k | 0 <= k < |r| ensures r[k].item.id != id {
        assert r[k] in r;
      }
    }
    RemoveAbsent(r, id);
  }

  /** The removal filter distributes over concatenation: it keeps the lines' relative order. */
  lemma {:induction false} RemoveAppend(a: seq<CartItem>, b: seq<CartItem>, id: int)
    ensures Remove(a + b, id) == Remove(a, id) + Remove(b, id)
  {
    if a == [] {
      assert a + b == b;
    } else {
      assert (a + b)[1..] == a[1..] + b;
      RemoveAppend(a[1..], b, id);
    }
  }

  /** Removing the dish of a line whose neighbours do not carry it cuts out just that line. */
  lemma RemoveSplit(before: seq<CartItem>, line: CartItem, after: seq<CartItem>)
    requires !HasLine(before, line.item.id) && !HasLine(after, line.item.id)
    ensures Remove(before + [line] + after, line.item.id) == before + after
  {
    var id := line.item.id;
    RemoveAppend(before + [line], after, id);
    RemoveAppend(before, [line], id);
    RemoveAbsent(before, id);
    RemoveAbsent(after, id);
    assert Remove([line], id) == [];
  }

  /** With one line per dish, removing a dish deletes exactly its line and keeps the rest in order. */
  lemma RemoveAt(cart: seq<CartItem>, k: int)
    requires UniqueIds(cart) && 0 <= k < |cart|
    ensures Remove(cart, cart[k].item.id) == cart[..k] + cart[k + 1..]
  {
    var line, before, after := cart[k], cart[..k], cart[k + 1..];
    assert !HasLine(before, line.item.id) && !HasLine(after, line.item.id) by {
      OtherLinesLackId(cart, k);
    }
    assert cart == before + [line] + after;
    RemoveSplit(before, line, after);
  }

  /** A removal keeps one line per dish. */
  lemma {:induction false} RemoveKeepsUniqueIds(cart: seq<CartItem>, id: int)
    requires UniqueIds(cart)
    ensures UniqueIds(Remove(cart, id))
  {
    if cart != [] {
      var tail := Remove(cart[1..], id);
      RemoveKeepsUniqueIds(cart[1..], id);
      RemoveMembers(cart[1..], id);
      forall j | 0 <= j < |tail| ensures tail[j].item.id != cart[0].item.id {
        assert tail[j] in cart[1..];
        var m :| 0 <= m < |cart[1..]| && cart[1..][m] == tail[j];
        assert cart[1..][m] == cart[m + 1];
      }
    }
  }

  /** A removal keeps every remaining quantity at least 1, and keeps only catalog dishes. */
  lemma RemoveKeepsReachable(cart: seq<CartItem>, id: int)
    requires Reachable(cart)
    ensures Reachable(Remove(cart, id))
  {
    RemoveKeepsUniqueIds(cart, id);
    RemoveMembers(cart, id);
    var r := Remove(cart, id);
    forall k | 0 <= k < |r| ensures r[k].quantity >= 1 && r[k].item in Catalog() {
      assert r[k] in cart;
      var m :| 0 <= m < |cart| && cart[m] == r[k];
    }
  }

  /** Removing a dish's line subtracts its line total from the bill. */
  lemma RemoveTotal(cart: seq<CartItem>, k: int)
    requires UniqueIds(cart) && 0 <= k < |cart|
    ensures Total(Remove(cart, cart[k].item.id)) == Total(cart) - LineTotal(cart[k])
  {
    RemoveAt(cart, k);
    TotalDelete(cart, k);
  }

  // ---------------------------------------------------------------------------
  // updateQuantity

  /** An update for a dish that is not in the cart changes nothing: it never inserts a line. */
  lemma UpdateAbsent(cart: seq<CartItem>, id: int, quantity: int)
    requires !HasLine(cart, id)
    ensures Update(cart, id, quantity) == cart
  {
    if quantity == 0 {
      RemoveAbsent(cart, id);
    } else {
      var r := Update(cart, id, quantity);
      forall k | 0 <= k < |r| ensures r[k] == cart[k] {
        assert cart[k].item.id != id;
      }
    }
  }

  /** Every dish in the cart after an update was there before. */
  lemma UpdateNeverInserts(cart: seq<CartItem>, id: int, quantity: int, other: int)
    requires HasLine(Update(cart, id, quantity), other)
    ensures HasLine(cart, other)
  {
    var r := Update(cart, id, quantity);
    var k :| 0 <= k < |r| && r[k].item.id == other;
    if quantity == 0 {
      RemoveMembers(cart, id);
      assert r[k] in r;
      var m :| 0 <= m < |cart| && cart[m] == r[k];
    } else {
      assert cart[k].item.id == other;
    }
  }

  /** An update keeps one line per dish. */
  lemma UpdateKeepsUniqueIds(cart: seq<CartItem>, id: int, quantity: int)
    requires UniqueIds(cart)
    ensures UniqueIds(Update(cart, id, quantity))
  {
    if quantity == 0 {
      RemoveKeepsUniqueIds(cart, id);
    }
  }

  /** On a dish in the cart, a nonzero update overwrites exactly that line's quantity, in place. */
  lemma UpdateAt(cart: seq<CartItem>, k: int, quantity: int)
    requires UniqueIds(cart) && 0 <= k < |cart| && quantity != 0
    ensures Update(cart, cart[k].item.id, quantity) == cart[k := cart[k].(quantity := quantity)]
  {
    var r := Update(cart, cart[k].item.id, quantity);
    var s := cart[k := cart[k].(quantity := quantity)];
    forall j | 0 <= j < |r| ensures r[j] == s[j] {
      if j != k {
        assert cart[j].item.id != cart[k].item.id;
      }
    }
  }

  /** Setting a dish's quantity to `quantity` moves the bill by its price times the change. */
  lemma UpdateTotal(cart: seq<CartItem>, k: int, quantity: int)
    requires UniqueIds(cart) && 0 <= k < |cart|
    ensures Total(Update(cart, cart[k].item.id, quantity)) ==
      Total(cart) + cart[k].item.price * (quantity - cart[k].quantity)
  {
    var p, q := cart[k].item.price, cart[k].quantity;
    if quantity == 0 {
      RemoveTotal(cart, k);
      assert p * (0 - q) == -(p * q);
    } else {
      UpdateAt(cart, k, quantity);
      TotalReplace(cart, k, cart[k].(quantity := quantity));
      assert p * quantity - p * q == p * (quantity - q);
    }
  }

  /**
   * The minus button of line `k` (`updateQuantity(id, quantity - 1)`) keeps
   * every quantity at least 1: from 1 it takes the removal branch and the
   * line disappears.
   */
  lemma DecrementKeepsReachable(cart: seq<CartItem>, k: int)
    requires Reachable(cart) && 0 <= k < |cart|
    ensures Reachable(Update(cart, cart[k].item.id, cart[k].quantity - 1))
    ensures cart[k].quantity == 1 ==> !HasLine(Update(cart, cart[k].item.id, 0), cart[k].item.id)
  {
    var id, q := cart[k].item.id, cart[k].quantity;
    if q == 1 {
      RemoveKeepsReachable(cart, id);
      RemoveIdempotent(cart, id);
    } else {
      UpdateKeepsUniqueIds(cart, id, q - 1);
      var r := Update(cart, id, q - 1);
      forall j | 0 <= j < |r| ensures r[j].quantity >= 1 {
        if cart[j].item.id == id {
          assert j == k;
        }
      }
    }
  }

  /** The plus button of line `k` (`updateQuantity(id, quantity + 1)`) does what adding its dish does. */
  lemma IncrementIsAdd(cart: seq<CartItem>, k: int)
    requires UniqueIds(cart) && 0 <= k < |cart| && cart[k].quantity != -1
    ensures Update(cart, cart[k].item.id, cart[k].quantity + 1) == Add(cart, cart[k].item)
  {
    UpdateAt(cart, k, cart[k].quantity + 1);
    AddIncrementsLine(cart, cart[k].item, k);
  }

  /** The plus button of line `k` keeps the cart reachable. */
  lemma IncrementKeepsReachable(cart: seq<CartItem>, k: int)
    requires Reachable(cart) && 0 <= k < |cart|
    ensures Reachable(Update(cart, cart[k].item.id, cart[k].quantity + 1))
  {
    IncrementIsAdd(cart, k);
    AddKeepsUniqueIds(cart, cart[k].item);
    AddKeepsPositive(cart, cart[k].item);
  }

  /** The minus button of line `k`: the total drops by one portion of its dish, and a reachable cart stays reachable. */
  lemma DecrementEffect(cart: seq<CartItem>, k: int)
    requires UniqueIds(cart) && 0 <= k < |cart|
    ensures Total(Update(cart, cart[k].item.id, cart[k].quantity - 1)) == Total(cart) - cart[k].item.price
    ensures Reachable(cart) ==> Reachable(Update(cart, cart[k].item.id, cart[k].quantity - 1))
  {
    DecrementTotal(cart, k);
    if Reachable(cart) {
      DecrementKeepsReachable(cart, k);
    }
  }

  /** The minus button of line `k` lowers the total by one portion of its dish. */
  lemma DecrementTotal(cart: seq<CartItem>, k: int)
    requires UniqueIds(cart) && 0 <= k < |cart|
    ensures Total(Update(cart, cart[k].item.id, cart[k].quantity - 1)) == Total(cart) - cart[k].item.price
  {
    var p, q := cart[k].item.price, cart[k].quantity;
    UpdateTotal(cart, k, q - 1);
    assert p * (q - 1 - q) == -p;
  }

  /**
   * The plus button of line `k`: the total grows by one portion of its dish,
   * a reachable cart stays reachable, and outside the -1 edge it is `addToCart`.
   */
  lemma IncrementEffect(cart: seq<CartItem>, k: int)
    requires UniqueIds(cart) && 0 <= k < |cart|
    ensures Total(Update(cart, cart[k].item.id, cart[k].quantity + 1)) == Total(cart) + cart[k].item.price
    ensures Reachable(cart) ==> Reachable(Update(cart, cart[k].item.id, cart[k].quantity + 1))
    ensures cart[k].quantity != -1 ==> Update(cart, cart[k].item.id, cart[k].quantity + 1) == Add(cart, cart[k].item)
  {
    IncrementTotal(cart, k);
    if Reachable(cart) {
      IncrementKeepsReachable(cart, k);
    }
    if cart[k].quantity != -1 {
      IncrementIsAdd(cart, k);
    }
  }

  /** The plus button of line `k` raises the total by one portion of its dish. */
  lemma IncrementTotal(cart: seq<CartItem>, k: int)
    requires UniqueIds(cart) && 0 <= k < |cart|
    ensures Total(Update(cart, cart[k].item.id, cart[k].quantity + 1)) == Total(cart) + cart[k].item.price
  {
    var p, q := cart[k].item.price, cart[k].quantity;
    UpdateTotal(cart, k, q + 1);
    assert p * (q + 1 - q) == p;
  }

  // ---------------------------------------------------------------------------
  // A session

  /**
   * Two clicks on one dish and one on another give two lines in click
   * order; removing the second dish leaves the first line alone.
   */
  lemma AddTwiceThenOther(first: MenuItem, second: MenuItem)
    requires first.id != second.id
    ensures var cart := AddAll([], [first, first, second]);
      && cart == [CartItem(first, 2), CartItem(second, 1)]
      && Total(cart) == 2 * first.price + second.price
      && Remove(cart, second.id) == [CartItem(first, 2)]
      && Total(Remove(cart, second.id)) == 2 * first.price
  {
    var one := Add([], first);
    assert one == [CartItem(first, 1)];
    var two := Add(one, first);
    assert two == [CartItem(first, 2)] by {
      AddIncrementsLine(one, first, 0);
    }
    assert !HasLine(two, second.id);
    var cart := Add(two, second);
    assert cart == [CartItem(first, 2), CartItem(second, 1)];
    assert AddAll([], [first, first, second]) == cart by {
      assert [first, first, second][1..] == [first, second];
      assert [first, second][1..] == [second];
      assert AddAll(two, [second]) == AddAll(cart, []);
    }
    assert Remove(cart, second.id) == two by {
      RemoveAt(cart, 1);
      assert cart[..1] + cart[2..] == two;
    }
    assert LineSum(two) == 2 * first.price by {
      assert two[1..] == [];
    }
    assert LineSum(cart) == 2 * first.price + second.price by {
      assert cart[1..] == [CartItem(second, 1)];
      assert cart[1..][1..] == [];
    }
  }

  /**
   * Borscht (180) twice and compote (60) once come to 420; without the
   * compote, 360.
   */
  lemma BorschtAndCompote()
    ensures var borscht, compote := FirstCourseDishes()[0], DrinkDishes()[0];
      var cart := AddAll([], [borscht, borscht, compote]);
      && cart == [CartItem(borscht, 2), CartItem(compote, 1)]
      && Total(cart) == 420
      && Remove(cart, compote.id) == [CartItem(borscht, 2)]
      && Total(Remove(cart, compote.id)) == 360
  {
    var borscht, compote := FirstCourseDishes()[0], DrinkDishes()[0];
    assert borscht.id == 1 && borscht.price == 180 && compote.id == 10 && compote.price == 60;
    AddTwiceThenOther(borscht, compote);
  }
}
