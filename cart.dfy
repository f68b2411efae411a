/**
  The customer's cart (`addToCart`, `updateQty` and `total` in
  `CustomerRestaurants`, src/App.jsx): an ordered list of lines
  `{ product, quantity }`, at most one per product id. Every update builds a
  new list, so the cart is a value and each updater a function of the old
  cart. Prices are whole cents; a missing price is `None`.
 */
module Cart {
  import opened Js

  datatype Product = Product(id: int, name: string, description: string, price: Option<int>)

  datatype Line = Line(product: Product, quantity: int)

  type Cart = seq<Line>

  /** The product ids of the lines, in cart order. */
  function Ids(cart: Cart): (ids: seq<int>)
    ensures |ids| == |cart|
    ensures forall k :: 0 <= k < |cart| ==> ids[k] == cart[k].product.id
  {
    if cart == [] then [] else [cart[0].product.id] + Ids(cart[1..])
  }

  predicate UniqueIds(cart: Cart) {
    forall i, j :: 0 <= i < j < |cart| ==> cart[i].product.id != cart[j].product.id
  }

  predicate AllPositive(cart: Cart) {
    forall k :: 0 <= k < |cart| ==> cart[k].quantity > 0
  }

  /** What the cart keeps between updates: one line per product, none of them empty. */
  predicate WellFormed(cart: Cart) {
    UniqueIds(cart) && AllPositive(cart)
  }

  /** `cart.findIndex(i => i.product.id === id)`: the first line of that product, or -1. */
  function IndexOf(cart: Cart, id: int): (i: int)
    ensures -1 <= i < |cart|
    ensures i == -1 <==> id !in Ids(cart)
    ensures i >= 0 ==> cart[i].product.id == id
    ensures forall k :: 0 <= k < i ==> cart[k].product.id != id
  {
    if cart == [] then -1
    else if cart[0].product.id == id then 0
    else
      var j := IndexOf(cart[1..], id);
      assert Ids(cart) == [cart[0].product.id] + Ids(cart[1..]);
      if j < 0 then -1 else j + 1
  }

  /**
    `addToCart(p)`: one more of the product's existing line (which keeps its
    own product record), or a new line `{ p, 1 }` at the end.
   */
  function AddToCart(cart: Cart, p: Product): Cart {
    var i := IndexOf(cart, p.id);
    if i >= 0 then cart[i := cart[i].(quantity := cart[i].quantity + 1)]
    else cart + [Line(p, 1)]
  }

  /** The `map` step of `updateQty`: every line of product `id` gets quantity `qty`. */
  function SetQuantity(cart: Cart, id: int, qty: int): (r: Cart)
    ensures |r| == |cart|
    ensures forall k :: 0 <= k < |cart| ==>
              r[k] == if cart[k].product.id == id then cart[k].(quantity := qty) else cart[k]
  {
    if cart == [] then []
    else [if cart[0].product.id == id then cart[0].(quantity := qty) else cart[0]]
         + SetQuantity(cart[1..], id, qty)
  }

  /** The `filter` step of `updateQty`: the lines whose quantity is above zero, in order. */
  function DropEmpty(cart: Cart): (r: Cart)
    ensures AllPositive(r)
    ensures |r| <= |cart|
  {
    if cart == [] then []
    else (if cart[0].quantity > 0 then [cart[0]] else []) + DropEmpty(cart[1..])
  }

  /** `updateQty(id, qty)`. */
  function UpdateQty(cart: Cart, id: int, qty: int): (r: Cart)
    ensures AllPositive(r)
    ensures |r| <= |cart|
  {
    DropEmpty(SetQuantity(cart, id, qty))
  }

  /** `i.product.price || 0`. */
  function Price(p: Product): int {
    if p.price.Some? then p.price.value else 0
  }

  function LineTotal(l: Line): int {
    Price(l.product) * l.quantity
  }

  /** `cart.reduce((s, i) => s + (i.product.price || 0) * i.quantity, 0)`: a left fold. */
  function Total(cart: Cart): int {
    if cart == [] then 0 else Total(cart[..|cart| - 1]) + LineTotal(cart[|cart| - 1])
  }

  // ---------------------------------------------------------------------
  // Order: `xs` is `ys` with some elements left out

  predicate IsSubsequence(xs: seq<int>, ys: seq<int>)
    decreases |ys|
  {
    if xs == [] then true
    else if ys == [] then false
    else (xs[0] == ys[0] && IsSubsequence(xs[1..], ys[1..])) || IsSubsequence(xs, ys[1..])
  }

  lemma {:induction false} SubsequenceMembers(xs: seq<int>, ys: seq<int>, x: int)
    requires IsSubsequence(xs, ys) && x in xs
    ensures x in ys
    decreases |ys|
  {
    if xs[0] == ys[0] && IsSubsequence(xs[1..], ys[1..]) {
      if x != xs[0] {
        SubsequenceMembers(xs[1..], ys[1..], x);
      }
    } else {
      SubsequenceMembers(xs, ys[1..], x);
    }
  }

  predicate Distinct(xs: seq<int>) {
    forall i, j :: 0 <= i < j < |xs| ==> xs[i] != xs[j]
  }

  lemma {:induction false} SubsequenceOfDistinct(xs: seq<int>, ys: seq<int>)
    requires IsSubsequence(xs, ys) && Distinct(ys)
    ensures Distinct(xs)
    decreases |ys|
  {
    if xs != [] {
      if xs[0] == ys[0] && IsSubsequence(xs[1..], ys[1..]) {
        SubsequenceOfDistinct(xs[1..], ys[1..]);
        forall j | 0 < j < |xs| ensures xs[0] != xs[j] {
          SubsequenceMembers(xs[1..], ys[1..], xs[j]);
        }
      } else {
        SubsequenceOfDistinct(xs, ys[1..]);
      }
    }
  }

  // ---------------------------------------------------------------------
  // addToCart

  /**
    Adding a product that already has a line adds one to that line's quantity;
    the length, the order of the products and every other line are unchanged.
   */
  lemma AddExisting(cart: Cart, p: Product)
    requires p.id in Ids(cart)
    ensures var r := AddToCart(cart, p);
            var i := IndexOf(cart, p.id);
            && |r| == |cart|
            && Ids(r) == Ids(cart)
            && r[i] == Line(cart[i].product, cart[i].quantity + 1)
            && forall k :: 0 <= k < |cart| && k != i ==> r[k] == cart[k]
  {
  }

  /** Adding a product without a line appends `{ p, 1 }` at the end. */
  lemma AddNew(cart: Cart, p: Product)
    requires p.id !in Ids(cart)
    ensures AddToCart(cart, p) == cart + [Line(p, 1)]
  {
  }

  /** `addToCart` keeps one line per product and no empty line. */
  lemma AddPreservesWellFormed(cart: Cart, p: Product)
    requires WellFormed(cart)
    ensures WellFormed(AddToCart(cart, p))
  {
  }

  /** Adding the same new product twice gives one line of quantity 2, never two lines. */
  lemma AddTwice(cart: Cart, p: Product)
    requires p.id !in Ids(cart)
    ensures AddToCart(AddToCart(cart, p), p) == cart + [Line(p, 2)]
  {
    var once := cart + [Line(p, 1)];
    assert IndexOf(once, p.id) == |cart| by {
      assert once[|cart|].product.id == p.id;
    }
  }

  // ---------------------------------------------------------------------
  // updateQty

  lemma {:induction false} UpdateQtyKeepsOrder(cart: Cart, id: int, qty: int)
    ensures IsSubsequence(Ids(UpdateQty(cart, id, qty)), Ids(cart))
  {
    if cart != [] {
      UpdateQtyKeepsOrder(cart[1..], id, qty);
      var head := SetQuantity(cart, id, qty)[0];
      var rest := UpdateQty(cart[1..], id, qty);
      assert SetQuantity(cart, id, qty)[1..] == SetQuantity(cart[1..], id, qty);
      assert Ids(cart)[1..] == Ids(cart[1..]);
      if head.quantity > 0 {
        assert UpdateQty(cart, id, qty) == [head] + rest;
        assert Ids([head] + rest) == [head.product.id] + Ids(rest);
      } else {
        assert UpdateQty(cart, id, qty) == rest;
        SubsequenceSkip(Ids(rest), Ids(cart));
      }
    }
  }

  lemma SubsequenceSkip(xs: seq<int>, ys: seq<int>)
    requires ys != [] && IsSubsequence(xs, ys[1..])
    ensures IsSubsequence(xs, ys)
  {
  }

  /**
    After `updateQty` every remaining quantity is above zero, the remaining
    products keep their relative order, and ids stay unique.
   */
  lemma UpdateQtyPreservesWellFormed(cart: Cart, id: int, qty: int)
    requires UniqueIds(cart)
    ensures WellFormed(UpdateQty(cart, id, qty))
    ensures IsSubsequence(Ids(UpdateQty(cart, id, qty)), Ids(cart))
  {
    var r := UpdateQty(cart, id, qty);
    UpdateQtyKeepsOrder(cart, id, qty);
    SubsequenceOfDistinct(Ids(r), Ids(cart));
  }

  /** A line survives `DropEmpty` exactly when it is in the input with a positive quantity. */
  lemma {:induction false} DropEmptyMembers(cart: Cart, l: Line)
    ensures l in DropEmpty(cart) <==> l in cart && l.quantity > 0
  {
    if cart != [] {
      DropEmptyMembers(cart[1..], l);
      assert cart == [cart[0]] + cart[1..];
    }
  }

  /**
    What `updateQty(id, qty)` leaves: the line of product `id` now holds `qty`
    and stays exactly when `qty` is above zero; any other line stays, unchanged,
    exactly when its quantity is above zero.
   */
  lemma UpdateQtyLines(cart: Cart, id: int, qty: int, k: int)
    requires 0 <= k < |cart|
    ensures var r := UpdateQty(cart, id, qty);
            if cart[k].product.id == id then
              (Line(cart[k].product, qty) in r <==> qty > 0)
            else
              (cart[k] in r <==> cart[k].quantity > 0)
  {
    var mapped := SetQuantity(cart, id, qty);
    DropEmptyMembers(mapped, mapped[k]);
  }

  /** Setting a product's quantity to zero or below removes it from the cart. */
  lemma UpdateQtyRemoves(cart: Cart, id: int, qty: int)
    requires qty <= 0
    ensures id !in Ids(UpdateQty(cart, id, qty))
  {
    var mapped := SetQuantity(cart, id, qty);
    var r := DropEmpty(mapped);
    if id in Ids(r) {
      var k :| 0 <= k < |r| && r[k].product.id == id;
      DropEmptyMembers(mapped, r[k]);
    }
  }

  // ---------------------------------------------------------------------
  // total

  lemma {:induction false} TotalAppend(a: Cart, b: Cart)
    ensures Total(a + b) == Total(a) + Total(b)
    decreases |b|
  {
    if b != [] {
      var ab := a + b;
      assert ab[..|ab| - 1] == a + b[..|b| - 1];
      TotalAppend(a, b[..|b| - 1]);
    } else {
      assert a + b == a;
    }
  }

  lemma TotalCons(l: Line, cart: Cart)
    ensures Total([l] + cart) == LineTotal(l) + Total(cart)
  {
    TotalAppend([l], cart);
  }

  /** Replacing one line changes the total by the difference of the two line totals. */
  lemma TotalReplace(cart: Cart, i: int, l: Line)
    requires 0 <= i < |cart|
    ensures Total(cart[i := l]) == Total(cart) - LineTotal(cart[i]) + LineTotal(l)
  {
    var before, after := cart[..i], cart[i + 1..];
    assert cart == before + ([cart[i]] + after);
    assert cart[i := l] == before + ([l] + after);
    TotalAppend(before, [cart[i]] + after);
    TotalAppend(before, [l] + after);
    TotalCons(cart[i], after);
    TotalCons(l, after);
  }

  /**
    The total is the sum of price times quantity over the lines: an empty cart
    totals 0, and it adds up over any split of the cart.
   */
  lemma TotalIsSum(a: Cart, b: Cart)
    ensures Total([]) == 0
    ensures Total(a + b) == Total(a) + Total(b)
    ensures |a| == 1 ==> Total(a) == Price(a[0].product) * a[0].quantity
  {
    TotalAppend(a, b);
    if |a| == 1 {
      assert a[..0] == [];
    }
  }

  /** With no negative price, and quantities positive as `updateQty` leaves them, the total is not negative. */
  lemma {:induction false} TotalNonNegative(cart: Cart)
    requires AllPositive(cart)
    requires forall k :: 0 <= k < |cart| ==> Price(cart[k].product) >= 0
    ensures Total(cart) >= 0
  {
    if cart != [] {
      var last := cart[|cart| - 1];
      TotalNonNegative(cart[..|cart| - 1]);
      assert LineTotal(last) >= 0 by {
        assert Price(last.product) >= 0 && last.quantity > 0;
      }
    }
  }

  lemma OneMore(l: Line)
    ensures LineTotal(l.(quantity := l.quantity + 1)) == LineTotal(l) + Price(l.product)
  {
    var price := Price(l.product);
    assert price * (l.quantity + 1) == price * l.quantity + price;
  }

  /** Adding a product raises the total by one unit price of the line it lands in. */
  lemma AddToCartTotal(cart: Cart, p: Product)
    ensures var i := IndexOf(cart, p.id);
            Total(AddToCart(cart, p)) == Total(cart) + (if i >= 0 then Price(cart[i].product) else Price(p))
  {
    var i := IndexOf(cart, p.id);
    if i >= 0 {
      var l := cart[i];
      TotalReplace(cart, i, l.(quantity := l.quantity + 1));
      OneMore(l);
    } else {
      TotalAppend(cart, [Line(p, 1)]);
      assert Total([Line(p, 1)]) == LineTotal(Line(p, 1)) by {
        assert [Line(p, 1)][..0] == [];
      }
    }
  }

  lemma {:induction false} UpdateQtyAbsent(cart: Cart, id: int, qty: int)
    requires AllPositive(cart) && id !in Ids(cart)
    ensures UpdateQty(cart, id, qty) == cart
  {
    if cart != [] {
      assert Ids(cart) == [cart[0].product.id] + Ids(cart[1..]);
      UpdateQtyAbsent(cart[1..], id, qty);
      assert SetQuantity(cart, id, qty)[1..] == SetQuantity(cart[1..], id, qty);
      assert cart == [cart[0]] + cart[1..];
    }
  }

  /** `updateQty` on a non-empty cart: the first line (updated) if it survives, then the rest. */
  lemma UpdateQtyUnfold(cart: Cart, id: int, qty: int)
    requires cart != []
    ensures var head := if cart[0].product.id == id then cart[0].(quantity := qty) else cart[0];
            UpdateQty(cart, id, qty) == (if head.quantity > 0 then [head] else []) + UpdateQty(cart[1..], id, qty)
  {
    assert SetQuantity(cart, id, qty)[1..] == SetQuantity(cart[1..], id, qty);
  }

  /** What the line of product `id` contributes once `updateQty(id, qty)` has run. */
  function UpdatedLineTotal(l: Line, qty: int): int {
    if qty > 0 then Price(l.product) * qty else 0
  }

  /**
    The total after `updateQty(id, qty)`: the product's old line total is
    replaced by its new one (nothing when the line is dropped); when the
    product has no line, the total is unchanged.
   */
  predicate TotalAfterUpdate(cart: Cart, id: int, qty: int) {
    var i := IndexOf(cart, id);
    Total(UpdateQty(cart, id, qty)) ==
      if i < 0 then Total(cart) else Total(cart) - LineTotal(cart[i]) + UpdatedLineTotal(cart[i], qty)
  }

  /** On a well-formed cart, `updateQty` changes the total exactly by the updated line's difference. */
  lemma {:induction false} UpdateQtyTotal(cart: Cart, id: int, qty: int)
    requires WellFormed(cart)
    ensures TotalAfterUpdate(cart, id, qty)
  {
    if cart == [] {
    } else if cart[0].product.id == id {
      UpdateQtyTotalHead(cart, id, qty);
    } else {
      assert WellFormed(cart[1..]);
      UpdateQtyTotal(cart[1..], id, qty);
      UpdateQtyTotalStep(cart, id, qty);
    }
  }

  lemma UpdateQtyTotalStep(cart: Cart, id: int, qty: int)
    requires AllPositive(cart) && cart != [] && cart[0].product.id != id
    requires TotalAfterUpdate(cart[1..], id, qty)
    ensures TotalAfterUpdate(cart, id, qty)
  {
    var head, rest := cart[0], cart[1..];
    UpdateQtyUnfold(cart, id, qty);
    var updated := UpdateQty(rest, id, qty);
    assert UpdateQty(cart, id, qty) == [head] + updated;
    assert cart == [head] + rest;
    TotalCons(head, rest);
    TotalCons(head, updated);
    var i, j := IndexOf(cart, id), IndexOf(rest, id);
    if j >= 0 {
      assert i == j + 1 && cart[i] == rest[j];
    }
  }

  /** The first line is the only line of its product. */
  lemma HeadIdUnique(cart: Cart)
    requires UniqueIds(cart) && cart != []
    ensures cart[0].product.id !in Ids(cart[1..])
  {
  }

  lemma UpdateQtyTotalHead(cart: Cart, id: int, qty: int)
    requires WellFormed(cart) && cart != [] && cart[0].product.id == id
    ensures TotalAfterUpdate(cart, id, qty)
  {
    var head, rest := cart[0], cart[1..];
    assert IndexOf(cart, id) == 0;
    HeadIdUnique(cart);
    UpdateQtyAbsent(rest, id, qty);
    UpdateQtyUnfold(cart, id, qty);
    var after := UpdateQty(cart, id, qty);
    TotalCons(head, rest);
    assert Total(cart) == LineTotal(head) + Total(rest) by {
      assert cart == [head] + rest;
    }
    if qty > 0 {
      assert after == [head.(quantity := qty)] + rest;
      TotalCons(head.(quantity := qty), rest);
    } else {
      assert after == rest;
    }
  }
}
