/**
  The customer's restaurant panel (`CustomerRestaurants`, src/App.jsx): the
  component state that the cart buttons and "Confirmar pedido" change, and
  `placeOrder`, which checks its inputs in a fixed order before it calls the
  backend. The backend's answer is the parameter `reply`; the alert a step
  shows is the out-parameter `notice`.
 */
module Customer {
  import opened Js
  import Cart
  import Api

  datatype Restaurant = Restaurant(id: int, name: string, address: string)

  const ChooseRestaurantNotice := "Selecciona un restaurante"
  const EnterAddressNotice := "Ingresa una dirección"
  const EmptyCartNotice := "Tu carrito está vacío"
  const OrderPlacedNotice := "Pedido creado \U{1F389}"
  const OrderFailedPrefix := "Error al crear el pedido: "

  /** `cart.map(i => ({ productId: i.product.id, quantity: i.quantity }))`. */
  function OrderItems(cart: Cart.Cart): (items: seq<Api.OrderItem>)
    ensures |items| == |cart|
    ensures forall k :: 0 <= k < |cart| ==> items[k] == Api.OrderItem(cart[k].product.id, cart[k].quantity)
  {
    if cart == [] then [] else [Api.OrderItem(cart[0].product.id, cart[0].quantity)] + OrderItems(cart[1..])
  }

  /** The three checks of `placeOrder` all pass. */
  predicate ReadyToOrder(selected: Option<Restaurant>, address: string, cart: Cart.Cart) {
    selected.Some? && Trim(address) != "" && cart != []
  }

  class CustomerPanel {
    var selected: Option<Restaurant>
    var cart: Cart.Cart
    var address: string
    var placingOrder: bool

    /**
      The cart holds one line per product and no empty line, and no order is
      in flight between two handlers: the confirm button is disabled while
      the placing flag is set.
     */
    ghost predicate Valid()
      reads this
    {
      Cart.WellFormed(cart) && !placingOrder
    }

    /** The panel as it mounts: nothing selected, an empty cart, no address. */
    constructor()
      ensures Valid()
      ensures selected == None && cart == [] && address == "" && !placingOrder
    {
      selected, cart, address, placingOrder := None, [], "", false;
    }

    /** The selection step of `selectRestaurant(r)`; the cart is kept as it is. */
    method SelectRestaurant(r: Restaurant)
      requires Valid()
      modifies this
      ensures Valid()
      ensures selected == Some(r)
      ensures cart == old(cart) && address == old(address) && placingOrder == old(placingOrder)
    {
      selected := Some(r);
    }

    /** The delivery-address input. */
    method SetAddress(text: string)
      requires Valid()
      modifies this
      ensures Valid()
      ensures address == text
      ensures selected == old(selected) && cart == old(cart) && placingOrder == old(placingOrder)
    {
      address := text;
    }

    method AddToCart(p: Cart.Product)
      requires Valid()
      modifies this
      ensures Valid()
      ensures cart == Cart.AddToCart(old(cart), p)
      ensures selected == old(selected) && address == old(address) && placingOrder == old(placingOrder)
    {
      Cart.AddPreservesWellFormed(cart, p);
      cart := Cart.AddToCart(cart, p);
    }

    method UpdateQty(id: int, qty: int)
      requires Valid()
      modifies this
      ensures Valid()
      ensures cart == Cart.UpdateQty(old(cart), id, qty)
      ensures selected == old(selected) && address == old(address) && placingOrder == old(placingOrder)
    {
      Cart.UpdateQtyPreservesWellFormed(cart, id, qty);
      cart := Cart.UpdateQty(cart, id, qty);
    }

    /**
      `total`, recomputed from the current cart on every render; with no
      negative price it is never negative.
     */
    function Total(): (t: int)
      reads this
      ensures t == Cart.Total(cart)
      ensures Valid() && (forall k :: 0 <= k < |cart| ==> Cart.Price(cart[k].product) >= 0) ==> t >= 0
    {
      var t := Cart.Total(cart);
      assert Valid() && (forall k :: 0 <= k < |cart| ==> Cart.Price(cart[k].product) >= 0) ==> t >= 0 by {
        if Valid() && (forall k :: 0 <= k < |cart| ==> Cart.Price(cart[k].product) >= 0) {
          Cart.TotalNonNegative(cart);
        }
      }
      t
    }

    /**
      `placeOrder()`. It checks, in this order, that a restaurant is selected,
      that the trimmed address is not empty and that the cart is not empty; the
      first check that fails is reported and nothing else happens: no call,
      no change. Otherwise it sends the trimmed address and the cart's
      `{ productId, quantity }` pairs in cart order; on success it clears the
      cart and the address, on failure it keeps both and reports the error.
      In every case the placing flag ends false.
     */
    method PlaceOrder(reply: Api.Outcome) returns (call: Option<Api.Endpoint>, notice: string)
      requires Valid()
      modifies this
      ensures Valid()
      ensures !placingOrder
      ensures selected == old(selected)
      ensures old(selected).None? ==>
                call == None && notice == ChooseRestaurantNotice && unchanged(this)
      ensures old(selected).Some? && Trim(old(address)) == "" ==>
                call == None && notice == EnterAddressNotice && unchanged(this)
      ensures old(selected).Some? && Trim(old(address)) != "" && old(cart) == [] ==>
                call == None && notice == EmptyCartNotice && unchanged(this)
      ensures ReadyToOrder(old(selected), old(address), old(cart)) ==>
                && call == Some(Api.OrdersCreateOrder(old(selected).value.id, Trim(old(address)), OrderItems(old(cart))))
                && (reply.Thrown? ==>
                      notice == OrderFailedPrefix + reply.message && cart == old(cart) && address == old(address))
                && (!reply.Thrown? ==>
                      notice == OrderPlacedNotice && cart == [] && address == "")
    {
      if selected.None? {
        return None, ChooseRestaurantNotice;
      }
      if Trim(address) == "" {
        return None, EnterAddressNotice;
      }
      if |cart| == 0 {
        return None, EmptyCartNotice;
      }
      var items := OrderItems(cart);
      placingOrder := true;
      call := Some(Api.OrdersCreateOrder(selected.value.id, Trim(address), items));
      match reply {
        case Thrown(message) =>
          notice := OrderFailedPrefix + message;
        case _ =>
          notice := OrderPlacedNotice;
          cart := [];
          address := "";
      }
      placingOrder := false;
    }
  }
}
