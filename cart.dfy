/**
 * The cart service: one cart per user, kept in a keyed store, an add
 * operation that upserts a line by product id, and the checkout that calls
 * the payment service and clears the cart exactly when payment answers 200.
 *
 * The store's Redis and in-memory backings are one map here. The calls to
 * the catalog and payment services are replaced by their replies, passed in
 * as `CatalogReply` and `PaymentReply`; the checkout's 5% chaos roll is the
 * input `chaos`. User and order ids are the payment service's types.
 */
module Cart {
  import opened Wrappers
  import Catalog
  import Payment

  /** One cart line: the product's id, name and price, and how many. */
  datatype CartItem = CartItem(productId: int, name: string, price: int, quantity: int)

  datatype Cart = Cart(items: seq<CartItem>, total: int)

  /** The cart a user without a stored cart sees, and a cart after checkout. */
  const EmptyCart: Cart := Cart([], 0)

  /** The sum of price times quantity over the lines. */
  function Total(items: seq<CartItem>): int
  {
    if items == [] then 0 else items[0].price * items[0].quantity + Total(items[1..])
  }

  /** No two lines share a product id. */
  predicate UniqueProducts(items: seq<CartItem>)
  {
    forall i, j :: 0 <= i < j < |items| ==> items[i].productId != items[j].productId
  }

  /** The stored-cart invariant: the total is the sum of the lines, and lines are keyed by product. */
  predicate Consistent(c: Cart)
  {
    c.total == Total(c.items) && UniqueProducts(c.items)
  }

  /**
   * The lines after adding `line`: the first line with the same product id
   * has its quantity raised by `line.quantity`; if there is none, `line` is
   * appended.
   */
  function AddLine(items: seq<CartItem>, line: CartItem): seq<CartItem>
  {
    if items == [] then [line]
    else if items[0].productId == line.productId then
      [items[0].(quantity := items[0].quantity + line.quantity)] + items[1..]
    else [items[0]] + AddLine(items[1..], line)
  }

  lemma {:induction false} TotalAppend(items: seq<CartItem>, line: CartItem)
    ensures Total(items + [line]) == Total(items) + line.price * line.quantity
  {
    if items != [] {
      assert (items + [line])[1..] == items[1..] + [line];
      TotalAppend(items[1..], line);
    }
  }

  lemma {:induction false} TotalIncrement(items: seq<CartItem>, i: nat, q: int)
    requires i < |items|
    ensures Total(items[i := items[i].(quantity := items[i].quantity + q)]) == Total(items) + items[i].price * q
  {
    var updated := items[i := items[i].(quantity := items[i].quantity + q)];
    if i == 0 {
      assert updated[1..] == items[1..];
    } else {
      assert updated[1..] == items[1..][i - 1 := items[i].(quantity := items[i].quantity + q)];
      TotalIncrement(items[1..], i - 1, q);
    }
  }

  /**
   * Adding a product already in the cart raises only that line's quantity:
   * the number of lines and every other line stay the same, and the total
   * grows by the line's price times the added quantity.
   */
  lemma {:induction false} AddExistingLine(items: seq<CartItem>, line: CartItem, i: nat)
    requires i < |items| && items[i].productId == line.productId
    requires forall j :: 0 <= j < i ==> items[j].productId != line.productId
    ensures AddLine(items, line) == items[i := items[i].(quantity := items[i].quantity + line.quantity)]
    ensures |AddLine(items, line)| == |items|
    ensures forall j :: 0 <= j < |items| && j != i ==> AddLine(items, line)[j] == items[j]
    ensures AddLine(items, line)[i].quantity == items[i].quantity + line.quantity
    ensures Total(AddLine(items, line)) == Total(items) + items[i].price * line.quantity
  {
    if i > 0 {
      AddExistingLine(items[1..], line, i - 1);
      assert items == [items[0]] + items[1..];
    }
    TotalIncrement(items, i, line.quantity);
  }

  /**
   * Adding a product not in the cart appends exactly `line` at the end, and
   * the total grows by its price times its quantity.
   */
  lemma {:induction false} AddNewLine(items: seq<CartItem>, line: CartItem)
    requires forall j :: 0 <= j < |items| ==> items[j].productId != line.productId
    ensures AddLine(items, line) == items + [line]
    ensures Total(AddLine(items, line)) == Total(items) + line.price * line.quantity
  {
    if items != [] {
      AddNewLine(items[1..], line);
      assert items == [items[0]] + items[1..];
    }
    TotalAppend(items, line);
  }

  /** Adding a line keeps the product ids of the lines distinct. */
  lemma AddLineKeepsUnique(items: seq<CartItem>, line: CartItem)
    requires UniqueProducts(items)
    ensures UniqueProducts(AddLine(items, line))
  {
    if i :| 0 <= i < |items| && items[i].productId == line.productId {
      AddExistingLine(items, line, i);
    } else {
      AddNewLine(items, line);
    }
  }

  /** Every line has a positive price and a quantity of at least one. */
  predicate PositiveLines(items: seq<CartItem>)
  {
    forall i :: 0 <= i < |items| ==> items[i].price > 0 && items[i].quantity >= 1
  }

  /** Lines with positive prices and quantities sum to a total above zero unless there are none. */
  lemma {:induction false} PositiveTotal(items: seq<CartItem>)
    requires PositiveLines(items)
    ensures Total(items) >= 0
    ensures items != [] ==> Total(items) > 0
  {
    if items != [] {
      assert PositiveLines(items[1..]) by {
        forall i | 0 <= i < |items[1..]| ensures items[1..][i].price > 0 && items[1..][i].quantity >= 1 {
          assert items[1..][i] == items[i + 1];
        }
      }
      PositiveTotal(items[1..]);
    }
  }

  /** Adding a line of positive price and quantity keeps every line positive. */
  lemma {:induction false} AddLineKeepsPositive(items: seq<CartItem>, line: CartItem)
    requires PositiveLines(items) && line.price > 0 && line.quantity >= 1
    ensures PositiveLines(AddLine(items, line))
  {
    if items != [] && items[0].productId != line.productId {
      assert PositiveLines(items[1..]) by {
        forall i | 0 <= i < |items[1..]| ensures items[1..][i].price > 0 && items[1..][i].quantity >= 1 {
          assert items[1..][i] == items[i + 1];
        }
      }
      AddLineKeepsPositive(items[1..], line);
      var rest := AddLine(items[1..], line);
      assert forall i :: 0 < i < |rest| + 1 ==> ([items[0]] + rest)[i] == rest[i - 1];
    }
  }

  /**
   * The add handler does not check the quantity: adding product 1 (price
   * 999) with quantity -1 to an empty cart gives the total -999.
   */
  lemma NegativeQuantityGivesNegativeTotal()
    ensures var items := AddLine([], CartItem(1, "iPhone 15 Pro", 999, -1));
      Consistent(Cart(items, Total(items))) && Total(items) == -999
  {
  }

  /** The first line with product id `productId`, if any. */
  method FindItem(items: seq<CartItem>, productId: int) returns (index: Option<nat>)
    ensures index.None? <==> forall j :: 0 <= j < |items| ==> items[j].productId != productId
    ensures index.Some? ==> index.value < |items| && items[index.value].productId == productId
    ensures index.Some? ==> forall j :: 0 <= j < index.value ==> items[j].productId != productId
  {
    var i := 0;
    while i < |items|
      invariant 0 <= i <= |items|
      invariant forall j :: 0 <= j < i ==> items[j].productId != productId
    {
      if items[i].productId == productId {
        return Some(i);
      }
      i := i + 1;
    }
    return None;
  }

  /**
   * How the cart sees the catalog call: a product (status 200), any other
   * status, or no usable reply. A reply whose body is not JSON makes the
   * decoding raise a request exception, so it counts as `Unavailable`.
   */
  datatype CatalogReply = Found(product: Catalog.Product) | NotFound | Unavailable

  /**
   * How the cart sees the payment call: a status with the `order_id` of a
   * JSON body, a timeout, or another transport error. A reply whose body is
   * not JSON makes the decoding raise a request exception, so it counts as
   * `TransportError`, whatever its status.
   */
  datatype PaymentReply = Responded(status: int, orderId: Option<Payment.OrderId>) | Timeout | TransportError

  /** The body the cart sends to the payment service. */
  datatype PaymentRequest = PaymentRequest(userId: Payment.UserId, amount: int, items: int)

  /** The reply of `POST /cart/<user_id>/add`. */
  datatype AddResponse =
    | Added(cart: Cart)        // 200, "Product added to cart"
    | ProductNotFound          // 404
    | CatalogUnavailable       // 503
  {
    function Status(): int
    {
      match this
      case Added(_) => 200
      case ProductNotFound => 404
      case CatalogUnavailable => 503
    }
  }

  /** The reply of `POST /cart/<user_id>/checkout`. */
  datatype CheckoutResponse =
    | CartIsEmpty                                       // 400
    | CheckoutUnavailable                               // 503, the chaos gate
    | CheckoutSucceeded(orderId: Option<Payment.OrderId>, total: int)  // 200
    | PaymentFailed(code: int)                          // the payment service's own status
    | PaymentTimeout                                    // 504
    | PaymentServiceError                               // 503
  {
    function Status(): int
    {
      match this
      case CartIsEmpty => 400
      case CheckoutUnavailable => 503
      case CheckoutSucceeded(_, _) => 200
      case PaymentFailed(code) => code
      case PaymentTimeout => 504
      case PaymentServiceError => 503
    }
  }

  /** Every cart in `carts` satisfies the cart invariant. */
  predicate AllConsistent(carts: map<Payment.UserId, Cart>)
  {
    forall u :: u in carts ==> Consistent(carts[u])
  }

  /** Storing a consistent cart keeps every stored cart consistent. */
  lemma StoreConsistent(carts: map<Payment.UserId, Cart>, userId: Payment.UserId, c: Cart)
    requires AllConsistent(carts) && Consistent(c)
    ensures AllConsistent(carts[userId := c])
  {
  }

  /** The cart `GET /cart/<user_id>` shows for a map of stored carts. */
  function Lookup(carts: map<Payment.UserId, Cart>, userId: Payment.UserId): (c: Cart)
    ensures userId in carts ==> c == carts[userId]
    ensures userId !in carts ==> c.items == [] && c.total == 0
  {
    if userId in carts then carts[userId] else EmptyCart
  }

  /** Whether checkout turns `userId` away as having nothing to pay for. */
  predicate NothingToCheckOut(carts: map<Payment.UserId, Cart>, userId: Payment.UserId)
  {
    userId !in carts || carts[userId].items == []
  }

  /**
   * Deleting the cart (the Redis backing) and storing an empty cart (the
   * in-memory backing) after a successful checkout cannot be told apart by
   * reading a cart or by starting a checkout.
   */
  lemma DeleteMatchesReset(carts: map<Payment.UserId, Cart>, userId: Payment.UserId, other: Payment.UserId)
    ensures Lookup(carts - {userId}, other) == Lookup(carts[userId := EmptyCart], other)
    ensures NothingToCheckOut(carts - {userId}, other) == NothingToCheckOut(carts[userId := EmptyCart], other)
  {
  }

  /** The cart service's state: the stored cart of each user. */
  class CartStore {
    var carts: map<Payment.UserId, Cart>

    /** Every stored cart satisfies the cart invariant. */
    ghost predicate Valid()
      reads this
    {
      AllConsistent(carts)
    }

    /** The service starts with no stored carts. */
    constructor ()
      ensures Valid() && carts == map[]
    {
      carts := map[];
    }

    /** `GET /cart/<user_id>`: the stored cart, or an empty cart that is not stored. */
    function GetCart(userId: Payment.UserId): (c: Cart)
      reads this
      ensures c == Lookup(carts, userId)
      ensures Valid() ==> Consistent(c)
    {
      Lookup(carts, userId)
    }

    /**
     * `POST /cart/<user_id>/add` with body `{product_id, quantity?}`; a
     * missing quantity means 1. Unless the catalog returned the product,
     * nothing is stored.
     */
    method AddToCart(userId: Payment.UserId, productId: int, quantity: Option<int>, catalog: CatalogReply)
      returns (resp: AddResponse)
      requires Valid()
      modifies this
      ensures Valid()
      ensures catalog.Found? ==>
                var line := CartItem(productId, catalog.product.name, catalog.product.price, quantity.GetOr(1));
                var items := AddLine(old(GetCart(userId)).items, line);
                carts == old(carts)[userId := Cart(items, Total(items))]
                && resp == Added(carts[userId]) && resp.Status() == 200
      ensures catalog.NotFound? ==> resp == ProductNotFound && resp.Status() == 404 && carts == old(carts)
      ensures catalog.Unavailable? ==> resp == CatalogUnavailable && resp.Status() == 503 && carts == old(carts)
    {
      match catalog
      case Unavailable =>
        return CatalogUnavailable;
      case NotFound =>
        return ProductNotFound;
      case Found(product) =>
        var q := quantity.GetOr(1);
        var line := CartItem(productId, product.name, product.price, q);
        var items := GetCart(userId).items;
        var existing := FindItem(items, productId);
        if existing.Some? {
          var i := existing.value;
          AddExistingLine(items, line, i);
          items := items[i := items[i].(quantity := items[i].quantity + q)];
        } else {
          AddNewLine(items, line);
          items := items + [line];
        }
        AddLineKeepsUnique(GetCart(userId).items, line);
        var cart := Cart(items, Total(items));
        StoreConsistent(carts, userId, cart);
        carts := carts[userId := cart];
        resp := Added(cart);
    }

    /**
     * `POST /cart/<user_id>/checkout`: refuse an absent or empty cart, then
     * pass the chaos gate, then send `{user_id, amount: total, items: line
     * count}` to the payment service (`sent`) and act on `reply`. Only a 200
     * reply clears the cart; every other path leaves the store as it was.
     */
    method Checkout(userId: Payment.UserId, chaos: bool, reply: PaymentReply)
      returns (resp: CheckoutResponse, sent: Option<PaymentRequest>)
      requires Valid()
      modifies this
      ensures Valid()
      ensures NothingToCheckOut(old(carts), userId) ==>
                resp == CartIsEmpty && resp.Status() == 400 && sent == None && carts == old(carts)
      ensures !NothingToCheckOut(old(carts), userId) && chaos ==>
                resp == CheckoutUnavailable && resp.Status() == 503 && sent == None && carts == old(carts)
      ensures !NothingToCheckOut(old(carts), userId) && !chaos ==>
                sent == Some(PaymentRequest(userId, old(carts)[userId].total, |old(carts)[userId].items|))
      ensures sent.Some? && reply.Responded? && reply.status == 200 ==>
                resp == CheckoutSucceeded(reply.orderId, old(carts)[userId].total)
                && carts == old(carts)[userId := EmptyCart]
      ensures sent.Some? && reply.Responded? && reply.status != 200 ==>
                resp == PaymentFailed(reply.status) && resp.Status() == reply.status && carts == old(carts)
      ensures sent.Some? && reply.Timeout? ==>
                resp == PaymentTimeout && resp.Status() == 504 && carts == old(carts)
      ensures sent.Some? && reply.TransportError? ==>
                resp == PaymentServiceError && resp.Status() == 503 && carts == old(carts)
      ensures carts != old(carts) <==> resp.CheckoutSucceeded?
      ensures resp.CheckoutSucceeded? <==> sent.Some? && reply.Responded? && reply.status == 200
    {
      sent := None;
      if NothingToCheckOut(carts, userId) {
        return CartIsEmpty, sent;
      }
      var cart := carts[userId];
      if chaos {
        return CheckoutUnavailable, sent;
      }
      sent := Some(PaymentRequest(userId, cart.total, |cart.items|));
      match reply
      case Responded(status, orderId) =>
        if status == 200 {
          StoreConsistent(carts, userId, EmptyCart);
          carts := carts[userId := EmptyCart];
          resp := CheckoutSucceeded(orderId, cart.total);
        } else {
          resp := PaymentFailed(status);
        }
      case Timeout =>
        resp := PaymentTimeout;
      case TransportError =>
        resp := PaymentServiceError;
    }
  }
}
