/**
 * How the three services meet: the cart reads the catalog's and the payment
 * service's HTTP replies, and a checkout runs cart -> payment -> cart. The
 * network between them is the input `Hop`.
 */
module Storefront {
  import opened Wrappers
  import Catalog
  import Payment
  import Cart

  /** How the cart reads the catalog's reply: only status 200 yields a product. */
  function CatalogReplyOf(resp: Catalog.ProductResponse): (r: Cart.CatalogReply)
    ensures r.Found? <==> resp.Status() == 200
    ensures r.Found? ==> r.product == resp.product
    ensures !r.Unavailable?
  {
    if resp.Status() == 200 then Cart.Found(resp.product) else Cart.NotFound
  }

  /** A product of the table reaches the cart with its name and positive price. */
  lemma KnownProductIsFound(p: Catalog.Product)
    requires p in Catalog.Products
    ensures CatalogReplyOf(Catalog.GetProduct(p.id)) == Cart.Found(p)
    ensures p.price > 0
  {
    Catalog.GetProductReturnsEntry(p);
    Catalog.TableWellFormed();
  }

  /** An id that is not in the table reaches the cart as "not found". */
  lemma UnknownProductIsNotFound(id: int)
    requires forall i :: 0 <= i < |Catalog.Products| ==> Catalog.Products[i].id != id
    ensures CatalogReplyOf(Catalog.GetProduct(id)) == Cart.NotFound
  {
  }

  /** How the cart reads the payment service's reply: its status and the body's `order_id`. */
  function PaymentReplyOf(resp: Payment.ProcessResponse): (r: Cart.PaymentReply)
    ensures r.Responded? && r.status == resp.Status()
    ensures r.status == 200 <==> resp.Processed?
    ensures resp.Processed? ==> r.orderId == Some(resp.orderId)
  {
    Payment.SuccessStatus(resp);
    Cart.Responded(resp.Status(), if resp.Processed? then Some(resp.orderId) else None)
  }

  /**
   * What happens to the cart's call to the payment service: the reply comes
   * back; the connection is refused; or the call times out, after the
   * payment service did (`reached`) or did not handle the request.
   */
  datatype Hop = Delivered | Refused | TimedOut(reached: bool)

  /**
   * A checkout through both services. A cart is consumed only by a payment
   * the payment service recorded, under the order id the checkout returns
   * and for the cart's total; when the reply is delivered, a recorded payment
   * always consumes the cart, and a delivered failure passes its status
   * through, keeps the cart and records nothing. A timeout after the payment
   * service approved the request leaves a recorded payment and an unconsumed
   * cart: there the source does not keep the two in step.
   */
  method PlaceOrder(store: Cart.CartStore, processor: Payment.PaymentProcessor, userId: Payment.UserId,
                    chaos: bool, draw: Payment.Draw, orderId: Payment.OrderId, hop: Hop)
    returns (resp: Cart.CheckoutResponse)
    requires store.Valid()
    modifies store, processor
    ensures store.Valid()
    ensures store.carts != old(store.carts) ==>
              && resp == Cart.CheckoutSucceeded(Some(orderId), old(store.GetCart(userId)).total)
              && processor.processed == old(processor.processed) +
                   [Payment.PaymentRecord(orderId, userId, old(store.GetCart(userId)).total, Payment.Completed)]
    ensures hop.Delivered? ==>
              (store.carts != old(store.carts) <==> |processor.processed| > |old(processor.processed)|)
    ensures !hop.Delivered? ==> store.carts == old(store.carts)
    ensures hop.Refused? || hop == TimedOut(false) || chaos || Cart.NothingToCheckOut(old(store.carts), userId) ==>
              processor.processed == old(processor.processed)
    ensures old(processor.processed) <= processor.processed
    ensures hop.Delivered? && !chaos && !Cart.NothingToCheckOut(old(store.carts), userId)
            && draw.Approve? && userId != "" && old(store.GetCart(userId)).total != 0 ==>
              resp.CheckoutSucceeded? && store.carts == old(store.carts)[userId := Cart.EmptyCart]
    ensures hop.Delivered? && !chaos && !Cart.NothingToCheckOut(old(store.carts), userId)
            && draw.Fail? && userId != "" && old(store.GetCart(userId)).total != 0 ==>
              && resp == Cart.PaymentFailed(Payment.ErrorTypes[draw.choice].1)
              && resp.Status() == Payment.ErrorTypes[draw.choice].1
              && store.carts == old(store.carts) && processor.processed == old(processor.processed)
    ensures hop.Delivered? && !chaos && !Cart.NothingToCheckOut(old(store.carts), userId)
            && (userId == "" || old(store.GetCart(userId)).total == 0) ==>
              && resp == Cart.PaymentFailed(400)
              && store.carts == old(store.carts) && processor.processed == old(processor.processed)
    ensures hop == TimedOut(true) && !chaos && !Cart.NothingToCheckOut(old(store.carts), userId)
            && draw.Approve? && userId != "" && old(store.GetCart(userId)).total != 0 ==>
              && resp == Cart.PaymentTimeout && store.carts == old(store.carts)
              && |processor.processed| == |old(processor.processed)| + 1
  {
    var reply: Cart.PaymentReply := Cart.TransportError;
    if !Cart.NothingToCheckOut(store.carts, userId) && !chaos {
      var cart := store.GetCart(userId);
      if hop.Delivered? || hop == TimedOut(true) {
        var paid := processor.ProcessPayment(Some(userId), Some(cart.total), draw, orderId);
        reply := if hop.Delivered? then PaymentReplyOf(paid) else Cart.Timeout;
      } else {
        reply := if hop.Refused? then Cart.TransportError else Cart.Timeout;
      }
    }
    var sent;
    resp, sent := store.Checkout(userId, chaos, reply);
  }

  /** Product 1 bought alone: checkout reports 999 and the cart reads empty afterwards. */
  method CheckoutOfOneProduct()
  {
    var store := new Cart.CartStore();
    var product := Catalog.Products[0];
    KnownProductIsFound(product);
    var added := store.AddToCart("alice", 1, None, CatalogReplyOf(Catalog.GetProduct(1)));
    Cart.AddNewLine([], Cart.CartItem(1, product.name, product.price, 1));
    assert added.cart.items == [Cart.CartItem(1, "iPhone 15 Pro", 999, 1)];
    var resp, sent := store.Checkout("alice", false, Cart.Responded(200, Some("order-1")));
    assert sent == Some(Cart.PaymentRequest("alice", 999, 1));
    assert resp == Cart.CheckoutSucceeded(Some("order-1"), 999);
    assert store.GetCart("alice") == Cart.EmptyCart;
  }

  /** Product 999 is not in the catalog: the add answers 404 and stores nothing. */
  method AddOfUnknownProduct()
  {
    var store := new Cart.CartStore();
    Catalog.TableWellFormed();
    UnknownProductIsNotFound(999);
    var added := store.AddToCart("bob", 999, Some(1), CatalogReplyOf(Catalog.GetProduct(999)));
    assert added.Status() == 404;
    assert store.carts == map[];
  }

  /** Adding product 3 twice gives one line of quantity 2, and a failed payment keeps it. */
  method SameProductTwice()
  {
    var store := new Cart.CartStore();
    var product := Catalog.Products[2];
    KnownProductIsFound(product);
    var line := Cart.CartItem(3, product.name, product.price, 1);
    var first := store.AddToCart("carol", 3, None, CatalogReplyOf(Catalog.GetProduct(3)));
    Cart.AddNewLine([], line);
    var second := store.AddToCart("carol", 3, None, CatalogReplyOf(Catalog.GetProduct(3)));
    Cart.AddExistingLine([line], line, 0);
    assert second.cart == Cart.Cart([line.(quantity := 2)], 498);
    var resp, sent := store.Checkout("carol", false, Cart.Responded(402, None));
    assert resp.Status() == 402;
    assert store.GetCart("carol") == second.cart;
  }
}
