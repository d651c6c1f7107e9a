/**
 * The order-wide delivery date shown at checkout
 * (display_checkout_delivery_date in includes/class-ed-dates-ck.php):
 * the latest of the cart items' estimated delivery dates.
 *
 * The per-item estimate (calculate_estimated_delivery) and the parse of its
 * 'l, F j, Y' text (DateTime::createFromFormat) are parameters: estimate
 * maps a product id to its text, parse yields the day or None on failure.
 */
module EdDatesCk {
  import opened Php
  import opened Calendar

  /** A cart item; productId is None when the item has no 'product_id' key. */
  datatype CartItem = CartItem(productId: Option<int>)

  /** An item takes part: it has a product id, a non-empty estimate, and the estimate parses. */
  predicate Qualifies(item: CartItem, estimate: int -> string, parse: string -> Option<Day>) {
    && item.productId.Some?
    && Truthy(estimate(item.productId.value))
    && parse(estimate(item.productId.value)).Some?
  }

  function DateOf(item: CartItem, estimate: int -> string, parse: string -> Option<Day>): Day
    requires Qualifies(item, estimate, parse)
  {
    parse(estimate(item.productId.value)).value
  }

  /**
   * The fold over the cart: a missing or empty cart, or one without a
   * qualifying item, shows nothing (None); otherwise the kept date is the
   * latest qualifying date, first reached by an item no earlier item
   * matches, since only a strictly later date replaces it.
   */
  method LatestCartDeliveryDate(cart: Option<seq<CartItem>>, estimate: int -> string,
                                parse: string -> Option<Day>) returns (latest: Option<Day>)
    ensures latest.None? <==>
      cart.None? || forall k :: 0 <= k < |cart.value| ==> !Qualifies(cart.value[k], estimate, parse)
    ensures latest.Some? ==> forall k :: 0 <= k < |cart.value| && Qualifies(cart.value[k], estimate, parse) ==>
      DateOf(cart.value[k], estimate, parse) <= latest.value
    ensures latest.Some? ==> exists k :: (
      && 0 <= k < |cart.value|
      && Qualifies(cart.value[k], estimate, parse)
      && DateOf(cart.value[k], estimate, parse) == latest.value
      && forall j :: 0 <= j < k && Qualifies(cart.value[j], estimate, parse) ==>
           DateOf(cart.value[j], estimate, parse) < latest.value)
  {
    if cart.None? || |cart.value| == 0 {
      return None;
    }
    var items := cart.value;
    latest := None;
    ghost var at := 0;
    for i := 0 to |items|
      invariant latest.None? <==> forall k :: 0 <= k < i ==> !Qualifies(items[k], estimate, parse)
      invariant latest.Some? ==> forall k :: 0 <= k < i && Qualifies(items[k], estimate, parse) ==>
        DateOf(items[k], estimate, parse) <= latest.value
      invariant latest.Some? ==> (
        && 0 <= at < i
        && Qualifies(items[at], estimate, parse)
        && DateOf(items[at], estimate, parse) == latest.value
        && forall j :: 0 <= j < at && Qualifies(items[j], estimate, parse) ==>
             DateOf(items[j], estimate, parse) < latest.value)
    {
      var item := items[i];
      if item.productId.None? {
        continue;
      }
      var deliveryDate := estimate(item.productId.value);
      if !Truthy(deliveryDate) {
        continue;
      }
      var dateObj := parse(deliveryDate);
      if dateObj.None? {
        continue;
      }
      if latest.None? || dateObj.value > latest.value {
        latest := dateObj;
        at := i;
      }
    }
  }
}
