/** Prices of products and cart lines. All amounts are integers in cents. */
module Pricing {
  import opened Wrappers

  /** The unit price a shopper pays, `discountPrice || price` in the source:
      the discount price when it is present and non-zero (zero is falsy and
      therefore ignored), the list price otherwise. */
  function EffectivePrice(price: int, discountPrice: Option<int>): (r: int)
    ensures discountPrice.Some? && discountPrice.value != 0 ==> r == discountPrice.value
    ensures discountPrice == None || discountPrice == Some(0) ==> r == price
    ensures discountPrice.Some? && discountPrice.value <= price ==> r <= price
  {
    if discountPrice.Some? && discountPrice.value != 0 then discountPrice.value else price
  }

  /** The price of a line of `quantity` units. */
  function LineTotal(price: int, discountPrice: Option<int>, quantity: int): (r: int)
    ensures quantity == 0 ==> r == 0
    ensures EffectivePrice(price, discountPrice) >= 0 && quantity >= 0 ==> r >= 0
    ensures quantity == 1 ==> r == EffectivePrice(price, discountPrice)
  {
    EffectivePrice(price, discountPrice) * quantity
  }
}
