/** The controls of one cart line: its unit and line prices, and the cart
    action that each of its three buttons issues. */
module CartItemControls {
  import opened Wrappers
  import Pricing
  import opened CartContext

  /** The props a cart line is rendered from. */
  datatype CartItemProps = CartItemProps(
    id: int, name: string, price: int, discountPrice: Option<int>,
    image: string, quantity: int)

  function PropsOf(item: CartItem): CartItemProps {
    CartItemProps(item.id, item.name, item.price, item.discountPrice, item.image, item.quantity)
  }

  /** activePrice */
  function ActivePrice(props: CartItemProps): int {
    Pricing.EffectivePrice(props.price, props.discountPrice)
  }

  /** totalPrice of the line. */
  function TotalPrice(props: CartItemProps): (r: int)
    ensures r == ActivePrice(props) * props.quantity
  {
    Pricing.LineTotal(props.price, props.discountPrice, props.quantity)
  }

  /** The plus button. */
  function IncreaseQuantity(props: CartItemProps): (a: CartAction)
    ensures a.UpdateQuantity? && a.id == props.id && a.quantity == props.quantity + 1
  {
    UpdateQuantity(props.id, props.quantity + 1)
  }

  /** The minus button: one unit less, or removal of the line at quantity 1. */
  function DecreaseQuantity(props: CartItemProps): (a: CartAction)
    ensures props.quantity > 1 ==> a.UpdateQuantity? && a.id == props.id && a.quantity == props.quantity - 1 && a.quantity >= 1
    ensures props.quantity <= 1 ==> a == RemoveItem(props.id)
  {
    if props.quantity > 1 then UpdateQuantity(props.id, props.quantity - 1)
    else RemoveItem(props.id)
  }

  /** The remove button. */
  function RemoveLine(props: CartItemProps): (a: CartAction)
    ensures a.RemoveItem? && a.id == props.id
  {
    RemoveItem(props.id)
  }

  // ---------------------------------------------------------------------------
  // The buttons composed with the reducer, on a state reached through it

  function SumLineTotals(items: seq<CartItem>): int {
    if items == [] then 0 else TotalPrice(PropsOf(items[0])) + SumLineTotals(items[1..])
  }

  /** The cart's stored total price is the sum of the line totals shown. */
  lemma {:induction false} LineTotalsMakeCartTotal(s: CartState)
    requires Valid(s)
    ensures s.totalPrice == SumLineTotals(s.items)
  {
    SumLineTotalsIsSumPrices(s.items);
  }

  lemma {:induction false} SumLineTotalsIsSumPrices(items: seq<CartItem>)
    ensures SumLineTotals(items) == SumPrices(items)
  {
    if items != [] { SumLineTotalsIsSumPrices(items[1..]); }
  }

  /** A positive update on a line of a valid cart changes that line only. */
  lemma UpdateOneLine(s: CartState, k: nat, q: int)
    requires Valid(s) && k < |s.items| && q > 0
    ensures var r := CartReducer(s, UpdateQuantity(s.items[k].id, q));
      && |r.items| == |s.items|
      && r.items[k] == s.items[k].(quantity := q)
      && (forall j :: 0 <= j < |s.items| && j != k ==> r.items[j] == s.items[j])
      && Valid(r)
  {
    UpdatePositive(s, s.items[k].id, q);
    ReducerPreservesValid(s, UpdateQuantity(s.items[k].id, q));
  }

  /** Plus raises the line's quantity by one and touches no other line. */
  lemma IncreaseEffect(s: CartState, k: nat)
    requires Valid(s) && k < |s.items|
    ensures var r := CartReducer(s, IncreaseQuantity(PropsOf(s.items[k])));
      && |r.items| == |s.items|
      && r.items[k] == s.items[k].(quantity := s.items[k].quantity + 1)
      && (forall j :: 0 <= j < |s.items| && j != k ==> r.items[j] == s.items[j])
      && Valid(r)
  {
    UpdateOneLine(s, k, s.items[k].quantity + 1);
  }

  /** Minus above 1 lowers the line's quantity by one, which stays at least 1;
      at quantity 1 it deletes the line instead of reaching 0. */
  lemma DecreaseEffect(s: CartState, k: nat)
    requires Valid(s) && k < |s.items|
    ensures var r := CartReducer(s, DecreaseQuantity(PropsOf(s.items[k])));
      && Valid(r)
      && (s.items[k].quantity > 1 ==>
            && |r.items| == |s.items|
            && r.items[k] == s.items[k].(quantity := s.items[k].quantity - 1)
            && r.items[k].quantity >= 1
            && (forall j :: 0 <= j < |s.items| && j != k ==> r.items[j] == s.items[j]))
      && (s.items[k].quantity == 1 ==>
            && r.items == s.items[..k] + s.items[k + 1..]
            && (forall j :: 0 <= j < |r.items| ==> r.items[j].id != s.items[k].id))
  {
    if s.items[k].quantity > 1 {
      UpdateOneLine(s, k, s.items[k].quantity - 1);
    } else {
      RemoveOneLine(s.items, k);
      RemoveEffect(s, s.items[k].id);
      ReducerPreservesValid(s, RemoveItem(s.items[k].id));
    }
  }

  /** The remove button deletes exactly this line, whatever its quantity. */
  lemma RemoveButtonEffect(s: CartState, k: nat)
    requires Valid(s) && k < |s.items|
    ensures var r := CartReducer(s, RemoveLine(PropsOf(s.items[k])));
      && r.items == s.items[..k] + s.items[k + 1..]
      && (forall j :: 0 <= j < |r.items| ==> r.items[j].id != s.items[k].id)
      && Valid(r)
  {
    RemoveOneLine(s.items, k);
    RemoveEffect(s, s.items[k].id);
    ReducerPreservesValid(s, RemoveItem(s.items[k].id));
  }
}
