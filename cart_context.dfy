/** The cart store: a reducer over four actions whose state is the list of
    line items and two totals derived from it, and the store object that
    dispatches actions and writes each new state to storage. */
module CartContext {
  import opened Wrappers
  import opened Sequences
  import Pricing

  /** A product as the cart receives it. */
  datatype Product = Product(
    id: int, name: string, price: int, discountPrice: Option<int>,
    image: string, category: string)

  /** A line item: the product's fields plus a quantity. */
  datatype CartItem = CartItem(
    id: int, name: string, price: int, discountPrice: Option<int>,
    image: string, category: string, quantity: int)

  datatype CartState = CartState(items: seq<CartItem>, totalItems: int, totalPrice: int)

  datatype CartAction =
    | AddItem(product: Product)
    | RemoveItem(id: int)
    | UpdateQuantity(id: int, quantity: int)
    | ClearCart

  datatype Totals = Totals(totalItems: int, totalPrice: int)

  const InitialState := CartState([], 0, 0)

  /** `{ ...product, quantity }` */
  function NewItem(p: Product, quantity: int): CartItem {
    CartItem(p.id, p.name, p.price, p.discountPrice, p.image, p.category, quantity)
  }

  function ItemTotal(item: CartItem): int {
    Pricing.LineTotal(item.price, item.discountPrice, item.quantity)
  }

  // ---------------------------------------------------------------------------
  // Reference sums and the fold that computes them

  function SumQuantities(items: seq<CartItem>): int {
    if items == [] then 0 else items[0].quantity + SumQuantities(items[1..])
  }

  function SumPrices(items: seq<CartItem>): int {
    if items == [] then 0 else ItemTotal(items[0]) + SumPrices(items[1..])
  }

  /** The `reduce` of calculateTotals: a left fold from an accumulator. */
  function FoldTotals(items: seq<CartItem>, acc: Totals): Totals {
    if items == [] then acc
    else FoldTotals(items[1..], Totals(acc.totalItems + items[0].quantity,
                                       acc.totalPrice + ItemTotal(items[0])))
  }

  lemma {:induction false} FoldTotalsIsSum(items: seq<CartItem>, acc: Totals)
    ensures FoldTotals(items, acc)
         == Totals(acc.totalItems + SumQuantities(items), acc.totalPrice + SumPrices(items))
  {
    if items != [] {
      FoldTotalsIsSum(items[1..], Totals(acc.totalItems + items[0].quantity,
                                         acc.totalPrice + ItemTotal(items[0])));
    }
  }

  /** calculateTotals: the number of units and the price of the whole cart. */
  function CalculateTotals(items: seq<CartItem>): (t: Totals)
    ensures t.totalItems == SumQuantities(items)
    ensures t.totalPrice == SumPrices(items)
  {
    FoldTotalsIsSum(items, Totals(0, 0));
    FoldTotals(items, Totals(0, 0))
  }

  lemma {:induction false} SumsAppend(items: seq<CartItem>, item: CartItem)
    ensures SumQuantities(items + [item]) == SumQuantities(items) + item.quantity
    ensures SumPrices(items + [item]) == SumPrices(items) + ItemTotal(item)
  {
    if items != [] {
      assert (items + [item])[1..] == items[1..] + [item];
      SumsAppend(items[1..], item);
    }
  }

  /** Replacing one item changes the sums by the difference. */
  lemma {:induction false} SumsUpdate(items: seq<CartItem>, i: nat, item: CartItem)
    requires i < |items|
    ensures SumQuantities(items[i := item]) == SumQuantities(items) - items[i].quantity + item.quantity
    ensures SumPrices(items[i := item]) == SumPrices(items) - ItemTotal(items[i]) + ItemTotal(item)
  {
    if i > 0 {
      assert items[i := item][1..] == items[1..][i - 1 := item];
      SumsUpdate(items[1..], i - 1, item);
    } else {
      assert items[i := item][1..] == items[1..];
    }
  }

  // ---------------------------------------------------------------------------
  // The list operations the reducer uses

  /** findIndex on the id: the first position holding `id`, or -1. */
  function FindIndex(items: seq<CartItem>, id: int): (r: int)
    ensures -1 <= r < |items|
    ensures r == -1 <==> forall k :: 0 <= k < |items| ==> items[k].id != id
    ensures r >= 0 ==> items[r].id == id && forall k :: 0 <= k < r ==> items[k].id != id
  {
    if items == [] then -1
    else if items[0].id == id then 0
    else
      var r := FindIndex(items[1..], id);
      if r == -1 then -1 else r + 1
  }

  /** filter on `item.id !== id`. */
  function RemoveById(items: seq<CartItem>, id: int): (r: seq<CartItem>)
    ensures forall x :: x in r <==> x in items && x.id != id
    ensures |r| <= |items|
    ensures (forall k :: 0 <= k < |items| ==> items[k].id != id) ==> r == items
  {
    if items == [] then []
    else if items[0].id != id then [items[0]] + RemoveById(items[1..], id)
    else RemoveById(items[1..], id)
  }

  /** The lines that survive the filter keep their relative order. */
  lemma {:induction false} RemoveByIdIsSubsequence(items: seq<CartItem>, id: int)
    ensures IsSubsequence(RemoveById(items, id), items)
  {
    if items != [] {
      RemoveByIdIsSubsequence(items[1..], id);
      var r := RemoveById(items, id);
      if items[0].id != id {
        assert r[0] == items[0] && r[1..] == RemoveById(items[1..], id);
      }
    }
  }

  /** map replacing the quantity of the items whose id is `id`. */
  function SetQuantity(items: seq<CartItem>, id: int, quantity: int): (r: seq<CartItem>)
    ensures |r| == |items|
  {
    seq(|items|, k requires 0 <= k < |items| =>
      if items[k].id == id then items[k].(quantity := quantity) else items[k])
  }

  /** `{ ...state, items, ...calculateTotals(items) }` */
  function WithTotals(items: seq<CartItem>): (s: CartState)
    ensures s.items == items
    ensures s.totalItems == SumQuantities(items) && s.totalPrice == SumPrices(items)
  {
    var t := CalculateTotals(items);
    CartState(items, t.totalItems, t.totalPrice)
  }

  // ---------------------------------------------------------------------------
  // The reducer

  /** cartReducer. Whatever the action, the totals it stores are the sums over
      the items it stores. */
  function CartReducer(state: CartState, action: CartAction): (r: CartState)
    ensures r.totalItems == SumQuantities(r.items)
    ensures r.totalPrice == SumPrices(r.items)
    decreases if action.UpdateQuantity? then 1 else 0
  {
    match action
    case AddItem(p) =>
      var i := FindIndex(state.items, p.id);
      if i >= 0 then
        WithTotals(state.items[i := state.items[i].(quantity := state.items[i].quantity + 1)])
      else
        WithTotals(state.items + [NewItem(p, 1)])
    case RemoveItem(id) =>
      WithTotals(RemoveById(state.items, id))
    case UpdateQuantity(id, quantity) =>
      if quantity <= 0 then CartReducer(state, RemoveItem(id))
      else WithTotals(SetQuantity(state.items, id, quantity))
    case ClearCart =>
      InitialState
  }

  // ---------------------------------------------------------------------------
  // The invariant of reachable states

  predicate DistinctIds(items: seq<CartItem>) {
    forall i, j :: 0 <= i < j < |items| ==> items[i].id != items[j].id
  }

  predicate PositiveQuantities(items: seq<CartItem>) {
    forall i :: 0 <= i < |items| ==> items[i].quantity >= 1
  }

  predicate Valid(s: CartState) {
    && DistinctIds(s.items)
    && PositiveQuantities(s.items)
    && s.totalItems == SumQuantities(s.items)
    && s.totalPrice == SumPrices(s.items)
  }

  lemma InitialStateValid()
    ensures Valid(InitialState)
    ensures InitialState.items == [] && InitialState.totalItems == 0 && InitialState.totalPrice == 0
  {
  }

  lemma PrependKeepsInvariant(h: CartItem, rest: seq<CartItem>)
    requires DistinctIds(rest) && PositiveQuantities(rest) && h.quantity >= 1
    requires forall x :: x in rest ==> x.id != h.id
    ensures DistinctIds([h] + rest) && PositiveQuantities([h] + rest)
  {
    var r := [h] + rest;
    forall i, j | 0 <= i < j < |r| ensures r[i].id != r[j].id {
      assert r[j] == rest[j - 1] && r[j] in rest;
      if i > 0 { assert r[i] == rest[i - 1]; }
    }
    forall i | 0 <= i < |r| ensures r[i].quantity >= 1 {
      if i > 0 { assert r[i] == rest[i - 1]; }
    }
  }

  /** Filtering keeps ids distinct and quantities positive. */
  lemma {:induction false} RemoveByIdKeepsInvariant(items: seq<CartItem>, id: int)
    requires DistinctIds(items) && PositiveQuantities(items)
    ensures DistinctIds(RemoveById(items, id)) && PositiveQuantities(RemoveById(items, id))
  {
    if items != [] {
      var tail := items[1..];
      DistinctTail(items);
      assert PositiveQuantities(tail) by {
        forall i | 0 <= i < |tail| ensures tail[i].quantity >= 1 {
          assert tail[i] == items[i + 1];
        }
      }
      RemoveByIdKeepsInvariant(tail, id);
      if items[0].id != id {
        var rest := RemoveById(tail, id);
        forall x | x in rest ensures x.id != items[0].id {
          var j :| 0 <= j < |tail| && tail[j] == x;
          assert items[j + 1] == x;
        }
        assert items[0].quantity >= 1;
        PrependKeepsInvariant(items[0], rest);
      }
    }
  }

  /** Product ids stay pairwise distinct, quantities stay at least 1 and the
      totals stay equal to the sums, under all four actions. */
  lemma ReducerPreservesValid(s: CartState, a: CartAction)
    requires Valid(s)
    ensures Valid(CartReducer(s, a))
  {
    match a
    case AddItem(p) =>
      var i := FindIndex(s.items, p.id);
      if i < 0 {
        var items := s.items + [NewItem(p, 1)];
        assert CartReducer(s, a).items == items;
        assert forall k :: 0 <= k < |s.items| ==> items[k] == s.items[k];
      }
    case RemoveItem(id) =>
      RemoveByIdKeepsInvariant(s.items, id);
    case UpdateQuantity(id, q) =>
      if q <= 0 { RemoveByIdKeepsInvariant(s.items, id); }
    case ClearCart =>
  }

  // ---------------------------------------------------------------------------
  // What each action does

  /** Adding a product already in the cart increments that line by exactly 1
      and leaves every other line, the number of lines and their order alone. */
  lemma AddExisting(s: CartState, p: Product, i: nat)
    requires i < |s.items| && s.items[i].id == p.id
    requires forall k :: 0 <= k < i ==> s.items[k].id != p.id
    ensures var r := CartReducer(s, AddItem(p));
      && |r.items| == |s.items|
      && r.items[i] == s.items[i].(quantity := s.items[i].quantity + 1)
      && (forall k :: 0 <= k < |s.items| && k != i ==> r.items[k] == s.items[k])
      && r.totalItems == SumQuantities(s.items) + 1
      && (Valid(s) ==> r.totalItems == s.totalItems + 1)
  {
    SumsUpdate(s.items, i, s.items[i].(quantity := s.items[i].quantity + 1));
  }

  /** Adding a product not in the cart appends one line of quantity 1. */
  lemma AddAbsent(s: CartState, p: Product)
    requires forall k :: 0 <= k < |s.items| ==> s.items[k].id != p.id
    ensures var r := CartReducer(s, AddItem(p));
      && r.items == s.items + [NewItem(p, 1)]
      && r.items[|s.items|].quantity == 1
      && r.totalItems == SumQuantities(s.items) + 1
      && r.totalPrice == SumPrices(s.items) + Pricing.EffectivePrice(p.price, p.discountPrice)
      && (Valid(s) ==> r.totalItems == s.totalItems + 1)
  {
    SumsAppend(s.items, NewItem(p, 1));
  }

  /** Removing an id leaves no line with that id, keeps the other lines in their
      original relative order, and changes nothing when the id is absent. */
  lemma RemoveEffect(s: CartState, id: int)
    ensures var r := CartReducer(s, RemoveItem(id));
      && (forall k :: 0 <= k < |r.items| ==> r.items[k].id != id)
      && (forall x :: x in s.items && x.id != id ==> x in r.items)
      && IsSubsequence(r.items, s.items)
      && ((forall k :: 0 <= k < |s.items| ==> s.items[k].id != id) ==> r.items == s.items)
  {
    var r := CartReducer(s, RemoveItem(id));
    RemoveByIdIsSubsequence(s.items, id);
    assert forall k :: 0 <= k < |r.items| ==> r.items[k] in r.items;
  }

  lemma DistinctTail(items: seq<CartItem>)
    requires DistinctIds(items) && items != []
    ensures DistinctIds(items[1..])
  {
    var tail := items[1..];
    forall i, j | 0 <= i < j < |tail| ensures tail[i].id != tail[j].id {
      assert tail[i] == items[i + 1] && tail[j] == items[j + 1];
    }
  }

  /** With distinct ids, the id of the first line appears nowhere after it. */
  lemma HeadIdNotInTail(items: seq<CartItem>)
    requires DistinctIds(items) && items != []
    ensures forall j :: 0 <= j < |items[1..]| ==> items[1..][j].id != items[0].id
  {
    forall j | 0 <= j < |items[1..]| ensures items[1..][j].id != items[0].id {
      assert items[1..][j] == items[j + 1];
    }
  }

  /** With distinct ids, removing the id of line `k` deletes exactly that line. */
  lemma {:induction false} RemoveOneLine(items: seq<CartItem>, k: nat)
    requires DistinctIds(items) && k < |items|
    ensures RemoveById(items, items[k].id) == items[..k] + items[k + 1..]
  {
    var tail := items[1..];
    var id := items[k].id;
    if k == 0 {
      HeadIdNotInTail(items);
      assert RemoveById(tail, id) == tail;
      assert items[..k] + items[k + 1..] == tail;
    } else {
      DistinctTail(items);
      assert tail[k - 1] == items[k];
      RemoveOneLine(tail, k - 1);
      assert items[0].id != id;
      KeepHead(items, k);
    }
  }

  /** A first line with another id survives in front of the filtered rest. */
  lemma KeepHead(items: seq<CartItem>, k: nat)
    requires 0 < k < |items| && items[0].id != items[k].id
    requires RemoveById(items[1..], items[k].id) == items[1..][..k - 1] + items[1..][k..]
    ensures RemoveById(items, items[k].id) == items[..k] + items[k + 1..]
  {
    var tail, id := items[1..], items[k].id;
    assert RemoveById(items, id) == [items[0]] + RemoveById(tail, id);
    Regroup(items, k);
  }

  /** Cutting line `k` out of a sequence, seen from its tail. */
  lemma Regroup(items: seq<CartItem>, k: nat)
    requires 0 < k < |items|
    ensures items[..k] + items[k + 1..] == [items[0]] + (items[1..][..k - 1] + items[1..][k..])
  {
    assert items[..k] == [items[0]] + items[1..][..k - 1];
    assert items[k + 1..] == items[1..][k..];
  }

  /** UPDATE_QUANTITY with a quantity of 0 or less is REMOVE_ITEM. */
  lemma UpdateNonPositiveIsRemove(s: CartState, id: int, q: int)
    requires q <= 0
    ensures CartReducer(s, UpdateQuantity(id, q)) == CartReducer(s, RemoveItem(id))
  {
  }

  /** UPDATE_QUANTITY with a positive quantity sets the quantity of the
      matching lines only; length and order are kept, and an absent id
      changes no line. */
  lemma UpdatePositive(s: CartState, id: int, q: int)
    requires q > 0
    ensures var r := CartReducer(s, UpdateQuantity(id, q));
      && |r.items| == |s.items|
      && (forall k :: 0 <= k < |s.items| && s.items[k].id == id ==> r.items[k] == s.items[k].(quantity := q))
      && (forall k :: 0 <= k < |s.items| && s.items[k].id != id ==> r.items[k] == s.items[k])
      && ((forall k :: 0 <= k < |s.items| ==> s.items[k].id != id) ==> r.items == s.items)
  {
  }

  /** CLEAR_CART empties the cart whatever the prior state. */
  lemma ClearEffect(s: CartState)
    ensures CartReducer(s, ClearCart) == InitialState
    ensures CartReducer(s, ClearCart).items == []
    ensures CartReducer(s, ClearCart).totalItems == 0 && CartReducer(s, ClearCart).totalPrice == 0
  {
  }

  /** Adding a product that is not in the cart and then removing it restores
      the lines exactly, and a state whose totals agree with its lines
      entirely. */
  lemma AddThenRemove(s: CartState, p: Product)
    requires forall k :: 0 <= k < |s.items| ==> s.items[k].id != p.id
    ensures var r := CartReducer(CartReducer(s, AddItem(p)), RemoveItem(p.id));
      && r.items == s.items
      && (forall k :: 0 <= k < |r.items| ==> r.items[k].id != p.id)
      && (Valid(s) ==> r == s)
  {
    AddAbsent(s, p);
    var added := CartReducer(s, AddItem(p)).items;
    assert RemoveById(added, p.id) == RemoveById(s.items, p.id) + RemoveById([NewItem(p, 1)], p.id) by {
      RemoveByIdAppend(s.items, [NewItem(p, 1)], p.id);
    }
  }

  lemma {:induction false} RemoveByIdAppend(a: seq<CartItem>, b: seq<CartItem>, id: int)
    ensures RemoveById(a + b, id) == RemoveById(a, id) + RemoveById(b, id)
  {
    if a != [] {
      assert (a + b)[1..] == a[1..] + b;
      RemoveByIdAppend(a[1..], b, id);
    } else {
      assert a + b == b;
    }
  }

  /** Adding the same product twice and removing it once leaves no line for it
      (no negative or zero residue). */
  lemma AddTwiceRemoveOnce(s: CartState, p: Product)
    ensures var r := CartReducer(CartReducer(CartReducer(s, AddItem(p)), AddItem(p)), RemoveItem(p.id));
      forall k :: 0 <= k < |r.items| ==> r.items[k].id != p.id
  {
    RemoveEffect(CartReducer(CartReducer(s, AddItem(p)), AddItem(p)), p.id);
  }

  // ---------------------------------------------------------------------------
  // Sequences of additions

  function AddAll(s: CartState, products: seq<Product>): CartState
    decreases |products|
  {
    if products == [] then s else AddAll(CartReducer(s, AddItem(products[0])), products[1..])
  }

  function ItemIds(items: seq<CartItem>): set<int> {
    set x | x in items :: x.id
  }

  function ProductIds(products: seq<Product>): set<int> {
    set p | p in products :: p.id
  }

  /** With distinct ids there are as many ids as lines. */
  lemma {:induction false} DistinctIdsCount(items: seq<CartItem>)
    requires DistinctIds(items)
    ensures |ItemIds(items)| == |items|
  {
    if items != [] {
      var n := |items| - 1;
      var init := items[..n];
      assert DistinctIds(init) by {
        forall i, j | 0 <= i < j < |init| ensures init[i].id != init[j].id {
          assert init[i] == items[i] && init[j] == items[j];
        }
      }
      DistinctIdsCount(init);
      assert items == init + [items[n]];
      assert ItemIds(items) == ItemIds(init) + {items[n].id};
      forall x | x in init ensures x.id != items[n].id {
        var j :| 0 <= j < |init| && init[j] == x;
        assert items[j] == x;
      }
    }
  }

  lemma AddOneIds(s: CartState, p: Product)
    requires Valid(s)
    ensures var r := CartReducer(s, AddItem(p));
      && ItemIds(r.items) == ItemIds(s.items) + {p.id}
      && r.totalItems == s.totalItems + 1
  {
    var i := FindIndex(s.items, p.id);
    var r := CartReducer(s, AddItem(p));
    if i >= 0 {
      AddExisting(s, p, i);
      var items := r.items;
      forall x | x in items ensures x.id in ItemIds(s.items) {
        var k :| 0 <= k < |items| && items[k] == x;
        assert s.items[k] in s.items;
      }
      forall v | v in ItemIds(s.items) ensures v in ItemIds(items) {
        var x :| x in s.items && x.id == v;
        var k :| 0 <= k < |s.items| && s.items[k] == x;
        assert items[k] in items && items[k].id == v;
      }
      assert s.items[i] in s.items;
    } else {
      AddAbsent(s, p);
      assert r.items == s.items + [NewItem(p, 1)];
    }
  }

  lemma {:induction false} AddAllFromValid(s: CartState, products: seq<Product>)
    requires Valid(s)
    ensures var r := AddAll(s, products);
      && Valid(r)
      && r.totalItems == s.totalItems + |products|
      && ItemIds(r.items) == ItemIds(s.items) + ProductIds(products)
    decreases |products|
  {
    if products != [] {
      var p := products[0];
      var next := CartReducer(s, AddItem(p));
      ReducerPreservesValid(s, AddItem(p));
      AddOneIds(s, p);
      AddAllFromValid(next, products[1..]);
      assert ProductIds(products) == {p.id} + ProductIds(products[1..]) by {
        assert products == [p] + products[1..];
      }
    }
  }

  /** From the empty cart, any sequence of additions yields a state whose total
      unit count is the number of additions and which holds one line per
      distinct product id added. */
  lemma AddAllFromEmpty(products: seq<Product>)
    ensures var r := AddAll(InitialState, products);
      && Valid(r)
      && r.totalItems == |products|
      && ItemIds(r.items) == ProductIds(products)
      && |r.items| == |ProductIds(products)|
  {
    AddAllFromValid(InitialState, products);
    DistinctIdsCount(AddAll(InitialState, products).items);
  }

  // ---------------------------------------------------------------------------
  // Loading from storage

  /** What reading the storage key gives: no browser window, no entry, or the
      stored text. */
  datatype StorageRead = NoWindow | Absent | Stored(text: string)

  /** loadCartFromStorage. `parse` stands for JSON.parse; None means it threw.
      The loaded state is not checked, so it need not satisfy Valid. */
  function LoadCartFromStorage(read: StorageRead, parse: string -> Option<CartState>): (s: CartState)
    ensures read.NoWindow? || read.Absent? ==> s == InitialState
    ensures read.Stored? && read.text == "" ==> s == InitialState
    ensures read.Stored? && read.text != "" && parse(read.text).None? ==> s == InitialState
    ensures read.Stored? && read.text != "" && parse(read.text).Some? ==> s == parse(read.text).value
  {
    match read
    case NoWindow => InitialState
    case Absent => InitialState
    case Stored(text) =>
      if text == "" then InitialState
      else match parse(text)
        case None => InitialState
        case Some(saved) => saved
  }

  // ---------------------------------------------------------------------------
  // The store

  /** CartProvider: the current state, and what was last written under the
      storage key. Every dispatch replaces the state and writes it. */
  class CartStore {
    var state: CartState
    var saved: Option<CartState>

    constructor (read: StorageRead, parse: string -> Option<CartState>)
      ensures state == LoadCartFromStorage(read, parse)
      ensures saved == Some(state)
    {
      state := LoadCartFromStorage(read, parse);
      saved := Some(state);
    }

    method Dispatch(action: CartAction)
      modifies this
      ensures state == CartReducer(old(state), action)
      ensures saved == Some(state)
      ensures Valid(old(state)) ==> Valid(state)
    {
      if Valid(state) { ReducerPreservesValid(state, action); }
      state := CartReducer(state, action);
      saved := Some(state);
    }

    method AddItemToCart(product: Product)
      modifies this
      ensures state == CartReducer(old(state), AddItem(product))
      ensures saved == Some(state)
      ensures Valid(old(state)) ==> Valid(state)
    {
      Dispatch(AddItem(product));
    }

    method RemoveItemFromCart(id: int)
      modifies this
      ensures state == CartReducer(old(state), RemoveItem(id))
      ensures saved == Some(state)
      ensures Valid(old(state)) ==> Valid(state)
      ensures forall k :: 0 <= k < |state.items| ==> state.items[k].id != id
    {
      RemoveEffect(state, id);
      Dispatch(RemoveItem(id));
    }

    method UpdateItemQuantity(id: int, quantity: int)
      modifies this
      ensures state == CartReducer(old(state), UpdateQuantity(id, quantity))
      ensures saved == Some(state)
      ensures Valid(old(state)) ==> Valid(state)
    {
      Dispatch(UpdateQuantity(id, quantity));
    }

    method Clear()
      modifies this
      ensures state == InitialState
      ensures saved == Some(InitialState)
    {
      Dispatch(ClearCart);
    }
  }
}
