/**
 * The shopping cart's list operations: merge-or-append on add (keyed by id, size and
 * colour), removal and quantity changes keyed by id alone, clearing, and the
 * total and count folds.
 */
module CartContext {
  import opened Wrappers

  /** One line of the cart. A missing colour or size is `None` (`undefined` in the source). */
  datatype CartItem = CartItem(
    id: string,
    name: string,
    price: int,
    image: string,
    quantity: int,
    color: Option<string>,
    size: Option<string>)

  /** The argument of `addItem`: a cart line whose quantity may be left out. */
  datatype NewItem = NewItem(
    id: string,
    name: string,
    price: int,
    image: string,
    quantity: Option<int>,
    color: Option<string>,
    size: Option<string>)

  /** `item.quantity ?? 1`. */
  function AddedQuantity(item: NewItem): int {
    item.quantity.GetOr(1)
  }

  /** The cart line `{...item, quantity: item.quantity ?? 1}`. */
  function LineOf(item: NewItem): CartItem {
    CartItem(item.id, item.name, item.price, item.image, AddedQuantity(item), item.color, item.size)
  }

  /** The key `addItem` merges on: id, size and colour all equal. */
  predicate SameLine(p: CartItem, item: NewItem) {
    p.id == item.id && p.size == item.size && p.color == item.color
  }

  /** `prev.find(...)`, as an index: the first line from `from` on with the item's key. */
  function FindFrom(items: seq<CartItem>, item: NewItem, from: nat): (k: Option<nat>)
    requires from <= |items|
    ensures k.Some? ==> from <= k.value < |items| && SameLine(items[k.value], item)
    ensures k.Some? ==> forall j :: from <= j < k.value ==> !SameLine(items[j], item)
    ensures k.None? ==> forall j :: from <= j < |items| ==> !SameLine(items[j], item)
    decreases |items| - from
  {
    if from == |items| then None
    else if SameLine(items[from], item) then Some(from)
    else FindFrom(items, item, from + 1)
  }

  /** The first line with the item's key, if any. */
  function FindLine(items: seq<CartItem>, item: NewItem): Option<nat>
  {
    FindFrom(items, item, 0)
  }

  /**
   * `addItem`: grows the quantity of the first line with the same key (the `p === existing`
   * test in the source singles out that one line), or appends a new line.
   */
  function AddItem(items: seq<CartItem>, item: NewItem): seq<CartItem> {
    match FindLine(items, item)
    case Some(k) => items[k := items[k].(quantity := items[k].quantity + AddedQuantity(item))]
    case None => items + [LineOf(item)]
  }

  /** `removeItem`: drops every line with the id, whatever its size or colour. */
  function RemoveItem(items: seq<CartItem>, id: string): seq<CartItem> {
    if items == [] then []
    else if items[0].id != id then [items[0]] + RemoveItem(items[1..], id)
    else RemoveItem(items[1..], id)
  }

  /** `clear`. */
  function Clear(): (r: seq<CartItem>)
    ensures |r| == 0
  {
    []
  }

  function MaxInt(a: int, b: int): int { if a >= b then a else b }

  /** `setQuantity`: every line with the id gets `Math.max(1, quantity)`. */
  function SetQuantity(items: seq<CartItem>, id: string, quantity: int): seq<CartItem> {
    seq(|items|, i requires 0 <= i < |items| =>
      if items[i].id == id then items[i].(quantity := MaxInt(1, quantity)) else items[i])
  }

  /** `count`: the sum of the quantities, folded from the left. */
  function Count(items: seq<CartItem>): int {
    if items == [] then 0 else Count(items[..|items| - 1]) + items[|items| - 1].quantity
  }

  /** `total`: the sum of price times quantity, folded from the left. */
  function Total(items: seq<CartItem>): int {
    if items == [] then 0
    else Total(items[..|items| - 1]) + items[|items| - 1].price * items[|items| - 1].quantity
  }

  // ---------------------------------------------------------------------------
  // Properties

  /** Adding to a line that exists grows that line's quantity and nothing else. */
  lemma AddItemMerges(items: seq<CartItem>, item: NewItem, k: nat)
    requires k < |items| && SameLine(items[k], item)
    requires forall j :: 0 <= j < k ==> !SameLine(items[j], item)
    ensures |AddItem(items, item)| == |items|
    ensures AddItem(items, item)[k] == items[k].(quantity := items[k].quantity + AddedQuantity(item))
    ensures forall j :: 0 <= j < |items| && j != k ==> AddItem(items, item)[j] == items[j]
  {
    assert FindLine(items, item) == Some(k);
  }

  /** Adding an item whose key is new appends exactly one line and keeps every old one. */
  lemma AddItemAppends(items: seq<CartItem>, item: NewItem)
    requires forall j :: 0 <= j < |items| ==> !SameLine(items[j], item)
    ensures AddItem(items, item) == items + [LineOf(item)]
    ensures AddItem(items, item)[|items|].quantity == AddedQuantity(item)
  {
    assert FindLine(items, item).None?;
  }

  lemma {:induction false} CountUpdate(items: seq<CartItem>, k: nat, x: CartItem)
    requires k < |items|
    ensures Count(items[k := x]) == Count(items) - items[k].quantity + x.quantity
    decreases |items|
  {
    var n := |items|;
    var u := items[k := x];
    assert u[..n - 1] == if k == n - 1 then items[..n - 1] else items[..n - 1][k := x];
    if k < n - 1 {
      CountUpdate(items[..n - 1], k, x);
    }
  }

  lemma {:induction false} TotalUpdate(items: seq<CartItem>, k: nat, x: CartItem)
    requires k < |items|
    ensures Total(items[k := x]) == Total(items) - items[k].price * items[k].quantity + x.price * x.quantity
    decreases |items|
  {
    var n := |items|;
    var u := items[k := x];
    assert u[..n - 1] == if k == n - 1 then items[..n - 1] else items[..n - 1][k := x];
    if k < n - 1 {
      TotalUpdate(items[..n - 1], k, x);
    }
  }

  /** After `addItem` the count has grown by exactly the added quantity. */
  lemma CountAfterAddItem(items: seq<CartItem>, item: NewItem)
    ensures Count(AddItem(items, item)) == Count(items) + AddedQuantity(item)
  {
    match FindLine(items, item)
    case Some(k) =>
      CountUpdate(items, k, items[k].(quantity := items[k].quantity + AddedQuantity(item)));
    case None =>
      var r := items + [LineOf(item)];
      assert r[..|r| - 1] == items;
  }

  /**
   * After `addItem` the total has grown by the added quantity at the merged line's own
   * price, or at the item's price when a line was appended.
   */
  lemma TotalAfterAddItem(items: seq<CartItem>, item: NewItem)
    ensures FindLine(items, item).Some? ==>
      var k := FindLine(items, item).value;
      Total(AddItem(items, item)) == Total(items) + items[k].price * AddedQuantity(item)
    ensures FindLine(items, item).None? ==>
      Total(AddItem(items, item)) == Total(items) + item.price * AddedQuantity(item)
  {
    match FindLine(items, item)
    case Some(k) =>
      var x := items[k].(quantity := items[k].quantity + AddedQuantity(item));
      TotalUpdate(items, k, x);
      assert x.price * x.quantity == items[k].price * items[k].quantity + items[k].price * AddedQuantity(item);
    case None =>
      var r := items + [LineOf(item)];
      assert r[..|r| - 1] == items;
  }

  /** What `removeItem` keeps: exactly the lines with another id. */
  lemma {:induction false} RemoveItemKeepsOthers(items: seq<CartItem>, id: string)
    ensures forall x :: x in RemoveItem(items, id) <==> x in items && x.id != id
    ensures |RemoveItem(items, id)| <= |items|
  {
    if items != [] {
      RemoveItemKeepsOthers(items[1..], id);
      assert items == [items[0]] + items[1..];
    }
  }

  /** `removeItem` keeps the order: it works piecewise over any split of the cart. */
  lemma {:induction false} RemoveItemPreservesOrder(a: seq<CartItem>, b: seq<CartItem>, id: string)
    ensures RemoveItem(a + b, id) == RemoveItem(a, id) + RemoveItem(b, id)
  {
    if a != [] {
      assert (a + b)[1..] == a[1..] + b;
      RemoveItemPreservesOrder(a[1..], b, id);
    } else {
      assert a + b == b;
    }
  }

  /** Removing an id that is not in the cart changes nothing. */
  lemma {:induction false} RemoveAbsentItem(items: seq<CartItem>, id: string)
    requires forall j :: 0 <= j < |items| ==> items[j].id != id
    ensures RemoveItem(items, id) == items
  {
    if items != [] {
      RemoveAbsentItem(items[1..], id);
      assert items == [items[0]] + items[1..];
    }
  }

  /** A cleared cart counts and costs nothing. */
  lemma ClearEmpties()
    ensures Count(Clear()) == 0 && Total(Clear()) == 0
  {
  }

  /**
   * `setQuantity` touches only the lines with the id, and gives each of them the quantity
   * `max(1, quantity)`, so never less than 1; every other field and line is kept.
   */
  lemma SetQuantityEffect(items: seq<CartItem>, id: string, quantity: int)
    ensures |SetQuantity(items, id, quantity)| == |items|
    ensures forall j :: 0 <= j < |items| && items[j].id == id ==>
      SetQuantity(items, id, quantity)[j].quantity == (if quantity >= 1 then quantity else 1) >= 1 &&
      SetQuantity(items, id, quantity)[j].(quantity := items[j].quantity) == items[j]
    ensures forall j :: 0 <= j < |items| && items[j].id != id ==>
      SetQuantity(items, id, quantity)[j] == items[j]
  {
  }
}
