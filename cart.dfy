/**
 * The shopping cart of the cart context: a list of entries keyed by the pair
 * (id, kind), with add, remove and clear, and the two folds that give the
 * number of units and the total price.
 */
module Cart {
  import opened Wrappers

  /** Whether an entry is a marketplace product or a rented tool. */
  datatype ItemKind = Product | Tool

  /**
   * One cart entry. `price` is the parsed price text: `None` when the text
   * does not parse as a number.
   */
  datatype CartItem = CartItem(
    id: string,
    name: string,
    price: Option<int>,
    image: Option<string>,
    quantity: int,
    kind: ItemKind,
    duration: Option<string>)

  /** The entry is the one `addToCart` looks for: same id and same kind. */
  predicate IsEntry(item: CartItem, id: string, kind: ItemKind) {
    item.id == id && item.kind == kind
  }

  predicate HasEntry(items: seq<CartItem>, id: string, kind: ItemKind) {
    exists i :: 0 <= i < |items| && IsEntry(items[i], id, kind)
  }

  /** The two entries carry the same (id, kind) pair. */
  predicate SameKey(a: CartItem, b: CartItem) {
    a.id == b.id && a.kind == b.kind
  }

  /** No two entries share an (id, kind) pair. */
  predicate UniqueEntries(items: seq<CartItem>) {
    forall i, j :: 0 <= i < j < |items| ==> !SameKey(items[i], items[j])
  }

  /** The position `findIndex` reports: the first matching entry, or -1. */
  function EntryIndex(items: seq<CartItem>, id: string, kind: ItemKind): (k: int)
    ensures k == -1 <==> !HasEntry(items, id, kind)
    ensures k != -1 ==> 0 <= k < |items| && IsEntry(items[k], id, kind)
    ensures k != -1 ==> forall i :: 0 <= i < k ==> !IsEntry(items[i], id, kind)
    decreases |items|
  {
    if items == [] then -1
    else if IsEntry(items[0], id, kind) then 0
    else
      var k := EntryIndex(items[1..], id, kind);
      if k == -1 then
        assert forall i :: 1 <= i < |items| ==> items[i] == items[1..][i - 1];
        -1
      else k + 1
  }

  /** `findIndex` over the entries, as a search loop. */
  method FindEntry(items: seq<CartItem>, id: string, kind: ItemKind) returns (index: int)
    ensures index == -1 <==> !HasEntry(items, id, kind)
    ensures index != -1 ==> 0 <= index < |items| && IsEntry(items[index], id, kind)
    ensures index != -1 ==> forall i :: 0 <= i < index ==> !IsEntry(items[i], id, kind)
  {
    var i := 0;
    while i < |items|
      invariant 0 <= i <= |items|
      invariant forall j :: 0 <= j < i ==> !IsEntry(items[j], id, kind)
    {
      if IsEntry(items[i], id, kind) {
        return i;
      }
      i := i + 1;
    }
    return -1;
  }

  /**
   * The list after `addToCart(newItem)`: an entry with the same (id, kind)
   * gets one more unit, whatever quantity `newItem` carries; otherwise
   * `newItem` is appended.
   */
  function AddItem(items: seq<CartItem>, newItem: CartItem): (r: seq<CartItem>)
    ensures !HasEntry(items, newItem.id, newItem.kind) ==> r == items + [newItem]
    ensures HasEntry(items, newItem.id, newItem.kind) ==>
      && |r| == |items|
      && var k := EntryIndex(items, newItem.id, newItem.kind);
      && r[k] == items[k].(quantity := items[k].quantity + 1)
      && forall j :: 0 <= j < |items| && j != k ==> r[j] == items[j]
  {
    var k := EntryIndex(items, newItem.id, newItem.kind);
    if k == -1 then items + [newItem]
    else items[k := items[k].(quantity := items[k].quantity + 1)]
  }

  /** The list after `removeFromCart(id)`: every entry with that id goes, whatever its kind. */
  function RemoveId(items: seq<CartItem>, id: string): (r: seq<CartItem>)
    ensures forall x :: x in r <==> x in items && x.id != id
    ensures |r| <= |items|
    ensures (forall i :: 0 <= i < |items| ==> items[i].id != id) ==> r == items
    decreases |items|
  {
    if items == [] then []
    else
      var rest := RemoveId(items[1..], id);
      assert forall x :: x in items <==> x == items[0] || x in items[1..];
      assert forall i :: 1 <= i < |items| ==> items[i] == items[1..][i - 1];
      if items[0].id == id then rest
      else
        assert items == [items[0]] + items[1..];
        [items[0]] + rest
  }

  /** `getItemCount`: the left fold adding up the quantities. */
  function ItemCount(items: seq<CartItem>): int
  {
    if items == [] then 0 else ItemCount(items[..|items| - 1]) + items[|items| - 1].quantity
  }

  /** The unit price `parseFloat(price) || 0` gives: an unparseable price counts as zero. */
  function UnitPrice(item: CartItem): int {
    item.price.GetOr(0)
  }

  /** `getTotalPrice`: the left fold adding up unit price times quantity. */
  function TotalPrice(items: seq<CartItem>): int
  {
    if items == [] then 0
    else TotalPrice(items[..|items| - 1]) + UnitPrice(items[|items| - 1]) * items[|items| - 1].quantity
  }

  /** Removal keeps the surviving entries in their order: it distributes over concatenation. */
  lemma {:induction false} RemoveIdAppend(a: seq<CartItem>, b: seq<CartItem>, id: string)
    ensures RemoveId(a + b, id) == RemoveId(a, id) + RemoveId(b, id)
    decreases |a|
  {
    if a == [] {
      assert a + b == b;
    } else {
      assert (a + b)[1..] == a[1..] + b;
      RemoveIdAppend(a[1..], b, id);
    }
  }

  /** A product and a tool sharing an id both leave the cart. */
  lemma {:induction false} RemoveIgnoresKind(p: CartItem, t: CartItem)
    requires p.kind == Product && t.kind == Tool && p.id == t.id
    ensures RemoveId([p, t], p.id) == []
  {
    assert [p, t][1..] == [t];
  }

  /** Dropping the head keeps a list without duplicates free of them. */
  lemma {:induction false} TailKeepsUnique(items: seq<CartItem>)
    requires items != [] && UniqueEntries(items)
    ensures UniqueEntries(items[1..])
  {
    var tail := items[1..];
    forall i, j | 0 <= i < j < |tail| ensures !SameKey(tail[i], tail[j]) {
      assert tail[i] == items[i + 1] && tail[j] == items[j + 1];
    }
  }

  /** No survivor of a removal matches the head of a list without duplicates. */
  lemma {:induction false} HeadNotAmongSurvivors(items: seq<CartItem>, id: string, x: CartItem)
    requires items != [] && UniqueEntries(items)
    requires x in RemoveId(items[1..], id)
    ensures !SameKey(items[0], x)
  {
    var tail := items[1..];
    assert x in tail;
    var m :| 0 <= m < |tail| && tail[m] == x;
    assert items[m + 1] == x;
  }

  /** Putting an entry whose pair is new in front of a list without duplicates keeps it free of them. */
  lemma {:induction false} ConsKeepsUnique(x: CartItem, rest: seq<CartItem>)
    requires UniqueEntries(rest)
    requires forall y :: y in rest ==> !SameKey(x, y)
    ensures UniqueEntries([x] + rest)
  {
    var r := [x] + rest;
    forall i, j | 0 <= i < j < |r| ensures !SameKey(r[i], r[j]) {
      assert r[j] == rest[j - 1];
      if i > 0 {
        assert r[i] == rest[i - 1];
      }
    }
  }

  /** Removal keeps the invariant: a sub-list of a list without duplicates has none. */
  lemma {:induction false} RemoveIdKeepsUnique(items: seq<CartItem>, id: string)
    requires UniqueEntries(items)
    ensures UniqueEntries(RemoveId(items, id))
    decreases |items|
  {
    if items != [] {
      TailKeepsUnique(items);
      RemoveIdKeepsUnique(items[1..], id);
      var rest := RemoveId(items[1..], id);
      if items[0].id != id {
        forall y | y in rest ensures !SameKey(items[0], y) {
          HeadNotAmongSurvivors(items, id, y);
        }
        ConsKeepsUnique(items[0], rest);
      }
    }
  }

  /** Adding keeps the invariant that no (id, kind) pair occurs twice. */
  lemma {:induction false} AddItemKeepsUnique(items: seq<CartItem>, newItem: CartItem)
    requires UniqueEntries(items)
    ensures UniqueEntries(AddItem(items, newItem))
  {
    var r := AddItem(items, newItem);
    if HasEntry(items, newItem.id, newItem.kind) {
      forall i, j | 0 <= i < j < |r| ensures !SameKey(r[i], r[j]) {
        assert r[i].id == items[i].id && r[i].kind == items[i].kind;
        assert r[j].id == items[j].id && r[j].kind == items[j].kind;
      }
    } else {
      forall i, j | 0 <= i < j < |r| ensures !SameKey(r[i], r[j]) {
        if j == |items| {
          assert r[i] == items[i];
        }
      }
    }
  }

  /** In a cart without duplicates, the entry `addToCart` bumps is the only one with that pair. */
  lemma {:induction false} AddExistingTouchesOnlyThatEntry(items: seq<CartItem>, newItem: CartItem, k: int)
    requires UniqueEntries(items)
    requires 0 <= k < |items| && IsEntry(items[k], newItem.id, newItem.kind)
    ensures |AddItem(items, newItem)| == |items|
    ensures AddItem(items, newItem)[k].quantity == items[k].quantity + 1
    ensures AddItem(items, newItem)[k] == items[k].(quantity := items[k].quantity + 1)
    ensures forall j :: 0 <= j < |items| && j != k ==> AddItem(items, newItem)[j] == items[j]
  {
  }

  /** `getItemCount` is additive over concatenation. */
  lemma {:induction false} ItemCountAppend(a: seq<CartItem>, b: seq<CartItem>)
    ensures ItemCount(a + b) == ItemCount(a) + ItemCount(b)
    decreases |b|
  {
    if b == [] {
      assert a + b == a;
    } else {
      var b' := b[..|b| - 1];
      assert (a + b)[..|a + b| - 1] == a + b';
      ItemCountAppend(a, b');
    }
  }

  /** `getTotalPrice` is additive over concatenation. */
  lemma {:induction false} TotalPriceAppend(a: seq<CartItem>, b: seq<CartItem>)
    ensures TotalPrice(a + b) == TotalPrice(a) + TotalPrice(b)
    decreases |b|
  {
    if b == [] {
      assert a + b == a;
    } else {
      var b' := b[..|b| - 1];
      assert (a + b)[..|a + b| - 1] == a + b';
      TotalPriceAppend(a, b');
    }
  }

  /** Replacing one entry changes the count by the change in that entry's quantity. */
  lemma {:induction false} ItemCountUpdate(items: seq<CartItem>, k: int, v: CartItem)
    requires 0 <= k < |items|
    ensures ItemCount(items[k := v]) == ItemCount(items) - items[k].quantity + v.quantity
    ensures TotalPrice(items[k := v]) == TotalPrice(items) - UnitPrice(items[k]) * items[k].quantity + UnitPrice(v) * v.quantity
  {
    var pre, post := items[..k], items[k + 1..];
    assert items == pre + [items[k]] + post;
    assert items[k := v] == pre + [v] + post;
    ItemCountAppend(pre + [items[k]], post);
    ItemCountAppend(pre, [items[k]]);
    ItemCountAppend(pre + [v], post);
    ItemCountAppend(pre, [v]);
    TotalPriceAppend(pre + [items[k]], post);
    TotalPriceAppend(pre, [items[k]]);
    TotalPriceAppend(pre + [v], post);
    TotalPriceAppend(pre, [v]);
    assert [items[k]][..0] == [] && [v][..0] == [];
  }

  /**
   * After `addToCart` the unit count grows by exactly one when the pair was
   * present, and by the new entry's quantity when it was appended.
   */
  lemma {:induction false} AddItemCount(items: seq<CartItem>, newItem: CartItem)
    ensures HasEntry(items, newItem.id, newItem.kind) ==>
      ItemCount(AddItem(items, newItem)) == ItemCount(items) + 1
    ensures !HasEntry(items, newItem.id, newItem.kind) ==>
      ItemCount(AddItem(items, newItem)) == ItemCount(items) + newItem.quantity
  {
    var k := EntryIndex(items, newItem.id, newItem.kind);
    if k == -1 {
      ItemCountAppend(items, [newItem]);
      assert [newItem][..0] == [];
    } else {
      assert AddItem(items, newItem) == items[k := items[k].(quantity := items[k].quantity + 1)];
      ItemCountUpdate(items, k, items[k].(quantity := items[k].quantity + 1));
    }
  }

  /**
   * After `addToCart` the total grows by one unit price of the bumped entry,
   * or by price times quantity of the appended one.
   */
  lemma {:induction false} AddItemTotal(items: seq<CartItem>, newItem: CartItem)
    ensures HasEntry(items, newItem.id, newItem.kind) ==>
      var k := EntryIndex(items, newItem.id, newItem.kind);
      TotalPrice(AddItem(items, newItem)) == TotalPrice(items) + UnitPrice(items[k])
    ensures !HasEntry(items, newItem.id, newItem.kind) ==>
      TotalPrice(AddItem(items, newItem)) == TotalPrice(items) + UnitPrice(newItem) * newItem.quantity
  {
    if EntryIndex(items, newItem.id, newItem.kind) == -1 {
      AddNewItemTotal(items, newItem);
    } else {
      AddExistingItemTotal(items, newItem);
    }
  }

  lemma {:induction false} AddNewItemTotal(items: seq<CartItem>, newItem: CartItem)
    requires EntryIndex(items, newItem.id, newItem.kind) == -1
    ensures TotalPrice(AddItem(items, newItem)) == TotalPrice(items) + UnitPrice(newItem) * newItem.quantity
  {
    TotalPriceAppend(items, [newItem]);
    assert [newItem][..0] == [];
  }

  lemma {:induction false} AddExistingItemTotal(items: seq<CartItem>, newItem: CartItem)
    requires EntryIndex(items, newItem.id, newItem.kind) != -1
    ensures var k := EntryIndex(items, newItem.id, newItem.kind);
      TotalPrice(AddItem(items, newItem)) == TotalPrice(items) + UnitPrice(items[k])
  {
    var k := EntryIndex(items, newItem.id, newItem.kind);
    var v := items[k].(quantity := items[k].quantity + 1);
    assert AddItem(items, newItem) == items[k := v];
    ItemCountUpdate(items, k, v);
    var unit, q := UnitPrice(items[k]), items[k].quantity;
    assert UnitPrice(v) == unit && v.quantity == q + 1;
    OneMoreUnit(unit, q);
  }

  /** One more unit at the same price adds that price once. */
  lemma OneMoreUnit(unit: int, q: int)
    ensures unit * (q + 1) == unit * q + unit
  {
  }

  /** The count is the sum of quantities, not the number of entries: a single entry counts its quantity. */
  lemma {:induction false} ItemCountIsUnits(item: CartItem)
    ensures ItemCount([item]) == item.quantity
  {
    assert [item][..0] == [];
  }

  /** The position `find(item => item.id === id)` reports: the first entry with that id, whatever its kind, or -1. */
  function FirstWithId(items: seq<CartItem>, id: string): (k: int)
    ensures k == -1 <==> forall i :: 0 <= i < |items| ==> items[i].id != id
    ensures k != -1 ==> 0 <= k < |items| && items[k].id == id
    ensures k != -1 ==> forall i :: 0 <= i < k ==> items[i].id != id
    decreases |items|
  {
    if items == [] then -1
    else if items[0].id == id then 0
    else
      var k := FirstWithId(items[1..], id);
      if k == -1 then
        assert forall i :: 1 <= i < |items| ==> items[i] == items[1..][i - 1];
        -1
      else k + 1
  }

  /** The toast `addToCart` raises: it names the item added, and says whether an entry was bumped or appended. */
  function AddToast(items: seq<CartItem>, newItem: CartItem): (t: Toast)
    ensures !t.destructive
    ensures HasEntry(items, newItem.id, newItem.kind) ==>
      t == Toast("Item quantity updated", newItem.name + " quantity increased in your cart.", false)
    ensures !HasEntry(items, newItem.id, newItem.kind) ==>
      t == Toast("Item added to cart", newItem.name + " has been added to your cart.", false)
  {
    if EntryIndex(items, newItem.id, newItem.kind) != -1 then
      Toast("Item quantity updated", newItem.name + " quantity increased in your cart.", false)
    else
      Toast("Item added to cart", newItem.name + " has been added to your cart.", false)
  }

  /** The "added" toast is raised exactly when the cart gains an entry, and the "updated" one exactly when it does not. */
  lemma {:induction false} AddToastTellsGrowth(items: seq<CartItem>, newItem: CartItem)
    ensures AddToast(items, newItem).title == "Item added to cart" <==> |AddItem(items, newItem)| == |items| + 1
    ensures AddToast(items, newItem).title == "Item quantity updated" <==> |AddItem(items, newItem)| == |items|
  {
    if HasEntry(items, newItem.id, newItem.kind) {
      assert AddToast(items, newItem).title != "Item added to cart";
    } else {
      assert AddToast(items, newItem).title != "Item quantity updated";
    }
  }

  /** The toast `removeFromCart` raises: none when no entry has the id, else one naming the first such entry. */
  function RemoveToast(items: seq<CartItem>, id: string): (t: Option<Toast>)
    ensures t.None? <==> forall i :: 0 <= i < |items| ==> items[i].id != id
    ensures t.Some? ==> t.value == Toast("Item removed", items[FirstWithId(items, id)].name + " has been removed from your cart.", false)
  {
    var k := FirstWithId(items, id);
    if k == -1 then None
    else Some(Toast("Item removed", items[k].name + " has been removed from your cart.", false))
  }

  /** Removal shrinks the cart exactly when some entry has the id. */
  lemma {:induction false} RemoveIdShrinks(items: seq<CartItem>, id: string)
    ensures |RemoveId(items, id)| < |items| <==> exists i :: 0 <= i < |items| && items[i].id == id
    decreases |items|
  {
    if items != [] {
      RemoveIdShrinks(items[1..], id);
      assert forall i :: 1 <= i < |items| ==> items[i] == items[1..][i - 1];
      if items[0].id != id {
        if exists i :: 0 <= i < |items| && items[i].id == id {
          var i :| 0 <= i < |items| && items[i].id == id;
          assert items[1..][i - 1].id == id;
        }
      }
    }
  }

  /** A removal toast is raised exactly when the cart shrinks. */
  lemma {:induction false} RemoveToastTellsRemoval(items: seq<CartItem>, id: string)
    ensures RemoveToast(items, id).Some? <==> |RemoveId(items, id)| < |items|
  {
    RemoveIdShrinks(items, id);
  }

  /** The toast `clearCart` raises. */
  const ClearToast := Toast("Cart cleared", "All items have been removed from your cart.", false)

  /** The cart held by the cart context. */
  class CartStore {
    var items: seq<CartItem>

    ghost predicate Valid()
      reads this
    {
      UniqueEntries(items)
    }

    constructor ()
      ensures Valid() && items == []
    {
      items := [];
    }

    /** `addToCart`: bump the matching entry's quantity in place, or append. */
    method AddToCart(newItem: CartItem) returns (toast: Toast)
      requires Valid()
      modifies this
      ensures Valid()
      ensures items == AddItem(old(items), newItem)
      ensures toast == AddToast(old(items), newItem)
    {
      AddItemKeepsUnique(items, newItem);
      var index := FindEntry(items, newItem.id, newItem.kind);
      if index != -1 {
        items := items[index := items[index].(quantity := items[index].quantity + 1)];
        toast := Toast("Item quantity updated", newItem.name + " quantity increased in your cart.", false);
      } else {
        items := items + [newItem];
        toast := Toast("Item added to cart", newItem.name + " has been added to your cart.", false);
      }
    }

    /** `removeFromCart`: keep the entries whose id differs. */
    method RemoveFromCart(id: string) returns (toast: Option<Toast>)
      requires Valid()
      modifies this
      ensures Valid()
      ensures items == RemoveId(old(items), id)
      ensures toast == RemoveToast(old(items), id)
    {
      RemoveIdKeepsUnique(items, id);
      toast := RemoveToast(items, id);
      items := RemoveId(items, id);
    }

    /** `clearCart`: afterwards the cart holds no units. */
    method ClearCart() returns (toast: Toast)
      requires Valid()
      modifies this
      ensures Valid()
      ensures items == [] && ItemCount(items) == 0 && TotalPrice(items) == 0
      ensures toast == ClearToast
    {
      items := [];
      toast := ClearToast;
    }
  }
}
