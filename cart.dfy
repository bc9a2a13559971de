/** The shopping cart: the list operations of the cart hook (each builds a new
    list from the previous one) and the commands a cart row issues from its
    +, - and delete buttons. */
module Cart {
  import opened Common
  import opened Seqs

  /** A product as it is handed to `addToCart`. */
  datatype Product = Product(id: string, title: string, price: int)

  /** `{ ...product, quantity }` */
  datatype CartItem = CartItem(id: string, title: string, price: int, quantity: int)

  datatype CartStats = CartStats(totalItems: int, totalPrice: int, uniqueItems: nat, isEmpty: bool)

  predicate HasId(items: seq<CartItem>, id: string) {
    exists i :: 0 <= i < |items| && items[i].id == id
  }

  predicate UniqueIds(items: seq<CartItem>) {
    forall i, j :: 0 <= i < j < |items| ==> items[i].id != items[j].id
  }

  /** No row has a negative price or quantity. */
  predicate NonNegative(items: seq<CartItem>) {
    forall i :: 0 <= i < |items| ==> items[i].price >= 0 && items[i].quantity >= 0
  }

  /** Every row shows at least one unit. */
  predicate AllPositive(items: seq<CartItem>) {
    forall i :: 0 <= i < |items| ==> items[i].quantity >= 1
  }

  /** `prevItems.find(item => item.id === id)`: the first row with that id. */
  function Find(items: seq<CartItem>, id: string): (r: Option<nat>)
    ensures r.Some? ==> r.value < |items| && items[r.value].id == id
                        && forall j :: 0 <= j < r.value ==> items[j].id != id
    ensures r.None? <==> !HasId(items, id)
  {
    if items == [] then None
    else if items[0].id == id then Some(0)
    else
      match Find(items[1..], id)
      case None =>
        assert forall j :: 1 <= j < |items| ==> items[j] == items[1..][j - 1];
        None
      case Some(k) => Some(k + 1)
  }

  /** `isInCart(id)`: `some` row has that id. */
  function IsInCart(items: seq<CartItem>, id: string): (r: bool)
    ensures r <==> HasId(items, id)
  {
    Find(items, id).Some?
  }

  /** `getItemQuantity(id)`: the first matching row's quantity, or 0. */
  function GetItemQuantity(items: seq<CartItem>, id: string): (q: int)
    ensures !HasId(items, id) ==> q == 0
    ensures HasId(items, id) ==> exists i :: 0 <= i < |items| && items[i].id == id && q == items[i].quantity
                                             && forall j :: 0 <= j < i ==> items[j].id != id
  {
    match Find(items, id)
    case None => 0
    case Some(i) => items[i].quantity
  }

  /** `item.id === id ? { ...item, quantity: f(item) } : item` over every
      row. */
  function Increase(items: seq<CartItem>, id: string, amount: int): (r: seq<CartItem>)
    ensures |r| == |items|
    ensures forall i :: 0 <= i < |items| ==>
      r[i] == if items[i].id == id then items[i].(quantity := items[i].quantity + amount) else items[i]
  {
    seq(|items|, i requires 0 <= i < |items| =>
      if items[i].id == id then items[i].(quantity := items[i].quantity + amount) else items[i])
  }

  /** `addToCart(product, quantity = 1)`: a product already in the cart gets
      `quantity` more units; a new one is appended with `quantity` units. */
  function AddToCart(items: seq<CartItem>, product: Product, quantity: Option<int>): (r: seq<CartItem>)
    ensures HasId(r, product.id)
    ensures |r| == if HasId(items, product.id) then |items| else |items| + 1
    ensures forall i :: 0 <= i < |items| ==> r[i].id == items[i].id && r[i].price == items[i].price
    ensures forall i :: 0 <= i < |items| && items[i].id != product.id ==> r[i] == items[i]
  {
    var q := quantity.GetOr(1);
    match Find(items, product.id)
    case Some(k) =>
      var r := Increase(items, product.id, q);
      assert r[k].id == product.id;
      r
    case None =>
      var r := items + [CartItem(product.id, product.title, product.price, q)];
      assert r[|items|].id == product.id;
      r
  }

  /** `removeFromCart(id)` */
  function RemoveFromCart(items: seq<CartItem>, id: string): (r: seq<CartItem>)
    ensures !HasId(r, id)
    ensures forall x :: x in r <==> x in items && x.id != id
  {
    var r := Filter((item: CartItem) => item.id != id, items);
    assert forall i :: 0 <= i < |r| ==> r[i] in r;
    r
  }

  /** `updateQuantity(id, quantity)` */
  function UpdateQuantity(items: seq<CartItem>, id: string, quantity: int): (r: seq<CartItem>)
    ensures |r| == |items|
    ensures forall i :: 0 <= i < |items| ==> r[i] == if items[i].id == id then items[i].(quantity := quantity) else items[i]
  {
    seq(|items|, i requires 0 <= i < |items| =>
      if items[i].id == id then items[i].(quantity := quantity) else items[i])
  }

  /** `items.reduce((sum, item) => sum + item.quantity, 0)`: with at least
      one unit per row, there are at least as many units as rows. */
  function TotalItems(items: seq<CartItem>): (t: int)
    ensures AllPositive(items) ==> t >= |items|
  {
    if items == [] then 0
    else
      assert AllPositive(items) ==> AllPositive(items[1..]);
      items[0].quantity + TotalItems(items[1..])
  }

  /** `items.reduce((sum, item) => sum + item.price * item.quantity, 0)`: no
      negative price or quantity, no negative total. */
  function TotalPrice(items: seq<CartItem>): (p: int)
    ensures NonNegative(items) ==> p >= 0
  {
    if items == [] then 0
    else
      assert NonNegative(items) ==> NonNegative(items[1..]) && items[0].price * items[0].quantity >= 0;
      items[0].price * items[0].quantity + TotalPrice(items[1..])
  }

  /** `cartStats` */
  function Stats(items: seq<CartItem>): (s: CartStats)
    ensures s.totalItems == TotalItems(items) && s.totalPrice == TotalPrice(items)
    ensures s.uniqueItems == |items| && (s.isEmpty <==> items == [])
    ensures AllPositive(items) ==> s.totalItems >= s.uniqueItems
  {
    CartStats(TotalItems(items), TotalPrice(items), |items|, |items| == 0)
  }

  // ---------------------------------------------------------------------
  // Properties of the operations.

  /** Changing one row's quantity moves both totals by the difference. */
  lemma {:induction false} TotalsAfterChange(items: seq<CartItem>, k: nat, q: int)
    requires k < |items|
    ensures var r := items[k := items[k].(quantity := q)];
      && TotalItems(r) == TotalItems(items) + (q - items[k].quantity)
      && TotalPrice(r) == TotalPrice(items) + items[k].price * (q - items[k].quantity)
  {
    var r := items[k := items[k].(quantity := q)];
    var row := items[k];
    if k > 0 {
      assert r[0] == items[0];
      assert r[1..] == items[1..][k - 1 := row.(quantity := q)];
      TotalsAfterChange(items[1..], k - 1, q);
    } else {
      assert r[1..] == items[1..];
      assert row.price * q == row.price * row.quantity + row.price * (q - row.quantity);
    }
  }

  /** Totals of a concatenation add up. */
  lemma {:induction false} TotalsAppend(a: seq<CartItem>, b: seq<CartItem>)
    ensures TotalItems(a + b) == TotalItems(a) + TotalItems(b)
    ensures TotalPrice(a + b) == TotalPrice(a) + TotalPrice(b)
  {
    if a == [] {
      assert a + b == b;
    } else {
      assert (a + b)[1..] == a[1..] + b;
      TotalsAppend(a[1..], b);
    }
  }

  /** Updating a row that is in the cart changes that row only. */
  lemma UpdateChangesOneRow(items: seq<CartItem>, k: nat, quantity: int)
    requires UniqueIds(items) && k < |items|
    ensures UpdateQuantity(items, items[k].id, quantity) == items[k := items[k].(quantity := quantity)]
  {
  }

  /** Adding a product already in the cart raises that row by `quantity`;
      length, order and the other rows stay as they were. */
  lemma AddExisting(items: seq<CartItem>, product: Product, quantity: Option<int>, k: nat)
    requires UniqueIds(items) && k < |items| && items[k].id == product.id
    ensures AddToCart(items, product, quantity) == items[k := items[k].(quantity := items[k].quantity + quantity.GetOr(1))]
  {
  }

  /** Adding a new product appends one row at the end, one unit unless told
      otherwise. */
  lemma AddNew(items: seq<CartItem>, product: Product, quantity: Option<int>)
    requires !HasId(items, product.id)
    ensures AddToCart(items, product, quantity) == items + [CartItem(product.id, product.title, product.price, quantity.GetOr(1))]
  {
  }

  /** Adding never creates a second row with the same id. */
  lemma AddKeepsIdsUnique(items: seq<CartItem>, product: Product, quantity: Option<int>)
    requires UniqueIds(items)
    ensures UniqueIds(AddToCart(items, product, quantity))
    ensures HasId(AddToCart(items, product, quantity), product.id)
  {
    var r := AddToCart(items, product, quantity);
    if Find(items, product.id).None? {
      assert r[|items|].id == product.id;
    } else {
      var k := Find(items, product.id).value;
      assert r[k].id == product.id;
    }
  }

  /** Adding raises the unit count by exactly `quantity`, and the price total
      by the row's price times `quantity`. */
  lemma {:induction false} AddTotals(items: seq<CartItem>, product: Product, quantity: Option<int>)
    requires UniqueIds(items)
    ensures var q := quantity.GetOr(1);
      var price := if HasId(items, product.id) then items[Find(items, product.id).value].price else product.price;
      && TotalItems(AddToCart(items, product, quantity)) == TotalItems(items) + q
      && TotalPrice(AddToCart(items, product, quantity)) == TotalPrice(items) + price * q
  {
    match Find(items, product.id)
    case Some(k) => AddTotalsExisting(items, product, quantity, k);
    case None => AddTotalsNew(items, product, quantity);
  }

  lemma {:induction false} AddTotalsExisting(items: seq<CartItem>, product: Product, quantity: Option<int>, k: nat)
    requires UniqueIds(items) && k < |items| && items[k].id == product.id
    ensures TotalItems(AddToCart(items, product, quantity)) == TotalItems(items) + quantity.GetOr(1)
    ensures TotalPrice(AddToCart(items, product, quantity)) == TotalPrice(items) + items[k].price * quantity.GetOr(1)
  {
    var q := quantity.GetOr(1);
    var after := items[k].quantity + q;
    var r := items[k := items[k].(quantity := after)];
    assert AddToCart(items, product, quantity) == r by {
      AddExisting(items, product, quantity, k);
    }
    assert TotalItems(r) == TotalItems(items) + q && TotalPrice(r) == TotalPrice(items) + items[k].price * q by {
      TotalsAfterChange(items, k, after);
      assert after - items[k].quantity == q;
    }
  }

  lemma {:induction false} AddTotalsNew(items: seq<CartItem>, product: Product, quantity: Option<int>)
    requires !HasId(items, product.id)
    ensures TotalItems(AddToCart(items, product, quantity)) == TotalItems(items) + quantity.GetOr(1)
    ensures TotalPrice(AddToCart(items, product, quantity)) == TotalPrice(items) + product.price * quantity.GetOr(1)
  {
    var row := CartItem(product.id, product.title, product.price, quantity.GetOr(1));
    AddNew(items, product, quantity);
    TotalsAppend(items, [row]);
    assert [row][1..] == [];
  }

  /** Removing keeps every other row, in order, and nothing with that id;
      removing an absent id changes nothing. */
  lemma RemoveProperties(items: seq<CartItem>, id: string)
    ensures forall x :: x in RemoveFromCart(items, id) <==> x in items && x.id != id
    ensures !HasId(RemoveFromCart(items, id), id)
    ensures IsSubsequence(RemoveFromCart(items, id), items)
    ensures !HasId(items, id) ==> RemoveFromCart(items, id) == items
  {
    var r := RemoveFromCart(items, id);
    forall i | 0 <= i < |r| ensures r[i].id != id {
      assert r[i] in r;
    }
    FilterIsSubsequence((item: CartItem) => item.id != id, items);
    if !HasId(items, id) {
      forall x | x in items ensures x.id != id {
        var i :| 0 <= i < |items| && items[i] == x;
      }
      FilterAll((item: CartItem) => item.id != id, items);
    }
  }

  /** Removing keeps ids unique. */
  lemma RemoveKeepsIdsUnique(items: seq<CartItem>, id: string)
    requires UniqueIds(items)
    ensures UniqueIds(RemoveFromCart(items, id))
  {
    var key := (item: CartItem) => item.id;
    assert UniqueBy(key, items);
    FilterUnique(key, (item: CartItem) => item.id != id, items);
    var r := RemoveFromCart(items, id);
    assert UniqueBy(key, r);
  }

  // ---------------------------------------------------------------------
  // The cart row: which callback each button issues.

  datatype CartCommand = SetQuantity(id: string, quantity: int) | Remove(id: string)

  /** `handleIncrease`: the row's own id, one unit more. */
  function HandleIncrease(item: CartItem): (c: CartCommand)
    ensures c.SetQuantity? && c.id == item.id && c.quantity == item.quantity + 1
  {
    SetQuantity(item.id, item.quantity + 1)
  }

  /** `handleDecrease`: one unit less, or the row goes away instead of
      dropping to zero. */
  function HandleDecrease(item: CartItem): (c: CartCommand)
    ensures c.id == item.id
    ensures c.Remove? <==> item.quantity <= 1
    ensures c.SetQuantity? ==> c.quantity == item.quantity - 1 && c.quantity >= 1
  {
    if item.quantity > 1 then SetQuantity(item.id, item.quantity - 1) else Remove(item.id)
  }

  /** `handleRemove` */
  function HandleRemove(item: CartItem): (c: CartCommand)
    ensures c.Remove? && c.id == item.id
  {
    Remove(item.id)
  }

  /** What the cart page does with a command. */
  function Apply(items: seq<CartItem>, c: CartCommand): (r: seq<CartItem>)
    ensures c.Remove? ==> !HasId(r, c.id) && |r| <= |items|
    ensures c.SetQuantity? ==> |r| == |items|
    ensures c.SetQuantity? ==> forall i :: 0 <= i < |items| ==>
      r[i].id == items[i].id && (items[i].id == c.id ==> r[i].quantity == c.quantity)
  {
    match c
    case SetQuantity(id, q) => UpdateQuantity(items, id, q)
    case Remove(id) => RemoveFromCart(items, id)
  }

  /** The buttons never leave a row with fewer than one unit: decreasing the
      last unit removes the row. */
  lemma ButtonsKeepQuantitiesPositive(items: seq<CartItem>, item: CartItem)
    requires AllPositive(items) && item in items
    ensures AllPositive(Apply(items, HandleIncrease(item)))
    ensures AllPositive(Apply(items, HandleDecrease(item)))
    ensures AllPositive(Apply(items, HandleRemove(item)))
  {
    var k :| 0 <= k < |items| && items[k] == item;
    assert item.quantity >= 1;
    FilterKeepsPositive(items, item.id);
  }

  lemma FilterKeepsPositive(items: seq<CartItem>, id: string)
    requires AllPositive(items)
    ensures AllPositive(RemoveFromCart(items, id))
  {
    var r := RemoveFromCart(items, id);
    forall i | 0 <= i < |r| ensures r[i].quantity >= 1 {
      assert r[i] in r;
      var j :| 0 <= j < |items| && items[j] == r[i];
    }
  }

  /** Decreasing a single unit removes the row rather than keeping it at 0. */
  lemma DecreaseLastUnitRemoves(items: seq<CartItem>, item: CartItem)
    requires item.quantity <= 1
    ensures Apply(items, HandleDecrease(item)) == RemoveFromCart(items, item.id)
    ensures !HasId(Apply(items, HandleDecrease(item)), item.id)
  {
    RemoveProperties(items, item.id);
  }
}
