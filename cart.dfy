/** The cart manager: an ordered list of line items kept under one storage
    key, read whole, changed in memory and written back whole. */
module Cart {
  import opened LocalStorage

  // ---------------------------------------------------------------------
  // Reading and writing the stored cart
  // ---------------------------------------------------------------------

  /** getCarrinho: the stored cart, where an absent key reads as []. */
  function GetCart(s: Store): (c: seq<Item>)
    reads s`cart
    ensures s.cart == None ==> c == []
    ensures s.cart.Some? ==> c == s.cart.value
  {
    match s.cart
    case None => []
    case Some(items) => items
  }

  /** salvarCarrinho: overwrite the key; the next read gives back `c`. */
  method SaveCart(s: Store, c: seq<Item>)
    modifies s`cart
    ensures s.cart == Some(c)
    ensures GetCart(s) == c
  {
    s.cart := Some(c);
  }

  // ---------------------------------------------------------------------
  // The invariants the operations keep
  // ---------------------------------------------------------------------

  /** No two line items share a name. */
  predicate UniqueNames(c: seq<Item>) {
    forall i, j :: 0 <= i < j < |c| ==> c[i].name != c[j].name
  }

  /** Every line item has a quantity of at least one. */
  predicate PositiveQuantities(c: seq<Item>) {
    forall i :: 0 <= i < |c| ==> c[i].quantity >= 1
  }

  predicate ValidCart(c: seq<Item>) {
    UniqueNames(c) && PositiveQuantities(c)
  }

  // ---------------------------------------------------------------------
  // Sums: the badge count and the grand total
  // ---------------------------------------------------------------------

  predicate NonNegativeQuantities(c: seq<Item>) {
    forall i :: 0 <= i < |c| ==> c[i].quantity >= 0
  }

  predicate NonNegativeLines(c: seq<Item>) {
    forall i :: 0 <= i < |c| ==> c[i].price >= 0 && c[i].quantity >= 0
  }

  /** The badge count, `reduce((total, item) => total + item.quantidade, 0)`:
      a left fold, so the last item is added last. */
  function QuantitySum(c: seq<Item>): (count: int)
    ensures NonNegativeQuantities(c) ==> count >= 0
  {
    if c == [] then 0 else QuantitySum(c[..|c| - 1]) + c[|c| - 1].quantity
  }

  /** The per-item total shown beside each line, price times quantity. */
  function Subtotal(item: Item): (subtotal: int)
    ensures item.quantity == 1 ==> subtotal == item.price
    ensures item.price >= 0 && item.quantity >= 1 ==> subtotal >= item.price
  {
    item.price * item.quantity
  }

  /** The grand total, accumulated front to back over the items. */
  function GrandTotal(c: seq<Item>): (total: int)
    ensures NonNegativeLines(c) ==> total >= 0
  {
    if c == [] then 0 else GrandTotal(c[..|c| - 1]) + Subtotal(c[|c| - 1])
  }

  lemma {:induction false} QuantitySumAppend(a: seq<Item>, b: seq<Item>)
    ensures QuantitySum(a + b) == QuantitySum(a) + QuantitySum(b)
  {
    if b == [] {
      assert a + b == a;
    } else {
      var b' := b[..|b| - 1];
      assert (a + b)[..|a + b| - 1] == a + b';
      QuantitySumAppend(a, b');
    }
  }

  lemma {:induction false} GrandTotalAppend(a: seq<Item>, b: seq<Item>)
    ensures GrandTotal(a + b) == GrandTotal(a) + GrandTotal(b)
  {
    if b == [] {
      assert a + b == a;
    } else {
      var b' := b[..|b| - 1];
      assert (a + b)[..|a + b| - 1] == a + b';
      GrandTotalAppend(a, b');
    }
  }

  /** The count splits around any position. */
  lemma QuantitySumSplit(c: seq<Item>, i: nat)
    requires i < |c|
    ensures QuantitySum(c) == QuantitySum(c[..i]) + c[i].quantity + QuantitySum(c[i + 1..])
  {
    var pre, mid, post := c[..i], [c[i]], c[i + 1..];
    assert mid + post == c[i..];
    assert c == pre + c[i..];
    QuantitySumAppend(pre, mid + post);
    QuantitySumAppend(mid, post);
    assert mid[..0] == [];
  }

  /** The grand total splits around any position. */
  lemma GrandTotalSplit(c: seq<Item>, i: nat)
    requires i < |c|
    ensures GrandTotal(c) == GrandTotal(c[..i]) + Subtotal(c[i]) + GrandTotal(c[i + 1..])
  {
    var pre, mid, post := c[..i], [c[i]], c[i + 1..];
    assert mid + post == c[i..];
    assert c == pre + c[i..];
    GrandTotalAppend(pre, mid + post);
    GrandTotalAppend(mid, post);
    assert mid[..0] == [];
    assert GrandTotal([c[i]]) == GrandTotal([]) + Subtotal(c[i]);
  }

  /** In a valid cart the badge count is at least the number of lines, so it
      is zero exactly when the cart is empty (and the badge is then hidden). */
  lemma {:induction false} CountAtLeastLength(c: seq<Item>)
    requires PositiveQuantities(c)
    ensures QuantitySum(c) >= |c|
    ensures QuantitySum(c) == 0 <==> c == []
  {
    if c != [] {
      var c' := c[..|c| - 1];
      assert PositiveQuantities(c') by {
        forall i | 0 <= i < |c'| ensures c'[i].quantity >= 1 {
          assert c'[i] == c[i];
        }
      }
      CountAtLeastLength(c');
    }
  }

  // ---------------------------------------------------------------------
  // Adding an item
  // ---------------------------------------------------------------------

  /** The position `carrinho.find(item => item.nome === name)` stops at:
      the first line item with that name, if any. */
  function NameIndex(c: seq<Item>, name: string): (r: Option<nat>)
    ensures r.Some? ==> r.value < |c| && c[r.value].name == name
    ensures r.Some? ==> forall j :: 0 <= j < r.value ==> c[j].name != name
    ensures r.None? ==> forall j :: 0 <= j < |c| ==> c[j].name != name
  {
    if c == [] then None
    else if c[0].name == name then Some(0)
    else match NameIndex(c[1..], name)
      case None => None
      case Some(i) => Some(i + 1)
  }

  /** The linear scan behind `find`, returning the position of the found
      item (the source then updates that element of the array in place). */
  method FindByName(c: seq<Item>, name: string) returns (found: Option<nat>)
    ensures found == NameIndex(c, name)
  {
    var i := 0;
    while i < |c|
      invariant 0 <= i <= |c|
      invariant forall j :: 0 <= j < i ==> c[j].name != name
    {
      if c[i].name == name {
        return Some(i);
      }
      i := i + 1;
    }
    return None;
  }

  /** The cart after adicionarAoCarrinho(name, price): the first item with
      that name gets one more unit, otherwise a new line with quantity 1 is
      appended. */
  function AddItem(c: seq<Item>, name: string, price: int): (r: seq<Item>)
    ensures |r| == |c| || |r| == |c| + 1
    ensures |r| == |c| + 1 <==> NameIndex(c, name).None?
    ensures |r| == |c| + 1 ==> r[|c|] == Item(name, price, 1)
  {
    match NameIndex(c, name)
    case Some(i) => c[i := c[i].(quantity := c[i].quantity + 1)]
    case None => c + [Item(name, price, 1)]
  }

  /** Adding a name that is present bumps the (first) item with that name by
      exactly one; the length and every other item stay as they were. */
  lemma AddExistingIncrements(c: seq<Item>, name: string, price: int, i: nat)
    requires i < |c| && c[i].name == name
    requires forall j :: 0 <= j < i ==> c[j].name != name
    ensures |AddItem(c, name, price)| == |c|
    ensures AddItem(c, name, price)[i] == c[i].(quantity := c[i].quantity + 1)
    ensures forall j :: 0 <= j < |c| && j != i ==> AddItem(c, name, price)[j] == c[j]
  {
  }

  /** In a cart with unique names any item with the given name is the one
      that `find` returns. */
  lemma AddExistingInValidCart(c: seq<Item>, name: string, price: int, i: nat)
    requires UniqueNames(c)
    requires i < |c| && c[i].name == name
    ensures |AddItem(c, name, price)| == |c|
    ensures AddItem(c, name, price)[i] == c[i].(quantity := c[i].quantity + 1)
    ensures forall j :: 0 <= j < |c| && j != i ==> AddItem(c, name, price)[j] == c[j]
  {
  }

  /** Adding a name that is absent appends {name, price, 1} at the end. */
  lemma AddNewAppends(c: seq<Item>, name: string, price: int)
    requires forall j :: 0 <= j < |c| ==> c[j].name != name
    ensures AddItem(c, name, price) == c + [Item(name, price, 1)]
  {
  }

  lemma AddPreservesValid(c: seq<Item>, name: string, price: int)
    requires ValidCart(c)
    ensures ValidCart(AddItem(c, name, price))
  {
  }

  /** Each add raises the badge count by exactly one. */
  lemma AddRaisesCount(c: seq<Item>, name: string, price: int)
    ensures QuantitySum(AddItem(c, name, price)) == QuantitySum(c) + 1
  {
    var r := AddItem(c, name, price);
    match NameIndex(c, name)
    case Some(i) =>
      QuantitySumSplit(c, i);
      QuantitySumSplit(r, i);
      assert r[..i] == c[..i];
      assert r[i + 1..] == c[i + 1..];
    case None =>
      QuantitySumAppend(c, [Item(name, price, 1)]);
      assert QuantitySum([Item(name, price, 1)]) == QuantitySum([]) + 1;
  }

  lemma SubtotalOfOneMore(item: Item)
    ensures Subtotal(item.(quantity := item.quantity + 1)) == Subtotal(item) + item.price
  {
  }

  /** Bumping line i raises the grand total by that line's unit price. */
  lemma BumpRaisesTotal(c: seq<Item>, i: nat)
    requires i < |c|
    ensures GrandTotal(c[i := c[i].(quantity := c[i].quantity + 1)]) == GrandTotal(c) + c[i].price
  {
    var r := c[i := c[i].(quantity := c[i].quantity + 1)];
    GrandTotalSplit(c, i);
    GrandTotalSplit(r, i);
    assert r[..i] == c[..i];
    assert r[i + 1..] == c[i + 1..];
    SubtotalOfOneMore(c[i]);
  }

  /** Appending a line raises the grand total by its subtotal. */
  lemma AppendRaisesTotal(c: seq<Item>, item: Item)
    ensures GrandTotal(c + [item]) == GrandTotal(c) + Subtotal(item)
  {
  }

  /** Adding a name already present raises the grand total by the unit
      price of the item carrying it. */
  lemma AddExistingRaisesTotal(c: seq<Item>, name: string, price: int, i: nat)
    requires NameIndex(c, name) == Some(i)
    ensures GrandTotal(AddItem(c, name, price)) == GrandTotal(c) + c[i].price
  {
    BumpRaisesTotal(c, i);
  }

  /** Adding a new name raises the grand total by the given price. */
  lemma AddNewRaisesTotal(c: seq<Item>, name: string, price: int)
    requires NameIndex(c, name) == None
    ensures GrandTotal(AddItem(c, name, price)) == GrandTotal(c) + price
  {
    AppendRaisesTotal(c, Item(name, price, 1));
  }

  /** adicionarAoCarrinho: scan, bump in place or push, then save. */
  method AddToCart(s: Store, name: string, price: int)
    modifies s`cart
    ensures s.cart == Some(AddItem(old(GetCart(s)), name, price))
    ensures QuantitySum(GetCart(s)) == old(QuantitySum(GetCart(s))) + 1
    ensures ValidCart(old(GetCart(s))) ==> ValidCart(GetCart(s))
  {
    var c := GetCart(s);
    ghost var before := c;
    var found := FindByName(c, name);
    match found {
      case Some(i) =>
        c := c[i := c[i].(quantity := c[i].quantity + 1)];
      case None =>
        c := c + [Item(name, price, 1)];
    }
    SaveCart(s, c);
    AddRaisesCount(before, name, price);
    if ValidCart(before) {
      AddPreservesValid(before, name, price);
    }
  }

  // ---------------------------------------------------------------------
  // Removing an item by position
  // ---------------------------------------------------------------------

  /** `splice(i, 1)`: the cart without its i-th line, others in order. */
  function RemoveAt(c: seq<Item>, i: nat): (r: seq<Item>)
    requires i < |c|
    ensures |r| == |c| - 1
    ensures forall j :: 0 <= j < i ==> r[j] == c[j]
    ensures forall j :: i <= j < |r| ==> r[j] == c[j + 1]
  {
    c[..i] + c[i + 1..]
  }

  lemma RemovePreservesValid(c: seq<Item>, i: nat)
    requires i < |c| && ValidCart(c)
    ensures ValidCart(RemoveAt(c, i))
  {
  }

  /** Removing a line lowers the badge count by that line's quantity. */
  lemma RemoveLowersCount(c: seq<Item>, i: nat)
    requires i < |c|
    ensures QuantitySum(RemoveAt(c, i)) == QuantitySum(c) - c[i].quantity
  {
    QuantitySumSplit(c, i);
    QuantitySumAppend(c[..i], c[i + 1..]);
  }

  /** Removing a line lowers the grand total by that line's subtotal. */
  lemma RemoveLowersTotal(c: seq<Item>, i: nat)
    requires i < |c|
    ensures GrandTotal(RemoveAt(c, i)) == GrandTotal(c) - Subtotal(c[i])
  {
    GrandTotalSplit(c, i);
    GrandTotalAppend(c[..i], c[i + 1..]);
  }

  /** removerItemCarrinho: an index outside [0, length) saves nothing; an
      index inside removes that line and saves. */
  method RemoveFromCart(s: Store, index: int)
    modifies s`cart
    ensures !(0 <= index < |old(GetCart(s))|) ==> s.cart == old(s.cart)
    ensures 0 <= index < |old(GetCart(s))| ==>
              s.cart == Some(RemoveAt(old(GetCart(s)), index))
              && QuantitySum(GetCart(s)) == old(QuantitySum(GetCart(s)) - GetCart(s)[index].quantity)
              && (ValidCart(old(GetCart(s))) ==> ValidCart(GetCart(s)))
  {
    var c := GetCart(s);
    if 0 <= index < |c| {
      var r := c[..index] + c[index + 1..];
      SaveCart(s, r);
      RemoveLowersCount(c, index);
      if ValidCart(c) {
        RemovePreservesValid(c, index);
      }
    }
  }

  // ---------------------------------------------------------------------
  // Rendering, clearing and checking out
  // ---------------------------------------------------------------------

  /** One rendered line: the item, its subtotal and the position its remove
      button carries in `data-index`. */
  datatype Line = Line(item: Item, subtotal: int, index: nat)

  /** What renderizarCarrinho puts on the page, without the markup. */
  datatype Rendering = EmptyMessage | Listing(lines: seq<Line>, total: int)

  /** renderizarCarrinho: the empty-cart message, or one line per item and
      the grand total accumulated by the `forEach` loop. */
  method RenderCart(s: Store) returns (r: Rendering)
    ensures r == EmptyMessage <==> GetCart(s) == []
    ensures r.Listing? ==> |r.lines| == |GetCart(s)|
    ensures r.Listing? ==> forall k :: 0 <= k < |r.lines| ==>
              r.lines[k] == Line(GetCart(s)[k], Subtotal(GetCart(s)[k]), k)
    ensures r.Listing? ==> r.total == GrandTotal(GetCart(s))
  {
    var c := GetCart(s);
    if |c| == 0 {
      return EmptyMessage;
    }
    var total := 0;
    var lines: seq<Line> := [];
    var i := 0;
    while i < |c|
      invariant 0 <= i <= |c|
      invariant total == GrandTotal(c[..i])
      invariant |lines| == i
      invariant forall k :: 0 <= k < i ==> lines[k] == Line(c[k], Subtotal(c[k]), k)
    {
      var itemTotal := c[i].price * c[i].quantity;
      total := total + itemTotal;
      lines := lines + [Line(c[i], itemTotal, i)];
      assert c[..i + 1][..i] == c[..i];
      i := i + 1;
    }
    assert c[..|c|] == c;
    r := Listing(lines, total);
  }

  /** The "clear" button: when the user confirms, the key is removed (not
      overwritten with []), so the next read is empty and the count is 0. */
  method ClearCart(s: Store, confirmed: bool)
    modifies s`cart
    ensures s.cart == if confirmed then None else old(s.cart)
    ensures confirmed ==> GetCart(s) == [] && QuantitySum(GetCart(s)) == 0
  {
    if confirmed {
      s.cart := None;
    }
  }

  datatype CheckoutOutcome = EmptyCartRefused | OrderPlaced(itemCount: int)

  /** The "finalizar" button: an empty cart is refused and nothing changes;
      otherwise the quantity sum is reported and the key is removed. */
  method Checkout(s: Store) returns (outcome: CheckoutOutcome)
    modifies s`cart
    ensures old(GetCart(s)) == [] ==> outcome == EmptyCartRefused && s.cart == old(s.cart)
    ensures old(GetCart(s)) != [] ==>
              outcome == OrderPlaced(old(QuantitySum(GetCart(s)))) && s.cart == None
    ensures GetCart(s) == []
  {
    var c := GetCart(s);
    if |c| == 0 {
      return EmptyCartRefused;
    }
    outcome := OrderPlaced(QuantitySum(c));
    s.cart := None;
  }

  /** Two Margheritas and one Calabresa added to a fresh store render as two
      lines worth 60.00 and 35.00, total 95.00. */
  method ScenarioPizzaOrder() returns (r: Rendering)
    ensures r == Listing([Line(Item("Margherita", 3000, 2), 6000, 0),
                          Line(Item("Calabresa", 3500, 1), 3500, 1)], 9500)
  {
    var margherita, calabresa := Item("Margherita", 3000, 1), Item("Calabresa", 3500, 1);
    var s := new Store();
    AddNewAppends([], "Margherita", 3000);
    AddToCart(s, "Margherita", 3000);
    assert GetCart(s) == [margherita];
    AddExistingIncrements([margherita], "Margherita", 3000, 0);
    AddToCart(s, "Margherita", 3000);
    var two := margherita.(quantity := 2);
    assert GetCart(s) == [two];
    AddNewAppends([two], "Calabresa", 3500);
    AddToCart(s, "Calabresa", 3500);
    assert GetCart(s) == [two] + [calabresa];
    AppendRaisesTotal([], two);
    AppendRaisesTotal([two], calabresa);
    r := RenderCart(s);
  }
}
