/**
 * The cart engine of the order page: the cart is an ordered sequence of
 * lines, one per menu item, and every operation returns the next cart as a
 * pure transformation of the previous one (the updater functions passed to
 * `setOrderItems`).
 */
module Cart {
  import opened Wrappers

  /** An entry of the menu catalogue. */
  datatype MenuItem = MenuItem(id: int, name: string, price: int, image: string)

  /** A cart line: the menu item's fields copied at add time, plus a quantity. */
  datatype Line = Line(id: int, name: string, price: int, image: string, quantity: int)

  /** The line that adding an item for the first time creates. */
  function NewLine(item: MenuItem): Line
  {
    Line(item.id, item.name, item.price, item.image, 1)
  }

  /** The amount one line contributes to the total. */
  function Subtotal(line: Line): int
  {
    line.price * line.quantity
  }

  predicate HasId(cart: seq<Line>, id: int)
  {
    exists i :: 0 <= i < |cart| && cart[i].id == id
  }

  /** No two lines share an id: the cart is keyed by id. */
  predicate UniqueIds(cart: seq<Line>)
  {
    forall i, j :: 0 <= i < j < |cart| ==> cart[i].id != cart[j].id
  }

  /** No line with a zero or negative quantity is ever kept. */
  predicate PositiveQuantities(cart: seq<Line>)
  {
    forall i :: 0 <= i < |cart| ==> cart[i].quantity >= 1
  }

  /** The cart invariant that every operation preserves. */
  predicate Valid(cart: seq<Line>)
  {
    UniqueIds(cart) && PositiveQuantities(cart)
  }

  /** The first line whose id is `id`, if there is one. */
  function Find(cart: seq<Line>, id: int): (r: Option<Line>)
    ensures r.None? <==> !HasId(cart, id)
    ensures r.Some? ==> r.value in cart && r.value.id == id
  {
    if cart == [] then None
    else if cart[0].id == id then Some(cart[0])
    else
      assert forall i :: 0 < i < |cart| ==> cart[i] == cart[1..][i - 1];
      Find(cart[1..], id)
  }

  /** Every line with id `id` gets one more unit; the others are kept. */
  function Increment(cart: seq<Line>, id: int): seq<Line>
  {
    seq(|cart|, i requires 0 <= i < |cart| =>
      if cart[i].id == id then cart[i].(quantity := cart[i].quantity + 1) else cart[i])
  }

  /** Every line with id `id` gets quantity `q`; the others are kept. */
  function SetQuantity(cart: seq<Line>, id: int, q: int): seq<Line>
  {
    seq(|cart|, i requires 0 <= i < |cart| =>
      if cart[i].id == id then cart[i].(quantity := q) else cart[i])
  }

  /** Adds one unit of a menu item: bumps its line, or appends a new line. */
  function AddItem(cart: seq<Line>, item: MenuItem): (r: seq<Line>)
    ensures HasId(r, item.id)
    ensures |r| == if HasId(cart, item.id) then |cart| else |cart| + 1
  {
    match Find(cart, item.id)
    case Some(_) =>
      var k :| 0 <= k < |cart| && cart[k].id == item.id;
      assert Increment(cart, item.id)[k].id == item.id;
      Increment(cart, item.id)
    case None =>
      assert (cart + [NewLine(item)])[|cart|].id == item.id;
      cart + [NewLine(item)]
  }

  /** Drops every line with id `id`, keeping the others in order. */
  function RemoveItem(cart: seq<Line>, id: int): (r: seq<Line>)
    ensures |r| <= |cart|
    ensures forall line :: line in r <==> line in cart && line.id != id
  {
    if cart == [] then []
    else if cart[0].id == id then RemoveItem(cart[1..], id)
    else [cart[0]] + RemoveItem(cart[1..], id)
  }

  /**
   * Changes the quantity of the line with id `id` by `delta`; a line whose
   * new quantity is zero or less is removed instead.
   */
  function UpdateQuantity(cart: seq<Line>, id: int, delta: int): (r: seq<Line>)
    ensures !HasId(cart, id) ==> r == cart
    ensures |r| <= |cart|
  {
    match Find(cart, id)
    case None => cart
    case Some(line) =>
      var newQuantity := line.quantity + delta;
      if newQuantity <= 0 then RemoveItem(cart, id) else SetQuantity(cart, id, newQuantity)
  }

  /** The sum of price times quantity over the lines, folded from the left from 0. */
  function Total(cart: seq<Line>): int
  {
    if cart == [] then 0 else Total(cart[..|cart| - 1]) + Subtotal(cart[|cart| - 1])
  }

  // ---------------------------------------------------------------------
  // Lookup

  /** The line found is the first one carrying the id. */
  lemma {:induction false} FindFirst(cart: seq<Line>, k: int)
    requires 0 <= k < |cart| && forall j :: 0 <= j < k ==> cart[j].id != cart[k].id
    ensures Find(cart, cart[k].id) == Some(cart[k])
  {
    if k > 0 {
      assert cart[1..][k - 1] == cart[k];
      FindFirst(cart[1..], k - 1);
    }
  }

  /** In a keyed cart, the line carrying an id is the one the lookup returns. */
  lemma FindUnique(cart: seq<Line>, k: int)
    requires UniqueIds(cart) && 0 <= k < |cart|
    ensures Find(cart, cart[k].id) == Some(cart[k])
  {
    FindFirst(cart, k);
  }

  // ---------------------------------------------------------------------
  // Adding

  /** Adding an item already in the cart bumps its line by one and touches nothing else. */
  lemma AddExisting(cart: seq<Line>, item: MenuItem, k: int)
    requires UniqueIds(cart) && 0 <= k < |cart| && cart[k].id == item.id
    ensures AddItem(cart, item) == cart[k := cart[k].(quantity := cart[k].quantity + 1)]
  {
    FindUnique(cart, k);
  }

  /** Adding an absent item appends one line with quantity 1 and keeps the rest. */
  lemma AddAbsent(cart: seq<Line>, item: MenuItem)
    requires !HasId(cart, item.id)
    ensures AddItem(cart, item) == cart + [Line(item.id, item.name, item.price, item.image, 1)]
  {
  }

  /** Adding the same item twice to a cart without it yields one line of quantity 2. */
  lemma AddTwice(cart: seq<Line>, item: MenuItem)
    requires !HasId(cart, item.id)
    ensures AddItem(AddItem(cart, item), item) == cart + [NewLine(item).(quantity := 2)]
  {
    var once := AddItem(cart, item);
    assert once == cart + [NewLine(item)];
    assert Find(once, item.id).Some?;
    assert Increment(once, item.id) == cart + [NewLine(item).(quantity := 2)];
  }

  lemma AddPreservesValid(cart: seq<Line>, item: MenuItem)
    requires Valid(cart)
    ensures Valid(AddItem(cart, item))
  {
    if HasId(cart, item.id) {
      var k :| 0 <= k < |cart| && cart[k].id == item.id;
      AddExisting(cart, item, k);
    }
  }

  // ---------------------------------------------------------------------
  // Removing

  /** Removing an id that no line carries leaves the cart as it was. */
  lemma {:induction false} RemoveAbsent(cart: seq<Line>, id: int)
    requires !HasId(cart, id)
    ensures RemoveItem(cart, id) == cart
  {
    if cart != [] {
      assert cart[0].id != id;
      assert !HasId(cart[1..], id) by {
        forall i | 0 <= i < |cart[1..]| ensures cart[1..][i].id != id {
          assert cart[1..][i] == cart[i + 1];
        }
      }
      RemoveAbsent(cart[1..], id);
      assert [cart[0]] + cart[1..] == cart;
    }
  }

  /** In a keyed cart, removing an id deletes exactly its line and keeps the order of the others. */
  lemma {:induction false} RemoveAt(cart: seq<Line>, k: int)
    requires UniqueIds(cart) && 0 <= k < |cart|
    ensures RemoveItem(cart, cart[k].id) == cart[..k] + cart[k + 1..]
  {
    var id := cart[k].id;
    if k == 0 {
      assert !HasId(cart[1..], id) by {
        forall i | 0 <= i < |cart[1..]| ensures cart[1..][i].id != id {
          assert cart[1..][i] == cart[i + 1];
        }
      }
      RemoveAbsent(cart[1..], id);
    } else {
      assert cart[0].id != id;
      assert cart[1..][k - 1] == cart[k];
      RemoveAt(cart[1..], k - 1);
      assert cart[..k] == [cart[0]] + cart[1..][..k - 1];
      assert cart[k + 1..] == cart[1..][k..];
    }
  }

  /** Removing twice is the same as removing once. */
  lemma RemoveIdempotent(cart: seq<Line>, id: int)
    ensures RemoveItem(RemoveItem(cart, id), id) == RemoveItem(cart, id)
  {
    var once := RemoveItem(cart, id);
    assert !HasId(once, id) by {
      forall i | 0 <= i < |once| ensures once[i].id != id {
        assert once[i] in once;
      }
    }
    RemoveAbsent(once, id);
  }

  /** Deleting one position of a valid cart keeps it valid. */
  lemma DeleteValid(cart: seq<Line>, k: int)
    requires Valid(cart) && 0 <= k < |cart|
    ensures Valid(cart[..k] + cart[k + 1..])
  {
    var r := cart[..k] + cart[k + 1..];
    forall i | 0 <= i < |r| ensures r[i] == cart[if i < k then i else i + 1] {
    }
  }

  lemma RemovePreservesValid(cart: seq<Line>, id: int)
    requires Valid(cart)
    ensures Valid(RemoveItem(cart, id))
  {
    if HasId(cart, id) {
      var k :| 0 <= k < |cart| && cart[k].id == id;
      RemoveAt(cart, k);
      DeleteValid(cart, k);
    } else {
      RemoveAbsent(cart, id);
    }
  }

  // ---------------------------------------------------------------------
  // Updating

  /** A delta that brings the quantity to zero or below removes that line only. */
  lemma UpdateRemoves(cart: seq<Line>, delta: int, k: int)
    requires UniqueIds(cart) && 0 <= k < |cart| && cart[k].quantity + delta <= 0
    ensures UpdateQuantity(cart, cart[k].id, delta) == cart[..k] + cart[k + 1..]
  {
    FindUnique(cart, k);
    RemoveAt(cart, k);
  }

  /** Any other delta changes that line's quantity and nothing else. */
  lemma UpdateSets(cart: seq<Line>, delta: int, k: int)
    requires UniqueIds(cart) && 0 <= k < |cart| && cart[k].quantity + delta > 0
    ensures UpdateQuantity(cart, cart[k].id, delta)
         == cart[k := cart[k].(quantity := cart[k].quantity + delta)]
  {
    FindUnique(cart, k);
  }

  lemma UpdatePreservesValid(cart: seq<Line>, id: int, delta: int)
    requires Valid(cart)
    ensures Valid(UpdateQuantity(cart, id, delta))
  {
    if HasId(cart, id) {
      var k :| 0 <= k < |cart| && cart[k].id == id;
      if cart[k].quantity + delta <= 0 {
        UpdateRemoves(cart, delta, k);
        DeleteValid(cart, k);
      } else {
        UpdateSets(cart, delta, k);
      }
    }
  }

  // ---------------------------------------------------------------------
  // Total

  lemma {:induction false} TotalAppend(a: seq<Line>, b: seq<Line>)
    ensures Total(a + b) == Total(a) + Total(b)
  {
    if b != [] {
      var b' := b[..|b| - 1];
      assert (a + b)[..|a + b| - 1] == a + b';
      TotalAppend(a, b');
    } else {
      assert a + b == a;
    }
  }

  /** With non-negative prices and quantities the total is never negative. */
  lemma {:induction false} TotalNonNegative(cart: seq<Line>)
    requires forall i :: 0 <= i < |cart| ==> cart[i].price >= 0 && cart[i].quantity >= 0
    ensures Total(cart) >= 0
  {
    if cart != [] {
      TotalNonNegative(cart[..|cart| - 1]);
    }
  }

  lemma TotalSingle(line: Line)
    ensures Total([line]) == Subtotal(line)
  {
    assert [line][..0] == [];
  }

  /** Splitting a cart around position k splits its total around that line's subtotal. */
  lemma TotalSplit(cart: seq<Line>, k: int)
    requires 0 <= k < |cart|
    ensures Total(cart) == Total(cart[..k]) + Subtotal(cart[k]) + Total(cart[k + 1..])
  {
    var pre, post := cart[..k], cart[k + 1..];
    assert cart == (pre + [cart[k]]) + post;
    TotalAppend(pre + [cart[k]], post);
    TotalAppend(pre, [cart[k]]);
    TotalSingle(cart[k]);
  }

  /** Replacing one line changes the total by the difference of the two subtotals. */
  lemma TotalReplace(cart: seq<Line>, k: int, line: Line)
    requires 0 <= k < |cart|
    ensures Total(cart[k := line]) == Total(cart) - Subtotal(cart[k]) + Subtotal(line)
  {
    var updated := cart[k := line];
    assert updated[..k] == cart[..k] && updated[k + 1..] == cart[k + 1..];
    TotalSplit(cart, k);
    TotalSplit(updated, k);
  }

  /** Deleting one line lowers the total by that line's subtotal. */
  lemma TotalDelete(cart: seq<Line>, k: int)
    requires 0 <= k < |cart|
    ensures Total(cart[..k] + cart[k + 1..]) == Total(cart) - Subtotal(cart[k])
  {
    TotalSplit(cart, k);
    TotalAppend(cart[..k], cart[k + 1..]);
  }

  /** Changing one line's quantity by delta changes the total by its price times delta. */
  lemma TotalShift(cart: seq<Line>, k: int, delta: int)
    requires 0 <= k < |cart|
    ensures Total(cart[k := cart[k].(quantity := cart[k].quantity + delta)])
         == Total(cart) + cart[k].price * delta
  {
    TotalReplace(cart, k, cart[k].(quantity := cart[k].quantity + delta));
    var line := cart[k];
    assert line.price * (line.quantity + delta) == line.price * line.quantity + line.price * delta;
  }

  lemma AddTotalExisting(cart: seq<Line>, item: MenuItem, k: int)
    requires UniqueIds(cart) && 0 <= k < |cart| && cart[k].id == item.id
    ensures Total(AddItem(cart, item)) == Total(cart) + cart[k].price
  {
    AddExisting(cart, item, k);
    TotalShift(cart, k, 1);
  }

  /** Adding raises the total by one unit price: the line's copied price, or the item's own. */
  lemma AddTotal(cart: seq<Line>, item: MenuItem)
    requires UniqueIds(cart)
    ensures Total(AddItem(cart, item))
         == Total(cart) + (match Find(cart, item.id) case Some(line) => line.price case None => item.price)
  {
    if HasId(cart, item.id) {
      var k :| 0 <= k < |cart| && cart[k].id == item.id;
      FindUnique(cart, k);
      AddTotalExisting(cart, item, k);
    } else {
      AddAbsent(cart, item);
      TotalAppend(cart, [NewLine(item)]);
      TotalSingle(NewLine(item));
    }
  }

  lemma UpdateTotalSets(cart: seq<Line>, delta: int, k: int)
    requires UniqueIds(cart) && 0 <= k < |cart| && cart[k].quantity + delta > 0
    ensures Total(UpdateQuantity(cart, cart[k].id, delta)) == Total(cart) + cart[k].price * delta
  {
    UpdateSets(cart, delta, k);
    TotalShift(cart, k, delta);
  }

  /** Updating changes the total by price times delta, or drops the line's subtotal when it is removed. */
  lemma UpdateTotal(cart: seq<Line>, delta: int, k: int)
    requires UniqueIds(cart) && 0 <= k < |cart|
    ensures Total(UpdateQuantity(cart, cart[k].id, delta))
         == if cart[k].quantity + delta <= 0 then Total(cart) - Subtotal(cart[k])
            else Total(cart) + cart[k].price * delta
  {
    if cart[k].quantity + delta <= 0 {
      UpdateRemoves(cart, delta, k);
      TotalDelete(cart, k);
    } else {
      UpdateTotalSets(cart, delta, k);
    }
  }

  /** Removing a line lowers the total by its subtotal. */
  lemma RemoveTotal(cart: seq<Line>, k: int)
    requires UniqueIds(cart) && 0 <= k < |cart|
    ensures Total(RemoveItem(cart, cart[k].id)) == Total(cart) - Subtotal(cart[k])
  {
    RemoveAt(cart, k);
    TotalDelete(cart, k);
  }
}
