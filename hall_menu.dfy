/**
 * The in-hall snack menu (src/pages/HallMenu.tsx): the cart as a list of
 * lines, adding and removing one unit of an item, the cart's item count and
 * total, and placing the cart as a new `pending` order in local storage.
 */
module HallMenu {
  import opened Common
  import opened Domain
  import opened Storage

  datatype MenuItem = MenuItem(id: string, name: string, description: string, price: int, category: string)

  /** The menu, prices in sen. */
  const MenuItems: seq<MenuItem> := [
    MenuItem("pop-s", "Small Popcorn", "Perfect single serving", 890, "Popcorn"),
    MenuItem("pop-m", "Medium Popcorn", "Great for sharing", 1290, "Popcorn"),
    MenuItem("pop-l", "Large Popcorn", "Family size portion", 1690, "Popcorn"),
    MenuItem("pop-c", "Caramel Popcorn", "Sweet caramel coating", 1490, "Popcorn"),
    MenuItem("coke", "Coca-Cola", "Classic refreshment", 690, "Beverages"),
    MenuItem("sprite", "Sprite", "Lemon-lime soda", 690, "Beverages"),
    MenuItem("coffee", "Hot Coffee", "Freshly brewed", 890, "Beverages"),
    MenuItem("water", "Mineral Water", "500ml bottle", 490, "Beverages"),
    MenuItem("nachos", "Nachos & Cheese", "Crispy tortilla chips", 1190, "Snacks"),
    MenuItem("hotdog", "Cinema Hot Dog", "Classic frankfurter", 990, "Snacks"),
    MenuItem("candy", "Mixed Candy", "Assorted sweets", 790, "Snacks"),
    MenuItem("combo1", "Movie Night Combo", "Medium popcorn + 2 drinks", 2290, "Combos"),
    MenuItem("combo2", "Sweet Tooth Combo", "Caramel popcorn + candy", 1990, "Combos")
  ]

  const Halls: seq<string> := ["Hall 1", "Hall 2", "Hall 3", "Hall 4", "Hall 5"]

  /** No two cart lines share an id. */
  predicate UniqueIds(cart: seq<LineItem>) {
    forall i, j :: 0 <= i < j < |cart| ==> cart[i].id != cart[j].id
  }

  predicate PositiveQuantities(cart: seq<LineItem>) {
    forall i :: 0 <= i < |cart| ==> cart[i].quantity >= 1
  }

  predicate NonNegativePrices(cart: seq<LineItem>) {
    forall i :: 0 <= i < |cart| ==> cart[i].price >= 0
  }

  /** The cart invariant: unique ids, every quantity at least 1. */
  predicate WellFormedCart(cart: seq<LineItem>) {
    UniqueIds(cart) && PositiveQuantities(cart)
  }

  /** The line `{...item, quantity: 1}` for an item not yet in the cart. */
  function NewLine(item: MenuItem): LineItem {
    LineItem(item.id, item.name, item.description, item.price, item.category, 1)
  }

  /** Index of the first line with this id (the handlers' `find`), -1 when there is none. */
  function FindLine(cart: seq<LineItem>, id: string): (k: int)
    ensures -1 <= k < |cart|
    ensures k >= 0 ==> cart[k].id == id && forall j :: 0 <= j < k ==> cart[j].id != id
    ensures k == -1 <==> forall j :: 0 <= j < |cart| ==> cart[j].id != id
  {
    if cart == [] then -1
    else if cart[0].id == id then 0
    else
      var k := FindLine(cart[1..], id);
      assert forall j :: 1 <= j < |cart| ==> cart[j] == cart[1..][j - 1];
      if k == -1 then -1 else k + 1
  }

  /** The `map` of both handlers: every line with this id gets its quantity moved by delta. */
  function ShiftQuantity(cart: seq<LineItem>, id: string, delta: int): (r: seq<LineItem>)
    ensures |r| == |cart|
    ensures forall j :: 0 <= j < |r| ==>
      r[j] == if cart[j].id == id then cart[j].(quantity := cart[j].quantity + delta) else cart[j]
  {
    if cart == [] then []
    else
      var n := |cart|;
      ShiftQuantity(cart[..n - 1], id, delta)
        + [if cart[n - 1].id == id then cart[n - 1].(quantity := cart[n - 1].quantity + delta) else cart[n - 1]]
  }

  /** The `filter` of removeFromCart: every line with this id is dropped. */
  function DropLines(cart: seq<LineItem>, id: string): (r: seq<LineItem>)
    ensures forall j :: 0 <= j < |r| ==> r[j].id != id && r[j] in cart
  {
    if cart == [] then []
    else
      var n := |cart|;
      DropLines(cart[..n - 1], id) + (if cart[n - 1].id == id then [] else [cart[n - 1]])
  }

  /** The drop keeps every line whose id differs, as often as the cart holds it, and no
      line with the id. */
  lemma {:induction false} DropLinesMultiplicity(cart: seq<LineItem>, id: string)
    ensures forall line ::
      multiset(DropLines(cart, id))[line] == if line.id == id then 0 else multiset(cart)[line]
  {
    if cart != [] {
      var n := |cart|;
      DropLinesMultiplicity(cart[..n - 1], id);
      assert cart == cart[..n - 1] + [cart[n - 1]];
      assert multiset(cart) == multiset(cart[..n - 1]) + multiset{cart[n - 1]};
    }
  }

  /** Cutting the appended element off gives the list back. */
  lemma InitOfSnoc<T>(a: seq<T>, x: T)
    ensures (a + [x])[..|a|] == a
  {
  }

  /** Around a position k before the last, a list without its last element splits as
      the list does. */
  lemma SplitBeforeLast<T>(s: seq<T>, k: int)
    requires 0 <= k < |s| - 1
    ensures s[..|s| - 1][..k] == s[..k]
    ensures s[..|s| - 1][k + 1..] + [s[|s| - 1]] == s[k + 1..]
  {
  }

  /** With unique ids, `find` lands on the last line exactly when it has the id, and
      otherwise where it lands in the cart without the last line. */
  lemma FindLineLast(cart: seq<LineItem>, id: string)
    requires UniqueIds(cart) && cart != []
    ensures var n := |cart|; var init := cart[..n - 1];
      && UniqueIds(init)
      && (cart[n - 1].id == id ==> FindLine(cart, id) == n - 1 && FindLine(init, id) == -1)
      && (cart[n - 1].id != id ==> FindLine(cart, id) == FindLine(init, id))
  {
    var n := |cart|;
    var init := cart[..n - 1];
    assert forall j :: 0 <= j < n - 1 ==> init[j] == cart[j];
  }

  /** Moving quantities keeps every id in place, so `find` lands where it did. */
  lemma FindLineAfterShift(cart: seq<LineItem>, id: string, delta: int, x: string)
    ensures FindLine(ShiftQuantity(cart, id, delta), x) == FindLine(cart, x)
  {
    var r := ShiftQuantity(cart, id, delta);
    assert forall j :: 0 <= j < |r| ==> r[j].id == cart[j].id;
  }

  /** Moving a quantity by delta and back by delta gives the cart back. */
  lemma ShiftBack(cart: seq<LineItem>, id: string, delta: int)
    ensures ShiftQuantity(ShiftQuantity(cart, id, delta), id, -delta) == cart
  {
    var r := ShiftQuantity(cart, id, delta);
    var r2 := ShiftQuantity(r, id, -delta);
    assert forall j :: 0 <= j < |r2| ==> r[j].id == cart[j].id && r2[j] == cart[j];
  }

  /** addToCart: one more unit of an item already in the cart, otherwise a new line. */
  function AddLine(cart: seq<LineItem>, item: MenuItem): (r: seq<LineItem>)
    ensures WellFormedCart(cart) ==> WellFormedCart(r)
  {
    if FindLine(cart, item.id) >= 0 then ShiftQuantity(cart, item.id, 1)
    else cart + [NewLine(item)]
  }

  /** removeFromCart: one unit fewer of a line holding several, otherwise the line goes. */
  function RemoveLine(cart: seq<LineItem>, id: string): (r: seq<LineItem>)
    ensures WellFormedCart(cart) ==> WellFormedCart(r)
  {
    var k := FindLine(cart, id);
    if k >= 0 && cart[k].quantity > 1 then ShiftQuantity(cart, id, -1)
    else
      DropKeepsWellFormed(cart, id);
      DropLines(cart, id)
  }

  /** Appending a line of positive quantity whose id no line has keeps the cart invariant. */
  lemma SnocKeepsWellFormed(cart: seq<LineItem>, line: LineItem)
    requires WellFormedCart(cart) && line.quantity >= 1
    requires forall i :: 0 <= i < |cart| ==> cart[i].id != line.id
    ensures WellFormedCart(cart + [line])
  {
    var r := cart + [line];
    assert forall i :: 0 <= i < |cart| ==> r[i] == cart[i];
  }

  /** Dropping lines keeps the cart invariant. */
  lemma {:induction false} DropKeepsWellFormed(cart: seq<LineItem>, id: string)
    ensures WellFormedCart(cart) ==> WellFormedCart(DropLines(cart, id))
  {
    if cart != [] && WellFormedCart(cart) {
      var n := |cart|;
      var init := cart[..n - 1];
      var last := cart[n - 1];
      assert WellFormedCart(init) by {
        assert forall j :: 0 <= j < n - 1 ==> init[j] == cart[j];
      }
      DropKeepsWellFormed(init, id);
      var r0 := DropLines(init, id);
      if last.id == id {
        assert DropLines(cart, id) == r0;
      } else {
        assert DropLines(cart, id) == r0 + [last];
        forall i | 0 <= i < |r0| ensures r0[i].id != last.id {
          var j :| 0 <= j < |init| && init[j] == r0[i];
          assert cart[j] == init[j];
        }
        SnocKeepsWellFormed(r0, last);
      }
    }
  }

  /** Dropping an id no line carries changes nothing. */
  lemma {:induction false} DropAbsent(cart: seq<LineItem>, id: string)
    requires forall j :: 0 <= j < |cart| ==> cart[j].id != id
    ensures DropLines(cart, id) == cart
  {
    if cart != [] {
      DropAbsent(cart[..|cart| - 1], id);
      assert cart == cart[..|cart| - 1] + [cart[|cart| - 1]];
    }
  }

  /** When line k is the only line with the id, dropping the id removes exactly line k. */
  lemma {:induction false} DropOnly(cart: seq<LineItem>, id: string, k: int)
    requires 0 <= k < |cart| && cart[k].id == id
    requires forall j :: 0 <= j < |cart| && j != k ==> cart[j].id != id
    ensures DropLines(cart, id) == cart[..k] + cart[k + 1..]
  {
    var n := |cart|;
    var init := cart[..n - 1];
    var last := cart[n - 1];
    if k == n - 1 {
      assert DropLines(cart, id) == DropLines(init, id);
      assert DropLines(init, id) == init by {
        DropAbsent(init, id);
      }
    } else {
      var r0 := DropLines(init, id);
      assert DropLines(cart, id) == r0 + [last];
      assert r0 == init[..k] + init[k + 1..] by {
        DropOnly(init, id, k);
      }
      SplitBeforeLast(cart, k);
      assert r0 + [last] == cart[..k] + (init[k + 1..] + [last]);
    }
  }

  /** With unique ids, dropping an id removes exactly its one line. */
  lemma DropUnique(cart: seq<LineItem>, id: string)
    requires UniqueIds(cart) && FindLine(cart, id) >= 0
    ensures var k := FindLine(cart, id); DropLines(cart, id) == cart[..k] + cart[k + 1..]
  {
    var k := FindLine(cart, id);
    assert forall j :: 0 <= j < |cart| && j != k ==> cart[j].id != id by {
      forall j | 0 <= j < |cart| && j != k ensures cart[j].id != id {
        if j < k {
          assert cart[j].id != cart[k].id;
        } else {
          assert cart[k].id != cart[j].id;
        }
      }
    }
    DropOnly(cart, id, k);
  }

  /** addToCart, as promised: an item already in the cart gains exactly one unit on
      its own line and nothing else changes; a new item is appended with quantity 1. */
  lemma AddToCartEffect(cart: seq<LineItem>, item: MenuItem)
    requires UniqueIds(cart)
    ensures var r := AddLine(cart, item); var k := FindLine(cart, item.id);
      if k >= 0 then
        |r| == |cart| && r[k] == cart[k].(quantity := cart[k].quantity + 1)
        && forall j :: 0 <= j < |cart| && j != k ==> r[j] == cart[j]
      else r == cart + [NewLine(item)]
  {
  }

  /** removeFromCart, as promised: a line with several units loses one, a line with
      one unit is removed, an absent id changes nothing; other lines are untouched. */
  lemma RemoveFromCartEffect(cart: seq<LineItem>, id: string)
    requires UniqueIds(cart)
    ensures var r := RemoveLine(cart, id); var k := FindLine(cart, id);
      && (k < 0 ==> r == cart)
      && (k >= 0 && cart[k].quantity > 1 ==>
            |r| == |cart| && r[k] == cart[k].(quantity := cart[k].quantity - 1)
            && forall j :: 0 <= j < |cart| && j != k ==> r[j] == cart[j])
      && (k >= 0 && cart[k].quantity <= 1 ==> r == cart[..k] + cart[k + 1..])
  {
    var k := FindLine(cart, id);
    if k < 0 {
      DropAbsent(cart, id);
    } else if cart[k].quantity <= 1 {
      DropUnique(cart, id);
    }
  }

  /** Removing the item just added gives back the cart it was added to. */
  lemma AddThenRemoveRestoresCart(cart: seq<LineItem>, item: MenuItem)
    requires forall i :: 0 <= i < |cart| ==> cart[i].quantity >= 1
    ensures RemoveLine(AddLine(cart, item), item.id) == cart
  {
    var k := FindLine(cart, item.id);
    var added := AddLine(cart, item);
    if k >= 0 {
      assert added == ShiftQuantity(cart, item.id, 1);
      assert RemoveLine(added, item.id) == ShiftQuantity(added, item.id, -1) by {
        FindLineAfterShift(cart, item.id, 1, item.id);
        assert added[k].quantity == cart[k].quantity + 1 > 1;
      }
      ShiftBack(cart, item.id, 1);
    } else {
      var line := NewLine(item);
      assert added == cart + [line];
      assert RemoveLine(added, item.id) == DropLines(added, item.id) by {
        assert forall j :: 0 <= j < |cart| ==> added[j] == cart[j];
        assert FindLine(added, item.id) == |cart|;
      }
      assert DropLines(added, item.id) == DropLines(cart, item.id) by {
        InitOfSnoc(cart, line);
      }
      DropAbsent(cart, item.id);
    }
  }

  /** getCartItemCount: the `reduce` adding up every line's quantity, left to right. */
  function CartItemCount(cart: seq<LineItem>): int {
    if cart == [] then 0 else CartItemCount(cart[..|cart| - 1]) + cart[|cart| - 1].quantity
  }

  /** A line's contribution to the total: price times quantity. */
  function LineTotal(line: LineItem): (t: int)
    ensures line.price >= 0 && line.quantity >= 0 ==> t >= 0
  {
    line.price * line.quantity
  }

  /** getCartTotal: the `reduce` adding up price times quantity of every line, in sen. */
  function CartTotal(cart: seq<LineItem>): int {
    if cart == [] then 0 else CartTotal(cart[..|cart| - 1]) + LineTotal(cart[|cart| - 1])
  }

  /** A cart whose every quantity is at least one holds at least one unit per line, so
      the badge of a non-empty cart is never zero. */
  lemma {:induction false} CartItemCountAtLeastLines(cart: seq<LineItem>)
    requires PositiveQuantities(cart)
    ensures CartItemCount(cart) >= |cart|
  {
    if cart != [] {
      CartItemCountAtLeastLines(cart[..|cart| - 1]);
    }
  }

  /** With non-negative prices and positive quantities the total is never negative. */
  lemma {:induction false} CartTotalNonNegative(cart: seq<LineItem>)
    requires PositiveQuantities(cart) && NonNegativePrices(cart)
    ensures CartTotal(cart) >= 0
  {
    if cart != [] {
      CartTotalNonNegative(cart[..|cart| - 1]);
    }
  }

  /** Moving a line's quantity by delta moves its contribution by delta times its price. */
  lemma LineTotalShift(line: LineItem, delta: int)
    ensures LineTotal(line.(quantity := line.quantity + delta)) == LineTotal(line) + delta * line.price
  {
  }

  /** The number of lines carrying the id, and the sum of their unit prices. */
  function LinesWithId(cart: seq<LineItem>, id: string): int {
    if cart == [] then 0
    else LinesWithId(cart[..|cart| - 1], id) + (if cart[|cart| - 1].id == id then 1 else 0)
  }

  function PriceWithId(cart: seq<LineItem>, id: string): int {
    if cart == [] then 0
    else PriceWithId(cart[..|cart| - 1], id) + (if cart[|cart| - 1].id == id then cart[|cart| - 1].price else 0)
  }

  /** The units on the lines carrying the id, and what those lines add to the total. */
  function QuantityWithId(cart: seq<LineItem>, id: string): int {
    if cart == [] then 0
    else QuantityWithId(cart[..|cart| - 1], id) + (if cart[|cart| - 1].id == id then cart[|cart| - 1].quantity else 0)
  }

  function TotalWithId(cart: seq<LineItem>, id: string): int {
    if cart == [] then 0
    else TotalWithId(cart[..|cart| - 1], id) + (if cart[|cart| - 1].id == id then LineTotal(cart[|cart| - 1]) else 0)
  }

  /** With unique ids, at most one line carries the id: the one `find` lands on. */
  lemma {:induction false} UniqueIdSums(cart: seq<LineItem>, id: string)
    requires UniqueIds(cart)
    ensures var k := FindLine(cart, id);
      && LinesWithId(cart, id) == (if k >= 0 then 1 else 0)
      && PriceWithId(cart, id) == (if k >= 0 then cart[k].price else 0)
  {
    if cart != [] {
      var init := cart[..|cart| - 1];
      FindLineLast(cart, id);
      UniqueIdSums(init, id);
      var k := FindLine(cart, id);
      if cart[|cart| - 1].id != id && k >= 0 {
        assert cart[k] == init[k];
      }
    }
  }

  /** With unique ids, the units and the line total of the id are those of the line
      `find` lands on. */
  lemma {:induction false} UniqueIdLine(cart: seq<LineItem>, id: string)
    requires UniqueIds(cart)
    ensures var k := FindLine(cart, id);
      && QuantityWithId(cart, id) == (if k >= 0 then cart[k].quantity else 0)
      && TotalWithId(cart, id) == (if k >= 0 then LineTotal(cart[k]) else 0)
  {
    if cart != [] {
      var init := cart[..|cart| - 1];
      FindLineLast(cart, id);
      UniqueIdLine(init, id);
      var k := FindLine(cart, id);
      if cart[|cart| - 1].id != id && k >= 0 {
        assert cart[k] == init[k];
      }
    }
  }

  lemma MulStep(d: int, a: int, b: int)
    ensures d * (a + b) == d * a + d * b
  {
  }

  /** Moving by delta the quantity of every line with the id moves the count by delta per line. */
  lemma {:induction false} CountShiftPerLine(cart: seq<LineItem>, id: string, delta: int)
    ensures CartItemCount(ShiftQuantity(cart, id, delta)) == CartItemCount(cart) + delta * LinesWithId(cart, id)
  {
    if cart != [] {
      var init := cart[..|cart| - 1];
      var last := cart[|cart| - 1];
      var r0 := ShiftQuantity(init, id, delta);
      var lastR := if last.id == id then last.(quantity := last.quantity + delta) else last;
      assert ShiftQuantity(cart, id, delta) == r0 + [lastR];
      InitOfSnoc(r0, lastR);
      CountShiftPerLine(init, id, delta);
      assert CartItemCount(r0 + [lastR]) == CartItemCount(r0) + lastR.quantity;
      assert CartItemCount(cart) == CartItemCount(init) + last.quantity;
      var c := LinesWithId(init, id);
      if last.id == id {
        assert LinesWithId(cart, id) == c + 1;
        MulStep(delta, c, 1);
      } else {
        assert LinesWithId(cart, id) == c;
      }
    }
  }

  /** Moving by delta the quantity of every line with the id moves the total by delta
      times each such line's price. */
  lemma {:induction false} TotalShiftPerLine(cart: seq<LineItem>, id: string, delta: int)
    ensures CartTotal(ShiftQuantity(cart, id, delta)) == CartTotal(cart) + delta * PriceWithId(cart, id)
  {
    if cart != [] {
      var init := cart[..|cart| - 1];
      var last := cart[|cart| - 1];
      var r0 := ShiftQuantity(init, id, delta);
      var lastR := if last.id == id then last.(quantity := last.quantity + delta) else last;
      assert ShiftQuantity(cart, id, delta) == r0 + [lastR];
      InitOfSnoc(r0, lastR);
      TotalShiftPerLine(init, id, delta);
      assert CartTotal(r0 + [lastR]) == CartTotal(r0) + LineTotal(lastR);
      assert CartTotal(cart) == CartTotal(init) + LineTotal(last);
      var p := PriceWithId(init, id);
      if last.id == id {
        LineTotalShift(last, delta);
        assert PriceWithId(cart, id) == p + last.price;
        MulStep(delta, p, last.price);
      } else {
        assert PriceWithId(cart, id) == p;
      }
    }
  }

  /** Moving the quantity of a line with a unique id moves the count by delta. */
  lemma CountAfterShift(cart: seq<LineItem>, id: string, delta: int)
    requires UniqueIds(cart)
    ensures CartItemCount(ShiftQuantity(cart, id, delta))
      == CartItemCount(cart) + (if FindLine(cart, id) >= 0 then delta else 0)
  {
    CountShiftPerLine(cart, id, delta);
    UniqueIdSums(cart, id);
  }

  /** Moving the quantity of a line with a unique id moves the total by delta times its price. */
  lemma TotalAfterShift(cart: seq<LineItem>, id: string, delta: int)
    requires UniqueIds(cart)
    ensures var k := FindLine(cart, id);
      CartTotal(ShiftQuantity(cart, id, delta)) == CartTotal(cart) + (if k >= 0 then delta * cart[k].price else 0)
  {
    TotalShiftPerLine(cart, id, delta);
    UniqueIdSums(cart, id);
  }

  /** Dropping every line with the id takes their units off the count. */
  lemma {:induction false} CountDropPerLine(cart: seq<LineItem>, id: string)
    ensures CartItemCount(DropLines(cart, id)) == CartItemCount(cart) - QuantityWithId(cart, id)
  {
    if cart != [] {
      var init := cart[..|cart| - 1];
      var last := cart[|cart| - 1];
      var r0 := DropLines(init, id);
      CountDropPerLine(init, id);
      if last.id == id {
        assert DropLines(cart, id) == r0;
      } else {
        assert DropLines(cart, id) == r0 + [last];
        InitOfSnoc(r0, last);
        assert CartItemCount(r0 + [last]) == CartItemCount(r0) + last.quantity;
      }
    }
  }

  /** Dropping every line with the id takes their price times quantity off the total. */
  lemma {:induction false} TotalDropPerLine(cart: seq<LineItem>, id: string)
    ensures CartTotal(DropLines(cart, id)) == CartTotal(cart) - TotalWithId(cart, id)
  {
    if cart != [] {
      var init := cart[..|cart| - 1];
      var last := cart[|cart| - 1];
      var r0 := DropLines(init, id);
      TotalDropPerLine(init, id);
      if last.id == id {
        assert DropLines(cart, id) == r0;
      } else {
        assert DropLines(cart, id) == r0 + [last];
        InitOfSnoc(r0, last);
        assert CartTotal(r0 + [last]) == CartTotal(r0) + LineTotal(last);
      }
    }
  }

  /** Dropping the line of a unique id takes its units off the count. */
  lemma CountAfterDrop(cart: seq<LineItem>, id: string)
    requires UniqueIds(cart)
    ensures var k := FindLine(cart, id);
      CartItemCount(DropLines(cart, id)) == CartItemCount(cart) - (if k >= 0 then cart[k].quantity else 0)
  {
    CountDropPerLine(cart, id);
    UniqueIdLine(cart, id);
  }

  /** Dropping the line of a unique id takes its price times quantity off the total. */
  lemma TotalAfterDrop(cart: seq<LineItem>, id: string)
    requires UniqueIds(cart)
    ensures var k := FindLine(cart, id);
      CartTotal(DropLines(cart, id)) == CartTotal(cart) - (if k >= 0 then LineTotal(cart[k]) else 0)
  {
    TotalDropPerLine(cart, id);
    UniqueIdLine(cart, id);
  }

  /** Adding an item adds one unit to the count and one unit price to the total. */
  lemma SumsAfterAdd(cart: seq<LineItem>, item: MenuItem)
    requires UniqueIds(cart)
    ensures var k := FindLine(cart, item.id); var r := AddLine(cart, item);
      && CartItemCount(r) == CartItemCount(cart) + 1
      && CartTotal(r) == CartTotal(cart) + (if k >= 0 then cart[k].price else item.price)
  {
    var k := FindLine(cart, item.id);
    if k >= 0 {
      CountAfterShift(cart, item.id, 1);
      TotalAfterShift(cart, item.id, 1);
    } else {
      assert AddLine(cart, item) == cart + [NewLine(item)];
      InitOfSnoc(cart, NewLine(item));
    }
  }

  /** Removing an item in the cart takes one unit off the count and one unit price off the total. */
  lemma SumsAfterRemove(cart: seq<LineItem>, id: string)
    requires WellFormedCart(cart)
    ensures var k := FindLine(cart, id); var r := RemoveLine(cart, id);
      && CartItemCount(r) == CartItemCount(cart) - (if k >= 0 then 1 else 0)
      && CartTotal(r) == CartTotal(cart) - (if k >= 0 then cart[k].price else 0)
  {
    var k := FindLine(cart, id);
    if k >= 0 && cart[k].quantity > 1 {
      assert RemoveLine(cart, id) == ShiftQuantity(cart, id, -1);
      CountAfterShift(cart, id, -1);
      TotalAfterShift(cart, id, -1);
    } else {
      assert RemoveLine(cart, id) == DropLines(cart, id);
      CountAfterDrop(cart, id);
      TotalAfterDrop(cart, id);
      if k >= 0 {
        LineTotalOfOne(cart[k]);
      }
    }
  }

  lemma LineTotalOfOne(line: LineItem)
    requires line.quantity == 1
    ensures LineTotal(line) == line.price
  {
  }

  datatype PlaceOutcome = MissingInformation | EmptyCart | Placed(order: Order)

  /** The order placeOrder builds from the cart: a digit-string id from one clock reading
      (`idClock`), the user's e-mail when someone is logged in, the cart's lines and their
      total, status `pending` placed at a second reading (`now`) and not yet delivered. */
  function NewOrder(user: Option<SessionUser>, hall: string, seat: string, cart: seq<LineItem>, idClock: nat, now: nat): (o: Order)
    ensures |o.id| >= 1 && AllDigits(o.id) && DigitsValue(o.id) == idClock
    ensures o.userId.Some? <==> user.Some?
    ensures user.Some? ==> o.userId.value == user.value.email
    ensures o.hallNumber == hall && o.seatNumber == seat
    ensures o.items == cart && o.totalAmount == CartTotal(cart)
    ensures o.status == PENDING && o.orderTime == now
    ensures DeliveryConsistent(o)
  {
    NatToStringRoundTrip(idClock);
    Order(
      NatToString(idClock),
      if user.Some? then Some(user.value.email) else None,
      hall,
      seat,
      cart,
      CartTotal(cart),
      PENDING,
      now,
      None,
      "")
  }

  class MenuPage {
    var selectedHall: string
    var selectedSeat: string
    var cart: seq<LineItem>
    var user: Option<SessionUser>

    predicate Valid()
      reads this
    {
      WellFormedCart(cart)
    }

    constructor ()
      ensures Valid()
      ensures selectedHall == "" && selectedSeat == "" && cart == [] && user == None
    {
      selectedHall := "";
      selectedSeat := "";
      cart := [];
      user := None;
    }

    /** Opening the page: to `/login` without a user, otherwise the user is kept. */
    method Mount(store: LocalStorage) returns (redirect: Option<string>)
      modifies this`user
      ensures store.user.None? ==> redirect == Some("/login") && user == old(user)
      ensures store.user.Some? ==> redirect == None && user == store.user
    {
      if store.user.None? {
        return Some("/login");
      }
      user := store.user;
      redirect := None;
    }

    method SelectHall(hall: string)
      modifies this`selectedHall
      ensures selectedHall == hall
    {
      selectedHall := hall;
    }

    /** The seat field keeps what is typed, upper-cased. */
    method SetSeat(seat: string)
      modifies this`selectedSeat
      ensures selectedSeat == UpperAscii(seat)
      ensures |selectedSeat| == |seat| && forall i :: 0 <= i < |selectedSeat| ==> !IsAsciiLower(selectedSeat[i])
    {
      selectedSeat := UpperAscii(seat);
    }

    method AddToCart(item: MenuItem)
      requires Valid()
      modifies this`cart
      ensures Valid() && cart == AddLine(old(cart), item)
      ensures CartItemCount(cart) == CartItemCount(old(cart)) + 1
    {
      SumsAfterAdd(cart, item);
      cart := AddLine(cart, item);
    }

    method RemoveFromCart(itemId: string)
      requires Valid()
      modifies this`cart
      ensures Valid() && cart == RemoveLine(old(cart), itemId)
      ensures FindLine(old(cart), itemId) < 0 ==> cart == old(cart)
    {
      RemoveFromCartEffect(cart, itemId);
      cart := RemoveLine(cart, itemId);
    }

    /** Places the cart as an order. A missing hall or seat, or an empty cart, is refused
        and changes nothing; otherwise exactly one `pending` order holding the cart and
        its total is appended to the stored orders and the cart is emptied. */
    method PlaceOrder(store: LocalStorage, idClock: nat, now: nat) returns (outcome: PlaceOutcome, redirect: Option<string>)
      requires Valid()
      modifies this`cart, store`orders
      ensures Valid()
      ensures selectedHall == "" || selectedSeat == "" ==> outcome == MissingInformation
      ensures selectedHall != "" && selectedSeat != "" && old(cart) == [] ==> outcome == EmptyCart
      ensures outcome.Placed? <==> selectedHall != "" && selectedSeat != "" && old(cart) != []
      ensures !outcome.Placed? ==> cart == old(cart) && store.orders == old(store.orders)
      ensures outcome.Placed? ==>
        && selectedHall != "" && selectedSeat != "" && old(cart) != []
        && outcome.order == NewOrder(user, selectedHall, selectedSeat, old(cart), idClock, now)
        && store.orders == Some(old(store.StoredOrders()) + [outcome.order])
        && cart == []
      ensures outcome.Placed? ==>
        && outcome.order.status == PENDING
        && outcome.order.totalAmount == CartTotal(old(cart))
        && outcome.order.items == old(cart)
        && outcome.order.userId == (if user.Some? then Some(user.value.email) else None)
        && DeliveryConsistent(outcome.order)
      ensures redirect == (if outcome.Placed? then Some("/orders") else None)
    {
      if selectedHall == "" || selectedSeat == "" {
        return MissingInformation, None;
      }
      if |cart| == 0 {
        return EmptyCart, None;
      }
      var order := NewOrder(user, selectedHall, selectedSeat, cart, idClock, now);
      var existingOrders := store.StoredOrders();
      existingOrders := existingOrders + [order];
      store.orders := Some(existingOrders);
      cart := [];
      outcome := Placed(order);
      redirect := Some("/orders");
    }
  }
}
