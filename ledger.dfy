/** The cart and the order-item ledger as sequences of rows, in store order:
    the queries the cart and checkout endpoints run over them, and what those
    queries are proved to give. */
module Ledger {
  import opened Records

  /** The rows a user owns, in store order (a filter on `user`). */
  function LinesOf(cart: seq<CartLine>, u: Username): (r: seq<CartLine>)
    ensures |r| <= |cart|
  {
    if cart == [] then []
    else (if cart[0].user == u then [cart[0]] else []) + LinesOf(cart[1..], u)
  }

  /** The rows everybody but `u` owns, in store order. */
  function Without(cart: seq<CartLine>, u: Username): (r: seq<CartLine>)
    ensures |r| <= |cart|
  {
    if cart == [] then []
    else (if cart[0].user != u then [cart[0]] else []) + Without(cart[1..], u)
  }

  /** Deleting the first row `u` still owns: it leaves `u` the rest of their
      rows and everybody else's rows as they were. */
  function DropFirstOf(cart: seq<CartLine>, u: Username): (r: seq<CartLine>)
    requires LinesOf(cart, u) != []
    ensures |r| == |cart| - 1
    ensures forall l :: l in r ==> l in cart
    ensures LinesOf(r, u) == LinesOf(cart, u)[1..]
    ensures Without(r, u) == Without(cart, u)
  {
    if cart[0].user == u then cart[1..]
    else
      var rest := DropFirstOf(cart[1..], u);
      assert ([cart[0]] + rest)[1..] == rest;
      [cart[0]] + rest
  }

  function SumPrices(lines: seq<CartLine>): Cents {
    if lines == [] then 0 else lines[0].price + SumPrices(lines[1..])
  }

  function SumItemPrices(items: seq<OrderItem>): Cents {
    if items == [] then 0 else items[0].price + SumItemPrices(items[1..])
  }

  /** The order items checkout writes for `lines`, one per line, each a copy
      of the line's menu item, quantity, unit price and price, filed under `u`. */
  function ToOrderItems(lines: seq<CartLine>, u: Username): (r: seq<OrderItem>)
    ensures |r| == |lines|
    ensures forall i :: 0 <= i < |lines| ==> r[i] == CopyOf(lines[i], u)
  {
    if lines == [] then []
    else [CopyOf(lines[0], u)] + ToOrderItems(lines[1..], u)
  }

  /** The order item checkout writes for one cart row; a row priced as unit
      price times quantity gives an item priced the same way. */
  function CopyOf(l: CartLine, u: Username): (i: OrderItem)
    ensures LinePriced(l) ==> ItemPriced(i)
  {
    OrderItem(u, l.menuitem, l.quantity, l.unitPrice, l.price)
  }

  /** A row is among `u`'s rows exactly when it is in the cart and `u` owns it. */
  lemma {:induction false} InLinesOf(cart: seq<CartLine>, u: Username, l: CartLine)
    ensures l in LinesOf(cart, u) <==> l in cart && l.user == u
  {
    if cart != [] {
      InLinesOf(cart[1..], u, l);
      assert cart == [cart[0]] + cart[1..];
    }
  }

  /** A row is among the rows kept for others exactly when it is in the cart
      and `u` does not own it. */
  lemma {:induction false} InWithout(cart: seq<CartLine>, u: Username, l: CartLine)
    ensures l in Without(cart, u) <==> l in cart && l.user != u
  {
    if cart != [] {
      InWithout(cart[1..], u, l);
      assert cart == [cart[0]] + cart[1..];
    }
  }

  /** An order's total is the sum of the prices of the order items written with it. */
  lemma {:induction false} TotalMatchesItems(lines: seq<CartLine>, u: Username)
    ensures SumPrices(lines) == SumItemPrices(ToOrderItems(lines, u))
  {
    if lines != [] {
      var items := ToOrderItems(lines, u);
      assert items[1..] == ToOrderItems(lines[1..], u);
      TotalMatchesItems(lines[1..], u);
    }
  }

  /** A new row shows up at the end of its owner's rows and nobody else's. */
  lemma {:induction false} LinesOfAppend(cart: seq<CartLine>, l: CartLine, u: Username)
    ensures LinesOf(cart + [l], u) == LinesOf(cart, u) + (if l.user == u then [l] else [])
  {
    var tail := if l.user == u then [l] else [];
    if cart == [] {
      assert [l][1..] == [];
      assert LinesOf([l], u) == tail + LinesOf([], u);
    } else {
      var head := if cart[0].user == u then [cart[0]] else [];
      var longer := cart + [l];
      assert longer[0] == cart[0] && longer[1..] == cart[1..] + [l];
      assert LinesOf(longer, u) == head + LinesOf(cart[1..] + [l], u);
      LinesOfAppend(cart[1..], l, u);
      assert LinesOf(longer, u) == head + (LinesOf(cart[1..], u) + tail);
      assert LinesOf(cart, u) == head + LinesOf(cart[1..], u);
    }
  }

  /** Removing `u`'s rows leaves every other user's rows as they were. */
  lemma {:induction false} WithoutKeepsOthers(cart: seq<CartLine>, u: Username, v: Username)
    requires v != u
    ensures LinesOf(Without(cart, u), v) == LinesOf(cart, v)
  {
    if cart != [] {
      var rest := Without(cart[1..], u);
      WithoutKeepsOthers(cart[1..], u, v);
      if cart[0].user != u {
        var w := [cart[0]] + rest;
        assert Without(cart, u) == w;
        assert w[0] == cart[0] && w[1..] == rest;
        assert LinesOf(w, v) == (if cart[0].user == v then [cart[0]] else []) + LinesOf(rest, v);
      } else {
        assert Without(cart, u) == rest;
        assert LinesOf(cart, v) == LinesOf(cart[1..], v);
      }
    }
  }

  /** When `u` owns every row, `u`'s rows are the whole cart. */
  lemma {:induction false} AllOwned(rows: seq<CartLine>, u: Username)
    requires forall l :: l in rows ==> l.user == u
    ensures LinesOf(rows, u) == rows
  {
    if rows != [] {
      assert rows[0] in rows;
      assert forall l :: l in rows[1..] ==> l in rows;
      AllOwned(rows[1..], u);
      assert [rows[0]] + rows[1..] == rows;
    }
  }

  /** Removing `u`'s rows leaves `u` none. */
  lemma {:induction false} WithoutLeavesNone(cart: seq<CartLine>, u: Username)
    ensures LinesOf(Without(cart, u), u) == []
  {
    if cart != [] {
      var rest := Without(cart[1..], u);
      WithoutLeavesNone(cart[1..], u);
      if cart[0].user != u {
        var w := [cart[0]] + rest;
        assert Without(cart, u) == w;
        assert w[0] == cart[0] && w[1..] == rest;
        assert LinesOf(w, u) == LinesOf(rest, u);
      } else {
        assert Without(cart, u) == rest;
      }
    }
  }

  /** Removing `u`'s rows leaves `u` none and everybody else's untouched. */
  lemma WithoutOnlyTouchesOwner(cart: seq<CartLine>, u: Username)
    ensures LinesOf(Without(cart, u), u) == []
    ensures forall v :: v != u ==> LinesOf(Without(cart, u), v) == LinesOf(cart, v)
  {
    WithoutLeavesNone(cart, u);
    forall v | v != u ensures LinesOf(Without(cart, u), v) == LinesOf(cart, v) {
      WithoutKeepsOthers(cart, u, v);
    }
  }

  /** When `u` owns no rows, removing `u`'s rows changes nothing. */
  lemma {:induction false} NoLinesWithoutIsSame(cart: seq<CartLine>, u: Username)
    requires LinesOf(cart, u) == []
    ensures Without(cart, u) == cart
  {
    if cart != [] {
      assert LinesOf(cart[1..], u) == [];
      NoLinesWithoutIsSame(cart[1..], u);
      assert [cart[0]] + cart[1..] == cart;
    }
  }
}
