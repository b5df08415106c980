/** The restaurant's store and its endpoints. Each endpoint is one sequential
    method on `Store`; its `modifies` clause names the tables it may write,
    and its postconditions give the reply and the new contents of those tables
    for every branch the view takes. `caller` is the authenticated user of the
    request, by username. */
module Restaurant {
  import opened Records
  import opened Roles
  import opened Ledger
  import opened Catalog
  import opened OrderAccess

  class Store {
    var users: set<Username>
    var superusers: set<Username>
    var managers: set<Username>     // members of the "Manager" group
    var delivery: set<Username>     // members of the "Delivery" group
    var categories: map<CategoryId, string>
    var menu: map<ItemId, MenuItem>
    var cart: seq<CartLine>
    var orders: map<OrderId, Order>
    var nextOrderId: OrderId        // the key the next created order receives
    var orderItems: seq<OrderItem>

    /** The store's integrity: group members and superusers are users; every
        cart row and order item names a menu item and was priced as unit price
        times quantity; every menu item names a category; order keys are below
        the next key. */
    ghost predicate Valid()
      reads this
    {
      GroupsValid() && RowsValid() && MenuValid() && OrdersValid()
    }

    ghost predicate GroupsValid()
      reads this`users, this`superusers, this`managers, this`delivery
    {
      managers <= users && delivery <= users && superusers <= users
    }

    ghost predicate RowsValid()
      reads this`cart, this`orderItems, this`menu
    {
      && (forall l :: l in cart ==> l.menuitem in menu && LinePriced(l))
      && (forall i :: i in orderItems ==> i.menuitem in menu && ItemPriced(i))
    }

    ghost predicate MenuValid()
      reads this`menu, this`categories
    {
      forall k :: k in menu ==> menu[k].category in categories
    }

    ghost predicate OrdersValid()
      reads this`orders, this`nextOrderId
    {
      forall k :: k in orders ==> k < nextOrderId
    }

    constructor (users0: set<Username>, superusers0: set<Username>,
                 categories0: map<CategoryId, string>, menu0: map<ItemId, MenuItem>)
      requires superusers0 <= users0
      requires forall k :: k in menu0 ==> menu0[k].category in categories0
      ensures Valid()
      ensures users == users0 && superusers == superusers0
      ensures categories == categories0 && menu == menu0
      ensures managers == {} && delivery == {}
      ensures cart == [] && orders == map[] && orderItems == [] && nextOrderId == 1
    {
      users, superusers := users0, superusers0;
      managers, delivery := {}, {};
      categories, menu := categories0, menu0;
      cart, orders, orderItems := [], map[], [];
      nextOrderId := 1;
    }

    // ---------------------------------------------------------------- cart

    /** GET on the cart: the caller's rows. */
    method ListCart(caller: Username) returns (lines: seq<CartLine>)
      ensures lines == LinesOf(cart, caller)
      ensures forall l :: l in lines <==> l in cart && l.user == caller
    {
      lines := LinesOf(cart, caller);
      forall l ensures l in lines <==> l in cart && l.user == caller {
        InLinesOf(cart, caller, l);
      }
    }

    /** POST on the cart: one new row for the caller, priced from the menu
        item found by title; never merged with an existing row. */
    method AddToCart(caller: Username, title: Option<string>, quantity: Option<int>) returns (resp: Reply)
      requires Valid()
      modifies this`cart
      ensures Valid()
      ensures caller !in users || title.None? || quantity.None? || |TitleMatches(menu, title.value)| != 1 ==>
                resp == ServerError500 && cart == old(cart)
      ensures caller in users && title.Some? && quantity.Some? && |TitleMatches(menu, title.value)| == 1 ==>
                var k := Only(TitleMatches(menu, title.value));
                && resp == Created201
                && cart == old(cart) + [CartLine(caller, k, quantity.value, menu[k].price, menu[k].price * quantity.value)]
      ensures resp == Created201 ==>
                && LinesOf(cart, caller) == LinesOf(old(cart), caller) + [cart[|cart| - 1]]
                && forall v :: v != caller ==> LinesOf(cart, v) == LinesOf(old(cart), v)
    {
      if caller !in users || title.None? {
        return ServerError500;
      }
      var ks := TitleMatches(menu, title.value);
      if |ks| != 1 || quantity.None? {
        return ServerError500;
      }
      var k :| k in ks;
      SingletonIs(ks, k);
      var unitPrice := menu[k].price;
      var line := CartLine(caller, k, quantity.value, unitPrice, unitPrice * quantity.value);
      LinesOfAppend(cart, line, caller);
      forall v | v != caller ensures LinesOf(cart + [line], v) == LinesOf(cart, v) {
        LinesOfAppend(cart, line, v);
      }
      cart := cart + [line];
      resp := Created201;
    }

    /** DELETE on the cart: deletes the caller's rows one by one. */
    method ClearCart(caller: Username) returns (resp: Reply)
      requires Valid()
      modifies this`cart
      ensures Valid()
      ensures resp == Ok200
      ensures cart == Without(old(cart), caller)
      ensures LinesOf(cart, caller) == []
      ensures forall v :: v != caller ==> LinesOf(cart, v) == LinesOf(old(cart), v)
    {
      ghost var others := Without(cart, caller);
      var rest := LinesOf(cart, caller);
      while rest != []
        invariant LinesOf(cart, caller) == rest
        invariant Without(cart, caller) == others
        invariant forall l :: l in cart ==> l in old(cart)
        decreases |rest|
      {
        cart := DropFirstOf(cart, caller);
        rest := rest[1..];
      }
      NoLinesWithoutIsSame(cart, caller);
      WithoutOnlyTouchesOwner(old(cart), caller);
      resp := Ok200;
    }

    // -------------------------------------------------------------- orders

    /** POST on the orders: turns the caller's cart into order items and one
        new order whose total is the sum of the rows' prices. */
    method Checkout(caller: Username, today: Date) returns (resp: Reply)
      requires Valid()
      modifies this`cart, this`orderItems, this`orders, this`nextOrderId
      ensures Valid()
      ensures resp == Ok200
      ensures old(nextOrderId) !in old(orders) && nextOrderId == old(nextOrderId) + 1
      ensures orders == old(orders)[old(nextOrderId) :=
                Order(caller, None, false, SumPrices(LinesOf(old(cart), caller)), today)]
      ensures orderItems == old(orderItems) + ToOrderItems(LinesOf(old(cart), caller), caller)
      ensures cart == Without(old(cart), caller)
      ensures LinesOf(cart, caller) == []
      ensures forall v :: v != caller ==> LinesOf(cart, v) == LinesOf(old(cart), v)
    {
      var total := MoveLinesToItems(caller);
      WithoutOnlyTouchesOwner(old(cart), caller);
      CreateOrder(Order(caller, None, false, total, today));
      resp := Ok200;
    }

    /** `Order.objects.create`: files `o` under the next key. */
    method CreateOrder(o: Order)
      requires OrdersValid()
      modifies this`orders, this`nextOrderId
      ensures OrdersValid()
      ensures old(nextOrderId) !in old(orders) && nextOrderId == old(nextOrderId) + 1
      ensures orders == old(orders)[old(nextOrderId) := o]
    {
      orders := orders[nextOrderId := o];
      nextOrderId := nextOrderId + 1;
    }

    /** The loop of checkout: for each of the caller's rows, writes an order
        item copying it, adds its price to the total and deletes the row. */
    method MoveLinesToItems(caller: Username) returns (total: Cents)
      requires RowsValid()
      modifies this`cart, this`orderItems
      ensures RowsValid()
      ensures total == SumPrices(LinesOf(old(cart), caller))
      ensures orderItems == old(orderItems) + ToOrderItems(LinesOf(old(cart), caller), caller)
      ensures cart == Without(old(cart), caller)
    {
      ghost var mine := LinesOf(cart, caller);
      ghost var others := Without(cart, caller);
      var rest := LinesOf(cart, caller);
      total := 0;
      while rest != []
        invariant LinesOf(cart, caller) == rest
        invariant Without(cart, caller) == others
        invariant forall l :: l in cart ==> l in old(cart)
        invariant orderItems + ToOrderItems(rest, caller) == old(orderItems) + ToOrderItems(mine, caller)
        invariant total + SumPrices(rest) == SumPrices(mine)
        invariant forall i :: i in orderItems ==> i.menuitem in menu && ItemPriced(i)
        decreases |rest|
      {
        var line := rest[0];
        InLinesOf(cart, caller, line);
        var item := CopyOf(line, caller);
        assert orderItems + [item] + ToOrderItems(rest[1..], caller) == orderItems + ToOrderItems(rest, caller);
        orderItems := orderItems + [item];
        total := total + line.price;
        cart := DropFirstOf(cart, caller);
        rest := rest[1..];
      }
      NoLinesWithoutIsSame(cart, caller);
    }

    /** GET on the orders: every order for a Manager-group member, the orders
        assigned to the caller for a Delivery-group member, otherwise the
        caller's own orders. */
    method ListOrders(caller: Username) returns (r: map<OrderId, Order>)
      ensures r == VisibleOrders(orders, caller, managers, delivery)
      ensures forall k :: k in r ==> k in orders && r[k] == orders[k]
      ensures caller in managers ==> r == orders
    {
      r := VisibleOrders(orders, caller, managers, delivery);
    }

    /** GET on one order: fetched for any caller; an unknown key is an
        uncaught lookup failure. */
    method GetOrder(caller: Username, id: OrderId) returns (resp: Reply, o: Option<Order>)
      ensures id in orders ==> resp == Ok200 && o == Some(orders[id])
      ensures id !in orders ==> resp == ServerError500 && o == None
    {
      if id !in orders {
        return ServerError500, None;
      }
      resp, o := Ok200, Some(orders[id]);
    }

    /** PUT on one order, by a Manager-group member: both fields must be
        supplied. The request's `delivery_crew` is assigned to the foreign key
        as it comes, and Django refuses any value but null there, so only a
        null crew gets as far as the save; any other value is an exception and
        nothing is saved. Anyone outside the Manager group is refused. */
    method PutOrder(caller: Username, id: OrderId, crew: Option<Option<Username>>, status: Option<bool>)
      returns (resp: Reply)
      requires Valid()
      modifies this`orders
      ensures Valid()
      ensures id !in old(orders) ==> resp == ServerError500 && orders == old(orders)
      ensures id in old(orders) && caller !in managers ==> resp == Forbidden403 && orders == old(orders)
      ensures id in old(orders) && caller in managers && (crew != Some(None) || status.None?) ==>
                resp == ServerError500 && orders == old(orders)
      ensures id in old(orders) && caller in managers && crew == Some(None) && status.Some? ==>
                && resp == Ok200
                && orders == old(orders)[id := old(orders)[id].(deliveryCrew := None, status := status.value)]
      ensures orders.Keys == old(orders).Keys
      ensures forall k :: k in orders ==>
                && orders[k].user == old(orders)[k].user
                && orders[k].total == old(orders)[k].total
                && orders[k].date == old(orders)[k].date
                && (orders[k].deliveryCrew == old(orders)[k].deliveryCrew || orders[k].deliveryCrew == None)
    {
      if id !in orders {
        return ServerError500;
      }
      if caller !in managers {
        return Forbidden403;
      }
      if crew.None? || crew.value.Some? || status.None? {
        return ServerError500;
      }
      orders := orders[id := orders[id].(deliveryCrew := None, status := status.value)];
      resp := Ok200;
    }

    /** PATCH on one order. For a Manager-group member, a truthy
        `delivery_crew` is assigned to the foreign key as it comes, which
        Django refuses, so nothing is saved; otherwise the status is set when
        supplied and truthy. A Delivery-group member sets the status, which
        must be supplied. Anyone else is refused. */
    method PatchOrder(caller: Username, id: OrderId, crew: Option<Username>, status: Option<bool>)
      returns (resp: Reply)
      requires Valid()
      modifies this`orders
      ensures Valid()
      ensures id !in old(orders) ==> resp == ServerError500 && orders == old(orders)
      ensures id in old(orders) && caller in managers && GivenText(crew) ==>
                resp == ServerError500 && orders == old(orders)
      ensures id in old(orders) && caller in managers && !GivenText(crew) ==>
                var o := old(orders)[id];
                && resp == Ok200
                && orders == old(orders)[id := o.(status := if GivenFlag(status) then true else o.status)]
      ensures id in old(orders) && caller !in managers && caller in delivery && status.None? ==>
                resp == ServerError500 && orders == old(orders)
      ensures id in old(orders) && caller !in managers && caller in delivery && status.Some? ==>
                resp == Ok200 && orders == old(orders)[id := old(orders)[id].(status := status.value)]
      ensures id in old(orders) && caller !in managers && caller !in delivery ==>
                resp == Forbidden403 && orders == old(orders)
      ensures orders.Keys == old(orders).Keys
      ensures forall k :: k in orders ==>
                && orders[k].user == old(orders)[k].user
                && orders[k].total == old(orders)[k].total
                && orders[k].date == old(orders)[k].date
                && orders[k].deliveryCrew == old(orders)[k].deliveryCrew
    {
      if id !in orders {
        return ServerError500;
      }
      var o := orders[id];
      if caller in managers {
        if GivenText(crew) {
          return ServerError500;
        }
        if GivenFlag(status) {
          o := o.(status := true);
        }
        orders := orders[id := o];
        resp := Ok200;
      } else if caller in delivery {
        if status.None? {
          return ServerError500;
        }
        orders := orders[id := o.(status := status.value)];
        resp := Ok200;
      } else {
        resp := Forbidden403;
      }
    }

    /** DELETE on one order: only a Manager-group member removes it. */
    method DeleteOrder(caller: Username, id: OrderId) returns (resp: Reply)
      requires Valid()
      modifies this`orders
      ensures Valid()
      ensures id !in old(orders) ==> resp == ServerError500 && orders == old(orders)
      ensures id in old(orders) && caller !in managers ==> resp == Forbidden403 && orders == old(orders)
      ensures id in old(orders) && caller in managers ==> resp == Ok200 && orders == old(orders) - {id}
    {
      if id !in orders {
        return ServerError500;
      }
      if caller !in managers {
        return Forbidden403;
      }
      orders := orders - {id};
      resp := Ok200;
    }

    // ------------------------------------------------------------ featured

    /** GET on the featured items: exactly the items whose flag is set. */
    method ListFeatured() returns (items: map<ItemId, MenuItem>)
      ensures items.Keys == FeaturedIds(menu)
      ensures forall k :: k in items ==> items[k] == menu[k] && items[k].featured
    {
      items := map k | k in menu && menu[k].featured :: menu[k];
    }

    /** POST on the featured items, by a manager: clears every featured flag,
        then sets the flag of the one item with the given title. The flags
        stay cleared when the title is missing, empty or not found. */
    method SetFeatured(caller: Username, title: Option<string>) returns (resp: Reply)
      requires Valid()
      modifies this`menu
      ensures Valid()
      ensures !IsManager(caller, superusers, managers) ==> resp == BadRequest400 && menu == old(menu)
      ensures IsManager(caller, superusers, managers) && title.None? ==>
                resp == ServerError500 && menu == Unfeatured(old(menu))
      ensures IsManager(caller, superusers, managers) && title == Some("") ==>
                resp == BadRequest400 && menu == Unfeatured(old(menu))
      ensures IsManager(caller, superusers, managers) && GivenText(title)
              && |TitleMatches(old(menu), title.value)| != 1 ==>
                resp == ServerError500 && menu == Unfeatured(old(menu))
      ensures IsManager(caller, superusers, managers) && GivenText(title)
              && |TitleMatches(old(menu), title.value)| == 1 ==>
                resp == Ok200 && menu == FeatureOnly(old(menu), Only(TitleMatches(old(menu), title.value)))
    {
      if !IsManager(caller, superusers, managers) {
        return BadRequest400;
      }
      ClearFeatured();
      if title.None? {
        return ServerError500;
      }
      if title.value == "" {
        return BadRequest400;
      }
      var ks := TitleMatches(menu, title.value);
      UnfeaturedKeepsTitles(old(menu), title.value);
      if |ks| != 1 {
        return ServerError500;
      }
      var k :| k in ks;
      SingletonIs(ks, k);
      menu := menu[k := menu[k].(featured := true)];
      resp := Ok200;
    }

    /** The first step of that POST: clears the flag of each featured item in turn. */
    method ClearFeatured()
      modifies this`menu
      ensures menu == Unfeatured(old(menu))
    {
      var current := set k | k in menu && menu[k].featured;
      var todo := current;
      while todo != {}
        invariant todo <= current
        invariant menu.Keys == old(menu).Keys
        invariant forall k :: k in menu ==>
                    menu[k] == if k in current - todo then old(menu)[k].(featured := false) else old(menu)[k]
        decreases todo
      {
        var k :| k in todo;
        menu := menu[k := menu[k].(featured := false)];
        todo := todo - {k};
      }
    }

    // -------------------------------------------------------------- groups

    /** GET on the Manager group: its members, to a manager only. */
    method ListManagers(caller: Username) returns (resp: Reply, members: set<Username>)
      ensures IsManager(caller, superusers, managers) ==> resp == Ok200 && members == managers
      ensures !IsManager(caller, superusers, managers) ==> resp == Forbidden403 && members == {}
    {
      if !IsManager(caller, superusers, managers) {
        return Forbidden403, {};
      }
      resp, members := Ok200, managers;
    }

    /** POST on the Manager group: a manager adds an existing user. */
    method AddManager(caller: Username, username: Option<Username>) returns (resp: Reply)
      requires Valid()
      modifies this`managers
      ensures Valid()
      ensures !IsManager(caller, old(superusers), old(managers)) ==> resp == Forbidden403 && managers == old(managers)
      ensures IsManager(caller, old(superusers), old(managers)) && username.None? ==>
                resp == ServerError500 && managers == old(managers)
      ensures IsManager(caller, old(superusers), old(managers)) && username.Some? && username.value !in users ==>
                resp == NotFound404 && managers == old(managers)
      ensures IsManager(caller, old(superusers), old(managers)) && username.Some? && username.value in users ==>
                resp == Ok200 && managers == old(managers) + {username.value}
    {
      if !IsManager(caller, superusers, managers) {
        return Forbidden403;
      }
      if username.None? {
        return ServerError500;
      }
      if username.value !in users {
        return NotFound404;
      }
      managers := managers + {username.value};
      resp := Ok200;
    }

    /** DELETE on the Manager group: a manager removes an existing user. */
    method RemoveManager(caller: Username, username: Option<Username>) returns (resp: Reply)
      requires Valid()
      modifies this`managers
      ensures Valid()
      ensures !IsManager(caller, old(superusers), old(managers)) ==> resp == Forbidden403 && managers == old(managers)
      ensures IsManager(caller, old(superusers), old(managers)) && username.None? ==>
                resp == ServerError500 && managers == old(managers)
      ensures IsManager(caller, old(superusers), old(managers)) && username.Some? && username.value !in users ==>
                resp == NotFound404 && managers == old(managers)
      ensures IsManager(caller, old(superusers), old(managers)) && username.Some? && username.value in users ==>
                resp == Ok200 && managers == old(managers) - {username.value}
    {
      if !IsManager(caller, superusers, managers) {
        return Forbidden403;
      }
      if username.None? {
        return ServerError500;
      }
      if username.value !in users {
        return NotFound404;
      }
      managers := managers - {username.value};
      resp := Ok200;
    }

    /** POST or DELETE on delivery assignments, by a manager. With an order key
        it sets (POST) or clears (DELETE) that order's delivery crew, after
        looking up the order and the named user; with only a username it adds
        the user to (POST) or removes them from (DELETE) the Delivery group. */
    method AssignDelivery(caller: Username, verb: Verb, order: Option<OrderId>, username: Option<Username>)
      returns (resp: Reply)
      requires Valid()
      modifies this`orders, this`delivery
      ensures Valid()
      ensures !IsManager(caller, superusers, managers) ==>
                resp == BadRequest400 && orders == old(orders) && delivery == old(delivery)
      ensures IsManager(caller, superusers, managers) && GivenAmount(order) ==> delivery == old(delivery)
      ensures IsManager(caller, superusers, managers) && GivenAmount(order)
              && (username.None? || order.value !in old(orders) || username.value !in users) ==>
                resp == ServerError500 && orders == old(orders)
      ensures IsManager(caller, superusers, managers) && GivenAmount(order)
              && username.Some? && order.value in old(orders) && username.value in users ==>
                && resp == Ok200
                && orders == old(orders)[order.value := old(orders)[order.value].(deliveryCrew :=
                                           if verb == Post then Some(username.value) else None)]
      ensures IsManager(caller, superusers, managers) && !GivenAmount(order) ==> orders == old(orders)
      ensures IsManager(caller, superusers, managers) && !GivenAmount(order) && !GivenText(username) ==>
                resp == ServerError500 && delivery == old(delivery)
      ensures IsManager(caller, superusers, managers) && !GivenAmount(order) && GivenText(username)
              && username.value !in users ==>
                resp == NotFound404 && delivery == old(delivery)
      ensures IsManager(caller, superusers, managers) && !GivenAmount(order) && GivenText(username)
              && username.value in users ==>
                && resp == Ok200
                && delivery == if verb == Post then old(delivery) + {username.value}
                               else old(delivery) - {username.value}
    {
      if !IsManager(caller, superusers, managers) {
        return BadRequest400;
      }
      if GivenAmount(order) {
        if username.None? || order.value !in orders || username.value !in users {
          return ServerError500;
        }
        var crew := if verb == Post then Some(username.value) else None;
        orders := orders[order.value := orders[order.value].(deliveryCrew := crew)];
        resp := Ok200;
      } else if GivenText(username) {
        if username.value !in users {
          return NotFound404;
        }
        if verb == Post {
          delivery := delivery + {username.value};
        } else {
          delivery := delivery - {username.value};
        }
        resp := Ok200;
      } else {
        resp := ServerError500;
      }
    }

    // ---------------------------------------------------------- menu items

    /** `save()` on a menu item that exists, with a category that exists. */
    method SaveItem(pk: ItemId, item: MenuItem)
      requires Valid()
      requires pk in menu && item.category in categories
      modifies this`menu
      ensures Valid()
      ensures menu == old(menu)[pk := item]
    {
      menu := menu[pk := item];
    }

    /** PATCH on one menu item: changes each supplied, truthy field and no
        other. A category is looked up by title; when that lookup fails, or
        the item does not exist, nothing is saved. */
    method PatchMenuItem(pk: ItemId, title: Option<string>, price: Option<Cents>,
                         featured: Option<bool>, category: Option<string>) returns (resp: Reply)
      requires Valid()
      modifies this`menu
      ensures Valid()
      ensures menu.Keys == old(menu).Keys
      ensures pk !in old(menu) ==> resp == ServerError500 && menu == old(menu)
      ensures pk in old(menu) && GivenText(category) && |CategoryMatches(categories, category.value)| != 1 ==>
                resp == ServerError500 && menu == old(menu)
      ensures pk in old(menu) && !(GivenText(category) && |CategoryMatches(categories, category.value)| != 1) ==>
                var m := old(menu)[pk];
                && resp == Ok200
                && menu == old(menu)[pk := menu[pk]]
                && menu[pk].title == (if GivenText(title) then title.value else m.title)
                && menu[pk].price == (if GivenAmount(price) then price.value else m.price)
                && menu[pk].featured == (GivenFlag(featured) || m.featured)
                && (GivenText(category) ==> menu[pk].category == Only(CategoryMatches(categories, category.value)))
                && (!GivenText(category) ==> menu[pk].category == m.category)
      ensures resp == Ok200 ==>
                FeaturedIds(menu) == FeaturedIds(old(menu)) + (if GivenFlag(featured) then {pk} else {})
    {
      if pk !in menu {
        return ServerError500;
      }
      var m := menu[pk];
      // The category lookup fails before anything is saved, so it may come first.
      var c := m.category;
      if GivenText(category) {
        var cs := CategoryMatches(categories, category.value);
        if |cs| != 1 {
          return ServerError500;
        }
        c :| c in cs;
        SingletonIs(cs, c);
      }
      var item := MenuItem(if GivenText(title) then title.value else m.title,
                           if GivenAmount(price) then price.value else m.price,
                           GivenFlag(featured) || m.featured,
                           c);
      SaveChangesOneFlag(menu, pk, item);
      SaveItem(pk, item);
      resp := Ok200;
    }
  }
}

/** The checkout scenario: a row of item A (10.00, quantity 2) and a row of
    item B (5.00, quantity 1) become one order of 25.00 and two order items,
    and the cart is empty afterwards. */
module Scenarios {
  import opened Records
  import opened Ledger
  import opened Catalog
  import opened Restaurant

  function ScenarioRows(): seq<CartLine> {
    [CartLine("alice", 1, 2, 1000, 2000), CartLine("alice", 2, 1, 500, 500)]
  }

  /** One POST of A with quantity 2 and one of B with quantity 1 price each
      row from the menu. */
  method FillCart() returns (s: Store)
    ensures fresh(s) && s.Valid()
    ensures s.cart == ScenarioRows() && s.orders == map[] && s.nextOrderId == 1 && s.orderItems == []
  {
    var menu := map[1 := MenuItem("A", 1000, false, 7), 2 := MenuItem("B", 500, false, 7)];
    s := new Store({"alice"}, {}, map[7 := "Mains"], menu);
    assert TitleMatches(menu, "A") == {1};
    assert TitleMatches(menu, "B") == {2};
    var r := s.AddToCart("alice", Some("A"), Some(2));
    assert s.cart == [CartLine("alice", 1, 2, 1000, 2000)];
    r := s.AddToCart("alice", Some("B"), Some(1));
    assert s.cart == ScenarioRows();
  }

  /** Checking out that cart files one order of 25.00 with two order items,
      and the cart is empty afterwards. */
  method CheckoutScenario(today: Date) returns (resp: Reply, order: Order, items: seq<OrderItem>, left: seq<CartLine>)
    ensures resp == Ok200
    ensures order == Order("alice", None, false, 2500, today)
    ensures items == [OrderItem("alice", 1, 2, 1000, 2000), OrderItem("alice", 2, 1, 500, 500)]
    ensures left == []
  {
    var s := FillCart();
    var rows := ScenarioRows();
    AllOwned(rows, "alice");
    assert rows[1..][1..] == [];
    assert SumPrices(rows) == 2500;
    var copies := ToOrderItems(rows, "alice");
    assert copies == [OrderItem("alice", 1, 2, 1000, 2000), OrderItem("alice", 2, 1, 500, 500)];
    resp := s.Checkout("alice", today);
    order := s.orders[1];
    items := s.orderItems;
    left := s.ListCart("alice");
  }
}
