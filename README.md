# Little Lemon ordering API — a Dafny model

This project models the order-handling logic of the Little Lemon restaurant
API (`LittleLemonAPI/views.py`) over an in-memory store. The store holds:

- users, superusers and the "Manager" and "Delivery" groups;
- categories and menu items;
- the cart, a ledger of rows kept in store order;
- orders, keyed by id;
- order items, again a ledger.

Each modelled endpoint is a method of `Restaurant.Store`. A method's
`modifies` clause names the tables it writes. Its postconditions give, for
every branch the view takes:

- the HTTP status it answers with;
- the new contents of the tables it writes.

Pure modules specify what the methods compute:

- `Roles`: the `is_manager` and `is_delivery` helpers, and the group cascade
  the order endpoints use instead;
- `Ledger`: filtering, removing and copying cart rows, and summing prices;
- `Catalog`: lookups by title and the featured flags;
- `OrderAccess`: which orders each caller is listed.

Lemmas in those modules relate the operations to each other.

Conventions:

- Money is integer cents. The store's prices are two-decimal amounts.
- A request field is an `Option`. The view's `.get(...)` truthiness test is
  `GivenText`, `GivenAmount` or `GivenFlag`.
- An exception the view does not catch is `ServerError500`. Those are a
  failed `.get(...)` lookup, a missing `request.data[...]` key, assigning a
  request value to a foreign key (views.py:382, 395), and a view that returns
  nothing.
- `get_object_or_404` is `NotFound404`.
- A `.get(title=...)` lookup succeeds only when exactly one row matches.
  `Records.Only` names that row.
- The order items' `order` column receives the user, as the view writes it.
  The model keeps order items as a flat ledger and does not link them to the
  new order's id.
- The list and single-order endpoints test Manager-group membership directly,
  whereas `is_manager` also accepts superusers. The model keeps that
  difference (`Roles.GroupCascade`, `Roles.SuperuserOutsideGroups`).

Where the code behaves differently from what its endpoint names suggest, the
model follows the code:

- Checkout and the featured POST run without a transaction. Checkout of an
  empty cart still creates an order, with total 0.
- The featured POST clears every flag before it reads the title. A missing,
  empty or unmatched title therefore leaves no item featured.
- `single_order` fetches the order before it looks at the method. An unknown
  id gives 500, also on GET, and GET checks no role.
- A Delivery-group PATCH does the following:
  - it ignores `delivery_crew`;
  - it needs the `status` key;
  - it may set the status to false;
  - it is not limited to the caller's own deliveries.
- `single_order` assigns the request's `delivery_crew` to the foreign key as
  it comes. Django accepts only a `User` instance or null there, and a request
  value is never a `User` instance. So a PUT succeeds only with a null crew,
  which clears the crew. A Manager-group PATCH with a truthy crew fails with
  500 and saves nothing. Only `assign_delivery` can set a crew.
- A Manager-group PATCH applies the status only when it is truthy, so a JSON
  `false` cannot set the status to false.
- `assign_delivery` does not check that the assigned user is in the Delivery
  group.

## Model

| member | source | states |
|---|---|---|
| Roles.IsManager | LittleLemonAPI/views.py:447-450 | definition: a member of the Manager group or a superuser |
| Roles.IsDelivery | LittleLemonAPI/views.py:453-456 | definition: a member of the Delivery group or a superuser |
| Roles.GroupRoleOf | LittleLemonAPI/views.py:321-335 | definition: the group test of the order endpoints, Manager group first, then Delivery group, otherwise a customer |
| Roles.GroupCascade | LittleLemonAPI/views.py:321-335 | the order endpoints' check tries the Manager group before the Delivery group; it agrees with `is_manager` for everybody but superusers; its last two clauses only summarise the Delivery and customer branches |
| Roles.SuperuserOutsideGroups | LittleLemonAPI/views.py:447-450 | a superuser outside the Manager group passes `is_manager`, but the group test of the order endpoints at views.py:321 and 381 does not treat them as a manager |
| Roles.GrantAndRevoke | LittleLemonAPI/views.py:144-152 | after being added to the Manager group a user is a manager by both checks; after removal `is_manager` holds only for a superuser, and the group check fails |
| Records.GivenText | LittleLemonAPI/views.py:79-85 | definition: the truth test of a text field read with `.get(...)`: present and not empty (also views.py:255, 290, 394) |
| Records.GivenAmount | LittleLemonAPI/views.py:81 | definition: the truth test of a number field: present and not zero (also views.py:241) |
| Records.GivenFlag | LittleLemonAPI/views.py:83 | definition: the truth test of a boolean field: present and true (also views.py:396) |
| Records.Only | LittleLemonAPI/views.py:107 | the row of a lookup with exactly one match is that set's only member |
| Ledger.LinesOf | LittleLemonAPI/views.py:101 | the `filter(user=...)` of the cart, in store order; never longer than the cart (its members are given by InLinesOf) |
| Ledger.Without | LittleLemonAPI/views.py:119-121 | the rows the caller's deletion loop leaves, in store order; never longer than the cart (its members are given by InWithout) |
| Ledger.InLinesOf | LittleLemonAPI/views.py:101 | a row is among the caller's rows exactly when it is in the cart and owned by the caller |
| Ledger.InWithout | LittleLemonAPI/views.py:119-121 | a row survives the caller's deletion exactly when it is in the cart and not owned by the caller |
| Ledger.DropFirstOf | LittleLemonAPI/views.py:121 | deleting the caller's first remaining row shortens the cart by one and adds no row; the caller keeps the rest of their rows in order; everybody else's rows are unchanged |
| Ledger.SumPrices | LittleLemonAPI/views.py:343-351 | definition: the total checkout accumulates, starting from 0 |
| Ledger.CopyOf | LittleLemonAPI/views.py:346-349 | the order item written for one row; a row priced as unit price times quantity gives an item priced the same way |
| Ledger.ToOrderItems | LittleLemonAPI/views.py:345-349 | checkout writes one order item per row, at the same position, copying menu item, quantity, unit price and price, filed under the user |
| Ledger.TotalMatchesItems | LittleLemonAPI/views.py:351-356 | the order total, the sum of the rows' prices, equals the sum of the prices of the order items written |
| Ledger.LinesOfAppend | LittleLemonAPI/views.py:112-115 | a new row appears last among its owner's rows and leaves every other user's rows as they were |
| Ledger.WithoutKeepsOthers | LittleLemonAPI/views.py:119-121 | removing one user's rows leaves each other user's rows, in order |
| Ledger.WithoutLeavesNone | LittleLemonAPI/views.py:119-121 | removing a user's rows leaves that user none |
| Ledger.WithoutOnlyTouchesOwner | LittleLemonAPI/views.py:119-121 | both: the caller has no rows left and nobody else's rows change |
| Ledger.NoLinesWithoutIsSame | LittleLemonAPI/views.py:120 | the deletion loop can stop when the caller has no rows: removing them then changes nothing |
| Ledger.AllOwned | LittleLemonAPI/views.py:342 | when the caller owns every row, the caller's rows are the whole cart |
| Catalog.TitleMatches | LittleLemonAPI/views.py:107 | definition: the keys of the menu items a `MenuItem.objects.get(title=...)` matches (also views.py:291) |
| Catalog.CategoryMatches | LittleLemonAPI/views.py:86 | definition: the keys of the categories a `Category.objects.get(title=...)` matches |
| Catalog.TitleLookupIsUnique | LittleLemonAPI/views.py:107 | when exactly one item has the title, the lookup returns a menu item with that title, and every item with that title is that one |
| Catalog.CategoryLookupIsUnique | LittleLemonAPI/views.py:86 | the same for a category looked up by title |
| Catalog.FeaturedIds | LittleLemonAPI/views.py:275 | definition: the keys of the items whose featured flag is set |
| Catalog.Unfeatured | LittleLemonAPI/views.py:283-286 | every flag cleared; keys and every other field kept |
| Catalog.FeatureOnly | LittleLemonAPI/views.py:283-293 | after clearing and setting one, an item is featured exactly when it is the chosen one; keys and other fields kept |
| Catalog.ClearedHasNoFeatured | LittleLemonAPI/views.py:283-286 | after clearing, nothing is featured |
| Catalog.ToggleFeaturesExactlyOne | LittleLemonAPI/views.py:283-293 | after a successful toggle the featured set is exactly the chosen item |
| Catalog.UnfeaturedKeepsTitles | LittleLemonAPI/views.py:283-291 | clearing the flags does not change which items a title finds |
| Catalog.FeatureOnlyKeepsTitles | LittleLemonAPI/views.py:291-293 | neither does a toggle |
| Catalog.LastToggleWins | LittleLemonAPI/views.py:283-293 | two toggles in a row leave the menu the second alone leaves |
| Catalog.SaveChangesOneFlag | LittleLemonAPI/views.py:83-87 | saving one item changes the featured set at that item's key only |
| OrderAccess.VisibleOrders | LittleLemonAPI/views.py:317-337 | the listing is a sub-map of the orders: all of them for a Manager-group member; otherwise, for a Delivery-group member, exactly those the caller delivers; otherwise exactly the caller's own |
| OrderAccess.ListingIsRestricted | LittleLemonAPI/views.py:326-334 | outside the Manager group every listed order is the caller's delivery (Delivery group) or the caller's own (others) |
| OrderAccess.NewOrderListedToOwner | LittleLemonAPI/views.py:333-334 | a customer's new order appears in their listing unchanged |
| OrderAccess.StatusChangeKeepsListing | LittleLemonAPI/views.py:401-404 | changing an order's status changes no caller's listing |
| OrderAccess.AssignmentListsToCrew | LittleLemonAPI/views.py:246-253 | assigning an order to a Delivery-group member lists it to them; clearing the crew removes it from their listing |
| Restaurant.Store.ListCart | LittleLemonAPI/views.py:100-103 | the caller's rows, in store order, and exactly those |
| Restaurant.Store.AddToCart | LittleLemonAPI/views.py:105-116 | unknown user, missing title or quantity, or not exactly one titled item: 500 and no change; otherwise 201 and exactly one row appended, priced at the item's price times the quantity, with every existing row kept and other users' rows unchanged |
| Restaurant.Store.ClearCart | LittleLemonAPI/views.py:118-122 | 200; the cart is what remains after removing the caller's rows; the caller has none; every other user's rows are unchanged |
| Restaurant.Store.Checkout | LittleLemonAPI/views.py:339-359 | 200; one new order under a fresh key, for the caller, with no crew, not delivered, dated today, totalling the caller's row prices (0 for an empty cart); one order item per row; the caller's cart emptied and others' untouched |
| Restaurant.Store.MoveLinesToItems | LittleLemonAPI/views.py:343-353 | the loop: the running total is the sum of the caller's row prices, the order items written are their copies in order, and only the caller's rows are deleted |
| Restaurant.Store.CreateOrder | LittleLemonAPI/views.py:355-358 | files the order under the next key, which was unused |
| Restaurant.Store.ListOrders | LittleLemonAPI/views.py:317-337 | the role-filtered listing |
| Restaurant.Store.GetOrder | LittleLemonAPI/views.py:374-378 | any caller gets a known order with 200; an unknown id gives 500 |
| Restaurant.Store.PutOrder | LittleLemonAPI/views.py:380-390 | unknown id 500; outside the Manager group 403 and no change; a missing field or a non-null crew 500 and no change; otherwise 200 with the crew cleared and the status set, and nothing else changed; no PUT gives an order a non-null crew it did not have |
| Restaurant.Store.PatchOrder | LittleLemonAPI/views.py:392-409 | unknown id 500; for a Manager-group member, a truthy crew gives 500 and no change, otherwise 200 with the status set to true when it is supplied and truthy; a Delivery-group member sets the status, which must be supplied, else 500; others get 403; no PATCH changes user, total, date or crew |
| Restaurant.Store.DeleteOrder | LittleLemonAPI/views.py:411-415 | unknown id 500; outside the Manager group 403 and no change; otherwise exactly that order removed |
| Restaurant.Store.ListFeatured | LittleLemonAPI/views.py:274-277 | exactly the featured items, as stored |
| Restaurant.Store.SetFeatured | LittleLemonAPI/views.py:279-296 | a non-manager gets 400 and no change; a manager's POST clears all flags; then a missing title gives 500, an empty one 400, a title without exactly one match 500, and a title with one match 200 with exactly that item featured |
| Restaurant.Store.ClearFeatured | LittleLemonAPI/views.py:283-286 | the clearing loop leaves the cleared menu |
| Restaurant.Store.ListManagers | LittleLemonAPI/views.py:134-142 | a manager gets the Manager group's members; anyone else 403 |
| Restaurant.Store.AddManager | LittleLemonAPI/views.py:134-147 | a non-manager 403; a missing name 500; an unknown user 404; otherwise the user joins the group; nothing changes on failure |
| Restaurant.Store.RemoveManager | LittleLemonAPI/views.py:134-152 | the same checks; otherwise the user leaves the group |
| Restaurant.Store.AssignDelivery | LittleLemonAPI/views.py:237-263 | a non-manager 400 and no change; with a truthy order id, a missing name, unknown order or unknown user gives 500, otherwise POST sets and DELETE clears that order's crew; otherwise with a truthy name, an unknown user gives 404, otherwise POST adds the user to and DELETE removes them from the Delivery group; with neither, 500; each branch leaves the other table alone |
| Restaurant.Store.SaveItem | LittleLemonAPI/views.py:87 | `save()` on an existing item writes that item and keeps the store consistent |
| Restaurant.Store.PatchMenuItem | LittleLemonAPI/views.py:77-88 | unknown key 500; a category title without exactly one match 500 with nothing saved; otherwise 200, only that item changes, and each of its fields changes exactly when the request supplies a truthy value; a truthy `featured` adds the item to the featured set without clearing the others, and otherwise the featured set is unchanged |
| Scenarios.FillCart | LittleLemonAPI/views.py:105-116 | one POST of A with quantity 2 and one of B with quantity 1 give the rows priced 20.00 and 5.00 |
| Scenarios.CheckoutScenario | LittleLemonAPI/views.py:339-359 | checking out that cart answers 200, files the order of 25.00 for the user with no crew and not delivered, writes exactly the two copied order items, and leaves the user's cart empty |

## Left out

- `LittleLemonAPI/serializers.py` and `LittleLemonAPI/urls.py`: field lists and routing, with no logic. Responses other than listings are reduced to their status codes. The list endpoints (`ListCart`, `ListOrders`, `ListFeatured`) return their rows, and their implied 200 is left out.
- Throttling, `CustomPagination`, and the filtering, ordering and search declarations: framework behaviour. The order listing is modelled before pagination.
- Authentication, the JWT views, `register_user` and `login_user`: the caller is given as an authenticated username.
- `MenuItemViewSet.post` and `put`, and the POST of `CategoriesView`: serializer validation decides their behaviour, and they are not part of this model.
- `MenuItemViewSet.delete` (a manager check, a lookup and a delete) and the GET of `CategoriesView` (a plain listing): outside the modelled core.
- `single_manager`, `delivery_crew` and `single_delivery_crew`: not part of this model. `managers` and `assign_delivery` cover the same group add and remove.
- Transactions and concurrency: each endpoint is one sequential method. No rollback is claimed.
- `date.today()` is a parameter of `Checkout`.
- Method dispatch outside the allowed verbs (HTTP 405) is framework behaviour. The cart's final 400 branch is unreachable behind that dispatch.
- `LittleLemonAPI/models.py` is not part of this model. The model assumes that a new order has no crew and is not delivered, and that the crew may be null. It does not model a uniqueness constraint on cart rows or the decimal field widths.
- Restaurant.Store.PutOrder and Restaurant.Store.PatchOrder: a non-null `delivery_crew` is modelled as a username. Any non-null value is refused in the same way, so the username is never used.
- Request values are modelled by type: status as a boolean, price as cents, an order id as a natural number, quantity as an integer. A string such as `"False"`, which is truthy to the views and which Django's boolean field stores as false, is not modelled. Nor is a value Django refuses on save.
- The `print` in checkout (views.py:341) writes to the server's console and is not modelled.
- `Group.objects.get(name=...)` for the Manager or Delivery group is assumed to succeed. The per-request lookups (views.py:138, 258, 371-372, 448, 454) would make those endpoints answer 500 if a group were missing.
- The two lookups in the body of `OrdersViewSet` (views.py:314-315) run when views.py is imported. With a group missing the import fails, and every endpoint fails with it. The model does not cover that case.
- Restaurant.Store.AddToCart: quantity is an integer. A non-numeric quantity, which would make `Decimal` raise, is not modelled.
- `is_delivery` is never called by the views. It is modelled only as `Roles.IsDelivery`.
