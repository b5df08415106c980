/** The rows of the restaurant's store, the request-field conventions of the
    views, and the replies the endpoints give. Money is held in integer cents:
    the store's prices are two-decimal amounts, so cents represent them exactly. */
module Records {

  datatype Option<T> = None | Some(value: T)

  type Username = string
  type ItemId = nat
  type OrderId = nat
  type CategoryId = nat
  type Cents = int

  datatype Date = Date(year: int, month: int, day: int)

  datatype MenuItem = MenuItem(title: string, price: Cents, featured: bool, category: CategoryId)

  /** One cart row; `price` is fixed when the row is created. */
  datatype CartLine = CartLine(user: Username, menuitem: ItemId, quantity: int, unitPrice: Cents, price: Cents)

  /** A row priced as its unit price times its quantity. */
  predicate LinePriced(l: CartLine) {
    l.price == l.unitPrice * l.quantity
  }

  /** `deliveryCrew == None` is a NULL foreign key; `status` false means not delivered. */
  datatype Order = Order(user: Username, deliveryCrew: Option<Username>, status: bool, total: Cents, date: Date)

  /** One order item; its `order` column holds the user who checked out. */
  datatype OrderItem = OrderItem(order: Username, menuitem: ItemId, quantity: int, unitPrice: Cents, price: Cents)

  predicate ItemPriced(i: OrderItem) {
    i.price == i.unitPrice * i.quantity
  }

  /** The HTTP status an endpoint answers with. ServerError500 stands for an
      exception the view does not catch (a failed lookup, a missing key). */
  datatype Reply = Ok200 | Created201 | BadRequest400 | Forbidden403 | NotFound404 | ServerError500

  datatype Verb = Post | Delete

  // A request field read with `.get(...)` and tested for truth: present and not
  // the empty string, zero or false.

  predicate GivenText(field: Option<string>) {
    field.Some? && field.value != ""
  }

  predicate GivenAmount(field: Option<int>) {
    field.Some? && field.value != 0
  }

  predicate GivenFlag(field: Option<bool>) {
    field == Some(true)
  }

  /** A set with one element is the singleton of each of its members. */
  lemma SingletonIs<K>(ks: set<K>, k: K)
    requires |ks| == 1 && k in ks
    ensures ks == {k}
  {
    assert |ks - {k}| == 0;
  }

  /** The one element of a set that has exactly one: what a `.get(...)` lookup
      returns when exactly one row matches. */
  ghost function Only<K>(ks: set<K>): (k: K)
    requires |ks| == 1
    ensures ks == {k}
  {
    var k :| k in ks;
    SingletonIs(ks, k);
    k
  }
}
