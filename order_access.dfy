/** The order listing: which orders a caller sees, decided by the group cascade
    (Manager group first, then Delivery group, otherwise the caller's own). */
module OrderAccess {
  import opened Records
  import opened Roles

  function VisibleOrders(orders: map<OrderId, Order>, caller: Username,
                         managers: set<Username>, delivery: set<Username>): (r: map<OrderId, Order>)
    ensures forall k :: k in r ==> k in orders && r[k] == orders[k]
    ensures caller in managers ==> r == orders
    ensures caller !in managers && caller in delivery ==>
              forall k :: k in orders ==> (k in r <==> orders[k].deliveryCrew == Some(caller))
    ensures caller !in managers && caller !in delivery ==>
              forall k :: k in orders ==> (k in r <==> orders[k].user == caller)
  {
    match GroupRoleOf(caller, managers, delivery)
    case ManagerGroup => orders
    case DeliveryGroup => map k | k in orders && orders[k].deliveryCrew == Some(caller) :: orders[k]
    case Customer => map k | k in orders && orders[k].user == caller :: orders[k]
  }

  /** Outside the Manager group nobody sees an order that is neither theirs to
      deliver (Delivery group) nor their own (everybody else). */
  lemma ListingIsRestricted(orders: map<OrderId, Order>, caller: Username,
                               managers: set<Username>, delivery: set<Username>, k: OrderId)
    requires caller !in managers
    requires k in VisibleOrders(orders, caller, managers, delivery)
    ensures caller in delivery ==> orders[k].deliveryCrew == Some(caller)
    ensures caller !in delivery ==> orders[k].user == caller
  {
  }

  /** A customer's new order is listed to them, unchanged, even when the
      customer is a superuser. */
  lemma NewOrderListedToOwner(orders: map<OrderId, Order>, k: OrderId, o: Order,
                               managers: set<Username>, delivery: set<Username>)
    requires o.user !in managers && o.user !in delivery
    ensures k in VisibleOrders(orders[k := o], o.user, managers, delivery)
    ensures VisibleOrders(orders[k := o], o.user, managers, delivery)[k] == o
  {
  }

  /** Changing an order's status (what a Delivery-group PATCH does) changes
      nobody's listing: the same keys are listed to every caller. */
  lemma StatusChangeKeepsListing(orders: map<OrderId, Order>, k: OrderId, s: bool, caller: Username,
                               managers: set<Username>, delivery: set<Username>)
    requires k in orders
    ensures VisibleOrders(orders[k := orders[k].(status := s)], caller, managers, delivery).Keys
            == VisibleOrders(orders, caller, managers, delivery).Keys
  {
  }

  /** Assigning an order to a member of the Delivery group (who is not a
      manager) lists it to them; clearing the crew takes it off their listing. */
  lemma AssignmentListsToCrew(orders: map<OrderId, Order>, k: OrderId, crew: Username,
                               managers: set<Username>, delivery: set<Username>)
    requires k in orders
    requires crew !in managers && crew in delivery
    ensures k in VisibleOrders(orders[k := orders[k].(deliveryCrew := Some(crew))], crew, managers, delivery)
    ensures k !in VisibleOrders(orders[k := orders[k].(deliveryCrew := None)], crew, managers, delivery)
  {
  }
}
