/** Who counts as a manager or as delivery crew. `IsManager` and `IsDelivery`
    are the two helper predicates of the views; `GroupRoleOf` is the cascade the
    order endpoints use instead, which looks at group membership only: Manager
    group first, then Delivery group, otherwise a customer. */
module Roles {
  import opened Records

  predicate IsManager(u: Username, superusers: set<Username>, managers: set<Username>) {
    u in managers || u in superusers
  }

  predicate IsDelivery(u: Username, superusers: set<Username>, delivery: set<Username>) {
    u in delivery || u in superusers
  }

  datatype GroupRole = ManagerGroup | DeliveryGroup | Customer

  function GroupRoleOf(u: Username, managers: set<Username>, delivery: set<Username>): GroupRole {
    if u in managers then ManagerGroup
    else if u in delivery then DeliveryGroup
    else Customer
  }

  /** The order endpoints' group check agrees with `IsManager` except on
      superusers outside the Manager group, and it tries Manager before Delivery.
      The last two clauses only summarise the Delivery and customer branches. */
  lemma GroupCascade(u: Username, superusers: set<Username>, managers: set<Username>, delivery: set<Username>)
    ensures GroupRoleOf(u, managers, delivery) == ManagerGroup ==> IsManager(u, superusers, managers)
    ensures IsManager(u, superusers, managers) && u !in superusers ==> GroupRoleOf(u, managers, delivery) == ManagerGroup
    ensures u in managers && u in delivery ==> GroupRoleOf(u, managers, delivery) == ManagerGroup
    ensures GroupRoleOf(u, managers, delivery) == DeliveryGroup <==> u !in managers && u in delivery
    ensures GroupRoleOf(u, managers, delivery) == Customer <==> u !in managers && u !in delivery
  {
  }

  /** A superuser outside the Manager group passes `IsManager` but is not a
      manager to the order endpoints. */
  lemma SuperuserOutsideGroups(u: Username, superusers: set<Username>, managers: set<Username>, delivery: set<Username>)
    requires u in superusers && u !in managers
    ensures IsManager(u, superusers, managers)
    ensures GroupRoleOf(u, managers, delivery) != ManagerGroup
  {
  }

  /** Adding a user to the Manager group makes them a manager everywhere;
      removing them leaves `IsManager` holding only for a superuser. */
  lemma GrantAndRevoke(u: Username, superusers: set<Username>, managers: set<Username>, delivery: set<Username>)
    ensures IsManager(u, superusers, managers + {u})
    ensures GroupRoleOf(u, managers + {u}, delivery) == ManagerGroup
    ensures IsManager(u, superusers, managers - {u}) <==> u in superusers
    ensures GroupRoleOf(u, managers - {u}, delivery) != ManagerGroup
  {
  }
}
