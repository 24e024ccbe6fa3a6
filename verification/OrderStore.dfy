/** src/engine/OrderStore.cpp: the live orders of all markets, keyed by order id. */
module OrderStore {
  import opened Domain

  ghost predicate KeyedById(orders: map<Id, Order>) {
    forall k :: k in orders ==> orders[k].id == k && k != NO_ID
  }

  class Store {
    var orders: map<Id, Order>

    ghost predicate Valid()
      reads this
    {
      KeyedById(orders)
    }

    constructor ()
      ensures Valid() && orders == map[]
    {
      orders := map[];
    }

    method Get(id: Id) returns (order: Option<Order>)
      ensures order == if id in orders then Some(orders[id]) else None
    {
      if id in orders {
        return Some(orders[id]);
      }
      return None;
    }

    /** Replaces an order that is present; a missing one is reported, not added. */
    method Update(order: Order) returns (found: bool)
      requires Valid()
      modifies this
      ensures Valid() && found == (order.id in old(orders))
      ensures orders == if found then old(orders)[order.id := order] else old(orders)
    {
      if order.id !in orders {
        return false;
      }
      orders := orders[order.id := order];
      return true;
    }

    method Upsert(order: Order)
      requires Valid()
      modifies this
      ensures Valid()
      ensures orders == if order.id == NO_ID then old(orders) else old(orders)[order.id := order]
    {
      if order.id == NO_ID {
        return;
      }
      orders := orders[order.id := order];
    }

    method Erase(id: Id) returns (found: bool)
      requires Valid()
      modifies this
      ensures Valid() && found == (id in old(orders))
      ensures orders == old(orders) - {id}
    {
      if id !in orders {
        return false;
      }
      orders := orders - {id};
      return true;
    }
  }
}
