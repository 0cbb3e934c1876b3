/** The food-order tally that every variant keeps in a `Map<String, Integer>`. */
module FoodOrders {

  /** `orders.getOrDefault(item, 0)`: what has been ordered of `item` so far. */
  function Quantity(orders: map<string, int>, item: string): int
  {
    if item in orders then orders[item] else 0
  }

  /** `orders.put(item, orders.getOrDefault(item, 0) + quantity)`, as a value. */
  function AddItem(orders: map<string, int>, item: string, quantity: int): (r: map<string, int>)
    ensures r.Keys == orders.Keys + {item}
    ensures Quantity(r, item) == Quantity(orders, item) + quantity
    ensures forall other :: other != item ==> Quantity(r, other) == Quantity(orders, other)
  {
    orders[item := Quantity(orders, item) + quantity]
  }

  /** The tally after adding each (item, quantity) pair of `additions` in turn. */
  function AddItems(orders: map<string, int>, additions: seq<(string, int)>): map<string, int>
    decreases |additions|
  {
    if additions == [] then orders
    else AddItems(AddItem(orders, additions[0].0, additions[0].1), additions[1..])
  }

  /** The sum of the quantities that `additions` orders of `item`. */
  function TotalOrdered(additions: seq<(string, int)>, item: string): int
    decreases |additions|
  {
    if additions == [] then 0
    else (if additions[0].0 == item then additions[0].1 else 0) + TotalOrdered(additions[1..], item)
  }

  /** Repeated additions accumulate: each item's final quantity is what it had
      before plus everything ordered of it, whatever else was ordered between. */
  lemma {:induction false} AddItemsAccumulates(orders: map<string, int>, additions: seq<(string, int)>, item: string)
    ensures Quantity(AddItems(orders, additions), item) == Quantity(orders, item) + TotalOrdered(additions, item)
    decreases |additions|
  {
    if additions != [] {
      AddItemsAccumulates(AddItem(orders, additions[0].0, additions[0].1), additions[1..], item);
    }
  }

  /** Two additions commute: the order in which items are added does not matter. */
  lemma AddItemCommutes(orders: map<string, int>, a: string, p: int, b: string, q: int)
    ensures AddItem(AddItem(orders, a, p), b, q) == AddItem(AddItem(orders, b, q), a, p)
  {
  }
}
