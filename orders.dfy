/**
  An order: the drinks a customer has chosen, in the order they were added,
  with the tax and the total computed from their prices on demand.
 */
module Orders {
  import opened Wrappers
  import opened Catalogue
  import opened Drinks

  /** The flat sales tax, 7.5%. */
  const TAX_RATE: real := 0.075

  /** What a caller may pass to AddItem: a drink, or any other value. */
  datatype Item = DrinkItem(drink: Drink) | NotADrink

  /** The sum of the prices of the drinks; every drink costs between MIN_PRICE and MAX_PRICE. */
  function Subtotal(ds: seq<Drink>): (r: real)
    ensures |ds| as real * MIN_PRICE <= r <= |ds| as real * MAX_PRICE
  {
    if ds == [] then 0.0 else ds[0].GetPrice() + Subtotal(ds[1..])
  }

  /** The tax charged item by item; by linearity it is the rate applied to the subtotal. */
  function Tax(ds: seq<Drink>): (t: real)
    ensures t == Subtotal(ds) * TAX_RATE
  {
    if ds == [] then 0.0 else ds[0].GetPrice() * TAX_RATE + Tax(ds[1..])
  }

  lemma {:induction false} SubtotalConcat(a: seq<Drink>, b: seq<Drink>)
    ensures Subtotal(a + b) == Subtotal(a) + Subtotal(b)
  {
    if a != [] {
      assert (a + b)[1..] == a[1..] + b;
      SubtotalConcat(a[1..], b);
    } else {
      assert a + b == b;
    }
  }

  /** Deleting the drink at `i` lowers the subtotal by exactly that drink's price. */
  lemma {:induction false} SubtotalRemove(ds: seq<Drink>, i: nat)
    requires i < |ds|
    ensures Subtotal(ds[..i] + ds[i + 1..]) == Subtotal(ds) - ds[i].GetPrice()
  {
    var front, back := ds[..i], ds[i + 1..];
    assert ds == front + ([ds[i]] + back);
    SubtotalConcat(front, [ds[i]] + back);
    assert ([ds[i]] + back)[1..] == back;
    SubtotalConcat(front, back);
  }

  class Order {
    var items: seq<Drink>

    constructor ()
      ensures items == []
      ensures GetTotalPrice() == 0.0
    {
      items := [];
    }

    /** Appends a drink; anything that is not a drink is silently dropped. */
    method AddItem(item: Item)
      modifies this
      ensures item.DrinkItem? ==> items == old(items) + [item.drink]
      ensures item.NotADrink? ==> items == old(items)
      ensures GetNumItems() == old(GetNumItems()) + (if item.DrinkItem? then 1 else 0)
      ensures GetTotalPrice() ==
              old(GetTotalPrice()) + (if item.DrinkItem? then item.drink.GetPrice() * (1.0 + TAX_RATE) else 0.0)
    {
      if item.DrinkItem? {
        SubtotalConcat(items, [item.drink]);
        items := items + [item.drink];
      }
    }

    /** Deletes the drink at `index`; an index outside the list changes nothing. */
    method RemoveItem(index: int)
      modifies this
      ensures 0 <= index < |old(items)| ==> items == old(items)[..index] + old(items)[index + 1..]
      ensures !(0 <= index < |old(items)|) ==> items == old(items)
      ensures 0 <= index < |old(items)| ==>
              GetNumItems() == old(GetNumItems()) - 1 &&
              GetTotalPrice() == old(GetTotalPrice()) - old(items)[index].GetPrice() * (1.0 + TAX_RATE)
    {
      if 0 <= index < |items| {
        SubtotalRemove(items, index);
        items := items[..index] + items[index + 1..];
      }
    }

    /** The drinks in the order in which they were added. */
    function GetItems(): (r: seq<Drink>)
      reads this
      ensures r == items
    {
      items
    }

    function GetNumItems(): (n: nat)
      reads this
      ensures n == |GetItems()|
    {
      |items|
    }

    /** The tax on the order: 7.5% of each drink's price, summed. */
    function GetTax(): (t: real)
      reads this
      ensures t == Subtotal(items) * TAX_RATE
      ensures |items| as real * MIN_PRICE * TAX_RATE <= t <= |items| as real * MAX_PRICE * TAX_RATE
    {
      Tax(items)
    }

    /** The subtotal plus the tax, which is the subtotal times 1.075. */
    function GetTotalPrice(): (t: real)
      reads this
      ensures t == Subtotal(items) * (1.0 + TAX_RATE)
      ensures t == 0.0 <==> items == []
    {
      Subtotal(items) + GetTax()
    }
  }

  /**
    The order of the unit tests: a medium, a large and a Mega drink, whose
    prices 1.75 + 2.05 + 2.15 = 5.95 come to 6.39625 with tax.
   */
  method ExampleOrderTotal() returns (total: real)
    ensures total == 6.39625
  {
    var r1 := Drink.Create("medium", "pokeacola", Some(["lemon"]));
    var r2 := Drink.Create("large", "sbrite", Some(["strawberry", "blueberry"]));
    var r3 := Drink.Create("Mega", "pokeacola", Some(["mint", "lime"]));
    assert r1.Success? && r2.Success? && r3.Success?;
    var order := new Order();
    order.AddItem(DrinkItem(r1.value));
    order.AddItem(DrinkItem(r2.value));
    order.AddItem(DrinkItem(r3.value));
    total := order.GetTotalPrice();
  }
}
