/**
 * The server's catalog: the fixed list of items in stock, and the
 * first-match lookup of an item by name.
 */
module Catalog {
  import opened Wrappers

  /** An item in stock (the `Item` message): a name and a unit price. */
  datatype Item = Item(itemName: string, price: int)

  /** Some entry of `items` carries the name `name`. */
  predicate HasItem(items: seq<Item>, name: string)
  {
    exists i | 0 <= i < |items| :: items[i].itemName == name
  }

  /** No two entries share a name: the name is the catalog's key. */
  predicate NamesDistinct(items: seq<Item>)
  {
    forall i, j | 0 <= i < j < |items| :: items[i].itemName != items[j].itemName
  }

  /** Every unit price is non-negative. */
  predicate PricesNonNegative(items: seq<Item>)
  {
    forall i | 0 <= i < |items| :: items[i].price >= 0
  }

  /** The list the service builds once, at construction (`getAllItems`). */
  function AllItems(): (r: seq<Item>)
    ensures |r| == 3
    ensures NamesDistinct(r)
    ensures PricesNonNegative(r)
  {
    [ Item("Pineapple", 100),
      Item("Oranges", 20),
      Item("Banana", 10) ]
  }

  /** The position of the first entry named `name`, if there is one. */
  function FirstIndex(items: seq<Item>, name: string): (r: Option<nat>)
    ensures r.Some? ==> r.value < |items| && items[r.value].itemName == name
    ensures r.Some? ==> forall j | 0 <= j < r.value :: items[j].itemName != name
    ensures r.None? ==> forall j | 0 <= j < |items| :: items[j].itemName != name
  {
    if items == [] then None
    else if items[0].itemName == name then Some(0)
    else match FirstIndex(items[1..], name)
      case None => None
      case Some(i) => Some(i + 1)
  }

  /**
   * `items.FirstOrDefault(item => item.ItemName.Equals(name))`: the first
   * entry whose name equals `name`, or None (null) when there is none.
   */
  function FindItem(items: seq<Item>, name: string): (r: Option<Item>)
    ensures r.Some? <==> HasItem(items, name)
    ensures r.Some? ==> r.value.itemName == name
  {
    match FirstIndex(items, name)
    case None => None
    case Some(i) => Some(items[i])
  }

  /** The unit price the catalog gives a name that it holds. */
  function UnitPrice(items: seq<Item>, name: string): (p: int)
    requires HasItem(items, name)
    ensures PricesNonNegative(items) ==> p >= 0
  {
    FindItem(items, name).value.price
  }

  /** The lookup returns the first entry with the requested name, whatever follows it. */
  lemma FindItemIsFirst(items: seq<Item>, name: string, i: nat)
    requires i < |items| && items[i].itemName == name
    requires forall j | 0 <= j < i :: items[j].itemName != name
    ensures FindItem(items, name) == Some(items[i])
  {
  }

  /** In a catalog with distinct names, every entry is found by its own name. */
  lemma FindItemDistinct(items: seq<Item>, i: nat)
    requires NamesDistinct(items)
    requires i < |items|
    ensures FindItem(items, items[i].itemName) == Some(items[i])
    ensures UnitPrice(items, items[i].itemName) == items[i].price
  {
  }

  /** What the server's catalog answers for the three fruits, and for anything else. */
  lemma CatalogPrices(name: string)
    ensures FindItem(AllItems(), "Pineapple") == Some(Item("Pineapple", 100))
    ensures FindItem(AllItems(), "Oranges") == Some(Item("Oranges", 20))
    ensures FindItem(AllItems(), "Banana") == Some(Item("Banana", 10))
    ensures name != "Pineapple" && name != "Oranges" && name != "Banana" ==>
              FindItem(AllItems(), name) == None
  {
  }
}
