/**
 * The demo client's calls, as callers of the service: each states what the
 * client receives for the requests it sends, as the service's contracts
 * determine it, plus one scenario on the fault path. Console output, random
 * delays and the channel are not here.
 */
module BillingClient {
  import opened Wrappers
  import opened Catalog
  import opened BillingService

  /** The client's own copy of the item list. */
  function ClientItems(): seq<Item>
  {
    [ Item("Pineapple", 100),
      Item("Oranges", 20),
      Item("Banana", 10) ]
  }

  /** The order both streaming calls send: 10, 20 and 30 pieces of the three items. */
  function DemoCart(): seq<CartItem>
  {
    seq(3, i requires 0 <= i < 3 => CartItem(ClientItems()[i], i * 10 + 10))
  }

  /** All three cart items are found in the server's catalog, at its prices. */
  lemma DemoCartInStock()
    ensures InStock(AllItems(), DemoCart(), 3)
    ensures UnitPrice(AllItems(), DemoCart()[0].item.itemName) == 100
    ensures UnitPrice(AllItems(), DemoCart()[1].item.itemName) == 20
    ensures UnitPrice(AllItems(), DemoCart()[2].item.itemName) == 10
  {
    var cart := DemoCart();
    assert cart[0] == CartItem(ClientItems()[0], 10);
    assert cart[1] == CartItem(ClientItems()[1], 20);
    assert cart[2] == CartItem(ClientItems()[2], 30);
    assert cart[0].item.itemName == "Pineapple";
    assert cart[1].item.itemName == "Oranges";
    assert cart[2].item.itemName == "Banana";
    CatalogPrices("");
  }

  /** The running totals of the demo order: (10, 1000), (30, 1400), (60, 1700). */
  lemma DemoPrefixTotals()
    ensures InStock(AllItems(), DemoCart(), 3)
    ensures PrefixTotals(AllItems(), DemoCart(), 1) == Totals(10, 1000)
    ensures PrefixTotals(AllItems(), DemoCart(), 2) == Totals(30, 1400)
    ensures PrefixTotals(AllItems(), DemoCart(), 3) == Totals(60, 1700)
  {
    DemoCartInStock();
  }

  /** `Hello`: Anne is greeted by John. */
  method Hello() returns (reply: HelloReply)
    ensures reply == HelloReply("Hello Anne. How can I help you?", "John")
  {
    reply := SayHello(HelloRequest("Anne", "Hi!"));
  }

  /** `GetAllItemsAsStream`: the client receives the three fruits, in catalog order. */
  method GetAllItemsAsStream() returns (received: seq<Item>)
    ensures received == [Item("Pineapple", 100), Item("Oranges", 20), Item("Banana", 10)]
  {
    received := GetItemsInStock(AllItems(), AllItemsRequest("What do you have in stock ?"));
  }

  /** `SendCartItemsAsStream`: the one final bill of the demo order is (60, 1700). */
  method SendCartItemsAsStream() returns (finalBill: Result<Bill, Error>)
    ensures finalBill == Ok(Bill("Final Bill", 60, 1700))
  {
    DemoPrefixTotals();
    finalBill := ProcessAllItems(AllItems(), DemoCart());
  }

  /** `ProcessItemsOneByOne`: three interim bills, then a final bill equal to the last of them. */
  method ProcessItemsOneByOne() returns (responses: seq<Bill>, status: Status)
    ensures status == Completed
    ensures responses == [ Bill("Interim Bill", 10, 1000),
                           Bill("Interim Bill", 30, 1400),
                           Bill("Interim Bill", 60, 1700),
                           Bill("Final Bill", 60, 1700) ]
  {
    DemoPrefixTotals();
    responses, status := ProcessEachItemOneByOne(AllItems(), DemoCart());
  }

  /**
   * A scenario beside the client's calls (the demo client never sends it):
   * an order whose second line names no catalog item gets the first interim
   * bill, then the call faults on that name.
   */
  method OrderUnknownItem() returns (responses: seq<Bill>, status: Status)
    ensures status == Faulted(ItemNotFound("Apple"))
    ensures responses == [Bill("Interim Bill", 10, 1000)]
  {
    var cart := [CartItem(Item("Pineapple", 100), 10), CartItem(Item("Apple", 100), 5)];
    CatalogPrices("Apple");
    assert InStock(AllItems(), cart, 1) && !HasItem(AllItems(), cart[1].item.itemName);
    FirstMissingAt(AllItems(), cart, 1);
    responses, status := ProcessEachItemOneByOne(AllItems(), cart);
  }

  /** The fold over the demo order, from (0, 0), ends at (60, 1700); the client's item prices do not matter. */
  lemma DemoRun(prices: seq<int>)
    requires |prices| == 3
    ensures Run(AllItems(), Totals(0, 0), DemoCart()) == Ok(Totals(60, 1700))
    ensures Run(AllItems(), Totals(0, 0),
                seq(3, i requires 0 <= i < 3 => CartItem(Item(ClientItems()[i].itemName, prices[i]), i * 10 + 10)))
            == Ok(Totals(60, 1700))
  {
    DemoPrefixTotals();
    RunMatchesPrefixSums(AllItems(), DemoCart());
    CartPriceIgnored(AllItems(), Totals(0, 0), DemoCart(),
                     seq(3, i requires 0 <= i < 3 => CartItem(Item(ClientItems()[i].itemName, prices[i]), i * 10 + 10)));
  }
}
