/**
 * The billing service: the greeting, the stock listing, and the two folds
 * that turn a stream of cart items into bills.
 *
 * The service's catalog (its readonly `items` field, always `AllItems()`)
 * is passed to each operation as `items`. A request stream is the sequence
 * of cart items the client sends before it completes; a response stream is
 * the sequence of messages the service writes. A name that the catalog does
 * not hold makes `FirstOrDefault` return null and the call fault on the
 * next dereference: here that is the error `ItemNotFound`.
 */
module BillingService {
  import opened Wrappers
  import opened Catalog

  /** One line of an order: the item asked for and how many pieces. */
  datatype CartItem = CartItem(item: Item, quantity: int)

  /** A bill as the service sends it: its kind and the running totals. */
  datatype Bill = Bill(billType: string, totalQuantity: int, totalPrice: int)

  datatype HelloRequest = HelloRequest(name: string, message: string)
  datatype HelloReply = HelloReply(message: string, name: string)
  datatype AllItemsRequest = AllItemsRequest(message: string)

  /** Why a call faults. */
  datatype Error = ItemNotFound(itemName: string)

  /** How a streaming call ends: normally, or faulted after what it already wrote. */
  datatype Status = Completed | Faulted(error: Error)

  /** The accumulator of one call: (totalQuantity, totalPrice). */
  datatype Totals = Totals(quantity: int, price: int)

  const INTERIM_BILL: string := "Interim Bill"
  const FINAL_BILL: string := "Final Bill"
  const GREETING_PREFIX: string := "Hello "
  const GREETING_SUFFIX: string := ". How can I help you?"
  const RESPONDER: string := "John"

  // ---------------------------------------------------------------------
  // Greeting (unary call)

  /** `SayHello`: greets the caller by name; the request's message is not used. */
  function SayHello(request: HelloRequest): (reply: HelloReply)
    ensures reply.name == RESPONDER
    ensures |reply.message| == |GREETING_PREFIX| + |request.name| + |GREETING_SUFFIX|
    ensures reply.message[..|GREETING_PREFIX|] == GREETING_PREFIX
    ensures reply.message[|reply.message| - |GREETING_SUFFIX|..] == GREETING_SUFFIX
    ensures reply.message[|GREETING_PREFIX|..|reply.message| - |GREETING_SUFFIX|] == request.name
  {
    HelloReply(GREETING_PREFIX + request.name + GREETING_SUFFIX, RESPONDER)
  }

  /** Reads back the name a greeting is addressed to, if `message` is a greeting. */
  function GreetedName(message: string): (r: Option<string>)
  {
    if |message| >= |GREETING_PREFIX| + |GREETING_SUFFIX|
       && message[..|GREETING_PREFIX|] == GREETING_PREFIX
       && message[|message| - |GREETING_SUFFIX|..] == GREETING_SUFFIX
    then Some(message[|GREETING_PREFIX|..|message| - |GREETING_SUFFIX|])
    else None
  }

  /** The greeting names exactly the caller: no two names get the same greeting. */
  lemma GreetingRoundTrip(request: HelloRequest)
    ensures GreetedName(SayHello(request).message) == Some(request.name)
  {
  }

  /** Every message that reads as a greeting is the greeting of the name it carries. */
  lemma GreetingsAreReplies(message: string, requestMessage: string)
    requires GreetedName(message).Some?
    ensures SayHello(HelloRequest(GreetedName(message).value, requestMessage)).message == message
  {
  }

  // ---------------------------------------------------------------------
  // Stock listing (server streaming)

  /** `GetItemsInStock`: writes every catalog entry to the response stream, in catalog order. */
  method GetItemsInStock(items: seq<Item>, request: AllItemsRequest) returns (responses: seq<Item>)
    ensures responses == items
  {
    responses := [];
    for i := 0 to |items|
      invariant responses == items[..i]
    {
      responses := responses + [items[i]];
    }
    assert items[..|items|] == items;
  }

  // ---------------------------------------------------------------------
  // What the folds compute: prefix sums over the cart, in arrival order

  /** The first `n` cart items all name something in the catalog. */
  predicate InStock(items: seq<Item>, cart: seq<CartItem>, n: nat)
    requires n <= |cart|
  {
    forall j | 0 <= j < n :: HasItem(items, cart[j].item.itemName)
  }

  /** Each of the first `n` cart items asks for a non-negative number of pieces. */
  predicate QuantitiesNonNegative(cart: seq<CartItem>, n: nat)
    requires n <= |cart|
  {
    forall j | 0 <= j < n :: cart[j].quantity >= 0
  }

  /** The number of pieces in the first `n` cart items. */
  function SumQuantities(cart: seq<CartItem>, n: nat): int
    requires n <= |cart|
  {
    if n == 0 then 0 else SumQuantities(cart, n - 1) + cart[n - 1].quantity
  }

  /** The price of the first `n` cart items, each at the catalog's unit price. */
  function SumPrices(items: seq<Item>, cart: seq<CartItem>, n: nat): int
    requires n <= |cart| && InStock(items, cart, n)
  {
    if n == 0 then 0
    else SumPrices(items, cart, n - 1) + UnitPrice(items, cart[n - 1].item.itemName) * cart[n - 1].quantity
  }

  /** The accumulator once the first `n` cart items have been processed. */
  function PrefixTotals(items: seq<Item>, cart: seq<CartItem>, n: nat): Totals
    requires n <= |cart| && InStock(items, cart, n)
  {
    Totals(SumQuantities(cart, n), SumPrices(items, cart, n))
  }

  /** The position of the first of the first `n` cart items that the catalog does not hold. */
  function FirstMissing(items: seq<Item>, cart: seq<CartItem>, n: nat): (m: nat)
    requires n <= |cart| && !InStock(items, cart, n)
    ensures m < n && !HasItem(items, cart[m].item.itemName)
    ensures InStock(items, cart, m)
  {
    if !InStock(items, cart, n - 1) then FirstMissing(items, cart, n - 1) else n - 1
  }

  /** A missing item right after a run of known ones is the first missing item. */
  lemma FirstMissingAt(items: seq<Item>, cart: seq<CartItem>, i: nat)
    requires i < |cart| && InStock(items, cart, i)
    requires !HasItem(items, cart[i].item.itemName)
    ensures !InStock(items, cart, |cart|)
    ensures FirstMissing(items, cart, |cart|) == i
  {
  }

  /**
   * With non-negative quantities and prices, the running totals never
   * decrease from one prefix to a longer one.
   */
  lemma {:induction false} PrefixSumsMonotone(items: seq<Item>, cart: seq<CartItem>, k: nat, l: nat)
    requires k <= l <= |cart| && InStock(items, cart, l)
    requires PricesNonNegative(items) && QuantitiesNonNegative(cart, l)
    ensures SumQuantities(cart, k) <= SumQuantities(cart, l)
    ensures SumPrices(items, cart, k) <= SumPrices(items, cart, l)
  {
    if k < l {
      PrefixSumsMonotone(items, cart, k, l - 1);
      var c := cart[l - 1];
      assert UnitPrice(items, c.item.itemName) >= 0 && c.quantity >= 0;
      assert UnitPrice(items, c.item.itemName) * c.quantity >= 0;
    }
  }

  // ---------------------------------------------------------------------
  // The fold both streaming calls share, as a state machine over Totals

  /** One step: look the item up and add its pieces and its price to the totals. */
  function Step(items: seq<Item>, acc: Totals, cartItem: CartItem): (r: Result<Totals, Error>)
    ensures r.Ok? <==> HasItem(items, cartItem.item.itemName)
    ensures r.Err? ==> r.error == ItemNotFound(cartItem.item.itemName)
  {
    match FindItem(items, cartItem.item.itemName)
    case None => Err(ItemNotFound(cartItem.item.itemName))
    case Some(itemInStore) =>
      Ok(Totals(acc.quantity + cartItem.quantity, acc.price + itemInStore.price * cartItem.quantity))
  }

  /** Feeds the cart to `Step` from `acc`, stopping at the first fault. */
  function Run(items: seq<Item>, acc: Totals, cart: seq<CartItem>): Result<Totals, Error>
    decreases |cart|
  {
    if cart == [] then Ok(acc)
    else match Step(items, acc, cart[0])
      case Err(e) => Err(e)
      case Ok(next) => Run(items, next, cart[1..])
  }

  /** Resuming the fold after a prefix gives the prefix sums of the whole cart, or its first fault. */
  lemma {:induction false} RunFromPrefix(items: seq<Item>, cart: seq<CartItem>, i: nat)
    requires i <= |cart| && InStock(items, cart, i)
    ensures Run(items, PrefixTotals(items, cart, i), cart[i..]) ==
              if InStock(items, cart, |cart|) then Ok(PrefixTotals(items, cart, |cart|))
              else Err(ItemNotFound(cart[FirstMissing(items, cart, |cart|)].item.itemName))
    decreases |cart| - i
  {
    if i < |cart| {
      var c := cart[i];
      assert cart[i..][0] == c && cart[i..][1..] == cart[i + 1..];
      if HasItem(items, c.item.itemName) {
        assert InStock(items, cart, i + 1);
        assert Step(items, PrefixTotals(items, cart, i), c) == Ok(PrefixTotals(items, cart, i + 1));
        RunFromPrefix(items, cart, i + 1);
      } else {
        FirstMissingAt(items, cart, i);
      }
    }
  }

  /**
   * The fold from (0, 0) succeeds exactly when every cart item is in stock,
   * and then yields the prefix sums of the whole cart; otherwise it faults on
   * the first unknown name.
   */
  lemma RunMatchesPrefixSums(items: seq<Item>, cart: seq<CartItem>)
    ensures Run(items, Totals(0, 0), cart).Ok? <==> InStock(items, cart, |cart|)
    ensures InStock(items, cart, |cart|) ==>
              Run(items, Totals(0, 0), cart) == Ok(PrefixTotals(items, cart, |cart|))
    ensures !InStock(items, cart, |cart|) ==>
              Run(items, Totals(0, 0), cart) == Err(ItemNotFound(cart[FirstMissing(items, cart, |cart|)].item.itemName))
  {
    assert cart[0..] == cart;
    RunFromPrefix(items, cart, 0);
  }

  /** The price an incoming cart item carries plays no part: only its name and quantity do. */
  lemma {:induction false} CartPriceIgnored(items: seq<Item>, acc: Totals, cart: seq<CartItem>, other: seq<CartItem>)
    requires |cart| == |other|
    requires forall k | 0 <= k < |cart| ::
               cart[k].item.itemName == other[k].item.itemName && cart[k].quantity == other[k].quantity
    ensures Run(items, acc, cart) == Run(items, acc, other)
    decreases |cart|
  {
    if cart != [] {
      assert Step(items, acc, cart[0]) == Step(items, acc, other[0]);
      if Step(items, acc, cart[0]).Ok? {
        CartPriceIgnored(items, Step(items, acc, cart[0]).value, cart[1..], other[1..]);
      }
    }
  }

  // ---------------------------------------------------------------------
  // Batch order (client streaming)

  /**
   * `ProcessAllItems`: folds the whole request stream into one final bill,
   * or faults on the first item the catalog does not hold.
   */
  method ProcessAllItems(items: seq<Item>, requests: seq<CartItem>) returns (r: Result<Bill, Error>)
    ensures r.Ok? <==> InStock(items, requests, |requests|)
    ensures r.Ok? ==>
              r.value == Bill(FINAL_BILL, SumQuantities(requests, |requests|), SumPrices(items, requests, |requests|))
    ensures r.Err? ==>
              r.error == ItemNotFound(requests[FirstMissing(items, requests, |requests|)].item.itemName)
  {
    var totalPrice := 0;
    var totalQuantity := 0;
    var i := 0;
    while i < |requests|
      invariant i <= |requests| && InStock(items, requests, i)
      invariant totalQuantity == SumQuantities(requests, i)
      invariant totalPrice == SumPrices(items, requests, i)
    {
      var cartItem := requests[i];
      var next := Step(items, Totals(totalQuantity, totalPrice), cartItem);
      if next.Err? {
        FirstMissingAt(items, requests, i);
        return Err(next.error);
      }
      totalQuantity, totalPrice := next.value.quantity, next.value.price;
      i := i + 1;
    }
    return Ok(Bill(FINAL_BILL, totalQuantity, totalPrice));
  }

  // ---------------------------------------------------------------------
  // Interactive order (bidirectional streaming)

  /**
   * The bills written so far are the running bills of the first `n` cart
   * items, followed by nothing or by the final bill of those `n` items.
   */
  ghost predicate RunningBills(items: seq<Item>, cart: seq<CartItem>, n: nat, bills: seq<Bill>)
    requires n <= |cart| && InStock(items, cart, n)
  {
    (|bills| == n || |bills| == n + 1)
    && (forall k | 0 <= k < n ::
          bills[k] == Bill(INTERIM_BILL, SumQuantities(cart, k + 1), SumPrices(items, cart, k + 1)))
    && (|bills| == n + 1 ==>
          bills[n] == Bill(FINAL_BILL, SumQuantities(cart, n), SumPrices(items, cart, n)))
  }

  /** Running bills never go down when quantities and prices are non-negative. */
  lemma RunningBillsMonotone(items: seq<Item>, cart: seq<CartItem>, n: nat, bills: seq<Bill>)
    requires n <= |cart| && InStock(items, cart, n) && RunningBills(items, cart, n, bills)
    requires PricesNonNegative(items) && QuantitiesNonNegative(cart, n)
    ensures forall k, l | 0 <= k <= l < |bills| ::
              bills[k].totalQuantity <= bills[l].totalQuantity && bills[k].totalPrice <= bills[l].totalPrice
  {
    forall k, l | 0 <= k <= l < |bills|
      ensures bills[k].totalQuantity <= bills[l].totalQuantity && bills[k].totalPrice <= bills[l].totalPrice
    {
      var kk := if k < n then k + 1 else n;
      var ll := if l < n then l + 1 else n;
      PrefixSumsMonotone(items, cart, kk, ll);
    }
  }

  /**
   * `ProcessEachItemOneByOne`: writes one interim bill with the running
   * totals after each cart item, in arrival order, then one final bill with
   * the same totals as the last interim bill. On an item the catalog does
   * not hold, the call faults after the interim bills already written.
   */
  method ProcessEachItemOneByOne(items: seq<Item>, requests: seq<CartItem>)
    returns (responses: seq<Bill>, status: Status)
    ensures status.Completed? <==> InStock(items, requests, |requests|)
    ensures status.Completed? ==>
              |responses| == |requests| + 1 && RunningBills(items, requests, |requests|, responses)
    ensures status.Faulted? ==>
              var m := FirstMissing(items, requests, |requests|);
              status.error == ItemNotFound(requests[m].item.itemName)
              && |responses| == m && RunningBills(items, requests, m, responses)
    ensures status.Completed? && requests == [] ==> responses == [Bill(FINAL_BILL, 0, 0)]
    ensures status.Completed? && requests != [] ==>
              responses[|requests|].totalQuantity == responses[|requests| - 1].totalQuantity
              && responses[|requests|].totalPrice == responses[|requests| - 1].totalPrice
    ensures PricesNonNegative(items)
            && QuantitiesNonNegative(requests, if status.Completed? then |requests| else |responses|) ==>
              forall k, l | 0 <= k <= l < |responses| ::
                responses[k].totalQuantity <= responses[l].totalQuantity
                && responses[k].totalPrice <= responses[l].totalPrice
  {
    var totalPrice := 0;
    var totalQuantity := 0;
    responses := [];
    var i := 0;
    while i < |requests|
      invariant i <= |requests| && InStock(items, requests, i)
      invariant totalQuantity == SumQuantities(requests, i)
      invariant totalPrice == SumPrices(items, requests, i)
      invariant |responses| == i && RunningBills(items, requests, i, responses)
    {
      var cartItem := requests[i];
      var next := Step(items, Totals(totalQuantity, totalPrice), cartItem);
      if next.Err? {
        FirstMissingAt(items, requests, i);
        status := Faulted(next.error);
        if PricesNonNegative(items) && QuantitiesNonNegative(requests, i) {
          RunningBillsMonotone(items, requests, i, responses);
        }
        return;
      }
      totalQuantity, totalPrice := next.value.quantity, next.value.price;
      responses := responses + [Bill(INTERIM_BILL, totalQuantity, totalPrice)];
      i := i + 1;
    }
    responses := responses + [Bill(FINAL_BILL, totalQuantity, totalPrice)];
    status := Completed;
    if PricesNonNegative(items) && QuantitiesNonNegative(requests, i) {
      RunningBillsMonotone(items, requests, i, responses);
    }
  }
}
