/** The generation loops of simple_shop_data_generator.py: the customers, the
    shopping carts of the last 180 days, and the items of every cart. Every
    random choice is an input (see module Draws); values Faker makes up
    (names, e-mails, phone numbers) are opaque strings, and the ids the
    database assigns on commit are given as one id per list position. */
module ShopGenerator {
  import opened Wrappers
  import opened Draws
  import opened Calendar
  import opened Policy

  /** NUM_CUSTOMERS is max(5500, int(5500 * 1.2)); the floating-point product rounds to 6600.0. */
  const NumCustomers: nat := 6600
  const NumProducts: nat := 200
  /** Days of history generated, ending now. */
  const PriorDayRange: nat := 180
  /** A cart is created between current_date and 23 hours 59 minutes later. */
  const CreatedWindow: int := 23 * SecondsPerHour + 59 * SecondsPerMinute
  const MinItems: int := 1
  const MaxItems: int := 5
  const MinQuantity: int := 1
  const MaxQuantity: int := 5

  predicate Distinct(s: seq<int>)
  {
    forall i, j :: 0 <= i < j < |s| ==> s[i] != s[j]
  }

  // ---------------------------------------------------------------- customers

  datatype Customer = Customer(name: string, email: string, phone: string)

  /** The customer loop: one customer per generated name, e-mail and phone number, in order. */
  method GenerateCustomers(names: seq<string>, emails: seq<string>, phones: seq<string>)
    returns (customers: seq<Customer>)
    requires |names| == |emails| == |phones| == NumCustomers
    ensures |customers| == NumCustomers
    ensures forall i :: 0 <= i < NumCustomers ==> customers[i] == Customer(names[i], emails[i], phones[i])
  {
    customers := [];
    for i := 0 to NumCustomers
      invariant |customers| == i
      invariant forall j :: 0 <= j < i ==> customers[j] == Customer(names[j], emails[j], phones[j])
    {
      customers := customers + [Customer(names[i], emails[i], phones[i])];
    }
  }

  // ---------------------------------------------------------------- carts

  /** The choices behind one cart: its instant in the day's window, whether it
      is left incomplete, and its completion delay. */
  datatype CartDraw = CartDraw(instant: int, incomplete: bool, delay: int)

  /** The choices behind one day: its order count, an arrangement of all
      customer positions whose first entries are the day's sample, and a
      cart draw for each place of the arrangement (the first ones are used). */
  datatype DayDraw = DayDraw(count: int, arrangement: seq<nat>, carts: seq<CartDraw>)

  datatype Cart = Cart(customerId: int, createdAt: int, completedAt: Option<int>)

  /** `random.sample` raises when asked for more customers than there are. */
  datatype GenerationError = SampleLargerThanPopulation(day: nat)

  /** Every position of a population of `population` exactly once. */
  predicate IsArrangement(a: seq<nat>, population: nat)
  {
    && |a| == population
    && (forall i :: 0 <= i < |a| ==> a[i] < population)
    && (forall i, j :: 0 <= i < j < |a| ==> a[i] != a[j])
  }

  function StartDate(now: int): int
  {
    now - PriorDayRange * SecondsPerDay
  }

  /** current_date of day number `day`. */
  function DayStart(start: int, day: int): int
  {
    start + day * SecondsPerDay
  }

  /** num_orders of the day that starts at `currentDate`: drawn from the band of its weekday. */
  function DailyOrderCount(currentDate: int, draw: DayDraw): (n: int)
    ensures InBand(ShopBand(WeekdayOf(currentDate)), n)
  {
    var band := ShopBand(WeekdayOf(currentDate));
    RandInt(band.lo, band.hi, draw.count)
  }

  /** Consecutive days run through the weekdays in order. */
  lemma DayWeekday(start: int, d: int)
    ensures WeekdayOf(DayStart(start, d)) == (WeekdayOf(start) + d) % 7
  {
    WeekdayAfterDays(start, d);
  }

  /** A day's draws are well formed: an arrangement of the customers and a cart draw per place. */
  predicate DayDrawFits(draw: DayDraw, population: nat)
  {
    IsArrangement(draw.arrangement, population) && |draw.carts| == population
  }

  predicate DrawsFit(draws: seq<DayDraw>, population: nat)
  {
    forall d :: 0 <= d < |draws| ==> DayDrawFits(draws[d], population)
  }

  /** The `i`-th cart of the day that starts at `currentDate`. */
  function CartAt(customerIds: seq<int>, currentDate: int, draw: DayDraw, i: nat): Cart
    requires DayDrawFits(draw, |customerIds|)
    requires i < |customerIds|
  {
    var c := draw.carts[i];
    var createdAt := RandInt(currentDate, currentDate + CreatedWindow, c.instant);
    var delay := RandInt(MinDelayMinutes, MaxDelayMinutes, c.delay);
    Cart(customerIds[draw.arrangement[i]], createdAt, CompletionTime(createdAt, c.incomplete, delay))
  }

  /** The carts of one day, in the order of the day's sample. */
  function DayCarts(customerIds: seq<int>, currentDate: int, draw: DayDraw): (b: seq<Cart>)
    requires DayDrawFits(draw, |customerIds|)
    requires DailyOrderCount(currentDate, draw) <= |customerIds|
    ensures |b| == DailyOrderCount(currentDate, draw)
  {
    var n := DailyOrderCount(currentDate, draw);
    seq(n, i requires 0 <= i < n => CartAt(customerIds, currentDate, draw, i))
  }

  /** Each cart of a day is created inside the day's window, is completed one
      to ten minutes later unless drawn incomplete, and goes to a customer of
      its own: the sample has no repeats. */
  lemma DayCartsShape(customerIds: seq<int>, currentDate: int, draw: DayDraw)
    requires DayDrawFits(draw, |customerIds|)
    requires DailyOrderCount(currentDate, draw) <= |customerIds|
    ensures var b := DayCarts(customerIds, currentDate, draw);
      && (forall i :: 0 <= i < |b| ==> currentDate <= b[i].createdAt <= currentDate + CreatedWindow)
      && (forall i :: 0 <= i < |b| && b[i].completedAt.Some? ==>
            b[i].createdAt + MinDelayMinutes * SecondsPerMinute <= b[i].completedAt.value
            <= b[i].createdAt + MaxDelayMinutes * SecondsPerMinute)
      && (forall i :: 0 <= i < |b| ==> (b[i].completedAt.None? <==> draw.carts[i].incomplete))
      && (Distinct(customerIds) ==> forall i, j :: 0 <= i < j < |b| ==> b[i].customerId != b[j].customerId)
  {
  }

  /** The cart list the loop builds, day after day, or the error of the first
      day whose count exceeds the customers. */
  function Carts(customerIds: seq<int>, start: int, draws: seq<DayDraw>): (r: Result<seq<Cart>, GenerationError>)
    requires DrawsFit(draws, |customerIds|)
    ensures r.Failure? ==> r.error.day < |draws|
  {
    if draws == [] then Success([])
    else
      var last := |draws| - 1;
      var r := Carts(customerIds, start, draws[..last]);
      if r.Failure? then r
      else if DailyOrderCount(DayStart(start, last), draws[last]) > |customerIds| then
        Failure(SampleLargerThanPopulation(last))
      else Success(r.value + DayCarts(customerIds, DayStart(start, last), draws[last]))
  }

  /** The cart loop over the last PriorDayRange days. */
  method GenerateCarts(customerIds: seq<int>, now: int, draws: seq<DayDraw>)
    returns (r: Result<seq<Cart>, GenerationError>)
    requires |draws| == PriorDayRange
    requires DrawsFit(draws, |customerIds|)
    ensures r == Carts(customerIds, StartDate(now), draws)
  {
    var startDate := now - PriorDayRange * SecondsPerDay;
    var shoppingCarts: seq<Cart> := [];
    for day := 0 to PriorDayRange
      invariant Carts(customerIds, startDate, draws[..day]) == Success(shoppingCarts)
    {
      var currentDate := startDate + day * SecondsPerDay;
      var dayOfWeek := WeekdayOf(currentDate);
      var band := ShopBand(dayOfWeek);
      var numOrders := RandInt(band.lo, band.hi, draws[day].count);
      assert currentDate == DayStart(startDate, day) && numOrders == DailyOrderCount(currentDate, draws[day]);
      CartsStep(customerIds, startDate, draws, day);
      if numOrders > |customerIds| {
        FailureSticks(customerIds, startDate, draws, day + 1);
        return Failure(SampleLargerThanPopulation(day));
      }
      shoppingCarts := AppendDayCarts(shoppingCarts, customerIds, currentDate, draws[day], numOrders);
    }
    assert draws[..PriorDayRange] == draws;
    return Success(shoppingCarts);
  }

  /** The inner loop of one day: a cart for each customer of the day's
      sample, appended in sample order. */
  method AppendDayCarts(shoppingCarts: seq<Cart>, customerIds: seq<int>, currentDate: int, draw: DayDraw, numOrders: int)
    returns (result: seq<Cart>)
    requires DayDrawFits(draw, |customerIds|)
    requires numOrders == DailyOrderCount(currentDate, draw) <= |customerIds|
    ensures result == shoppingCarts + DayCarts(customerIds, currentDate, draw)
  {
    var dailyCustomers := draw.arrangement[..numOrders];
    ghost var batch := DayCarts(customerIds, currentDate, draw);
    result := shoppingCarts;
    var i := 0;
    while i < numOrders
      invariant 0 <= i <= numOrders
      invariant result == shoppingCarts + batch[..i]
    {
      var c := draw.carts[i];
      var createdAt := RandInt(currentDate, currentDate + CreatedWindow, c.instant);
      var delay := RandInt(MinDelayMinutes, MaxDelayMinutes, c.delay);
      var completedAt := CompletionTime(createdAt, c.incomplete, delay);
      var cart := Cart(customerIds[dailyCustomers[i]], createdAt, completedAt);
      assert cart == CartAt(customerIds, currentDate, draw, i) == batch[i];
      result := result + [cart];
      assert batch[..i + 1] == batch[..i] + [cart];
      i := i + 1;
    }
    assert batch[..i] == batch;
  }

  /** One more day either fails or appends that day's carts. */
  lemma CartsStep(customerIds: seq<int>, start: int, draws: seq<DayDraw>, day: nat)
    requires DrawsFit(draws, |customerIds|)
    requires day < |draws|
    requires Carts(customerIds, start, draws[..day]).Success?
    ensures DailyOrderCount(DayStart(start, day), draws[day]) > |customerIds| ==>
      Carts(customerIds, start, draws[..day + 1]) == Failure(SampleLargerThanPopulation(day))
    ensures DailyOrderCount(DayStart(start, day), draws[day]) <= |customerIds| ==>
      Carts(customerIds, start, draws[..day + 1])
      == Success(Carts(customerIds, start, draws[..day]).value + DayCarts(customerIds, DayStart(start, day), draws[day]))
  {
    assert draws[..day + 1][..day] == draws[..day];
  }

  /** Once a day fails, the loop never gets further: the result is that failure. */
  lemma {:induction false} FailureSticks(customerIds: seq<int>, start: int, draws: seq<DayDraw>, m: nat)
    requires DrawsFit(draws, |customerIds|)
    requires m <= |draws|
    requires Carts(customerIds, start, draws[..m]).Failure?
    ensures Carts(customerIds, start, draws) == Carts(customerIds, start, draws[..m])
  {
    if m < |draws| {
      var last := |draws| - 1;
      assert draws[..last][..m] == draws[..m];
      FailureSticks(customerIds, start, draws[..last], m);
    } else {
      assert draws[..m] == draws;
    }
  }

  /** No day asks for more customers than there are. */
  predicate SamplesFit(start: int, draws: seq<DayDraw>, population: nat)
  {
    forall d :: 0 <= d < |draws| ==> DailyOrderCount(DayStart(start, d), draws[d]) <= population
  }

  /** The loop fails exactly when some day's count exceeds the customers, and
      then at the first such day. */
  lemma {:induction false} FailsAtFirstOversizedDay(customerIds: seq<int>, start: int, draws: seq<DayDraw>)
    requires DrawsFit(draws, |customerIds|)
    ensures Carts(customerIds, start, draws).Success? <==> SamplesFit(start, draws, |customerIds|)
    ensures Carts(customerIds, start, draws).Failure? ==>
      var d := Carts(customerIds, start, draws).error.day;
      && d < |draws|
      && DailyOrderCount(DayStart(start, d), draws[d]) > |customerIds|
      && SamplesFit(start, draws[..d], |customerIds|)
  {
    if draws != [] {
      var last := |draws| - 1;
      var prefix := draws[..last];
      FailsAtFirstOversizedDay(customerIds, start, prefix);
      var r := Carts(customerIds, start, prefix);
      if r.Failure? {
        var d := r.error.day;
        assert prefix[..d] == draws[..d];
        assert !SamplesFit(start, draws, |customerIds|) by {
          assert prefix[d] == draws[d];
        }
      } else if DailyOrderCount(DayStart(start, last), draws[last]) > |customerIds| {
        assert prefix == draws[..last];
      } else {
        assert forall d :: 0 <= d < last ==> prefix[d] == draws[d];
      }
    }
  }

  /** With the script's 6600 customers the loop never fails. */
  lemma ScriptNeverFails(customerIds: seq<int>, now: int, draws: seq<DayDraw>)
    requires |customerIds| == NumCustomers
    requires DrawsFit(draws, |customerIds|)
    ensures Carts(customerIds, StartDate(now), draws).Success?
  {
    FailsAtFirstOversizedDay(customerIds, StartDate(now), draws);
  }

  /** The sum of the daily order counts. */
  function TotalOrders(start: int, draws: seq<DayDraw>): int
  {
    if draws == [] then 0
    else
      var last := |draws| - 1;
      TotalOrders(start, draws[..last]) + DailyOrderCount(DayStart(start, last), draws[last])
  }

  /** The cart list holds exactly as many carts as the days' counts add up to. */
  lemma {:induction false} CartsLength(customerIds: seq<int>, start: int, draws: seq<DayDraw>)
    requires DrawsFit(draws, |customerIds|)
    requires Carts(customerIds, start, draws).Success?
    ensures |Carts(customerIds, start, draws).value| == TotalOrders(start, draws)
  {
    if draws != [] {
      CartsLength(customerIds, start, draws[..|draws| - 1]);
    }
  }

  /** Between 10 and 40 carts a day. */
  lemma {:induction false} TotalOrdersBounds(start: int, draws: seq<DayDraw>)
    ensures 10 * |draws| <= TotalOrders(start, draws) <= 40 * |draws|
  {
    if draws != [] {
      var last := |draws| - 1;
      TotalOrdersBounds(start, draws[..last]);
      var n := DailyOrderCount(DayStart(start, last), draws[last]);
      assert 10 <= n <= 40;
    }
  }

  /** The carts of the first `m` days come first in the list. */
  lemma {:induction false} CartsPrefix(customerIds: seq<int>, start: int, draws: seq<DayDraw>, m: nat)
    requires DrawsFit(draws, |customerIds|)
    requires Carts(customerIds, start, draws).Success?
    requires m <= |draws|
    ensures Carts(customerIds, start, draws[..m]).Success?
    ensures |Carts(customerIds, start, draws[..m]).value| <= |Carts(customerIds, start, draws).value|
    ensures Carts(customerIds, start, draws).value[..|Carts(customerIds, start, draws[..m]).value|]
         == Carts(customerIds, start, draws[..m]).value
  {
    if m == |draws| {
      assert draws[..m] == draws;
    } else {
      var last := |draws| - 1;
      var prefix := draws[..last];
      assert prefix[..m] == draws[..m];
      CartsPrefix(customerIds, start, prefix, m);
      var front := Carts(customerIds, start, prefix).value;
      var all := Carts(customerIds, start, draws).value;
      assert all == front + DayCarts(customerIds, DayStart(start, last), draws[last]);
      var k := |Carts(customerIds, start, draws[..m]).value|;
      assert all[..k] == front[..k];
    }
  }

  /** The carts of day `d` are one contiguous run of the list, right after
      the carts of the days before it. */
  lemma DaySlice(customerIds: seq<int>, start: int, draws: seq<DayDraw>, d: nat)
    requires DrawsFit(draws, |customerIds|)
    requires Carts(customerIds, start, draws).Success?
    requires d < |draws|
    ensures Carts(customerIds, start, draws[..d]).Success?
    ensures Carts(customerIds, start, draws[..d + 1]).Success?
    ensures DailyOrderCount(DayStart(start, d), draws[d]) <= |customerIds|
    ensures
      var all := Carts(customerIds, start, draws).value;
      var lo := |Carts(customerIds, start, draws[..d]).value|;
      var hi := |Carts(customerIds, start, draws[..d + 1]).value|;
      && lo <= hi <= |all|
      && all[lo..hi] == DayCarts(customerIds, DayStart(start, d), draws[d])
  {
    CartsPrefix(customerIds, start, draws, d + 1);
    CartsPrefix(customerIds, start, draws, d);
    CartsStep(customerIds, start, draws, d);
    var all := Carts(customerIds, start, draws).value;
    var before := Carts(customerIds, start, draws[..d]).value;
    var upTo := Carts(customerIds, start, draws[..d + 1]).value;
    var batch := DayCarts(customerIds, DayStart(start, d), draws[d]);
    assert upTo == before + batch;
    assert all[|before|..|upTo|] == upTo[|before|..];
  }

  /** What the list promises about each day: a count from the band of the
      day's weekday, creation times inside the day's window, completion one to
      ten minutes later unless drawn incomplete, and no customer twice. */
  lemma CartsOfDay(customerIds: seq<int>, now: int, draws: seq<DayDraw>, d: nat)
    requires DrawsFit(draws, |customerIds|)
    requires Carts(customerIds, StartDate(now), draws).Success?
    requires d < |draws|
    ensures Carts(customerIds, StartDate(now), draws[..d]).Success?
    ensures Carts(customerIds, StartDate(now), draws[..d + 1]).Success?
    ensures
      var all := Carts(customerIds, StartDate(now), draws).value;
      var lo := |Carts(customerIds, StartDate(now), draws[..d]).value|;
      var hi := |Carts(customerIds, StartDate(now), draws[..d + 1]).value|;
      var currentDate := DayStart(StartDate(now), d);
      && lo <= hi <= |all|
      && InBand(ShopBand(WeekdayOf(currentDate)), hi - lo)
      && (forall i :: 0 <= i < hi - lo ==> currentDate <= all[lo..hi][i].createdAt <= currentDate + CreatedWindow)
      && (forall i :: 0 <= i < hi - lo && all[lo..hi][i].completedAt.Some? ==>
            all[lo..hi][i].createdAt + MinDelayMinutes * SecondsPerMinute <= all[lo..hi][i].completedAt.value
            <= all[lo..hi][i].createdAt + MaxDelayMinutes * SecondsPerMinute)
      && (Distinct(customerIds) ==>
            forall i, j :: 0 <= i < j < hi - lo ==> all[lo..hi][i].customerId != all[lo..hi][j].customerId)
  {
    DaySlice(customerIds, StartDate(now), draws, d);
    DayCartsShape(customerIds, DayStart(StartDate(now), d), draws[d]);
  }

  /** Every cart is created inside the generated history: not before its
      first day and not after the end of the window of its last day. */
  lemma {:induction false} CreatedWithinHistory(customerIds: seq<int>, start: int, draws: seq<DayDraw>)
    requires DrawsFit(draws, |customerIds|)
    requires Carts(customerIds, start, draws).Success?
    ensures forall c :: c in Carts(customerIds, start, draws).value ==>
      start <= c.createdAt <= DayStart(start, |draws| - 1) + CreatedWindow
  {
    if draws != [] {
      var last := |draws| - 1;
      var prefix := draws[..last];
      CreatedWithinHistory(customerIds, start, prefix);
      var front := Carts(customerIds, start, prefix).value;
      var batch := DayCarts(customerIds, DayStart(start, last), draws[last]);
      DayCartsShape(customerIds, DayStart(start, last), draws[last]);
      assert Carts(customerIds, start, draws).value == front + batch;
      forall c: Cart | c in front + batch
        ensures start <= c.createdAt <= DayStart(start, last) + CreatedWindow
      {
        if c in batch {
          var i :| 0 <= i < |batch| && batch[i] == c;
        }
      }
    }
  }

  /** Over the script's 180 days, every cart is created in the 180 days before
      now, a minute before now at the latest. */
  lemma CartsBeforeNow(customerIds: seq<int>, now: int, draws: seq<DayDraw>)
    requires |draws| == PriorDayRange
    requires DrawsFit(draws, |customerIds|)
    requires Carts(customerIds, StartDate(now), draws).Success?
    ensures forall c :: c in Carts(customerIds, StartDate(now), draws).value ==>
      now - PriorDayRange * SecondsPerDay <= c.createdAt <= now - SecondsPerMinute
  {
    CreatedWithinHistory(customerIds, StartDate(now), draws);
  }

  // ---------------------------------------------------------------- items

  /** The choices behind one item: a product (`random.choice`) and a quantity. */
  datatype ItemDraw = ItemDraw(product: int, quantity: int)

  /** The choices behind the items of one cart: their number and one item
      draw per item. */
  datatype CartItemsDraw = CartItemsDraw(count: int, items: seq<ItemDraw>)

  datatype CartItem = CartItem(cartId: int, productId: int, quantity: int)

  /** num_items of one cart. */
  function ItemCount(draw: CartItemsDraw): (n: int)
    ensures MinItems <= n <= MaxItems
  {
    RandInt(MinItems, MaxItems, draw.count)
  }

  /** One item draw per cart, and as many item draws as the cart's count. */
  predicate ItemDrawsFit(cartIds: seq<int>, draws: seq<CartItemsDraw>)
  {
    && |draws| == |cartIds|
    && forall k :: 0 <= k < |draws| ==> |draws[k].items| == ItemCount(draws[k])
  }

  /** One item of the cart `cartId`: a product of the catalogue and a quantity from one to five. */
  function ItemOf(cartId: int, productIds: seq<int>, draw: ItemDraw): (item: CartItem)
    requires |productIds| > 0
    ensures item.cartId == cartId
    ensures item.productId in productIds
    ensures MinQuantity <= item.quantity <= MaxQuantity
  {
    CartItem(cartId, productIds[RandInt(0, |productIds| - 1, draw.product)], RandInt(MinQuantity, MaxQuantity, draw.quantity))
  }

  /** The items of one cart: one to five, all of that cart, each a product of
      the catalogue in a quantity from one to five. */
  function ItemsOfCart(cartId: int, productIds: seq<int>, draw: CartItemsDraw): (b: seq<CartItem>)
    requires |productIds| > 0
    requires |draw.items| == ItemCount(draw)
    ensures MinItems <= |b| <= MaxItems
    ensures forall i :: 0 <= i < |b| ==>
      b[i].cartId == cartId && b[i].productId in productIds && MinQuantity <= b[i].quantity <= MaxQuantity
  {
    seq(ItemCount(draw), i requires 0 <= i < ItemCount(draw) => ItemOf(cartId, productIds, draw.items[i]))
  }

  /** The item list the loop builds, cart after cart. */
  function AllItems(cartIds: seq<int>, productIds: seq<int>, draws: seq<CartItemsDraw>): (r: seq<CartItem>)
    requires |productIds| > 0
    requires ItemDrawsFit(cartIds, draws)
    ensures MinItems * |cartIds| <= |r| <= MaxItems * |cartIds|
  {
    if draws == [] then []
    else
      var last := |draws| - 1;
      AllItems(cartIds[..last], productIds, draws[..last]) + ItemsOfCart(cartIds[last], productIds, draws[last])
  }

  /** The item loop: for every cart, in order, its items. */
  method GenerateCartItems(cartIds: seq<int>, productIds: seq<int>, draws: seq<CartItemsDraw>)
    returns (shoppingCartItems: seq<CartItem>)
    requires |productIds| > 0
    requires ItemDrawsFit(cartIds, draws)
    ensures shoppingCartItems == AllItems(cartIds, productIds, draws)
  {
    shoppingCartItems := [];
    for k := 0 to |cartIds|
      invariant shoppingCartItems == AllItems(cartIds[..k], productIds, draws[..k])
    {
      assert cartIds[..k + 1][..k] == cartIds[..k] && draws[..k + 1][..k] == draws[..k];
      shoppingCartItems := AppendCartItems(shoppingCartItems, cartIds[k], productIds, draws[k]);
    }
    assert cartIds[..|cartIds|] == cartIds && draws[..|cartIds|] == draws;
  }

  /** The inner loop of one cart: num_items items appended in order. */
  method AppendCartItems(shoppingCartItems: seq<CartItem>, cartId: int, productIds: seq<int>, draw: CartItemsDraw)
    returns (result: seq<CartItem>)
    requires |productIds| > 0
    requires |draw.items| == ItemCount(draw)
    ensures result == shoppingCartItems + ItemsOfCart(cartId, productIds, draw)
  {
    var numItems := RandInt(MinItems, MaxItems, draw.count);
    ghost var batch := ItemsOfCart(cartId, productIds, draw);
    result := shoppingCartItems;
    for i := 0 to numItems
      invariant result == shoppingCartItems + batch[..i]
    {
      var productId := productIds[RandInt(0, |productIds| - 1, draw.items[i].product)];
      var quantity := RandInt(MinQuantity, MaxQuantity, draw.items[i].quantity);
      var item := CartItem(cartId, productId, quantity);
      assert item == batch[i];
      result := result + [item];
      assert batch[..i + 1] == batch[..i] + [item];
    }
    assert batch[..numItems] == batch;
  }

  /** The number of items of cart `id` in a list. */
  function CountFor(items: seq<CartItem>, id: int): nat
  {
    if items == [] then 0
    else CountFor(items[..|items| - 1], id) + (if items[|items| - 1].cartId == id then 1 else 0)
  }

  lemma {:induction false} CountForAppend(s: seq<CartItem>, t: seq<CartItem>, id: int)
    ensures CountFor(s + t, id) == CountFor(s, id) + CountFor(t, id)
  {
    if t != [] {
      var last := |t| - 1;
      assert (s + t)[..|s + t| - 1] == s + t[..last];
      assert (s + t)[|s + t| - 1] == t[last];
      CountForAppend(s, t[..last], id);
    } else {
      assert s + t == s;
    }
  }

  /** A list whose items all belong to one cart counts all of them for it, and none for any other cart. */
  lemma {:induction false} CountForUniform(items: seq<CartItem>, cartId: int, id: int)
    requires forall i :: 0 <= i < |items| ==> items[i].cartId == cartId
    ensures CountFor(items, id) == if cartId == id then |items| else 0
  {
    if items != [] {
      CountForUniform(items[..|items| - 1], cartId, id);
    }
  }

  /** A cart id that is not among the carts has no items. */
  lemma {:induction false} AbsentCartHasNoItems(cartIds: seq<int>, productIds: seq<int>, draws: seq<CartItemsDraw>, id: int)
    requires |productIds| > 0
    requires ItemDrawsFit(cartIds, draws)
    requires id !in cartIds
    ensures CountFor(AllItems(cartIds, productIds, draws), id) == 0
  {
    if draws != [] {
      var last := |draws| - 1;
      var front := AllItems(cartIds[..last], productIds, draws[..last]);
      var batch := ItemsOfCart(cartIds[last], productIds, draws[last]);
      assert id !in cartIds[..last] && id != cartIds[last];
      AbsentCartHasNoItems(cartIds[..last], productIds, draws[..last], id);
      CountForAppend(front, batch, id);
      CountForUniform(batch, cartIds[last], id);
    }
  }

  /** Every item names one of the carts and one of the products and has a
      quantity from one to five; each cart contributes one to five items. */
  lemma {:induction false} AllItemsWellFormed(cartIds: seq<int>, productIds: seq<int>, draws: seq<CartItemsDraw>)
    requires |productIds| > 0
    requires ItemDrawsFit(cartIds, draws)
    ensures var items := AllItems(cartIds, productIds, draws);
      && MinItems * |cartIds| <= |items| <= MaxItems * |cartIds|
      && forall i :: 0 <= i < |items| ==>
           items[i].cartId in cartIds && items[i].productId in productIds
           && MinQuantity <= items[i].quantity <= MaxQuantity
  {
    if draws != [] {
      var last := |draws| - 1;
      AllItemsWellFormed(cartIds[..last], productIds, draws[..last]);
      var front := AllItems(cartIds[..last], productIds, draws[..last]);
      var batch := ItemsOfCart(cartIds[last], productIds, draws[last]);
      var items := front + batch;
      forall i | 0 <= i < |items|
        ensures items[i].cartId in cartIds
      {
        if i < |front| {
          assert items[i] == front[i];
          assert items[i].cartId in cartIds[..last];
        } else {
          assert items[i] == batch[i - |front|];
        }
      }
    }
  }

  /** The last cart's items are all the items of its id. */
  lemma LastCartItems(cartIds: seq<int>, productIds: seq<int>, draws: seq<CartItemsDraw>)
    requires |productIds| > 0
    requires ItemDrawsFit(cartIds, draws)
    requires Distinct(cartIds)
    requires |cartIds| > 0
    ensures CountFor(AllItems(cartIds, productIds, draws), cartIds[|cartIds| - 1]) == ItemCount(draws[|cartIds| - 1])
  {
    var last := |draws| - 1;
    var id := cartIds[last];
    var front := AllItems(cartIds[..last], productIds, draws[..last]);
    var batch := ItemsOfCart(id, productIds, draws[last]);
    assert AllItems(cartIds, productIds, draws) == front + batch;
    CountForAppend(front, batch, id);
    CountForUniform(batch, id, id);
    assert id !in cartIds[..last] by {
      forall j | 0 <= j < last
        ensures cartIds[..last][j] != id
      {
        assert cartIds[j] != cartIds[last];
      }
    }
    AbsentCartHasNoItems(cartIds[..last], productIds, draws[..last], id);
  }

  /** The last cart adds no items to the count of another id. */
  lemma EarlierCartItems(cartIds: seq<int>, productIds: seq<int>, draws: seq<CartItemsDraw>, id: int)
    requires |productIds| > 0
    requires ItemDrawsFit(cartIds, draws)
    requires |cartIds| > 0 && id != cartIds[|cartIds| - 1]
    ensures ItemDrawsFit(cartIds[..|cartIds| - 1], draws[..|cartIds| - 1])
    ensures CountFor(AllItems(cartIds, productIds, draws), id)
         == CountFor(AllItems(cartIds[..|cartIds| - 1], productIds, draws[..|cartIds| - 1]), id)
  {
    var last := |draws| - 1;
    var front := AllItems(cartIds[..last], productIds, draws[..last]);
    var batch := ItemsOfCart(cartIds[last], productIds, draws[last]);
    assert AllItems(cartIds, productIds, draws) == front + batch;
    CountForAppend(front, batch, id);
    CountForUniform(batch, cartIds[last], id);
  }

  /** With distinct cart ids, every cart has exactly its drawn number of items: one to five. */
  lemma {:induction false} ItemsPerCart(cartIds: seq<int>, productIds: seq<int>, draws: seq<CartItemsDraw>, k: nat)
    requires |productIds| > 0
    requires ItemDrawsFit(cartIds, draws)
    requires Distinct(cartIds)
    requires k < |cartIds|
    ensures CountFor(AllItems(cartIds, productIds, draws), cartIds[k]) == ItemCount(draws[k])
    ensures MinItems <= CountFor(AllItems(cartIds, productIds, draws), cartIds[k]) <= MaxItems
  {
    var last := |cartIds| - 1;
    if k == last {
      LastCartItems(cartIds, productIds, draws);
    } else {
      assert cartIds[k] != cartIds[last];
      EarlierCartItems(cartIds, productIds, draws, cartIds[k]);
      assert Distinct(cartIds[..last]);
      ItemsPerCart(cartIds[..last], productIds, draws[..last], k);
      assert cartIds[..last][k] == cartIds[k] && draws[..last][k] == draws[k];
    }
  }
}
