/** notes_and_changes/more_complicated_orders_approach.py: orders as plain
    dictionaries instead of database rows. Each order is created somewhere
    in the last 30 days; only their number depends on today's weekday.
    Every random choice is an input; Faker's uuid4 strings are opaque. */
module OrdersApproach {
  import opened Wrappers
  import opened Draws
  import opened Calendar
  import opened Policy

  /** The values an order dictionary holds: a uuid string, a datetime, or None. */
  datatype Value = Text(s: string) | Instant(t: int) | Null

  type OrderDict = map<string, Value>

  const CartIdKey: string := "shopping_cart_id"
  const CreatedKey: string := "created_date"
  const CompletedKey: string := "completed_date"

  /** The three keys every order carries. */
  const OrderKeys: set<string> := {CartIdKey, CreatedKey, CompletedKey}

  /** Orders are created within the last 30 days ('-30d' to 'now'). */
  const OrderHistoryDays: int := 30

  /** The choices behind one order: its uuid, its creation instant, the
      `random.random()` draw in [0, 1) that decides completion, and the
      completion delay in minutes. */
  datatype OrderDraw = OrderDraw(uuid: string, instant: int, u: real, delay: int)

  /** The creation instant of an order: between 30 days before now and now. */
  function CreatedAt(now: int, draw: OrderDraw): (t: int)
    ensures now - OrderHistoryDays * SecondsPerDay <= t <= now
  {
    RandInt(now - OrderHistoryDays * SecondsPerDay, now, draw.instant)
  }

  /** One order dictionary as the loop body fills it, key by key. */
  function OrderOf(now: int, draw: OrderDraw): (o: OrderDict)
    ensures o.Keys == OrderKeys
    ensures o[CartIdKey] == Text(draw.uuid)
    ensures o[CreatedKey].Instant? && now - OrderHistoryDays * SecondsPerDay <= o[CreatedKey].t <= now
    ensures o[CompletedKey].Null? || o[CompletedKey].Instant?
    ensures o[CompletedKey].Null? <==> NotesIncomplete(draw.u)
    ensures o[CompletedKey].Instant? ==>
      o[CompletedKey].t == o[CreatedKey].t + RandInt(MinDelayMinutes, MaxDelayMinutes, draw.delay) * SecondsPerMinute
    ensures o[CompletedKey].Instant? ==>
      o[CreatedKey].t + MinDelayMinutes * SecondsPerMinute <= o[CompletedKey].t
      <= o[CreatedKey].t + MaxDelayMinutes * SecondsPerMinute
  {
    var created := CreatedAt(now, draw);
    var completed := CompletionTime(created, NotesIncomplete(draw.u), RandInt(MinDelayMinutes, MaxDelayMinutes, draw.delay));
    map[CartIdKey := Text(draw.uuid), CreatedKey := Instant(created),
        CompletedKey := if completed.Some? then Instant(completed.value) else Null]
  }

  /** The orders of one call of generate_orders, one per draw, in order:
      each has exactly the three keys, is created in the last 30 days, and is
      left incomplete exactly when its draw is below the threshold, else
      completed one to ten minutes after its creation. */
  function Orders(now: int, draws: seq<OrderDraw>): (r: seq<OrderDict>)
    ensures |r| == |draws|
    ensures forall i :: 0 <= i < |r| ==> r[i] == OrderOf(now, draws[i])
    ensures forall i :: 0 <= i < |r| ==>
      && r[i].Keys == OrderKeys
      && r[i][CreatedKey].Instant? && now - OrderHistoryDays * SecondsPerDay <= r[i][CreatedKey].t <= now
      && (r[i][CompletedKey] == Null <==> draws[i].u < IncompleteThreshold)
      && (r[i][CompletedKey] != Null ==>
            r[i][CompletedKey].Instant?
            && r[i][CreatedKey].t + MinDelayMinutes * SecondsPerMinute <= r[i][CompletedKey].t
            <= r[i][CreatedKey].t + MaxDelayMinutes * SecondsPerMinute)
  {
    seq(|draws|, i requires 0 <= i < |draws| => OrderOf(now, draws[i]))
  }

  /** `range(num_orders)` runs zero times for a negative count. */
  function Iterations(numOrders: int): nat
  {
    if numOrders < 0 then 0 else numOrders
  }

  /** generate_orders: `num_orders` order dictionaries. The weekday argument
      is accepted and never used: the result does not depend on it. */
  method GenerateOrders(numOrders: int, dayOfWeek: int, now: int, draws: seq<OrderDraw>)
    returns (orders: seq<OrderDict>)
    requires |draws| == Iterations(numOrders)
    ensures |orders| == Iterations(numOrders)
    ensures orders == Orders(now, draws)
  {
    orders := [];
    for k := 0 to Iterations(numOrders)
      invariant orders == Orders(now, draws[..k])
    {
      var order: OrderDict := map[];
      order := order[CartIdKey := Text(draws[k].uuid)];
      var created := RandInt(now - OrderHistoryDays * SecondsPerDay, now, draws[k].instant);
      order := order[CreatedKey := Instant(created)];
      if draws[k].u < IncompleteThreshold {
        order := order[CompletedKey := Null];
      } else {
        var completionTime := created + RandInt(MinDelayMinutes, MaxDelayMinutes, draws[k].delay) * SecondsPerMinute;
        order := order[CompletedKey := Instant(completionTime)];
      }
      assert order == OrderOf(now, draws[k]);
      orders := orders + [order];
      assert Orders(now, draws[..k + 1]) == Orders(now, draws[..k]) + [OrderOf(now, draws[k])];
    }
    assert draws[..Iterations(numOrders)] == draws;
  }

  /** The fields of an order dictionary read back: its uuid, its creation
      instant and its completion instant, if the dictionary has that shape. */
  function OrderFields(o: OrderDict): (r: Option<(string, int, Option<int>)>)
    ensures r.Some? ==> o.Keys >= OrderKeys && o[CartIdKey] == Text(r.value.0) && o[CreatedKey] == Instant(r.value.1)
    ensures r.Some? ==> (r.value.2.None? <==> o[CompletedKey] == Null)
  {
    if CartIdKey in o && CreatedKey in o && CompletedKey in o
       && o[CartIdKey].Text? && o[CreatedKey].Instant? && !o[CompletedKey].Text?
    then
      Some((o[CartIdKey].s, o[CreatedKey].t, if o[CompletedKey].Instant? then Some(o[CompletedKey].t) else None))
    else None
  }

  /** Reading an order back gives the uuid drawn, the creation instant, and
      the completion time of the shared completion rule. */
  lemma OrderRoundTrip(now: int, draw: OrderDraw)
    ensures OrderFields(OrderOf(now, draw)).Some?
    ensures var f := OrderFields(OrderOf(now, draw)).value;
      && f.0 == draw.uuid
      && f.1 == CreatedAt(now, draw)
      && f.2 == CompletionTime(f.1, NotesIncomplete(draw.u), RandInt(MinDelayMinutes, MaxDelayMinutes, draw.delay))
  {
  }

  /** The choices behind main: the instant taken as today, the order count, and the orders. */
  datatype DayDraw = DayDraw(today: int, count: int, orders: seq<OrderDraw>)

  /** main's today: an instant in the last day. */
  function Today(now: int, draw: DayDraw): (t: int)
    ensures now - SecondsPerDay <= t <= now
  {
    RandInt(now - SecondsPerDay, now, draw.today)
  }

  /** main's num_orders: drawn from the notes band of today's weekday. */
  function OrderCount(now: int, draw: DayDraw): (n: int)
    ensures InBand(NotesBand(WeekdayOf(Today(now, draw))), n)
    ensures 10 <= n <= 40
  {
    var band := NotesBand(WeekdayOf(Today(now, draw)));
    RandInt(band.lo, band.hi, draw.count)
  }

  /** main without its printing: today's orders. A Sunday gets 10 to 20
      orders, every other day 15 to 40. */
  method DailyOrders(now: int, draw: DayDraw) returns (orders: seq<OrderDict>)
    requires |draw.orders| == OrderCount(now, draw)
    ensures orders == Orders(now, draw.orders)
    ensures WeekdayOf(Today(now, draw)) == Sunday ==> 10 <= |orders| <= 20
    ensures WeekdayOf(Today(now, draw)) != Sunday ==> 15 <= |orders| <= 40
  {
    var today := RandInt(now - SecondsPerDay, now, draw.today);
    var dayOfWeek := WeekdayOf(today);
    var numOrders: int;
    if dayOfWeek == Sunday {
      numOrders := RandInt(10, 20, draw.count);
    } else {
      numOrders := RandInt(15, 40, draw.count);
    }
    assert numOrders == OrderCount(now, draw);
    orders := GenerateOrders(numOrders, dayOfWeek, now, draw.orders);
  }

  /** Every order of main is complete or incomplete by the notes rule, and a
      completed one is completed one to ten minutes after it was created. */
  lemma DailyOrdersShape(now: int, draw: DayDraw, i: nat)
    requires i < |draw.orders|
    ensures var o := Orders(now, draw.orders)[i];
      && o.Keys == OrderKeys
      && (o[CompletedKey] == Null <==> draw.orders[i].u < IncompleteThreshold)
      && (o[CompletedKey] != Null ==>
            o[CompletedKey].Instant? && o[CreatedKey].t + SecondsPerMinute <= o[CompletedKey].t <= o[CreatedKey].t + 10 * SecondsPerMinute)
  {
    var o := OrderOf(now, draw.orders[i]);
    assert Orders(now, draw.orders)[i] == o;
  }
}
