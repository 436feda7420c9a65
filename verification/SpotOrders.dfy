/** Exactly which orders a call gets accepted, in which order and at which price, what its status means, and the readings
    that decide: polls before the deadline, ids and fingerprints, the gate of ordering. */
module SpotOrders {
  import opened FifoLedger
  import opened ProfitGuard
  import opened OrderLifecycle
  import opened SpotService
  import opened SpotSafety
  import opened SpotRuns
  import opened SpotBooks

  // ----- The orders of a trace -----

  function Orders(trace: seq<Trace>): seq<Trace> {
    if trace == [] then []
    else
      var e := trace[|trace| - 1];
      Orders(trace[..|trace| - 1]) + if e.Placed? then [e] else []
  }

  lemma {:induction false} OrdersSnoc(trace: seq<Trace>, e: Trace)
    ensures Orders(trace + [e]) == Orders(trace) + if e.Placed? then [e] else []
  {
    assert (trace + [e])[..|trace|] == trace;
  }

  lemma {:induction false} OrdersMember(trace: seq<Trace>, e: Trace)
    ensures e in Orders(trace) <==> e in trace && e.Placed?
    decreases |trace|
  {
    if trace != [] {
      OrdersMember(trace[..|trace| - 1], e);
      assert trace == trace[..|trace| - 1] + [trace[|trace| - 1]];
    }
  }

  // ----- What a call gets accepted -----

  /** The exchange takes the limit order. */
  predicate LimitTaken(stage: Stage) {
    stage.previewOk && stage.place.Took?
  }

  function FirstOrder(settings: Settings, c: Call): seq<Trace> {
    match PreSubmitValidate(settings, c.intent, c.quote)
    case Refused(_) => []
    case Validated(qty, maker, price) =>
      if !LimitTaken(c.maker) then []
      else [Placed(settings.digest(TagFor(c, 0)), TagFor(c, 0), false, qty,
                   if c.intent.style == Marketable then price else maker, c.intent.reduceOnly)]
  }

  /** After a maker timeout: a sell crosses at the refreshed price, a buy with an edge goes to market. */
  function SecondOrder(settings: Settings, c: Call): seq<Trace> {
    var cid, tag := settings.digest(TagFor(c, 1)), TagFor(c, 1);
    if c.intent.style == Marketable || !TimesOut(settings, c.maker) then []
    else if Lower(c.intent.side) == "sell" then
      match PreSubmitValidate(settings, c.intent, c.refreshed)
      case Refused(_) => []
      case Validated(qty, _, price) =>
        if LimitTaken(c.taker) then [Placed(cid, tag, false, qty, price, c.intent.reduceOnly)] else []
    else if c.intent.netEdgeBps <= 0.0 || c.taker.place.Threw? then []
    else
      match PreSubmitValidate(settings, c.intent, c.quote)
      case Refused(_) => []
      case Validated(qty, _, _) => [Placed(cid, tag, true, qty, 0.0, c.intent.reduceOnly)]
  }

  ghost function CallOrders(settings: Settings, s: Spot, c: Call): seq<Trace> {
    if Admitted(settings, s, c) && c.existing.NotFound? then FirstOrder(settings, c) + SecondOrder(settings, c) else []
  }

  lemma {:induction false} LimitPlaces(
    settings: Settings, s: Spot, intent: Intent, tag: OrderTag, now: real, fp: Fingerprint,
    qty: real, price: real, stage: Stage)
    ensures Orders(SubmitLimitOrder(settings, s, intent, tag, now, fp, qty, price, stage).state.trace)
         == Orders(s.trace)
            + if LimitTaken(stage) then [Placed(settings.digest(tag), tag, false, qty, price, intent.reduceOnly)] else []
  {
    hide Apply, AfterPlaced, RecordPlaced, RejectGuard, Orders, LedgerKept, Tags, RejectTimes, RateLimitTimes, Recent;
    var cid := settings.digest(tag);
    if stage.previewOk {
      match stage.place
      case Threw(limited) =>
        RejectEffect(Notify(s, RejectedEvent(intent.symbol, cid)), limited, stage.guardAt, stage.killAt);
        OrdersSnoc(s.trace, if limited then RateLimitTracked(stage.guardAt) else RejectTracked(stage.guardAt));
      case Took(order) =>
        var placed := Placed(cid, tag, false, qty, price, intent.reduceOnly);
        var recorded := RecordPlaced(s, order, cid, fp, now, placed);
        RecordEffect(s, order, cid, fp, now, placed);
        AfterPlacedEffect(settings, recorded, intent, cid, order, stage);
        OrdersSnoc(s.trace, placed);
        OrdersSnoc(recorded.trace, RateLimitTracked(stage.guardAt));
    }
  }

  lemma {:induction false} MarketPlaces(
    settings: Settings, s: Spot, intent: Intent, tag: OrderTag, now: real, fp: Fingerprint, qty: real, stage: Stage)
    ensures Orders(SubmitMarketBuy(settings, s, intent, tag, now, fp, qty, stage).state.trace)
         == Orders(s.trace)
            + if stage.place.Took? then [Placed(settings.digest(tag), tag, true, qty, 0.0, intent.reduceOnly)] else []
  {
    hide Apply, RecordPlaced, RejectGuard, BookOrder, Orders, LedgerKept, Tags, RejectTimes, RateLimitTimes, Recent;
    var cid := settings.digest(tag);
    var reject := RejectedEvent(intent.symbol, cid);
    var submitted := Notify(s, SubmitEvent(intent.symbol, cid));
    match stage.place
    case Threw(limited) =>
      RejectEffect(Notify(submitted, reject), limited, stage.guardAt, stage.killAt);
      OrdersSnoc(s.trace, if limited then RateLimitTracked(stage.guardAt) else RejectTracked(stage.guardAt));
    case Took(order) =>
      var placed := Placed(cid, tag, true, qty, 0.0, intent.reduceOnly);
      var recorded := RecordPlaced(submitted, order, cid, fp, now, placed);
      RecordEffect(submitted, order, cid, fp, now, placed);
      OrdersSnoc(s.trace, placed);
      BookingEffect(recorded, intent, order, stage.booking);
      var raised := BookOrder(recorded, intent, order, stage.booking).raised;
      if raised.Some? {
        RejectEffect(Notify(recorded, reject), raised.value, stage.guardAt, stage.killAt);
        OrdersSnoc(recorded.trace, if raised.value then RateLimitTracked(stage.guardAt) else RejectTracked(stage.guardAt));
      }
  }

  lemma {:induction false} FallbackPlaces(settings: Settings, s: Spot, c: Call, qty: real, fp: Fingerprint)
    requires PreSubmitValidate(settings, c.intent, c.quote).Validated?
    requires qty == PreSubmitValidate(settings, c.intent, c.quote).qty
    requires c.intent.style != Marketable && TimesOut(settings, c.maker)
    ensures Orders(Fallback(settings, s, c, qty, fp).state.trace) == Orders(s.trace) + SecondOrder(settings, c)
  {
    hide Apply, SubmitLimitOrder, SubmitMarketBuy, PreSubmitValidate, Lower, Orders, TimesOut, TagFor;
    var tag := TagFor(c, 1);
    if Lower(c.intent.side) == "sell" {
      var checked := PreSubmitValidate(settings, c.intent, c.refreshed);
      if checked.Validated? {
        LimitPlaces(settings, Notify(s, SubmitEvent(c.intent.symbol, settings.digest(tag))), c.intent, tag, c.now, fp,
                    checked.qty, checked.conservativePrice, c.taker);
      }
    } else if c.intent.netEdgeBps > 0.0 {
      MarketPlaces(settings, s, c.intent, tag, c.now, fp, qty, c.taker);
    }
  }

  lemma {:induction false} SendPlaces(
    settings: Settings, s: Spot, c: Call, qty: real, maker: real, price: real, fp: Fingerprint)
    requires PreSubmitValidate(settings, c.intent, c.quote) == Validated(qty, maker, price)
    ensures Orders(SendOrders(settings, s, c, qty, maker, price, fp).state.trace)
         == Orders(s.trace) + FirstOrder(settings, c) + SecondOrder(settings, c)
  {
    hide Apply, SubmitLimitOrder, LimitPostings, PostAll, Fallback, PreSubmitValidate, Lower, Orders, TimesOut, TagFor,
         SecondOrder;
    var tag := TagFor(c, 0);
    var submitted := Notify(s, SubmitEvent(c.intent.symbol, settings.digest(tag)));
    var sent := if c.intent.style == Marketable then price else maker;
    var made := SubmitLimitOrder(settings, submitted, c.intent, tag, c.now, fp, qty, sent, c.maker);
    LimitPlaces(settings, submitted, c.intent, tag, c.now, fp, qty, sent, c.maker);
    LimitPosted(settings, submitted, c.intent, tag, c.now, fp, qty, sent, c.maker);
    if c.intent.style != Marketable && TimesOut(settings, c.maker) {
      FallbackPlaces(settings, made.state, c, qty, fp);
    } else {
      NoSecondOrder(settings, c);
    }
  }

  lemma {:induction false} NoSecondOrder(settings: Settings, c: Call)
    requires c.intent.style == Marketable || !TimesOut(settings, c.maker)
    ensures SecondOrder(settings, c) == []
  {
    hide TimesOut, TagFor;
  }

  /** Main result: exactly which orders a call gets accepted, with ids, quantities, prices and marks. */
  lemma {:induction false} CallPlacesExactly(settings: Settings, s: Spot, c: Call)
    ensures Orders(ExecuteIntent(settings, s, c).state.trace) == Orders(s.trace) + CallOrders(settings, s, c)
  {
    hide SendOrders, RecordFound, PreSubmitValidate, OrderingBlock, Orders, FingerprintOf, Evict, TagFor, FirstOrder,
         SecondOrder, LedgerKept, Tags, RejectTimes, RateLimitTimes;
    if Admitted(settings, s, c) && c.existing.NotFound? {
      var v := PreSubmitValidate(settings, c.intent, c.quote);
      var e := s.(recentCids := Evict(s.recentCids, c.now), recentIntents := Evict(s.recentIntents, c.now));
      SendPlaces(settings, e, c, v.qty, v.makerPrice, v.conservativePrice, FingerprintOf(c));
      assert Orders(s.trace) + FirstOrder(settings, c) + SecondOrder(settings, c)
          == Orders(s.trace) + (FirstOrder(settings, c) + SecondOrder(settings, c));
    } else {
      GateHolds(settings, s, c);
    }
  }

  /** The orders of a run, call by call. */
  ghost function RunOrders(settings: Settings, actions: seq<Action>): seq<Trace> {
    if actions == [] then []
    else
      var n := |actions| - 1;
      RunOrders(settings, actions[..n])
      + match actions[n]
        case Intend(c) => CallOrders(settings, Run(settings, actions[..n]), c)
        case _ => []
  }

  /** Main result: the orders accepted on a run are those of its calls, in order, and no others. */
  lemma {:induction false} RunPlacesExactly(settings: Settings, actions: seq<Action>)
    ensures Orders(Run(settings, actions).trace) == RunOrders(settings, actions)
    decreases |actions|
  {
    hide Do, Orders, CallOrders;
    if actions == [] {
      assert Orders([]) == [] by { OrdersOfNothing(); }
    } else {
      var n := |actions| - 1;
      var s, a := Run(settings, actions[..n]), actions[n];
      RunPlacesExactly(settings, actions[..n]);
      if a.Intend? {
        DoIntend(settings, s, a.call);
        CallPlacesExactly(settings, s, a.call);
      } else {
        OtherActionsSendNothing(settings, s, a);
      }
    }
  }

  lemma {:induction false} OrdersOfNothing()
    ensures Orders([]) == []
  {
  }

  // ----- At which price -----

  /** The order is what the plan of the call says, on its quote: sized by the touch it would cross, at the bid for a resting
      buy and at the ask for a resting sell, at the ask for a crossing buy and at the bid for a crossing sell. */
  predicate AsPlanned(c: Call, e: Trace)
    requires e.Placed?
  {
    var buys, first := Lower(c.intent.side) == "buy", e.tag.slice == 0;
    var quote := if buys || first then c.quote else c.refreshed;
    && e.tag == OrderTag(c.intent.symbol, c.intent.side, c.now.Floor, if first then 0 else 1)
    && quote.book.Some? && e.reduceOnly == c.intent.reduceOnly && (!buys ==> e.reduceOnly)
    && var bid, ask := quote.book.value.bid, quote.book.value.ask;
       && bid > 0.0 && ask > 0.0 && e.qty > 0.0
       && quote.normalizeAmount(c.intent.targetNotional / Max(if buys then ask else bid, 0.000000000001)) == Some(e.qty)
       && (e.market <==> buys && !first)
       && (e.market ==> e.price == 0.0)
       && (first && c.intent.style == Passive ==> quote.normalizePrice(if buys then bid else ask) == Some(e.price))
       && (!e.market && !(first && c.intent.style == Passive) ==> e.price == if buys then ask else bid)
  }

  lemma {:induction false} OrdersAsPlanned(settings: Settings, s: Spot, c: Call, e: Trace)
    requires e in CallOrders(settings, s, c)
    ensures e.Placed? && AsPlanned(c, e) && e.cid == settings.digest(e.tag)
  {
    hide PreSubmitValidate, Lower, TimesOut, Admitted;
    var v, r := PreSubmitValidate(settings, c.intent, c.quote), PreSubmitValidate(settings, c.intent, c.refreshed);
    if v.Validated? { ValidatedIff(settings, c.intent, c.quote, v.qty, v.makerPrice, v.conservativePrice); }
    if r.Validated? { ValidatedIff(settings, c.intent, c.refreshed, r.qty, r.makerPrice, r.conservativePrice); }
    hide SellProfitGuard, AuthoritativeInventory;
    if e in FirstOrder(settings, c) { assert e.tag == TagFor(c, 0); } else { assert e.tag == TagFor(c, 1); }
  }

  /** Main result: every order accepted on a run is priced and sized by the plan of the call that sent it. */
  lemma {:induction false} OrdersArePriced(settings: Settings, actions: seq<Action>, i: nat) returns (j: nat)
    requires i < |Run(settings, actions).trace| && Run(settings, actions).trace[i].Placed?
    ensures j < |actions| && actions[j].Intend? && AsPlanned(actions[j].call, Run(settings, actions).trace[i])
    ensures Run(settings, actions).trace[i] in CallOrders(settings, Run(settings, actions[..j]), actions[j].call)
  {
    hide Run, Orders, CallOrders, AsPlanned;
    var e := Run(settings, actions).trace[i];
    OrdersMember(Run(settings, actions).trace, e);
    RunPlacesExactly(settings, actions);
    j := CallOf(settings, actions, e);
    OrdersAsPlanned(settings, Run(settings, actions[..j]), actions[j].call, e);
  }

  lemma {:induction false} CallOf(settings: Settings, actions: seq<Action>, e: Trace) returns (j: nat)
    requires e in RunOrders(settings, actions)
    ensures j < |actions| && actions[j].Intend?
    ensures e in CallOrders(settings, Run(settings, actions[..j]), actions[j].call)
    decreases |actions|
  {
    hide Run, CallOrders;
    var n := |actions| - 1;
    if e in RunOrders(settings, actions[..n]) {
      j := CallOf(settings, actions[..n], e);
      assert actions[..n][..j] == actions[..j];
    } else {
      j := n;
    }
  }

  // ----- What the status of a call means -----

  /** The order is filled, at once or before the deadline, and its fills could be looked up. */
  predicate FilledInTime(settings: Settings, stage: Stage) {
    && LimitTaken(stage) && stage.booking.History?
    && (IsFilled(stage.place.order.status) || AwaitFill(stage.polls, Deadline(settings, stage)).Found?)
  }

  lemma {:induction false} LimitStatus(
    settings: Settings, s: Spot, intent: Intent, tag: OrderTag, now: real, fp: Fingerprint,
    qty: real, price: real, stage: Stage)
    requires !s.killed
    ensures var r := SubmitLimitOrder(settings, s, intent, tag, now, fp, qty, price, stage);
            && (r.status == Killed <==> r.state.killed)
            && (r.status == FilledOrder <==> FilledInTime(settings, stage))
            && (r.status == TimeoutOrder <==> TimesOut(settings, stage))
            && r.status in {Killed, FilledOrder, TimeoutOrder, RejectedOrder, Raised}
  {
    hide Apply, ApplyOrderUpdate, Recent, BookFills, FillHistory, ReportsOf, AwaitFill, LedgerKept, Tags, RejectTimes,
         RateLimitTimes, LimitPostings, PostAll;
    LimitPosted(settings, s, intent, tag, now, fp, qty, price, stage);
    var cid := settings.digest(tag);
    if LimitTaken(stage) {
      var order := stage.place.order;
      var placed := Placed(cid, tag, false, qty, price, intent.reduceOnly);
      var recorded := RecordPlaced(s, order, cid, fp, now, placed);
      UpdateKeepsSending(s.(trace := s.trace + [placed]), order);
      assert !recorded.killed;
      WaitStatus(settings, recorded, intent, cid, order, stage);
    }
  }

  lemma {:induction false} WaitStatus(
    settings: Settings, s: Spot, intent: Intent, cid: string, order: Order, stage: Stage)
    requires !s.killed
    ensures var r := AfterPlaced(settings, s, intent, cid, order, stage);
            && (r.status == Killed <==> r.state.killed)
            && (r.status == FilledOrder
                <==> && stage.booking.History?
                     && (IsFilled(order.status) || AwaitFill(stage.polls, Deadline(settings, stage)).Found?))
            && r.status in {Killed, FilledOrder, TimeoutOrder, RejectedOrder, Raised}
  {
    hide ApplyOrderUpdate, CancelAndTimeOut, BookOrder, LedgerKept, Tags, RejectTimes, RateLimitTimes;
    var reply := AwaitFill(stage.polls, Deadline(settings, stage));
    FoundIsFilled(stage.polls, Deadline(settings, stage));
    if IsFilled(order.status) { BookingStatus(s, intent, order, stage.booking); }
    BookingEffect(s, intent, order, stage.booking);
    if reply.Found? {
      UpdateKeepsSending(s, reply.order);
      BookingStatus(ApplyOrderUpdate(s, reply.order), intent, reply.order, stage.booking);
      BookingEffect(ApplyOrderUpdate(s, reply.order), intent, reply.order, stage.booking);
    }
    CancelStatus(s, intent.symbol, cid, stage);
  }

  lemma {:induction false} FoundIsFilled(polls: seq<Poll>, deadline: real)
    ensures AwaitFill(polls, deadline).Found? ==> IsFilled(AwaitFill(polls, deadline).order.status)
    decreases polls
  {
    if polls != [] { FoundIsFilled(polls[1..], deadline); }
  }

  lemma {:induction false} BookingStatus(s: Spot, intent: Intent, order: Order, booking: Booking)
    requires IsFilled(order.status)
    ensures BookOrder(s, intent, order, booking).raised.None? <==> booking.History?
  {
    hide BookFills, FillHistory;
  }

  lemma {:induction false} CancelStatus(s: Spot, symbol: string, cid: string, stage: Stage)
    requires !s.killed
    ensures var r := CancelAndTimeOut(s, symbol, cid, stage);
            && (r.status == Killed <==> r.state.killed) && r.status in {Killed, TimeoutOrder, RejectedOrder}
  {
    hide Apply, ApplyOrderUpdate, Recent;
    UpdateKeepsSending(Notify(s, CancelRequestedEvent(symbol, cid)), Order(symbol, "", cid, CANCELED, false));
  }

  /** The market order is taken and its fills could be looked up. */
  predicate MarketFilled(stage: Stage) {
    && stage.place.Took? && (IsFilled(stage.place.order.status) ==> stage.booking.History?)
  }

  lemma {:induction false} MarketStatus(
    settings: Settings, s: Spot, intent: Intent, tag: OrderTag, now: real, fp: Fingerprint, qty: real, stage: Stage)
    requires !s.killed
    ensures var r := SubmitMarketBuy(settings, s, intent, tag, now, fp, qty, stage);
            && (r.status == Killed <==> r.state.killed)
            && (r.status == FilledOrder <==> MarketFilled(stage))
            && r.status in {Killed, FilledOrder, RejectedOrder}
  {
    hide Apply, ApplyOrderUpdate, BookOrder, Recent, LedgerKept, Tags, RejectTimes, RateLimitTimes;
    if stage.place.Took? {
      var order, cid := stage.place.order, settings.digest(tag);
      var submitted := Notify(s, SubmitEvent(intent.symbol, cid));
      var placed := Placed(cid, tag, true, qty, 0.0, intent.reduceOnly);
      UpdateKeepsSending(submitted.(trace := submitted.trace + [placed]), order);
      var recorded := RecordPlaced(submitted, order, cid, fp, now, placed);
      BookingEffect(recorded, intent, order, stage.booking);
      RaisedIff(recorded, intent, order, stage.booking);
    }
  }

  /** The fallback of a call leaves the timeout standing: a marketable order has none, a buy without an edge is not retried,
      and a second sell may time out too. */
  predicate StaysTimedOut(settings: Settings, c: Call) {
    && TimesOut(settings, c.maker)
    && (|| c.intent.style == Marketable
        || (if Lower(c.intent.side) == "sell" then
              PreSubmitValidate(settings, c.intent, c.refreshed).Validated? && TimesOut(settings, c.taker)
            else c.intent.netEdgeBps <= 0.0))
  }

  predicate SecondFills(settings: Settings, c: Call) {
    && c.intent.style != Marketable && TimesOut(settings, c.maker)
    && if Lower(c.intent.side) == "sell" then
         PreSubmitValidate(settings, c.intent, c.refreshed).Validated? && FilledInTime(settings, c.taker)
       else c.intent.netEdgeBps > 0.0 && MarketFilled(c.taker)
  }

  lemma {:induction false} FallbackStatus(settings: Settings, s: Spot, c: Call, qty: real, fp: Fingerprint)
    requires !s.killed && c.intent.style != Marketable && TimesOut(settings, c.maker)
    ensures var r := Fallback(settings, s, c, qty, fp);
            && (r.status == Killed <==> r.state.killed)
            && (r.status == FilledOrder <==> SecondFills(settings, c))
            && (r.status == TimeoutOrder <==> StaysTimedOut(settings, c))
            && r.status in {Killed, FilledOrder, TimeoutOrder, RejectedOrder, Raised}
  {
    hide Apply, SubmitLimitOrder, SubmitMarketBuy, PreSubmitValidate, Lower, TimesOut, FilledInTime, MarketFilled, TagFor;
    var tag := TagFor(c, 1);
    if Lower(c.intent.side) == "sell" {
      var checked := PreSubmitValidate(settings, c.intent, c.refreshed);
      if checked.Validated? {
        LimitStatus(settings, Notify(s, SubmitEvent(c.intent.symbol, settings.digest(tag))), c.intent, tag, c.now, fp,
                    checked.qty, checked.conservativePrice, c.taker);
      }
    } else if c.intent.netEdgeBps > 0.0 {
      MarketStatus(settings, s, c.intent, tag, c.now, fp, qty, c.taker);
    }
  }

  lemma {:induction false} SendStatus(
    settings: Settings, s: Spot, c: Call, qty: real, maker: real, price: real, fp: Fingerprint)
    requires !s.killed
    ensures var r := SendOrders(settings, s, c, qty, maker, price, fp);
            && (r.status == Killed <==> r.state.killed)
            && (r.status == FilledOrder <==> FilledInTime(settings, c.maker) || SecondFills(settings, c))
            && (r.status == TimeoutOrder <==> StaysTimedOut(settings, c))
            && r.status in {Killed, FilledOrder, TimeoutOrder, RejectedOrder, Raised}
  {
    hide Apply, SubmitLimitOrder, Fallback, PreSubmitValidate, Lower, FilledInTime, TagFor, MarketFilled, TimesOut;
    var tag := TagFor(c, 0);
    var submitted := Notify(s, SubmitEvent(c.intent.symbol, settings.digest(tag)));
    var sent := if c.intent.style == Marketable then price else maker;
    var made := SubmitLimitOrder(settings, submitted, c.intent, tag, c.now, fp, qty, sent, c.maker);
    LimitStatus(settings, submitted, c.intent, tag, c.now, fp, qty, sent, c.maker);
    if c.intent.style != Marketable && TimesOut(settings, c.maker) {
      FallbackStatus(settings, made.state, c, qty, fp);
    }
  }

  /** Main result: what each status of a call means. Killed: the service is killed when the call returns. Blocked: a latch or
      the cooldown stopped it. Deduped: it was seen before, here or on the exchange. Filled: one of its orders filled in
      time, timed out: none did and nothing was left to try. */
  lemma {:induction false} StatusMeans(settings: Settings, s: Spot, c: Call)
    ensures var r := ExecuteIntent(settings, s, c);
            && (r.status == Killed <==> r.state.killed)
            && (r.status == Blocked <==> !s.killed && Stopped(s, c))
            && (r.status == Deduped
                <==> && !Stopped(s, c) && !Condemned(settings, s, c)
                     && (!Admitted(settings, s, c)
                         || (c.existing.Found?
                             && (IsFilled(c.existing.order.status) ==> c.existingBooking.History?))))
            && (r.status == FilledOrder
                <==> && Admitted(settings, s, c) && c.existing.NotFound?
                     && (FilledInTime(settings, c.maker) || SecondFills(settings, c)))
            && (r.status == TimeoutOrder
                <==> Admitted(settings, s, c) && c.existing.NotFound? && StaysTimedOut(settings, c))
  {
    hide SendOrders, PreSubmitValidate, OrderingBlock, FingerprintOf, Evict, TagFor, FilledInTime, SecondFills,
         StaysTimedOut, LedgerKept, Tags, RejectTimes, RateLimitTimes, RecordFound;
    var e := s.(recentCids := Evict(s.recentCids, c.now), recentIntents := Evict(s.recentIntents, c.now));
    var v := PreSubmitValidate(settings, c.intent, c.quote);
    if !s.killed && Admitted(settings, s, c) {
      match c.existing
      case NotFound => SendStatus(settings, e, c, v.qty, v.makerPrice, v.conservativePrice, FingerprintOf(c));
      case Found(order) =>
        FoundEffect(settings, e, c, order);
        FoundRaisedIff(settings, e, c, order);
      case QueryRaised =>
    }
  }

  lemma {:induction false} FoundRaisedIff(settings: Settings, s: Spot, c: Call, order: Order)
    ensures RecordFound(settings, s, c, order).raised.Some? <==> IsFilled(order.status) && c.existingBooking.BookingRaised?
  {
    hide BookFills, FillHistory, ApplyOrderUpdate, TagFor, FingerprintOf;
  }

  /** The cooldown never decides: on every run a service whose cooldown was ever set is killed, and stays so. */
  lemma {:induction false} CooldownMeansKilled(settings: Settings, actions: seq<Action>)
    ensures Run(settings, actions).cooldownUntil != 0.0 ==> Run(settings, actions).killed
    decreases |actions|
  {
    hide ExecuteIntent, ApplyOrderUpdate, RehydrateState, LedgerKept, Tracks, OnlyOrdersOf;
    if actions != [] {
      var n := |actions| - 1;
      var s := Run(settings, actions[..n]);
      CooldownMeansKilled(settings, actions[..n]);
      match actions[n]
      case Intend(c) => ExecuteEffect(settings, s, c);
      case ExchangeUpdate(o) => UpdateKeepsSending(s, o);
      case Rehydrate(orders, fills) => RehydrationCools(s, orders, fills);
      case _ =>
    }
  }

  lemma {:induction false} RehydrationCools(s: Spot, orders: seq<Order>, fills: seq<FillReport>)
    ensures RehydrateState(s, orders, fills).cooldownUntil == s.cooldownUntil
    ensures RehydrateState(s, orders, fills).killed == s.killed
  {
    hide ReplayOrders, ReplayFills;
    ReplayKeepsSending(Cleared(s), orders, fills);
  }

  /** When each latch is set, action by action: safe mode is the only one an operator can lift. */
  lemma {:induction false} LatchesIff(settings: Settings, s: Spot, a: Action)
    ensures var t := Do(settings, s, a);
            && (t.flattenOnly <==> s.flattenOnly || a.Flatten?)
            && (t.safeMode <==> if a.SetSafeMode? then a.on
                                else s.safeMode || a.Operator? || a.Flatten? || (t.killed && !s.killed))
            && (t.killed && !s.killed ==> a.Operator? || (a.Intend? && ExecuteIntent(settings, s, a.call).status == Killed))
            && (a.Operator? ==> t.killed && t.killReason == Some(OperatorKill(a.text))
                                && t.cooldownUntil == Max(s.cooldownUntil, a.at + 300.0))
            && (a.Flatten? ==> t.killReason == Some(FlattenOnlyReason(a.text)) && t.cooldownUntil == s.cooldownUntil)
  {
    hide ExecuteIntent, ApplyOrderUpdate, ReplayOrders, ReplayFills, LedgerKept, Tracks, OnlyOrdersOf, Condemned, Admitted;
    match a
    case Intend(c) =>
      ExecuteEffect(settings, s, c);
      StatusMeans(settings, s, c);
      if s.killed { StoppedKeepsLatches(settings, s, c); }
    case ExchangeUpdate(o) => UpdateKeepsSending(s, o);
    case Rehydrate(orders, fills) => ReplayKeepsSending(Cleared(s), orders, fills);
    case _ =>
  }

  lemma {:induction false} StoppedKeepsLatches(settings: Settings, s: Spot, c: Call)
    requires s.killed
    ensures ExecuteIntent(settings, s, c).state == s
  {
  }

  // ----- Readings that decide -----

  /** A fill is found exactly if one of the polls shows it, it and every poll before it made in time - within the maker
      timeout of the start of the wait - and none before it raised. */
  lemma {:induction false} FillInTimeIsFound(settings: Settings, stage: Stage)
    ensures AwaitFill(stage.polls, Deadline(settings, stage)).Found?
       <==> exists i ::
              && 0 <= i < |stage.polls| && ShowsFill(stage.polls[i])
              && forall j :: 0 <= j <= i ==>
                   && stage.polls[j].at < stage.waitFrom + Max(0.0, settings.makerTimeoutS as real)
                   && !stage.polls[j].reply.QueryRaised?
  {
    var polls, deadline := stage.polls, Deadline(settings, stage);
    assert deadline == stage.waitFrom + Max(0.0, settings.makerTimeoutS as real);
    var n := PollingFindsTheFirst(polls, deadline);
    hide AwaitFill, Deadline;
    if AwaitFill(polls, deadline).Found? {
      assert ShowsFill(polls[n]);
    }
    if i :| && 0 <= i < |polls| && ShowsFill(polls[i])
            && forall j :: 0 <= j <= i ==> polls[j].at < deadline && !polls[j].reply.QueryRaised? {
      assert Settles(polls[i]);
      assert n <= i;
      assert !polls[n].reply.QueryRaised?;
    }
  }

  predicate ShowsFill(poll: Poll) {
    && poll.reply.Found?
    && poll.reply.order.status in {FILLED, PARTIALLY_FILLED, EXECUTED, CLOSED}
  }

  /** Client order ids tell calls apart by symbol, side and second, and the two orders of a call by slice, by nothing else. */
  lemma {:induction false} IdsTellApart(settings: Settings, c: Call, d: Call, i: int, j: int)
    requires CollisionFree(settings)
    ensures settings.digest(TagFor(c, i)) == settings.digest(TagFor(d, j))
       <==> && c.intent.symbol == d.intent.symbol && c.intent.side == d.intent.side && i == j
            && exists second: int :: InSecond(c.now, second) && InSecond(d.now, second)
  {
    assert settings.digest(TagFor(c, i)) == settings.digest(TagFor(d, j)) <==> TagFor(c, i) == TagFor(d, j);
    hide CollisionFree;
    TagsTellApart(c, d, i, j);
  }

  lemma {:induction false} TagsTellApart(c: Call, d: Call, i: int, j: int)
    ensures TagFor(c, i) == TagFor(d, j)
       <==> && c.intent.symbol == d.intent.symbol && c.intent.side == d.intent.side && i == j
            && exists second: int :: InSecond(c.now, second) && InSecond(d.now, second)
  {
    assert InSecond(c.now, c.now.Floor) && InSecond(d.now, d.now.Floor);
    if second :| InSecond(c.now, second) && InSecond(d.now, second) {
      assert c.now.Floor == second && d.now.Floor == second;
    }
  }

  predicate InSecond(at: real, second: int) {
    second as real <= at < second as real + 1.0
  }

  /** Fingerprints tell intents apart exactly by symbol, side, the notional rounded to its sixth decimal and the five-second
      bucket of the reading. */
  lemma {:induction false} FingerprintsTellApart(c: Call, d: Call)
    ensures FingerprintOf(c) == FingerprintOf(d)
       <==> && c.intent.symbol == d.intent.symbol && c.intent.side == d.intent.side
            && (exists micros: int :: RoundsTo(c.intent.targetNotional, micros) && RoundsTo(d.intent.targetNotional, micros))
            && (exists bucket: int :: InBucket(c.fingerprintAt, bucket) && InBucket(d.fingerprintAt, bucket))
  {
    SameBucket(c.fingerprintAt, d.fingerprintAt);
    SameMicros(c.intent.targetNotional, d.intent.targetNotional);
    hide RoundsTo, InBucket;
  }

  lemma {:induction false} SameBucket(at: real, other: real)
    ensures (at / 5.0).Floor == (other / 5.0).Floor <==> exists bucket: int :: InBucket(at, bucket) && InBucket(other, bucket)
  {
    BucketIs(at);
    BucketIs(other);
    hide InBucket;
  }

  lemma {:induction false} BucketIs(at: real)
    ensures InBucket(at, (at / 5.0).Floor)
    ensures forall bucket: int :: InBucket(at, bucket) ==> bucket == (at / 5.0).Floor
  {
  }

  lemma {:induction false} SameMicros(notional: real, other: real)
    ensures (notional * 1000000.0 + 0.5).Floor == (other * 1000000.0 + 0.5).Floor
       <==> exists micros: int :: RoundsTo(notional, micros) && RoundsTo(other, micros)
  {
    MicrosAre(notional);
    MicrosAre(other);
    hide RoundsTo;
  }

  lemma {:induction false} MicrosAre(notional: real)
    ensures RoundsTo(notional, (notional * 1000000.0 + 0.5).Floor)
    ensures forall micros: int :: RoundsTo(notional, micros) ==> micros == (notional * 1000000.0 + 0.5).Floor
  {
  }

  predicate RoundsTo(notional: real, micros: int) {
    -0.0000005 <= notional - micros as real * 0.000001 < 0.0000005
  }

  predicate InBucket(at: real, bucket: int) {
    5.0 * bucket as real <= at < 5.0 * bucket as real + 5.0
  }

  /** Ordering is open exactly in live mode, on Kraken spot, long only and short-locked, with all three sell guards on at a
      floor of at least 120 basis points, harmony and market watch on, and the permissions verified; what closes it is the
      first of mode, doctrine and preflight. */
  lemma {:induction false} OrderingOpenIff(settings: Settings, authValidated: bool)
    ensures var ready := && settings.targetIsKrakenSpot && settings.longOnly && settings.shortLock
                         && settings.harmonyEnabled && settings.marketWatchEnabled
                         && settings.doctrine.blockNonReduceOnlySells && settings.doctrine.enforceCostBasisSellBlock
                         && settings.doctrine.enforceNetProfitSellBlock
                         && settings.doctrine.minimumSellNetProfitBps >= 120.0;
            && (OrderingBlock(settings, authValidated) == None <==> settings.mode == Live && ready && authValidated)
            && (OrderingBlock(settings, authValidated) == Some(OrderingNotAllowed) <==> settings.mode != Live)
            && (OrderingBlock(settings, authValidated) == Some(DoctrineNotReady) <==> settings.mode == Live && !ready)
            && (DoctrineReady(settings) <==> ready)
  {
  }

  /** A symbol passes the preflight exactly if the exchange lists it as an active spot market, its constraints say so too, and
      either next to nothing of it is held or the books about it are trusted. */
  lemma {:induction false} SymbolPassesIff(info: map<string, Listing>, symbol: string, look: Look)
    ensures CheckSymbol(info, symbol, look) == Ready
       <==> && symbol in info && info[symbol].active && info[symbol].spot
            && look.constraints.Some? && look.constraints.value.active && look.constraints.value.spot
            && look.total.Some?
            && (|| look.total.value <= 0.000000001 || look.total.value <= look.constraints.value.minOrderSize
                || AuthoritativeInventory(look.rows, look.balance).Truth?)
  {
    hide AuthoritativeInventory;
  }

  /** What a preflight answers when it fails, as the operator reads it. */
  lemma {:induction false} PreflightAnswers(settings: Settings, probe: Probe)
    ensures var r, doctrine := PreflightOf(settings, probe), settings.whitelisted && DoctrineReady(settings);
            && (r == NotWhitelisted <==> !settings.whitelisted)
            && (r == DoctrineNotInForce <==> settings.whitelisted && !DoctrineReady(settings))
            && (r == ReadonlyReady <==> doctrine && settings.mode == LiveReadonly)
            && (r == MissingCredentials <==> doctrine && settings.mode != LiveReadonly && !probe.hasCredentials)
            && (r == PermissionsRefused
                <==> doctrine && settings.mode != LiveReadonly && probe.hasCredentials && probe.permissions == Some(false))
            && (r == LeverageNotZero <==> PermissionsVerified(settings, probe) && !settings.leverageIsZero)
            && (r.SymbolMissing? ==> probe.info.Some? && r.symbol !in probe.info.value && r.symbol in settings.universe)
            && (r.SymbolInactive? ==>
                  && probe.info.Some? && r.symbol in probe.info.value && r.symbol in settings.universe
                  && !(probe.info.value[r.symbol].active && probe.info.value[r.symbol].spot))
  {
    hide DoctrineReady, CheckSymbols;
    if probe.info.Some? { FirstFailureTold(probe.info.value, settings.universe, probe.look); }
  }

  lemma {:induction false} FirstFailureTold(info: map<string, Listing>, symbols: seq<string>, look: string -> Look)
    ensures var r := CheckSymbols(info, symbols, look);
            && r !in {NotWhitelisted, DoctrineNotInForce, ReadonlyReady, MissingCredentials, PermissionsRefused,
                      LeverageNotZero}
            && (r.SymbolMissing? ==> r.symbol !in info && r.symbol in symbols)
            && (r.SymbolInactive? ==>
                  && r.symbol in info && r.symbol in symbols && !(info[r.symbol].active && info[r.symbol].spot))
    decreases symbols
  {
    hide AuthoritativeInventory;
    if symbols != [] {
      FirstFailureTold(info, symbols[1..], look);
      assert symbols == [symbols[0]] + symbols[1..];
    }
  }

  /** A refusal tells a fault the intent or the market really has, and a condemned call leaves that as the kill reason. */
  lemma {:induction false} RefusalsTellTheFault(settings: Settings, intent: Intent, quote: Quote)
    requires PreSubmitValidate(settings, intent, quote).Refused?
    ensures var r := PreSubmitValidate(settings, intent, quote).refusal;
            && (r == TargetInvalid <==> !intent.targetsKrakenSpot)
            && (r == InvalidSide ==> Lower(intent.side) != "buy" && Lower(intent.side) != "sell")
            && (r == InvalidTargetNotional ==> intent.targetNotional <= 0.0)
            && (r == MarketWatchBlocksEntries ==> intent.watchBlocksEntries && !intent.reduceOnly)
            && (r == MarketIntegrityBlocksEntries ==> intent.integrityBlocksEntries && !intent.reduceOnly)
            && (r == QuoteUnavailable ==>
                  quote.book.None? || quote.book.value.bid <= 0.0 || quote.book.value.ask <= 0.0)
            && (r == InvalidSymbolConstraints ==>
                  quote.book.Some? && !(quote.book.value.active && quote.book.value.spot))
            && (r == NonReduceSellBlock ==> Lower(intent.side) == "sell" && !intent.reduceOnly)
            && (r.SellGuard? ==> Lower(intent.side) == "sell" && intent.reduceOnly && r.verdict != Pass)
  {
    hide GuardOf, Lower;
  }

  lemma {:induction false} KillReasonTold(settings: Settings, s: Spot, c: Call)
    requires !Stopped(s, c) && Condemned(settings, s, c)
    ensures var block := OrderingBlock(settings, s.authValidated);
            ExecuteIntent(settings, s, c).state.killReason
            == Some(if block.Some? then block.value
                    else PreSubmit(PreSubmitValidate(settings, c.intent, c.quote).refusal))
    ensures ExecuteIntent(settings, s, c).state.cooldownUntil == Max(s.cooldownUntil, c.failAt + 300.0)
  {
    hide PreSubmitValidate, OrderingBlock, Deduplicate;
  }

  // ----- Why and when a call kills -----

  /** Killed for this reason, with a cooldown of 300 seconds from this reading. */
  predicate Struck(s: Spot, t: Spot, reason: KillReason, at: real) {
    t.killReason == Some(reason) && t.cooldownUntil == Max(s.cooldownUntil, at + 300.0)
  }

  function StormReason(rateLimited: bool): KillReason {
    if rateLimited then RateLimitStorm else RejectStorm
  }

  /** A limit order kills for a failed preview, for the storm its rejection joins, or, once taken, for the rate limits its
      cancellation joins. */
  function LimitReason(stage: Stage): KillReason {
    if !stage.previewOk then PreviewFailed
    else if stage.place.Threw? then StormReason(stage.place.rateLimited)
    else RateLimitStorm
  }

  function MarketReason(stage: Stage): KillReason {
    StormReason(if stage.place.Threw? then stage.place.rateLimited else stage.booking.BookingRaised? && stage.booking.rateLimited)
  }

  predicate Retried(settings: Settings, c: Call) {
    c.intent.style != Marketable && TimesOut(settings, c.maker)
  }

  function SendReason(settings: Settings, c: Call): KillReason {
    if !Retried(settings, c) then LimitReason(c.maker)
    else if Lower(c.intent.side) != "sell" then MarketReason(c.taker)
    else
      match PreSubmitValidate(settings, c.intent, c.refreshed)
      case Refused(refusal) => PreSubmit(refusal)
      case Validated(_, _, _) => LimitReason(c.taker)
  }

  lemma {:induction false} GuardStrikes(s: Spot, rateLimited: bool, at: real, killAt: real)
    requires !s.killed
    ensures var t := RejectGuard(s, rateLimited, at, killAt).state; t.killed ==> Struck(s, t, StormReason(rateLimited), killAt)
  {
    hide Recent;
  }

  lemma {:induction false} CancelStrikes(s: Spot, symbol: string, cid: string, stage: Stage)
    requires !s.killed
    ensures var t := CancelAndTimeOut(s, symbol, cid, stage).state; t.killed ==> Struck(s, t, RateLimitStorm, stage.killAt)
  {
    hide Apply, ApplyOrderUpdate, Recent;
    UpdateKeepsSending(Notify(s, CancelRequestedEvent(symbol, cid)), Order(symbol, "", cid, CANCELED, false));
  }

  lemma {:induction false} WaitStrikes(settings: Settings, s: Spot, intent: Intent, cid: string, order: Order, stage: Stage)
    requires !s.killed
    ensures var t := AfterPlaced(settings, s, intent, cid, order, stage).state;
            t.killed ==> Struck(s, t, RateLimitStorm, stage.killAt)
  {
    hide ApplyOrderUpdate, CancelAndTimeOut, BookOrder, LedgerKept, Tags, RejectTimes, RateLimitTimes, Struck;
    var reply := AwaitFill(stage.polls, Deadline(settings, stage));
    BookingEffect(s, intent, order, stage.booking);
    if reply.Found? {
      UpdateKeepsSending(s, reply.order);
      BookingEffect(ApplyOrderUpdate(s, reply.order), intent, reply.order, stage.booking);
    }
    CancelStrikes(s, intent.symbol, cid, stage);
  }

  lemma {:induction false} LimitStrikes(
    settings: Settings, s: Spot, intent: Intent, tag: OrderTag, now: real, fp: Fingerprint,
    qty: real, price: real, stage: Stage)
    requires !s.killed
    ensures var t := SubmitLimitOrder(settings, s, intent, tag, now, fp, qty, price, stage).state;
            t.killed ==> Struck(s, t, LimitReason(stage), stage.killAt)
  {
    hide Apply, ApplyOrderUpdate, AfterPlaced, RejectGuard;
    var cid := settings.digest(tag);
    match stage.place
    case Threw(rateLimited) => GuardStrikes(Notify(s, RejectedEvent(intent.symbol, cid)), rateLimited, stage.guardAt, stage.killAt);
    case Took(order) =>
      var placed := Placed(cid, tag, false, qty, price, intent.reduceOnly);
      UpdateKeepsSending(s.(trace := s.trace + [placed]), order);
      WaitStrikes(settings, RecordPlaced(s, order, cid, fp, now, placed), intent, cid, order, stage);
  }

  lemma {:induction false} MarketStrikes(
    settings: Settings, s: Spot, intent: Intent, tag: OrderTag, now: real, fp: Fingerprint, qty: real, stage: Stage)
    requires !s.killed
    ensures var t := SubmitMarketBuy(settings, s, intent, tag, now, fp, qty, stage).state;
            t.killed ==> Struck(s, t, MarketReason(stage), stage.killAt)
  {
    hide Apply, ApplyOrderUpdate, BookOrder, RejectGuard, LedgerKept, Tags, RejectTimes, RateLimitTimes, Struck;
    var cid := settings.digest(tag);
    var submitted := Notify(s, SubmitEvent(intent.symbol, cid));
    match stage.place
    case Threw(rateLimited) =>
      GuardStrikes(Notify(submitted, RejectedEvent(intent.symbol, cid)), rateLimited, stage.guardAt, stage.killAt);
      SameCooldown(s, Notify(submitted, RejectedEvent(intent.symbol, cid)));
    case Took(order) =>
      var placed := Placed(cid, tag, true, qty, 0.0, intent.reduceOnly);
      UpdateKeepsSending(submitted.(trace := submitted.trace + [placed]), order);
      var recorded := RecordPlaced(submitted, order, cid, fp, now, placed);
      BookingEffect(recorded, intent, order, stage.booking);
      RaisedIs(recorded, intent, order, stage.booking);
      var refused := Notify(recorded, RejectedEvent(intent.symbol, cid));
      GuardStrikes(refused, stage.booking.BookingRaised? && stage.booking.rateLimited, stage.guardAt, stage.killAt);
      SameCooldown(s, refused);
  }

  lemma {:induction false} SameCooldown(s: Spot, m: Spot)
    requires m.cooldownUntil == s.cooldownUntil
    ensures forall t, reason, at :: Struck(m, t, reason, at) ==> Struck(s, t, reason, at)
  {
  }

  lemma {:induction false} RaisedIs(s: Spot, intent: Intent, order: Order, booking: Booking)
    ensures BookOrder(s, intent, order, booking).raised
         == if IsFilled(order.status) && booking.BookingRaised? then Some(booking.rateLimited) else None
  {
    hide BookFills, FillHistory;
  }

  lemma {:induction false} FallbackStrikes(settings: Settings, s: Spot, c: Call, qty: real, fp: Fingerprint)
    requires !s.killed && Retried(settings, c)
    ensures var t := Fallback(settings, s, c, qty, fp).state;
            t.killed ==> Struck(s, t, SendReason(settings, c), c.taker.killAt)
  {
    hide Apply, SubmitLimitOrder, SubmitMarketBuy, PreSubmitValidate, Lower, TimesOut, TagFor, LimitReason, MarketReason;
    var tag := TagFor(c, 1);
    if Lower(c.intent.side) == "sell" {
      var checked := PreSubmitValidate(settings, c.intent, c.refreshed);
      if checked.Validated? {
        var submitted := Notify(s, SubmitEvent(c.intent.symbol, settings.digest(tag)));
        LimitStrikes(settings, submitted, c.intent, tag, c.now, fp, checked.qty, checked.conservativePrice, c.taker);
      }
    } else if c.intent.netEdgeBps > 0.0 {
      MarketStrikes(settings, s, c.intent, tag, c.now, fp, qty, c.taker);
    }
  }

  lemma {:induction false} SendStrikes(
    settings: Settings, s: Spot, c: Call, qty: real, maker: real, price: real, fp: Fingerprint)
    requires !s.killed
    ensures var t := SendOrders(settings, s, c, qty, maker, price, fp).state;
            t.killed ==> Struck(s, t, SendReason(settings, c), if Retried(settings, c) then c.taker.killAt else c.maker.killAt)
  {
    hide Apply, SubmitLimitOrder, Fallback, PreSubmitValidate, Lower, TimesOut, TagFor, LimitReason, MarketReason, LedgerKept,
         LimitPostings, PostAll, FilledInTime, Tracks, OnlyPlaces;
    var tag := TagFor(c, 0);
    var submitted := Notify(s, SubmitEvent(c.intent.symbol, settings.digest(tag)));
    var sent := if c.intent.style == Marketable then price else maker;
    var made := SubmitLimitOrder(settings, submitted, c.intent, tag, c.now, fp, qty, sent, c.maker);
    LimitStrikes(settings, submitted, c.intent, tag, c.now, fp, qty, sent, c.maker);
    LimitStatus(settings, submitted, c.intent, tag, c.now, fp, qty, sent, c.maker);
    LimitEffect(settings, submitted, c.intent, tag, c.now, fp, qty, sent, c.maker);
    if Retried(settings, c) {
      FallbackStrikes(settings, made.state, c, qty, fp);
    }
  }

  /** Main result: the reason and the cooldown of every kill a call makes, read off its inputs: the condemnation before
      anything is sent, or what happened to its only order, or to the one that followed a timeout. */
  lemma {:induction false} KillTold(settings: Settings, s: Spot, c: Call)
    requires !s.killed && ExecuteIntent(settings, s, c).state.killed
    ensures var t := ExecuteIntent(settings, s, c).state;
            if Condemned(settings, s, c) then
              var block := OrderingBlock(settings, s.authValidated);
              Struck(s, t, if block.Some? then block.value
                           else PreSubmit(PreSubmitValidate(settings, c.intent, c.quote).refusal), c.failAt)
            else
              Struck(s, t, SendReason(settings, c), if Retried(settings, c) then c.taker.killAt else c.maker.killAt)
  {
    hide SendOrders, PreSubmitValidate, OrderingBlock, FingerprintOf, Evict, TagFor, Retried, SendReason, LedgerKept, Tags,
         RejectTimes, RateLimitTimes, RecordFound;
    var e := s.(recentCids := Evict(s.recentCids, c.now), recentIntents := Evict(s.recentIntents, c.now));
    var v := PreSubmitValidate(settings, c.intent, c.quote);
    if !Condemned(settings, s, c) {
      match c.existing
      case NotFound => SendStrikes(settings, e, c, v.qty, v.makerPrice, v.conservativePrice, FingerprintOf(c));
      case Found(order) => FoundEffect(settings, e, c, order);
      case QueryRaised =>
    }
  }
}
