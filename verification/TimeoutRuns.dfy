/** Timeouts over whole runs: no record of the mirror ever ends as timed out, as long as placement replies reach the
    record they are about. */
module TimeoutRuns {
  import opened FifoLedger
  import opened OrderLifecycle
  import opened SpotService
  import opened SpotSafety
  import opened SpotRuns
  import opened TimeoutClosure

  /** Records are held under their own keys, and none has timed out. */
  ghost predicate NoneTimedOut(m: Mirror) {
    forall k :: k in m.records ==> m.records[k].orderKey == k && m.records[k].state != TimedOut
  }

  /** `id` leads to the record of `key`, which is in state `state`. */
  predicate LeadsTo(m: Mirror, id: string, key: string, state: State) {
    Resolve(m, id) == key && key in m.records && m.records[key].orderKey == key && m.records[key].state == state
  }

  /** The condition on a call, readable when it is made: whatever is placed, the reply carries the submitted id, is no
      replace status, and does not rank below a status kept for that id. */
  ghost predicate RepliesReach(settings: Settings, s: Spot, c: Call) {
    && ReplyReaches(settings, s, TagFor(c, 0), c.maker) && ReplyReaches(settings, s, TagFor(c, 1), c.taker)
  }

  ghost predicate ReplyReaches(settings: Settings, s: Spot, tag: OrderTag, stage: Stage) {
    stage.place.Took? ==>
      stage.place.order.clientOrderId == settings.digest(tag) != "" && Moves(s, stage.place.order)
  }

  // ----- Events -----

  lemma {:induction false} OtherEventsTimeNothingOut(m: Mirror, e: Event)
    requires NoneTimedOut(m) && e.to != TimedOut
    ensures NoneTimedOut(Apply(m, e))
  {
    hide Legal, Remember, Logged;
  }

  lemma {:induction false} UpdatesTimeNothingOut(s: Spot, o: Order)
    requires NoneTimedOut(s.mirror)
    ensures NoneTimedOut(ApplyOrderUpdate(s, o).mirror)
  {
    hide NoneTimedOut, Apply, StatusRank;
    if IsReplace(o.status) {
      SameRecords(s.mirror, ApplyOrder(s.mirror, Stripped(o)));
    } else {
      OtherEventsTimeNothingOut(s.mirror, ExchangeEvent(Stripped(o)));
    }
  }

  lemma {:induction false} SameRecords(m: Mirror, n: Mirror)
    requires NoneTimedOut(m) && n.records == m.records
    ensures NoneTimedOut(n)
  {
  }

  lemma {:induction false} BookingTimesNothingOut(s: Spot, fills: seq<FillReport>)
    requires NoneTimedOut(s.mirror)
    ensures NoneTimedOut(BookFills(s, fills).mirror)
    decreases |fills|
  {
    if fills != [] { BookingTimesNothingOut(s, fills[..|fills| - 1]); }
  }

  lemma {:induction false} FillsTimeNothingOut(s: Spot, fills: seq<FillReport>)
    requires NoneTimedOut(s.mirror)
    ensures NoneTimedOut(ReplayFills(s, fills).mirror)
    decreases |fills|
  {
    if fills != [] { FillsTimeNothingOut(s, fills[..|fills| - 1]); }
  }

  lemma {:induction false} OrderBookingTimesNothingOut(s: Spot, intent: Intent, order: Order, booking: Booking)
    requires NoneTimedOut(s.mirror)
    ensures NoneTimedOut(BookOrder(s, intent, order, booking).state.mirror)
  {
    hide BookFills, FillHistory, NoneTimedOut;
    if booking.History? {
      BookingTimesNothingOut(s, ReportsOf(FillHistory(LedgerFilter(intent, order), booking.rows).0));
    }
  }

  /** An event moves the record its id leads to, and the id still leads there. */
  lemma {:induction false} LedStep(m: Mirror, id: string, key: string, state: State, e: Event)
    requires LeadsTo(m, id, key, state) && e.orderKey == id
    ensures LeadsTo(Apply(m, e), id, key, Moved(state, e.to))
  {
    hide Allowed;
  }

  /** From wherever a record is but SUBMITTED, a cancellation and its answer lead where a timeout is refused. */
  lemma {:induction false} NoTimeoutAfterCancel(state: State, answer: State)
    requires state != Submitted && answer in {Cancelled, CancelRejected}
    ensures !Legal(Moved(Moved(state, CancelPending), answer), TimedOut)
  {
  }

  lemma {:induction false} LedUpdate(s: Spot, id: string, key: string, state: State, order: Order)
    requires LeadsTo(s.mirror, id, key, state) && OrderKey(order) == id && id != ""
    ensures Moves(s, order) ==> LeadsTo(ApplyOrderUpdate(s, order).mirror, id, key, Moved(state, StateFor(order.status)))
    ensures !Moves(s, order) ==> LeadsTo(ApplyOrderUpdate(s, order).mirror, id, key, state)
  {
    hide Legal, StateFor, StatusRank, Apply;
    LedStep(s.mirror, id, key, state, ExchangeEvent(Stripped(order)));
  }

  // ----- Submissions -----

  lemma {:induction false} CancelTimesNothingOut(s: Spot, symbol: string, cid: string, key: string, state: State, stage: Stage)
    requires NoneTimedOut(s.mirror) && LeadsTo(s.mirror, cid, key, state) && state != Submitted && cid != ""
    ensures NoneTimedOut(CancelAndTimeOut(s, symbol, cid, stage).state.mirror)
  {
    hide Apply, ApplyOrderUpdate, NoneTimedOut, Legal, Recent, LeadsTo;
    var request := CancelRequestedEvent(symbol, cid);
    var requested := Notify(s, request);
    OtherEventsTimeNothingOut(s.mirror, request);
    LedStep(s.mirror, cid, key, state, request);
    var asked := Moved(state, CancelPending);
    match stage.cancel
    case CancelDone =>
      var o := Order(symbol, "", cid, CANCELED, false);
      var cancelled := ApplyOrderUpdate(requested, o);
      UpdatesTimeNothingOut(requested, o);
      CancelledMoves(requested, o);
      LedUpdate(requested, cid, key, asked, o);
      NoTimeoutAfterCancel(state, Cancelled);
      RefusedTimeout(cancelled.mirror, symbol, cid, key, Moved(asked, Cancelled));
    case CancelThrew(limited) =>
      var refused := Notify(requested, CancelRejectedEvent(symbol, cid));
      OtherEventsTimeNothingOut(requested.mirror, CancelRejectedEvent(symbol, cid));
      LedStep(requested.mirror, cid, key, asked, CancelRejectedEvent(symbol, cid));
      NoTimeoutAfterCancel(state, CancelRejected);
      RefusedTimeout(refused.mirror, symbol, cid, key, Moved(asked, CancelRejected));
  }

  lemma {:induction false} CancelledMoves(s: Spot, o: Order)
    requires o.status == CANCELED
    ensures Moves(s, o)
  {
  }

  lemma {:induction false} RefusedTimeout(m: Mirror, symbol: string, cid: string, key: string, state: State)
    requires NoneTimedOut(m) && LeadsTo(m, cid, key, state) && !Legal(state, TimedOut)
    ensures NoneTimedOut(Apply(m, TimedOutEvent(symbol, cid)))
  {
    hide Legal, Remember, Logged;
  }

  lemma {:induction false} WaitTimesNothingOut(
    settings: Settings, s: Spot, intent: Intent, cid: string, order: Order, key: string, state: State, stage: Stage)
    requires NoneTimedOut(s.mirror) && cid != ""
    requires !IsFilled(order.status) ==> LeadsTo(s.mirror, cid, key, state) && state != Submitted
    ensures NoneTimedOut(AfterPlaced(settings, s, intent, cid, order, stage).state.mirror)
  {
    hide ApplyOrderUpdate, NoneTimedOut, LeadsTo, CancelAndTimeOut, AwaitFill, BookOrder;
    if IsFilled(order.status) {
      OrderBookingTimesNothingOut(s, intent, order, stage.booking);
    } else {
      match AwaitFill(stage.polls, Deadline(settings, stage))
      case QueryRaised =>
      case Found(current) =>
        UpdatesTimeNothingOut(s, current);
        OrderBookingTimesNothingOut(ApplyOrderUpdate(s, current), intent, current, stage.booking);
      case NotFound =>
        CancelTimesNothingOut(s, intent.symbol, cid, key, state, stage);
    }
  }

  lemma {:induction false} LimitTimesNothingOut(
    settings: Settings, s: Spot, intent: Intent, tag: OrderTag, now: real, fp: Fingerprint,
    qty: real, price: real, key: string, state: State, stage: Stage)
    requires NoneTimedOut(s.mirror) && LeadsTo(s.mirror, settings.digest(tag), key, state)
    requires ReplyReaches(settings, s, tag, stage)
    ensures NoneTimedOut(SubmitLimitOrder(settings, s, intent, tag, now, fp, qty, price, stage).state.mirror)
  {
    hide ApplyOrderUpdate, NoneTimedOut, Legal, LeadsTo, AfterPlaced, RejectGuard, StateFor, IsReplace, StatusRank, Notify;
    var cid := settings.digest(tag);
    if !stage.previewOk {
      NotifyTimesNothingOut(s, RejectedEvent(intent.symbol, cid));
    } else {
      match stage.place
      case Threw(limited) =>
        RejectionTimesNothingOut(s, RejectedEvent(intent.symbol, cid), limited, stage.guardAt, stage.killAt);
      case Took(order) =>
        var placed := Placed(cid, tag, false, qty, price, intent.reduceOnly);
        var sent := s.(trace := s.trace + [placed]);
        var recorded := RecordPlaced(s, order, cid, fp, now, placed);
        RecordTimesNothingOut(s, order, cid, fp, now, placed);
        LedUpdate(sent, cid, key, state, order);
        LeavesSubmitted(state, order.status);
        WaitTimesNothingOut(settings, recorded, intent, cid, order, key, Moved(state, StateFor(order.status)), stage);
    }
  }

  lemma {:induction false} LeavesSubmitted(state: State, status: Wire)
    requires !IsReplace(status)
    ensures Moved(state, StateFor(status)) != Submitted
  {
  }

  lemma {:induction false} RejectionTimesNothingOut(s: Spot, e: Event, rateLimited: bool, at: real, killAt: real)
    requires NoneTimedOut(s.mirror) && e.to == Rejected
    ensures NoneTimedOut(RejectGuard(Notify(s, e), rateLimited, at, killAt).state.mirror)
  {
    hide Recent, NoneTimedOut, Apply;
    OtherEventsTimeNothingOut(s.mirror, e);
  }

  lemma {:induction false} RecordTimesNothingOut(
    s: Spot, order: Order, cid: string, fp: Fingerprint, now: real, placed: Trace)
    requires NoneTimedOut(s.mirror)
    ensures NoneTimedOut(RecordPlaced(s, order, cid, fp, now, placed).mirror)
  {
    hide ApplyOrderUpdate, NoneTimedOut;
    UpdatesTimeNothingOut(s.(trace := s.trace + [placed]), order);
  }

  lemma {:induction false} MarketTimesNothingOut(
    settings: Settings, s: Spot, intent: Intent, tag: OrderTag, now: real, fp: Fingerprint, qty: real, stage: Stage)
    requires NoneTimedOut(s.mirror)
    ensures NoneTimedOut(SubmitMarketBuy(settings, s, intent, tag, now, fp, qty, stage).state.mirror)
  {
    hide Apply, NoneTimedOut, BookOrder, RejectGuard, RecordPlaced, Notify;
    var cid := settings.digest(tag);
    var reject, submitted := RejectedEvent(intent.symbol, cid), Notify(s, SubmitEvent(intent.symbol, cid));
    NotifyTimesNothingOut(s, SubmitEvent(intent.symbol, cid));
    match stage.place
    case Threw(limited) =>
      RejectionTimesNothingOut(submitted, reject, limited, stage.guardAt, stage.killAt);
    case Took(order) =>
      var placed := Placed(cid, tag, true, qty, 0.0, intent.reduceOnly);
      var recorded := RecordPlaced(submitted, order, cid, fp, now, placed);
      RecordTimesNothingOut(submitted, order, cid, fp, now, placed);
      OrderBookingTimesNothingOut(recorded, intent, order, stage.booking);
      var raised := BookOrder(recorded, intent, order, stage.booking).raised;
      if raised.Some? {
        RejectionTimesNothingOut(recorded, reject, raised.value, stage.guardAt, stage.killAt);
      }
  }

  lemma {:induction false} NotifyTimesNothingOut(s: Spot, e: Event)
    requires NoneTimedOut(s.mirror) && e.to != TimedOut
    ensures NoneTimedOut(Notify(s, e).mirror)
  {
    hide Apply, NoneTimedOut;
    OtherEventsTimeNothingOut(s.mirror, e);
  }

  /** After a submission the id leads to some record held under its own key. */
  lemma {:induction false} SubmittedLeads(s: Spot, symbol: string, cid: string) returns (key: string, state: State)
    requires NoneTimedOut(s.mirror)
    ensures LeadsTo(Notify(s, SubmitEvent(symbol, cid)).mirror, cid, key, state)
    ensures NoneTimedOut(Notify(s, SubmitEvent(symbol, cid)).mirror)
  {
    OtherEventsTimeNothingOut(s.mirror, SubmitEvent(symbol, cid));
    key := Resolve(s.mirror, cid);
    var m := Notify(s, SubmitEvent(symbol, cid)).mirror;
    hide Legal;
    state := m.records[key].state;
  }

  // ----- Calls -----

  predicate SameStatusOf(s: Spot, t: Spot, id: string) {
    && (id in t.orderStatus <==> id in s.orderStatus)
    && (id in s.orderStatus ==> t.orderStatus[id] == s.orderStatus[id])
  }

  lemma {:induction false} UpdateKeepsOtherStatus(s: Spot, o: Order, id: string)
    requires OrderKey(o) != id
    ensures SameStatusOf(s, ApplyOrderUpdate(s, o), id)
  {
    hide ApplyOrder, StatusRank;
  }

  lemma {:induction false} CancelKeepsOtherStatus(s: Spot, symbol: string, cid: string, stage: Stage, id: string)
    requires cid != id && cid != "" && CancelAndTimeOut(s, symbol, cid, stage).status == TimeoutOrder
    ensures SameStatusOf(s, CancelAndTimeOut(s, symbol, cid, stage).state, id)
  {
    hide Apply, ApplyOrderUpdate, RateLimitGuard;
    var requested := Notify(s, CancelRequestedEvent(symbol, cid));
    UpdateKeepsOtherStatus(requested, Order(symbol, "", cid, CANCELED, false), id);
    if stage.cancel.CancelThrew? {
      RateLimitEffect(Notify(requested, CancelRejectedEvent(symbol, cid)), stage.guardAt, stage.killAt);
    }
  }

  /** The statuses kept for other ids are untouched by an order that times out. */
  lemma {:induction false} FirstOrderKeepsOtherStatus(
    settings: Settings, s: Spot, intent: Intent, tag: OrderTag, now: real, fp: Fingerprint,
    qty: real, price: real, stage: Stage, id: string)
    requires ReplyReaches(settings, s, tag, stage) && id != settings.digest(tag)
    requires SubmitLimitOrder(settings, s, intent, tag, now, fp, qty, price, stage).status == TimeoutOrder
    ensures SameStatusOf(s, SubmitLimitOrder(settings, s, intent, tag, now, fp, qty, price, stage).state, id)
  {
    hide Apply, ApplyOrderUpdate, AwaitFill, BookOrder, Moves, RejectGuard, CancelAndTimeOut, StatusRank;
    var cid := settings.digest(tag);
    if stage.place.Threw? {
      RejectEffect(Notify(s, RejectedEvent(intent.symbol, cid)), stage.place.rateLimited, stage.guardAt, stage.killAt);
    } else {
      var placed := Placed(cid, tag, false, qty, price, intent.reduceOnly);
      var recorded := RecordPlaced(s, stage.place.order, cid, fp, now, placed);
      UpdateKeepsOtherStatus(s.(trace := s.trace + [placed]), stage.place.order, id);
      assert SubmitLimitOrder(settings, s, intent, tag, now, fp, qty, price, stage).state
          == CancelAndTimeOut(recorded, intent.symbol, cid, stage).state;
      CancelKeepsOtherStatus(recorded, intent.symbol, cid, stage, id);
    }
  }

  lemma {:induction false} FallbackTimesNothingOut(settings: Settings, s: Spot, c: Call, qty: real, fp: Fingerprint)
    requires NoneTimedOut(s.mirror) && ReplyReaches(settings, s, TagFor(c, 1), c.taker)
    ensures NoneTimedOut(Fallback(settings, s, c, qty, fp).state.mirror)
  {
    hide SubmitLimitOrder, SubmitMarketBuy, Apply, PreSubmitValidate, Lower, NoneTimedOut, StatusRank, IsReplace, LeadsTo;
    var tag := TagFor(c, 1);
    if Lower(c.intent.side) == "sell" {
      var checked := PreSubmitValidate(settings, c.intent, c.refreshed);
      if checked.Validated? {
        var submitted := Notify(s, SubmitEvent(c.intent.symbol, settings.digest(tag)));
        var key, state := SubmittedLeads(s, c.intent.symbol, settings.digest(tag));
        LimitTimesNothingOut(settings, submitted, c.intent, tag, c.now, fp, checked.qty, checked.conservativePrice, key,
                             state, c.taker);
      }
    } else if c.intent.netEdgeBps > 0.0 {
      MarketTimesNothingOut(settings, s, c.intent, tag, c.now, fp, qty, c.taker);
    }
  }

  lemma {:induction false} SendTimesNothingOut(
    settings: Settings, s: Spot, c: Call, qty: real, makerPrice: real, price: real, fp: Fingerprint)
    requires CollisionFree(settings) && NoneTimedOut(s.mirror) && RepliesReach(settings, s, c)
    ensures NoneTimedOut(SendOrders(settings, s, c, qty, makerPrice, price, fp).state.mirror)
  {
    hide SubmitLimitOrder, Fallback, Apply, NoneTimedOut, StatusRank, IsReplace, LeadsTo;
    var tag := TagFor(c, 0);
    var submitted := Notify(s, SubmitEvent(c.intent.symbol, settings.digest(tag)));
    var sent := if c.intent.style == Marketable then price else makerPrice;
    var made := SubmitLimitOrder(settings, submitted, c.intent, tag, c.now, fp, qty, sent, c.maker);
    var key, state := SubmittedLeads(s, c.intent.symbol, settings.digest(tag));
    LimitTimesNothingOut(settings, submitted, c.intent, tag, c.now, fp, qty, sent, key, state, c.maker);
    if c.intent.style != Marketable && made.status == TimeoutOrder {
      var id := settings.digest(TagFor(c, 1));
      assert TagFor(c, 1) != tag;
      FirstOrderKeepsOtherStatus(settings, submitted, c.intent, tag, c.now, fp, qty, sent, c.maker, id);
      assert ReplyReaches(settings, made.state, TagFor(c, 1), c.taker);
      FallbackTimesNothingOut(settings, made.state, c, qty, fp);
    }
  }

  lemma {:induction false} ExecuteTimesNothingOut(settings: Settings, s: Spot, c: Call)
    requires CollisionFree(settings) && NoneTimedOut(s.mirror) && RepliesReach(settings, s, c)
    ensures NoneTimedOut(ExecuteIntent(settings, s, c).state.mirror)
  {
    hide SendOrders, RecordFound, PreSubmitValidate, OrderingBlock, NoneTimedOut, FingerprintOf, Evict, TagFor,
         CollisionFree;
    var t := ExecuteIntent(settings, s, c).state;
    if t.mirror != s.mirror {
      var e := s.(recentCids := Evict(s.recentCids, c.now), recentIntents := Evict(s.recentIntents, c.now));
      var checked := PreSubmitValidate(settings, c.intent, c.quote);
      if c.existing.Found? {
        FoundTimesNothingOut(settings, e, c, c.existing.order);
      } else {
        assert RepliesReach(settings, e, c);
        SendTimesNothingOut(settings, e, c, checked.qty, checked.makerPrice, checked.conservativePrice, FingerprintOf(c));
      }
    }
  }

  lemma {:induction false} FoundTimesNothingOut(settings: Settings, s: Spot, c: Call, order: Order)
    requires NoneTimedOut(s.mirror)
    ensures NoneTimedOut(RecordFound(settings, s, c, order).state.mirror)
  {
    hide ApplyOrderUpdate, BookOrder, NoneTimedOut, TagFor, FingerprintOf;
    var applied := ApplyOrderUpdate(s, order);
    UpdatesTimeNothingOut(s, order);
    OrderBookingTimesNothingOut(
      applied.(recentCids := applied.recentCids[settings.digest(TagFor(c, 0)) := c.now],
               recentIntents := applied.recentIntents[FingerprintOf(c) := c.now]),
      c.intent, order, c.existingBooking);
  }

  // ----- Runs -----

  lemma {:induction false} ReplayTimesNothingOut(s: Spot, orders: seq<Order>)
    requires NoneTimedOut(s.mirror)
    ensures NoneTimedOut(ReplayOrders(s, orders).mirror)
    decreases |orders|
  {
    hide ApplyOrderUpdate, NoneTimedOut;
    if orders != [] {
      ReplayTimesNothingOut(s, orders[..|orders| - 1]);
      UpdatesTimeNothingOut(ReplayOrders(s, orders[..|orders| - 1]), orders[|orders| - 1]);
    }
  }

  lemma {:induction false} StepTimesNothingOut(settings: Settings, s: Spot, a: Action)
    requires CollisionFree(settings) && NoneTimedOut(s.mirror)
    requires a.Intend? ==> RepliesReach(settings, s, a.call)
    ensures NoneTimedOut(Do(settings, s, a).mirror)
  {
    hide ExecuteIntent, ApplyOrderUpdate, ReplayOrders, ReplayFills, RepliesReach, CollisionFree;
    match a
    case Intend(c) => ExecuteTimesNothingOut(settings, s, c);
    case ExchangeUpdate(o) => UpdatesTimeNothingOut(s, o);
    case Rehydrate(orders, fills) =>
      ReplayTimesNothingOut(Cleared(s), orders);
      FillsTimeNothingOut(ReplayOrders(Cleared(s), orders), fills);
    case _ =>
  }

  /** Main result: on every run whose placement replies reach their records, no lifecycle record is ever timed out: each
      `timed_out` event the service raises is refused. */
  lemma {:induction false} NoRecordTimesOut(settings: Settings, actions: seq<Action>, key: string)
    requires CollisionFree(settings)
    requires forall k :: 0 <= k < |actions| && actions[k].Intend? ==>
               RepliesReach(settings, Run(settings, actions[..k]), actions[k].call)
    ensures StateOf(Run(settings, actions).mirror, key) != Some(TimedOut)
  {
    hide Run, RepliesReach, CollisionFree;
    RunTimesNothingOut(settings, actions);
  }

  lemma {:induction false} RunTimesNothingOut(settings: Settings, actions: seq<Action>)
    requires CollisionFree(settings)
    requires forall k :: 0 <= k < |actions| && actions[k].Intend? ==>
               RepliesReach(settings, Run(settings, actions[..k]), actions[k].call)
    ensures NoneTimedOut(Run(settings, actions).mirror)
    decreases |actions|
  {
    hide Do, RepliesReach, CollisionFree;
    if actions != [] {
      var n := |actions| - 1;
      forall k | 0 <= k < n && actions[..n][k].Intend?
        ensures RepliesReach(settings, Run(settings, actions[..n][..k]), actions[..n][k].call)
      {
        assert actions[..n][..k] == actions[..k];
      }
      RunTimesNothingOut(settings, actions[..n]);
      assert actions[n].Intend? ==> RepliesReach(settings, Run(settings, actions[..n]), actions[n].call);
      StepTimesNothingOut(settings, Run(settings, actions[..n]), actions[n]);
    }
  }
}
