/** Whether the status kept for an order and the state of its record agree: after one limit or market order, after one call,
    and over runs. */
module StatusAgreement {
  import opened FifoLedger
  import opened OrderLifecycle
  import opened SpotService
  import opened SpotSafety
  import opened SpotBooks
  import opened TimeoutClosure
  import opened OrderLane

  // ----- What one submission does to agreement -----

  /** Where the reply to a placement leaves a submitted record. */
  function PlacedState(status: Wire): State {
    if IsReplace(status) then Submitted else StateFor(status)
  }

  predicate CancelAgrees(from: State, cancel: CancelReply) {
    if cancel.CancelDone? then from !in {Rejected, Expired} else from in {Cancelled, Rejected, Expired}
  }

  /** The condition on the replies to one limit order. */
  predicate LimitAgrees(settings: Settings, stage: Stage) {
    && stage.previewOk && stage.place.Took?
    && var status := stage.place.order.status;
       IsFilled(status)
       || match AwaitFill(stage.polls, Deadline(settings, stage))
          case QueryRaised => !IsReplace(status)
          case Found(current) =>
            StatusRank(current.status) < StatusRank(status) || MirrorFollows(PlacedState(status), current.status)
          case NotFound => CancelAgrees(PlacedState(status), stage.cancel)
  }

  predicate MarketAgrees(stage: Stage) {
    stage.place.Took? && !IsReplace(stage.place.order.status)
  }

  /** Every reply of the stage names the order by `cid`. */
  ghost predicate RepliesOwn(stage: Stage, cid: string) {
    && (stage.place.Took? ==> OrderKey(stage.place.order) == cid)
    && forall i :: 0 <= i < |stage.polls| && stage.polls[i].reply.Found? ==> OrderKey(stage.polls[i].reply.order) == cid
  }

  lemma {:induction false} PollOwn(settings: Settings, stage: Stage, cid: string)
    requires RepliesOwn(stage, cid)
    ensures var reply := AwaitFill(stage.polls, Deadline(settings, stage));
            reply.Found? ==> OrderKey(reply.order) == cid && IsFilled(reply.order.status)
  {
    var n := PollingFindsTheFirst(stage.polls, Deadline(settings, stage));
  }

  /** A reply that is no fill, then what the cancellation does. */
  lemma {:induction false} CancelWalk(symbol: string, cid: string, cancel: CancelReply, status: Wire)
    requires cid != "" && !IsFilled(status)
    ensures Agrees(Walk(Lane(Some(status), Some(PlacedState(status))), CancelPostings(symbol, cid, cancel), cid))
       <==> CancelAgrees(PlacedState(status), cancel)
  {
    var x, from := Lane(Some(status), Some(PlacedState(status))), PlacedState(status);
    var request := Tell(CancelRequestedEvent(symbol, cid));
    var answer := if cancel.CancelDone? then Track(Order(symbol, "", cid, CANCELED, false))
                  else Tell(CancelRejectedEvent(symbol, cid));
    var late := Tell(TimedOutEvent(symbol, cid));
    WalkOne(x, request, cid);
    WalkAppend(x, [request], [answer], cid);
    WalkOne(Along(x, request, cid), answer, cid);
    var y := Along(Along(x, request, cid), answer, cid);
    WalkAppend(x, [request] + [answer], [late], cid);
    WalkOne(y, late, cid);
    assert CancelPostings(symbol, cid, cancel)
        == [request] + [answer] + if cancel == CancelThrew(true) then [] else [late];
    assert [request] + [answer] + [] == [request] + [answer];
    hide Walk, Along;
    CancelledLane(symbol, cid, cancel, status);
  }

  /** The walk of CancelWalk, state by state. */
  lemma {:induction false} CancelledLane(symbol: string, cid: string, cancel: CancelReply, status: Wire)
    requires cid != "" && !IsFilled(status)
    ensures var x := Along(Lane(Some(status), Some(PlacedState(status))), Tell(CancelRequestedEvent(symbol, cid)), cid);
            var answer := if cancel.CancelDone? then Track(Order(symbol, "", cid, CANCELED, false))
                          else Tell(CancelRejectedEvent(symbol, cid));
            var y := Along(x, answer, cid);
            && (Agrees(y) <==> CancelAgrees(PlacedState(status), cancel))
            && (Agrees(Along(y, Tell(TimedOutEvent(symbol, cid)), cid)) <==> CancelAgrees(PlacedState(status), cancel))
  {
  }

  lemma {:induction false} PlacedLane(order: Order, cid: string)
    requires OrderKey(order) == cid
    ensures Along(Lane(None, Some(Submitted)), Track(order), cid) == Lane(Some(order.status), Some(PlacedState(order.status)))
  {
  }

  lemma {:induction false} TrackedWalk(x: Lane, intent: Intent, order: Order, booking: Booking, cid: string)
    ensures Walk(x, [Track(order)] + OrderBookings(intent, order, booking), cid) == Along(x, Track(order), cid)
    ensures Walk(x, OrderBookings(intent, order, booking), cid) == x
  {
    hide Walk, Along, FillHistory, ReportsOf;
    WalkOne(x, Track(order), cid);
    WalkAppend(x, [Track(order)], OrderBookings(intent, order, booking), cid);
    WalkPast(x, OrderBookings(intent, order, booking), cid);
    WalkPast(Along(x, Track(order), cid), OrderBookings(intent, order, booking), cid);
  }

  /** The postings of a limit order, from a submitted record on. */
  lemma {:induction false} LimitWalk(settings: Settings, intent: Intent, cid: string, stage: Stage)
    requires cid != "" && RepliesOwn(stage, cid)
    ensures Agrees(Walk(Lane(None, Some(Submitted)), LimitPostings(settings, intent, cid, stage), cid))
       <==> LimitAgrees(settings, stage)
  {
    hide Walk, AwaitFill, CancelPostings, OrderBookings, PlacedState, IsReplace, CancelAgrees, StatusRank, StateFor, Legal;
    var x := Lane(None, Some(Submitted));
    if !stage.previewOk || stage.place.Threw? {
      WalkOne(x, Tell(RejectedEvent(intent.symbol, cid)), cid);
    } else {
      var order := stage.place.order;
      var y := Lane(Some(order.status), Some(PlacedState(order.status)));
      PlacedLane(order, cid);
      WalkOne(x, Track(order), cid);
      WalkAppend(x, [Track(order)], WaitPostings(settings, intent, cid, order, stage), cid);
      PollOwn(settings, stage, cid);
      WaitWalk(settings, intent, cid, order, stage, y);
    }
  }

  lemma {:induction false} WaitWalk(
    settings: Settings, intent: Intent, cid: string, order: Order, stage: Stage, x: Lane)
    requires cid != "" && x == Lane(Some(order.status), Some(PlacedState(order.status)))
    requires var reply := AwaitFill(stage.polls, Deadline(settings, stage));
             reply.Found? ==> OrderKey(reply.order) == cid && IsFilled(reply.order.status)
    requires stage.previewOk && stage.place == Took(order)
    ensures Agrees(Walk(x, WaitPostings(settings, intent, cid, order, stage), cid)) <==> LimitAgrees(settings, stage)
  {
    hide Walk, AwaitFill, CancelPostings, OrderBookings, CancelAgrees, Along;
    var reply := AwaitFill(stage.polls, Deadline(settings, stage));
    if IsFilled(order.status) {
      TrackedWalk(x, intent, order, stage.booking, cid);
    } else {
      match reply
      case QueryRaised => WalkPast(x, [], cid);
      case Found(current) =>
        TrackedWalk(x, intent, current, stage.booking, cid);
        PolledLane(order.status, current, cid);
      case NotFound => CancelWalk(intent.symbol, cid, stage.cancel, order.status);
    }
  }

  lemma {:induction false} PolledLane(status: Wire, current: Order, cid: string)
    requires !IsFilled(status) && OrderKey(current) == cid && IsFilled(current.status)
    ensures Agrees(Along(Lane(Some(status), Some(PlacedState(status))), Track(current), cid))
       <==> StatusRank(current.status) < StatusRank(status) || MirrorFollows(PlacedState(status), current.status)
  {
  }

  lemma {:induction false} LimitIsOwn(settings: Settings, intent: Intent, cid: string, stage: Stage)
    requires RepliesOwn(stage, cid)
    ensures forall p :: p in LimitPostings(settings, intent, cid, stage) ==> Own(p, cid)
  {
    hide AwaitFill, FillHistory, ReportsOf;
    PollOwn(settings, stage, cid);
  }

  /** Main result: exactly when kept status and mirror agree after a fresh limit order, by what the exchange answered:
      always after a fill, else as the poll or the cancellation goes. */
  lemma {:induction false} LimitAgreesIff(
    settings: Settings, s: Spot, intent: Intent, tag: OrderTag, now: real, fp: Fingerprint,
    qty: real, price: real, stage: Stage)
    requires var cid := settings.digest(tag);
             cid != "" && Holds(s.mirror, cid, Submitted) && cid !in s.orderStatus && RepliesOwn(stage, cid)
    ensures AgreesOn(SubmitLimitOrder(settings, s, intent, tag, now, fp, qty, price, stage).state, settings.digest(tag))
       <==> LimitAgrees(settings, stage)
  {
    hide SubmitLimitOrder, LimitPostings, LimitAgrees, Walk, RepliesOwn, PostAll, Own;
    var cid := settings.digest(tag);
    LimitPosted(settings, s, intent, tag, now, fp, qty, price, stage);
    LimitIsOwn(settings, intent, cid, stage);
    OwnWalks(BooksOf(s), LimitPostings(settings, intent, cid, stage), cid);
    LimitWalk(settings, intent, cid, stage);
    LaneAgrees(SubmitLimitOrder(settings, s, intent, tag, now, fp, qty, price, stage).state, cid);
  }

  /** The ordinary fills end as they should: a fresh limit order that is filled at once, or answered as working and then
      polled as filled, is kept as filled and its record is FILLED. */
  lemma {:induction false} FillsLand(
    settings: Settings, s: Spot, intent: Intent, tag: OrderTag, now: real, fp: Fingerprint,
    qty: real, price: real, stage: Stage)
    requires var cid := settings.digest(tag);
             cid != "" && Holds(s.mirror, cid, Submitted) && cid !in s.orderStatus && RepliesOwn(stage, cid)
    requires stage.previewOk && stage.place.Took?
    requires var status, reply := stage.place.order.status, AwaitFill(stage.polls, Deadline(settings, stage));
             || status in {FILLED, EXECUTED}
             || (&& status !in {PARTIALLY_FILLED, CLOSED, CANCELED, CANCELLED, REJECTED, EXPIRED}
                 && reply.Found? && reply.order.status in {FILLED, EXECUTED})
    ensures var t, cid := SubmitLimitOrder(settings, s, intent, tag, now, fp, qty, price, stage).state, settings.digest(tag);
            && StateOf(t.mirror, cid) == Some(Filled)
            && cid in t.orderStatus && t.orderStatus[cid] in {FILLED, EXECUTED}
  {
    hide SubmitLimitOrder, LimitPostings, Walk, RepliesOwn, PostAll, Own, AwaitFill, StateFor, Legal, StatusRank;
    var cid, t := settings.digest(tag), SubmitLimitOrder(settings, s, intent, tag, now, fp, qty, price, stage).state;
    LimitPosted(settings, s, intent, tag, now, fp, qty, price, stage);
    LimitIsOwn(settings, intent, cid, stage);
    OwnWalks(BooksOf(s), LimitPostings(settings, intent, cid, stage), cid);
    FilledWalk(settings, intent, cid, stage);
    assert LaneOf(BooksOf(t), cid) == Walk(Lane(None, Some(Submitted)), LimitPostings(settings, intent, cid, stage), cid);
  }

  lemma {:induction false} FilledWalk(settings: Settings, intent: Intent, cid: string, stage: Stage)
    requires cid != "" && RepliesOwn(stage, cid) && stage.previewOk && stage.place.Took?
    requires var status, reply := stage.place.order.status, AwaitFill(stage.polls, Deadline(settings, stage));
             || status in {FILLED, EXECUTED}
             || (&& status !in {PARTIALLY_FILLED, CLOSED, CANCELED, CANCELLED, REJECTED, EXPIRED}
                 && reply.Found? && reply.order.status in {FILLED, EXECUTED})
    ensures var x := Walk(Lane(None, Some(Submitted)), LimitPostings(settings, intent, cid, stage), cid);
            x.state == Some(Filled) && x.kept in {Some(FILLED), Some(EXECUTED)}
  {
    hide Walk, AwaitFill, CancelPostings, OrderBookings;
    var order, x := stage.place.order, Lane(None, Some(Submitted));
    var y := Along(x, Track(order), cid);
    PlacedLane(order, cid);
    WalkOne(x, Track(order), cid);
    WalkAppend(x, [Track(order)], WaitPostings(settings, intent, cid, order, stage), cid);
    PollOwn(settings, stage, cid);
    var reply := AwaitFill(stage.polls, Deadline(settings, stage));
    if IsFilled(order.status) {
      TrackedWalk(y, intent, order, stage.booking, cid);
    } else {
      TrackedWalk(y, intent, reply.order, stage.booking, cid);
    }
  }

  /** The postings of a market order, from nothing on. */
  lemma {:induction false} MarketWalk(intent: Intent, cid: string, stage: Stage)
    requires cid != "" && RepliesOwn(stage, cid)
    ensures Agrees(Walk(NOTHING, MarketPostings(intent, cid, stage), cid)) <==> MarketAgrees(stage)
  {
    var submit, reject := Tell(SubmitEvent(intent.symbol, cid)), Tell(RejectedEvent(intent.symbol, cid));
    var x, y := NOTHING, Lane(None, Some(Submitted));
    hide Walk, OrderBookings;
    WalkOne(x, submit, cid);
    if stage.place.Threw? {
      WalkAppend(x, [submit], [reject], cid);
      WalkOne(y, reject, cid);
    } else {
      var order := stage.place.order;
      var z := Lane(Some(order.status), Some(PlacedState(order.status)));
      PlacedLane(order, cid);
      WalkOne(y, Track(order), cid);
      WalkOne(z, reject, cid);
      WalkAppend(y, [Track(order)], [reject], cid);
      TrackedWalk(y, intent, order, stage.booking, cid);
      WalkAppend(x, [submit], [Track(order)] + if IsFilled(order.status) && stage.booking.BookingRaised? then [reject]
                              else OrderBookings(intent, order, stage.booking), cid);
    }
  }

  /** A market order leaves agreement exactly when its reply carries no replace status: a booking that raises makes the
      service report a rejection, but the mirror takes that from no filled state. */
  lemma {:induction false} MarketAgreesIff(
    settings: Settings, s: Spot, intent: Intent, tag: OrderTag, now: real, fp: Fingerprint, qty: real, stage: Stage)
    requires var cid := settings.digest(tag);
             && cid != "" && Straight(s.mirror, cid) && LaneOf(BooksOf(s), cid) == NOTHING
             && RepliesOwn(stage, cid)
    ensures AgreesOn(SubmitMarketBuy(settings, s, intent, tag, now, fp, qty, stage).state, settings.digest(tag))
       <==> MarketAgrees(stage)
  {
    hide SubmitMarketBuy, MarketAgrees, Walk, PostAll, LaneOf, FillHistory, ReportsOf, Straight;
    var cid := settings.digest(tag);
    MarketPosted(settings, s, intent, tag, now, fp, qty, stage);
    OwnWalks(BooksOf(s), MarketPostings(intent, cid, stage), cid);
    MarketWalk(intent, cid, stage);
    LaneAgrees(SubmitMarketBuy(settings, s, intent, tag, now, fp, qty, stage).state, cid);
  }

  // ----- Calls -----

  predicate CleanOrder(o: Order, key: string, ids: set<string>) {
    CleanIds(OrderKey(o), o.orderId, o.clientOrderId, key, ids)
  }

  ghost predicate RepliesClean(stage: Stage, key: string, ids: set<string>) {
    && (stage.place.Took? ==> CleanOrder(stage.place.order, key, ids))
    && forall i :: 0 <= i < |stage.polls| && stage.polls[i].reply.Found? ==>
         CleanOrder(stage.polls[i].reply.order, key, ids)
  }

  /** The ids of the order are kept apart from those of other orders, in all the ids and replies of an action. */
  ghost predicate ActionClean(settings: Settings, a: Action, key: string, ids: set<string>) {
    match a
    case Intend(c) =>
      && (forall slice :: slice == 0 || slice == 1 ==> CleanCid(settings.digest(TagFor(c, slice)), key, ids))
      && RepliesClean(c.maker, key, ids) && RepliesClean(c.taker, key, ids)
      && (c.existing.Found? ==> CleanOrder(c.existing.order, key, ids))
    case ExchangeUpdate(o) => CleanOrder(o, key, ids)
    case Rehydrate(orders, _) => forall o :: o in orders ==> CleanOrder(o, key, ids)
    case _ => true
  }

  predicate CleanCid(cid: string, key: string, ids: set<string>) {
    cid == key || cid !in ids
  }

  lemma {:induction false} PollClean(settings: Settings, stage: Stage, key: string, ids: set<string>)
    requires RepliesClean(stage, key, ids)
    ensures var reply := AwaitFill(stage.polls, Deadline(settings, stage));
            reply.Found? ==> CleanOrder(reply.order, key, ids)
  {
    hide CleanIds;
    var n := PollingFindsTheFirst(stage.polls, Deadline(settings, stage));
  }

  lemma {:induction false} LimitClean(
    settings: Settings, intent: Intent, cid: string, stage: Stage, key: string, ids: set<string>)
    requires key in ids && "" !in ids && CleanCid(cid, key, ids) && RepliesClean(stage, key, ids)
    ensures AllClean(LimitPostings(settings, intent, cid, stage), key, ids)
  {
    hide AwaitFill, FillHistory, ReportsOf;
    PollClean(settings, stage, key, ids);
  }

  lemma {:induction false} TookClean(stage: Stage, key: string, ids: set<string>)
    requires RepliesClean(stage, key, ids)
    ensures stage.place.Took? ==> CleanOrder(stage.place.order, key, ids)
  {
  }

  lemma {:induction false} FallbackClean(settings: Settings, c: Call, key: string, ids: set<string>)
    requires key in ids && "" !in ids
    requires CleanCid(settings.digest(TagFor(c, 1)), key, ids) && RepliesClean(c.taker, key, ids)
    ensures AllClean(FallbackPostings(settings, c), key, ids)
  {
    hide LimitPostings, FillHistory, ReportsOf, TagFor, PreSubmitValidate, Lower, RepliesClean;
    LimitClean(settings, c.intent, settings.digest(TagFor(c, 1)), c.taker, key, ids);
    TookClean(c.taker, key, ids);
  }

  lemma {:induction false} CallClean(settings: Settings, s: Spot, c: Call, key: string, ids: set<string>)
    requires key in ids && "" !in ids && ActionClean(settings, Intend(c), key, ids)
    ensures AllClean(CallPostings(settings, s, c), key, ids)
  {
    hide Admitted, LimitPostings, FallbackPostings, FillHistory, ReportsOf, TagFor, TimesOut, RepliesClean;
    LimitClean(settings, c.intent, settings.digest(TagFor(c, 0)), c.maker, key, ids);
    FallbackClean(settings, c, key, ids);
  }

  lemma {:induction false} PostingsClean(settings: Settings, s: Spot, a: Action, key: string, ids: set<string>)
    requires key in ids && "" !in ids && ActionClean(settings, a, key, ids)
    ensures AllClean(ActionPostings(settings, s, a), key, ids)
  {
    hide CallPostings, CleanIds;
    match a
    case Intend(c) => CallClean(settings, s, c, key, ids);
    case Rehydrate(orders, fills) =>
      forall p | p in ActionPostings(settings, s, a) ensures Clean(p, key, ids) {
        if p in TrackingsOf(orders) {
          var i :| 0 <= i < |orders| && p == Track(orders[i]);
          assert orders[i] in orders;
        }
      }
    case _ =>
  }

  /** One action acts on the lane of an order as its postings do. */
  lemma {:induction false} ActionLane(settings: Settings, s: Spot, a: Action, key: string, ids: set<string>)
    requires key in ids && "" !in ids && ActionClean(settings, a, key, ids) && Tidy(s.mirror, key, ids)
    ensures Tidy(Do(settings, s, a).mirror, key, ids)
    ensures LaneOf(BooksOf(Do(settings, s, a)), key)
         == Walk(LaneOf(BooksOf(s), key), ActionPostings(settings, s, a), key)
  {
    hide Do, ActionPostings, ActionClean, AllClean, Tidy, LaneOf, Walk, PostAll;
    ActionPosted(settings, s, a);
    PostingsClean(settings, s, a, key, ids);
    LaneWalks(BooksOf(s), ActionPostings(settings, s, a), key, ids);
  }

  /** What a submitted call does to its first order. */
  lemma {:induction false} FirstOrderWalk(settings: Settings, c: Call)
    requires var cid0, cid1 := settings.digest(TagFor(c, 0)), settings.digest(TagFor(c, 1));
             cid0 != "" && cid1 != cid0 && RepliesOwn(c.maker, cid0) && RepliesOwn(c.taker, cid1)
    ensures Agrees(Walk(NOTHING, SendPostings(settings, c), settings.digest(TagFor(c, 0))))
       <==> LimitAgrees(settings, c.maker)
  {
    hide Walk, LimitPostings, FallbackPostings, LimitAgrees, TimesOut, TagFor, RepliesOwn, Passes;
    var cid := settings.digest(TagFor(c, 0));
    var submit, limit := Tell(SubmitEvent(c.intent.symbol, cid)), LimitPostings(settings, c.intent, cid, c.maker);
    var y := Lane(None, Some(Submitted));
    WalkOne(NOTHING, submit, cid);
    WalkAppend(NOTHING, [submit], limit, cid);
    LimitWalk(settings, c.intent, cid, c.maker);
    FallbackPasses(settings, c, cid);
    WalkAppend(NOTHING, [submit] + limit, FallbackPostings(settings, c), cid);
    WalkPast(Walk(y, limit, cid), FallbackPostings(settings, c), cid);
    assert [submit] + limit + [] == [submit] + limit;
  }

  lemma {:induction false} LimitPasses(settings: Settings, intent: Intent, cid: string, stage: Stage, key: string)
    requires cid != key && RepliesOwn(stage, cid)
    ensures forall p :: p in LimitPostings(settings, intent, cid, stage) ==> Passes(p, key)
  {
    hide AwaitFill, FillHistory, ReportsOf;
    PollOwn(settings, stage, cid);
  }

  lemma {:induction false} FallbackPasses(settings: Settings, c: Call, key: string)
    requires var cid := settings.digest(TagFor(c, 1)); cid != key && RepliesOwn(c.taker, cid)
    ensures forall p :: p in FallbackPostings(settings, c) ==> Passes(p, key)
  {
    hide LimitPostings, FillHistory, ReportsOf, TagFor, PreSubmitValidate, Lower;
    LimitPasses(settings, c.intent, settings.digest(TagFor(c, 1)), c.taker, key);
  }

  /** What the fallback must answer for its order to end in agreement. */
  predicate SecondAgrees(settings: Settings, c: Call) {
    && c.intent.style != Marketable && TimesOut(settings, c.maker)
    && if Lower(c.intent.side) == "sell" then
         PreSubmitValidate(settings, c.intent, c.refreshed).Validated? && LimitAgrees(settings, c.taker)
       else c.intent.netEdgeBps > 0.0 && MarketAgrees(c.taker)
  }

  lemma {:induction false} SecondOrderWalk(settings: Settings, c: Call)
    requires var cid0, cid1 := settings.digest(TagFor(c, 0)), settings.digest(TagFor(c, 1));
             cid0 != "" && cid1 != "" && cid1 != cid0 && RepliesOwn(c.maker, cid0) && RepliesOwn(c.taker, cid1)
    ensures Agrees(Walk(NOTHING, SendPostings(settings, c), settings.digest(TagFor(c, 1))))
       <==> SecondAgrees(settings, c)
  {
    hide Walk, LimitPostings, FallbackPostings, LimitAgrees, MarketAgrees, TimesOut, TagFor, RepliesOwn, Passes,
         PreSubmitValidate, Lower;
    var cid0, cid := settings.digest(TagFor(c, 0)), settings.digest(TagFor(c, 1));
    var first := [Tell(SubmitEvent(c.intent.symbol, cid0))] + LimitPostings(settings, c.intent, cid0, c.maker);
    LimitPasses(settings, c.intent, cid0, c.maker, cid);
    assert Passes(Tell(SubmitEvent(c.intent.symbol, cid0)), cid) by { OthersPass(c.intent.symbol, cid0, cid); }
    WalkPast(NOTHING, first, cid);
    FallbackWalk(settings, c);
    WalkAppend(NOTHING, first, FallbackPostings(settings, c), cid);
    assert first + [] == first;
  }

  lemma {:induction false} OthersPass(symbol: string, cid: string, key: string)
    requires cid != key
    ensures Passes(Tell(SubmitEvent(symbol, cid)), key)
  {
  }

  lemma {:induction false} FallbackWalk(settings: Settings, c: Call)
    requires var cid := settings.digest(TagFor(c, 1)); cid != "" && RepliesOwn(c.taker, cid)
    ensures Agrees(Walk(NOTHING, FallbackPostings(settings, c), settings.digest(TagFor(c, 1))))
       <==> if Lower(c.intent.side) == "sell" then
              PreSubmitValidate(settings, c.intent, c.refreshed).Validated? && LimitAgrees(settings, c.taker)
            else c.intent.netEdgeBps > 0.0 && MarketAgrees(c.taker)
  {
    hide Walk, LimitPostings, LimitAgrees, MarketPostings, MarketAgrees, TagFor, RepliesOwn, PreSubmitValidate, Lower;
    var cid := settings.digest(TagFor(c, 1));
    var submit, limit := Tell(SubmitEvent(c.intent.symbol, cid)), LimitPostings(settings, c.intent, cid, c.taker);
    WalkPast(NOTHING, [], cid);
    WalkOne(NOTHING, submit, cid);
    WalkAppend(NOTHING, [submit], limit, cid);
    LimitWalk(settings, c.intent, cid, c.taker);
    MarketWalk(c.intent, cid, c.taker);
  }

  /** The two ids of the call differ, and every reply names the order it is about. */
  ghost predicate Addressed(settings: Settings, c: Call) {
    var cid0, cid1 := settings.digest(TagFor(c, 0)), settings.digest(TagFor(c, 1));
    && cid0 != "" && cid1 != "" && cid1 != cid0 && RepliesOwn(c.maker, cid0) && RepliesOwn(c.taker, cid1)
    && (c.existing.Found? ==> OrderKey(c.existing.order) == cid0)
  }

  /** What the exchange must answer for the order of a slice to end in agreement. */
  predicate CallAgrees(settings: Settings, c: Call, slice: int) {
    match c.existing
    case QueryRaised => false
    case Found(order) => slice == 0 && !IsReplace(order.status)
    case NotFound => if slice == 0 then LimitAgrees(settings, c.maker) else SecondAgrees(settings, c)
  }

  lemma {:induction false} CallWalk(settings: Settings, s: Spot, c: Call, slice: int)
    requires Addressed(settings, c) && (slice == 0 || slice == 1)
    ensures Agrees(Walk(NOTHING, CallPostings(settings, s, c), settings.digest(TagFor(c, slice))))
       <==> Admitted(settings, s, c) && CallAgrees(settings, c, slice)
  {
    hide SendPostings, LimitAgrees, SecondAgrees, TagFor, RepliesOwn, Walk, Admitted, OrderBookings, LimitPostings, Along;
    var key := settings.digest(TagFor(c, slice));
    WalkPast(NOTHING, [], key);
    if Admitted(settings, s, c) {
      match c.existing
      case QueryRaised =>
      case Found(order) =>
        TrackedWalk(NOTHING, c.intent, order, c.existingBooking, key);
        FoundLane(order, key);
      case NotFound => if slice == 0 { FirstOrderWalk(settings, c); } else { SecondOrderWalk(settings, c); }
    }
  }

  lemma {:induction false} FoundLane(order: Order, key: string)
    ensures Agrees(Along(NOTHING, Track(order), key)) <==> OrderKey(order) == key && !IsReplace(order.status)
  {
  }

  /** Main result: exactly when a call leaves status and mirror in agreement on its first order, and on its second, the id
      being fresh. */
  lemma {:induction false} CallAgreesIff(settings: Settings, s: Spot, c: Call, slice: int, ids: set<string>)
    requires Addressed(settings, c) && (slice == 0 || slice == 1)
    requires var key := settings.digest(TagFor(c, slice));
             && LaneOf(BooksOf(s), key) == NOTHING && Tidy(s.mirror, key, ids)
             && key in ids && "" !in ids && ActionClean(settings, Intend(c), key, ids)
    ensures AgreesOn(ExecuteIntent(settings, s, c).state, settings.digest(TagFor(c, slice)))
       <==> Admitted(settings, s, c) && CallAgrees(settings, c, slice)
  {
    hide ExecuteIntent, ActionClean, Tidy, LaneOf, CallPostings, CallAgrees, TagFor, Addressed, Walk, Admitted;
    var key := settings.digest(TagFor(c, slice));
    ActionLane(settings, s, Intend(c), key, ids);
    DoesCall(settings, s, c);
    CallWalk(settings, s, c, slice);
    TidyIsStraight(ExecuteIntent(settings, s, c).state.mirror, key, ids);
    LaneAgrees(ExecuteIntent(settings, s, c).state, key);
  }

  lemma {:induction false} DoesCall(settings: Settings, s: Spot, c: Call)
    ensures Do(settings, s, Intend(c)) == ExecuteIntent(settings, s, c).state
  {
    hide ExecuteIntent;
  }

  lemma {:induction false} TidyIsStraight(m: Mirror, key: string, ids: set<string>)
    requires Tidy(m, key, ids)
    ensures Straight(m, key)
  {
  }

  /** No id of the action names the order by its key. */
  ghost predicate AboutOthers(settings: Settings, a: Action, key: string) {
    match a
    case Intend(c) =>
      && settings.digest(TagFor(c, 0)) != key && settings.digest(TagFor(c, 1)) != key
      && RepliesPass(c.maker, key) && RepliesPass(c.taker, key)
      && (c.existing.Found? ==> OrderKey(c.existing.order) != key)
    case ExchangeUpdate(o) => OrderKey(o) != key
    case Rehydrate(_, _) => false
    case _ => true
  }

  ghost predicate RepliesPass(stage: Stage, key: string) {
    && (stage.place.Took? ==> OrderKey(stage.place.order) != key)
    && forall i :: 0 <= i < |stage.polls| && stage.polls[i].reply.Found? ==> OrderKey(stage.polls[i].reply.order) != key
  }

  lemma {:induction false} StagePasses(settings: Settings, intent: Intent, cid: string, stage: Stage, key: string)
    requires cid != key && RepliesPass(stage, key)
    ensures forall p :: p in LimitPostings(settings, intent, cid, stage) ==> Passes(p, key)
    ensures forall p :: p in MarketPostings(intent, cid, stage) ==> Passes(p, key)
  {
    hide AwaitFill, FillHistory, ReportsOf;
    var n := PollingFindsTheFirst(stage.polls, Deadline(settings, stage));
  }

  lemma {:induction false} CallPasses(settings: Settings, s: Spot, c: Call, key: string)
    requires AboutOthers(settings, Intend(c), key)
    ensures forall p :: p in CallPostings(settings, s, c) ==> Passes(p, key)
  {
    hide Admitted, LimitPostings, MarketPostings, FillHistory, ReportsOf, TagFor, TimesOut, PreSubmitValidate, Lower,
         RepliesPass;
    StagePasses(settings, c.intent, settings.digest(TagFor(c, 0)), c.maker, key);
    StagePasses(settings, c.intent, settings.digest(TagFor(c, 1)), c.taker, key);
  }

  /** An action that never names the order by its key leaves its status, its state and so their agreement alone, however
      its own orders go. */
  lemma {:induction false} OthersKeepTheLane(settings: Settings, s: Spot, a: Action, key: string, ids: set<string>)
    requires Tidy(s.mirror, key, ids) && key in ids && "" !in ids
    requires ActionClean(settings, a, key, ids) && AboutOthers(settings, a, key)
    ensures LaneOf(BooksOf(Do(settings, s, a)), key) == LaneOf(BooksOf(s), key)
    ensures AgreesOn(Do(settings, s, a), key) <==> AgreesOn(s, key)
  {
    hide Do, CallPostings, ActionClean, Tidy, LaneOf, Walk;
    ActionLane(settings, s, a, key, ids);
    if a.Intend? { CallPasses(settings, s, a.call, key); }
    WalkPast(LaneOf(BooksOf(s), key), ActionPostings(settings, s, a), key);
    TidyIsStraight(s.mirror, key, ids);
    TidyIsStraight(Do(settings, s, a).mirror, key, ids);
    LaneAgrees(s, key);
    LaneAgrees(Do(settings, s, a), key);
  }

  // ----- Runs -----

  /** The condition on an action from a state of agreement: the order's own lane, walked along what the action posts about
      it, ends in agreement. It looks at the status kept and at the inputs only. */
  ghost predicate Follows(settings: Settings, s: Spot, a: Action, key: string)
    requires key in s.orderStatus
  {
    var kept := s.orderStatus[key];
    Agrees(Walk(Lane(Some(kept), Some(StateFor(kept))), ActionPostings(settings, s, a), key))
  }

  /** The condition read off the inputs: actions about other orders always follow; an update of the order follows if and
      only if it is stale or the mirror, in the state of the kept status, can follow it; a rehydration if and only if the
      stored orders do so from nothing. */
  lemma {:induction false} FollowsIff(settings: Settings, s: Spot, a: Action, key: string)
    requires key in s.orderStatus
    ensures AboutOthers(settings, a, key) ==> Follows(settings, s, a, key)
    ensures a.ExchangeUpdate? && OrderKey(a.order) == key != "" ==>
              (Follows(settings, s, a, key)
               <==> Stale(s, a.order) || MirrorFollows(StateFor(s.orderStatus[key]), a.order.status))
    ensures a.Rehydrate? ==> (Follows(settings, s, a, key) <==> Agrees(Walk(NOTHING, TrackingsOf(a.orders), key)))
  {
    hide CallPostings, Walk, TagFor, Admitted, Legal;
    var kept := s.orderStatus[key];
    var x, ps := Lane(Some(kept), Some(StateFor(kept))), ActionPostings(settings, s, a);
    match a
    case Intend(c) =>
      if AboutOthers(settings, a, key) {
        CallPasses(settings, s, c, key);
        WalkPast(x, ps, key);
      }
    case ExchangeUpdate(o) => WalkOne(x, Track(o), key);
    case Rehydrate(orders, fills) =>
      WalkOne(x, Forget, key);
      WalkAppend(x, [Forget], TrackingsOf(orders), key);
      WalkAppend(x, [Forget] + TrackingsOf(orders), BookingsOf(fills), key);
      WalkPast(Walk(NOTHING, TrackingsOf(orders), key), BookingsOf(fills), key);
    case _ => WalkPast(x, ps, key);
  }

  /** Agreement survives an action exactly when the mirror can follow it. */
  lemma {:induction false} FollowingKeeps(settings: Settings, s: Spot, a: Action, key: string, ids: set<string>)
    requires AgreesOn(s, key) && Tidy(s.mirror, key, ids) && key in ids && "" !in ids && ActionClean(settings, a, key, ids)
    ensures AgreesOn(Do(settings, s, a), key) <==> Follows(settings, s, a, key)
    ensures Tidy(Do(settings, s, a).mirror, key, ids)
  {
    hide Do, ActionPostings, ActionClean, Tidy, Walk, StateFor;
    ActionLane(settings, s, a, key, ids);
    TidyIsStraight(Do(settings, s, a).mirror, key, ids);
    LaneAgrees(Do(settings, s, a), key);
  }

  lemma {:induction false} RunLane(settings: Settings, actions: seq<Action>, key: string, ids: set<string>)
    requires key in ids && "" !in ids && forall a :: a in actions ==> ActionClean(settings, a, key, ids)
    ensures Tidy(Run(settings, actions).mirror, key, ids)
    ensures LaneOf(BooksOf(Run(settings, actions)), key) == Walk(NOTHING, RunPostings(settings, actions), key)
    decreases |actions|
  {
    hide Do, ActionPostings, ActionClean, Tidy, Walk;
    if actions == [] {
      EmptyIsTidy(key, ids);
      WalkPast(NOTHING, [], key);
    } else {
      var n := |actions| - 1;
      var s := Run(settings, actions[..n]);
      RunLane(settings, actions[..n], key, ids);
      ActionLane(settings, s, actions[n], key, ids);
      WalkAppend(NOTHING, RunPostings(settings, actions[..n]), ActionPostings(settings, s, actions[n]), key);
    }
  }

  /** Main result: on every run that keeps the ids of orders apart, calls and rehydrations included, kept status and mirror
      agree on an order if and only if its own lane does: whatever happens to other orders in between plays no part. */
  lemma {:induction false} AgreementIff(settings: Settings, actions: seq<Action>, key: string, ids: set<string>)
    requires key in ids && "" !in ids && forall a :: a in actions ==> ActionClean(settings, a, key, ids)
    ensures AgreesOn(Run(settings, actions), key) <==> Agrees(Walk(NOTHING, RunPostings(settings, actions), key))
  {
    hide Run, RunPostings, ActionClean, Tidy, Walk;
    RunLane(settings, actions, key, ids);
    TidyIsStraight(Run(settings, actions).mirror, key, ids);
    LaneAgrees(Run(settings, actions), key);
  }

  /** The run after `before` and the first `i` of `actions`. */
  ghost function Upto(settings: Settings, before: seq<Action>, actions: seq<Action>, i: nat): Spot
    requires i <= |actions|
  {
    Run(settings, before + actions[..i])
  }

  lemma {:induction false} AgreementStep(
    settings: Settings, before: seq<Action>, actions: seq<Action>, i: nat, key: string, ids: set<string>)
    requires key in ids && "" !in ids && forall a :: a in before + actions ==> ActionClean(settings, a, key, ids)
    requires i < |actions| && AgreesOn(Upto(settings, before, actions, i), key)
    ensures var s := Upto(settings, before, actions, i);
            && key in s.orderStatus
            && (AgreesOn(Upto(settings, before, actions, i + 1), key) <==> Follows(settings, s, actions[i], key))
  {
    hide Do, AgreesOn, Follows, Run, ActionClean, Tidy;
    var sofar, a := before + actions[..i], actions[i];
    assert a in before + actions;
    assert before + actions[..i + 1] == sofar + [a];
    OneMore(settings, sofar, a);
    RunLane(settings, sofar, key, ids);
    FollowingKeeps(settings, Run(settings, sofar), a, key, ids);
    AgreeingIsKept(Run(settings, sofar), key);
  }

  lemma {:induction false} KeptUpto(
    settings: Settings, before: seq<Action>, actions: seq<Action>, i: nat, key: string, ids: set<string>)
    requires key in ids && "" !in ids && forall a :: a in before + actions ==> ActionClean(settings, a, key, ids)
    requires AgreesOn(Run(settings, before), key) && i <= |actions|
    requires forall j :: 0 <= j < |actions| ==>
               var s := Upto(settings, before, actions, j);
               key in s.orderStatus && Follows(settings, s, actions[j], key)
    ensures AgreesOn(Upto(settings, before, actions, i), key)
    decreases i
  {
    hide AgreesOn, Follows, Run, ActionClean;
    if i == 0 {
      assert before + actions[..0] == before;
    } else {
      KeptUpto(settings, before, actions, i - 1, key, ids);
      AgreementStep(settings, before, actions, i - 1, key, ids);
    }
  }

  /** Main result: agreement, once reached, lasts exactly as long as the mirror can follow every action. */
  lemma {:induction false} AgreementKept(
    settings: Settings, before: seq<Action>, actions: seq<Action>, key: string, ids: set<string>)
    requires key in ids && "" !in ids && forall a :: a in before + actions ==> ActionClean(settings, a, key, ids)
    requires AgreesOn(Run(settings, before), key)
    ensures (forall i :: 0 <= i <= |actions| ==> AgreesOn(Upto(settings, before, actions, i), key))
       <==> forall i :: 0 <= i < |actions| ==>
              var s := Upto(settings, before, actions, i);
              key in s.orderStatus && Follows(settings, s, actions[i], key)
  {
    hide AgreesOn, Follows, Run, ActionClean, Upto;
    if forall i :: 0 <= i <= |actions| ==> AgreesOn(Upto(settings, before, actions, i), key) {
      forall i | 0 <= i < |actions|
        ensures var s := Upto(settings, before, actions, i);
                key in s.orderStatus && Follows(settings, s, actions[i], key)
      {
        AgreementStep(settings, before, actions, i, key, ids);
        assert AgreesOn(Upto(settings, before, actions, i + 1), key);
      }
    }
    if forall j :: 0 <= j < |actions| ==>
         var s := Upto(settings, before, actions, j);
         key in s.orderStatus && Follows(settings, s, actions[j], key)
    {
      forall i | 0 <= i <= |actions| ensures AgreesOn(Upto(settings, before, actions, i), key) {
        KeptUpto(settings, before, actions, i, key, ids);
      }
    }
  }

  lemma {:induction false} AgreeingIsKept(s: Spot, key: string)
    requires AgreesOn(s, key)
    ensures key in s.orderStatus
  {
  }

  lemma {:induction false} OneMore(settings: Settings, actions: seq<Action>, a: Action)
    ensures Run(settings, actions + [a]) == Do(settings, Run(settings, actions), a)
  {
    hide Do;
    assert (actions + [a])[..|actions|] == actions;
  }

  /** A concrete case: final statuses share one rank, so the map goes from FILLED to CANCELED where the mirror stays. */
  lemma {:induction false} StatusAndMirrorCanDisagree()
    ensures var filled := ApplyOrderUpdate(INITIAL, Order("XBTUSD", "", "id", FILLED, false));
            var s := ApplyOrderUpdate(filled, Order("XBTUSD", "", "id", CANCELED, false));
            && AgreesOn(filled, "id") && !AgreesOn(s, "id")
            && s.orderStatus["id"] == CANCELED && StateOf(s.mirror, "id") == Some(Filled)
  {
    var first, second := Order("XBTUSD", "", "id", FILLED, false), Order("XBTUSD", "", "id", CANCELED, false);
    var filled := ApplyOrderUpdate(INITIAL, first);
    assert Holds(filled.mirror, "id", Filled);
    assert !MirrorFollows(Filled, CANCELED);
    hide ApplyOrderUpdate, Legal;
    UpdateAgreesIff(filled, second, Filled);
  }

  /** A second case: the mirror follows the one update there is, from SUBMITTED to ACCEPTED, and the cancellation that
      raises then moves the record alone. */
  lemma {:induction false} RaisedCancellationDisagrees(
    settings: Settings, intent: Intent, tag: OrderTag, fp: Fingerprint, s: Spot, stage: Stage)
    requires settings.digest(tag) == "id" && settings.makerTimeoutS == 0
    requires s == Notify(INITIAL, SubmitEvent("XBTUSD", "id"))
    requires stage == Stage(true, Took(Order("XBTUSD", "", "id", NEW, false)), History([]), 0.0, [],
                            CancelThrew(false), 0.0, 0.0)
    ensures MirrorFollows(Submitted, NEW)
    ensures !AgreesOn(SubmitLimitOrder(settings, s, intent, tag, 0.0, fp, 1.0, 1.0, stage).state, "id")
  {
    SubmissionIsHeld(INITIAL, "XBTUSD", "id");
    assert !LimitAgrees(settings, stage);
    hide Apply, SubmitLimitOrder, LimitAgrees, AgreesOn, Holds;
    LimitAgreesIff(settings, s, intent, tag, 0.0, fp, 1.0, 1.0, stage);
  }
}
