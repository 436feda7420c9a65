/** What the spot service does to its order books - the statuses it keeps, the fills it knows, the lifecycle mirror - as a
    list of postings read off the inputs of each action. The gates of the service decide whether a call posts at all;
    past them the replies of the exchange alone decide what. */
module SpotBooks {
  import opened FifoLedger
  import opened OrderLifecycle
  import opened SpotService
  import opened SpotSafety

  datatype Books = Books(orderStatus: map<string, Wire>, fillIds: set<string>, mirror: Mirror)

  function BooksOf(s: Spot): Books {
    Books(s.orderStatus, s.fillIds, s.mirror)
  }

  /** A fresh service with these books. */
  function Holding(b: Books): Spot {
    INITIAL.(orderStatus := b.orderStatus, fillIds := b.fillIds, mirror := b.mirror)
  }

  datatype Posting = Tell(event: Event) | Track(order: Order) | Enter(fill: FillReport) | Forget | Drain

  function Post(b: Books, p: Posting): Books {
    match p
    case Tell(e) => BooksOf(Notify(Holding(b), e))
    case Track(o) => BooksOf(ApplyOrderUpdate(Holding(b), o))
    case Enter(f) => BooksOf(ApplyFillUpdate(Holding(b), f))
    case Forget => BooksOf(Cleared(Holding(b)))
    case Drain => b.(mirror := b.mirror.(pending := []))
  }

  function PostAll(b: Books, ps: seq<Posting>): Books {
    if ps == [] then b else Post(PostAll(b, ps[..|ps| - 1]), ps[|ps| - 1])
  }

  lemma {:induction false} PostAppend(b: Books, first: seq<Posting>, second: seq<Posting>)
    ensures PostAll(b, first + second) == PostAll(PostAll(b, first), second)
    decreases |second|
  {
    hide Post;
    if second == [] {
      assert first + second == first;
    } else {
      var n := |second| - 1;
      assert (first + second)[..|first + second| - 1] == first + second[..n];
      PostAppend(b, first, second[..n]);
    }
  }

  lemma {:induction false} PostOne(b: Books, p: Posting)
    ensures PostAll(b, [p]) == Post(b, p)
  {
    hide Post;
    assert [p][..0] == [];
    assert PostAll(b, [p][..0]) == b;
  }

  /** A posting goes by the books alone. */
  lemma {:induction false} PostedAlike(s: Spot, p: Posting)
    ensures p.Tell? ==> Post(BooksOf(s), p) == BooksOf(Notify(s, p.event))
    ensures p.Track? ==> Post(BooksOf(s), p) == BooksOf(ApplyOrderUpdate(s, p.order))
    ensures p.Enter? ==> Post(BooksOf(s), p) == BooksOf(ApplyFillUpdate(s, p.fill))
    ensures p.Forget? ==> Post(BooksOf(s), p) == BooksOf(Cleared(s))
  {
    hide Apply, ApplyOrder, CountFill, StatusRank;
  }

  // ----- The postings of one action -----

  function BookingsOf(fills: seq<FillReport>): seq<Posting> {
    seq(|fills|, i requires 0 <= i < |fills| => Enter(fills[i]))
  }

  function TrackingsOf(orders: seq<Order>): seq<Posting> {
    seq(|orders|, i requires 0 <= i < |orders| => Track(orders[i]))
  }

  /** The fills of a filled order. */
  function OrderBookings(intent: Intent, order: Order, booking: Booking): seq<Posting> {
    if IsFilled(order.status) && booking.History? then
      BookingsOf(ReportsOf(FillHistory(LedgerFilter(intent, order), booking.rows).0))
    else []
  }

  function CancelPostings(symbol: string, cid: string, cancel: CancelReply): seq<Posting> {
    match cancel
    case CancelDone =>
      [Tell(CancelRequestedEvent(symbol, cid)), Track(Order(symbol, "", cid, CANCELED, false)),
       Tell(TimedOutEvent(symbol, cid))]
    case CancelThrew(limited) =>
      [Tell(CancelRequestedEvent(symbol, cid)), Tell(CancelRejectedEvent(symbol, cid))]
      + if limited then [] else [Tell(TimedOutEvent(symbol, cid))]
  }

  function WaitPostings(settings: Settings, intent: Intent, cid: string, order: Order, stage: Stage): seq<Posting> {
    if IsFilled(order.status) then OrderBookings(intent, order, stage.booking)
    else
      match AwaitFill(stage.polls, Deadline(settings, stage))
      case QueryRaised => []
      case Found(current) => [Track(current)] + OrderBookings(intent, current, stage.booking)
      case NotFound => CancelPostings(intent.symbol, cid, stage.cancel)
  }

  function LimitPostings(settings: Settings, intent: Intent, cid: string, stage: Stage): seq<Posting> {
    if !stage.previewOk || stage.place.Threw? then [Tell(RejectedEvent(intent.symbol, cid))]
    else [Track(stage.place.order)] + WaitPostings(settings, intent, cid, stage.place.order, stage)
  }

  /** The limit order is reported as timed out. */
  predicate TimesOut(settings: Settings, stage: Stage) {
    && stage.previewOk && stage.place.Took? && !IsFilled(stage.place.order.status)
    && AwaitFill(stage.polls, Deadline(settings, stage)).NotFound? && stage.cancel != CancelThrew(true)
  }

  function MarketPostings(intent: Intent, cid: string, stage: Stage): seq<Posting> {
    [Tell(SubmitEvent(intent.symbol, cid))]
    + if stage.place.Threw? then [Tell(RejectedEvent(intent.symbol, cid))]
      else
        [Track(stage.place.order)]
        + if IsFilled(stage.place.order.status) && stage.booking.BookingRaised? then
            [Tell(RejectedEvent(intent.symbol, cid))]
          else OrderBookings(intent, stage.place.order, stage.booking)
  }

  function FallbackPostings(settings: Settings, c: Call): seq<Posting> {
    var cid := settings.digest(TagFor(c, 1));
    if Lower(c.intent.side) == "sell" then
      if PreSubmitValidate(settings, c.intent, c.refreshed).Refused? then []
      else [Tell(SubmitEvent(c.intent.symbol, cid))] + LimitPostings(settings, c.intent, cid, c.taker)
    else if c.intent.netEdgeBps <= 0.0 then []
    else MarketPostings(c.intent, cid, c.taker)
  }

  function SendPostings(settings: Settings, c: Call): seq<Posting> {
    var cid := settings.digest(TagFor(c, 0));
    [Tell(SubmitEvent(c.intent.symbol, cid))] + LimitPostings(settings, c.intent, cid, c.maker)
    + if c.intent.style != Marketable && TimesOut(settings, c.maker) then FallbackPostings(settings, c) else []
  }

  /** The call passes the latches, the authorisation, the validation and the two dedupe maps. */
  ghost predicate Admitted(settings: Settings, s: Spot, c: Call) {
    && !Stopped(s, c) && !Condemned(settings, s, c)
    && FingerprintOf(c) !in Evict(s.recentIntents, c.now) && settings.digest(TagFor(c, 0)) !in Evict(s.recentCids, c.now)
  }

  ghost function CallPostings(settings: Settings, s: Spot, c: Call): seq<Posting> {
    if !Admitted(settings, s, c) then []
    else
      match c.existing
      case QueryRaised => []
      case Found(order) => [Track(order)] + OrderBookings(c.intent, order, c.existingBooking)
      case NotFound => SendPostings(settings, c)
  }

  ghost function ActionPostings(settings: Settings, s: Spot, a: Action): seq<Posting> {
    match a
    case Intend(c) => CallPostings(settings, s, c)
    case ExchangeUpdate(o) => [Track(o)]
    case DrainLifecycle => [Drain]
    case Rehydrate(orders, fills) => [Forget] + TrackingsOf(orders) + BookingsOf(fills)
    case _ => []
  }

  // ----- The books follow the postings -----

  /** The postings `ps` lead from the books of `s` to those of `t`. */
  predicate Leads(s: Spot, ps: seq<Posting>, t: Spot) {
    PostAll(BooksOf(s), ps) == BooksOf(t)
  }

  lemma {:induction false} Then(s: Spot, first: seq<Posting>, m: Spot, second: seq<Posting>, t: Spot)
    requires Leads(s, first, m) && Leads(m, second, t)
    ensures Leads(s, first + second, t)
  {
    hide PostAll;
    PostAppend(BooksOf(s), first, second);
  }

  lemma {:induction false} Told(s: Spot, e: Event)
    ensures Leads(s, [Tell(e)], Notify(s, e))
  {
    hide Post, Apply;
    PostedAlike(s, Tell(e));
    PostOne(BooksOf(s), Tell(e));
  }

  lemma {:induction false} Tracked(s: Spot, o: Order)
    ensures Leads(s, [Track(o)], ApplyOrderUpdate(s, o))
  {
    hide Post, ApplyOrderUpdate;
    PostedAlike(s, Track(o));
    PostOne(BooksOf(s), Track(o));
  }

  /** Dedupe maps, trace and trackers are no part of the books. */
  lemma {:induction false} SameBooks(s: Spot, ps: seq<Posting>, t: Spot, u: Spot)
    requires Leads(s, ps, t) && BooksOf(u) == BooksOf(t)
    ensures Leads(s, ps, u)
  {
  }

  lemma {:induction false} NothingPosted(s: Spot)
    ensures Leads(s, [], s)
  {
  }

  lemma {:induction false} FillsPosted(s: Spot, fills: seq<FillReport>)
    ensures Leads(s, BookingsOf(fills), BookFills(s, fills)) && Leads(s, BookingsOf(fills), ReplayFills(s, fills))
    decreases |fills|
  {
    if fills != [] {
      var n := |fills| - 1;
      FillsPosted(s, fills[..n]);
      assert BookingsOf(fills)[..n] == BookingsOf(fills[..n]);
      hide ApplyFillUpdate, Post;
      PostedAlike(BookFills(s, fills[..n]), Enter(fills[n]));
      PostedAlike(ReplayFills(s, fills[..n]), Enter(fills[n]));
      BookedBooks(BookFills(s, fills[..n]), fills[n]);
    }
  }

  lemma {:induction false} BookedBooks(s: Spot, f: FillReport)
    ensures BooksOf(BookFill(s, f)) == BooksOf(ApplyFillUpdate(s, f))
  {
    hide CountFill;
  }

  lemma {:induction false} OrdersPosted(s: Spot, orders: seq<Order>)
    ensures Leads(s, TrackingsOf(orders), ReplayOrders(s, orders))
    decreases |orders|
  {
    hide ApplyOrderUpdate, Post;
    if orders != [] {
      var n := |orders| - 1;
      OrdersPosted(s, orders[..n]);
      assert TrackingsOf(orders)[..n] == TrackingsOf(orders[..n]);
      PostedAlike(ReplayOrders(s, orders[..n]), Track(orders[n]));
    }
  }

  lemma {:induction false} OrderBooked(s: Spot, intent: Intent, order: Order, booking: Booking)
    ensures Leads(s, OrderBookings(intent, order, booking), BookOrder(s, intent, order, booking).state)
  {
    hide BookFills, BookingsOf, FillHistory, ReportsOf, PostAll;
    if IsFilled(order.status) && booking.History? {
      FillsPosted(s, ReportsOf(FillHistory(LedgerFilter(intent, order), booking.rows).0));
    } else {
      NothingPosted(s);
    }
  }

  lemma {:induction false} GuardKeepsBooks(s: Spot, rateLimited: bool, at: real, killAt: real)
    ensures BooksOf(RejectGuard(s, rateLimited, at, killAt).state) == BooksOf(s)
    ensures RejectGuard(s, rateLimited, at, killAt).status != TimeoutOrder
  {
    hide Recent;
  }

  lemma {:induction false} CancelPosted(s: Spot, symbol: string, cid: string, stage: Stage)
    ensures Leads(s, CancelPostings(symbol, cid, stage.cancel), CancelAndTimeOut(s, symbol, cid, stage).state)
    ensures CancelAndTimeOut(s, symbol, cid, stage).status == TimeoutOrder <==> stage.cancel != CancelThrew(true)
  {
    hide Apply, ApplyOrderUpdate, Leads, BooksOf, Recent;
    var request, late := CancelRequestedEvent(symbol, cid), TimedOutEvent(symbol, cid);
    var requested := Notify(s, request);
    Told(s, request);
    match stage.cancel
    case CancelDone =>
      var o := Order(symbol, "", cid, CANCELED, false);
      var cancelled := ApplyOrderUpdate(requested, o);
      Tracked(requested, o);
      Then(s, [Tell(request)], requested, [Track(o)], cancelled);
      Told(cancelled, late);
      Then(s, [Tell(request)] + [Track(o)], cancelled, [Tell(late)], Notify(cancelled, late));
      assert [Tell(request)] + [Track(o)] + [Tell(late)] == CancelPostings(symbol, cid, stage.cancel);
    case CancelThrew(limited) =>
      var reject := CancelRejectedEvent(symbol, cid);
      var refused := Notify(requested, reject);
      Told(requested, reject);
      Then(s, [Tell(request)], requested, [Tell(reject)], refused);
      assert [Tell(request)] + [Tell(reject)] == [Tell(request), Tell(reject)];
      if limited {
        assert CancelPostings(symbol, cid, stage.cancel) == [Tell(request), Tell(reject)];
        GuardKeepsBooks(refused, true, stage.guardAt, stage.killAt);
        SameBooks(s, [Tell(request), Tell(reject)], refused, CancelAndTimeOut(s, symbol, cid, stage).state);
      } else {
        Told(refused, late);
        Then(s, [Tell(request), Tell(reject)], refused, [Tell(late)], Notify(refused, late));
      }
  }

  lemma {:induction false} WaitPosted(
    settings: Settings, s: Spot, intent: Intent, cid: string, order: Order, stage: Stage)
    ensures Leads(s, WaitPostings(settings, intent, cid, order, stage),
                  AfterPlaced(settings, s, intent, cid, order, stage).state)
    ensures AfterPlaced(settings, s, intent, cid, order, stage).status == TimeoutOrder
       <==> && !IsFilled(order.status) && AwaitFill(stage.polls, Deadline(settings, stage)).NotFound?
            && stage.cancel != CancelThrew(true)
  {
    hide CancelAndTimeOut, CancelPostings, ApplyOrderUpdate, AwaitFill, BookOrder, OrderBookings, Leads;
    if IsFilled(order.status) {
      OrderBooked(s, intent, order, stage.booking);
    } else {
      match AwaitFill(stage.polls, Deadline(settings, stage))
      case QueryRaised => NothingPosted(s);
      case Found(current) =>
        var updated := ApplyOrderUpdate(s, current);
        Tracked(s, current);
        OrderBooked(updated, intent, current, stage.booking);
        Then(s, [Track(current)], updated, OrderBookings(intent, current, stage.booking),
             BookOrder(updated, intent, current, stage.booking).state);
      case NotFound => CancelPosted(s, intent.symbol, cid, stage);
    }
  }

  lemma {:induction false} Recorded(s: Spot, order: Order, cid: string, fp: Fingerprint, now: real, placed: Trace)
    ensures Leads(s, [Track(order)], RecordPlaced(s, order, cid, fp, now, placed))
  {
    hide ApplyOrderUpdate, PostAll;
    var traced := s.(trace := s.trace + [placed]);
    Tracked(traced, order);
    assert BooksOf(traced) == BooksOf(s);
  }

  lemma {:induction false} LimitPosted(
    settings: Settings, s: Spot, intent: Intent, tag: OrderTag, now: real, fp: Fingerprint,
    qty: real, price: real, stage: Stage)
    ensures var r := SubmitLimitOrder(settings, s, intent, tag, now, fp, qty, price, stage);
            && Leads(s, LimitPostings(settings, intent, settings.digest(tag), stage), r.state)
            && (r.status == TimeoutOrder <==> TimesOut(settings, stage))
  {
    hide Apply, AfterPlaced, WaitPostings, RecordPlaced, RejectGuard, AwaitFill, Leads;
    var cid := settings.digest(tag);
    var t := SubmitLimitOrder(settings, s, intent, tag, now, fp, qty, price, stage).state;
    if stage.previewOk && stage.place.Took? {
      var order := stage.place.order;
      var placed := Placed(cid, tag, false, qty, price, intent.reduceOnly);
      var recorded := RecordPlaced(s, order, cid, fp, now, placed);
      Recorded(s, order, cid, fp, now, placed);
      WaitPosted(settings, recorded, intent, cid, order, stage);
      Then(s, [Track(order)], recorded, WaitPostings(settings, intent, cid, order, stage), t);
    } else {
      var reject := RejectedEvent(intent.symbol, cid);
      Told(s, reject);
      if stage.previewOk {
        GuardKeepsBooks(Notify(s, reject), stage.place.rateLimited, stage.guardAt, stage.killAt);
      }
      SameBooks(s, [Tell(reject)], Notify(s, reject), t);
    }
  }

  lemma {:induction false} MarketPosted(
    settings: Settings, s: Spot, intent: Intent, tag: OrderTag, now: real, fp: Fingerprint, qty: real, stage: Stage)
    ensures Leads(s, MarketPostings(intent, settings.digest(tag), stage),
                  SubmitMarketBuy(settings, s, intent, tag, now, fp, qty, stage).state)
  {
    hide Apply, RecordPlaced, RejectGuard, BookOrder, OrderBookings, Leads;
    var cid := settings.digest(tag);
    var t := SubmitMarketBuy(settings, s, intent, tag, now, fp, qty, stage).state;
    var submit, reject := SubmitEvent(intent.symbol, cid), RejectedEvent(intent.symbol, cid);
    var submitted := Notify(s, submit);
    Told(s, submit);
    match stage.place
    case Threw(limited) =>
      ThenRejected(submitted, reject, limited, stage.guardAt, stage.killAt);
      Then(s, [Tell(submit)], submitted, [Tell(reject)], t);
    case Took(order) =>
      var placed := Placed(cid, tag, true, qty, 0.0, intent.reduceOnly);
      var recorded := RecordPlaced(submitted, order, cid, fp, now, placed);
      var b := BookOrder(recorded, intent, order, stage.booking);
      Recorded(submitted, order, cid, fp, now, placed);
      Then(s, [Tell(submit)], submitted, [Track(order)], recorded);
      RaisedIff(recorded, intent, order, stage.booking);
      var last := if b.raised.Some? then [Tell(reject)] else OrderBookings(intent, order, stage.booking);
      if b.raised.Some? {
        ThenRejected(recorded, reject, b.raised.value, stage.guardAt, stage.killAt);
      } else {
        OrderBooked(recorded, intent, order, stage.booking);
      }
      Then(s, [Tell(submit)] + [Track(order)], recorded, last, t);
      assert MarketPostings(intent, cid, stage) == [Tell(submit)] + [Track(order)] + last;
  }

  lemma {:induction false} ThenRejected(s: Spot, reject: Event, limited: bool, at: real, killAt: real)
    ensures Leads(s, [Tell(reject)], RejectGuard(Notify(s, reject), limited, at, killAt).state)
  {
    hide Apply, RejectGuard, PostAll;
    Told(s, reject);
    GuardKeepsBooks(Notify(s, reject), limited, at, killAt);
  }

  lemma {:induction false} RaisedIff(s: Spot, intent: Intent, order: Order, booking: Booking)
    ensures BookOrder(s, intent, order, booking).raised.Some? <==> IsFilled(order.status) && booking.BookingRaised?
  {
    hide BookFills, FillHistory;
  }

  lemma {:induction false} FallbackPosted(settings: Settings, s: Spot, c: Call, qty: real, fp: Fingerprint)
    ensures Leads(s, FallbackPostings(settings, c), Fallback(settings, s, c, qty, fp).state)
  {
    hide Apply, SubmitLimitOrder, LimitPostings, SubmitMarketBuy, MarketPostings, PreSubmitValidate, Lower, Leads;
    var tag := TagFor(c, 1);
    var t := Fallback(settings, s, c, qty, fp).state;
    if Lower(c.intent.side) == "sell" {
      var checked := PreSubmitValidate(settings, c.intent, c.refreshed);
      if checked.Validated? {
        var submit := SubmitEvent(c.intent.symbol, settings.digest(tag));
        Told(s, submit);
        LimitPosted(settings, Notify(s, submit), c.intent, tag, c.now, fp, checked.qty, checked.conservativePrice, c.taker);
        Then(s, [Tell(submit)], Notify(s, submit), LimitPostings(settings, c.intent, settings.digest(tag), c.taker), t);
      } else {
        NothingPosted(s);
        SameBooks(s, [], s, t);
      }
    } else if c.intent.netEdgeBps > 0.0 {
      MarketPosted(settings, s, c.intent, tag, c.now, fp, qty, c.taker);
    } else {
      NothingPosted(s);
    }
  }

  lemma {:induction false} SendPosted(
    settings: Settings, s: Spot, c: Call, qty: real, makerPrice: real, price: real, fp: Fingerprint)
    ensures Leads(s, SendPostings(settings, c), SendOrders(settings, s, c, qty, makerPrice, price, fp).state)
  {
    hide Apply, SubmitLimitOrder, LimitPostings, Fallback, FallbackPostings, TimesOut, Leads;
    var tag := TagFor(c, 0);
    var submit := SubmitEvent(c.intent.symbol, settings.digest(tag));
    var submitted, limit := Notify(s, submit), LimitPostings(settings, c.intent, settings.digest(tag), c.maker);
    var sent := if c.intent.style == Marketable then price else makerPrice;
    var made := SubmitLimitOrder(settings, submitted, c.intent, tag, c.now, fp, qty, sent, c.maker).state;
    Told(s, submit);
    LimitPosted(settings, submitted, c.intent, tag, c.now, fp, qty, sent, c.maker);
    Then(s, [Tell(submit)], submitted, limit, made);
    if c.intent.style != Marketable && TimesOut(settings, c.maker) {
      FallbackPosted(settings, made, c, qty, fp);
      Then(s, [Tell(submit)] + limit, made, FallbackPostings(settings, c), Fallback(settings, made, c, qty, fp).state);
    } else {
      assert SendPostings(settings, c) == [Tell(submit)] + limit;
    }
  }

  lemma {:induction false} FoundPosted(settings: Settings, s: Spot, c: Call, order: Order)
    ensures Leads(s, [Track(order)] + OrderBookings(c.intent, order, c.existingBooking),
                  RecordFound(settings, s, c, order).state)
  {
    hide ApplyOrderUpdate, BookOrder, OrderBookings, PostAll, TagFor, FingerprintOf;
    var applied := ApplyOrderUpdate(s, order);
    var recorded := applied.(recentCids := applied.recentCids[settings.digest(TagFor(c, 0)) := c.now],
                             recentIntents := applied.recentIntents[FingerprintOf(c) := c.now]);
    Tracked(s, order);
    SameBooks(s, [Track(order)], applied, recorded);
    OrderBooked(recorded, c.intent, order, c.existingBooking);
    Then(s, [Track(order)], recorded, OrderBookings(c.intent, order, c.existingBooking),
         RecordFound(settings, s, c, order).state);
  }

  /** A call posts what its replies say if it is admitted, and nothing otherwise. */
  lemma {:induction false} CallPosted(settings: Settings, s: Spot, c: Call)
    ensures Leads(s, CallPostings(settings, s, c), ExecuteIntent(settings, s, c).state)
  {
    hide SendOrders, SendPostings, RecordFound, OrderBookings, PreSubmitValidate, OrderingBlock, PostAll, FingerprintOf,
         Evict, TagFor;
    var t := ExecuteIntent(settings, s, c).state;
    NothingPosted(s);
    if Admitted(settings, s, c) {
      var e := s.(recentCids := Evict(s.recentCids, c.now), recentIntents := Evict(s.recentIntents, c.now));
      var v := PreSubmitValidate(settings, c.intent, c.quote);
      match c.existing
      case QueryRaised =>
      case Found(order) => FoundPosted(settings, e, c, order);
      case NotFound => SendPosted(settings, e, c, v.qty, v.makerPrice, v.conservativePrice, FingerprintOf(c));
    } else {
      SameBooks(s, [], s, t);
    }
  }

  lemma {:induction false} Forgotten(s: Spot)
    ensures Leads(s, [Forget], Cleared(s))
  {
    hide Post;
    PostedAlike(s, Forget);
    PostOne(BooksOf(s), Forget);
  }

  lemma {:induction false} RehydrationPosted(s: Spot, orders: seq<Order>, fills: seq<FillReport>)
    ensures Leads(s, [Forget] + TrackingsOf(orders) + BookingsOf(fills), RehydrateState(s, orders, fills))
  {
    hide ReplayOrders, ReplayFills, TrackingsOf, BookingsOf, Leads;
    var cleared, replayed := Cleared(s), ReplayOrders(Cleared(s), orders);
    Forgotten(s);
    OrdersPosted(cleared, orders);
    Then(s, [Forget], cleared, TrackingsOf(orders), replayed);
    FillsPosted(replayed, fills);
    Then(s, [Forget] + TrackingsOf(orders), replayed, BookingsOf(fills), RehydrateState(s, orders, fills));
  }

  /** Main result: each action changes the books of the service by its postings and in no other way. */
  lemma {:induction false} ActionPosted(settings: Settings, s: Spot, a: Action)
    ensures Leads(s, ActionPostings(settings, s, a), Do(settings, s, a))
  {
    hide ExecuteIntent, CallPostings, ApplyOrderUpdate, RehydrateState, TrackingsOf, BookingsOf, PostAll;
    match a
    case Intend(c) => CallPosted(settings, s, c);
    case ExchangeUpdate(o) => Tracked(s, o);
    case DrainLifecycle => PostOne(BooksOf(s), Drain);
    case Rehydrate(orders, fills) => RehydrationPosted(s, orders, fills);
    case _ => NothingPosted(s);
  }

  // ----- Runs -----

  const EMPTY_BOOKS := Books(map[], {}, EMPTY)

  ghost function RunPostings(settings: Settings, actions: seq<Action>): seq<Posting> {
    if actions == [] then []
    else
      var n := |actions| - 1;
      RunPostings(settings, actions[..n]) + ActionPostings(settings, Run(settings, actions[..n]), actions[n])
  }

  lemma {:induction false} RunPosted(settings: Settings, actions: seq<Action>)
    ensures PostAll(EMPTY_BOOKS, RunPostings(settings, actions)) == BooksOf(Run(settings, actions))
    decreases |actions|
  {
    hide ActionPostings, Do, PostAll;
    if actions == [] {
      NothingPosted(INITIAL);
    } else {
      var n := |actions| - 1;
      var s := Run(settings, actions[..n]);
      RunPosted(settings, actions[..n]);
      ActionPosted(settings, s, actions[n]);
      PostAppend(EMPTY_BOOKS, RunPostings(settings, actions[..n]), ActionPostings(settings, s, actions[n]));
    }
  }
}
