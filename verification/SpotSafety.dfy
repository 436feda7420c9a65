/** Safety over every run of the spot service: no client order id is accepted twice, storms are bounded,
    the latches hold, and every sell sent was guarded in the call that sent it. */
module SpotSafety {
  import opened FifoLedger
  import opened ProfitGuard
  import opened OrderLifecycle
  import opened SpotService

  // ----- Runs -----

  datatype Action =
    | Intend(call: Call)
    | Operator(text: string, at: real)
    | Flatten(text: string)
    | SetSafeMode(on: bool)
    | Preflight(probe: Probe)
    | ExchangeUpdate(order: Order)
    | DrainLifecycle
    | Rehydrate(orders: seq<Order>, fills: seq<FillReport>)

  function Do(settings: Settings, s: Spot, a: Action): Spot {
    match a
    case Intend(c) => ExecuteIntent(settings, s, c).state
    case Operator(text, at) => RequestKill(s, OperatorKill(text), at)
    case Flatten(text) => EnterFlattenOnly(s, text)
    case SetSafeMode(on) => s.(safeMode := on)
    case Preflight(probe) => AfterPreflight(settings, s, probe)
    case ExchangeUpdate(o) => ApplyOrderUpdate(s, o)
    case DrainLifecycle => s.(mirror := s.mirror.(pending := []))
    case Rehydrate(orders, fills) => RehydrateState(s, orders, fills)
  }

  function Run(settings: Settings, actions: seq<Action>): Spot {
    if actions == [] then INITIAL
    else Do(settings, Run(settings, actions[..|actions| - 1]), actions[|actions| - 1])
  }

  /** The latest clock reading of a run. */
  function Clock(actions: seq<Action>): real {
    if actions == [] then 0.0
    else
      match actions[|actions| - 1]
      case Intend(c) => c.taker.guardAt
      case _ => Clock(actions[..|actions| - 1])
  }

  predicate WellTimed(c: Call, from: real) {
    from <= c.now <= c.maker.guardAt <= c.taker.guardAt
  }

  /** The clock never goes back, within a call or between calls. */
  ghost predicate ClockForward(actions: seq<Action>) {
    forall i :: 0 <= i < |actions| && actions[i].Intend? ==> WellTimed(actions[i].call, Clock(actions[..i]))
  }

  lemma {:induction false} ClockForwardPrefix(actions: seq<Action>, k: nat)
    requires ClockForward(actions) && k <= |actions|
    ensures ClockForward(actions[..k])
  {
    forall i | 0 <= i < k && actions[..k][i].Intend?
      ensures WellTimed(actions[..k][i].call, Clock(actions[..k][..i]))
    {
      assert actions[..k][..i] == actions[..i];
    }
  }

  // ----- Views of the trace -----

  function Tags(trace: seq<Trace>): seq<OrderTag> {
    if trace == [] then []
    else
      var e := trace[|trace| - 1];
      Tags(trace[..|trace| - 1]) + if e.Placed? then [e.tag] else []
  }

  function RejectTimes(trace: seq<Trace>): seq<real> {
    if trace == [] then []
    else
      var e := trace[|trace| - 1];
      RejectTimes(trace[..|trace| - 1]) + if e.RejectTracked? then [e.at] else []
  }

  function RateLimitTimes(trace: seq<Trace>): seq<real> {
    if trace == [] then []
    else
      var e := trace[|trace| - 1];
      RateLimitTimes(trace[..|trace| - 1]) + if e.RateLimitTracked? then [e.at] else []
  }

  lemma {:induction false} TraceSnoc(trace: seq<Trace>, e: Trace)
    ensures Tags(trace + [e]) == if e.Placed? then Tags(trace) + [e.tag] else Tags(trace)
    ensures RejectTimes(trace + [e]) == if e.RejectTracked? then RejectTimes(trace) + [e.at] else RejectTimes(trace)
    ensures RateLimitTimes(trace + [e])
         == if e.RateLimitTracked? then RateLimitTimes(trace) + [e.at] else RateLimitTimes(trace)
  {
    assert (trace + [e])[..|trace|] == trace;
  }

  // ----- What one submission may do -----

  /** Trackers and latches untouched. */
  predicate Quiet(s: Spot, t: Spot) {
    && t.rejects == s.rejects && t.rateLimits == s.rateLimits && t.killed == s.killed
    && RejectTimes(t.trace) == RejectTimes(s.trace) && RateLimitTimes(t.trace) == RateLimitTimes(s.trace)
  }

  /** Trackers untouched, the kill latch set. */
  predicate KilledQuiet(s: Spot, t: Spot) {
    && t.rejects == s.rejects && t.rateLimits == s.rateLimits && t.killed
    && RejectTimes(t.trace) == RejectTimes(s.trace) && RateLimitTimes(t.trace) == RateLimitTimes(s.trace)
  }

  predicate OneReject(s: Spot, t: Spot, at: real) {
    && RejectTimes(t.trace) == RejectTimes(s.trace) + [at] && t.rejects == Recent(s.rejects + [at], at)
    && t.killed == (s.killed || |t.rejects| > MAX_REJECTS)
    && t.rateLimits == s.rateLimits && RateLimitTimes(t.trace) == RateLimitTimes(s.trace)
  }

  predicate OneRateHit(s: Spot, t: Spot, at: real) {
    && RateLimitTimes(t.trace) == RateLimitTimes(s.trace) + [at] && t.rateLimits == Recent(s.rateLimits + [at], at)
    && t.killed == (s.killed || |t.rateLimits| > MAX_RATE_HITS)
    && t.rejects == s.rejects && RejectTimes(t.trace) == RejectTimes(s.trace)
  }

  predicate Tracks(s: Spot, t: Spot, at: real) {
    Quiet(s, t) || KilledQuiet(s, t) || OneReject(s, t, at) || OneRateHit(s, t, at)
  }

  /** Nothing accepted: tags and both dedupe maps as before. */
  predicate NothingPlaced(s: Spot, t: Spot) {
    Tags(t.trace) == Tags(s.trace) && t.recentCids == s.recentCids && t.recentIntents == s.recentIntents
  }

  /** One order accepted under `tag` and remembered. */
  predicate OnePlaced(s: Spot, t: Spot, tag: OrderTag, cid: string, fp: Fingerprint, now: real) {
    && Tags(t.trace) == Tags(s.trace) + [tag]
    && t.recentCids == s.recentCids[cid := now] && t.recentIntents == s.recentIntents[fp := now]
  }

  /** Every order placed since `s` is `e`. */
  ghost predicate OnlyPlaces(s: Spot, t: Spot, e: Trace) {
    && |s.trace| <= |t.trace| && t.trace[..|s.trace|] == s.trace
    && forall i :: |s.trace| <= i < |t.trace| && t.trace[i].Placed? ==> t.trace[i] == e
  }

  /** Booked fills are known by their id, once each, and none of them is among `base`. */
  ghost predicate BookedOnce(known: set<string>, booked: seq<FillReport>, base: set<string>) {
    && base <= known
    && (forall i :: 0 <= i < |booked| ==> booked[i].id in known && booked[i].id !in base)
    && (forall i, j :: 0 <= i < j < |booked| ==> booked[i].id != booked[j].id)
  }

  /** Known ids stay known, booked fills stay booked, and whatever is booked anew is booked once. */
  ghost predicate LedgerKept(s: Spot, t: Spot) {
    && s.fillIds <= t.fillIds && s.booked <= t.booked
    && forall base :: BookedOnce(s.fillIds, s.booked, base) ==> BookedOnce(t.fillIds, t.booked, base)
  }

  /** Latches are only ever set, the cooldown only with the kill latch, the result of preflight is not touched, and fills
      are booked once. */
  ghost predicate LatchesKept(s: Spot, t: Spot) {
    && t.flattenOnly == s.flattenOnly && (s.killed ==> t.killed) && (s.safeMode ==> t.safeMode)
    && (t.safeMode && !s.safeMode ==> t.killed) && (t.killed && !s.killed ==> t.safeMode)
    && t.authValidated == s.authValidated && LedgerKept(s, t)
    && (t.cooldownUntil != s.cooldownUntil ==> t.killed)
  }

  lemma {:induction false} RateLimitEffect(s: Spot, at: real, killAt: real)
    ensures var t := RateLimitGuard(s, at, killAt).state;
            && OneRateHit(s, t, at) && NothingPlaced(s, t) && LatchesKept(s, t)
            && t.trace == s.trace + [RateLimitTracked(at)]
    ensures RateLimitGuard(s, at, killAt).status != TimeoutOrder
  {
    hide Recent;
    TraceSnoc(s.trace, RateLimitTracked(at));
  }

  lemma {:induction false} RejectEffect(s: Spot, rateLimited: bool, at: real, killAt: real)
    ensures var t := RejectGuard(s, rateLimited, at, killAt).state;
            && (OneReject(s, t, at) || OneRateHit(s, t, at)) && NothingPlaced(s, t) && LatchesKept(s, t)
            && t.trace == s.trace + [if rateLimited then RateLimitTracked(at) else RejectTracked(at)]
    ensures RejectGuard(s, rateLimited, at, killAt).status != TimeoutOrder
  {
    hide Recent, Tags, RejectTimes, RateLimitTimes;
    if rateLimited {
      RateLimitEffect(s, at, killAt);
    } else {
      TraceSnoc(s.trace, RejectTracked(at));
    }
  }

  /** Order updates and lifecycle events touch neither latches, trackers, dedupe maps nor trace. */
  predicate SameSending(s: Spot, t: Spot) {
    t.(orderStatus := s.orderStatus, mirror := s.mirror) == s
  }

  lemma {:induction false} UpdateKeepsSending(s: Spot, o: Order)
    ensures SameSending(s, ApplyOrderUpdate(s, o))
  {
    hide ApplyOrder;
  }

  /** As SameSending, with the fills free to change as well. */
  predicate SameOrders(s: Spot, t: Spot) {
    t.(orderStatus := s.orderStatus, fillIds := s.fillIds, booked := s.booked, mirror := s.mirror) == s
  }

  lemma {:induction false} BookFillEffect(s: Spot, f: FillReport)
    ensures SameOrders(s, BookFill(s, f)) && LedgerKept(s, BookFill(s, f))
  {
    hide CountFill;
  }

  lemma {:induction false} BookFillsEffect(s: Spot, fills: seq<FillReport>)
    ensures SameOrders(s, BookFills(s, fills)) && LedgerKept(s, BookFills(s, fills))
    decreases |fills|
  {
    hide BookFill, BookedOnce;
    if fills != [] {
      BookFillsEffect(s, fills[..|fills| - 1]);
      BookFillEffect(BookFills(s, fills[..|fills| - 1]), fills[|fills| - 1]);
    }
  }

  lemma {:induction false} BookingEffect(s: Spot, intent: Intent, order: Order, booking: Booking)
    ensures var t := BookOrder(s, intent, order, booking).state;
            && SameOrders(s, t) && Quiet(s, t) && NothingPlaced(s, t) && LatchesKept(s, t) && t.trace == s.trace
  {
    hide BookFills, FillHistory, BookedOnce, Tags, RejectTimes, RateLimitTimes;
    if booking.History? {
      BookFillsEffect(s, ReportsOf(FillHistory(LedgerFilter(intent, order), booking.rows).0));
    }
  }

  lemma {:induction false} RecordEffect(s: Spot, o: Order, cid: string, fp: Fingerprint, now: real, placed: Trace)
    requires placed.Placed?
    ensures var t := RecordPlaced(s, o, cid, fp, now, placed);
            && Quiet(s, t) && OnePlaced(s, t, placed.tag, cid, fp, now) && LatchesKept(s, t)
            && t.trace == s.trace + [placed]
  {
    hide ApplyOrderUpdate;
    UpdateKeepsSending(s.(trace := s.trace + [placed]), o);
    TraceSnoc(s.trace, placed);
  }

  const FINAL_STATUSES: set<Wire> := {FILLED, CANCELED, REJECTED, EXECUTED, CLOSED}

  /** The status kept per order never falls in rank, a final one is only replaced by a final one, and the newest applied
      update is what is kept. */
  lemma {:induction false} StatusNeverFalls(s: Spot, o: Order, key: string)
    requires key in s.orderStatus
    ensures key in ApplyOrderUpdate(s, o).orderStatus
    ensures StatusRank(ApplyOrderUpdate(s, o).orderStatus[key]) >= StatusRank(s.orderStatus[key])
    ensures s.orderStatus[key] in FINAL_STATUSES ==> ApplyOrderUpdate(s, o).orderStatus[key] in FINAL_STATUSES
    ensures key == OrderKey(o) != "" && StatusRank(o.status) >= StatusRank(s.orderStatus[key]) ==>
              ApplyOrderUpdate(s, o).orderStatus[key] == o.status
  {
    hide ApplyOrder;
  }

  /** Main result: which updates the service drops, leaving everything as it was: those without an id, those short of an end
      for an order whose kept status is an end, and those that go back behind a partial fill or an acknowledgement. Any
      other is kept and told to the mirror. */
  lemma {:induction false} DroppedIff(s: Spot, o: Order)
    ensures var key := if o.clientOrderId != "" then o.clientOrderId else o.orderId;
            var kept := if key in s.orderStatus then s.orderStatus[key] else OtherStatus("");
            && (ApplyOrderUpdate(s, o) == s
                <==> || key == ""
                     || (kept in FINAL_STATUSES && o.status !in FINAL_STATUSES)
                     || (kept == PARTIALLY_FILLED && o.status !in FINAL_STATUSES + {PARTIALLY_FILLED})
                     || (kept == NEW && o.status !in FINAL_STATUSES + {PARTIALLY_FILLED, NEW}))
            && (UpdateOutcomeOf(s, o) == MissingOrderId <==> key == "")
            && (ApplyOrderUpdate(s, o) == s && key != "" ==> UpdateOutcomeOf(s, o) == OutOfOrderUpdate)
            && (ApplyOrderUpdate(s, o) != s ==> ApplyOrderUpdate(s, o).orderStatus == s.orderStatus[key := o.status])
  {
    UpdatesAreLogged(s.mirror, Stripped(o));
    hide ApplyOrder, OrderOutcome;
  }

  lemma {:induction false} UpdatesAreLogged(m: Mirror, o: Order)
    ensures |ApplyOrder(m, o).pending| == |m.pending| + 1
  {
  }

  /** The service and the mirror call the same statuses a fill, CLOSED apart: the mirror takes it for a working order. */
  lemma {:induction false} FilledHereAndThere(status: Wire)
    ensures IsFilled(status) <==> StateFor(status) in {Filled, PartiallyFilled} || status == CLOSED
    ensures StateFor(CLOSED) == Working
  {
  }

  /** Polling answers with the first poll before the deadline that raises or shows a fill, and NotFound if none does. */
  lemma {:induction false} PollingFindsTheFirst(polls: seq<Poll>, deadline: real) returns (n: nat)
    ensures n <= |polls|
    ensures forall i :: 0 <= i < n ==> polls[i].at < deadline && !Settles(polls[i])
    ensures var stopped := n == |polls| || polls[n].at >= deadline;
            && (stopped ==> AwaitFill(polls, deadline) == NotFound)
            && (!stopped ==> Settles(polls[n]) && AwaitFill(polls, deadline) == polls[n].reply)
  {
    if polls == [] || polls[0].at >= deadline || Settles(polls[0]) {
      n := 0;
    } else {
      var m := PollingFindsTheFirst(polls[1..], deadline);
      n := m + 1;
      forall i | 0 <= i < n ensures polls[i].at < deadline && !Settles(polls[i]) {
        if i > 0 { assert polls[i] == polls[1..][i - 1]; }
      }
    }
  }

  predicate Settles(poll: Poll) {
    poll.reply.QueryRaised? || (poll.reply.Found? && IsFilled(poll.reply.order.status))
  }

  ghost predicate WaitEffect(s: Spot, r: Stepped, at: real) {
    && (Quiet(s, r.state) || OneRateHit(s, r.state, at)) && NothingPlaced(s, r.state) && LatchesKept(s, r.state)
    && (r.status == TimeoutOrder ==> Quiet(s, r.state))
    && (r.state.trace == s.trace || r.state.trace == s.trace + [RateLimitTracked(at)])
  }

  lemma {:induction false} CancelEffect(s: Spot, symbol: string, cid: string, stage: Stage)
    ensures WaitEffect(s, CancelAndTimeOut(s, symbol, cid, stage), stage.guardAt)
  {
    hide ApplyOrderUpdate, Apply, Tags, RejectTimes, RateLimitTimes, RateLimitGuard, BookedOnce;
    var requested := Notify(s, CancelRequestedEvent(symbol, cid));
    if stage.cancel.CancelDone? {
      UpdateKeepsSending(requested, Order(symbol, "", cid, CANCELED, false));
    } else if stage.cancel.rateLimited {
      RefusedCancelEffect(s, symbol, cid, stage);
    }
  }

  lemma {:induction false} RefusedCancelEffect(s: Spot, symbol: string, cid: string, stage: Stage)
    requires stage.cancel == CancelThrew(true)
    ensures WaitEffect(s, CancelAndTimeOut(s, symbol, cid, stage), stage.guardAt)
  {
    hide Apply, Recent, Tags, RejectTimes, RateLimitTimes, RateLimitGuard, BookedOnce;
    var refused := Notify(Notify(s, CancelRequestedEvent(symbol, cid)), CancelRejectedEvent(symbol, cid));
    RateLimitEffect(refused, stage.guardAt, stage.killAt);
  }

  /** After an accepted limit order: a timeout leaves everything quiet, anything else tracks at most one event. */
  lemma {:induction false} AfterPlacedEffect(
    settings: Settings, s: Spot, intent: Intent, cid: string, order: Order, stage: Stage)
    ensures WaitEffect(s, AfterPlaced(settings, s, intent, cid, order, stage), stage.guardAt)
  {
    hide ApplyOrderUpdate, AwaitFill, CancelAndTimeOut, Tags, RejectTimes, RateLimitTimes, BookOrder, BookedOnce;
    if IsFilled(order.status) {
      BookingEffect(s, intent, order, stage.booking);
    } else {
      match AwaitFill(stage.polls, Deadline(settings, stage))
      case Found(current) =>
        UpdateKeepsSending(s, current);
        BookingEffect(ApplyOrderUpdate(s, current), intent, current, stage.booking);
      case QueryRaised =>
      case NotFound => CancelEffect(s, intent.symbol, cid, stage);
    }
  }

  ghost predicate SubmissionEffect(s: Spot, r: Stepped, placed: Trace, fp: Fingerprint, now: real, at: real)
    requires placed.Placed?
  {
    && Tracks(s, r.state, at) && LatchesKept(s, r.state) && OnlyPlaces(s, r.state, placed)
    && (NothingPlaced(s, r.state) || OnePlaced(s, r.state, placed.tag, placed.cid, fp, now))
    && (r.status == TimeoutOrder ==> Quiet(s, r.state) && OnePlaced(s, r.state, placed.tag, placed.cid, fp, now))
  }

  /** One order was accepted and nothing else happened yet. */
  ghost predicate JustAccepted(s: Spot, m: Spot, placed: Trace, fp: Fingerprint, now: real)
    requires placed.Placed?
  {
    && Quiet(s, m) && OnePlaced(s, m, placed.tag, placed.cid, fp, now) && LatchesKept(s, m)
    && m.trace == s.trace + [placed]
  }

  lemma {:induction false} ThenWaited(s: Spot, m: Spot, r: Stepped, placed: Trace, fp: Fingerprint, now: real, at: real)
    requires placed.Placed? && JustAccepted(s, m, placed, fp, now) && WaitEffect(m, r, at)
    ensures SubmissionEffect(s, r, placed, fp, now, at)
  {
    hide Recent, Tags, RejectTimes, RateLimitTimes, BookedOnce;
  }

  lemma {:induction false} LimitEffect(
    settings: Settings, s: Spot, intent: Intent, tag: OrderTag, now: real, fp: Fingerprint,
    qty: real, price: real, stage: Stage)
    ensures SubmissionEffect(s, SubmitLimitOrder(settings, s, intent, tag, now, fp, qty, price, stage),
                             Placed(settings.digest(tag), tag, false, qty, price, intent.reduceOnly), fp, now, stage.guardAt)
  {
    hide ApplyOrderUpdate, AfterPlaced, Recent, Apply, Tags, RejectTimes, RateLimitTimes, RecordPlaced, RejectGuard,
         BookedOnce;
    var cid := settings.digest(tag);
    var placed := Placed(cid, tag, false, qty, price, intent.reduceOnly);
    if stage.previewOk {
      match stage.place
      case Threw(limited) =>
        RejectEffect(Notify(s, RejectedEvent(intent.symbol, cid)), limited, stage.guardAt, stage.killAt);
      case Took(order) =>
        var recorded := RecordPlaced(s, order, cid, fp, now, placed);
        RecordEffect(s, order, cid, fp, now, placed);
        AfterPlacedEffect(settings, recorded, intent, cid, order, stage);
        assert JustAccepted(s, recorded, placed, fp, now);
        hide SubmissionEffect, JustAccepted, WaitEffect;
        ThenWaited(s, recorded, AfterPlaced(settings, recorded, intent, cid, order, stage), placed, fp, now, stage.guardAt);
    }
  }

  lemma {:induction false} ThenRejected(
    s: Spot, m: Spot, placed: Trace, fp: Fingerprint, now: real, e: Event, rateLimited: bool, at: real, killAt: real)
    requires placed.Placed? && JustAccepted(s, m, placed, fp, now)
    ensures SubmissionEffect(s, RejectGuard(Notify(m, e), rateLimited, at, killAt), placed, fp, now, at)
  {
    hide Recent, Apply, Tags, RejectTimes, RateLimitTimes, RejectGuard, BookedOnce;
    RejectEffect(Notify(m, e), rateLimited, at, killAt);
  }

  lemma {:induction false} ThenBooked(
    s: Spot, m: Spot, placed: Trace, fp: Fingerprint, now: real, intent: Intent, order: Order, booking: Booking,
    at: real)
    requires placed.Placed? && JustAccepted(s, m, placed, fp, now)
    ensures SubmissionEffect(s, Stepped(BookOrder(m, intent, order, booking).state, FilledOrder), placed, fp, now, at)
  {
    hide Recent, Tags, RejectTimes, RateLimitTimes, BookOrder, BookedOnce;
    BookingEffect(m, intent, order, booking);
  }

  lemma {:induction false} MarketEffect(
    settings: Settings, s: Spot, intent: Intent, tag: OrderTag, now: real, fp: Fingerprint, qty: real, stage: Stage)
    ensures SubmissionEffect(s, SubmitMarketBuy(settings, s, intent, tag, now, fp, qty, stage),
                             Placed(settings.digest(tag), tag, true, qty, 0.0, intent.reduceOnly), fp, now, stage.guardAt)
  {
    hide ApplyOrderUpdate, Recent, Apply, Tags, RejectTimes, RateLimitTimes, RecordPlaced, RejectGuard, BookOrder,
         BookedOnce;
    var cid := settings.digest(tag);
    var reject, placed := RejectedEvent(intent.symbol, cid), Placed(cid, tag, true, qty, 0.0, intent.reduceOnly);
    var submitted := Notify(s, SubmitEvent(intent.symbol, cid));
    match stage.place
    case Threw(limited) =>
      RejectEffect(Notify(submitted, reject), limited, stage.guardAt, stage.killAt);
    case Took(order) =>
      RecordEffect(submitted, order, cid, fp, now, placed);
      var recorded := RecordPlaced(submitted, order, cid, fp, now, placed);
      assert JustAccepted(s, recorded, placed, fp, now);
      hide SubmissionEffect, JustAccepted, Quiet, OnePlaced, LatchesKept, Notify;
      var raised := BookOrder(recorded, intent, order, stage.booking).raised;
      if raised.Some? {
        ThenRejected(s, recorded, placed, fp, now, reject, raised.value, stage.guardAt, stage.killAt);
      } else {
        ThenBooked(s, recorded, placed, fp, now, intent, order, stage.booking, stage.guardAt);
      }
  }

  ghost predicate FoundRecorded(settings: Settings, s: Spot, c: Call, t: Spot) {
    && Quiet(s, t) && LatchesKept(s, t) && t.trace == s.trace && t.safeMode == s.safeMode
    && t.recentCids == s.recentCids[settings.digest(TagFor(c, 0)) := c.now]
    && t.recentIntents == s.recentIntents[FingerprintOf(c) := c.now]
  }

  lemma {:induction false} FoundEffect(settings: Settings, s: Spot, c: Call, order: Order)
    ensures FoundRecorded(settings, s, c, RecordFound(settings, s, c, order).state)
  {
    hide ApplyOrderUpdate, BookOrder, BookedOnce, Tags, RejectTimes, RateLimitTimes, TagFor, FingerprintOf;
    var applied := ApplyOrderUpdate(s, order);
    UpdateKeepsSending(s, order);
    BookingEffect(applied.(recentCids := applied.recentCids[settings.digest(TagFor(c, 0)) := c.now],
                           recentIntents := applied.recentIntents[FingerprintOf(c) := c.now]),
                  c.intent, order, c.existingBooking);
  }

  // ----- What one call may do -----

  /** The quote an order is validated on: the refreshed one for the second sell, else the first. */
  function QuoteFor(c: Call, tag: OrderTag): Quote {
    if tag != TagFor(c, 0) && Lower(c.intent.side) == "sell" then c.refreshed else c.quote
  }

  /** The order carries the quantity of a passed validation on this quote; a first order rests at the maker price unless it
      is to be marketable, any other limit order crosses at the conservative price, and the second buy is a market order. */
  ghost predicate FromQuote(settings: Settings, c: Call, quote: Quote, e: Trace)
    requires e.Placed?
  {
    var v, first := PreSubmitValidate(settings, c.intent, quote), e.tag == TagFor(c, 0);
    && v.Validated? && e.qty == v.qty
    && (e.market <==> !first && Lower(c.intent.side) != "sell")
    && e.price == (if e.market then 0.0
                   else if first && c.intent.style == Passive then v.makerPrice
                   else v.conservativePrice)
  }

  /** The sell passed the guard on this quote, at the quantity sent. */
  ghost predicate GuardedBy(settings: Settings, c: Call, quote: Quote, e: Trace)
    requires e.Placed?
  {
    && !e.market && e.reduceOnly && quote.book.Some?
    && GuardOf(settings, quote, e.qty, quote.book.value.bid, quote.book.value.ask) == Pass
  }

  /** An order of call `c`: the right id, the caller's reduce-only mark, a validated quantity, and the guard on the
      same quote if it sells. */
  ghost predicate OrderOf(settings: Settings, c: Call, e: Trace)
    requires e.Placed?
  {
    && e.cid == settings.digest(e.tag) && (e.tag == TagFor(c, 0) || e.tag == TagFor(c, 1))
    && e.reduceOnly == c.intent.reduceOnly
    && FromQuote(settings, c, QuoteFor(c, e.tag), e)
    && (Lower(c.intent.side) == "sell" ==> GuardedBy(settings, c, QuoteFor(c, e.tag), e))
  }

  /** What a passed validation guarantees: an orderable quantity and price on a live spot book, no entry while market
      watch or market integrity blocks entries, and sells only reduce-only and past the guard. */
  lemma {:induction false} ValidatedOrdersFit(settings: Settings, intent: Intent, quote: Quote)
    requires PreSubmitValidate(settings, intent, quote).Validated?
    ensures intent.targetsKrakenSpot && intent.targetNotional > 0.0
    ensures quote.book.Some? && quote.book.value.active && quote.book.value.spot
    ensures var v, book := PreSubmitValidate(settings, intent, quote), quote.book.value;
            && v.qty > 0.0 && v.qty >= book.minQty && v.qty * v.conservativePrice >= book.minNotional
            && v.makerPrice > 0.0 && v.conservativePrice > 0.0
            && quote.normalizePrice(if Lower(intent.side) == "buy" then book.bid else book.ask) == Some(v.makerPrice)
            && quote.normalizeAmount(intent.targetNotional / Max(v.conservativePrice, DUST)) == Some(v.qty)
            && (intent.watchBlocksEntries || intent.integrityBlocksEntries ==> intent.reduceOnly)
            && (|| (Lower(intent.side) == "buy" && v.conservativePrice == book.ask)
                || (&& Lower(intent.side) == "sell" && v.conservativePrice == book.bid && intent.reduceOnly
                    && GuardOf(settings, quote, v.qty, book.bid, book.ask) == Pass))
  {
    hide GuardOf, Lower;
  }

  /** Main result: exactly which intents are validated on a quote, and with what: buys are sized by the ask and rest at the
      bid, sells are sized by the bid and rest at the ask. */
  lemma {:induction false} ValidatedIff(
    settings: Settings, intent: Intent, quote: Quote, qty: real, maker: real, price: real)
    ensures PreSubmitValidate(settings, intent, quote) == Validated(qty, maker, price)
       <==> && intent.targetsKrakenSpot && intent.targetNotional > 0.0
            && (Lower(intent.side) == "buy" || Lower(intent.side) == "sell")
            && (intent.watchBlocksEntries || intent.integrityBlocksEntries ==> intent.reduceOnly)
            && quote.book.Some? && quote.book.value.bid > 0.0 && quote.book.value.ask > 0.0
            && quote.book.value.active && quote.book.value.spot
            && var book, buys := quote.book.value, Lower(intent.side) == "buy";
               && price == (if buys then book.ask else book.bid)
               && quote.normalizeAmount(intent.targetNotional / Max(price, 0.000000000001)) == Some(qty)
               && quote.normalizePrice(if buys then book.bid else book.ask) == Some(maker)
               && qty > 0.0 && maker > 0.0 && qty >= book.minQty && qty * price >= book.minNotional
               && (!buys ==>
                     && intent.reduceOnly
                     && SellProfitGuard(settings.doctrine, settings.costs,
                                        AuthoritativeInventory(quote.first.rows, quote.first.balance),
                                        AuthoritativeInventory(quote.second.rows, quote.second.balance),
                                        qty, book.bid, book.ask) == Pass)
  {
    hide SellProfitGuard, AuthoritativeInventory, Lower;
  }

  ghost predicate OnlyOrdersOf(settings: Settings, c: Call, s: Spot, t: Spot) {
    && |s.trace| <= |t.trace| && t.trace[..|s.trace|] == s.trace
    && forall i :: |s.trace| <= i < |t.trace| && t.trace[i].Placed? ==> OrderOf(settings, c, t.trace[i])
  }

  lemma {:induction false} OrderOfQuote(settings: Settings, c: Call, quote: Quote, e: Trace)
    requires e.Placed? && quote == QuoteFor(c, e.tag) && FromQuote(settings, c, quote, e)
    requires e.cid == settings.digest(e.tag) && (e.tag == TagFor(c, 0) || e.tag == TagFor(c, 1))
    requires e.reduceOnly == c.intent.reduceOnly && (e.market ==> Lower(c.intent.side) != "sell")
    ensures OrderOf(settings, c, e)
  {
    hide GuardOf, Lower, PreSubmitValidate;
    if Lower(c.intent.side) == "sell" {
      ValidatedOrdersFit(settings, c.intent, quote);
      assert GuardedBy(settings, c, quote, e);
    }
  }

  lemma {:induction false} OneOrder(settings: Settings, c: Call, s: Spot, t: Spot, e: Trace)
    requires e.Placed? && OrderOf(settings, c, e) && OnlyPlaces(s, t, e)
    ensures OnlyOrdersOf(settings, c, s, t)
  {
    hide OrderOf;
  }

  lemma {:induction false} OrdersCompose(settings: Settings, c: Call, s: Spot, t: Spot, u: Spot)
    requires OnlyOrdersOf(settings, c, s, t) && OnlyOrdersOf(settings, c, t, u)
    ensures OnlyOrdersOf(settings, c, s, u)
  {
    hide OrderOf;
    assert u.trace[..|s.trace|] == u.trace[..|t.trace|][..|s.trace|];
    forall i | |s.trace| <= i < |u.trace| && u.trace[i].Placed? ensures OrderOf(settings, c, u.trace[i]) {
      if i < |t.trace| { assert u.trace[i] == u.trace[..|t.trace|][i] == t.trace[i]; }
    }
  }

  /** Accepted ids of a call: none, slice 0, or slice 0 then slice 1. */
  ghost predicate PlacedInOrder(settings: Settings, c: Call, fp: Fingerprint, s: Spot, t: Spot) {
    var tag0, tag1 := TagFor(c, 0), TagFor(c, 1);
    || NothingPlaced(s, t)
    || OnePlaced(s, t, tag0, settings.digest(tag0), fp, c.now)
    || (&& Tags(t.trace) == Tags(s.trace) + [tag0, tag1]
        && t.recentCids == s.recentCids[settings.digest(tag0) := c.now][settings.digest(tag1) := c.now]
        && t.recentIntents == s.recentIntents[fp := c.now])
  }

  ghost predicate CallEffect(settings: Settings, c: Call, s: Spot, t: Spot) {
    && (Tracks(s, t, c.maker.guardAt) || Tracks(s, t, c.taker.guardAt))
    && LatchesKept(s, t) && OnlyOrdersOf(settings, c, s, t)
  }

  lemma {:induction false} FallbackEffect(settings: Settings, s: Spot, c: Call, qty: real, fp: Fingerprint)
    requires PreSubmitValidate(settings, c.intent, c.quote).Validated?
    requires PreSubmitValidate(settings, c.intent, c.quote).qty == qty
    ensures var r := Fallback(settings, s, c, qty, fp);
            && Tracks(s, r.state, c.taker.guardAt) && LatchesKept(s, r.state)
            && OnlyOrdersOf(settings, c, s, r.state)
            && (NothingPlaced(s, r.state)
                || OnePlaced(s, r.state, TagFor(c, 1), settings.digest(TagFor(c, 1)), fp, c.now))
  {
    hide SubmitLimitOrder, SubmitMarketBuy, Apply, PreSubmitValidate, Lower, Tags, RejectTimes, RateLimitTimes, Recent,
         GuardOf;
    var tag := TagFor(c, 1);
    var cid := settings.digest(tag);
    if Lower(c.intent.side) == "sell" {
      var checked := PreSubmitValidate(settings, c.intent, c.refreshed);
      if checked.Validated? {
        var submitted := Notify(s, SubmitEvent(c.intent.symbol, cid));
        LimitEffect(settings, submitted, c.intent, tag, c.now, fp, checked.qty, checked.conservativePrice, c.taker);
        var e := Placed(cid, tag, false, checked.qty, checked.conservativePrice, c.intent.reduceOnly);
        OrderOfQuote(settings, c, c.refreshed, e);
        OneOrder(settings, c, submitted, Fallback(settings, s, c, qty, fp).state, e);
      }
    } else if c.intent.netEdgeBps > 0.0 {
      MarketEffect(settings, s, c.intent, tag, c.now, fp, qty, c.taker);
      var e := Placed(cid, tag, true, qty, 0.0, c.intent.reduceOnly);
      OrderOfQuote(settings, c, c.quote, e);
      OneOrder(settings, c, s, Fallback(settings, s, c, qty, fp).state, e);
    }
  }

  lemma {:induction false} FirstOrderEffect(
    settings: Settings, s: Spot, c: Call, qty: real, sent: real, fp: Fingerprint)
    requires PreSubmitValidate(settings, c.intent, c.quote).Validated?
    requires var v := PreSubmitValidate(settings, c.intent, c.quote);
             qty == v.qty && sent == if c.intent.style == Passive then v.makerPrice else v.conservativePrice
    ensures var tag := TagFor(c, 0);
            var submitted := Notify(s, SubmitEvent(c.intent.symbol, settings.digest(tag)));
            var r := SubmitLimitOrder(settings, submitted, c.intent, tag, c.now, fp, qty, sent, c.maker);
            var e := Placed(settings.digest(tag), tag, false, qty, sent, c.intent.reduceOnly);
            && SubmissionEffect(s, r, e, fp, c.now, c.maker.guardAt)
            && OnlyOrdersOf(settings, c, s, r.state)
  {
    hide SubmitLimitOrder, Apply, PreSubmitValidate, Lower, Tags, RejectTimes, RateLimitTimes, Recent, GuardOf;
    var tag := TagFor(c, 0);
    var cid := settings.digest(tag);
    var submitted := Notify(s, SubmitEvent(c.intent.symbol, cid));
    var e := Placed(cid, tag, false, qty, sent, c.intent.reduceOnly);
    LimitEffect(settings, submitted, c.intent, tag, c.now, fp, qty, sent, c.maker);
    OrderOfQuote(settings, c, c.quote, e);
    var made := SubmitLimitOrder(settings, submitted, c.intent, tag, c.now, fp, qty, sent, c.maker);
    OneOrder(settings, c, submitted, made.state, e);
  }

  lemma {:induction false} SendEffect(
    settings: Settings, s: Spot, c: Call, qty: real, makerPrice: real, price: real, fp: Fingerprint)
    requires PreSubmitValidate(settings, c.intent, c.quote) == Validated(qty, makerPrice, price)
    ensures var t := SendOrders(settings, s, c, qty, makerPrice, price, fp).state;
            CallEffect(settings, c, s, t) && PlacedInOrder(settings, c, fp, s, t)
  {
    hide SubmitLimitOrder, Fallback, Apply, PreSubmitValidate, Lower, Tags, RejectTimes, RateLimitTimes, Recent, GuardOf,
         OnlyOrdersOf;
    var sent := if c.intent.style == Marketable then price else makerPrice;
    FirstOrderEffect(settings, s, c, qty, sent, fp);
    var tag := TagFor(c, 0);
    var submitted := Notify(s, SubmitEvent(c.intent.symbol, settings.digest(tag)));
    var made := SubmitLimitOrder(settings, submitted, c.intent, tag, c.now, fp, qty, sent, c.maker);
    if c.intent.style != Marketable && made.status == TimeoutOrder {
      FallbackEffect(settings, made.state, c, qty, fp);
      OrdersCompose(settings, c, s, made.state, Fallback(settings, made.state, c, qty, fp).state);
      assert Tags(s.trace) + [tag] + [TagFor(c, 1)] == Tags(s.trace) + [tag, TagFor(c, 1)];
    }
  }

  /** A latch, or the cooldown, stops the intent before anything is looked at. */
  predicate Stopped(s: Spot, c: Call) {
    s.killed || ((s.flattenOnly || s.safeMode) && !c.intent.reduceOnly) || c.now < s.cooldownUntil
  }

  /** Not authorised to order, or refused by the validation. */
  predicate Condemned(settings: Settings, s: Spot, c: Call) {
    OrderingBlock(settings, s.authValidated).Some? || PreSubmitValidate(settings, c.intent, c.quote).Refused?
  }

  /** Seen before: by fingerprint or id here, or by id on the exchange. */
  ghost predicate SeenBefore(settings: Settings, s: Spot, c: Call) {
    || FingerprintOf(c) in Evict(s.recentIntents, c.now) || settings.digest(TagFor(c, 0)) in Evict(s.recentCids, c.now)
    || !c.existing.NotFound?
  }

  /** The gate: an intent that is stopped changes nothing, one that is condemned kills the service for at least five
      minutes, one seen before changes no latch; none of them sends or tracks anything. */
  lemma {:induction false} GateHolds(settings: Settings, s: Spot, c: Call)
    requires Stopped(s, c) || Condemned(settings, s, c) || SeenBefore(settings, s, c)
    ensures var t := ExecuteIntent(settings, s, c).state;
            && t.trace == s.trace && t.rejects == s.rejects && t.rateLimits == s.rateLimits
            && (Stopped(s, c) ==> t == s)
            && (!Stopped(s, c) && Condemned(settings, s, c) ==>
                  && t.killed && t.safeMode && t.mirror == s.mirror
                  && t.cooldownUntil >= c.failAt + 300.0 && t.cooldownUntil >= s.cooldownUntil)
            && (!Stopped(s, c) && !Condemned(settings, s, c) ==>
                  t.killed == s.killed && t.safeMode == s.safeMode && t.flattenOnly == s.flattenOnly)
  {
    hide SendOrders, RecordFound, PreSubmitValidate, OrderingBlock, Evict, LedgerKept, RejectTimes, RateLimitTimes;
    if c.existing.Found? {
      var e := s.(recentCids := Evict(s.recentCids, c.now), recentIntents := Evict(s.recentIntents, c.now));
      FoundEffect(settings, e, c, c.existing.order);
    }
  }

  lemma {:induction false} DeduplicateEffect(
    settings: Settings, s: Spot, c: Call, qty: real, makerPrice: real, price: real)
    requires PreSubmitValidate(settings, c.intent, c.quote) == Validated(qty, makerPrice, price)
    ensures CallEffect(settings, c, s, Deduplicate(settings, s, c, qty, makerPrice, price).state)
  {
    hide SendOrders, RecordFound, PreSubmitValidate, Tags, RejectTimes, RateLimitTimes, Recent, Evict, BookedOnce,
         FingerprintOf, TagFor, OrderOf;
    var e := s.(recentCids := Evict(s.recentCids, c.now), recentIntents := Evict(s.recentIntents, c.now));
    if c.existing.Found? {
      FoundEffect(settings, e, c, c.existing.order);
    } else if c.existing.NotFound? {
      SendEffect(settings, e, c, qty, makerPrice, price, FingerprintOf(c));
    }
  }

  /** What one call may do to trackers, latches and trace. */
  lemma {:induction false} ExecuteEffect(settings: Settings, s: Spot, c: Call)
    ensures var t := ExecuteIntent(settings, s, c).state;
            && CallEffect(settings, c, s, t)
            && (s.killed ==> t == s)
            && (s.flattenOnly && !c.intent.reduceOnly ==> t == s)
  {
    hide Deduplicate, PreSubmitValidate, Tags, RejectTimes, RateLimitTimes, Recent, OrderingBlock, BookedOnce, OrderOf;
    var checked := PreSubmitValidate(settings, c.intent, c.quote);
    if checked.Validated? {
      DeduplicateEffect(settings, s, c, checked.qty, checked.makerPrice, checked.conservativePrice);
    }
  }
}
