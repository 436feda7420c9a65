/** Order sending on Kraken spot as steps: the latches, the storm trackers, the two dedupe maps and the
    lifecycle mirror, driven by a clock and by exchange replies given as inputs. `trace` records what was
    sent and what was tracked; nothing reads it. */
module SpotService {
  import opened FifoLedger
  import opened ProfitGuard
  import opened OrderLifecycle

  // ----- Settings and intents -----

  /** What a client order id is the digest of, the run id being fixed. */
  datatype OrderTag = OrderTag(symbol: string, side: string, second: int, slice: int)

  datatype Mode = Live | LiveReadonly | OtherMode

  datatype Settings = Settings(
    mode: Mode, whitelisted: bool, targetIsKrakenSpot: bool, longOnly: bool, shortLock: bool,
    harmonyEnabled: bool, marketWatchEnabled: bool, leverageIsZero: bool, universe: seq<string>,
    doctrine: Doctrine, costs: CostModel, makerTimeoutS: int, digest: OrderTag -> string)

  /** The digest is taken to be collision free. */
  ghost predicate CollisionFree(settings: Settings) {
    forall a, b :: settings.digest(a) == settings.digest(b) ==> a == b
  }

  datatype Style = Passive | Marketable

  datatype Intent = Intent(
    symbol: string, side: string, targetNotional: real, reduceOnly: bool, targetsKrakenSpot: bool,
    watchBlocksEntries: bool, integrityBlocksEntries: bool, style: Style, netEdgeBps: real)

  datatype Refusal =
    | TargetInvalid | InvalidSide | InvalidTargetNotional | MarketWatchBlocksEntries | MarketIntegrityBlocksEntries
    | QuoteUnavailable | InvalidSymbolConstraints | NormalizationFailed | InvalidQuantity | InvalidPrice
    | BelowMinOrderSize | BelowMinNotional | NonReduceSellBlock | SellGuard(verdict: Verdict)

  datatype KillReason =
    | OperatorKill(text: string) | OrderingNotAllowed | DoctrineNotReady | PreflightNotCompleted
    | PreSubmit(refusal: Refusal) | PreviewFailed | RejectStorm | RateLimitStorm | FlattenOnlyReason(text: string)

  function LowerChar(c: char): char {
    if 'A' <= c <= 'Z' then (c as int - 'A' as int + 'a' as int) as char else c
  }

  function Lower(text: string): string {
    if text == "" then "" else [LowerChar(text[0])] + Lower(text[1..])
  }

  predicate DoctrineReady(settings: Settings) {
    && settings.targetIsKrakenSpot && settings.longOnly && settings.shortLock
    && settings.doctrine.enforceCostBasisSellBlock && settings.doctrine.enforceNetProfitSellBlock
    && settings.doctrine.blockNonReduceOnlySells && settings.doctrine.minimumSellNetProfitBps >= 120.0
    && settings.harmonyEnabled && settings.marketWatchEnabled
  }

  function OrderingBlock(settings: Settings, authValidated: bool): Option<KillReason> {
    if settings.mode != Live then Some(OrderingNotAllowed)
    else if !DoctrineReady(settings) then Some(DoctrineNotReady)
    else if !authValidated then Some(PreflightNotCompleted)
    else None
  }

  // ----- Preflight -----

  datatype Listing = Listing(active: bool, spot: bool)

  datatype Constraints = Constraints(active: bool, spot: bool, minOrderSize: real)

  /** What the connector answers about one symbol during a preflight; None where it raises. */
  datatype Look = Look(constraints: Option<Constraints>, total: Option<real>, rows: seq<Row>, balance: Option<Balance>)

  datatype Probe = Probe(
    hasCredentials: bool, permissions: Option<bool>, info: Option<map<string, Listing>>, look: string -> Look)

  datatype PreflightResult =
    | Ready | ReadonlyReady
    | NotWhitelisted | DoctrineNotInForce | MissingCredentials | PermissionsRefused
    | LeverageNotZero | SymbolMissing(symbol: string) | SymbolInactive(symbol: string)
    | ConstraintsInvalid(symbol: string) | InventoryInvalid(symbol: string, reason: TruthReason)
    | PreflightRaised

  function CheckSymbol(info: map<string, Listing>, symbol: string, look: Look): PreflightResult {
    if symbol !in info then SymbolMissing(symbol)
    else if !info[symbol].active || !info[symbol].spot then SymbolInactive(symbol)
    else if look.constraints.None? then PreflightRaised
    else if !look.constraints.value.active || !look.constraints.value.spot then ConstraintsInvalid(symbol)
    else if look.total.None? then PreflightRaised
    else if look.total.value <= Max(0.000000001, look.constraints.value.minOrderSize) then Ready
    else
      match AuthoritativeInventory(look.rows, look.balance)
      case NoTruth(reason) => InventoryInvalid(symbol, reason)
      case _ => Ready
  }

  /** The first symbol that fails decides. */
  function CheckSymbols(info: map<string, Listing>, symbols: seq<string>, look: string -> Look): PreflightResult {
    if symbols == [] then Ready
    else
      var first := CheckSymbol(info, symbols[0], look(symbols[0]));
      if first != Ready then first else CheckSymbols(info, symbols[1..], look)
  }

  /** The checks up to the point where the flag is set. */
  function BeforeFlag(settings: Settings, probe: Probe): PreflightResult {
    if !settings.whitelisted then NotWhitelisted
    else if !DoctrineReady(settings) then DoctrineNotInForce
    else if settings.mode == LiveReadonly then ReadonlyReady
    else if !probe.hasCredentials then MissingCredentials
    else if probe.permissions.None? then PreflightRaised
    else if !probe.permissions.value then PermissionsRefused
    else Ready
  }

  /** The checks after it. */
  function AfterFlag(settings: Settings, probe: Probe): PreflightResult {
    if !settings.leverageIsZero then LeverageNotZero
    else if probe.info.None? then PreflightRaised
    else CheckSymbols(probe.info.value, settings.universe, probe.look)
  }

  function PreflightOf(settings: Settings, probe: Probe): PreflightResult {
    if BeforeFlag(settings, probe) != Ready then BeforeFlag(settings, probe) else AfterFlag(settings, probe)
  }

  function AfterPreflight(settings: Settings, s: Spot, probe: Probe): Spot {
    s.(authValidated := s.authValidated || BeforeFlag(settings, probe) == Ready)
  }

  // ----- Pre-submit validation -----

  datatype Book = Book(active: bool, spot: bool, minQty: real, minNotional: real, bid: real, ask: real)

  /** One look at the history and the balance. */
  datatype Snapshot = Snapshot(rows: seq<Row>, balance: Option<Balance>)

  /** Everything the connector answers during one validation; None where it raises. */
  datatype Quote = Quote(
    book: Option<Book>, normalizeAmount: real -> Option<real>, normalizePrice: real -> Option<real>,
    first: Snapshot, second: Snapshot)

  datatype PreResult =
    | Refused(refusal: Refusal)
    | Validated(qty: real, makerPrice: real, conservativePrice: real)

  function GuardOf(settings: Settings, quote: Quote, qty: real, bid: real, ask: real): Verdict {
    SellProfitGuard(settings.doctrine, settings.costs,
                    AuthoritativeInventory(quote.first.rows, quote.first.balance),
                    AuthoritativeInventory(quote.second.rows, quote.second.balance), qty, bid, ask)
  }

  function PreSubmitValidate(settings: Settings, intent: Intent, quote: Quote): PreResult {
    var side := Lower(intent.side);
    if !intent.targetsKrakenSpot then Refused(TargetInvalid)
    else if side != "buy" && side != "sell" then Refused(InvalidSide)
    else if intent.targetNotional <= 0.0 then Refused(InvalidTargetNotional)
    else if intent.watchBlocksEntries && !intent.reduceOnly then Refused(MarketWatchBlocksEntries)
    else if intent.integrityBlocksEntries && !intent.reduceOnly then Refused(MarketIntegrityBlocksEntries)
    else if quote.book.None? || quote.book.value.bid <= 0.0 || quote.book.value.ask <= 0.0 then Refused(QuoteUnavailable)
    else
      var book := quote.book.value;
      if !book.active || !book.spot then Refused(InvalidSymbolConstraints)
      else
        var maker := if side == "buy" then book.bid else book.ask;
        var conservative := if side == "buy" then book.ask else book.bid;
        var qty := quote.normalizeAmount(intent.targetNotional / Max(conservative, DUST));
        var price := quote.normalizePrice(maker);
        if qty.None? || price.None? then Refused(NormalizationFailed)
        else if qty.value <= 0.0 then Refused(InvalidQuantity)
        else if price.value <= 0.0 then Refused(InvalidPrice)
        else if qty.value < book.minQty then Refused(BelowMinOrderSize)
        else if qty.value * conservative < book.minNotional then Refused(BelowMinNotional)
        else if side == "sell" && !intent.reduceOnly then Refused(NonReduceSellBlock)
        else if side == "sell" && GuardOf(settings, quote, qty.value, book.bid, book.ask) != Pass then
          Refused(SellGuard(GuardOf(settings, quote, qty.value, book.bid, book.ask)))
        else Validated(qty.value, price.value, conservative)
  }

  // ----- State -----

  datatype Fingerprint = Fingerprint(symbol: string, side: string, notional: int, bucket: int)

  datatype Trace =
    | Placed(cid: string, tag: OrderTag, market: bool, qty: real, price: real, reduceOnly: bool)
    | RejectTracked(at: real)
    | RateLimitTracked(at: real)

  /** `booked` lists the fills handed out for booking since the last rehydration; like `trace`, nothing reads it. */
  datatype Spot = Spot(
    killed: bool, safeMode: bool, flattenOnly: bool, killReason: Option<KillReason>, cooldownUntil: real,
    authValidated: bool,
    recentCids: map<string, real>, recentIntents: map<Fingerprint, real>,
    rejects: seq<real>, rateLimits: seq<real>,
    orderStatus: map<string, Wire>, fillIds: set<string>, mirror: Mirror, trace: seq<Trace>,
    booked: seq<FillReport>)

  datatype Status = Killed | Blocked | Deduped | RejectedOrder | TimeoutOrder | FilledOrder | Raised

  datatype Stepped = Stepped(state: Spot, status: Status)

  const DEDUPE_TTL: real := 600.0
  const STORM_WINDOW: real := 60.0
  const MAX_REJECTS := 5
  const MAX_RATE_HITS := 3

  // ----- Inputs of one call -----

  datatype PlaceReply = Took(order: Order) | Threw(rateLimited: bool)
  datatype QueryReply = NotFound | Found(order: Order) | QueryRaised
  datatype CancelReply = CancelDone | CancelThrew(rateLimited: bool)
  datatype Poll = Poll(at: real, reply: QueryReply)

  /** The trade history fetched to book the fills of an order, or that fetching it raised (as a rate limit or not). */
  datatype Booking = History(rows: seq<Row>) | BookingRaised(rateLimited: bool)

  /** Replies and clock readings of one submission; the polls end when the clock passes the deadline. */
  datatype Stage = Stage(
    previewOk: bool, place: PlaceReply, booking: Booking, waitFrom: real, polls: seq<Poll>,
    cancel: CancelReply, guardAt: real, killAt: real)

  datatype Call = Call(
    intent: Intent, now: real, fingerprintAt: real, failAt: real, quote: Quote,
    existing: QueryReply, existingBooking: Booking, maker: Stage, refreshed: Quote, taker: Stage)

  // ----- Latches and trackers -----

  function RequestKill(s: Spot, reason: KillReason, at: real): Spot {
    s.(killed := true, safeMode := true, killReason := Some(reason), cooldownUntil := Max(s.cooldownUntil, at + 300.0))
  }

  function EnterFlattenOnly(s: Spot, text: string): Spot {
    s.(flattenOnly := true, safeMode := true, killReason := Some(FlattenOnlyReason(text)))
  }

  /** The readings no older than the storm window at `at`. */
  function Recent(times: seq<real>, at: real): seq<real> {
    if times == [] then []
    else
      Recent(times[..|times| - 1], at)
      + if at - times[|times| - 1] <= STORM_WINDOW then [times[|times| - 1]] else []
  }

  function RateLimitGuard(s: Spot, at: real, killAt: real): Stepped {
    var tracked := s.(rateLimits := Recent(s.rateLimits + [at], at), trace := s.trace + [RateLimitTracked(at)]);
    if |tracked.rateLimits| > MAX_RATE_HITS then Stepped(RequestKill(tracked, RateLimitStorm, killAt), Killed)
    else Stepped(tracked, RejectedOrder)
  }

  function RejectGuard(s: Spot, rateLimited: bool, at: real, killAt: real): Stepped {
    if rateLimited then RateLimitGuard(s, at, killAt)
    else
      var tracked := s.(rejects := Recent(s.rejects + [at], at), trace := s.trace + [RejectTracked(at)]);
      if |tracked.rejects| > MAX_REJECTS then Stepped(RequestKill(tracked, RejectStorm, killAt), Killed)
      else Stepped(tracked, RejectedOrder)
  }

  function Evict<K>(recent: map<K, real>, now: real): map<K, real> {
    map k | k in recent && now - recent[k] <= DEDUPE_TTL :: recent[k]
  }

  // ----- Order updates -----

  function StatusRank(status: Wire): nat {
    match status
    case NEW => 1
    case PARTIALLY_FILLED => 2
    case FILLED => 3
    case CANCELED => 3
    case REJECTED => 3
    case EXECUTED => 3
    case CLOSED => 3
    case _ => 0
  }

  predicate IsFilled(status: Wire) {
    status in {FILLED, PARTIALLY_FILLED, EXECUTED, CLOSED}
  }

  datatype UpdateOutcome = Updated | MissingOrderId | OutOfOrderUpdate | MirrorRefused(outcome: Outcome)

  /** The service strips any replace support before the mirror sees the update. */
  function Stripped(o: Order): Order {
    o.(replaceSupported := false)
  }

  function UpdateOutcomeOf(s: Spot, o: Order): UpdateOutcome {
    var key := OrderKey(o);
    if key == "" then MissingOrderId
    else if key in s.orderStatus && StatusRank(o.status) < StatusRank(s.orderStatus[key]) then OutOfOrderUpdate
    else
      match OrderOutcome(s.mirror, Stripped(o))
      case Done => Updated
      case OutOfOrderEvent => OutOfOrderUpdate
      case other => MirrorRefused(other)
  }

  function ApplyOrderUpdate(s: Spot, o: Order): Spot {
    var key := OrderKey(o);
    if key == "" then s
    else if key in s.orderStatus && StatusRank(o.status) < StatusRank(s.orderStatus[key]) then s
    else s.(orderStatus := s.orderStatus[key := o.status], mirror := ApplyOrder(s.mirror, Stripped(o)))
  }

  datatype FillReport = FillReport(id: string, notional: real, orderKey: string)

  datatype FillOutcome = FillApplied | MissingFillId | DuplicateFill | NonPositiveFill

  function FillOutcomeOf(s: Spot, f: FillReport): FillOutcome {
    if f.id == "" then MissingFillId
    else if f.id in s.fillIds then DuplicateFill
    else if f.notional <= 0.0 then NonPositiveFill
    else FillApplied
  }

  function ApplyFillUpdate(s: Spot, f: FillReport): Spot {
    if FillOutcomeOf(s, f) != FillApplied then s
    else
      s.(fillIds := s.fillIds + {f.id},
         mirror := if f.orderKey == "" then s.mirror else CountFill(s.mirror, f.orderKey))
  }

  function ReplayOrders(s: Spot, orders: seq<Order>): Spot {
    if orders == [] then s
    else ApplyOrderUpdate(ReplayOrders(s, orders[..|orders| - 1]), orders[|orders| - 1])
  }

  function ReplayFills(s: Spot, fills: seq<FillReport>): Spot {
    if fills == [] then s
    else ApplyFillUpdate(ReplayFills(s, fills[..|fills| - 1]), fills[|fills| - 1])
  }

  /** Statuses, fill ids and lifecycle are forgotten and rebuilt from the stored events. */
  function RehydrateState(s: Spot, orders: seq<Order>, fills: seq<FillReport>): Spot {
    ReplayFills(ReplayOrders(Cleared(s), orders), fills)
  }

  function Cleared(s: Spot): Spot {
    s.(orderStatus := map[], fillIds := {}, mirror := EMPTY, booked := [])
  }

  /** Order updates that came through, as the rehydration counts them. */
  function CountUpdated(s: Spot, orders: seq<Order>): nat {
    if orders == [] then 0
    else
      var n := |orders| - 1;
      CountUpdated(s, orders[..n]) + if UpdateOutcomeOf(ReplayOrders(s, orders[..n]), orders[n]) == Updated then 1 else 0
  }

  // ----- Booking -----

  function SideOf(text: string): Side {
    if Lower(text) == "buy" then Buy else if Lower(text) == "sell" then Sell else OtherSide
  }

  function ReportsOf(records: seq<FillRecord>): seq<FillReport> {
    if records == [] then []
    else
      var last := records[|records| - 1];
      ReportsOf(records[..|records| - 1]) + [FillReport(last.fillId, last.notional, last.orderId)]
  }

  function LedgerFilter(intent: Intent, order: Order): Filter {
    Filter(SideOf(intent.side), if order.orderId == "" then None else Some(order.orderId), None)
  }

  function BookFill(s: Spot, f: FillReport): Spot {
    if FillOutcomeOf(s, f) != FillApplied then s
    else ApplyFillUpdate(s, f).(booked := s.booked + [f])
  }

  function BookFills(s: Spot, fills: seq<FillReport>): Spot {
    if fills == [] then s
    else BookFill(BookFills(s, fills[..|fills| - 1]), fills[|fills| - 1])
  }

  datatype BookResult = BookResult(state: Spot, raised: Option<bool>)

  /** The fills of a filled order are looked up in the history and booked unless known. */
  function BookOrder(s: Spot, intent: Intent, order: Order, booking: Booking): BookResult {
    if !IsFilled(order.status) then BookResult(s, None)
    else
      match booking
      case BookingRaised(rateLimited) => BookResult(s, Some(rateLimited))
      case History(rows) =>
        BookResult(BookFills(s, ReportsOf(FillHistory(LedgerFilter(intent, order), rows).0)), None)
  }

  function BookedStatus(raised: Option<bool>, otherwise: Status): Status {
    if raised.Some? then Raised else otherwise
  }

  function Notify(s: Spot, e: Event): Spot {
    s.(mirror := Apply(s.mirror, e))
  }

  // ----- Submitting -----

  /** An order accepted by the exchange: logged, applied and remembered in both dedupe maps. */
  function RecordPlaced(s: Spot, order: Order, cid: string, fp: Fingerprint, now: real, placed: Trace): Spot {
    var applied := ApplyOrderUpdate(s.(trace := s.trace + [placed]), order);
    applied.(recentCids := applied.recentCids[cid := now], recentIntents := applied.recentIntents[fp := now])
  }

  /** First poll before the deadline that raises or shows a fill. */
  function AwaitFill(polls: seq<Poll>, deadline: real): QueryReply {
    if polls == [] || polls[0].at >= deadline then NotFound
    else
      var reply := polls[0].reply;
      if reply.QueryRaised? || (reply.Found? && IsFilled(reply.order.status)) then reply
      else AwaitFill(polls[1..], deadline)
  }

  function Deadline(settings: Settings, stage: Stage): real {
    stage.waitFrom + (if settings.makerTimeoutS > 0 then settings.makerTimeoutS else 0) as real
  }

  /** The limit order was not filled in time: cancel it and report the timeout. */
  function CancelAndTimeOut(s: Spot, symbol: string, cid: string, stage: Stage): Stepped {
    var requested := Notify(s, CancelRequestedEvent(symbol, cid));
    match stage.cancel
    case CancelDone =>
      var cancelled := ApplyOrderUpdate(requested, Order(symbol, "", cid, CANCELED, false));
      Stepped(Notify(cancelled, TimedOutEvent(symbol, cid)), TimeoutOrder)
    case CancelThrew(rateLimited) =>
      var refused := Notify(requested, CancelRejectedEvent(symbol, cid));
      if rateLimited then RateLimitGuard(refused, stage.guardAt, stage.killAt)
      else Stepped(Notify(refused, TimedOutEvent(symbol, cid)), TimeoutOrder)
  }

  function AfterPlaced(settings: Settings, s: Spot, intent: Intent, cid: string, order: Order, stage: Stage): Stepped {
    if IsFilled(order.status) then
      var b := BookOrder(s, intent, order, stage.booking);
      Stepped(b.state, BookedStatus(b.raised, FilledOrder))
    else
      match AwaitFill(stage.polls, Deadline(settings, stage))
      case QueryRaised => Stepped(s, Raised)
      case Found(current) =>
        var b := BookOrder(ApplyOrderUpdate(s, current), intent, current, stage.booking);
        Stepped(b.state, BookedStatus(b.raised, FilledOrder))
      case NotFound => CancelAndTimeOut(s, intent.symbol, cid, stage)
  }

  function SubmitLimitOrder(
    settings: Settings, s: Spot, intent: Intent, tag: OrderTag, now: real, fp: Fingerprint,
    qty: real, price: real, stage: Stage): Stepped
  {
    var cid := settings.digest(tag);
    if !stage.previewOk then
      Stepped(RequestKill(Notify(s, RejectedEvent(intent.symbol, cid)), PreviewFailed, stage.killAt), Killed)
    else
      match stage.place
      case Threw(rateLimited) =>
        RejectGuard(Notify(s, RejectedEvent(intent.symbol, cid)), rateLimited, stage.guardAt, stage.killAt)
      case Took(order) =>
        var placed := Placed(cid, tag, false, qty, price, intent.reduceOnly);
        AfterPlaced(settings, RecordPlaced(s, order, cid, fp, now, placed), intent, cid, order, stage)
  }

  /** The market fallback of a buy whose maker order timed out. */
  function SubmitMarketBuy(
    settings: Settings, s: Spot, intent: Intent, tag: OrderTag, now: real, fp: Fingerprint,
    qty: real, stage: Stage): Stepped
  {
    var cid := settings.digest(tag);
    var submitted := Notify(s, SubmitEvent(intent.symbol, cid));
    match stage.place
    case Threw(rateLimited) =>
      RejectGuard(Notify(submitted, RejectedEvent(intent.symbol, cid)), rateLimited, stage.guardAt, stage.killAt)
    case Took(order) =>
      var placed := Placed(cid, tag, true, qty, 0.0, intent.reduceOnly);
      var recorded := RecordPlaced(submitted, order, cid, fp, now, placed);
      var b := BookOrder(recorded, intent, order, stage.booking);
      match b.raised
      case None => Stepped(b.state, FilledOrder)
      case Some(rateLimited) =>
        RejectGuard(Notify(recorded, RejectedEvent(intent.symbol, cid)), rateLimited, stage.guardAt, stage.killAt)
  }

  function TagFor(c: Call, slice: int): OrderTag {
    OrderTag(c.intent.symbol, c.intent.side, c.now.Floor, slice)
  }

  function FingerprintOf(c: Call): Fingerprint {
    Fingerprint(c.intent.symbol, c.intent.side, (c.intent.targetNotional * 1000000.0 + 0.5).Floor,
                (c.fingerprintAt / 5.0).Floor)
  }

  /** The slice-1 order after a maker timeout: a re-validated aggressive limit for sells, a market order for buys
      that still show an edge. */
  function Fallback(settings: Settings, s: Spot, c: Call, qty: real, fp: Fingerprint): Stepped {
    if Lower(c.intent.side) == "sell" then
      match PreSubmitValidate(settings, c.intent, c.refreshed)
      case Refused(refusal) => Stepped(RequestKill(s, PreSubmit(refusal), c.taker.killAt), Killed)
      case Validated(freshQty, _, freshPrice) =>
        var submitted := Notify(s, SubmitEvent(c.intent.symbol, settings.digest(TagFor(c, 1))));
        SubmitLimitOrder(settings, submitted, c.intent, TagFor(c, 1), c.now, fp, freshQty, freshPrice, c.taker)
    else if c.intent.netEdgeBps <= 0.0 then
      Stepped(s, TimeoutOrder)
    else
      SubmitMarketBuy(settings, s, c.intent, TagFor(c, 1), c.now, fp, qty, c.taker)
  }

  /** From a passed validation and a fresh id on. */
  function SendOrders(
    settings: Settings, s: Spot, c: Call, qty: real, makerPrice: real, price: real, fp: Fingerprint): Stepped
  {
    var submitted := Notify(s, SubmitEvent(c.intent.symbol, settings.digest(TagFor(c, 0))));
    if c.intent.style == Marketable then
      SubmitLimitOrder(settings, submitted, c.intent, TagFor(c, 0), c.now, fp, qty, price, c.maker)
    else
      var made := SubmitLimitOrder(settings, submitted, c.intent, TagFor(c, 0), c.now, fp, qty, makerPrice, c.maker);
      if made.status != TimeoutOrder then made
      else Fallback(settings, made.state, c, qty, fp)
  }

  /** The exchange knows the id already: the order is recorded as sent, and its fills are booked. */
  function RecordFound(settings: Settings, s: Spot, c: Call, order: Order): BookResult {
    var applied := ApplyOrderUpdate(s, order);
    BookOrder(applied.(recentCids := applied.recentCids[settings.digest(TagFor(c, 0)) := c.now],
                       recentIntents := applied.recentIntents[FingerprintOf(c) := c.now]),
              c.intent, order, c.existingBooking)
  }

  function Deduplicate(settings: Settings, s: Spot, c: Call, qty: real, makerPrice: real, price: real): Stepped {
    var cid := settings.digest(TagFor(c, 0));
    var fp := FingerprintOf(c);
    var e := s.(recentCids := Evict(s.recentCids, c.now), recentIntents := Evict(s.recentIntents, c.now));
    if fp in e.recentIntents || cid in e.recentCids then Stepped(e, Deduped)
    else
      match c.existing
      case QueryRaised => Stepped(e, Raised)
      case Found(order) =>
        var b := RecordFound(settings, e, c, order);
        Stepped(b.state, BookedStatus(b.raised, Deduped))
      case NotFound => SendOrders(settings, e, c, qty, makerPrice, price, fp)
  }

  function ExecuteIntent(settings: Settings, s: Spot, c: Call): Stepped {
    if s.killed then Stepped(s, Killed)
    else if (s.flattenOnly || s.safeMode) && !c.intent.reduceOnly then Stepped(s, Blocked)
    else if c.now < s.cooldownUntil then Stepped(s, Blocked)
    else
      var block := OrderingBlock(settings, s.authValidated);
      if block.Some? then Stepped(RequestKill(s, block.value, c.failAt), Killed)
      else
        match PreSubmitValidate(settings, c.intent, c.quote)
        case Refused(refusal) => Stepped(RequestKill(s, PreSubmit(refusal), c.failAt), Killed)
        case Validated(qty, makerPrice, price) => Deduplicate(settings, s, c, qty, makerPrice, price)
  }

  lemma {:induction false} ReplayOrdersKeepsFills(s: Spot, orders: seq<Order>)
    ensures ReplayOrders(s, orders).fillIds == s.fillIds
  {
    hide ApplyOrder;
    if orders != [] { ReplayOrdersKeepsFills(s, orders[..|orders| - 1]); }
  }

  // ----- The service object -----

  class LiveKrakenSpotService {
    const settings: Settings
    const lifecycle: OrderLifecycleMirror

    var killed: bool
    var safeMode: bool
    var flattenOnly: bool
    var killReason: Option<KillReason>
    var cooldownUntil: real
    var authValidated: bool
    var recentCids: map<string, real>
    var recentIntents: map<Fingerprint, real>
    var rejects: seq<real>
    var rateLimits: seq<real>
    var orderStatus: map<string, Wire>
    var fillIds: set<string>
    ghost var trace: seq<Trace>
    ghost var booked: seq<FillReport>

    ghost function State(): Spot
      reads this, lifecycle
    {
      Spot(killed, safeMode, flattenOnly, killReason, cooldownUntil, authValidated, recentCids, recentIntents,
           rejects, rateLimits, orderStatus, fillIds, lifecycle.Value(), trace, booked)
    }

    constructor (settings: Settings)
      ensures this.settings == settings && fresh(lifecycle)
      ensures State() == INITIAL
    {
      this.settings := settings;
      lifecycle := new OrderLifecycleMirror();
      killed, safeMode, flattenOnly, killReason, cooldownUntil, authValidated := false, false, false, None, 0.0, false;
      recentCids, recentIntents, rejects, rateLimits, orderStatus, fillIds, trace, booked := map[], map[], [], [], map[], {}, [], [];
    }

    method Kill(reason: KillReason, at: real)
      modifies this
      ensures State() == RequestKill(old(State()), reason, at)
    {
      killed, safeMode, killReason := true, true, Some(reason);
      cooldownUntil := Max(cooldownUntil, at + 300.0);
    }

    method FlattenOnly(text: string)
      modifies this
      ensures State() == EnterFlattenOnly(old(State()), text)
    {
      flattenOnly, safeMode, killReason := true, true, Some(FlattenOnlyReason(text));
    }

    method GuardRateLimit(at: real, killAt: real) returns (status: Status)
      modifies this
      ensures Stepped(State(), status) == RateLimitGuard(old(State()), at, killAt)
    {
      rateLimits := rateLimits + [at];
      rateLimits := Recent(rateLimits, at);
      trace := trace + [RateLimitTracked(at)];
      if |rateLimits| > MAX_RATE_HITS {
        Kill(RateLimitStorm, killAt);
        return Killed;
      }
      status := RejectedOrder;
    }

    method GuardReject(rateLimited: bool, at: real, killAt: real) returns (status: Status)
      modifies this
      ensures Stepped(State(), status) == RejectGuard(old(State()), rateLimited, at, killAt)
    {
      if rateLimited {
        status := GuardRateLimit(at, killAt);
        return;
      }
      rejects := rejects + [at];
      rejects := Recent(rejects, at);
      trace := trace + [RejectTracked(at)];
      if |rejects| > MAX_REJECTS {
        Kill(RejectStorm, killAt);
        return Killed;
      }
      status := RejectedOrder;
    }

    /** Deletes the entries older than the dedupe lifetime, one key at a time. */
    static method EvictStore<K(==)>(store: map<K, real>, now: real) returns (kept: map<K, real>)
      ensures kept == Evict(store, now)
    {
      kept := store;
      var keys := store.Keys;
      while keys != {}
        invariant keys <= store.Keys
        invariant kept == map k | k in store && (k in keys || now - store[k] <= DEDUPE_TTL) :: store[k]
        decreases keys
      {
        var k :| k in keys;
        if now - kept[k] > DEDUPE_TTL {
          kept := kept - {k};
        }
        keys := keys - {k};
      }
    }

    method EvictDedupes(now: real)
      modifies this
      ensures State() == old(State()).(recentCids := Evict(old(recentCids), now),
                                       recentIntents := Evict(old(recentIntents), now))
    {
      recentCids := EvictStore(recentCids, now);
      recentIntents := EvictStore(recentIntents, now);
    }

    method UpdateOrder(o: Order) returns (outcome: UpdateOutcome)
      modifies this, lifecycle
      ensures State() == ApplyOrderUpdate(old(State()), o)
      ensures outcome == UpdateOutcomeOf(old(State()), o)
    {
      var key := OrderKey(o);
      if key == "" {
        return MissingOrderId;
      }
      if key in orderStatus && StatusRank(o.status) < StatusRank(orderStatus[key]) {
        return OutOfOrderUpdate;
      }
      orderStatus := orderStatus[key := o.status];
      var told := lifecycle.ApplyExchangeUpdate(Stripped(o));
      match told
      case Done => outcome := Updated;
      case OutOfOrderEvent => outcome := OutOfOrderUpdate;
      case other => outcome := MirrorRefused(other);
    }

    method UpdateFill(f: FillReport) returns (outcome: FillOutcome)
      modifies this`fillIds, lifecycle
      ensures State() == ApplyFillUpdate(old(State()), f)
      ensures outcome == FillOutcomeOf(old(State()), f)
    {
      if f.id == "" {
        return MissingFillId;
      }
      if f.id in fillIds {
        return DuplicateFill;
      }
      if f.notional <= 0.0 {
        return NonPositiveFill;
      }
      fillIds := fillIds + {f.id};
      if f.orderKey != "" {
        lifecycle.NoteFill(f.orderKey);
      }
      outcome := FillApplied;
    }

    method ReplayStoredOrders(orders: seq<Order>) returns (count: nat)
      modifies this, lifecycle
      ensures State() == ReplayOrders(old(State()), orders) && count == CountUpdated(old(State()), orders)
    {
      hide ApplyOrderUpdate, UpdateOutcomeOf;
      count := 0;
      for i := 0 to |orders|
        invariant State() == ReplayOrders(old(State()), orders[..i])
        invariant count == CountUpdated(old(State()), orders[..i])
      {
        assert orders[..i + 1][..i] == orders[..i];
        var outcome := UpdateOrder(orders[i]);
        if outcome == Updated { count := count + 1; }
      }
      assert orders[..|orders|] == orders;
    }

    method ReplayStoredFills(fills: seq<FillReport>) returns (count: nat)
      modifies this`fillIds, lifecycle
      ensures State() == ReplayFills(old(State()), fills)
      ensures |fillIds| == |old(fillIds)| + count
    {
      count := 0;
      for i := 0 to |fills|
        invariant State() == ReplayFills(old(State()), fills[..i]) && |fillIds| == |old(fillIds)| + count
      {
        assert fills[..i + 1][..i] == fills[..i];
        var outcome := UpdateFill(fills[i]);
        if outcome == FillApplied { count := count + 1; }
      }
      assert fills[..|fills|] == fills;
    }

    method Rehydrate(orders: seq<Order>, fills: seq<FillReport>) returns (orderCount: nat, fillCount: nat)
      modifies this, lifecycle
      ensures State() == RehydrateState(old(State()), orders, fills)
      ensures orderCount == CountUpdated(Cleared(old(State())), orders) && fillCount == |fillIds|
    {
      hide ReplayOrders, ReplayFills;
      orderStatus := map[];
      fillIds := {};
      booked := [];
      lifecycle.Reset();
      orderCount := ReplayStoredOrders(orders);
      assert fillIds == {} by {
        ReplayOrdersKeepsFills(Cleared(old(State())), orders);
      }
      fillCount := ReplayStoredFills(fills);
    }

    method DrainLifecycleTransitions() returns (drained: seq<Transition>)
      modifies lifecycle
      ensures drained == old(lifecycle.Value().pending)
      ensures State() == old(State()).(mirror := old(lifecycle.Value()).(pending := []))
    {
      drained := lifecycle.DrainTransitions();
    }

    /** Looks the fills of a filled order up and books the new ones. */
    method BookFilled(intent: Intent, order: Order, booking: Booking) returns (raised: Option<bool>)
      modifies this`fillIds, this`booked, lifecycle
      ensures BookResult(State(), raised) == BookOrder(old(State()), intent, order, booking)
    {
      if !IsFilled(order.status) {
        return None;
      }
      match booking {
        case BookingRaised(rateLimited) =>
          raised := Some(rateLimited);
        case History(rows) =>
          var records, gaps := AuthoritativeFillHistory(LedgerFilter(intent, order), rows);
          var reports := ReportsOf(records);
          hide FillHistory;
          for i := 0 to |reports|
            invariant State() == BookFills(old(State()), reports[..i])
          {
            assert reports[..i + 1][..i] == reports[..i];
            ghost var before := State();
            var outcome := UpdateFill(reports[i]);
            if outcome == FillApplied {
              booked := booked + [reports[i]];
            }
            assert State() == BookFill(before, reports[i]);
          }
          assert reports[..|reports|] == reports;
          raised := None;
      }
    }

    /** The symbols of the universe one after the other. */
    method CheckUniverse(info: map<string, Listing>, look: string -> Look) returns (result: PreflightResult)
      ensures result == CheckSymbols(info, settings.universe, look)
    {
      var symbols := settings.universe;
      var i := 0;
      assert symbols[0..] == symbols;
      while i < |symbols|
        invariant 0 <= i <= |symbols|
        invariant CheckSymbols(info, symbols[i..], look) == CheckSymbols(info, symbols, look)
      {
        assert symbols[i..][0] == symbols[i] && symbols[i..][1..] == symbols[i + 1..];
        result := CheckSymbol(info, symbols[i], look(symbols[i]));
        if result != Ready {
          return;
        }
        i := i + 1;
      }
      result := Ready;
    }

    method Preflight(probe: Probe) returns (result: PreflightResult)
      modifies this`authValidated
      ensures State() == AfterPreflight(settings, old(State()), probe) && result == PreflightOf(settings, probe)
    {
      if !settings.whitelisted {
        return NotWhitelisted;
      }
      if !DoctrineReady(settings) {
        return DoctrineNotInForce;
      }
      if settings.mode == LiveReadonly {
        return ReadonlyReady;
      }
      if !probe.hasCredentials {
        return MissingCredentials;
      }
      if probe.permissions.None? {
        return PreflightRaised;
      }
      if !probe.permissions.value {
        return PermissionsRefused;
      }
      authValidated := true;
      if !settings.leverageIsZero {
        return LeverageNotZero;
      }
      if probe.info.None? {
        return PreflightRaised;
      }
      result := CheckUniverse(probe.info.value, probe.look);
    }

    method Tell(e: Event)
      modifies lifecycle
      ensures State() == Notify(old(State()), e)
    {
      var outcome := lifecycle.Transit(e);
    }

    method Record(order: Order, cid: string, fp: Fingerprint, now: real, ghost placed: Trace)
      modifies this, lifecycle
      ensures State() == RecordPlaced(old(State()), order, cid, fp, now, placed)
    {
      trace := trace + [placed];
      var outcome := UpdateOrder(order);
      recentCids := recentCids[cid := now];
      recentIntents := recentIntents[fp := now];
    }

    static method PollUntilFilled(polls: seq<Poll>, deadline: real) returns (reply: QueryReply)
      ensures reply == AwaitFill(polls, deadline)
    {
      var i := 0;
      assert polls[0..] == polls;
      while i < |polls| && polls[i].at < deadline
        invariant 0 <= i <= |polls|
        invariant AwaitFill(polls[i..], deadline) == AwaitFill(polls, deadline)
      {
        assert polls[i..][0] == polls[i] && polls[i..][1..] == polls[i + 1..];
        match polls[i].reply {
          case QueryRaised => return QueryRaised;
          case Found(current) =>
            if IsFilled(current.status) {
              return Found(current);
            }
          case NotFound =>
        }
        i := i + 1;
      }
      reply := NotFound;
    }

    method CancelUnfilled(symbol: string, cid: string, stage: Stage) returns (status: Status)
      modifies this, lifecycle
      ensures Stepped(State(), status) == CancelAndTimeOut(old(State()), symbol, cid, stage)
    {
      Tell(CancelRequestedEvent(symbol, cid));
      match stage.cancel {
        case CancelDone =>
          var outcome := UpdateOrder(Order(symbol, "", cid, CANCELED, false));
        case CancelThrew(rateLimited) =>
          Tell(CancelRejectedEvent(symbol, cid));
          if rateLimited {
            status := GuardRateLimit(stage.guardAt, stage.killAt);
            return;
          }
      }
      Tell(TimedOutEvent(symbol, cid));
      status := TimeoutOrder;
    }

    method SubmitLimit(
      intent: Intent, tag: OrderTag, now: real, fp: Fingerprint, qty: real, price: real, stage: Stage)
      returns (status: Status)
      modifies this, lifecycle
      ensures Stepped(State(), status)
           == SubmitLimitOrder(settings, old(State()), intent, tag, now, fp, qty, price, stage)
    {
      var cid := settings.digest(tag);
      if !stage.previewOk {
        Tell(RejectedEvent(intent.symbol, cid));
        Kill(PreviewFailed, stage.killAt);
        return Killed;
      }
      match stage.place {
        case Threw(rateLimited) =>
          Tell(RejectedEvent(intent.symbol, cid));
          status := GuardReject(rateLimited, stage.guardAt, stage.killAt);
        case Took(order) =>
          Record(order, cid, fp, now, Placed(cid, tag, false, qty, price, intent.reduceOnly));
          if IsFilled(order.status) {
            var raised := BookFilled(intent, order, stage.booking);
            status := BookedStatus(raised, FilledOrder);
            return;
          }
          var reply := PollUntilFilled(stage.polls, Deadline(settings, stage));
          match reply {
            case QueryRaised =>
              status := Raised;
            case Found(current) =>
              var outcome := UpdateOrder(current);
              var raised := BookFilled(intent, current, stage.booking);
              status := BookedStatus(raised, FilledOrder);
            case NotFound =>
              status := CancelUnfilled(intent.symbol, cid, stage);
          }
      }
    }

    method SubmitMarket(intent: Intent, tag: OrderTag, now: real, fp: Fingerprint, qty: real, stage: Stage)
      returns (status: Status)
      modifies this, lifecycle
      ensures Stepped(State(), status) == SubmitMarketBuy(settings, old(State()), intent, tag, now, fp, qty, stage)
    {
      var cid := settings.digest(tag);
      Tell(SubmitEvent(intent.symbol, cid));
      match stage.place {
        case Threw(rateLimited) =>
          Tell(RejectedEvent(intent.symbol, cid));
          status := GuardReject(rateLimited, stage.guardAt, stage.killAt);
        case Took(order) =>
          Record(order, cid, fp, now, Placed(cid, tag, true, qty, 0.0, intent.reduceOnly));
          var raised := BookFilled(intent, order, stage.booking);
          match raised {
            case None =>
              status := FilledOrder;
            case Some(rateLimited) =>
              Tell(RejectedEvent(intent.symbol, cid));
              status := GuardReject(rateLimited, stage.guardAt, stage.killAt);
          }
      }
    }

    method SendAfterTimeout(c: Call, qty: real, fp: Fingerprint) returns (status: Status)
      modifies this, lifecycle
      ensures Stepped(State(), status) == Fallback(settings, old(State()), c, qty, fp)
    {
      if Lower(c.intent.side) == "sell" {
        match PreSubmitValidate(settings, c.intent, c.refreshed) {
          case Refused(refusal) =>
            Kill(PreSubmit(refusal), c.taker.killAt);
            status := Killed;
          case Validated(freshQty, _, freshPrice) =>
            Tell(SubmitEvent(c.intent.symbol, settings.digest(TagFor(c, 1))));
            status := SubmitLimit(c.intent, TagFor(c, 1), c.now, fp, freshQty, freshPrice, c.taker);
        }
      } else if c.intent.netEdgeBps <= 0.0 {
        status := TimeoutOrder;
      } else {
        status := SubmitMarket(c.intent, TagFor(c, 1), c.now, fp, qty, c.taker);
      }
    }

    method Send(c: Call, qty: real, makerPrice: real, price: real, fp: Fingerprint) returns (status: Status)
      modifies this, lifecycle
      ensures Stepped(State(), status) == SendOrders(settings, old(State()), c, qty, makerPrice, price, fp)
    {
      Tell(SubmitEvent(c.intent.symbol, settings.digest(TagFor(c, 0))));
      if c.intent.style == Marketable {
        status := SubmitLimit(c.intent, TagFor(c, 0), c.now, fp, qty, price, c.maker);
        return;
      }
      status := SubmitLimit(c.intent, TagFor(c, 0), c.now, fp, qty, makerPrice, c.maker);
      if status == TimeoutOrder {
        status := SendAfterTimeout(c, qty, fp);
      }
    }

    method Execute(c: Call) returns (status: Status)
      modifies this, lifecycle
      ensures Stepped(State(), status) == ExecuteIntent(settings, old(State()), c)
    {
      hide SendOrders, PreSubmitValidate, OrderingBlock, BookOrder, ApplyOrderUpdate, FingerprintOf, TagFor;
      if killed {
        return Killed;
      }
      if flattenOnly && !c.intent.reduceOnly {
        return Blocked;
      }
      if safeMode && !c.intent.reduceOnly {
        return Blocked;
      }
      if c.now < cooldownUntil {
        return Blocked;
      }
      var block := OrderingBlock(settings, authValidated);
      if block.Some? {
        Kill(block.value, c.failAt);
        return Killed;
      }
      var checked := PreSubmitValidate(settings, c.intent, c.quote);
      if checked.Refused? {
        Kill(PreSubmit(checked.refusal), c.failAt);
        return Killed;
      }
      var cid := settings.digest(TagFor(c, 0));
      EvictDedupes(c.now);
      var fp := FingerprintOf(c);
      if fp in recentIntents {
        return Deduped;
      }
      if cid in recentCids {
        return Deduped;
      }
      match c.existing {
        case QueryRaised =>
          status := Raised;
        case Found(order) =>
          var outcome := UpdateOrder(order);
          recentCids := recentCids[cid := c.now];
          recentIntents := recentIntents[fp := c.now];
          var raised := BookFilled(c.intent, order, c.existingBooking);
          status := BookedStatus(raised, Deduped);
        case NotFound =>
          status := Send(c, checked.qty, checked.makerPrice, checked.conservativePrice, fp);
      }
    }
  }

  const INITIAL :=
    Spot(false, false, false, None, 0.0, false, map[], map[], [], [], map[], {}, EMPTY, [], [])
}
