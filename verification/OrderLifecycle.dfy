/** The order lifecycle mirror: an eighteen-state transition table, an alias map from exchange ids to
    canonical keys, and an event log that is drained. */
module OrderLifecycle {
  import opened FifoLedger

  datatype State =
    | Submitted | Accepted | Working | PartiallyFilled | Filled
    | CancelPending | Cancelled | CancelRejected
    | ReplacePending | Replaced | ReplaceRejected
    | Expired | Rejected | TimedOut | Stuck | Orphaned | Recovered | Unknown

  /** Upper-cased exchange status texts; anything unlisted is Other. */
  datatype Wire =
    | NEW | ACK | ACKNOWLEDGED | PARTIALLY_FILLED | FILLED | EXECUTED | CLOSED
    | CANCELED | CANCELLED | REJECTED | EXPIRED
    | PENDING_REPLACE | REPLACE_PENDING | AMEND_PENDING | REPLACED | AMENDED | REPLACE_REJECTED | AMEND_REJECTED
    | OtherStatus(text: string)

  /** Where an existing record may go, RECOVERED aside. The row for "no record" is never consulted. */
  function Allowed(from: State): set<State> {
    match from
    case Submitted =>
      {Accepted, Working, PartiallyFilled, Filled, Cancelled, Rejected, Expired, TimedOut, Orphaned}
    case Accepted =>
      {Working, PartiallyFilled, Filled, CancelPending, ReplacePending, Replaced, Cancelled, Rejected, Expired, TimedOut}
    case Working =>
      {PartiallyFilled, Filled, CancelPending, ReplacePending, Replaced, Cancelled, Expired, TimedOut, Stuck}
    case PartiallyFilled =>
      {PartiallyFilled, Filled, CancelPending, ReplacePending, Replaced, Cancelled, Expired, TimedOut, Recovered}
    case ReplacePending => {Replaced, ReplaceRejected, Cancelled, Filled, PartiallyFilled, Expired}
    case ReplaceRejected => {Working, PartiallyFilled, Filled, CancelPending, Expired}
    case CancelPending => {Cancelled, CancelRejected, Filled, PartiallyFilled}
    case CancelRejected => {Working, PartiallyFilled, Filled, CancelPending}
    case TimedOut => {CancelPending, Cancelled, Filled, Recovered, Stuck}
    case Orphaned => {CancelPending, Cancelled, Recovered, Stuck}
    case _ => {}
  }

  datatype Confidence = Local | Exchange | Recovery

  datatype Source = LocalSubmit | ExchangeOrderUpdate | LocalCancel | LocalTimeout | LocalReject | RecoverySource

  datatype Reason =
    | IntentSubmitted | ExchangeStatus(status: Wire) | CancelRequested | CancelRejectedReason
    | MakerTimeout | OrphanOpenOrder | RecoveredFromHistory | OrderRejected
    | DuplicateLifecycleEvent | OutOfOrderLifecycleEvent | UnsupportedReplace

  datatype Record = Record(
    symbol: string, orderKey: string, state: State, confidence: Confidence,
    orderId: string, clientOrderId: string, fillCount: nat)

  datatype Transition = Transition(
    symbol: string, orderKey: string, from: Option<State>, to: State, source: Source, reason: Reason,
    accepted: bool, duplicate: bool, outOfOrder: bool)

  datatype Event = Event(
    symbol: string, orderKey: string, to: State, source: Source, reason: Reason, confidence: Confidence,
    orderId: string, clientOrderId: string)

  datatype Order = Order(symbol: string, orderId: string, clientOrderId: string, status: Wire, replaceSupported: bool)

  datatype Outcome = Done | DuplicateEvent | OutOfOrderEvent | ReplaceUnsupported

  // ----- Specification -----

  datatype Mirror = Mirror(records: map<string, Record>, aliases: map<string, string>, pending: seq<Transition>)

  const EMPTY := Mirror(map[], map[], [])

  function Resolve(m: Mirror, key: string): string {
    if key in m.aliases then m.aliases[key] else key
  }

  function StateOf(m: Mirror, key: string): Option<State> {
    if key in m.records then Some(m.records[key].state) else None
  }

  /** Whether an existing record in state `from` accepts an event to `to`. */
  predicate Legal(from: State, to: State) {
    to != from && (to in Allowed(from) || to == Recovered)
  }

  function OutcomeOf(m: Mirror, e: Event): Outcome {
    match StateOf(m, Resolve(m, e.orderKey))
    case None => Done
    case Some(from) =>
      if from == e.to then DuplicateEvent
      else if Legal(from, e.to) then Done
      else OutOfOrderEvent
  }

  function Updated(m: Mirror, e: Event): Record {
    var key := Resolve(m, e.orderKey);
    if key in m.records then
      var r := m.records[key];
      r.(state := e.to, confidence := e.confidence,
         orderId := if e.orderId != "" then e.orderId else r.orderId,
         clientOrderId := if e.clientOrderId != "" then e.clientOrderId else r.clientOrderId)
    else
      Record(e.symbol, key, e.to, e.confidence, e.orderId, e.clientOrderId, 0)
  }

  function Remember(aliases: map<string, string>, r: Record): map<string, string> {
    var withOrder := if r.orderId != "" then aliases[r.orderId := r.orderKey] else aliases;
    if r.clientOrderId != "" then withOrder[r.clientOrderId := r.orderKey] else withOrder
  }

  function Logged(m: Mirror, e: Event): Transition {
    var key := Resolve(m, e.orderKey);
    var outcome := OutcomeOf(m, e);
    Transition(e.symbol, key, StateOf(m, key), e.to, e.source,
               match outcome
               case DuplicateEvent => DuplicateLifecycleEvent
               case OutOfOrderEvent => OutOfOrderLifecycleEvent
               case _ => e.reason,
               outcome == Done, outcome == DuplicateEvent, outcome == OutOfOrderEvent)
  }

  function Apply(m: Mirror, e: Event): Mirror {
    if OutcomeOf(m, e) == Done then
      var r := Updated(m, e);
      Mirror(m.records[Resolve(m, e.orderKey) := r], Remember(m.aliases, r), m.pending + [Logged(m, e)])
    else
      m.(pending := m.pending + [Logged(m, e)])
  }

  predicate IsReplace(status: Wire) {
    status in {PENDING_REPLACE, REPLACE_PENDING, AMEND_PENDING, REPLACED, AMENDED, REPLACE_REJECTED, AMEND_REJECTED}
  }

  /** CLOSED is not in the table, so it maps to WORKING like any unknown text. */
  function StateFor(status: Wire): State {
    match status
    case NEW => Accepted
    case ACK => Accepted
    case ACKNOWLEDGED => Accepted
    case PARTIALLY_FILLED => PartiallyFilled
    case FILLED => Filled
    case EXECUTED => Filled
    case CANCELED => Cancelled
    case CANCELLED => Cancelled
    case REJECTED => Rejected
    case EXPIRED => Expired
    case PENDING_REPLACE => ReplacePending
    case REPLACE_PENDING => ReplacePending
    case AMEND_PENDING => ReplacePending
    case REPLACED => Replaced
    case AMENDED => Replaced
    case REPLACE_REJECTED => ReplaceRejected
    case AMEND_REJECTED => ReplaceRejected
    case _ => Working
  }

  function OrderKey(o: Order): string {
    if o.clientOrderId != "" then o.clientOrderId else o.orderId
  }

  function ExchangeEvent(o: Order): Event {
    Event(o.symbol, OrderKey(o), StateFor(o.status), ExchangeOrderUpdate, ExchangeStatus(o.status), Exchange,
          o.orderId, o.clientOrderId)
  }

  function ApplyOrder(m: Mirror, o: Order): Mirror {
    if IsReplace(o.status) && !o.replaceSupported then
      m.(pending := m.pending + [Transition(o.symbol, OrderKey(o), StateOf(m, Resolve(m, OrderKey(o))), Unknown,
                                            ExchangeOrderUpdate, UnsupportedReplace, false, false, false)])
    else
      Apply(m, ExchangeEvent(o))
  }

  function OrderOutcome(m: Mirror, o: Order): Outcome {
    if IsReplace(o.status) && !o.replaceSupported then ReplaceUnsupported else OutcomeOf(m, ExchangeEvent(o))
  }

  function CountFill(m: Mirror, orderKey: string): Mirror {
    var key := Resolve(m, orderKey);
    if key in m.records then
      m.(records := m.records[key := m.records[key].(fillCount := m.records[key].fillCount + 1)])
    else m
  }

  // Events the service raises about its own actions.

  function SubmitEvent(symbol: string, key: string): Event {
    Event(symbol, key, Submitted, LocalSubmit, IntentSubmitted, Local, "", key)
  }
  function CancelRequestedEvent(symbol: string, key: string): Event {
    Event(symbol, key, CancelPending, LocalCancel, CancelRequested, Local, "", "")
  }
  function CancelRejectedEvent(symbol: string, key: string): Event {
    Event(symbol, key, CancelRejected, LocalCancel, CancelRejectedReason, Local, "", "")
  }
  function TimedOutEvent(symbol: string, key: string): Event {
    Event(symbol, key, TimedOut, LocalTimeout, MakerTimeout, Local, "", "")
  }
  function RejectedEvent(symbol: string, key: string): Event {
    Event(symbol, key, Rejected, LocalReject, OrderRejected, Local, "", "")
  }

  // ----- The mirror object -----

  class OrderLifecycleMirror {
    var records: map<string, Record>
    var aliases: map<string, string>
    var pending: seq<Transition>

    function Value(): Mirror
      reads this
    {
      Mirror(records, aliases, pending)
    }

    constructor ()
      ensures Value() == EMPTY
    {
      records, aliases, pending := map[], map[], [];
    }

    method Reset()
      modifies this
      ensures Value() == EMPTY
    {
      records, aliases, pending := map[], map[], [];
    }

    method RememberAliases(record: Record)
      modifies this`aliases
      ensures aliases == Remember(old(aliases), record)
    {
      if record.orderId != "" {
        aliases := aliases[record.orderId := record.orderKey];
      }
      if record.clientOrderId != "" {
        aliases := aliases[record.clientOrderId := record.orderKey];
      }
    }

    method Transit(e: Event) returns (outcome: Outcome)
      modifies this
      ensures Value() == Apply(old(Value()), e)
      ensures outcome == OutcomeOf(old(Value()), e)
    {
      var key := if e.orderKey in aliases then aliases[e.orderKey] else e.orderKey;
      var prior := if key in records then Some(records[key].state) else None;
      if prior == Some(e.to) {
        pending := pending + [Transition(e.symbol, key, prior, e.to, e.source, DuplicateLifecycleEvent, false, true, false)];
        return DuplicateEvent;
      }
      if prior.Some? && e.to !in Allowed(prior.value) && e.to != Recovered {
        pending := pending
          + [Transition(e.symbol, key, prior, e.to, e.source, OutOfOrderLifecycleEvent, false, false, true)];
        return OutOfOrderEvent;
      }
      var record: Record;
      if prior.None? {
        record := Record(e.symbol, key, e.to, e.confidence, e.orderId, e.clientOrderId, 0);
      } else {
        record := records[key].(state := e.to, confidence := e.confidence);
        if e.orderId != "" {
          record := record.(orderId := e.orderId);
        }
        if e.clientOrderId != "" {
          record := record.(clientOrderId := e.clientOrderId);
        }
      }
      records := records[key := record];
      RememberAliases(record);
      pending := pending + [Transition(e.symbol, key, prior, e.to, e.source, e.reason, true, false, false)];
      outcome := Done;
    }

    method Submit(symbol: string, orderKey: string) returns (outcome: Outcome)
      modifies this
      ensures Value() == Apply(old(Value()), SubmitEvent(symbol, orderKey))
      ensures outcome == OutcomeOf(old(Value()), SubmitEvent(symbol, orderKey))
    {
      outcome := Transit(Event(symbol, orderKey, Submitted, LocalSubmit, IntentSubmitted, Local, "", orderKey));
    }

    method ApplyExchangeUpdate(o: Order) returns (outcome: Outcome)
      modifies this
      ensures Value() == ApplyOrder(old(Value()), o)
      ensures outcome == OrderOutcome(old(Value()), o)
    {
      var key := if o.clientOrderId != "" then o.clientOrderId else o.orderId;
      if IsReplace(o.status) && !o.replaceSupported {
        var canonical := if key in aliases then aliases[key] else key;
        var prior := if canonical in records then Some(records[canonical].state) else None;
        pending := pending
          + [Transition(o.symbol, key, prior, Unknown, ExchangeOrderUpdate, UnsupportedReplace, false, false, false)];
        return ReplaceUnsupported;
      }
      outcome := Transit(Event(o.symbol, key, StateFor(o.status), ExchangeOrderUpdate, ExchangeStatus(o.status), Exchange,
                               o.orderId, o.clientOrderId));
    }

    method NoteFill(orderKey: string)
      modifies this`records
      ensures Value() == CountFill(old(Value()), orderKey)
    {
      var key := if orderKey in aliases then aliases[orderKey] else orderKey;
      if key in records {
        records := records[key := records[key].(fillCount := records[key].fillCount + 1)];
      }
    }

    method DrainTransitions() returns (drained: seq<Transition>)
      modifies this`pending
      ensures drained == old(pending) && pending == []
    {
      drained := pending;
      pending := [];
    }

    method Snapshot() returns (rows: set<Record>)
      ensures rows == records.Values
    {
      rows := records.Values;
    }
  }
}
