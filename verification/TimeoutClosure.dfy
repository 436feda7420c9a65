/** What a timed-out limit order leaves in the lifecycle mirror. */
module TimeoutClosure {
  import opened FifoLedger
  import opened OrderLifecycle
  import opened SpotService
  import opened SpotSafety

  const CLOSED_AFTER_TIMEOUT: set<State> := {Cancelled, Rejected, Expired, CancelRejected}

  /** The record of `key` is held under `key` itself, in state `state`. */
  predicate Holds(m: Mirror, key: string, state: State) {
    Resolve(m, key) == key && key in m.records && m.records[key].orderKey == key && m.records[key].state == state
  }

  /** The reply to the placement reaches the record: it is no replace status and not older than what is known. */
  predicate Moves(s: Spot, order: Order) {
    !IsReplace(order.status)
    && (OrderKey(order) in s.orderStatus ==> StatusRank(order.status) >= StatusRank(s.orderStatus[OrderKey(order)]))
  }

  lemma {:induction false} HeldState(m: Mirror, key: string)
    ensures forall state :: Holds(m, key, state) ==> StateOf(m, key) == Some(state)
  {
  }

  function Moved(state: State, to: State): State {
    if Legal(state, to) then to else state
  }

  /** One event on a held record: it moves along the table or stays. */
  lemma {:induction false} HeldStep(m: Mirror, key: string, state: State, e: Event)
    requires Holds(m, key, state) && e.orderKey == key && key != ""
    ensures Holds(Apply(m, e), key, Moved(state, e.to))
    ensures var log := Apply(m, e).pending;
            log != [] && log[|log| - 1].to == e.to && log[|log| - 1].accepted == Legal(state, e.to)
  {
    hide Allowed;
  }

  lemma {:induction false} HeldUpdate(s: Spot, key: string, state: State, order: Order)
    requires Holds(s.mirror, key, state) && OrderKey(order) == key && key != ""
    ensures Moves(s, order) ==>
              Holds(ApplyOrderUpdate(s, order).mirror, key, Moved(state, StateFor(order.status)))
    ensures !Moves(s, order) ==> Holds(ApplyOrderUpdate(s, order).mirror, key, state)
  {
    hide Legal, StateFor, StatusRank, Apply;
    HeldStep(s.mirror, key, state, ExchangeEvent(Stripped(order)));
  }

  /** Where a cancellation answered so ends, from a state the placement may have left. */
  lemma {:induction false} CancelTable(state: State, answer: State)
    requires state in {Submitted, Accepted, Working, Cancelled, Rejected, Expired}
    requires answer in {Cancelled, CancelRejected}
    ensures var answered := Moved(Moved(state, CancelPending), answer);
            && answered == (if state in {Accepted, Working} || (state == Submitted && answer == Cancelled) then answer
                            else state)
            && Legal(answered, TimedOut) == (answered == Submitted)
  {
  }

  /** Where a reply that is no fill puts a submitted record. */
  lemma {:induction false} PlacedStates(status: Wire)
    requires !IsFilled(status) && !IsReplace(status)
    ensures StateFor(status) in {Accepted, Working, Cancelled, Rejected, Expired} && Legal(Submitted, StateFor(status))
  {
  }

  lemma {:induction false} CancelCloses(s: Spot, symbol: string, key: string, stage: Stage, state: State)
    requires Holds(s.mirror, key, state) && key != ""
    requires state in {Submitted, Accepted, Working, Cancelled, Rejected, Expired}
    requires CancelAndTimeOut(s, symbol, key, stage).status == TimeoutOrder
    ensures var m := CancelAndTimeOut(s, symbol, key, stage).state.mirror;
            var left := Moved(Moved(state, CancelPending), if stage.cancel.CancelDone? then Cancelled else CancelRejected);
            && Holds(m, key, Moved(left, TimedOut))
            && m.pending != [] && m.pending[|m.pending| - 1].to == TimedOut
            && m.pending[|m.pending| - 1].accepted == Legal(left, TimedOut)
  {
    hide Apply, ApplyOrderUpdate, Holds, RateLimitGuard, Legal;
    var requested := Notify(s, CancelRequestedEvent(symbol, key));
    HeldStep(s.mirror, key, state, CancelRequestedEvent(symbol, key));
    var asked := Moved(state, CancelPending);
    match stage.cancel
    case CancelDone =>
      var o := Order(symbol, "", key, CANCELED, false);
      HeldUpdate(requested, key, asked, o);
      HeldStep(ApplyOrderUpdate(requested, o).mirror, key, Moved(asked, Cancelled), TimedOutEvent(symbol, key));
    case CancelThrew(limited) =>
      HeldStep(requested.mirror, key, asked, CancelRejectedEvent(symbol, key));
      var refused := Notify(requested, CancelRejectedEvent(symbol, key));
      if limited {
        RateLimitEffect(refused, stage.guardAt, stage.killAt);
      } else {
        HeldStep(refused.mirror, key, Moved(asked, CancelRejected), TimedOutEvent(symbol, key));
      }
  }

  /** Main result: a limit order that its caller had submitted and that is reported as timed out leaves its record
      cancelled, rejected, expired or cancel-rejected, with the closing `timed_out` event refused - unless the reply
      to the placement did not reach the record and the cancellation raised, and then exactly the opposite. */
  lemma {:induction false} TimedOutOrdersAreClosed(
    settings: Settings, s: Spot, intent: Intent, tag: OrderTag, now: real, fp: Fingerprint,
    qty: real, price: real, stage: Stage)
    requires var cid := settings.digest(tag);
             && cid != "" && Holds(s.mirror, cid, Submitted)
             && (stage.place.Took? ==> stage.place.order.clientOrderId == cid)
    requires SubmitLimitOrder(settings, s, intent, tag, now, fp, qty, price, stage).status == TimeoutOrder
    ensures stage.place.Took?
    ensures var cid := settings.digest(tag);
            var m := SubmitLimitOrder(settings, s, intent, tag, now, fp, qty, price, stage).state.mirror;
            var unreached := !Moves(s, stage.place.order) && stage.cancel.CancelThrew?;
            && StateOf(m, cid).Some?
            && StateOf(m, cid).value in (if unreached then {TimedOut} else CLOSED_AFTER_TIMEOUT)
            && m.pending != [] && m.pending[|m.pending| - 1].to == TimedOut
            && m.pending[|m.pending| - 1].accepted == unreached
  {
    hide Apply, ApplyOrderUpdate, CancelAndTimeOut, RejectGuard, AwaitFill, StateFor, Legal, IsReplace, Holds;
    var cid := settings.digest(tag);
    if stage.place.Threw? {
      RejectEffect(Notify(s, RejectedEvent(intent.symbol, cid)), stage.place.rateLimited, stage.guardAt, stage.killAt);
    } else {
      var order := stage.place.order;
      var placed := Placed(cid, tag, false, qty, price, intent.reduceOnly);
      var recorded := RecordPlaced(s, order, cid, fp, now, placed);
      HeldUpdate(s.(trace := s.trace + [placed]), cid, Submitted, order);
      var state := if Moves(s, order) then StateFor(order.status) else Submitted;
      if !IsFilled(order.status) {
        if Moves(s, order) { PlacedStates(order.status); }
        assert Holds(recorded.mirror, cid, state);
        CancelCloses(recorded, intent.symbol, cid, stage, state);
        CancelTable(state, if stage.cancel.CancelDone? then Cancelled else CancelRejected);
        HeldState(AfterPlaced(settings, recorded, intent, cid, order, stage).state.mirror, cid);
      }
    }
  }

  /** A fresh id is held as submitted, so the result above applies to every first use of an id. */
  lemma {:induction false} SubmissionIsHeld(s: Spot, symbol: string, cid: string)
    requires cid !in s.mirror.records && cid !in s.mirror.aliases
    ensures Holds(Notify(s, SubmitEvent(symbol, cid)).mirror, cid, Submitted)
  {
  }

  /** The exception is real at the service: a replace status in the reply - the connector passes one on if the exchange
      library reports it - and a cancellation that raises, and the record of an order that may still be open ends as
      timed out. */
  lemma {:induction false} ReplaceReplyLeavesTimedOut(
    settings: Settings, intent: Intent, tag: OrderTag, fp: Fingerprint, s: Spot, stage: Stage)
    requires settings.digest(tag) == "id" && settings.makerTimeoutS == 0
    requires s == Notify(INITIAL, SubmitEvent("XBTUSD", "id"))
    requires stage == Stage(true, Took(Order("XBTUSD", "", "id", AMENDED, false)), History([]), 0.0, [],
                            CancelThrew(false), 0.0, 0.0)
    ensures var r := SubmitLimitOrder(settings, s, intent, tag, 0.0, fp, 1.0, 1.0, stage);
            r.status == TimeoutOrder && StateOf(r.state.mirror, "id") == Some(TimedOut)
  {
    hide Apply, ApplyOrder;
    SubmissionIsHeld(INITIAL, "XBTUSD", "id");
    TimedOutOrdersAreClosed(settings, s, intent, tag, 0.0, fp, 1.0, 1.0, stage);
  }
}
