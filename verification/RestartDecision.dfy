/** What the open orders found at start-up decide: trade on, hold back, or only flatten. */
module RestartDecision {
  import opened FifoLedger
  import opened OrderLifecycle
  import opened SpotService
  import opened SpotSafety
  import opened SpotRuns

  /** An entry of the order log; its key is empty where the payload carries no id. */
  datatype LoggedOrder = LoggedOrder(key: string, status: Wire, orderId: string)

  /** An open order as the exchange reports it; None where a client-id field is missing. A field that is present but empty
      is not replaced by the next one. */
  datatype OpenOrder = OpenOrder(
    clientOrderId: Option<string>, origClientOrderId: Option<string>, cliOrdId: Option<string>, clOrdId: Option<string>,
    orderId: string, symbol: string, status: Wire)

  function OrElse(field: Option<string>, otherwise: string): string {
    if field.Some? then field.value else otherwise
  }

  /** The key recovery counts the order under. */
  function KeyOf(o: OpenOrder): string {
    OrElse(o.clientOrderId, OrElse(o.origClientOrderId, OrElse(o.clOrdId, o.orderId)))
  }

  /** The update the service makes of it; it reads other fields than recovery does. */
  function AsUpdate(o: OpenOrder): Order {
    Order(o.symbol, o.orderId, OrElse(o.clientOrderId, OrElse(o.cliOrdId, OrElse(o.clOrdId, ""))), o.status, false)
  }

  /** The id an orphan is cancelled under. */
  function CancelId(o: OpenOrder): string {
    OrElse(o.clientOrderId, OrElse(o.origClientOrderId, KeyOf(o)))
  }

  /** Last entry per key. */
  function LocalOrders(log: seq<LoggedOrder>): map<string, LoggedOrder> {
    if log == [] then map[]
    else
      var before, last := LocalOrders(log[..|log| - 1]), log[|log| - 1];
      if last.key == "" then before else before[last.key := last]
  }

  datatype RecoveryState =
    | FilledOut | CancelledOut | RejectedOut | PartiallyFilledOn | RecoveredOut | AcknowledgedOn | TimedOutOut | StuckOut

  function OrderRecoveryState(status: Wire, seenFill: bool, exchangeOpen: bool): RecoveryState {
    if status in {FILLED, EXECUTED, CLOSED} then FilledOut
    else if status in {CANCELED, CANCELLED} then CancelledOut
    else if status == REJECTED then RejectedOut
    else if status == PARTIALLY_FILLED then (if exchangeOpen then PartiallyFilledOn else RecoveredOut)
    else if status in {NEW, ACK, ACKNOWLEDGED} then
      (if exchangeOpen then AcknowledgedOn else if seenFill then RecoveredOut else TimedOutOut)
    else if seenFill then RecoveredOut
    else StuckOut
  }

  // ----- The two loops -----

  /** `cancels` lists the cancellations asked for, in order. */
  datatype Tally = Tally(
    spot: Spot, keys: set<string>, orphans: nat, recovered: nat, outOfOrder: nat, cancels: seq<string>)

  function TallyOne(local: map<string, LoggedOrder>, t: Tally, o: OpenOrder): Tally {
    var key := KeyOf(o);
    if key == "" then t
    else
      var outcome := UpdateOutcomeOf(t.spot, AsUpdate(o));
      Tally(ApplyOrderUpdate(t.spot, AsUpdate(o)), t.keys + {key},
            t.orphans + if key in local then 0 else 1,
            t.recovered + if key in local && outcome == Updated then 1 else 0,
            t.outOfOrder + if outcome == OutOfOrderUpdate then 1 else 0,
            t.cancels + if key in local then [] else [CancelId(o)])
  }

  function TallyOpen(local: map<string, LoggedOrder>, spot: Spot, orders: seq<OpenOrder>): Tally {
    if orders == [] then Tally(spot, {}, 0, 0, 0, [])
    else TallyOne(local, TallyOpen(local, spot, orders[..|orders| - 1]), orders[|orders| - 1])
  }

  predicate NeedsRecovery(order: LoggedOrder, filledOrders: set<string>) {
    OrderRecoveryState(order.status, order.orderId in filledOrders, false) in {RecoveredOut, TimedOutOut, StuckOut}
  }

  /** Local orders the exchange no longer shows and whose end is not on record. */
  function LostOrders(local: map<string, LoggedOrder>, keys: set<string>, filledOrders: set<string>): set<string> {
    set key | key in local && key !in keys && NeedsRecovery(local[key], filledOrders)
  }

  datatype BootOutcome = InsufficientConfidenceBoot | WarmRestart | SafeModeBoot | ColdRestart

  /** HaltBoot stands for halt and for halt-and-flatten, which are latched alike. */
  datatype BootAction = FlattenOnlyBoot | DegradeBoot | ContinueBoot | HaltBoot

  datatype Decision = Decision(
    outcome: BootOutcome, action: BootAction, recoveredOrders: nat, orphanOrders: nat, duplicateRepairs: nat,
    outOfOrderRepairs: nat)

  /** Inputs of one start: the order log, the ids and order ids of the fill log, the exchange's open orders (None where
      the fetch raised), the restart confidence and the operator's safe-mode wish. */
  datatype Restart = Restart(
    orderLog: seq<LoggedOrder>, fillIds: seq<string>, filledOrders: set<string>, openOrders: Option<seq<OpenOrder>>,
    insufficient: bool, safeModeRequested: bool)

  function ToSet(ids: seq<string>): set<string> {
    set id | id in ids
  }

  function OpenOrdersOf(r: Restart): seq<OpenOrder> {
    if r.openOrders.Some? then r.openOrders.value else []
  }

  function TallyOf(r: Restart, spot: Spot): Tally {
    TallyOpen(LocalOrders(r.orderLog), spot, OpenOrdersOf(r))
  }

  function DecisionOf(r: Restart, spot: Spot): Decision {
    var local, t := LocalOrders(r.orderLog), TallyOf(r, spot);
    var duplicates := if |r.fillIds| > |ToSet(r.fillIds)| then |r.fillIds| - |ToSet(r.fillIds)| else 0;
    var recovered := t.recovered + |LostOrders(local, t.keys, r.filledOrders)|;
    var (outcome, action) :=
      if r.insufficient then (InsufficientConfidenceBoot, FlattenOnlyBoot)
      else if t.orphans > 0 then (WarmRestart, FlattenOnlyBoot)
      else if r.safeModeRequested && (t.keys != {} || local != map[]) then (SafeModeBoot, DegradeBoot)
      else if t.keys != {} || local != map[] || r.fillIds != [] then
        (WarmRestart, if recovered > 0 || duplicates > 0 || t.outOfOrder > 0 then DegradeBoot else ContinueBoot)
      else (ColdRestart, ContinueBoot);
    Decision(outcome, action, recovered, t.orphans, duplicates, t.outOfOrder)
  }

  /** The start applies the decision to the service. */
  function Latched(s: Spot, action: BootAction, text: string, at: real): Spot {
    match action
    case FlattenOnlyBoot => EnterFlattenOnly(s, text)
    case DegradeBoot => s.(safeMode := true)
    case ContinueBoot => s
    case HaltBoot => RequestKill(s, OperatorKill(text), at)
  }

  method ApplyDecision(live: LiveKrakenSpotService, action: BootAction, text: string, at: real)
    modifies live
    ensures live.State() == Latched(old(live.State()), action, text, at)
  {
    match action {
      case FlattenOnlyBoot => live.FlattenOnly(text);
      case DegradeBoot => live.safeMode := true;
      case ContinueBoot =>
      case HaltBoot => live.Kill(OperatorKill(text), at);
    }
  }

  method CollectOrders(log: seq<LoggedOrder>) returns (local: map<string, LoggedOrder>)
    ensures local == LocalOrders(log)
  {
    local := map[];
    for i := 0 to |log|
      invariant local == LocalOrders(log[..i])
    {
      assert log[..i + 1][..i] == log[..i];
      if log[i].key != "" {
        local := local[log[i].key := log[i]];
      }
    }
    assert log[..|log|] == log;
  }

  method ApplyOpenOrders(live: LiveKrakenSpotService, local: map<string, LoggedOrder>, orders: seq<OpenOrder>)
    returns (keys: set<string>, orphans: nat, recovered: nat, outOfOrder: nat, cancels: seq<string>)
    modifies live, live.lifecycle
    ensures Tally(live.State(), keys, orphans, recovered, outOfOrder, cancels)
         == TallyOpen(local, old(live.State()), orders)
  {
    hide ApplyOrderUpdate, UpdateOutcomeOf;
    keys, orphans, recovered, outOfOrder, cancels := {}, 0, 0, 0, [];
    assert orders[..0] == [];
    for i := 0 to |orders|
      invariant Tally(live.State(), keys, orphans, recovered, outOfOrder, cancels)
             == TallyOpen(local, old(live.State()), orders[..i])
    {
      assert orders[..i + 1][..i] == orders[..i];
      var key := KeyOf(orders[i]);
      if key != "" {
        keys := keys + {key};
        var outcome := live.UpdateOrder(AsUpdate(orders[i]));
        if outcome == OutOfOrderUpdate {
          outOfOrder := outOfOrder + 1;
        }
        if key !in local {
          orphans := orphans + 1;
          cancels := cancels + [CancelId(orders[i])];
        } else if outcome == Updated {
          recovered := recovered + 1;
        }
      }
    }
    assert orders[..|orders|] == orders;
  }

  method RecoverInflightState(live: LiveKrakenSpotService, r: Restart)
    returns (decision: Decision, cancels: seq<string>)
    modifies live, live.lifecycle
    ensures decision == DecisionOf(r, old(live.State()))
    ensures live.State() == TallyOf(r, old(live.State())).spot && cancels == TallyOf(r, old(live.State())).cancels
  {
    hide LocalOrders, TallyOpen, LostOrders;
    var local := CollectOrders(r.orderLog);
    var keys, orphans, recovered, outOfOrder;
    keys, orphans, recovered, outOfOrder, cancels := ApplyOpenOrders(live, local, OpenOrdersOf(r));
    var lost := CountLost(local, keys, r.filledOrders);
    recovered := recovered + lost;
    var distinct := ToSet(r.fillIds);
    var duplicates := if |r.fillIds| > |distinct| then |r.fillIds| - |distinct| else 0;
    var outcome, action;
    if r.insufficient {
      outcome, action := InsufficientConfidenceBoot, FlattenOnlyBoot;
    } else if orphans > 0 {
      outcome, action := WarmRestart, FlattenOnlyBoot;
    } else if r.safeModeRequested && (keys != {} || local != map[]) {
      outcome, action := SafeModeBoot, DegradeBoot;
    } else if keys != {} || local != map[] || r.fillIds != [] {
      outcome := WarmRestart;
      action := if recovered > 0 || duplicates > 0 || outOfOrder > 0 then DegradeBoot else ContinueBoot;
    } else {
      outcome, action := ColdRestart, ContinueBoot;
    }
    decision := Decision(outcome, action, recovered, orphans, duplicates, outOfOrder);
  }

  /** The lost orders among the keys already looked at. */
  ghost function LostAmong(
    local: map<string, LoggedOrder>, keys: set<string>, filledOrders: set<string>, seen: set<string>): set<string>
  {
    set key | key in seen && key in local && key !in keys && NeedsRecovery(local[key], filledOrders)
  }

  lemma {:induction false} OneMoreLooked(
    local: map<string, LoggedOrder>, keys: set<string>, filledOrders: set<string>, seen: set<string>, key: string)
    requires key in local && key !in seen
    ensures |LostAmong(local, keys, filledOrders, seen + {key})|
         == |LostAmong(local, keys, filledOrders, seen)|
            + if key !in keys && NeedsRecovery(local[key], filledOrders) then 1 else 0
  {
    hide NeedsRecovery;
    var was, now := LostAmong(local, keys, filledOrders, seen), LostAmong(local, keys, filledOrders, seen + {key});
    if key !in keys && NeedsRecovery(local[key], filledOrders) {
      assert now == was + {key};
    } else {
      assert now == was;
    }
  }

  method CountLost(local: map<string, LoggedOrder>, keys: set<string>, filledOrders: set<string>) returns (lost: nat)
    ensures lost == |LostOrders(local, keys, filledOrders)|
  {
    hide NeedsRecovery, LostAmong;
    var todo := local.Keys;
    ghost var seen: set<string> := {};
    lost := 0;
    assert LostAmong(local, keys, filledOrders, {}) == {} by { NothingLooked(local, keys, filledOrders); }
    while todo != {}
      invariant todo !! seen && todo + seen == local.Keys
      invariant lost == |LostAmong(local, keys, filledOrders, seen)|
      decreases todo
    {
      var key :| key in todo;
      OneMoreLooked(local, keys, filledOrders, seen, key);
      if key !in keys && NeedsRecovery(local[key], filledOrders) {
        lost := lost + 1;
      }
      seen := seen + {key};
      todo := todo - {key};
    }
    NothingLooked(local, keys, filledOrders);
  }

  lemma {:induction false} NothingLooked(local: map<string, LoggedOrder>, keys: set<string>, filledOrders: set<string>)
    ensures LostAmong(local, keys, filledOrders, {}) == {}
    ensures LostAmong(local, keys, filledOrders, local.Keys) == LostOrders(local, keys, filledOrders)
  {
    hide NeedsRecovery;
  }

  // ----- When a start may only flatten -----

  predicate Orphan(local: map<string, LoggedOrder>, o: OpenOrder) {
    KeyOf(o) != "" && KeyOf(o) !in local
  }

  lemma {:induction false} OrphansCounted(local: map<string, LoggedOrder>, spot: Spot, orders: seq<OpenOrder>)
    ensures TallyOpen(local, spot, orders).orphans > 0 <==> exists i :: 0 <= i < |orders| && Orphan(local, orders[i])
    decreases |orders|
  {
    hide ApplyOrderUpdate, UpdateOutcomeOf;
    if orders != [] {
      var n := |orders| - 1;
      OrphansCounted(local, spot, orders[..n]);
      if i :| 0 <= i < |orders| && Orphan(local, orders[i]) {
        if i < n { assert Orphan(local, orders[..n][i]); }
      }
      if i :| 0 <= i < n && Orphan(local, orders[..n][i]) { assert Orphan(local, orders[i]); }
    }
  }

  /** The keys of the orphans, in the order they were reported. */
  function OrphanKeys(local: map<string, LoggedOrder>, orders: seq<OpenOrder>): seq<string> {
    if orders == [] then []
    else
      var last := orders[|orders| - 1];
      OrphanKeys(local, orders[..|orders| - 1]) + if Orphan(local, last) then [KeyOf(last)] else []
  }

  /** Exactly the orphans are asked to be cancelled, each once and under the key it was found by. */
  lemma {:induction false} OrphansAreCancelled(local: map<string, LoggedOrder>, spot: Spot, orders: seq<OpenOrder>)
    ensures TallyOpen(local, spot, orders).cancels == OrphanKeys(local, orders)
    ensures TallyOpen(local, spot, orders).orphans == |OrphanKeys(local, orders)|
    decreases |orders|
  {
    hide ApplyOrderUpdate, UpdateOutcomeOf;
    if orders != [] { OrphansAreCancelled(local, spot, orders[..|orders| - 1]); }
  }

  /** Recovery and the service can file one open order under two keys: they agree if the plain client id is there or
      neither of the fields only one of them reads is; an original client id alone is filed right only by accident. */
  lemma {:induction false} OneKeyForBoth(o: OpenOrder)
    requires KeyOf(o) != ""
    ensures o.clientOrderId.Some? || (o.origClientOrderId.None? && o.cliOrdId.None?) ==>
              KeyOf(o) == OrderKey(AsUpdate(o))
    ensures o.clientOrderId.None? && o.origClientOrderId.Some? && o.cliOrdId.None? && o.clOrdId.None? ==>
              (KeyOf(o) == OrderKey(AsUpdate(o)) <==> o.origClientOrderId.value == o.orderId)
  {
  }

  /** A start may only flatten exactly when confidence is insufficient or an open order carries a key the log does not. */
  lemma {:induction false} FlattenOnlyIff(r: Restart, spot: Spot)
    ensures DecisionOf(r, spot).action == FlattenOnlyBoot
       <==> r.insufficient
            || exists i :: 0 <= i < |OpenOrdersOf(r)| && Orphan(LocalOrders(r.orderLog), OpenOrdersOf(r)[i])
  {
    hide Orphan, LostOrders, LocalOrders, TallyOpen;
    OrphansCounted(LocalOrders(r.orderLog), spot, OpenOrdersOf(r));
  }

  /** Recovery never decides to halt, though the start would latch it. */
  lemma {:induction false} RecoveryNeverHalts(r: Restart, spot: Spot)
    ensures DecisionOf(r, spot).action != HaltBoot
  {
    hide TallyOpen, LocalOrders, LostOrders;
  }

  /** The state reported of a logged order: only an order still open keeps a live state, and of the others that have not
      ended exactly those with a fill on record, or partly filled before, count as recovered. */
  lemma {:induction false} StateIff(status: Wire, seenFill: bool, exchangeOpen: bool)
    ensures var state := OrderRecoveryState(status, seenFill, exchangeOpen);
      var ended := status in {FILLED, EXECUTED, CLOSED, CANCELED, CANCELLED, REJECTED};
      var waiting := status in {NEW, ACK, ACKNOWLEDGED};
      && (state in {FilledOut, CancelledOut, RejectedOut} <==> ended)
      && (state == FilledOut <==> status in {FILLED, EXECUTED, CLOSED})
      && (state == RejectedOut <==> status == REJECTED)
      && (state == AcknowledgedOn <==> exchangeOpen && waiting)
      && (state == PartiallyFilledOn <==> exchangeOpen && status == PARTIALLY_FILLED)
      && (state == TimedOutOut <==> !exchangeOpen && waiting && !seenFill)
      && (state == StuckOut <==> !ended && !waiting && status != PARTIALLY_FILLED && !seenFill)
  {
  }

  /** Whether a missing local order needs recovery does not depend on the fills seen, only on its status. */
  lemma {:induction false} LostUnlessFinal(order: LoggedOrder, filledOrders: set<string>)
    ensures NeedsRecovery(order, filledOrders)
       <==> order.status !in {FILLED, EXECUTED, CLOSED, CANCELED, CANCELLED, REJECTED}
  {
  }

  function Keyed(orders: seq<OpenOrder>): seq<OpenOrder> {
    if orders == [] then []
    else Keyed(orders[..|orders| - 1]) + if KeyOf(orders[|orders| - 1]) != "" then [orders[|orders| - 1]] else []
  }

  /** Open orders without a key play no part: not in the counts, not in the state, not in the decision. */
  lemma {:induction false} KeylessOrdersIgnored(r: Restart, spot: Spot)
    ensures var keyed := r.(openOrders := Some(Keyed(OpenOrdersOf(r))));
            DecisionOf(r, spot) == DecisionOf(keyed, spot) && TallyOf(r, spot) == TallyOf(keyed, spot)
  {
    hide LostOrders, LocalOrders, TallyOpen;
    KeylessTally(LocalOrders(r.orderLog), spot, OpenOrdersOf(r));
  }

  lemma {:induction false} KeylessTally(local: map<string, LoggedOrder>, spot: Spot, orders: seq<OpenOrder>)
    ensures TallyOpen(local, spot, orders) == TallyOpen(local, spot, Keyed(orders))
    decreases |orders|
  {
    hide ApplyOrderUpdate, UpdateOutcomeOf;
    if orders != [] {
      var n := |orders| - 1;
      var before := Keyed(orders[..n]);
      KeylessTally(local, spot, orders[..n]);
      if KeyOf(orders[n]) != "" {
        assert (before + [orders[n]])[..|before|] == before;
      } else {
        assert Keyed(orders) == before;
      }
    }
  }

  /** So an order of someone else that reports an empty client id does not stop trading: the start continues. */
  lemma {:induction false} EmptyClientIdIsNoOrphan()
    ensures var r := Restart([], [], {}, Some([OpenOrder(Some(""), None, None, None, "OABCDE", "XBTUSD", NEW)]), false, false);
            DecisionOf(r, INITIAL).action == ContinueBoot && DecisionOf(r, INITIAL).outcome == ColdRestart
  {
    var orders := [OpenOrder(Some(""), None, None, None, "OABCDE", "XBTUSD", NEW)];
    assert orders[..0] == [];
    assert TallyOpen(map[], INITIAL, orders[..0]) == Tally(INITIAL, {}, 0, 0, 0, []);
    assert ToSet([]) == {};
    assert LostOrders(map[], {}, {}) == {};
  }

  // ----- The decision from the inputs alone -----

  const ENDED: set<Wire> := {FILLED, EXECUTED, CLOSED, CANCELED, CANCELLED, REJECTED}

  /** Entry `i` is the last the log has of an order. */
  ghost predicate LastEntry(log: seq<LoggedOrder>, i: int) {
    && 0 <= i < |log| && log[i].key != ""
    && forall j :: i < j < |log| ==> log[j].key != log[i].key
  }

  ghost predicate OpenUnder(orders: seq<OpenOrder>, key: string) {
    exists o :: o in orders && KeyOf(o) == key
  }

  /** The orders whose last entry is no end and which the exchange no longer shows. */
  ghost function LostKeys(log: seq<LoggedOrder>, orders: seq<OpenOrder>): set<string> {
    set i | 0 <= i < |log| && LastEntry(log, i) && log[i].status !in ENDED && !OpenUnder(orders, log[i].key) :: log[i].key
  }

  function KeyedUpdates(orders: seq<OpenOrder>): seq<Order> {
    if orders == [] then []
    else
      var last := orders[|orders| - 1];
      KeyedUpdates(orders[..|orders| - 1]) + if KeyOf(last) != "" then [AsUpdate(last)] else []
  }

  /** What the service answers to open order `i`, the keyed ones before it applied. */
  function AnswerTo(spot: Spot, orders: seq<OpenOrder>, i: nat): UpdateOutcome
    requires i < |orders|
  {
    UpdateOutcomeOf(ReplayOrders(spot, KeyedUpdates(orders[..i])), AsUpdate(orders[i]))
  }

  ghost predicate Logged(log: seq<LoggedOrder>, key: string) {
    key != "" && exists i :: 0 <= i < |log| && log[i].key == key
  }

  /** Open order `i` is known and its update came through. */
  ghost predicate Came(log: seq<LoggedOrder>, spot: Spot, orders: seq<OpenOrder>, i: nat)
    requires i < |orders|
  {
    Logged(log, KeyOf(orders[i])) && AnswerTo(spot, orders, i) == Updated
  }

  /** Open order `i` has a key and its update went back. */
  predicate Back(spot: Spot, orders: seq<OpenOrder>, i: nat)
    requires i < |orders|
  {
    KeyOf(orders[i]) != "" && AnswerTo(spot, orders, i) == OutOfOrderUpdate
  }

  /** How many of the first `n` open orders came through, and how many went back. */
  ghost function CameThrough(log: seq<LoggedOrder>, spot: Spot, orders: seq<OpenOrder>, n: nat): nat
    requires n <= |orders|
  {
    if n == 0 then 0 else CameThrough(log, spot, orders, n - 1) + if Came(log, spot, orders, n - 1) then 1 else 0
  }

  function WentBack(spot: Spot, orders: seq<OpenOrder>, n: nat): nat
    requires n <= |orders|
  {
    if n == 0 then 0 else WentBack(spot, orders, n - 1) + if Back(spot, orders, n - 1) then 1 else 0
  }

  lemma {:induction false} NoneCounted(log: seq<LoggedOrder>, spot: Spot, orders: seq<OpenOrder>, n: nat)
    requires n <= |orders|
    ensures CameThrough(log, spot, orders, n) == 0 <==> forall i :: 0 <= i < n ==> !Came(log, spot, orders, i)
    ensures WentBack(spot, orders, n) == 0 <==> forall i :: 0 <= i < n ==> !Back(spot, orders, i)
    decreases n
  {
    hide Came, Back;
    if n > 0 { NoneCounted(log, spot, orders, n - 1); }
  }

  lemma {:induction false} LastOf(log: seq<LoggedOrder>, key: string) returns (i: int)
    requires Logged(log, key)
    ensures LastEntry(log, i) && log[i].key == key && key in LocalOrders(log) && LocalOrders(log)[key] == log[i]
    decreases |log|
  {
    var n := |log| - 1;
    if log[n].key == key {
      i := n;
    } else {
      var k :| 0 <= k < |log| && log[k].key == key;
      assert log[..n][k].key == key;
      i := LastOf(log[..n], key);
    }
  }

  lemma {:induction false} UnloggedAbsent(log: seq<LoggedOrder>, key: string)
    requires key in LocalOrders(log)
    ensures Logged(log, key)
    decreases |log|
  {
    var n := |log| - 1;
    if log[n].key != key || key == "" {
      UnloggedAbsent(log[..n], key);
      var k :| 0 <= k < n && log[..n][k].key == key;
      assert log[k].key == key;
    }
  }

  lemma {:induction false} LocalIsLast(log: seq<LoggedOrder>)
    ensures forall key :: key in LocalOrders(log) <==> Logged(log, key)
    ensures forall i :: LastEntry(log, i) ==> log[i].key in LocalOrders(log) && LocalOrders(log)[log[i].key] == log[i]
    ensures forall key :: key in LocalOrders(log) ==> exists i :: LastEntry(log, i) && log[i].key == key
  {
    hide LocalOrders;
    forall key ensures key in LocalOrders(log) <==> Logged(log, key) {
      if Logged(log, key) { var i := LastOf(log, key); }
      if key in LocalOrders(log) { UnloggedAbsent(log, key); }
    }
    forall i | LastEntry(log, i)
      ensures log[i].key in LocalOrders(log) && LocalOrders(log)[log[i].key] == log[i]
    {
      var j := LastOf(log, log[i].key);
      assert i == j;
    }
    forall key | key in LocalOrders(log) ensures exists i :: LastEntry(log, i) && log[i].key == key {
      var i := LastOf(log, key);
    }
  }

  lemma {:induction false} LostAre(log: seq<LoggedOrder>, orders: seq<OpenOrder>, keys: set<string>, filled: set<string>)
    requires forall key :: key in keys <==> key != "" && OpenUnder(orders, key)
    ensures LostOrders(LocalOrders(log), keys, filled) == LostKeys(log, orders)
  {
    hide LocalOrders, OpenUnder, NeedsRecovery;
    LocalIsLast(log);
    var local := LocalOrders(log);
    forall key ensures key in LostOrders(local, keys, filled) <==> key in LostKeys(log, orders) {
      if key in local {
        var i :| LastEntry(log, i) && log[i].key == key;
        LostUnlessFinal(log[i], filled);
      }
    }
  }

  /** The tallies of the first loop, counted over the open orders. */
  lemma {:induction false} TallyCounts(log: seq<LoggedOrder>, spot: Spot, orders: seq<OpenOrder>, n: nat)
    requires n <= |orders|
    ensures var t := TallyOpen(LocalOrders(log), spot, orders[..n]);
            && t.spot == ReplayOrders(spot, KeyedUpdates(orders[..n]))
            && (forall key :: key in t.keys <==> key != "" && OpenUnder(orders[..n], key))
            && t.recovered == CameThrough(log, spot, orders, n) && t.outOfOrder == WentBack(spot, orders, n)
    decreases n
  {
    hide ApplyOrderUpdate, UpdateOutcomeOf, LocalOrders, KeyOf, AsUpdate, CancelId, OpenUnder, Logged, KeyedUpdates,
         ReplayOrders;
    if n == 0 {
      NoOpenOrders(log, spot);
    } else {
      TallyCounts(log, spot, orders, n - 1);
      LocalIsLast(log);
      assert orders[..n][..n - 1] == orders[..n - 1] && orders[..n][n - 1] == orders[n - 1];
      UpdatesSnoc(spot, orders[..n]);
      OneMoreOpen(orders[..n]);
    }
  }

  lemma {:induction false} NoOpenOrders(log: seq<LoggedOrder>, spot: Spot)
    ensures KeyedUpdates([]) == [] && ReplayOrders(spot, []) == spot && forall key :: !OpenUnder([], key)
  {
  }

  lemma {:induction false} UpdatesSnoc(spot: Spot, orders: seq<OpenOrder>)
    requires orders != []
    ensures var n := |orders| - 1;
            ReplayOrders(spot, KeyedUpdates(orders))
            == if KeyOf(orders[n]) == "" then ReplayOrders(spot, KeyedUpdates(orders[..n]))
               else ApplyOrderUpdate(ReplayOrders(spot, KeyedUpdates(orders[..n])), AsUpdate(orders[n]))
  {
    hide ApplyOrderUpdate, KeyOf, AsUpdate;
    var n := |orders| - 1;
    var earlier := KeyedUpdates(orders[..n]);
    if KeyOf(orders[n]) == "" {
      assert KeyedUpdates(orders) == earlier;
    } else {
      assert (earlier + [AsUpdate(orders[n])])[..|earlier|] == earlier;
    }
  }

  lemma {:induction false} OneMoreOpen(orders: seq<OpenOrder>)
    requires orders != []
    ensures forall key :: OpenUnder(orders, key)
                          <==> OpenUnder(orders[..|orders| - 1], key) || key == KeyOf(orders[|orders| - 1])
  {
    hide KeyOf;
    assert orders == orders[..|orders| - 1] + [orders[|orders| - 1]];
  }

  /** Main result: the counts of a decision, from the log, the open orders and what the service answered: lost orders plus
      known ones whose update came through, updates that went back, and fill ids logged more than once. */
  lemma {:induction false} DecisionCounts(r: Restart, spot: Spot)
    ensures var d, orders := DecisionOf(r, spot), if r.openOrders.Some? then r.openOrders.value else [];
            && d.recoveredOrders == |LostKeys(r.orderLog, orders)| + CameThrough(r.orderLog, spot, orders, |orders|)
            && d.outOfOrderRepairs == WentBack(spot, orders, |orders|)
            && d.orphanOrders == |OrphanKeys(LocalOrders(r.orderLog), orders)|
            && d.duplicateRepairs == |r.fillIds| - |set i | 0 <= i < |r.fillIds| :: r.fillIds[i]|
  {
    hide LocalOrders, TallyOpen, LostOrders, LostKeys, CameThrough, WentBack, OpenUnder, OrphanKeys;
    TallyCounts(r.orderLog, spot, OpenOrdersOf(r), |OpenOrdersOf(r)|);
    assert OpenOrdersOf(r)[..|OpenOrdersOf(r)|] == OpenOrdersOf(r);
    LostAre(r.orderLog, OpenOrdersOf(r), TallyOf(r, spot).keys, r.filledOrders);
    OrphansAreCancelled(LocalOrders(r.orderLog), spot, OpenOrdersOf(r));
    FewerIds(r.fillIds);
    assert ToSet(r.fillIds) == set i | 0 <= i < |r.fillIds| :: r.fillIds[i];
  }

  ghost predicate NoneTwice(ids: seq<string>) {
    forall i, j :: 0 <= i < j < |ids| ==> ids[i] != ids[j]
  }

  lemma {:induction false} FewerIds(ids: seq<string>)
    ensures |ToSet(ids)| <= |ids|
    ensures |ToSet(ids)| == |ids| <==> NoneTwice(ids)
    decreases |ids|
  {
    if ids != [] {
      var n := |ids| - 1;
      FewerIds(ids[..n]);
      assert ToSet(ids) == ToSet(ids[..n]) + {ids[n]} by { assert ids == ids[..n] + [ids[n]]; }
      if NoneTwice(ids) {
        assert NoneTwice(ids[..n]);
        assert ids[n] !in ids[..n];
      } else if ids[n] !in ids[..n] {
        var i, j :| 0 <= i < j < |ids| && ids[i] == ids[j];
        assert j < n;
        assert ids[..n][i] == ids[..n][j];
      }
    }
  }

  /** There are orders about: in the log or at the exchange. */
  ghost predicate OrdersAbout(r: Restart) {
    || (exists i :: 0 <= i < |r.orderLog| && r.orderLog[i].key != "")
    || (r.openOrders.Some? && exists o :: o in r.openOrders.value && KeyOf(o) != "")
  }

  /** Nothing was lost, moved, out of order or logged twice. */
  ghost predicate NothingRepaired(r: Restart, spot: Spot) {
    && LostKeys(r.orderLog, OpenOrdersOf(r)) == {} && NoneTwice(r.fillIds)
    && (forall i :: 0 <= i < |OpenOrdersOf(r)| ==> !Came(r.orderLog, spot, OpenOrdersOf(r), i))
    && (forall i :: 0 <= i < |OpenOrdersOf(r)| ==> !Back(spot, OpenOrdersOf(r), i))
  }

  ghost predicate NoOrphan(r: Restart) {
    r.openOrders.Some? ==> forall o :: o in r.openOrders.value && KeyOf(o) != "" ==> Logged(r.orderLog, KeyOf(o))
  }

  lemma {:induction false} AboutIffCollected(r: Restart, spot: Spot)
    ensures TallyOf(r, spot).keys != {} || LocalOrders(r.orderLog) != map[] <==> OrdersAbout(r)
    ensures TallyOf(r, spot).orphans == 0 <==> NoOrphan(r)
  {
    hide LocalOrders, TallyOpen, CameThrough, WentBack, NoOrphan, OpenUnder, Orphan, Logged, OrdersAbout;
    TallyCounts(r.orderLog, spot, OpenOrdersOf(r), |OpenOrdersOf(r)|);
    assert OpenOrdersOf(r)[..|OpenOrdersOf(r)|] == OpenOrdersOf(r);
    OrphansCounted(LocalOrders(r.orderLog), spot, OpenOrdersOf(r));
    OrphanIff(r);
    LocalIsLast(r.orderLog);
    AboutIff(r, TallyOf(r, spot).keys, LocalOrders(r.orderLog));
  }

  lemma {:induction false} AboutIff(r: Restart, keys: set<string>, local: map<string, LoggedOrder>)
    requires forall key :: key in keys <==> key != "" && OpenUnder(OpenOrdersOf(r), key)
    requires forall key :: key in local <==> Logged(r.orderLog, key)
    ensures keys != {} || local != map[] <==> OrdersAbout(r)
  {
    hide KeyOf;
    if OrdersAbout(r) {
      if i :| 0 <= i < |r.orderLog| && r.orderLog[i].key != "" {
        assert r.orderLog[i].key in local;
      } else {
        var o :| o in OpenOrdersOf(r) && KeyOf(o) != "";
        assert KeyOf(o) in keys;
      }
    }
    if keys != {} {
      var key :| key in keys;
    } else if local != map[] {
      var key :| key in local;
    }
  }

  lemma {:induction false} NothingRepairedIff(r: Restart, spot: Spot)
    ensures var d := DecisionOf(r, spot);
            NothingRepaired(r, spot) <==> d.recoveredOrders == 0 && d.outOfOrderRepairs == 0 && d.duplicateRepairs == 0
  {
    hide DecisionOf, LostKeys, CameThrough, WentBack, NoneTwice, OrphanKeys, LocalOrders, Came, Back;
    DecisionCounts(r, spot);
    NoneCounted(r.orderLog, spot, OpenOrdersOf(r), |OpenOrdersOf(r)|);
    FewerIds(r.fillIds);
    assert ToSet(r.fillIds) == set i | 0 <= i < |r.fillIds| :: r.fillIds[i];
  }

  /** Main result: a start continues exactly when confidence suffices, every keyed open order is known, the operator's wish
      for safe mode meets no order, and nothing was lost, moved, out of order or logged twice. */
  lemma {:induction false} ContinueIff(r: Restart, spot: Spot)
    ensures DecisionOf(r, spot).action == ContinueBoot
       <==> && !r.insufficient && NoOrphan(r) && !(r.safeModeRequested && OrdersAbout(r)) && NothingRepaired(r, spot)
  {
    hide LocalOrders, TallyOpen, LostOrders, NothingRepaired, OrdersAbout, NoOrphan;
    NothingRepairedIff(r, spot);
    AboutIffCollected(r, spot);
    NoKeysNoRepairs(LocalOrders(r.orderLog), spot, OpenOrdersOf(r));
    NothingLost(r, spot);
  }

  lemma {:induction false} NothingLost(r: Restart, spot: Spot)
    ensures LocalOrders(r.orderLog) == map[] ==>
              LostOrders(LocalOrders(r.orderLog), TallyOf(r, spot).keys, r.filledOrders) == {}
    ensures r.fillIds == [] ==> ToSet(r.fillIds) == {}
  {
    hide LocalOrders, TallyOpen, NeedsRecovery;
  }

  /** And it degrades in exactly the remaining cases: no orphan, confidence enough, but an order about and safe mode wished
      for, or something repaired. */
  lemma {:induction false} DegradeIff(r: Restart, spot: Spot)
    ensures DecisionOf(r, spot).action == DegradeBoot
       <==> && !r.insufficient && NoOrphan(r)
            && ((r.safeModeRequested && OrdersAbout(r)) || !NothingRepaired(r, spot))
  {
    hide DecisionOf, NothingRepaired, OrdersAbout, Orphan, LocalOrders;
    ContinueIff(r, spot);
    RecoveryNeverHalts(r, spot);
    FlattenOnlyIff(r, spot);
    OrphanIff(r);
  }

  lemma {:induction false} OrphanIff(r: Restart)
    ensures (exists i :: 0 <= i < |OpenOrdersOf(r)| && Orphan(LocalOrders(r.orderLog), OpenOrdersOf(r)[i])) <==> !NoOrphan(r)
  {
    hide LocalOrders, KeyOf;
    LocalIsLast(r.orderLog);
    if !NoOrphan(r) {
      var o :| o in OpenOrdersOf(r) && KeyOf(o) != "" && !Logged(r.orderLog, KeyOf(o));
      var i :| 0 <= i < |OpenOrdersOf(r)| && OpenOrdersOf(r)[i] == o;
      assert Orphan(LocalOrders(r.orderLog), OpenOrdersOf(r)[i]);
    }
  }

  /** The outcome a start is reported under. */
  lemma {:induction false} OutcomeIff(r: Restart, spot: Spot)
    ensures var outcome := DecisionOf(r, spot).outcome;
            && (outcome == InsufficientConfidenceBoot <==> r.insufficient)
            && (outcome == SafeModeBoot <==> !r.insufficient && NoOrphan(r) && r.safeModeRequested && OrdersAbout(r))
            && (outcome == ColdRestart <==> !r.insufficient && !OrdersAbout(r) && r.fillIds == [])
  {
    hide LocalOrders, TallyOpen, LostOrders, OrdersAbout, NoOrphan;
    AboutIffCollected(r, spot);
    NoKeysNoRepairs(LocalOrders(r.orderLog), spot, OpenOrdersOf(r));
  }

  lemma {:induction false} NoKeysNoRepairs(local: map<string, LoggedOrder>, spot: Spot, orders: seq<OpenOrder>)
    ensures TallyOpen(local, spot, orders).keys == {} ==> TallyOpen(local, spot, orders) == Tally(spot, {}, 0, 0, 0, [])
    decreases |orders|
  {
    hide ApplyOrderUpdate, UpdateOutcomeOf;
    if orders != [] { NoKeysNoRepairs(local, spot, orders[..|orders| - 1]); }
  }

  /** The first of the fields that is present, else `otherwise`. */
  function FirstPresent(fields: seq<Option<string>>, otherwise: string): string {
    if fields == [] then otherwise
    else if fields[0].Some? then fields[0].value else FirstPresent(fields[1..], otherwise)
  }

  /** Where recovery, the service and the cancellation look for an order's id. */
  lemma {:induction false} IdsRead(o: OpenOrder)
    ensures KeyOf(o) == FirstPresent([o.clientOrderId, o.origClientOrderId, o.clOrdId], o.orderId)
    ensures AsUpdate(o).clientOrderId == FirstPresent([o.clientOrderId, o.cliOrdId, o.clOrdId], "")
    ensures AsUpdate(o).orderId == o.orderId && AsUpdate(o).status == o.status && AsUpdate(o).symbol == o.symbol
    ensures CancelId(o) == KeyOf(o)
  {
    FirstOfThree(o.clientOrderId, o.origClientOrderId, o.clOrdId, o.orderId);
    FirstOfThree(o.clientOrderId, o.cliOrdId, o.clOrdId, "");
    hide FirstPresent;
  }

  lemma {:induction false} FirstOfThree(a: Option<string>, b: Option<string>, c: Option<string>, otherwise: string)
    ensures FirstPresent([a, b, c], otherwise)
         == if a.Some? then a.value else if b.Some? then b.value else if c.Some? then c.value else otherwise
  {
    assert [a, b, c][1..] == [b, c] && [b, c][1..] == [c] && [c][1..] == [];
    assert FirstPresent([c], otherwise) == if c.Some? then c.value else otherwise;
    assert FirstPresent([b, c], otherwise) == if b.Some? then b.value else FirstPresent([c], otherwise);
  }

  // ----- After the start -----

  function UpdatesOf(orders: seq<OpenOrder>): seq<Action> {
    if orders == [] then []
    else
      var last := orders[|orders| - 1];
      UpdatesOf(orders[..|orders| - 1]) + if KeyOf(last) != "" then [ExchangeUpdate(AsUpdate(last))] else []
  }

  /** A start as actions of a run: the open orders are applied, then the decision is latched. */
  function BootActions(r: Restart, spot: Spot, text: string, at: real): seq<Action> {
    UpdatesOf(OpenOrdersOf(r))
    + match DecisionOf(r, spot).action
      case FlattenOnlyBoot => [Flatten(text)]
      case DegradeBoot => [SetSafeMode(true)]
      case ContinueBoot => []
      case HaltBoot => [Operator(text, at)]
  }

  lemma {:induction false} RunSnoc(settings: Settings, actions: seq<Action>, a: Action)
    ensures Run(settings, actions + [a]) == Do(settings, Run(settings, actions), a)
  {
    hide Do;
    assert (actions + [a])[..|actions|] == actions;
  }

  /** One open order more, as an action of the run. */
  lemma {:induction false} OneMoreOrder(
    settings: Settings, actions: seq<Action>, local: map<string, LoggedOrder>, t: Tally, last: OpenOrder)
    requires Run(settings, actions) == t.spot
    ensures Run(settings, actions + if KeyOf(last) != "" then [ExchangeUpdate(AsUpdate(last))] else [])
         == TallyOne(local, t, last).spot
  {
    hide Run, ApplyOrderUpdate, UpdateOutcomeOf, KeyOf, AsUpdate, CancelId;
    if KeyOf(last) != "" {
      RunSnoc(settings, actions, ExchangeUpdate(AsUpdate(last)));
    } else {
      assert actions + [] == actions;
    }
  }

  lemma {:induction false} UpdatesRun(
    settings: Settings, before: seq<Action>, local: map<string, LoggedOrder>, orders: seq<OpenOrder>)
    ensures Run(settings, before + UpdatesOf(orders)) == TallyOpen(local, Run(settings, before), orders).spot
    decreases |orders|
  {
    hide Run, KeyOf, AsUpdate, TallyOne;
    if orders == [] {
      assert before + [] == before;
    } else {
      var earlier, last := orders[..|orders| - 1], orders[|orders| - 1];
      var action := if KeyOf(last) != "" then [ExchangeUpdate(AsUpdate(last))] else [];
      UpdatesRun(settings, before, local, earlier);
      OneMoreOrder(settings, before + UpdatesOf(earlier), local, TallyOpen(local, Run(settings, before), earlier), last);
      assert before + UpdatesOf(orders) == before + UpdatesOf(earlier) + action;
    }
  }

  /** The start and its actions agree. */
  lemma {:induction false} BootIsARun(settings: Settings, before: seq<Action>, r: Restart, text: string, at: real)
    ensures var spot := Run(settings, before);
            Run(settings, before + BootActions(r, spot, text, at))
            == Latched(TallyOf(r, spot).spot, DecisionOf(r, spot).action, text, at)
  {
    hide Run, DecisionOf, TallyOpen, LocalOrders, UpdatesOf;
    var spot, updates := Run(settings, before), UpdatesOf(OpenOrdersOf(r));
    UpdatesRun(settings, before, LocalOrders(r.orderLog), OpenOrdersOf(r));
    match DecisionOf(r, spot).action
    case FlattenOnlyBoot =>
      assert before + BootActions(r, spot, text, at) == before + updates + [Flatten(text)];
      RunSnoc(settings, before + updates, Flatten(text));
    case DegradeBoot =>
      assert before + BootActions(r, spot, text, at) == before + updates + [SetSafeMode(true)];
      RunSnoc(settings, before + updates, SetSafeMode(true));
    case ContinueBoot =>
      assert before + BootActions(r, spot, text, at) == before + updates;
    case HaltBoot =>
      assert before + BootActions(r, spot, text, at) == before + updates + [Operator(text, at)];
      RunSnoc(settings, before + updates, Operator(text, at));
  }

  lemma {:induction false} TallyPlacesNothing(local: map<string, LoggedOrder>, spot: Spot, orders: seq<OpenOrder>)
    ensures TallyOpen(local, spot, orders).spot.trace == spot.trace
    decreases |orders|
  {
    hide ApplyOrderUpdate, UpdateOutcomeOf;
    if orders != [] {
      TallyPlacesNothing(local, spot, orders[..|orders| - 1]);
      UpdateKeepsSending(TallyOpen(local, spot, orders[..|orders| - 1]).spot, AsUpdate(orders[|orders| - 1]));
    }
  }

  lemma {:induction false} TallyKillsNothing(local: map<string, LoggedOrder>, spot: Spot, orders: seq<OpenOrder>)
    ensures TallyOpen(local, spot, orders).spot.killed == spot.killed
    decreases |orders|
  {
    hide ApplyOrderUpdate, UpdateOutcomeOf;
    if orders != [] {
      TallyKillsNothing(local, spot, orders[..|orders| - 1]);
      UpdateKeepsSending(TallyOpen(local, spot, orders[..|orders| - 1]).spot, AsUpdate(orders[|orders| - 1]));
    }
  }

  /** A start never sets the kill latch: the branch that would halt is dead after recovery. */
  lemma {:induction false} BootNeverKills(settings: Settings, before: seq<Action>, r: Restart, text: string, at: real)
    ensures Run(settings, before + BootActions(r, Run(settings, before), text, at)).killed == Run(settings, before).killed
  {
    hide Run, DecisionOf, TallyOpen, LocalOrders, BootActions;
    var spot := Run(settings, before);
    BootIsARun(settings, before, r, text, at);
    RecoveryNeverHalts(r, spot);
    TallyKillsNothing(LocalOrders(r.orderLog), spot, OpenOrdersOf(r));
  }

  /** Main result: after a start that found an orphan, whatever happens next, only reduce-only orders are sent. */
  lemma {:induction false} OrphanBootSendsOnlyReduceOnly(
    settings: Settings, before: seq<Action>, r: Restart, text: string, at: real, after: seq<Action>,
    orphan: nat, i: nat)
    requires orphan < |OpenOrdersOf(r)| && Orphan(LocalOrders(r.orderLog), OpenOrdersOf(r)[orphan])
    requires var t := Run(settings, before + BootActions(r, Run(settings, before), text, at) + after);
             |Run(settings, before).trace| <= i < |t.trace| && t.trace[i].Placed?
    ensures Run(settings, before + BootActions(r, Run(settings, before), text, at) + after).trace[i].reduceOnly
  {
    hide Run, DecisionOf, TallyOpen, LocalOrders, UpdatesOf, BootActions, Orphan;
    var spot := Run(settings, before);
    var boot := before + BootActions(r, spot, text, at);
    FlattenOnlyIff(r, spot);
    BootIsARun(settings, before, r, text, at);
    TallyPlacesNothing(LocalOrders(r.orderLog), spot, OpenOrdersOf(r));
    assert (boot + after)[..|boot|] == boot;
    LatchesHold(settings, boot + after, |boot|);
  }
}
