/** What the event log of the mirror is worth: it replays to the records, and on every run each order
    moves along the table only. */
module LifecycleHistory {
  import opened FifoLedger
  import opened OrderLifecycle

  // ----- Runs -----

  datatype Command =
    | Do(event: Event)
    | Update(order: Order)
    | Fill(key: string)
    | Drain
    | Reset

  /** The mirror together with everything drained from it since the last reset. */
  datatype Session = Session(mirror: Mirror, drained: seq<Transition>)

  function Exec(s: Session, c: Command): Session {
    match c
    case Do(e) => s.(mirror := Apply(s.mirror, e))
    case Update(o) => s.(mirror := ApplyOrder(s.mirror, o))
    case Fill(k) => s.(mirror := CountFill(s.mirror, k))
    case Drain => Session(s.mirror.(pending := []), s.drained + s.mirror.pending)
    case Reset => Session(EMPTY, [])
  }

  function Run(commands: seq<Command>): Session {
    if commands == [] then Session(EMPTY, [])
    else Exec(Run(commands[..|commands| - 1]), commands[|commands| - 1])
  }

  function Log(s: Session): seq<Transition> {
    s.drained + s.mirror.pending
  }

  // ----- The log replays to the records -----

  /** Target of the last accepted transition of a key. */
  function LastState(log: seq<Transition>, key: string): Option<State> {
    if log == [] then None
    else
      var t := log[|log| - 1];
      if t.accepted && t.orderKey == key then Some(t.to) else LastState(log[..|log| - 1], key)
  }

  /** Accepted transitions chain: each starts where its key's previous one ended, the first from nothing,
      and none leaves the table. */
  ghost predicate Chained(log: seq<Transition>) {
    forall i :: 0 <= i < |log| && log[i].accepted ==>
      && log[i].from == LastState(log[..i], log[i].orderKey)
      && (log[i].from.Some? ==> Legal(log[i].from.value, log[i].to))
  }

  ghost predicate Faithful(s: Session) {
    && Chained(Log(s))
    && forall k :: StateOf(s.mirror, k) == LastState(Log(s), k)
  }

  lemma {:induction false} ChainedSnoc(log: seq<Transition>, t: Transition)
    requires Chained(log)
    requires t.accepted ==> t.from == LastState(log, t.orderKey) && (t.from.Some? ==> Legal(t.from.value, t.to))
    ensures Chained(log + [t])
    ensures forall k :: LastState(log + [t], k)
                     == if t.accepted && t.orderKey == k then Some(t.to) else LastState(log, k)
  {
    var longer := log + [t];
    assert longer[..|log|] == log;
    forall i | 0 <= i < |longer| && longer[i].accepted
      ensures longer[i].from == LastState(longer[..i], longer[i].orderKey)
           && (longer[i].from.Some? ==> Legal(longer[i].from.value, longer[i].to))
    {
      if i < |log| {
        assert longer[..i] == log[..i] && longer[i] == log[i];
      }
    }
  }

  lemma {:induction false} LoggedSnoc(s: Session, t: Transition, m: Mirror)
    requires m.pending == s.mirror.pending + [t]
    ensures Log(s.(mirror := m)) == Log(s) + [t]
  {
  }

  lemma {:induction false} ApplyIsFaithful(s: Session, e: Event)
    requires Faithful(s)
    ensures Faithful(s.(mirror := Apply(s.mirror, e)))
  {
    var t := Logged(s.mirror, e);
    LoggedSnoc(s, t, Apply(s.mirror, e));
    ChainedSnoc(Log(s), t);
  }

  lemma {:induction false} ExecIsFaithful(s: Session, c: Command)
    requires Faithful(s)
    ensures Faithful(Exec(s, c))
  {
    match c
    case Do(e) => ApplyIsFaithful(s, e);
    case Update(o) =>
      if IsReplace(o.status) && !o.replaceSupported {
        var m := ApplyOrder(s.mirror, o);
        var t := m.pending[|m.pending| - 1];
        LoggedSnoc(s, t, m);
        ChainedSnoc(Log(s), t);
      } else {
        ApplyIsFaithful(s, ExchangeEvent(o));
      }
    case Fill(k) =>
      assert Log(Exec(s, c)) == Log(s);
    case Drain =>
      assert Log(Exec(s, c)) == Log(s);
    case Reset =>
  }

  /** Between resets, everything drained followed by what is pending is one legal chain per key, and its
      last accepted target is the state held for that key (no accepted entry, no record). */
  lemma {:induction false} EventSourcing(commands: seq<Command>)
    ensures Faithful(Run(commands))
    decreases |commands|
  {
    if commands != [] {
      EventSourcing(commands[..|commands| - 1]);
      ExecIsFaithful(Run(commands[..|commands| - 1]), commands[|commands| - 1]);
    }
  }

  /** A refused or duplicate event, of the service's own or from the exchange, is logged and changes nothing else; and an
      event that leaves the states alone was refused. */
  lemma {:induction false} RefusedEventsChangeNothing(m: Mirror, c: Command)
    requires c.Do? || c.Update?
    ensures var n, outcome := Exec(Session(m, []), c).mirror,
                              if c.Do? then OutcomeOf(m, c.event) else OrderOutcome(m, c.order);
            && |n.pending| == |m.pending| + 1 && m.pending <= n.pending
            && n.pending[|m.pending|].accepted == (outcome == Done)
            && (outcome != Done ==> n.records == m.records && n.aliases == m.aliases)
            && (outcome == Done <==> exists k :: StateOf(n, k) != StateOf(m, k))
  {
    hide Remember;
    if c.Do? {
      AcceptedEventsMove(m, c.event);
    } else if !IsReplace(c.order.status) || c.order.replaceSupported {
      AcceptedEventsMove(m, ExchangeEvent(c.order));
    }
  }

  lemma {:induction false} AcceptedEventsMove(m: Mirror, e: Event)
    ensures OutcomeOf(m, e) == Done ==>
              var key := Resolve(m, e.orderKey);
              StateOf(Apply(m, e), key) == Some(e.to) && StateOf(m, key) != Some(e.to)
    ensures OutcomeOf(m, e) != Done ==> Apply(m, e).records == m.records
  {
    hide Remember, Allowed;
  }

  // ----- Which moves are accepted -----

  /** By target: the states from which an event to `to` is accepted. */
  function Sources(to: State): set<State> {
    match to
    case Submitted => {}
    case Accepted => {Submitted}
    case Working => {Submitted, Accepted, ReplaceRejected, CancelRejected}
    case PartiallyFilled =>
      {Submitted, Accepted, Working, ReplacePending, ReplaceRejected, CancelPending, CancelRejected}
    case Filled =>
      {Submitted, Accepted, Working, PartiallyFilled, ReplacePending, ReplaceRejected, CancelPending, CancelRejected,
       TimedOut}
    case CancelPending =>
      {Accepted, Working, PartiallyFilled, ReplaceRejected, CancelRejected, TimedOut, Orphaned}
    case Cancelled =>
      {Submitted, Accepted, Working, PartiallyFilled, ReplacePending, CancelPending, TimedOut, Orphaned}
    case CancelRejected => {CancelPending}
    case ReplacePending => {Accepted, Working, PartiallyFilled}
    case Replaced => {Accepted, Working, PartiallyFilled, ReplacePending}
    case ReplaceRejected => {ReplacePending}
    case Expired => {Submitted, Accepted, Working, PartiallyFilled, ReplacePending, ReplaceRejected}
    case Rejected => {Submitted, Accepted}
    case TimedOut => {Submitted, Accepted, Working, PartiallyFilled}
    case Stuck => {Working, TimedOut, Orphaned}
    case Orphaned => {Submitted}
    case Recovered =>
      {Submitted, Accepted, Working, PartiallyFilled, Filled, CancelPending, Cancelled, CancelRejected, ReplacePending,
       Replaced, ReplaceRejected, Expired, Rejected, TimedOut, Stuck, Orphaned, Unknown}
    case Unknown => {}
  }

  /** Main result: the first event of an order is always accepted; after that an event is a duplicate if the record is where
      it leads, accepted exactly from the sources of its target, and out of order otherwise. */
  lemma {:induction false} AcceptedBySource(m: Mirror, e: Event)
    ensures var prior := StateOf(m, Resolve(m, e.orderKey));
            && (OutcomeOf(m, e) == Done <==> prior.None? || prior.value in Sources(e.to))
            && (OutcomeOf(m, e) == DuplicateEvent <==> prior == Some(e.to))
            && OutcomeOf(m, e) in {Done, DuplicateEvent, OutOfOrderEvent}
  {
    var prior := StateOf(m, Resolve(m, e.orderKey));
    if prior.Some? { LegalBySource(prior.value, e.to); }
    hide Legal, Sources;
  }

  const EARLY: set<State> := {Submitted, Accepted, Working, PartiallyFilled}

  lemma {:induction false} EarlyBySource(from: State, to: State)
    requires from in EARLY
    ensures from != to ==> (Legal(from, to) <==> from in Sources(to))
  {
  }

  lemma {:induction false} LateBySource(from: State, to: State)
    requires from !in EARLY
    ensures from != to ==> (Legal(from, to) <==> from in Sources(to))
  {
  }

  lemma {:induction false} NoLoops(state: State)
    ensures state !in Sources(state)
  {
  }

  lemma {:induction false} LegalBySource(from: State, to: State)
    ensures from != to ==> (Legal(from, to) <==> from in Sources(to))
    ensures from !in Sources(from)
  {
    NoLoops(from);
    hide Legal, Sources;
    if from in EARLY { EarlyBySource(from, to); } else { LateBySource(from, to); }
  }

  /** What an exchange status does to a record of the spot service: a fill fills every record that is not at an end, and so
      on for each status; a record at an end stays. */
  function Landed(from: State, status: Wire): State {
    if from in {Filled, Cancelled, Rejected, Expired} then from
    else if status in {FILLED, EXECUTED} then Filled
    else if status == PARTIALLY_FILLED then (if from == TimedOut then TimedOut else PartiallyFilled)
    else if status in {CANCELED, CANCELLED} then (if from == CancelRejected then CancelRejected else Cancelled)
    else if status == REJECTED then (if from in {Submitted, Accepted} then Rejected else from)
    else if status == EXPIRED then (if from in {Submitted, Accepted, Working, PartiallyFilled} then Expired else from)
    else if status in {NEW, ACK, ACKNOWLEDGED} then (if from == Submitted then Accepted else from)
    else if from in {Submitted, Accepted, CancelRejected} then Working
    else from
  }

  /** Main result: where an update leaves the record it reaches, for every status but the replace ones and every state the
      spot service gets to; a replace status, which the service never lets through, leaves it where it was. */
  lemma {:induction false} UpdateLands(m: Mirror, o: Order)
    requires var from := StateOf(m, Resolve(m, OrderKey(o))); from.Some? && from.value in SPOT_STATES
    ensures var key := Resolve(m, OrderKey(o));
            var replace := o.status in {PENDING_REPLACE, REPLACE_PENDING, AMEND_PENDING, REPLACED, AMENDED,
                                        REPLACE_REJECTED, AMEND_REJECTED};
            StateOf(ApplyOrder(m, o.(replaceSupported := false)), key)
            == Some(if replace then m.records[key].state else Landed(m.records[key].state, o.status))
  {
    var from := m.records[Resolve(m, OrderKey(o))].state;
    if !IsReplace(o.status) { LandedIsMoved(from, o.status); }
    hide Legal, Landed, StateFor, Remember;
  }

  lemma {:induction false} LandedIsMoved(from: State, status: Wire)
    requires from in SPOT_STATES && !IsReplace(status)
    ensures Landed(from, status)
         == if from != StateFor(status) && Legal(from, StateFor(status)) then StateFor(status) else from
  {
    LegalBySource(from, StateFor(status));
    hide Legal;
    if from in EARLY { EarlyLands(from, status); }
  }

  lemma {:induction false} EarlyLands(from: State, status: Wire)
    requires from in EARLY && !IsReplace(status)
    ensures Landed(from, status)
         == if from != StateFor(status) && from in Sources(StateFor(status)) then StateFor(status) else from
  {
  }

  /** What an accepted event leaves in the record: the state and confidence it tells, each id it names, the old ids where it
      names none, and the fills counted so far. */
  lemma {:induction false} AcceptedEventRecords(m: Mirror, e: Event)
    requires OutcomeOf(m, e) == Done
    ensures var key, n := Resolve(m, e.orderKey), Apply(m, e);
            && key in n.records && n.records.Keys == m.records.Keys + {key}
            && (forall k :: k in m.records && k != key ==> n.records[k] == m.records[k])
            && var r := n.records[key];
               && r.state == e.to && r.confidence == e.confidence
               && (e.orderId != "" ==> r.orderId == e.orderId)
               && (e.clientOrderId != "" ==> r.clientOrderId == e.clientOrderId)
               && (key !in m.records ==>
                     && r.orderKey == key && r.symbol == e.symbol && r.fillCount == 0
                     && r.orderId == e.orderId && r.clientOrderId == e.clientOrderId)
               && (key in m.records ==>
                     && r.orderKey == m.records[key].orderKey && r.symbol == m.records[key].symbol
                     && r.fillCount == m.records[key].fillCount
                     && (e.orderId == "" ==> r.orderId == m.records[key].orderId)
                     && (e.clientOrderId == "" ==> r.clientOrderId == m.records[key].clientOrderId))
               && (r.orderId != "" && r.orderId != r.clientOrderId ==> Resolve(n, r.orderId) == r.orderKey)
               && (r.clientOrderId != "" ==> Resolve(n, r.clientOrderId) == r.orderKey)
               && (forall id :: id != "" && id != r.orderId && id != r.clientOrderId ==> Resolve(n, id) == Resolve(m, id))
  {
  }

  /** What any event leaves in the log: one entry under the record's key, from the state the record had to the one the event
      leads to, with its source; its own reason if it was accepted, and marked as what it was if not. */
  lemma {:induction false} EveryEventIsLogged(m: Mirror, e: Event)
    ensures var n, key, outcome := Apply(m, e), Resolve(m, e.orderKey), OutcomeOf(m, e);
            && |n.pending| == |m.pending| + 1 && n.pending[..|m.pending|] == m.pending
            && var t := n.pending[|m.pending|];
               && t.symbol == e.symbol && t.orderKey == key && t.from == StateOf(m, key) && t.to == e.to
               && t.source == e.source
               && (t.accepted <==> outcome == Done) && (t.duplicate <==> outcome == DuplicateEvent)
               && (t.outOfOrder <==> outcome == OutOfOrderEvent)
               && (t.accepted ==> t.reason == e.reason)
               && (t.duplicate ==> t.reason == DuplicateLifecycleEvent)
               && (t.outOfOrder ==> t.reason == OutOfOrderLifecycleEvent)
  {
    hide Remember, Allowed;
  }

  /** What a replace status leaves in the log, sent to a mirror that follows replaces and to one that does not. */
  lemma {:induction false} ReplacesAreLogged(m: Mirror, o: Order)
    requires o.status in {PENDING_REPLACE, REPLACE_PENDING, AMEND_PENDING, REPLACED, AMENDED, REPLACE_REJECTED, AMEND_REJECTED}
    ensures var n, key := ApplyOrder(m, o), if o.clientOrderId != "" then o.clientOrderId else o.orderId;
            && |n.pending| == |m.pending| + 1 && n.pending[..|m.pending|] == m.pending
            && var t := n.pending[|m.pending|];
               && t.symbol == o.symbol && t.from == StateOf(m, Resolve(m, key)) && t.source == ExchangeOrderUpdate
               && (o.replaceSupported ==>
                     && t.orderKey == Resolve(m, key)
                     && t.to == (if o.status in {REPLACED, AMENDED} then Replaced
                                 else if o.status in {REPLACE_REJECTED, AMEND_REJECTED} then ReplaceRejected
                                 else ReplacePending))
               && (!o.replaceSupported ==>
                     && t.orderKey == key && t.to == Unknown && t.reason == UnsupportedReplace
                     && !t.accepted && !t.duplicate && !t.outOfOrder
                     && n.records == m.records && n.aliases == m.aliases && OrderOutcome(m, o) == ReplaceUnsupported)
  {
    hide Remember, Allowed, OutcomeOf, Updated, Legal, Resolve, StateOf;
  }

  // ----- Fills counted -----

  /** Fills told of a record since the last reset: those named by an id that led to it when they came. */
  function FillsTold(commands: seq<Command>, key: string): nat {
    if commands == [] then 0
    else
      var before, c := commands[..|commands| - 1], commands[|commands| - 1];
      match c
      case Reset => 0
      case Fill(id) =>
        var m := Run(before).mirror;
        FillsTold(before, key) + if Resolve(m, id) == key && StateOf(m, key).Some? then 1 else 0
      case _ => FillsTold(before, key)
  }

  /** On every run a record's count is the number of fills told of it; moves and updates neither lose nor invent one. */
  lemma {:induction false} FillsAreCounted(commands: seq<Command>, key: string)
    ensures var records := Run(commands).mirror.records;
            FillsTold(commands, key) == if key in records then records[key].fillCount else 0
  {
    hide OutcomeOf;
    if commands != [] {
      var before, c := commands[..|commands| - 1], commands[|commands| - 1];
      FillsAreCounted(before, key);
      var m := Run(before).mirror;
      match c
      case Do(e) => CountKept(m, e, key);
      case Update(o) => if !(IsReplace(o.status) && !o.replaceSupported) { CountKept(m, ExchangeEvent(o), key); }
      case _ =>
    }
  }

  lemma {:induction false} CountKept(m: Mirror, e: Event, key: string)
    ensures var records := Apply(m, e).records;
            (if key in records then records[key].fillCount else 0)
            == if key in m.records then m.records[key].fillCount else 0
  {
    hide OutcomeOf;
  }

  // ----- Consequences for every chained log -----

  function Entered(log: seq<Transition>, key: string, state: State): nat {
    if log == [] then 0
    else
      var t := log[|log| - 1];
      Entered(log[..|log| - 1], key, state) + if t.accepted && t.orderKey == key && t.to == state then 1 else 0
  }

  lemma {:induction false} ChainedPrefix(log: seq<Transition>, k: nat)
    requires Chained(log) && k <= |log|
    ensures Chained(log[..k])
  {
    forall i | 0 <= i < k && log[..k][i].accepted
      ensures log[..k][i].from == LastState(log[..k][..i], log[..k][i].orderKey)
           && (log[..k][i].from.Some? ==> Legal(log[..k][i].from.value, log[..k][i].to))
    {
      assert log[..k][..i] == log[..i] && log[..k][i] == log[i];
    }
  }

  /** SUBMITTED and ACCEPTED are entered at most once per key, SUBMITTED only as the first state. */
  lemma {:induction false} EnteredOnce(log: seq<Transition>, key: string)
    requires Chained(log)
    ensures Entered(log, key, Submitted) <= 1 && Entered(log, key, Accepted) <= 1
    ensures LastState(log, key) == None ==> Entered(log, key, Submitted) == 0
    ensures LastState(log, key) in {None, Some(Submitted)} ==> Entered(log, key, Accepted) == 0
    decreases |log|
  {
    if log != [] {
      ChainedPrefix(log, |log| - 1);
      EnteredOnce(log[..|log| - 1], key);
      var t, before := log[|log| - 1], LastState(log[..|log| - 1], key);
      if t.accepted && t.orderKey == key {
        assert before == t.from && (before.Some? ==> Legal(before.value, t.to));
        hide Chained, Legal;
        EntryStates(before, t.to);
      }
    }
  }

  /** Nothing leads to SUBMITTED, and to ACCEPTED only SUBMITTED. */
  lemma {:induction false} EntryStates(from: Option<State>, to: State)
    requires from.Some? ==> Legal(from.value, to)
    ensures to == Submitted ==> from == None
    ensures to == Accepted ==> from in {None, Some(Submitted)}
  {
  }

  const FINAL: set<State> := {Filled, Cancelled, Rejected, Expired}

  lemma {:induction false} FinalExits(from: State, to: State)
    requires Legal(from, to)
    ensures from in FINAL ==> to == Recovered
    ensures from != Recovered
  {
  }

  /** From a terminal state only RECOVERED can follow, and RECOVERED is never left. */
  lemma {:induction false} TerminalThenRecovered(log: seq<Transition>, i: nat)
    requires Chained(log) && i < |log| && log[i].accepted
    ensures log[i].to in FINAL ==> LastState(log, log[i].orderKey) in {Some(log[i].to), Some(Recovered)}
    ensures log[i].to == Recovered ==> LastState(log, log[i].orderKey) == Some(Recovered)
    decreases |log|
  {
    var n := |log| - 1;
    if i < n {
      ChainedPrefix(log, n);
      assert log[..n][i] == log[i];
      TerminalThenRecovered(log[..n], i);
      var t := log[n];
      if t.accepted && t.orderKey == log[i].orderKey && t.from.Some? {
        assert Legal(t.from.value, t.to);
        hide Legal, Chained;
        FinalExits(t.from.value, t.to);
      }
    }
  }

  ghost predicate AcceptedPair(log: seq<Transition>, key: string, i: int, j: int) {
    0 <= i < j < |log| && log[i].accepted && log[j].accepted && log[i].orderKey == key && log[j].orderKey == key
  }

  lemma {:induction false} RunWideSafety(commands: seq<Command>, key: string)
    ensures var log := Log(Run(commands));
            && Entered(log, key, Submitted) <= 1 && Entered(log, key, Accepted) <= 1
            && (forall i, j :: AcceptedPair(log, key, i, j) ==>
                  (log[i].to in FINAL ==> log[j].to == Recovered) && log[i].to != Recovered)
  {
    hide LastState, Entered, Run, Log;
    var log := Log(Run(commands));
    EventSourcing(commands);
    EnteredOnce(log, key);
    forall i, j | AcceptedPair(log, key, i, j)
      ensures (log[i].to in FINAL ==> log[j].to == Recovered) && log[i].to != Recovered
    {
      ChainedPrefix(log, j);
      assert log[..j][i] == log[i];
      TerminalThenRecovered(log[..j], i);
    }
  }

  // ----- Driven by the spot service -----

  /** The commands the spot service issues: its own local events, and updates stripped of replace support. */
  predicate SpotCommand(c: Command) {
    match c
    case Do(e) => e.to in {Submitted, CancelPending, CancelRejected, TimedOut, Rejected}
    case Update(o) => !o.replaceSupported
    case _ => true
  }

  const SPOT_STATES: set<State> :=
    {Submitted, Accepted, Working, PartiallyFilled, Filled, CancelPending, Cancelled, CancelRejected, Expired,
     Rejected, TimedOut}

  ghost predicate WithinSpotStates(m: Mirror) {
    forall k :: k in m.records ==> m.records[k].state in SPOT_STATES
  }

  lemma {:induction false} SpotExec(s: Session, c: Command)
    requires SpotCommand(c) && WithinSpotStates(s.mirror)
    ensures WithinSpotStates(Exec(s, c).mirror)
    ensures forall k, state :: state in FINAL && StateOf(s.mirror, k) == Some(state) && c != Reset ==>
              StateOf(Exec(s, c).mirror, k) == Some(state)
  {
    match c
    case Do(e) => SpotApply(s.mirror, e);
    case Update(o) =>
      if !IsReplace(o.status) { SpotApply(s.mirror, ExchangeEvent(o)); }
    case _ =>
  }

  lemma {:induction false} SpotApply(m: Mirror, e: Event)
    requires e.to in SPOT_STATES && WithinSpotStates(m)
    ensures WithinSpotStates(Apply(m, e))
    ensures forall k, state :: state in FINAL && StateOf(m, k) == Some(state) ==> StateOf(Apply(m, e), k) == Some(state)
  {
  }

  /** Driven only through the spot service, the replace, orphaned, stuck, recovered and unknown states are
      unreachable, and so a terminal state is never left before a reset. */
  lemma {:induction false} SpotTerminalAbsorbing(commands: seq<Command>, more: seq<Command>, key: string)
    requires forall i :: 0 <= i < |commands + more| ==> SpotCommand((commands + more)[i])
    requires forall i :: 0 <= i < |more| ==> more[i] != Reset
    ensures WithinSpotStates(Run(commands + more).mirror)
    ensures StateOf(Run(commands).mirror, key).Some? && StateOf(Run(commands).mirror, key).value in FINAL ==>
              StateOf(Run(commands + more).mirror, key) == StateOf(Run(commands).mirror, key)
    decreases |commands| + |more|
  {
    hide Exec, StateOf;
    var all := commands + more;
    if all != [] {
      var before := all[..|all| - 1];
      assert forall i :: 0 <= i < |before| ==> before[i] == all[i];
      if more == [] {
        assert all == commands;
        assert before + [] == before;
        SpotTerminalAbsorbing(before, [], key);
      } else {
        assert before == commands + more[..|more| - 1];
        SpotTerminalAbsorbing(commands, more[..|more| - 1], key);
      }
      SpotExec(Run(before), all[|all| - 1]);
      if more != [] {
        assert all[|all| - 1] == more[|more| - 1];
      }
    }
  }
}
