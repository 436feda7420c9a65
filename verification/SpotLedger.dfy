/** Booking of fills by the spot service: which fills a filled order hands out, and that over whole runs each is handed
    out once. */
module SpotLedger {
  import opened FifoLedger
  import opened OrderLifecycle
  import opened SpotService
  import opened SpotSafety
  import opened SpotRuns
  import PnL = ProfitAndLoss

  // ----- One filled order -----

  predicate Bookable(f: FillReport) {
    f.id != "" && f.notional > 0.0
  }

  /** Booking a list adds exactly its bookable ids, and hands out exactly those that were new. */
  lemma {:induction false} BookFillsIff(s: Spot, fills: seq<FillReport>, id: string)
    ensures var t := BookFills(s, fills);
            && (id in t.fillIds <==> id in s.fillIds || exists f :: f in fills && Bookable(f) && f.id == id)
            && |s.booked| <= |t.booked|
            && ((exists i :: |s.booked| <= i < |t.booked| && t.booked[i].id == id)
                <==> id !in s.fillIds && id in t.fillIds)
    decreases |fills|
  {
    if fills != [] {
      var n := |fills| - 1;
      var m, last := BookFills(s, fills[..n]), fills[n];
      BookFillsIff(s, fills[..n], id);
      BookFillsIff(s, fills[..n], last.id);
      assert fills == fills[..n] + [last];
      var t := BookFills(s, fills);
      assert t == BookFill(m, last);
      hide BookFills, CountFill;
      if FillOutcomeOf(m, last) == FillApplied {
        assert t.booked == m.booked + [last];
        if i :| |s.booked| <= i < |m.booked| && m.booked[i].id == id { assert t.booked[i].id == id; }
        if last.id == id { assert t.booked[|m.booked|].id == id; }
      }
    }
  }

  /** A row of the trade history that belongs to the order: on the intent's side and, where the reply names an exchange
      order, under that order. */
  predicate BelongsTo(row: Row, intent: Intent, order: Order) {
    && row.qty > 0.0 && row.side != OtherSide && row.side == SideOf(intent.side)
    && (order.orderId != "" ==> row.orderId == order.orderId)
    && row.tradeId != "" && Abs(row.quoteCost) > 0.0
  }

  lemma {:induction false} ReportsAre(records: seq<FillRecord>)
    ensures |ReportsOf(records)| == |records|
    ensures forall i :: 0 <= i < |records| ==>
              ReportsOf(records)[i] == FillReport(records[i].fillId, records[i].notional, records[i].orderId)
    decreases |records|
  {
    if records != [] { ReportsAre(records[..|records| - 1]); }
  }

  lemma {:induction false} ReportedIff(intent: Intent, order: Order, rows: seq<Row>, id: string)
    ensures (exists f :: f in ReportsOf(FillHistory(LedgerFilter(intent, order), rows).0) && Bookable(f) && f.id == id)
       <==> Replay(rows).Ledger? && exists row :: row in rows && BelongsTo(row, intent, order) && row.tradeId == id
  {
    hide FillHistory, Replay, PnL.SelectedRows, ReportsOf, SideOf;
    var filter := LedgerFilter(intent, order);
    var records := FillHistory(filter, rows).0;
    var reports, selected := ReportsOf(records), if Replay(rows).Ledger? then PnL.SelectedRows(filter, rows) else [];
    PnL.HistoryIsTheSelectedRows(filter, rows);
    ReportsAre(records);
    if f :| f in reports && Bookable(f) && f.id == id {
      var i :| 0 <= i < |reports| && reports[i] == f;
      PnL.SelectedIff(filter, rows, selected[i]);
      assert BelongsTo(selected[i], intent, order) && selected[i].tradeId == id;
    }
    if Replay(rows).Ledger? {
      if row :| row in rows && BelongsTo(row, intent, order) && row.tradeId == id {
        PnL.SelectedIff(filter, rows, row);
        var i :| 0 <= i < |selected| && selected[i] == row;
        assert Bookable(reports[i]) && reports[i].id == id && reports[i] in reports;
      }
    }
  }

  /** Main result: a filled order books exactly the fills of an accepted trade history that belong to it and are not known
      yet. If the reply names no exchange order, that is every unknown fill of the intent's side. */
  lemma {:induction false} OrderBooksItsFills(s: Spot, intent: Intent, order: Order, rows: seq<Row>, id: string)
    requires IsFilled(order.status)
    ensures var t := BookOrder(s, intent, order, History(rows)).state;
            && |s.booked| <= |t.booked|
            && ((exists i :: |s.booked| <= i < |t.booked| && t.booked[i].id == id)
                <==> && id !in s.fillIds && Replay(rows).Ledger?
                     && exists row :: row in rows && BelongsTo(row, intent, order) && row.tradeId == id)
  {
    hide FillHistory, Replay, ReportsOf, BelongsTo, Bookable, BookFills;
    BookFillsIff(s, ReportsOf(FillHistory(LedgerFilter(intent, order), rows).0), id);
    ReportedIff(intent, order, rows, id);
  }

  /** Sides are read without regard to case, and nothing else is a side. */
  lemma {:induction false} SidesReadIff(text: string)
    ensures SideOf(text) == Buy
       <==> |text| == 3 && text[0] in {'b', 'B'} && text[1] in {'u', 'U'} && text[2] in {'y', 'Y'}
    ensures Lower(text) == "buy" <==> SideOf(text) == Buy
    ensures SideOf(text) == Sell
       <==> |text| == 4 && text[0] in {'s', 'S'} && text[1] in {'e', 'E'} && text[2] in {'l', 'L'} && text[3] in {'l', 'L'}
    ensures Lower(text) == "sell" <==> SideOf(text) == Sell
  {
    LowerAt(text);
    assert Lower(text) == "buy" <==> |Lower(text)| == 3 && Lower(text)[0] == 'b' && Lower(text)[1] == 'u' && Lower(text)[2] == 'y';
    assert Lower(text) == "sell" <==>
             |Lower(text)| == 4 && Lower(text)[0] == 's' && Lower(text)[1] == 'e' && Lower(text)[2] == 'l' && Lower(text)[3] == 'l';
    hide Lower;
  }

  lemma {:induction false} LowerAt(text: string)
    ensures |Lower(text)| == |text|
    ensures forall i :: 0 <= i < |text| ==> Lower(text)[i] == LowerChar(text[i])
  {
    if text != "" { LowerAt(text[1..]); }
  }

  /** A fill report counts once: for its id, if that is new and its notional positive, and for the record its order key leads
      to. No state, status or latch moves. */
  lemma {:induction false} FillIsTold(s: Spot, f: FillReport)
    ensures var t, applied := ApplyFillUpdate(s, f), f.id != "" && f.id !in s.fillIds && f.notional > 0.0;
            && t.fillIds == (if applied then s.fillIds + {f.id} else s.fillIds)
            && t.(fillIds := s.fillIds, mirror := s.mirror) == s
            && CountedOnce(s.mirror, t.mirror, if applied && f.orderKey != "" then Some(f.orderKey) else None)
  {
    hide CountFill, CountedOnce;
    OneCounted(s.mirror, f.orderKey);
    NoneCounted(s.mirror);
  }

  /** The fill count of the record this id leads to, if any, has gone up by one, and nothing else has changed. */
  ghost predicate CountedOnce(m: Mirror, n: Mirror, id: Option<string>) {
    && n.records.Keys == m.records.Keys && n.aliases == m.aliases && n.pending == m.pending
    && forall key :: key in m.records ==>
         n.records[key]
         == m.records[key].(fillCount := m.records[key].fillCount + if id.Some? && Resolve(m, id.value) == key then 1 else 0)
  }

  lemma {:induction false} OneCounted(m: Mirror, id: string)
    ensures CountedOnce(m, CountFill(m, id), Some(id))
  {
  }

  lemma {:induction false} NoneCounted(m: Mirror)
    ensures CountedOnce(m, m, None)
  {
  }

  // ----- What a rehydration counts -----

  /** Accepted entries of a log. */
  function AcceptedIn(log: seq<Transition>): nat {
    if log == [] then 0 else AcceptedIn(log[..|log| - 1]) + if log[|log| - 1].accepted then 1 else 0
  }

  lemma {:induction false} UpdateCounts(s: Spot, o: Order)
    ensures AcceptedIn(ApplyOrderUpdate(s, o).mirror.pending)
         == AcceptedIn(s.mirror.pending) + if UpdateOutcomeOf(s, o) == Updated then 1 else 0
  {
    hide Remember, Resolve, Legal;
    var pending, m := s.mirror.pending, ApplyOrderUpdate(s, o).mirror;
    if m.pending != pending {
      assert m.pending[..|m.pending| - 1] == pending;
    }
  }

  /** The orders a rehydration counts are the accepted entries of the log it leaves, and the fills it counts the different
      ids of the bookable fills it was given. */
  lemma {:induction false} RehydrationCounts(s: Spot, orders: seq<Order>, fills: seq<FillReport>)
    ensures var t := RehydrateState(s, orders, fills);
            && CountUpdated(Cleared(s), orders) == AcceptedIn(t.mirror.pending)
            && t.fillIds == set f | f in fills && Bookable(f) :: f.id
  {
    hide ReplayOrders, ReplayFills, Bookable, CountUpdated;
    OrdersCounted(Cleared(s), orders);
    ReplayOrdersKeepsFills(Cleared(s), orders);
    FillsReplayed(ReplayOrders(Cleared(s), orders), fills);
  }

  lemma {:induction false} OrdersCounted(s: Spot, orders: seq<Order>)
    ensures AcceptedIn(ReplayOrders(s, orders).mirror.pending) == AcceptedIn(s.mirror.pending) + CountUpdated(s, orders)
    decreases |orders|
  {
    hide ApplyOrderUpdate, UpdateOutcomeOf, AcceptedIn;
    if orders != [] {
      var n := |orders| - 1;
      OrdersCounted(s, orders[..n]);
      UpdateCounts(ReplayOrders(s, orders[..n]), orders[n]);
    }
  }

  lemma {:induction false} FillsReplayed(s: Spot, fills: seq<FillReport>)
    ensures var t := ReplayFills(s, fills);
            && t.fillIds == s.fillIds + (set f | f in fills && Bookable(f) :: f.id) && t.mirror.pending == s.mirror.pending
    decreases |fills|
  {
    hide CountFill;
    if fills != [] {
      var n := |fills| - 1;
      var m, last := ReplayFills(s, fills[..n]), fills[n];
      FillsReplayed(s, fills[..n]);
      assert fills == fills[..n] + [last];
      assert (set f | f in fills && Bookable(f) :: f.id)
          == (set f | f in fills[..n] && Bookable(f) :: f.id) + if Bookable(last) then {last.id} else {};
      assert ApplyFillUpdate(m, last).mirror.pending == m.mirror.pending by { FillLogsNothing(m, last); }
    }
  }

  lemma {:induction false} FillLogsNothing(s: Spot, f: FillReport)
    ensures ApplyFillUpdate(s, f).mirror.pending == s.mirror.pending
  {
  }

  // ----- Whole runs -----

  lemma {:induction false} StepKeepsLedger(settings: Settings, s: Spot, a: Action)
    requires !a.Rehydrate?
    ensures LedgerKept(s, Do(settings, s, a))
  {
    hide ExecuteIntent, ApplyOrderUpdate, Tracks, OnlyOrdersOf, BookedOnce;
    match a
    case Intend(c) => ExecuteEffect(settings, s, c);
    case ExchangeUpdate(o) => UpdateKeepsSending(s, o);
    case _ =>
  }

  lemma {:induction false} RehydrationStartsALedger(s: Spot, orders: seq<Order>, fills: seq<FillReport>)
    ensures RehydrateState(s, orders, fills).booked == []
    ensures forall f :: f in fills && Bookable(f) ==> f.id in RehydrateState(s, orders, fills).fillIds
  {
    hide ApplyOrderUpdate, ApplyFillUpdate, ReplayFills, ReplayOrders, Bookable;
    OrdersBookNothing(Cleared(s), orders);
    FillsBecomeKnown(ReplayOrders(Cleared(s), orders), fills);
  }

  lemma {:induction false} OrdersBookNothing(s: Spot, orders: seq<Order>)
    ensures ReplayOrders(s, orders).booked == s.booked
    decreases |orders|
  {
    hide ApplyOrderUpdate;
    if orders != [] {
      OrdersBookNothing(s, orders[..|orders| - 1]);
      UpdateKeepsSending(ReplayOrders(s, orders[..|orders| - 1]), orders[|orders| - 1]);
    }
  }

  lemma {:induction false} FillsBecomeKnown(s: Spot, fills: seq<FillReport>)
    ensures ReplayFills(s, fills).booked == s.booked
    ensures forall f :: f in fills && Bookable(f) ==> f.id in ReplayFills(s, fills).fillIds
    decreases |fills|
  {
    hide CountFill;
    if fills != [] {
      var n := |fills| - 1;
      FillsBecomeKnown(s, fills[..n]);
      assert fills == fills[..n] + [fills[n]];
      forall f | f in fills && Bookable(f) ensures f.id in ReplayFills(s, fills).fillIds {
        if f in fills[..n] { assert f.id in ReplayFills(s, fills[..n]).fillIds; }
      }
    }
  }

  lemma {:induction false} RunBooksOnce(settings: Settings, actions: seq<Action>)
    ensures BookedOnce(Run(settings, actions).fillIds, Run(settings, actions).booked, {})
    decreases |actions|
  {
    hide Do, RehydrateState;
    if actions != [] {
      var n := |actions| - 1;
      var s, a := Run(settings, actions[..n]), actions[n];
      RunBooksOnce(settings, actions[..n]);
      if a.Rehydrate? {
        RehydrationStartsALedger(s, a.orders, a.fills);
        assert Run(settings, actions) == RehydrateState(s, a.orders, a.fills) by { DoRehydrate(settings, s, a); }
      } else {
        StepKeepsLedger(settings, s, a);
      }
    }
  }

  lemma {:induction false} DoRehydrate(settings: Settings, s: Spot, a: Action)
    requires a.Rehydrate?
    ensures Do(settings, s, a) == RehydrateState(s, a.orders, a.fills)
  {
    hide RehydrateState;
  }

  /** Main result: over all calls of a run, between rehydrations, no fill id is handed out for booking twice. */
  lemma {:induction false} FillsBookedAtMostOnce(settings: Settings, actions: seq<Action>, i: nat, j: nat)
    requires i < j < |Run(settings, actions).booked|
    ensures Run(settings, actions).booked[i].id != Run(settings, actions).booked[j].id
  {
    hide Run;
    RunBooksOnce(settings, actions);
  }

  lemma {:induction false} BookedSince(settings: Settings, actions: seq<Action>, k: nat, base: set<string>)
    requires k <= |actions| && forall m :: k <= m < |actions| ==> !actions[m].Rehydrate?
    requires BookedOnce(Run(settings, actions[..k]).fillIds, Run(settings, actions[..k]).booked, base)
    ensures BookedOnce(Run(settings, actions).fillIds, Run(settings, actions).booked, base)
    decreases |actions|
  {
    hide Do, BookedOnce;
    if k == |actions| {
      assert actions[..k] == actions;
    } else {
      var n := |actions| - 1;
      assert actions[..n][..k] == actions[..k];
      BookedSince(settings, actions[..n], k, base);
      StepKeepsLedger(settings, Run(settings, actions[..n]), actions[n]);
    }
  }

  /** Main result: a fill the service was rehydrated with is not handed out again before the next rehydration. */
  lemma {:induction false} RehydratedFillsNotBooked(
    settings: Settings, actions: seq<Action>, k: nat, f: FillReport, i: nat)
    requires k < |actions| && actions[k].Rehydrate? && f in actions[k].fills && Bookable(f)
    requires forall m :: k < m < |actions| ==> !actions[m].Rehydrate?
    requires i < |Run(settings, actions).booked|
    ensures Run(settings, actions).booked[i].id != f.id
  {
    hide Do, RehydrateState, Bookable;
    var s, a := Run(settings, actions[..k]), actions[k];
    assert actions[..k + 1][..k] == actions[..k];
    DoRehydrate(settings, s, a);
    RehydrationStartsALedger(s, a.orders, a.fills);
    var t := Run(settings, actions[..k + 1]);
    assert BookedOnce(t.fillIds, t.booked, t.fillIds);
    hide Run;
    BookedSince(settings, actions, k + 1, t.fillIds);
  }
}
