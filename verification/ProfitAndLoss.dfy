/** What the profit figures derived from the replay add up to: windows telescope, realised plus
    unrealised profit is cash flow plus holdings, and quantities drift by counted dust only. */
module ProfitAndLoss {
  import opened FifoLedger
  import opened FifoRefinement

  // ----- Windows -----

  ghost predicate SortedByTime(rows: seq<Row>) {
    forall i, j :: 0 <= i <= j < |rows| ==> rows[i].ts <= rows[j].ts
  }

  /** Number of leading rows before the window. */
  function WindowStart(rows: seq<Row>, sinceMs: int): (k: nat)
    ensures k <= |rows|
  {
    if rows == [] || rows[0].ts >= sinceMs then 0 else 1 + WindowStart(rows[1..], sinceMs)
  }

  lemma {:induction false} WindowSplits(rows: seq<Row>, sinceMs: int)
    requires SortedByTime(rows)
    ensures forall i :: 0 <= i < |rows| ==> (rows[i].ts < sinceMs <==> i < WindowStart(rows, sinceMs))
    decreases rows
  {
    if rows != [] && rows[0].ts < sinceMs {
      WindowSplits(rows[1..], sinceMs);
    }
  }

  /** The second replay agrees with the first step by step and never takes its gap branch. */
  lemma {:induction false} SecondReplayAgrees(filter: Filter, rows: seq<Row>)
    requires Replay(rows).Ledger?
    ensures !ScanHistory(filter, rows).stopped
    ensures ScanHistory(filter, rows).lots == Replay(rows).lots
    decreases |rows|
  {
    if rows != [] {
      PrefixAccepted(rows, |rows| - 1);
      SecondReplayAgrees(filter, rows[..|rows| - 1]);
    }
  }

  /** The traded rows a filter selects. */
  function SelectedRows(filter: Filter, rows: seq<Row>): seq<Row> {
    if rows == [] then []
    else
      var last := rows[|rows| - 1];
      SelectedRows(filter, rows[..|rows| - 1])
      + if last.qty > 0.0 && last.side != OtherSide && Selects(filter, last) then [last] else []
  }

  ghost predicate RecordsOf(records: seq<FillRecord>, rows: seq<Row>) {
    && |records| == |rows|
    && forall i :: 0 <= i < |rows| ==>
         && records[i].fillId == rows[i].tradeId && records[i].orderId == rows[i].orderId && records[i].side == rows[i].side
         && records[i].notional == Abs(rows[i].quoteCost) && records[i].fee == Abs(rows[i].fee)
         && records[i].ts == rows[i].ts && (records[i].realizedAuthoritative <==> rows[i].side == Sell)
         && (rows[i].side != Sell ==> records[i].realizedPnl == 0.0)
  }

  /** The fill history of an accepted trade history is, in order, one record per selected row; a refused one has none. The
      gap text says which, or that nothing was selected. */
  lemma {:induction false} HistoryIsTheSelectedRows(filter: Filter, rows: seq<Row>)
    ensures RecordsOf(FillHistory(filter, rows).0, if Replay(rows).Ledger? then SelectedRows(filter, rows) else [])
    ensures FillHistory(filter, rows).1
         == if !Replay(rows).Ledger? then [SellExceedsBuysGap]
            else if SelectedRows(filter, rows) == [] then [HistoryEmpty] else []
  {
    if Replay(rows).Ledger? {
      SecondReplayAgrees(filter, rows);
      ScanSelects(filter, rows);
    }
  }

  lemma {:induction false} ScanSelects(filter: Filter, rows: seq<Row>)
    requires Replay(rows).Ledger?
    ensures RecordsOf(ScanHistory(filter, rows).records, SelectedRows(filter, rows))
    decreases |rows|
  {
    hide TakeFifo, UnitCost;
    if rows != [] {
      var n := |rows| - 1;
      PrefixAccepted(rows, n);
      ScanSelects(filter, rows[..n]);
      SecondReplayAgrees(filter, rows[..n]);
      SecondReplayAgrees(filter, rows);
    }
  }

  lemma {:induction false} SelectedIff(filter: Filter, rows: seq<Row>, row: Row)
    ensures row in SelectedRows(filter, rows)
       <==> row in rows && row.qty > 0.0 && row.side != OtherSide && Selects(filter, row)
    decreases |rows|
  {
    hide Selects;
    if rows != [] {
      var n := |rows| - 1;
      SelectedIff(filter, rows[..n], row);
      assert rows == rows[..n] + [rows[n]];
    }
  }

  /** Realised profit the first replay books for the sells from row `k` on. */
  function BookedFrom(rows: seq<Row>, k: nat): real
    requires k <= |rows| && Replay(rows).Ledger? && Replay(rows[..k]).Ledger?
  {
    Replay(rows).realized - Replay(rows[..k]).realized
  }

  predicate InWindow(filter: Filter, row: Row) {
    filter.sinceMs.Some? ==> row.ts >= filter.sinceMs.value
  }

  /** The rows of `rows` from index `k` on are exactly those the filter's window admits. */
  ghost predicate WindowFrom(filter: Filter, rows: seq<Row>, k: nat) {
    && filter.side == Sell && filter.orderId == None
    && forall i :: 0 <= i < |rows| ==> (InWindow(filter, rows[i]) <==> i >= k)
  }

  lemma {:induction false} SumAppend(records: seq<FillRecord>, record: FillRecord)
    ensures SumRealized(records + [record]) == SumRealized(records) + record.realizedPnl
  {
    assert (records + [record])[..|records|] == records;
  }

  ghost predicate SellFrom(rows: seq<Row>, k: nat) {
    exists i :: k <= i < |rows| && rows[i].side == Sell && rows[i].qty > 0.0
  }

  /** One more row of the window: both replays book the same. */
  lemma {:induction false} BothBookTheRow(filter: Filter, rows: seq<Row>)
    requires rows != [] && Replay(rows).Ledger?
    requires Selects(filter, rows[|rows| - 1]) <==> rows[|rows| - 1].side == Sell
    ensures var before := rows[..|rows| - 1];
            && Replay(before).Ledger?
            && SumRealized(ScanHistory(filter, rows).records) - SumRealized(ScanHistory(filter, before).records)
               == Replay(rows).realized - Replay(before).realized
  {
    hide TakeFifo, UnitCost, Selects, SumRealized;
    var n := |rows| - 1;
    var before, row := rows[..n], rows[n];
    PrefixAccepted(rows, n);
    SecondReplayAgrees(filter, before);
    var scan := ScanHistory(filter, before);
    SumAppend(scan.records, RecordOf(row, TakeFifo(scan.lots, row.qty).basis));
  }

  lemma {:induction false} ScanSumsWindow(filter: Filter, rows: seq<Row>, k: nat)
    requires Replay(rows).Ledger? && k <= |rows| && WindowFrom(filter, rows, k)
    ensures Replay(rows[..k]).Ledger?
    ensures SumRealized(ScanHistory(filter, rows).records) == BookedFrom(rows, k)
    decreases |rows|
  {
    PrefixAccepted(rows, k);
    if k == |rows| {
      assert rows[..k] == rows;
      NothingBefore(filter, rows, k);
    } else {
      hide TakeFifo, UnitCost, WindowFrom, Replay, ScanHistory, SumRealized, Selects;
      var n := |rows| - 1;
      PrefixAccepted(rows, n);
      assert rows[..n][..k] == rows[..k];
      LastInWindow(filter, rows, k);
      ScanSumsWindow(filter, rows[..n], k);
      BothBookTheRow(filter, rows);
    }
  }

  lemma {:induction false} LastInWindow(filter: Filter, rows: seq<Row>, k: nat)
    requires k < |rows| && WindowFrom(filter, rows, k)
    ensures WindowFrom(filter, rows[..|rows| - 1], k)
    ensures Selects(filter, rows[|rows| - 1]) <==> rows[|rows| - 1].side == Sell
  {
  }

  lemma {:induction false} ScanFindsSells(filter: Filter, rows: seq<Row>, k: nat)
    requires Replay(rows).Ledger? && k <= |rows| && WindowFrom(filter, rows, k)
    ensures ScanHistory(filter, rows).records != [] <==> SellFrom(rows, k)
    decreases |rows|
  {
    if k == |rows| {
      NothingBefore(filter, rows, k);
    } else {
      hide TakeFifo, UnitCost, WindowFrom;
      var n := |rows| - 1;
      PrefixAccepted(rows, n);
      LastInWindow(filter, rows, k);
      ScanFindsSells(filter, rows[..n], k);
      SecondReplayAgrees(filter, rows);
      if SellFrom(rows[..n], k) {
        var i :| k <= i < n && rows[..n][i].side == Sell && rows[..n][i].qty > 0.0;
        assert rows[i] == rows[..n][i];
      }
      if SellFrom(rows, k) {
        var i :| k <= i < |rows| && rows[i].side == Sell && rows[i].qty > 0.0;
        assert i < n ==> rows[..n][i] == rows[i];
      }
    }
  }

  lemma {:induction false} NothingBefore(filter: Filter, rows: seq<Row>, k: nat)
    requires WindowFrom(filter, rows, k) && |rows| <= k
    ensures ScanHistory(filter, rows).records == []
    decreases |rows|
  {
    if rows != [] {
      NothingBefore(filter, rows[..|rows| - 1], k);
    }
  }

  /** The figure for a window is the whole history's realised total minus that of the part before the
      window; it is missing exactly when the history is refused or the window holds no sell. */
  lemma {:induction false} WindowTelescopes(rows: seq<Row>, sinceMs: Option<int>)
    requires SortedByTime(rows)
    ensures var k := if sinceMs.Some? then WindowStart(rows, sinceMs.value) else 0;
            && (AuthoritativeRealizedPnl(rows, sinceMs).Some?
                <==> Replay(rows).Ledger? && SellFrom(rows, k))
            && (AuthoritativeRealizedPnl(rows, sinceMs).Some? ==>
                  && Replay(rows[..k]).Ledger?
                  && AuthoritativeRealizedPnl(rows, sinceMs).value == BookedFrom(rows, k))
  {
    var filter := Filter(Sell, None, sinceMs);
    if Replay(rows).Ledger? {
      var k := if sinceMs.Some? then WindowStart(rows, sinceMs.value) else 0;
      if sinceMs.Some? {
        WindowSplits(rows, sinceMs.value);
      }
      SecondReplayAgrees(filter, rows);
      ScanSumsWindow(filter, rows, k);
      ScanFindsSells(filter, rows, k);
    }
  }

  /** When the books are trusted and what they then say: the history is accepted, the balance is known and differs from the
      lots by at most 1e-8, the smallest order or two percent of itself. */
  lemma {:induction false} TrustedIff(rows: seq<Row>, balance: Option<Balance>)
    ensures AuthoritativeInventory(rows, balance).Truth?
       <==> && Replay(rows).Ledger? && balance.Some?
            && var b, off := balance.value, balance.value.total - TotalQty(Replay(rows).lots);
               Within(off, 0.00000001) || Within(off, b.minOrderSize) || Within(off, 0.02 * b.total)
    ensures AuthoritativeInventory(rows, balance).Truth? ==>
              var books := AuthoritativeInventory(rows, balance);
              && books.lots == Replay(rows).lots && books.remainingQty == TotalQty(books.lots)
              && books.remainingBasis == TotalBasis(books.lots) && books.realizedTotal == Replay(rows).realized
              && books.total == balance.value.total && books.free == balance.value.free
    ensures AuthoritativeInventory(rows, balance).NoTruth? ==>
              AuthoritativeInventory(rows, balance).reason
              == if !Replay(rows).Ledger? then TradeHistorySellExceedsBuys
                 else if balance.None? then BalanceOrConstraintsError else BalanceHistoryMismatch
  {
    hide Replay, TotalQty, TotalBasis;
    if Replay(rows).Ledger? && balance.Some? {
      var b := balance.value;
      var off := b.total - TotalQty(Replay(rows).lots);
      assert Within(off, Max(Max(0.00000001, b.minOrderSize), b.total * 0.02)) <==>
             Within(off, 0.00000001) || Within(off, b.minOrderSize) || Within(off, 0.02 * b.total);
    }
  }

  predicate Within(x: real, width: real) {
    -width <= x <= width
  }

  /** The average cost is there exactly when something is held, and times the quantity it gives the basis. */
  lemma {:induction false} AverageTimesQuantity(rows: seq<Row>)
    requires Replay(rows).Ledger?
    ensures InventoryOf(Replay(rows)).Known?
    ensures var i, lots := InventoryOf(Replay(rows)), Replay(rows).lots;
            && i.lots == lots && i.remainingQty == TotalQty(lots) && i.remainingBasis == TotalBasis(lots)
            && i.realizedTotal == Replay(rows).realized
            && (i.avgCost.Some? <==> TotalQty(lots) > 0.000000000001)
            && (i.avgCost.Some? ==> i.avgCost.value * TotalQty(lots) == TotalBasis(lots))
  {
    hide Replay, TotalQty, TotalBasis;
  }

  /** Unrealised profit exists on trusted books unless something is held and the bid is not positive; an empty balance is
      worth nothing, any other its value at the bid less the basis of the lots. */
  lemma {:induction false} UnrealizedIff(rows: seq<Row>, balance: Option<Balance>, bid: real)
    ensures AuthoritativeUnrealizedPnl(rows, balance, bid).Some?
       <==> && AuthoritativeInventory(rows, balance).Truth?
            && (balance.value.total <= 0.000000000001 || bid > 0.0)
    ensures AuthoritativeUnrealizedPnl(rows, balance, bid).Some? ==>
              AuthoritativeUnrealizedPnl(rows, balance, bid).value
              == if balance.value.total <= 0.000000000001 then 0.0
                 else balance.value.total * bid - TotalBasis(Replay(rows).lots)
  {
    hide Replay, TotalQty, TotalBasis;
  }

  // ----- Quantity drift -----

  /** One sell loses at most DUST for every lot it drops, and every lot kept is positive. */
  lemma {:induction false} TakeConservesQty(lots: seq<Lot>, want: real)
    requires PositiveLots(lots) && want >= 0.0
    ensures var take := TakeFifo(lots, want);
            var lost := TotalQty(lots) - (want - take.unfilled) - TotalQty(take.lots);
            && PositiveLots(take.lots) && |take.lots| <= |lots| && 0.0 <= take.unfilled <= want
            && 0.0 <= lost <= (|lots| - |take.lots|) as real * 0.000000000001
    decreases lots
  {
    if want > DUST && lots != [] {
      var used := Min(want, lots[0].qty);
      if lots[0].qty - used <= DUST {
        TakeConservesQty(lots[1..], want - used);
      } else {
        assert ([Lot(lots[0].qty - used, lots[0].unitCost)] + lots[1..])[1..] == lots[1..];
      }
    }
  }

  function Count(rows: seq<Row>, side: Side): nat {
    if rows == [] then 0
    else
      var row := rows[|rows| - 1];
      Count(rows[..|rows| - 1], side) + if row.side == side && row.qty > 0.0 then 1 else 0
  }

  /** Held quantity against bought minus sold: below by dropped dust, above by the sell tolerance. */
  lemma {:induction false} QuantityDrift(rows: seq<Row>)
    requires Replay(rows).Ledger?
    ensures PositiveLots(Replay(rows).lots) && |Replay(rows).lots| <= Count(rows, Buy)
    ensures var drift := TotalQty(Replay(rows).lots) - (Traded(rows, Buy) - Traded(rows, Sell));
            -((Count(rows, Buy) - |Replay(rows).lots|) as real * 0.000000000001) <= drift <= Count(rows, Sell) as real * 0.000000001
    decreases |rows|
  {
    hide UnitCost, TakeFifo;
    if rows != [] {
      var before, row := rows[..|rows| - 1], rows[|rows| - 1];
      PrefixAccepted(rows, |rows| - 1);
      QuantityDrift(before);
      if row.qty > 0.0 && row.side == Buy {
        var lot := Lot(row.qty, UnitCost(row));
        TotalAppend(Replay(before).lots, [lot]);
        assert [lot][1..] == [];
      } else if row.qty > 0.0 && row.side == Sell {
        TakeConservesQty(Replay(before).lots, row.qty);
      }
    }
  }

  // ----- What the replay accepts -----

  /** A sell is covered exactly up to what is held plus the tolerance. */
  lemma {:induction false} CoveredIff(lots: seq<Lot>, want: real)
    requires PositiveLots(lots)
    ensures TakeFifo(lots, want).unfilled <= 0.000000001 <==> want <= TotalQty(lots) + 0.000000001
    decreases lots
  {
    TotalPositive(lots);
    if want > DUST && lots != [] {
      var used := Min(want, lots[0].qty);
      TotalPositive(lots[1..]);
      if lots[0].qty - used <= DUST {
        CoveredIff(lots[1..], want - used);
      }
    }
  }

  /** The sell at `k` asks for no more than is held before it, plus the tolerance. */
  ghost predicate SellFits(rows: seq<Row>, k: nat)
    requires k < |rows|
  {
    rows[k].side == Sell && rows[k].qty > 0.0 ==>
      Replay(rows[..k]).Ledger? && rows[k].qty <= TotalQty(Replay(rows[..k]).lots) + 0.000000001
  }

  /** Exactly which histories of real quantities the replay accepts. */
  lemma {:induction false} AcceptedIff(rows: seq<Row>)
    ensures Replay(rows).Ledger? <==> forall k :: 0 <= k < |rows| ==> SellFits(rows, k)
    decreases |rows|
  {
    hide UnitCost, TakeFifo, TotalQty;
    if rows != [] {
      var n := |rows| - 1;
      var before := rows[..n];
      AcceptedIff(before);
      forall k | 0 <= k < n ensures SellFits(rows, k) <==> SellFits(before, k) {
        assert before[..k] == rows[..k] && before[k] == rows[k];
      }
      if Replay(before).Ledger? {
        QuantityDrift(before);
        CoveredIff(Replay(before).lots, rows[n].qty);
      }
      if forall k :: 0 <= k < |rows| ==> SellFits(rows, k) {
        assert SellFits(rows, n);
      }
    }
  }

  /** In terms of the trades alone: a history that never oversells is accepted, up to a thousand buys, and an accepted
      one oversells at no point by more than the tolerance per sell. */
  lemma {:induction false} NeverOversoldIsAccepted(rows: seq<Row>)
    requires NeverOversold(rows) && Count(rows, Buy) <= 1000
    ensures Replay(rows).Ledger?
    decreases |rows|
  {
    hide UnitCost, TakeFifo, TotalQty, NeverOversold;
    if rows != [] {
      var n := |rows| - 1;
      var before, row := rows[..n], rows[n];
      NeverOversoldSnoc(rows);
      NeverOversoldIsAccepted(before);
      if row.side == Sell && row.qty > 0.0 {
        QuantityDrift(before);
        MulMonotone((Count(before, Buy) - |Replay(before).lots|) as real, 1000.0, DUST);
        CoveredIff(Replay(before).lots, row.qty);
      }
    }
  }

  lemma {:induction false} AcceptedOversellsWithinTolerance(rows: seq<Row>, k: nat)
    requires Replay(rows).Ledger? && k <= |rows|
    ensures Traded(rows[..k], Sell) <= Traded(rows[..k], Buy) + Count(rows[..k], Sell) as real * 0.000000001
  {
    PrefixAccepted(rows, k);
    QuantityDrift(rows[..k]);
    TotalPositive(Replay(rows[..k]).lots);
  }

  // ----- Cash flow -----

  /** Quote spent on buys, fees included. */
  function Spent(rows: seq<Row>): real {
    if rows == [] then 0.0
    else
      var row := rows[|rows| - 1];
      Spent(rows[..|rows| - 1]) + if row.side == Buy && row.qty > 0.0 then row.quoteCost + row.fee else 0.0
  }

  function UnitCosts(lots: seq<Lot>): real {
    if lots == [] then 0.0 else lots[0].unitCost + UnitCosts(lots[1..])
  }

  ghost predicate CostsNonnegative(lots: seq<Lot>) {
    forall i :: 0 <= i < |lots| ==> lots[i].unitCost >= 0.0
  }

  /** Buys are not free money and are larger than dust. */
  ghost predicate PricedBuys(rows: seq<Row>) {
    forall i :: 0 <= i < |rows| && rows[i].side == Buy && rows[i].qty > 0.0 ==>
      rows[i].qty >= 0.000000000001 && rows[i].quoteCost + rows[i].fee >= 0.0
  }

  /** Trusted books: the balance the exchange reports is what was bought minus what was sold, to within the stated
      tolerance and the counted dust. */
  lemma {:induction false} TruthMatchesTrades(rows: seq<Row>, balance: Option<Balance>)
    requires AuthoritativeInventory(rows, balance).Truth?
    ensures balance.Some? && Replay(rows).Ledger?
    ensures var b := balance.value;
            Abs(b.total - (Traded(rows, Buy) - Traded(rows, Sell)))
            <= Max(Max(0.00000001, b.minOrderSize), b.total * 0.02)
               + Count(rows, Buy) as real * 0.000000000001 + Count(rows, Sell) as real * 0.000000001
  {
    QuantityDrift(rows);
    var lots := |Replay(rows).lots|;
    MulMonotone(0.0, lots as real, DUST);
    hide Replay, Traded, Count;
  }

  lemma {:induction false} BasisAppend(lots: seq<Lot>, lot: Lot)
    ensures TotalBasis(lots + [lot]) == TotalBasis(lots) + lot.qty * lot.unitCost
    ensures UnitCosts(lots + [lot]) == UnitCosts(lots) + lot.unitCost
    decreases lots
  {
    if lots == [] {
      assert lots + [lot] == [lot] && [lot][1..] == [];
    } else {
      assert (lots + [lot])[1..] == lots[1..] + [lot];
      BasisAppend(lots[1..], lot);
    }
  }

  lemma {:induction false} UnitCostFacts(row: Row)
    requires row.qty >= 0.000000000001 && row.quoteCost + row.fee >= 0.0
    ensures UnitCost(row) >= 0.0 && row.qty * UnitCost(row) == row.quoteCost + row.fee
  {
  }

  lemma {:induction false} HeadSplit(qty: real, used: real, cost: real)
    ensures qty * cost == used * cost + (qty - used) * cost
  {
  }

  /** The part of a queue's basis a sell neither charges nor keeps. */
  function BasisLost(lots: seq<Lot>, want: real): real {
    TotalBasis(lots) - TakeFifo(lots, want).basis - TotalBasis(TakeFifo(lots, want).lots)
  }

  lemma {:induction false} BasisLostPopping(lots: seq<Lot>, want: real)
    requires lots != [] && want > DUST && lots[0].unitCost >= 0.0
    requires lots[0].qty - Min(want, lots[0].qty) <= DUST
    ensures var rest := want - Min(want, lots[0].qty);
            && TakeFifo(lots, want).lots == TakeFifo(lots[1..], rest).lots
            && BasisLost(lots, want) - BasisLost(lots[1..], rest)
               == (lots[0].qty - Min(want, lots[0].qty)) * lots[0].unitCost
  {
    var head, used := lots[0], Min(want, lots[0].qty);
    var take, rest := TakeFifo(lots, want), TakeFifo(lots[1..], want - used);
    assert take.basis == used * head.unitCost + rest.basis && take.lots == rest.lots;
    assert TotalBasis(lots) == head.qty * head.unitCost + TotalBasis(lots[1..]);
    HeadSplit(head.qty, used, head.unitCost);
  }

  lemma {:induction false} LossInHead(dust: real, cost: real) returns (loss: real)
    requires cost >= 0.0 && 0.0 <= dust <= DUST
    ensures loss == dust * cost && 0.0 <= loss <= DUST * cost
  {
    MulMonotone(0.0, dust, cost);
    MulMonotone(dust, DUST, cost);
    loss := dust * cost;
  }

  lemma {:induction false} PopLoss(lots: seq<Lot>, want: real) returns (loss: real)
    requires lots != [] && want > DUST && lots[0].unitCost >= 0.0
    requires lots[0].qty - Min(want, lots[0].qty) <= DUST
    ensures var rest := want - Min(want, lots[0].qty);
            && TakeFifo(lots, want).lots == TakeFifo(lots[1..], rest).lots
            && BasisLost(lots, want) == BasisLost(lots[1..], rest) + loss
    ensures 0.0 <= loss <= DUST * lots[0].unitCost
  {
    hide BasisLost, TakeFifo;
    BasisLostPopping(lots, want);
    loss := LossInHead(lots[0].qty - Min(want, lots[0].qty), lots[0].unitCost);
  }

  lemma {:induction false} BasisLostInHead(lots: seq<Lot>, want: real)
    requires lots != [] && want > DUST && lots[0].unitCost >= 0.0
    requires lots[0].qty - Min(want, lots[0].qty) > DUST
    ensures TakeFifo(lots, want).lots == [Lot(lots[0].qty - Min(want, lots[0].qty), lots[0].unitCost)] + lots[1..]
    ensures BasisLost(lots, want) == 0.0
    ensures UnitCosts(TakeFifo(lots, want).lots) == UnitCosts(lots)
  {
    HeadSplit(lots[0].qty, Min(want, lots[0].qty), lots[0].unitCost);
    var left := [Lot(lots[0].qty - Min(want, lots[0].qty), lots[0].unitCost)] + lots[1..];
    assert left[1..] == lots[1..];
  }

  /** Basis is conserved by a sell up to the cost of the dust dropped with each popped lot. */
  lemma {:induction false} TakeConservesBasis(lots: seq<Lot>, want: real)
    requires PositiveLots(lots) && CostsNonnegative(lots) && want >= 0.0
    ensures CostsNonnegative(TakeFifo(lots, want).lots)
    ensures 0.0 <= BasisLost(lots, want) <= DUST * (UnitCosts(lots) - UnitCosts(TakeFifo(lots, want).lots))
    decreases lots
  {
    if want <= DUST || lots == [] {
      assert TakeFifo(lots, want) == Take(0.0, want, lots);
    } else if lots[0].qty - Min(want, lots[0].qty) <= DUST {
      hide BasisLost, TakeFifo;
      var loss := PopLoss(lots, want);
      TakeConservesBasis(lots[1..], want - Min(want, lots[0].qty));
    } else {
      BasisLostInHead(lots, want);
      hide BasisLost, TakeFifo, UnitCosts;
    }
  }

  /** What realised profit exceeds cash flow plus basis held by. */
  function DustCost(rows: seq<Row>): real
    requires Replay(rows).Ledger?
  {
    Replay(rows).realized - (Proceeds(rows) - Spent(rows) + TotalBasis(Replay(rows).lots))
  }

  lemma {:induction false} DustAfterBuy(before: seq<Row>, row: Row)
    requires Replay(before).Ledger? && row.side == Buy && row.qty > 0.0 && UnitCost(row) >= 0.0
    requires row.qty * UnitCost(row) == row.quoteCost + row.fee
    ensures Replay(before + [row]).Ledger? && DustCost(before + [row]) == DustCost(before)
    ensures UnitCosts(Buys(before + [row])) - UnitCosts(Replay(before + [row]).lots)
         == UnitCosts(Buys(before)) - UnitCosts(Replay(before).lots)
  {
    hide UnitCost, TakeFifo, TotalBasis, UnitCosts;
    ReplaySnoc(before, row);
    assert (before + [row])[..|before|] == before;
    BasisAppend(Replay(before).lots, Lot(row.qty, UnitCost(row)));
    BasisAppend(Buys(before), Lot(row.qty, UnitCost(row)));
  }

  lemma {:induction false} DustAfterSell(before: seq<Row>, row: Row)
    requires Replay(before).Ledger? && row.side == Sell && row.qty > 0.0
    requires Replay(before + [row]).Ledger?
    ensures DustCost(before + [row]) == DustCost(before) + BasisLost(Replay(before).lots, row.qty)
    ensures Replay(before + [row]).lots == TakeFifo(Replay(before).lots, row.qty).lots
    ensures Buys(before + [row]) == Buys(before)
  {
    hide UnitCost, TakeFifo, TotalBasis;
    ReplaySnoc(before, row);
    assert (before + [row])[..|before|] == before;
  }

  lemma {:induction false} DustAfterOther(before: seq<Row>, row: Row)
    requires Replay(before).Ledger? && (row.side == OtherSide || row.qty <= 0.0)
    ensures Replay(before + [row]) == Replay(before) && Buys(before + [row]) == Buys(before)
    ensures DustCost(before + [row]) == DustCost(before)
  {
    hide TakeFifo, TotalBasis;
    ReplaySnoc(before, row);
    assert (before + [row])[..|before|] == before;
  }

  /** Realised profit is proceeds minus spending plus the basis still held, up to the cost of dust. */
  lemma {:induction false} RealizedIsCashFlow(rows: seq<Row>)
    requires Replay(rows).Ledger? && PricedBuys(rows)
    ensures CostsNonnegative(Replay(rows).lots)
    ensures 0.0 <= DustCost(rows) <= DUST * (UnitCosts(Buys(rows)) - UnitCosts(Replay(rows).lots))
    decreases |rows|
  {
    if rows != [] {
      hide TakeFifo, DustCost, UnitCosts, BasisLost, UnitCost;
      var before, row := rows[..|rows| - 1], rows[|rows| - 1];
      assert rows == before + [row];
      PrefixAccepted(rows, |rows| - 1);
      RealizedIsCashFlow(before);
      if row.side == OtherSide || row.qty <= 0.0 {
        DustAfterOther(before, row);
      } else if row.side == Buy {
        UnitCostFacts(row);
        DustAfterBuy(before, row);
      } else {
        QuantityDrift(before);
        TakeConservesBasis(Replay(before).lots, row.qty);
        DustAfterSell(before, row);
      }
    }
  }

  lemma {:induction false} UnitCostsNonnegative(lots: seq<Lot>)
    requires CostsNonnegative(lots)
    ensures UnitCosts(lots) >= 0.0
    decreases lots
  {
    if lots != [] { UnitCostsNonnegative(lots[1..]); }
  }

  /** Realised plus unrealised profit is net cash flow plus the balance at bid, plus a dust term
      between zero and DUST times the unit costs of all buys. */
  lemma {:induction false} TotalProfitIdentity(rows: seq<Row>, balance: Option<Balance>, bid: real)
    requires PricedBuys(rows)
    requires AuthoritativeInventory(rows, balance).Truth? && AuthoritativeInventory(rows, balance).total > 0.000000000001
    requires bid > 0.0
    ensures AuthoritativeUnrealizedPnl(rows, balance, bid).Some? && Replay(rows).Ledger?
    ensures var dust := Replay(rows).realized + AuthoritativeUnrealizedPnl(rows, balance, bid).value
                        - (Proceeds(rows) - Spent(rows) + balance.value.total * bid);
            0.0 <= dust <= 0.000000000001 * UnitCosts(Buys(rows))
  {
    hide Proceeds, Spent, TotalBasis, UnitCosts, Replay, UnitCost, TakeFifo, Buys, TotalQty;
    RealizedIsCashFlow(rows);
    UnitCostsNonnegative(Replay(rows).lots);
  }

  // ----- No dust on the lattice -----

  lemma {:induction false} CurveConserved(lots: seq<Lot>, x: real)
    requires LotsOnLattice(lots) && 0.0 <= x <= TotalQty(lots)
    ensures Cost(lots, x) + TotalBasis(DropUnits(lots, x)) == TotalBasis(lots)
    decreases lots
  {
    if lots != [] && x > 0.0 {
      if x >= lots[0].qty {
        CostPastHead(lots, x);
        CurveConserved(lots[1..], x - lots[0].qty);
      } else {
        var left := [Lot(lots[0].qty - x, lots[0].unitCost)] + lots[1..];
        assert left[1..] == lots[1..];
        assert Cost(lots, x) == x * lots[0].unitCost + Cost(lots[1..], 0.0);
        assert lots[0].qty * lots[0].unitCost
            == x * lots[0].unitCost + (lots[0].qty - x) * lots[0].unitCost;
      }
    }
  }

  lemma {:induction false} SpentIsBasis(rows: seq<Row>)
    requires PricedBuys(rows)
    ensures TotalBasis(Buys(rows)) == Spent(rows)
    decreases |rows|
  {
    hide UnitCost;
    if rows != [] {
      var before, row := rows[..|rows| - 1], rows[|rows| - 1];
      SpentIsBasis(before);
      if row.side == Buy && row.qty > 0.0 {
        UnitCostFacts(row);
        BasisAppend(Buys(before), Lot(row.qty, UnitCost(row)));
      } else {
        assert Buys(rows) == Buys(before);
      }
    }
  }

  lemma {:induction false} ExactCashFlow(rows: seq<Row>)
    requires Replay(rows).Ledger? && PricedBuys(rows) && Lattice(rows)
    ensures DustCost(rows) == 0.0
  {
    hide Proceeds, Spent, TotalBasis, Cost, DropUnits, Traded, UnitCost, TakeFifo, Replay, TotalQty;
    IdealHistory(rows);
    CurveConserved(Buys(rows), Traded(rows, Sell));
    SpentIsBasis(rows);
  }

  lemma {:induction false} IdealHistory(rows: seq<Row>)
    requires Replay(rows).Ledger? && Lattice(rows)
    ensures IsIdeal(rows) && LotsOnLattice(Buys(rows))
    ensures 0.0 <= Traded(rows, Sell) <= TotalQty(Buys(rows))
  {
    hide Cost, DropUnits, UnitCost, TakeFifo, Replay, Traded, TotalQty, Buys, OnLattice;
    ReplayIsIdealFifo(rows);
    HistoryFacts(rows);
    assert rows[..|rows|] == rows;
  }

  /** On the lattice nothing is lost: the identity is exact. */
  lemma {:induction false} TotalProfitIdentityExact(rows: seq<Row>, balance: Option<Balance>, bid: real)
    requires PricedBuys(rows) && Lattice(rows)
    requires AuthoritativeInventory(rows, balance).Truth? && AuthoritativeInventory(rows, balance).total > 0.000000000001
    requires bid > 0.0
    ensures AuthoritativeUnrealizedPnl(rows, balance, bid).Some? && Replay(rows).Ledger?
    ensures Replay(rows).realized + AuthoritativeUnrealizedPnl(rows, balance, bid).value
         == Proceeds(rows) - Spent(rows) + balance.value.total * bid
  {
    hide Proceeds, Spent, TotalBasis, Replay, UnitCost, TakeFifo, Buys, TotalQty, Traded;
    ExactCashFlow(rows);
  }
}
