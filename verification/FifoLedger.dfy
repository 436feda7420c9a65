/** The FIFO replay of the trade history: what a sell is charged, what stays in the queue,
    and the two further passes (the peek of the sell guard and the fill history) that must
    agree with it. Floats are modelled as reals; the two tolerances are kept as coded. */
module FifoLedger {

  /** A lot whose remaining quantity is at most DUST is dropped. */
  const DUST: real := 0.000000000001
  /** A sell may leave at most GAP unmatched. */
  const GAP: real := 0.000000001

  datatype Option<+T> = None | Some(value: T)

  datatype Side = Buy | Sell | OtherSide

  datatype Row = Row(
    tradeId: string, orderId: string, side: Side,
    qty: real, quoteCost: real, fee: real, ts: int)

  datatype Lot = Lot(qty: real, unitCost: real)

  /** The effect of one sell on the queue: its basis, what it could not match, what is left. */
  datatype Take = Take(basis: real, unfilled: real, lots: seq<Lot>)

  datatype Ledger = Ledger(lots: seq<Lot>, realized: real) | SellExceedsBuys

  function Min(x: real, y: real): real { if x <= y then x else y }
  function Max(x: real, y: real): real { if x >= y then x else y }
  function Abs(x: real): real { if x >= 0.0 then x else -x }

  function UnitCost(row: Row): real {
    (row.quoteCost + row.fee) / Max(row.qty, DUST)
  }

  function TotalQty(lots: seq<Lot>): real {
    if lots == [] then 0.0 else lots[0].qty + TotalQty(lots[1..])
  }

  function TotalBasis(lots: seq<Lot>): real {
    if lots == [] then 0.0 else lots[0].qty * lots[0].unitCost + TotalBasis(lots[1..])
  }

  ghost predicate PositiveLots(lots: seq<Lot>) {
    forall i :: 0 <= i < |lots| ==> lots[i].qty > 0.0
  }

  lemma {:induction false} MulMonotone(x: real, y: real, k: real)
    requires x <= y && k >= 0.0
    ensures x * k <= y * k
  {
  }

  // ----- Specification of the replay -----

  function TakeFifo(lots: seq<Lot>, want: real): Take
    decreases lots
  {
    if want <= DUST || lots == [] then
      Take(0.0, want, lots)
    else
      var head := lots[0];
      var used := Min(want, head.qty);
      if head.qty - used <= DUST then
        var rest := TakeFifo(lots[1..], want - used);
        Take(used * head.unitCost + rest.basis, rest.unfilled, rest.lots)
      else
        Take(used * head.unitCost, want - used, [Lot(head.qty - used, head.unitCost)] + lots[1..])
  }

  function Step(ledger: Ledger, row: Row): Ledger {
    if ledger.SellExceedsBuys? || row.qty <= 0.0 then
      ledger
    else match row.side
      case Buy => ledger.(lots := ledger.lots + [Lot(row.qty, UnitCost(row))])
      case OtherSide => ledger
      case Sell =>
        var take := TakeFifo(ledger.lots, row.qty);
        if take.unfilled > GAP then
          SellExceedsBuys
        else
          Ledger(take.lots, ledger.realized + (row.quoteCost - row.fee - take.basis))
  }

  function Replay(rows: seq<Row>): Ledger {
    if rows == [] then Ledger([], 0.0)
    else Step(Replay(rows[..|rows| - 1]), rows[|rows| - 1])
  }

  /** A later row is never looked at before an earlier one. */
  lemma {:induction false} ReplaySnoc(rows: seq<Row>, row: Row)
    ensures Replay(rows + [row]) == Step(Replay(rows), row)
  {
    assert (rows + [row])[..|rows|] == rows;
  }

  /** Once a sell exceeds the buys before it, the whole history is refused. */
  lemma {:induction false} PrefixAccepted(rows: seq<Row>, k: nat)
    requires k <= |rows| && Replay(rows).Ledger?
    ensures Replay(rows[..k]).Ledger?
    decreases |rows|
  {
    if k == |rows| {
      assert rows[..k] == rows;
    } else {
      var shorter := rows[..|rows| - 1];
      PrefixAccepted(shorter, k);
      assert shorter[..k] == rows[..k];
    }
  }

  // ----- The replay as the service runs it -----

  datatype Inventory =
    | Known(lots: seq<Lot>, remainingQty: real, remainingBasis: real, avgCost: Option<real>, realizedTotal: real)
    | HistoryRefused

  function InventoryOf(ledger: Ledger): Inventory {
    match ledger
    case SellExceedsBuys => HistoryRefused
    case Ledger(lots, realized) =>
      var qty := TotalQty(lots);
      Known(lots, qty, TotalBasis(lots), if qty <= DUST then None else Some(TotalBasis(lots) / qty), realized)
  }

  /** The inner consuming loop: pops lots off the front until the sell is exhausted. */
  method Consume(queue: seq<Lot>, qty: real) returns (basis: real, remaining: real, lots: seq<Lot>)
    ensures Take(basis, remaining, lots) == TakeFifo(queue, qty)
  {
    lots, remaining, basis := queue, qty, 0.0;
    while remaining > DUST && lots != []
      invariant TakeFifo(lots, remaining).lots == TakeFifo(queue, qty).lots
      invariant TakeFifo(lots, remaining).unfilled == TakeFifo(queue, qty).unfilled
      invariant basis + TakeFifo(lots, remaining).basis == TakeFifo(queue, qty).basis
      decreases |lots|, if remaining > DUST then 1 else 0
    {
      var head := lots[0];
      var used := Min(remaining, head.qty);
      basis := basis + used * head.unitCost;
      head := head.(qty := head.qty - used);
      lots := lots[0 := head];
      remaining := remaining - used;
      if head.qty <= DUST {
        lots := lots[1..];
      }
    }
  }

  method ReconstructInventory(rows: seq<Row>) returns (state: Inventory)
    ensures state == InventoryOf(Replay(rows))
  {
    var lots: seq<Lot> := [];
    var realized := 0.0;
    for i := 0 to |rows|
      invariant Replay(rows[..i]) == Ledger(lots, realized)
    {
      var row := rows[i];
      assert rows[..i + 1] == rows[..i] + [row];
      ReplaySnoc(rows[..i], row);
      if row.qty <= 0.0 {
        continue;
      }
      if row.side == Buy {
        lots := lots + [Lot(row.qty, UnitCost(row))];
        continue;
      }
      if row.side != Sell {
        continue;
      }
      var basis, remaining, left := Consume(lots, row.qty);
      if remaining > GAP {
        if Replay(rows).Ledger? {
          PrefixAccepted(rows, i + 1);
        }
        return HistoryRefused;
      }
      lots := left;
      realized := realized + (row.quoteCost - row.fee - basis);
    }
    assert rows[..|rows|] == rows;
    var qty := TotalQty(lots);
    var held := TotalBasis(lots);
    state := Known(lots, qty, held, if qty <= DUST then None else Some(held / qty), realized);
  }

  // ----- The peek of the sell guard -----

  /** Basis of the first `want` units and what the queue could not supply, nothing consumed. */
  function Peek(lots: seq<Lot>, want: real): (real, real)
    decreases lots
  {
    if want <= DUST || lots == [] then
      (0.0, want)
    else
      var used := Min(want, lots[0].qty);
      var rest := Peek(lots[1..], want - used);
      (used * lots[0].unitCost + rest.0, rest.1)
  }

  /** The peek quotes exactly what the consuming loop will charge, tolerances included. */
  lemma {:induction false} PeekIsCharge(lots: seq<Lot>, want: real)
    ensures Peek(lots, want).0 == TakeFifo(lots, want).basis
    ensures Peek(lots, want).1 == TakeFifo(lots, want).unfilled
    decreases lots
  {
    if want > DUST && lots != [] {
      PeekIsCharge(lots[1..], want - Min(want, lots[0].qty));
    }
  }

  function BasisForQty(lots: seq<Lot>, qty: real): Option<real> {
    if Peek(lots, qty).1 > GAP then None else Some(Peek(lots, qty).0)
  }

  lemma {:induction false} PeekHead(lots: seq<Lot>, i: nat, want: real)
    requires i < |lots| && want > DUST
    ensures var used := Min(want, lots[i].qty);
            && Peek(lots[i..], want).0 == used * lots[i].unitCost + Peek(lots[i + 1..], want - used).0
            && Peek(lots[i..], want).1 == Peek(lots[i + 1..], want - used).1
  {
    var tail := lots[i..];
    assert tail[0] == lots[i];
    assert tail[1..] == lots[i + 1..];
  }

  method BasisQuoteForQty(lots: seq<Lot>, qty: real) returns (basis: Option<real>)
    ensures basis == BasisForQty(lots, qty)
  {
    var remaining := qty;
    var total := 0.0;
    var i := 0;
    assert lots[0..] == lots;
    while i < |lots| && remaining > DUST
      invariant 0 <= i <= |lots|
      invariant total + Peek(lots[i..], remaining).0 == Peek(lots, qty).0
      invariant Peek(lots[i..], remaining).1 == Peek(lots, qty).1
    {
      var used := Min(remaining, lots[i].qty);
      PeekHead(lots, i, remaining);
      total := total + used * lots[i].unitCost;
      remaining := remaining - used;
      i := i + 1;
    }
    basis := if remaining > GAP then None else Some(total);
  }

  // ----- The fill history: the same replay with filters -----

  datatype FillRecord = FillRecord(
    fillId: string, orderId: string, side: Side, notional: real, fee: real,
    realizedPnl: real, realizedAuthoritative: bool, ts: int)

  datatype Gap = SellExceedsBuysGap | HistoryEmpty

  datatype Filter = Filter(side: Side, orderId: Option<string>, sinceMs: Option<int>)

  /** Loop state of the second replay; `stopped` once the gap branch was taken. */
  datatype Scan = Scan(lots: seq<Lot>, records: seq<FillRecord>, stopped: bool)

  predicate Selects(filter: Filter, row: Row) {
    && (filter.sinceMs.Some? ==> row.ts >= filter.sinceMs.value)
    && (filter.orderId.Some? ==> row.orderId == filter.orderId.value)
    && row.side == filter.side
  }

  function RecordOf(row: Row, basis: real): FillRecord {
    FillRecord(row.tradeId, row.orderId, row.side, Abs(row.quoteCost), Abs(row.fee),
               if row.side == Sell then row.quoteCost - row.fee - basis else 0.0, row.side == Sell, row.ts)
  }

  function ScanStep(filter: Filter, scan: Scan, row: Row): Scan {
    if scan.stopped || row.qty <= 0.0 || row.side == OtherSide then
      scan
    else if row.side == Sell && TakeFifo(scan.lots, row.qty).unfilled > GAP then
      Scan(TakeFifo(scan.lots, row.qty).lots, scan.records, true)
    else
      var take := TakeFifo(scan.lots, row.qty);
      var lots := if row.side == Buy then scan.lots + [Lot(row.qty, UnitCost(row))] else take.lots;
      Scan(lots, if Selects(filter, row) then scan.records + [RecordOf(row, take.basis)] else scan.records, false)
  }

  function ScanHistory(filter: Filter, rows: seq<Row>): Scan {
    if rows == [] then Scan([], [], false)
    else ScanStep(filter, ScanHistory(filter, rows[..|rows| - 1]), rows[|rows| - 1])
  }

  lemma {:induction false} StoppedStays(filter: Filter, rows: seq<Row>, k: nat)
    requires k <= |rows| && ScanHistory(filter, rows[..k]).stopped
    ensures ScanHistory(filter, rows) == ScanHistory(filter, rows[..k])
    decreases |rows|
  {
    if k == |rows| {
      assert rows[..k] == rows;
    } else {
      assert rows[..|rows| - 1][..k] == rows[..k];
      StoppedStays(filter, rows[..|rows| - 1], k);
    }
  }

  function FillHistory(filter: Filter, rows: seq<Row>): (seq<FillRecord>, seq<Gap>) {
    if Replay(rows).SellExceedsBuys? then
      ([], [SellExceedsBuysGap])
    else
      var scan := ScanHistory(filter, rows);
      var gaps := if scan.stopped then [SellExceedsBuysGap] else [];
      if scan.records == [] && gaps == [] then ([], [HistoryEmpty]) else (scan.records, gaps)
  }

  method AuthoritativeFillHistory(filter: Filter, rows: seq<Row>) returns (records: seq<FillRecord>, gaps: seq<Gap>)
    ensures (records, gaps) == FillHistory(filter, rows)
  {
    var state := ReconstructInventory(rows);
    if state.HistoryRefused? {
      return [], [SellExceedsBuysGap];
    }
    records, gaps := [], [];
    var lots: seq<Lot> := [];
    var i := 0;
    while i < |rows|
      invariant 0 <= i <= |rows|
      invariant gaps == []
      invariant ScanHistory(filter, rows[..i]) == Scan(lots, records, false)
    {
      var row := rows[i];
      assert rows[..i + 1][..i] == rows[..i];
      i := i + 1;
      if row.qty <= 0.0 {
        continue;
      }
      var basis := 0.0;
      if row.side == Buy {
        lots := lots + [Lot(row.qty, UnitCost(row))];
      } else if row.side == Sell {
        var charged, remaining, left := Consume(lots, row.qty);
        lots, basis := left, charged;
        if remaining > GAP {
          gaps := gaps + [SellExceedsBuysGap];
          StoppedStays(filter, rows, i);
          break;
        }
      } else {
        continue;
      }
      if filter.sinceMs.Some? && row.ts < filter.sinceMs.value {
        continue;
      }
      if filter.orderId.Some? && row.orderId != filter.orderId.value {
        continue;
      }
      if row.side != filter.side {
        continue;
      }
      var realized := 0.0;
      if row.side == Sell {
        realized := row.quoteCost - row.fee - basis;
      }
      records := records + [FillRecord(row.tradeId, row.orderId, row.side, Abs(row.quoteCost), Abs(row.fee),
                                       realized, row.side == Sell, row.ts)];
    }
    assert gaps == [] ==> rows[..i] == rows;
    assert gaps == if ScanHistory(filter, rows).stopped then [SellExceedsBuysGap] else [];
    if records == [] && gaps == [] {
      gaps := [HistoryEmpty];
    }
  }

  // ----- Balance cross-check and profit figures -----

  datatype Balance = Balance(total: real, free: real, minOrderSize: real)

  datatype TruthReason =
    | TradeHistorySellExceedsBuys
    | BalanceOrConstraintsError
    | BalanceHistoryMismatch

  datatype Truth =
    | Truth(lots: seq<Lot>, remainingQty: real, remainingBasis: real, realizedTotal: real, total: real, free: real)
    | NoTruth(reason: TruthReason)

  /** `balance` is None when the connector raised. */
  function AuthoritativeInventory(rows: seq<Row>, balance: Option<Balance>): Truth {
    match InventoryOf(Replay(rows))
    case HistoryRefused => NoTruth(TradeHistorySellExceedsBuys)
    case Known(lots, qty, basis, _, realized) =>
      if balance.None? then NoTruth(BalanceOrConstraintsError)
      else
        var b := balance.value;
        var tolerance := Max(Max(0.00000001, b.minOrderSize), b.total * 0.02);
        if Abs(b.total - qty) > tolerance then NoTruth(BalanceHistoryMismatch)
        else Truth(lots, qty, basis, realized, b.total, b.free)
  }

  function SumRealized(records: seq<FillRecord>): real {
    if records == [] then 0.0
    else SumRealized(records[..|records| - 1]) + records[|records| - 1].realizedPnl
  }

  function AuthoritativeRealizedPnl(rows: seq<Row>, sinceMs: Option<int>): Option<real> {
    var (records, _) := FillHistory(Filter(Sell, None, sinceMs), rows);
    if records == [] then None else Some(SumRealized(records))
  }

  /** None also when the bid is not positive; an empty balance is worth nothing. */
  function AuthoritativeUnrealizedPnl(rows: seq<Row>, balance: Option<Balance>, bid: real): Option<real> {
    match AuthoritativeInventory(rows, balance)
    case NoTruth(_) => None
    case Truth(_, _, basis, _, total, _) =>
      if total <= DUST then Some(0.0)
      else if bid <= 0.0 then None
      else Some(total * bid - basis)
  }
}
