/** The sell guard, and what its promise is worth once the order fills: in full, or in pieces. */
module ProfitGuard {
  import opened FifoLedger
  import opened FifoRefinement

  datatype Doctrine = Doctrine(
    blockNonReduceOnlySells: bool, enforceCostBasisSellBlock: bool, enforceNetProfitSellBlock: bool,
    minimumSellNetProfitBps: real)

  datatype CostModel = CostModel(feeBps: real, slippageBps: real)

  datatype Verdict =
    | Pass
    | DoctrineGuardsDisabled
    | InventoryTruthMissing(reason: TruthReason)
    | InsufficientSpotInventory
    | CostBasisTruthMissing
    | BelowCostBasis
    | NetProfitNonPositive
    | NetProfitFloorBreach

  /** Fee, slippage and spread charged per quote unit sold, in basis points. */
  function ModeledCostBps(costs: CostModel, bid: real, ask: real): real {
    costs.feeBps + costs.slippageBps + Max(0.0, (ask - bid) / Max((ask + bid) / 2.0, 0.000000001) * 10000.0)
  }

  function ExitCost(costs: CostModel, qty: real, bid: real, ask: real): real {
    qty * bid * ModeledCostBps(costs, bid, ask) / 10000.0
  }

  /** The guard's profit floor as a fraction: never below 1.2%. */
  function Floor(doctrine: Doctrine): (f: real)
    ensures f >= 0.012 && f * 10000.0 >= doctrine.minimumSellNetProfitBps
    ensures f > 0.012 ==> f * 10000.0 == doctrine.minimumSellNetProfitBps
  {
    Max(120.0, doctrine.minimumSellNetProfitBps) / 10000.0
  }

  /** The inventory is fetched twice: once for the balance tests, once for the basis. */
  function SellProfitGuard(
    doctrine: Doctrine, costs: CostModel, first: Truth, second: Truth, qty: real, bid: real, ask: real): Verdict
  {
    if !doctrine.blockNonReduceOnlySells || !doctrine.enforceCostBasisSellBlock || !doctrine.enforceNetProfitSellBlock then
      DoctrineGuardsDisabled
    else if first.NoTruth? then
      InventoryTruthMissing(first.reason)
    else if qty > first.free + Max(0.00000001, qty * 0.02) then
      InsufficientSpotInventory
    else if second.NoTruth? || BasisForQty(second.lots, qty).None? then
      CostBasisTruthMissing
    else
      var basis := BasisForQty(second.lots, qty).value;
      var sellQuote := qty * bid;
      if sellQuote <= basis then BelowCostBasis
      else
        var net := sellQuote - ExitCost(costs, qty, bid, ask) - basis;
        if net <= 0.0 then NetProfitNonPositive
        else if net / Max(basis, 0.000000001) * 10000.0 < Max(120.0, doctrine.minimumSellNetProfitBps) then
          NetProfitFloorBreach
        else Pass
  }

  /** The modelled exit cost in full: fee, slippage and the spread over the mid price, in basis points of the proceeds. */
  lemma {:induction false} ExitCostIs(costs: CostModel, qty: real, bid: real, ask: real)
    ensures ExitCost(costs, qty, bid, ask)
         == qty * bid * (costs.feeBps + costs.slippageBps
                         + Max(0.0, (ask - bid) / Max((ask + bid) / 2.0, 0.000000001) * 10000.0)) / 10000.0
  {
  }

  /** The fill came at the bid or better and paid at most fee, slippage and spread in basis points of that. */
  predicate OnQuotedTerms(costs: CostModel, fill: Row, bid: real, ask: real) {
    && fill.quoteCost >= fill.qty * bid
    && fill.fee <= fill.qty * bid
                   * (costs.feeBps + costs.slippageBps
                      + Max(0.0, (ask - bid) / Max((ask + bid) / 2.0, 0.000000001) * 10000.0)) / 10000.0
  }

  lemma {:induction false} WithinExitCost(costs: CostModel, fill: Row, bid: real, ask: real)
    requires OnQuotedTerms(costs, fill, bid, ask)
    ensures fill.quoteCost >= fill.qty * bid && fill.fee <= ExitCost(costs, fill.qty, bid, ask)
  {
    ExitCostIs(costs, fill.qty, bid, ask);
    hide ExitCost;
  }

  /** Main result: exactly which sells pass, by the doctrine, the books, the market and the FIFO basis: in particular the
      proceeds less fee, slippage and spread clear the basis by the floor. */
  lemma {:induction false} PassIff(
    doctrine: Doctrine, costs: CostModel, first: Truth, second: Truth, qty: real, bid: real, ask: real)
    ensures SellProfitGuard(doctrine, costs, first, second, qty, bid, ask) == Pass
       <==> && doctrine.blockNonReduceOnlySells && doctrine.enforceCostBasisSellBlock
            && doctrine.enforceNetProfitSellBlock
            && first.Truth? && second.Truth? && qty - first.free <= Max(0.00000001, qty * 0.02)
            && TakeFifo(second.lots, qty).unfilled <= 0.000000001
            && var basis := TakeFifo(second.lots, qty).basis;
               var spread := Max(0.0, (ask - bid) / Max((ask + bid) / 2.0, 0.000000001) * 10000.0);
               var net := qty * bid - qty * bid * (costs.feeBps + costs.slippageBps + spread) / 10000.0 - basis;
               && qty * bid > basis && net > 0.0
               && net >= Max(0.012, doctrine.minimumSellNetProfitBps / 10000.0) * Max(basis, 0.000000001)
  {
    hide Peek, TakeFifo, ModeledCostBps, ExitCost;
    if second.Truth? {
      PeekIsCharge(second.lots, qty);
      var basis := TakeFifo(second.lots, qty).basis;
      ExitCostIs(costs, qty, bid, ask);
      FloorRatio(qty * bid - ExitCost(costs, qty, bid, ask) - basis, Max(basis, 0.000000001), doctrine.minimumSellNetProfitBps);
    }
  }

  lemma {:induction false} FloorRatio(net: real, base: real, bps: real)
    requires base > 0.0
    ensures net / base * 10000.0 >= Max(120.0, bps) <==> net >= Max(0.012, bps / 10000.0) * base
  {
    var f := Max(0.012, bps / 10000.0);
    assert f * 10000.0 == Max(120.0, bps);
    QuotientTimes(net, base);
    if net / base >= f { MulMonotone(f, net / base, base); }
    if net >= f * base && net / base < f { MulStrict(net / base, f, base); }
  }

  lemma {:induction false} MulStrict(x: real, y: real, k: real)
    requires x < y && k > 0.0
    ensures x * k < y * k
  {
  }

  lemma {:induction false} PassMeansFloor(
    doctrine: Doctrine, costs: CostModel, first: Truth, second: Truth, qty: real, bid: real, ask: real)
    requires SellProfitGuard(doctrine, costs, first, second, qty, bid, ask) == Pass
    ensures second.Truth? && TakeFifo(second.lots, qty).unfilled <= 0.000000001
    ensures var basis := TakeFifo(second.lots, qty).basis;
            var net := qty * bid - ExitCost(costs, qty, bid, ask) - basis;
            net > 0.0 && net >= Floor(doctrine) * basis
  {
    hide ExitCost, Peek, TakeFifo;
    PeekIsCharge(second.lots, qty);
    var basis := TakeFifo(second.lots, qty).basis;
    var net := qty * bid - ExitCost(costs, qty, bid, ask) - basis;
    FloorOfBps(net, basis, doctrine);
  }

  /** A passed guard means the doctrine is in force, both looks at the books are trusted, and no more is sold than the
      free balance of the first look, up to two percent of the order. */
  lemma {:induction false} PassMeansHeld(
    doctrine: Doctrine, costs: CostModel, first: Truth, second: Truth, qty: real, bid: real, ask: real)
    requires SellProfitGuard(doctrine, costs, first, second, qty, bid, ask) == Pass
    ensures doctrine.blockNonReduceOnlySells && doctrine.enforceCostBasisSellBlock && doctrine.enforceNetProfitSellBlock
    ensures first.Truth? && second.Truth? && qty <= first.free + Max(0.00000001, qty * 0.02)
    ensures qty * bid > TakeFifo(second.lots, qty).basis
  {
    hide ExitCost, Peek, TakeFifo;
    PeekIsCharge(second.lots, qty);
  }

  lemma {:induction false} FloorOfBps(net: real, basis: real, doctrine: Doctrine)
    requires net > 0.0
    requires net / Max(basis, 0.000000001) * 10000.0 >= Max(120.0, doctrine.minimumSellNetProfitBps)
    ensures net >= Floor(doctrine) * basis
  {
    var base, f := Max(basis, 0.000000001), Floor(doctrine);
    QuotientTimes(net, base);
    BoundByRatio(net / base, base, basis, f);
  }

  lemma {:induction false} QuotientTimes(x: real, y: real)
    requires y > 0.0
    ensures x / y * y == x
  {
  }

  lemma {:induction false} BoundByRatio(ratio: real, base: real, basis: real, f: real)
    requires ratio >= f >= 0.0 && base >= basis && base > 0.0
    ensures ratio * base >= f * basis
  {
    MulMonotone(f, ratio, base);
    MulMonotone(basis, base, f);
  }

  // ----- The order fills in full -----

  lemma {:induction false} TakeIgnoresLaterLots(lots: seq<Lot>, more: seq<Lot>, want: real)
    requires TakeFifo(lots, want).unfilled <= DUST
    ensures TakeFifo(lots + more, want).basis == TakeFifo(lots, want).basis
    ensures TakeFifo(lots + more, want).unfilled == TakeFifo(lots, want).unfilled
    decreases lots
  {
    if lots == [] {
      assert lots + more == more;
    } else if want > DUST {
      assert (lots + more)[1..] == lots[1..] + more;
      if lots[0].qty - Min(want, lots[0].qty) <= DUST {
        TakeIgnoresLaterLots(lots[1..], more, want - Min(want, lots[0].qty));
      }
    }
  }

  ghost predicate OnlyBuys(rows: seq<Row>) {
    forall i :: 0 <= i < |rows| ==> rows[i].side == Buy
  }

  lemma {:induction false} BuysOnlyAppend(rows: seq<Row>, buys: seq<Row>)
    requires Replay(rows).Ledger? && OnlyBuys(buys)
    ensures Replay(rows + buys).Ledger?
    ensures Replay(rows + buys).realized == Replay(rows).realized
    ensures |Replay(rows).lots| <= |Replay(rows + buys).lots|
    ensures Replay(rows + buys).lots[..|Replay(rows).lots|] == Replay(rows).lots
    decreases |buys|
  {
    if buys == [] {
      assert rows + buys == rows;
    } else {
      var shorter, last := buys[..|buys| - 1], buys[|buys| - 1];
      BuysOnlyAppend(rows, shorter);
      assert rows + buys == (rows + shorter) + [last];
      ReplaySnoc(rows + shorter, last);
    }
  }

  /** If the guard passes and the order then fills in full, at bid or better and within the modelled
      exit cost, the replayed realised profit rises by at least the floor times the FIFO basis consumed.
      Buys may land between the guard and the fill as long as the peek left no more than dust. */
  lemma {:induction false} GuardedSellEarnsFloor(
    doctrine: Doctrine, costs: CostModel, first: Truth, rows: seq<Row>, balance: Option<Balance>,
    between: seq<Row>, fill: Row, bid: real, ask: real)
    requires SellProfitGuard(doctrine, costs, first, AuthoritativeInventory(rows, balance), fill.qty, bid, ask) == Pass
    requires fill.side == Sell && fill.qty > 0.0
    requires OnQuotedTerms(costs, fill, bid, ask)
    requires OnlyBuys(between)
    requires between == [] || Peek(Replay(rows).lots, fill.qty).1 <= DUST
    ensures Replay(rows).Ledger? && Replay(rows + between + [fill]).Ledger?
    ensures var gain := Replay(rows + between + [fill]).realized - Replay(rows).realized;
            gain > 0.0 && gain >= Floor(doctrine) * TakeFifo(Replay(rows).lots, fill.qty).basis
  {
    hide ExitCost, TakeFifo, Peek, SellProfitGuard, Floor, UnitCost, TotalBasis, TotalQty, AuthoritativeInventory, Replay,
         Step, ModeledCostBps, OnQuotedTerms;
    WithinExitCost(costs, fill, bid, ask);
    PassMeansFloor(doctrine, costs, first, AuthoritativeInventory(rows, balance), fill.qty, bid, ask);
    KnownFromHistory(rows, balance);
    BuysOnlyAppend(rows, between);
    ReplaySnoc(rows + between, fill);
    var lots, all := Replay(rows).lots, Replay(rows + between).lots;
    if between == [] {
      assert rows + between == rows;
    } else {
      PeekIsCharge(lots, fill.qty);
      assert all == lots + all[|lots|..];
      TakeIgnoresLaterLots(lots, all[|lots|..], fill.qty);
    }
    SellStep(Replay(rows + between), fill);
  }

  lemma {:induction false} KnownFromHistory(rows: seq<Row>, balance: Option<Balance>)
    requires AuthoritativeInventory(rows, balance).Truth?
    ensures Replay(rows).Ledger? && AuthoritativeInventory(rows, balance).lots == Replay(rows).lots
  {
  }

  lemma {:induction false} SellStep(ledger: Ledger, fill: Row)
    requires ledger.Ledger? && fill.side == Sell && fill.qty > 0.0
    requires TakeFifo(ledger.lots, fill.qty).unfilled <= GAP
    ensures Step(ledger, fill).Ledger?
    ensures Step(ledger, fill).realized - ledger.realized
         == fill.quoteCost - fill.fee - TakeFifo(ledger.lots, fill.qty).basis
  {
    hide TakeFifo;
  }

  // ----- The order fills in pieces -----

  /** What each unit sold at `bid` brings after the modelled exit cost. */
  function NetPrice(costs: CostModel, bid: real, ask: real): real {
    bid - bid * ModeledCostBps(costs, bid, ask) / 10000.0
  }

  /** A fill of `x` units at net price `price` covers `markup` times its basis. */
  ghost predicate Keeps(lots: seq<Lot>, x: real, price: real, markup: real) {
    x * price >= markup * Cost(lots, x)
  }

  /** Each lot with its unit cost replaced by what a unit earns above `markup` times that cost. */
  function Margins(lots: seq<Lot>, price: real, markup: real): seq<Lot> {
    if lots == [] then []
    else [Lot(lots[0].qty, price - markup * lots[0].unitCost)] + Margins(lots[1..], price, markup)
  }

  /** A single walk over the lots: the running surplus is nonnegative at every lot boundary up to `q`
      and at `q` itself. */
  predicate SafeAtBoundaries(margins: seq<Lot>, q: real, surplus: real)
    decreases |margins|
  {
    if margins == [] then surplus >= 0.0
    else if q <= margins[0].qty then surplus >= 0.0 && surplus + q * margins[0].unitCost >= 0.0
    else surplus >= 0.0 && SafeAtBoundaries(margins[1..], q - margins[0].qty, Past(surplus, margins[0]))
  }

  /** The surplus once a whole lot has gone. */
  function Past(surplus: real, lot: Lot): real {
    surplus + lot.qty * lot.unitCost
  }

  ghost predicate NeverNegative(margins: seq<Lot>, q: real, surplus: real) {
    forall x :: 0.0 <= x <= q ==> surplus + Cost(margins, x) >= 0.0
  }

  lemma {:induction false} MarginShape(lots: seq<Lot>, price: real, markup: real)
    requires PositiveLots(lots)
    ensures PositiveLots(Margins(lots, price, markup))
    ensures TotalQty(Margins(lots, price, markup)) == TotalQty(lots)
    decreases lots
  {
    if lots != [] {
      MarginShape(lots[1..], price, markup);
      assert Margins(lots, price, markup)[1..] == Margins(lots[1..], price, markup);
    }
  }

  /** What `x` units bring above `markup` times their basis. */
  function Above(x: real, price: real, markup: real, basis: real): real {
    x * price - markup * basis
  }

  lemma {:induction false} AboveStep(
    used: real, x: real, price: real, markup: real, unit: real, margin: real, rest: real)
    requires margin == price - markup * unit
    ensures Above(x, price, markup, used * unit + rest) == used * margin + Above(x - used, price, markup, rest)
  {
    assert used * (price - markup * unit) == used * price - used * (markup * unit);
    assert markup * (used * unit + rest) == used * (markup * unit) + markup * rest;
    assert (x - used) * price == x * price - used * price;
  }

  lemma {:induction false} MarginCost(lots: seq<Lot>, x: real, price: real, markup: real)
    requires PositiveLots(lots) && 0.0 <= x <= TotalQty(lots)
    ensures Cost(Margins(lots, price, markup), x) == Above(x, price, markup, Cost(lots, x))
    decreases lots
  {
    if lots == [] {
      assert x == 0.0;
    } else {
      hide Cost, Above, Margins;
      var used := Min(x, lots[0].qty);
      var margins := Margins(lots, price, markup);
      MarginLots(lots, price, markup);
      TotalPositive(lots[1..]);
      MarginCost(lots[1..], x - used, price, markup);
      CostHead(lots, x);
      CostHead(margins, x);
      AboveStep(used, x, price, markup, lots[0].unitCost, margins[0].unitCost, Cost(lots[1..], x - used));
    }
  }

  lemma {:induction false} MarginLots(lots: seq<Lot>, price: real, markup: real)
    requires lots != []
    ensures var margins := Margins(lots, price, markup);
            && margins != [] && margins[1..] == Margins(lots[1..], price, markup)
            && margins[0] == Lot(lots[0].qty, price - markup * lots[0].unitCost)
  {
  }

  lemma {:induction false} CostHead(lots: seq<Lot>, x: real)
    requires lots != [] && 0.0 <= x && 0.0 < lots[0].qty
    ensures var used := Min(x, lots[0].qty);
            Cost(lots, x) == used * lots[0].unitCost + Cost(lots[1..], x - used)
  {
  }

  lemma {:induction false} LinearBetween(surplus: real, margin: real, x: real, end: real)
    requires 0.0 <= x <= end && surplus >= 0.0 && surplus + end * margin >= 0.0
    ensures surplus + x * margin >= 0.0
  {
    if margin < 0.0 {
      MulMonotone(x, end, -margin);
    }
  }

  lemma {:induction false} SurplusHead(margins: seq<Lot>, surplus: real, x: real)
    requires margins != [] && 0.0 <= x && 0.0 < margins[0].qty
    ensures x <= margins[0].qty ==> surplus + Cost(margins, x) == surplus + x * margins[0].unitCost
    ensures x > margins[0].qty ==>
              surplus + Cost(margins, x) == Past(surplus, margins[0]) + Cost(margins[1..], x - margins[0].qty)
  {
    CostHead(margins, x);
  }

  lemma {:induction false} BoundariesSuffice(margins: seq<Lot>, q: real, surplus: real, x: real)
    requires PositiveLots(margins) && 0.0 <= x <= q <= TotalQty(margins)
    requires SafeAtBoundaries(margins, q, surplus)
    ensures surplus + Cost(margins, x) >= 0.0
    decreases |margins|
  {
    if margins != [] {
      var h := margins[0].qty;
      SurplusHead(margins, surplus, x);
      if x > h {
        BoundariesSuffice(margins[1..], q - h, Past(surplus, margins[0]), x - h);
      } else {
        SafeEnd(margins, q, surplus);
        LinearBetween(surplus, margins[0].unitCost, x, Min(q, h));
      }
    }
  }

  lemma {:induction false} SafeEnd(margins: seq<Lot>, q: real, surplus: real)
    requires margins != [] && SafeAtBoundaries(margins, q, surplus)
    ensures surplus >= 0.0 && surplus + Min(q, margins[0].qty) * margins[0].unitCost >= 0.0
  {
    if q > margins[0].qty {
      assert Past(surplus, margins[0]) >= 0.0;
    }
  }

  lemma {:induction false} BoundariesNeeded(margins: seq<Lot>, q: real, surplus: real)
    requires PositiveLots(margins) && 0.0 <= q <= TotalQty(margins)
    requires NeverNegative(margins, q, surplus)
    ensures SafeAtBoundaries(margins, q, surplus)
    decreases |margins|
  {
    assert surplus + Cost(margins, 0.0) >= 0.0;
    if margins != [] {
      SurplusHead(margins, surplus, q);
      assert surplus + Cost(margins, q) >= 0.0;
      if q > margins[0].qty {
        NeverNegativeRest(margins, q, surplus);
        BoundariesNeeded(margins[1..], q - margins[0].qty, Past(surplus, margins[0]));
      }
    }
  }

  lemma {:induction false} NeverNegativeRest(margins: seq<Lot>, q: real, surplus: real)
    requires margins != [] && 0.0 < margins[0].qty < q
    requires NeverNegative(margins, q, surplus)
    ensures NeverNegative(margins[1..], q - margins[0].qty, Past(surplus, margins[0]))
  {
    var h := margins[0].qty;
    forall y | 0.0 <= y <= q - h ensures Past(surplus, margins[0]) + Cost(margins[1..], y) >= 0.0 {
      assert surplus + Cost(margins, y + h) >= 0.0;
      assert y + h - h == y;
      SurplusHead(margins, surplus, y + h);
      if y == 0.0 {
        assert surplus + h * margins[0].unitCost == Past(surplus, margins[0]);
      }
    }
  }

  /** Every partial fill keeps the promised markup exactly when the lot boundaries do. */
  lemma {:induction false} PartialFillsKeepFloorIff(lots: seq<Lot>, q: real, price: real, markup: real)
    requires PositiveLots(lots) && 0.0 <= q <= TotalQty(lots)
    ensures (forall x :: 0.0 <= x <= q ==> Keeps(lots, x, price, markup))
       <==> SafeAtBoundaries(Margins(lots, price, markup), q, 0.0)
  {
    var margins := Margins(lots, price, markup);
    MarginShape(lots, price, markup);
    if SafeAtBoundaries(margins, q, 0.0) {
      forall x | 0.0 <= x <= q ensures Keeps(lots, x, price, markup) {
        SafePartKeeps(lots, q, price, markup, x);
      }
    }
    if forall x :: 0.0 <= x <= q ==> Keeps(lots, x, price, markup) {
      forall x | 0.0 <= x <= q ensures 0.0 + Cost(margins, x) >= 0.0 {
        MarginCost(lots, x, price, markup);
        assert Keeps(lots, x, price, markup);
      }
      BoundariesNeeded(margins, q, 0.0);
    }
  }

  lemma {:induction false} SafePartKeeps(lots: seq<Lot>, q: real, price: real, markup: real, x: real)
    requires PositiveLots(lots) && 0.0 <= x <= q <= TotalQty(lots)
    requires SafeAtBoundaries(Margins(lots, price, markup), q, 0.0)
    ensures Keeps(lots, x, price, markup)
  {
    MarginShape(lots, price, markup);
    MarginCost(lots, x, price, markup);
    BoundariesSuffice(Margins(lots, price, markup), q, 0.0, x);
  }

  ghost predicate CostsNondecreasing(lots: seq<Lot>) {
    forall i, j :: 0 <= i <= j < |lots| ==> lots[i].unitCost <= lots[j].unitCost
  }

  ghost predicate MarginsNonincreasing(margins: seq<Lot>) {
    forall i, j :: 0 <= i <= j < |margins| ==> margins[i].unitCost >= margins[j].unitCost
  }

  lemma {:induction false} MarginsFall(lots: seq<Lot>, price: real, markup: real)
    requires CostsNondecreasing(lots) && markup >= 0.0
    ensures MarginsNonincreasing(Margins(lots, price, markup))
  {
    MarginsPointwise(lots, price, markup);
    hide Margins;
    var margins := Margins(lots, price, markup);
    forall i, j | 0 <= i <= j < |margins| ensures margins[i].unitCost >= margins[j].unitCost {
      MulMonotone(lots[i].unitCost, lots[j].unitCost, markup);
    }
  }

  lemma {:induction false} MarginsPointwise(lots: seq<Lot>, price: real, markup: real)
    ensures |Margins(lots, price, markup)| == |lots|
    ensures forall i :: 0 <= i < |lots| ==>
              Margins(lots, price, markup)[i] == Lot(lots[i].qty, price - markup * lots[i].unitCost)
    decreases lots
  {
    if lots != [] {
      MarginLots(lots, price, markup);
      MarginsPointwise(lots[1..], price, markup);
      hide Margins;
      var margins := Margins(lots, price, markup);
      forall i | 0 <= i < |lots| ensures margins[i] == Lot(lots[i].qty, price - markup * lots[i].unitCost) {
        if i > 0 { assert margins[i] == margins[1..][i - 1] && lots[i] == lots[1..][i - 1]; }
      }
    }
  }

  lemma {:induction false} LosingLotsOnlyLose(margins: seq<Lot>, x: real)
    requires PositiveLots(margins) && 0.0 <= x <= TotalQty(margins)
    requires forall i :: 0 <= i < |margins| ==> margins[i].unitCost <= 0.0
    ensures Cost(margins, x) <= 0.0
    decreases |margins|
  {
    if margins != [] {
      var used := Min(x, margins[0].qty);
      CostHead(margins, x);
      MulMonotone(margins[0].unitCost, 0.0, used);
      TotalPositive(margins[1..]);
      LosingLotsOnlyLose(margins[1..], x - used);
    }
  }

  lemma {:induction false} FallingMarginsAreSafe(margins: seq<Lot>, q: real, surplus: real)
    requires PositiveLots(margins) && MarginsNonincreasing(margins) && 0.0 <= q <= TotalQty(margins)
    requires surplus >= 0.0 && surplus + Cost(margins, q) >= 0.0
    ensures SafeAtBoundaries(margins, q, surplus)
    decreases |margins|
  {
    if margins != [] {
      var h, u := margins[0].qty, margins[0].unitCost;
      SurplusHead(margins, surplus, q);
      if q > h {
        if u < 0.0 {
          LosingLotsOnlyLose(margins[1..], q - h);
        } else {
          MulMonotone(0.0, u, h);
        }
        FallingMarginsAreSafe(margins[1..], q - h, Past(surplus, margins[0]));
      }
    }
  }

  /** With the cheapest lots first, a floor kept by the whole order is kept by every part of it. */
  lemma {:induction false} NondecreasingCostsAreSafe(lots: seq<Lot>, q: real, price: real, markup: real)
    requires PositiveLots(lots) && CostsNondecreasing(lots) && 0.0 <= q <= TotalQty(lots)
    requires markup >= 0.0 && Keeps(lots, q, price, markup)
    ensures SafeAtBoundaries(Margins(lots, price, markup), q, 0.0)
  {
    MarginShape(lots, price, markup);
    MarginCost(lots, q, price, markup);
    MarginsFall(lots, price, markup);
    FallingMarginsAreSafe(Margins(lots, price, markup), q, 0.0);
  }

  /** Convexity: with the cheapest lots first, the average basis of a smaller sale is never higher. */
  lemma {:induction false} SmallerSaleCheaperOnAverage(lots: seq<Lot>, small: real, large: real)
    requires PositiveLots(lots) && CostsNondecreasing(lots)
    requires 0.0 < small <= large <= TotalQty(lots)
    ensures Cost(lots, small) / small <= Cost(lots, large) / large
  {
    var average := Cost(lots, large) / large;
    assert large * average == Cost(lots, large);
    NondecreasingCostsAreSafe(lots, large, average, 1.0);
    SafePartKeeps(lots, large, average, 1.0, small);
    DivideBy(Cost(lots, small), average, small);
  }

  lemma {:induction false} DivideBy(total: real, average: real, qty: real)
    requires qty > 0.0 && total <= qty * average
    ensures total / qty <= average
  {
    var a := total / qty;
    assert a * qty == total;
    if a > average {
      assert a * qty > average * qty;
    }
  }

  // ----- Successive fills of one guarded order -----

  function Filled(fills: seq<Row>): real {
    if fills == [] then 0.0 else Filled(fills[..|fills| - 1]) + fills[|fills| - 1].qty
  }

  /** A piece that sells at bid or better and pays at most its share of the modelled exit cost. */
  ghost predicate OnTerms(fill: Row, netPrice: real) {
    && fill.side == Sell && fill.qty > 0.0 && OnLattice(fill.qty)
    && fill.quoteCost - fill.fee >= fill.qty * netPrice
  }

  ghost predicate FillsOnTerms(fills: seq<Row>, netPrice: real) {
    forall i :: 0 <= i < |fills| ==> OnTerms(fills[i], netPrice)
  }

  lemma {:induction false} OnGuardTerms(costs: CostModel, fill: Row, bid: real, ask: real)
    requires OnQuotedTerms(costs, fill, bid, ask)
    ensures fill.quoteCost - fill.fee >= fill.qty * NetPrice(costs, bid, ask)
  {
    ExitCostIs(costs, fill.qty, bid, ask);
    hide ModeledCostBps;
    var bps := ModeledCostBps(costs, bid, ask);
    assert fill.qty * bid * bps == fill.qty * (bid * bps);
    assert ExitCost(costs, fill.qty, bid, ask) == fill.qty * (bid * bps / 10000.0);
    assert fill.qty * (bid - bid * bps / 10000.0) == fill.qty * bid - fill.qty * (bid * bps / 10000.0);
  }

  lemma {:induction false} FilledOnLattice(fills: seq<Row>, netPrice: real)
    requires FillsOnTerms(fills, netPrice)
    ensures OnLattice(Filled(fills)) && Filled(fills) >= 0.0
    decreases |fills|
  {
    if fills == [] {
      assert IsUnits(0.0, 0);
    } else {
      FilledOnLattice(fills[..|fills| - 1], netPrice);
      LatticeClosed(Filled(fills[..|fills| - 1]), fills[|fills| - 1].qty);
    }
  }

  /** One piece on top of the pieces before it. */
  lemma {:induction false} OnePiece(before: Ledger, lots: seq<Lot>, sold: real, piece: Row, netPrice: real)
    requires LotsOnLattice(lots) && OnLattice(sold) && OnTerms(piece, netPrice)
    requires 0.0 <= sold && sold + piece.qty <= TotalQty(lots)
    requires before.Ledger? && before.lots == DropUnits(lots, sold)
    ensures var next := Step(before, piece);
            && next.Ledger? && next.lots == DropUnits(lots, sold + piece.qty)
            && next.realized - before.realized
               >= piece.qty * netPrice - (Cost(lots, sold + piece.qty) - Cost(lots, sold))
  {
    hide TakeFifo, Cost, DropUnits;
    SellAlongCurve(lots, sold, piece.qty);
  }

  lemma {:induction false} EmptyFills(lots: seq<Lot>)
    ensures DropUnits(lots, 0.0) == lots && Cost(lots, 0.0) == 0.0
  {
  }

  lemma {:induction false} FillsWalkTheCurve(rows: seq<Row>, fills: seq<Row>, netPrice: real)
    requires Replay(rows).Ledger? && LotsOnLattice(Replay(rows).lots)
    requires FillsOnTerms(fills, netPrice) && Filled(fills) <= TotalQty(Replay(rows).lots)
    ensures Replay(rows + fills).Ledger?
    ensures Replay(rows + fills).lots == DropUnits(Replay(rows).lots, Filled(fills))
    ensures Replay(rows + fills).realized - Replay(rows).realized
         >= Filled(fills) * netPrice - Cost(Replay(rows).lots, Filled(fills))
    decreases |fills|
  {
    hide Step, TakeFifo, Cost, DropUnits, UnitCost, TotalQty, OnTerms, FillsOnTerms, LotsOnLattice, OnLattice;
    var lots := Replay(rows).lots;
    if fills == [] {
      assert rows + fills == rows;
      EmptyFills(lots);
    } else {
      var shorter, last := fills[..|fills| - 1], fills[|fills| - 1];
      PieceFacts(fills, netPrice);
      FillsWalkTheCurve(rows, shorter, netPrice);
      assert rows + fills == (rows + shorter) + [last];
      ReplaySnoc(rows + shorter, last);
      OnePiece(Replay(rows + shorter), lots, Filled(shorter), last, netPrice);
      Distribute(Filled(shorter), last.qty, netPrice);
    }
  }

  lemma {:induction false} PieceFacts(fills: seq<Row>, netPrice: real)
    requires fills != [] && FillsOnTerms(fills, netPrice)
    ensures var shorter, last := fills[..|fills| - 1], fills[|fills| - 1];
            && FillsOnTerms(shorter, netPrice) && OnTerms(last, netPrice) && last.qty > 0.0
            && OnLattice(Filled(shorter)) && Filled(shorter) >= 0.0
  {
    FilledOnLattice(fills[..|fills| - 1], netPrice);
  }

  lemma {:induction false} Distribute(x: real, y: real, k: real)
    ensures (x + y) * k == x * k + y * k
  {
  }

  /** A passed guard, on the lattice: the quantity is held and the floor holds at net price. */
  lemma {:induction false} PassOnLattice(
    doctrine: Doctrine, costs: CostModel, first: Truth, rows: seq<Row>, balance: Option<Balance>,
    qty: real, bid: real, ask: real)
    requires Lattice(rows) && OnLattice(qty) && qty > 0.0
    requires SellProfitGuard(doctrine, costs, first, AuthoritativeInventory(rows, balance), qty, bid, ask) == Pass
    ensures Replay(rows).Ledger? && LotsOnLattice(Replay(rows).lots) && qty <= TotalQty(Replay(rows).lots)
    ensures Keeps(Replay(rows).lots, qty, NetPrice(costs, bid, ask), 1.0 + Floor(doctrine))
  {
    hide ExitCost, NetPrice, SellProfitGuard, Floor, UnitCost, Step, TotalQty, Cost, TakeFifo, DropUnits;
    PassMeansFloor(doctrine, costs, first, AuthoritativeInventory(rows, balance), qty, bid, ask);
    var lots, f := Replay(rows).lots, Floor(doctrine);
    OpenLotsOnLattice(rows);
    TakeIsDrop(lots, qty);
    TotalOnLattice(lots);
    LatticeClosed(qty, TotalQty(lots));
    if qty > TotalQty(lots) {
      NoDustOnLattice(qty - TotalQty(lots));
    }
    GuardAtNetPrice(costs, qty, bid, ask);
    Distribute(1.0, f, Cost(lots, qty));
  }

  /** After every piece of a guarded order, the profit so far is at least the floor times the basis
      consumed so far, provided the lot boundaries are safe; no proviso once the order is complete. */
  lemma {:induction false} GuardedPiecesKeepFloor(
    doctrine: Doctrine, costs: CostModel, first: Truth, rows: seq<Row>, balance: Option<Balance>,
    qty: real, fills: seq<Row>, bid: real, ask: real)
    requires Lattice(rows) && OnLattice(qty) && qty > 0.0
    requires SellProfitGuard(doctrine, costs, first, AuthoritativeInventory(rows, balance), qty, bid, ask) == Pass
    requires FillsOnTerms(fills, NetPrice(costs, bid, ask)) && Filled(fills) <= qty
    requires Filled(fills) == qty
          || SafeAtBoundaries(Margins(Replay(rows).lots, NetPrice(costs, bid, ask), 1.0 + Floor(doctrine)), qty, 0.0)
    ensures Replay(rows).Ledger? && Replay(rows + fills).Ledger?
    ensures Replay(rows + fills).realized - Replay(rows).realized
         >= Floor(doctrine) * Cost(Replay(rows).lots, Filled(fills))
  {
    hide ExitCost, NetPrice, SellProfitGuard, Floor, UnitCost, Step, TotalQty, Cost, TakeFifo, DropUnits, FillsOnTerms,
         Margins, SafeAtBoundaries, Filled, Keeps, OnLattice;
    PassOnLattice(doctrine, costs, first, rows, balance, qty, bid, ask);
    var lots, price, f, x := Replay(rows).lots, NetPrice(costs, bid, ask), Floor(doctrine), Filled(fills);
    FilledOnLattice(fills, price);
    FillsWalkTheCurve(rows, fills, price);
    if x != qty {
      SafePartKeeps(lots, qty, price, 1.0 + f, x);
    }
    KeepsMeansFloor(lots, x, price, f);
  }

  lemma {:induction false} KeepsMeansFloor(lots: seq<Lot>, x: real, price: real, f: real)
    requires Keeps(lots, x, price, 1.0 + f)
    ensures x * price - Cost(lots, x) >= f * Cost(lots, x)
  {
    hide Cost;
    Distribute(1.0, f, Cost(lots, x));
  }

  lemma {:induction false} GuardAtNetPrice(costs: CostModel, qty: real, bid: real, ask: real)
    ensures qty * NetPrice(costs, bid, ask) == qty * bid - ExitCost(costs, qty, bid, ask)
  {
    var bps := ModeledCostBps(costs, bid, ask);
    assert qty * bid * bps == qty * (bid * bps);
    assert ExitCost(costs, qty, bid, ask) == qty * (bid * bps / 10000.0);
    assert qty * (bid - bid * bps / 10000.0) == qty * bid - qty * (bid * bps / 10000.0);
  }

  lemma {:induction false} OpenLotsOnLattice(rows: seq<Row>)
    requires Lattice(rows) && Replay(rows).Ledger?
    ensures LotsOnLattice(Replay(rows).lots)
  {
    ReplayIsIdealFifo(rows);
    HistoryFacts(rows);
    DropTwice(Buys(rows), Traded(rows, Sell), 0.0);
  }

  // ----- Exactly when the pieces of a guarded order keep the floor -----

  /** A piece as the exchange reports it: at the guard's bid or better, paying at most the modelled exit cost. */
  ghost predicate AtGuardTerms(costs: CostModel, fill: Row, bid: real, ask: real) {
    && fill.side == Sell && fill.qty > 0.0 && OnLattice(fill.qty)
    && OnQuotedTerms(costs, fill, bid, ask)
  }

  ghost predicate AllAtGuardTerms(costs: CostModel, fills: seq<Row>, bid: real, ask: real) {
    forall i :: 0 <= i < |fills| ==> AtGuardTerms(costs, fills[i], bid, ask)
  }

  /** The replayed profit since `rows` is at least `f` times the basis of what was sold. */
  ghost predicate EarnsFloor(rows: seq<Row>, fills: seq<Row>, f: real) {
    && Replay(rows).Ledger? && Replay(rows + fills).Ledger?
    && Replay(rows + fills).realized - Replay(rows).realized >= f * Cost(Replay(rows).lots, Filled(fills))
  }

  lemma {:induction false} TermsAreNet(costs: CostModel, fills: seq<Row>, bid: real, ask: real)
    requires AllAtGuardTerms(costs, fills, bid, ask)
    ensures FillsOnTerms(fills, NetPrice(costs, bid, ask))
  {
    hide NetPrice, OnQuotedTerms, OnLattice;
    forall i | 0 <= i < |fills| ensures OnTerms(fills[i], NetPrice(costs, bid, ask)) {
      assert AtGuardTerms(costs, fills[i], bid, ask);
      OnGuardTerms(costs, fills[i], bid, ask);
    }
  }

  /** Where the walk over the boundaries first goes wrong: a boundary, or the end. */
  lemma {:induction false} FirstBadBoundary(margins: seq<Lot>, q: real, surplus: real) returns (x: real)
    requires LotsOnLattice(margins) && OnLattice(q) && 0.0 < q <= TotalQty(margins) && surplus >= 0.0
    requires !SafeAtBoundaries(margins, q, surplus)
    ensures OnLattice(x) && 0.0 < x <= q && surplus + Cost(margins, x) < 0.0
    decreases |margins|
  {
    hide OnLattice;
    var h := margins[0].qty;
    if q <= h {
      x := q;
      SurplusHead(margins, surplus, q);
    } else if Past(surplus, margins[0]) < 0.0 {
      x := h;
      SurplusHead(margins, surplus, h);
      assert surplus + h * margins[0].unitCost == Past(surplus, margins[0]);
    } else {
      LatticeClosed(q, h);
      var y := FirstBadBoundary(margins[1..], q - h, Past(surplus, margins[0]));
      x := y + h;
      LatticeClosed(y, h);
      assert x - h == y;
      SurplusHead(margins, surplus, x);
    }
  }

  lemma {:induction false} MarginsOnLattice(lots: seq<Lot>, price: real, markup: real)
    requires LotsOnLattice(lots)
    ensures LotsOnLattice(Margins(lots, price, markup))
    decreases lots
  {
    hide OnLattice;
    if lots != [] {
      MarginsOnLattice(lots[1..], price, markup);
      MarginLots(lots, price, markup);
      var margins := Margins(lots, price, markup);
      assert margins == [margins[0]] + margins[1..];
    }
  }

  /** A quantity whose basis is not covered gives a piece on the guard's own terms that misses the floor. */
  lemma {:induction false} UncoveredPieceMisses(
    costs: CostModel, rows: seq<Row>, x: real, bid: real, ask: real, f: real) returns (piece: Row)
    requires Replay(rows).Ledger? && LotsOnLattice(Replay(rows).lots) && OnLattice(x)
    requires 0.0 < x <= TotalQty(Replay(rows).lots) && !Keeps(Replay(rows).lots, x, NetPrice(costs, bid, ask), 1.0 + f)
    ensures AtGuardTerms(costs, piece, bid, ask) && piece.qty == x && !EarnsFloor(rows, [piece], f)
  {
    hide ExitCost, NetPrice, TakeFifo, Cost, DropUnits, OnLattice, TotalQty, UnitCost, LotsOnLattice;
    var lots := Replay(rows).lots;
    piece := Row("", "", Sell, x, x * bid, ExitCost(costs, x, bid, ask), 0);
    assert OnQuotedTerms(costs, piece, bid, ask) by { ExitCostIs(costs, x, bid, ask); }
    hide OnQuotedTerms;
    ReplaySnoc(rows, piece);
    TakeIsDrop(lots, x);
    NoneUnfilled(x, TotalQty(lots));
    SellStep(Replay(rows), piece);
    GuardAtNetPrice(costs, x, bid, ask);
    assert Filled([piece]) == x by { assert [piece][..0] == []; assert Filled([piece][..0]) == 0.0; }
    Distribute(1.0, f, Cost(lots, x));
  }

  lemma {:induction false} NoneUnfilled(x: real, total: real)
    requires x <= total
    ensures Max(0.0, x - total) == 0.0
  {
  }

  /** Main result: the pieces of a guarded order keep the floor in the replayed profit, whatever they are, exactly when
      the running surplus is nonnegative at the lot boundaries inside the order. */
  lemma {:induction false} GuardedPiecesKeepFloorIff(
    doctrine: Doctrine, costs: CostModel, first: Truth, rows: seq<Row>, balance: Option<Balance>,
    qty: real, bid: real, ask: real)
    requires Lattice(rows) && OnLattice(qty) && qty > 0.0
    requires SellProfitGuard(doctrine, costs, first, AuthoritativeInventory(rows, balance), qty, bid, ask) == Pass
    ensures Replay(rows).Ledger?
    ensures SafeAtBoundaries(Margins(Replay(rows).lots, NetPrice(costs, bid, ask), 1.0 + Floor(doctrine)), qty, 0.0)
       <==> forall fills :: AllAtGuardTerms(costs, fills, bid, ask) && Filled(fills) <= qty ==>
              EarnsFloor(rows, fills, Floor(doctrine))
  {
    hide ExitCost, NetPrice, SellProfitGuard, Floor, UnitCost, Step, TotalQty, Cost, TakeFifo, DropUnits, FillsOnTerms,
         Margins, SafeAtBoundaries, Filled, Keeps, OnLattice, AllAtGuardTerms, AuthoritativeInventory, LotsOnLattice, Replay;
    PassOnLattice(doctrine, costs, first, rows, balance, qty, bid, ask);
    var lots, price, f := Replay(rows).lots, NetPrice(costs, bid, ask), Floor(doctrine);
    var margins := Margins(lots, price, 1.0 + f);
    if SafeAtBoundaries(margins, qty, 0.0) {
      forall fills | AllAtGuardTerms(costs, fills, bid, ask) && Filled(fills) <= qty ensures EarnsFloor(rows, fills, f) {
        TermsAreNet(costs, fills, bid, ask);
        GuardedPiecesKeepFloor(doctrine, costs, first, rows, balance, qty, fills, bid, ask);
      }
    } else {
      var piece := UnsafeBoundaryPiece(costs, rows, qty, bid, ask, f);
      assert !EarnsFloor(rows, [piece], f);
    }
  }

  lemma {:induction false} UnsafeBoundaryPiece(
    costs: CostModel, rows: seq<Row>, qty: real, bid: real, ask: real, f: real) returns (piece: Row)
    requires Replay(rows).Ledger? && LotsOnLattice(Replay(rows).lots) && OnLattice(qty)
    requires 0.0 < qty <= TotalQty(Replay(rows).lots)
    requires !SafeAtBoundaries(Margins(Replay(rows).lots, NetPrice(costs, bid, ask), 1.0 + f), qty, 0.0)
    ensures AllAtGuardTerms(costs, [piece], bid, ask) && Filled([piece]) <= qty && !EarnsFloor(rows, [piece], f)
  {
    hide ExitCost, NetPrice, Cost, OnLattice, Margins, SafeAtBoundaries, Replay, TotalQty, AtGuardTerms, EarnsFloor;
    var lots, price := Replay(rows).lots, NetPrice(costs, bid, ask);
    MarginsOnLattice(lots, price, 1.0 + f);
    MarginShape(lots, price, 1.0 + f);
    var x := FirstBadBoundary(Margins(lots, price, 1.0 + f), qty, 0.0);
    MarginCost(lots, x, price, 1.0 + f);
    piece := UncoveredPieceMisses(costs, rows, x, bid, ask, f);
    assert [piece][..0] == [];
    assert Filled([piece][..0]) == 0.0;
  }

  /** With the cheapest lots first, every piece of a guarded order keeps the floor. */
  lemma {:induction false} CheapLotsFirstKeepFloor(
    doctrine: Doctrine, costs: CostModel, first: Truth, rows: seq<Row>, balance: Option<Balance>,
    qty: real, fills: seq<Row>, bid: real, ask: real)
    requires Lattice(rows) && OnLattice(qty) && qty > 0.0
    requires Replay(rows).Ledger? ==> CostsNondecreasing(Replay(rows).lots)
    requires SellProfitGuard(doctrine, costs, first, AuthoritativeInventory(rows, balance), qty, bid, ask) == Pass
    requires AllAtGuardTerms(costs, fills, bid, ask) && Filled(fills) <= qty
    ensures EarnsFloor(rows, fills, Floor(doctrine))
  {
    hide ExitCost, NetPrice, SellProfitGuard, UnitCost, Step, TotalQty, Cost, TakeFifo, DropUnits, FillsOnTerms,
         Margins, SafeAtBoundaries, Filled, Keeps, OnLattice, AllAtGuardTerms, AuthoritativeInventory, Replay,
         CostsNondecreasing, EarnsFloor, Floor;
    PassOnLattice(doctrine, costs, first, rows, balance, qty, bid, ask);
    NondecreasingCostsAreSafe(Replay(rows).lots, qty, NetPrice(costs, bid, ask), 1.0 + Floor(doctrine));
    GuardedPiecesKeepFloorIff(doctrine, costs, first, rows, balance, qty, bid, ask);
  }

  const DEAR_BUY := Row("a", "", Buy, 1.0, 100.0, 0.0, 0)
  const CHEAP_BUY := Row("b", "", Buy, 1.0, 1.0, 0.0, 1)
  const HALF_SOLD := Row("s", "", Sell, 1.0, 60.0, 0.0, 2)
  const PLAIN_DOCTRINE := Doctrine(true, true, true, 120.0)
  const NO_COSTS := CostModel(0.0, 0.0)

  /** A concrete case: an expensive old lot ahead of a cheap one, a passed guard, and a first piece that loses. */
  lemma {:induction false} PassedGuardLosingPiece()
    ensures var rows := [DEAR_BUY, CHEAP_BUY];
            var truth := AuthoritativeInventory(rows, Some(Balance(2.0, 2.0, 0.0)));
            && SellProfitGuard(PLAIN_DOCTRINE, NO_COSTS, truth, truth, 2.0, 60.0, 60.0) == Pass
            && Replay(rows + [HALF_SOLD]).Ledger?
            && Replay(rows + [HALF_SOLD]).realized == Replay(rows).realized - 40.0
  {
    hide AuthoritativeInventory, SellProfitGuard, Replay;
    BooksOfTwo();
    PassesAtSixty(AuthoritativeInventory([DEAR_BUY, CHEAP_BUY], Some(Balance(2.0, 2.0, 0.0))));
    HalfLoses();
  }

  lemma {:induction false} BooksOfTwo()
    ensures var truth := AuthoritativeInventory([DEAR_BUY, CHEAP_BUY], Some(Balance(2.0, 2.0, 0.0)));
            truth.Truth? && truth.free == 2.0 && BasisForQty(truth.lots, 2.0) == Some(101.0)
  {
    DearThenCheap();
    BothSold();
    hide Replay, Peek, TotalQty, TotalBasis, ModeledCostBps;
  }

  lemma {:induction false} HalfLoses()
    ensures var rows := [DEAR_BUY, CHEAP_BUY];
            Replay(rows + [HALF_SOLD]).Ledger? && Replay(rows).Ledger?
            && Replay(rows + [HALF_SOLD]).realized == Replay(rows).realized - 40.0
  {
    DearThenCheap();
    DearSold();
    ReplaySnoc([DEAR_BUY, CHEAP_BUY], HALF_SOLD);
    hide Replay, TakeFifo, TotalQty;
  }

  lemma {:induction false} PassesAtSixty(truth: Truth)
    requires truth.Truth? && truth.free == 2.0 && BasisForQty(truth.lots, 2.0) == Some(101.0)
    ensures SellProfitGuard(PLAIN_DOCTRINE, NO_COSTS, truth, truth, 2.0, 60.0, 60.0) == Pass
  {
    hide ExitCost, BasisForQty, Max;
    FreeExit();
    FloorMet();
  }

  lemma {:induction false} FreeExit()
    ensures ExitCost(NO_COSTS, 2.0, 60.0, 60.0) == 0.0
  {
    BothSold();
    hide ModeledCostBps;
  }

  lemma {:induction false} FloorMet()
    ensures 19.0 / Max(101.0, 0.000000001) * 10000.0 >= Max(120.0, 120.0)
    ensures Max(0.00000001, 2.0 * 0.02) >= 0.0
  {
    assert Max(101.0, 0.000000001) == 101.0;
  }

  lemma {:induction false} DearThenCheap()
    ensures Replay([DEAR_BUY, CHEAP_BUY]) == Ledger([Lot(1.0, 100.0), Lot(1.0, 1.0)], 0.0)
    ensures TotalQty([Lot(1.0, 100.0), Lot(1.0, 1.0)]) == 2.0
  {
    assert UnitCost(DEAR_BUY) == 100.0 && UnitCost(CHEAP_BUY) == 1.0;
    assert [DEAR_BUY, CHEAP_BUY][..1] == [DEAR_BUY] && [DEAR_BUY][..0] == [];
    assert Replay([DEAR_BUY]) == Ledger([Lot(1.0, 100.0)], 0.0);
    assert [Lot(1.0, 100.0)] + [Lot(1.0, 1.0)] == [Lot(1.0, 100.0), Lot(1.0, 1.0)];
    assert [Lot(1.0, 100.0), Lot(1.0, 1.0)][1..] == [Lot(1.0, 1.0)] && [Lot(1.0, 1.0)][1..] == [];
    assert TotalQty([Lot(1.0, 1.0)]) == 1.0;
  }

  lemma {:induction false} BothSold()
    ensures Peek([Lot(1.0, 100.0), Lot(1.0, 1.0)], 2.0).0 == 101.0
    ensures Peek([Lot(1.0, 100.0), Lot(1.0, 1.0)], 2.0).1 == 0.0
    ensures ModeledCostBps(NO_COSTS, 60.0, 60.0) == 0.0
  {
    assert [Lot(1.0, 100.0), Lot(1.0, 1.0)][1..] == [Lot(1.0, 1.0)] && [Lot(1.0, 1.0)][1..] == [];
    assert Peek([Lot(1.0, 1.0)], 1.0).0 == 1.0 && Peek([Lot(1.0, 1.0)], 1.0).1 == 0.0;
  }

  lemma {:induction false} DearSold()
    ensures TakeFifo([Lot(1.0, 100.0), Lot(1.0, 1.0)], 1.0) == Take(100.0, 0.0, [Lot(1.0, 1.0)])
  {
    assert [Lot(1.0, 100.0), Lot(1.0, 1.0)][1..] == [Lot(1.0, 1.0)];
    assert TakeFifo([Lot(1.0, 1.0)], 0.0) == Take(0.0, 0.0, [Lot(1.0, 1.0)]);
  }
}
