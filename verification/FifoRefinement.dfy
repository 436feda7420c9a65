/** On histories whose quantities are multiples of 1e-8 (the precision orders are sent with)
    the tolerance-laden replay is the textbook FIFO: one cost curve over every unit ever bought,
    sells walking along it. */
module FifoRefinement {
  import opened FifoLedger

  const UNITS: real := 100000000.0

  predicate IsUnits(x: real, n: int) {
    x * UNITS == n as real
  }

  ghost predicate OnLattice(x: real) {
    exists n: int :: IsUnits(x, n)
  }

  ghost predicate Lattice(rows: seq<Row>) {
    forall i :: 0 <= i < |rows| ==> OnLattice(rows[i].qty)
  }

  ghost predicate LotsOnLattice(lots: seq<Lot>) {
    forall i :: 0 <= i < |lots| ==> lots[i].qty > 0.0 && OnLattice(lots[i].qty)
  }

  lemma {:induction false} LatticeClosed(x: real, y: real)
    requires OnLattice(x) && OnLattice(y)
    ensures OnLattice(x - y) && OnLattice(x + y)
  {
    var n :| IsUnits(x, n);
    var m :| IsUnits(y, m);
    assert IsUnits(x - y, n - m) && IsUnits(x + y, n + m);
  }

  /** No lattice quantity hides inside a tolerance. */
  lemma {:induction false} NoDustOnLattice(x: real)
    requires OnLattice(x) && x <= GAP
    ensures x <= 0.0
  {
    var n :| IsUnits(x, n);
    assert n < 1;
  }

  // ----- The ideal: one cost curve -----

  /** Cost of the first `x` units of a buy sequence. */
  function Cost(buys: seq<Lot>, x: real): real
    decreases buys
  {
    if buys == [] || x <= 0.0 then 0.0
    else Min(x, buys[0].qty) * buys[0].unitCost + Cost(buys[1..], x - Min(x, buys[0].qty))
  }

  /** What remains of a buy sequence once its first `x` units are gone. */
  function DropUnits(buys: seq<Lot>, x: real): seq<Lot>
    decreases buys
  {
    if buys == [] || x <= 0.0 then buys
    else if x >= buys[0].qty then DropUnits(buys[1..], x - buys[0].qty)
    else [Lot(buys[0].qty - x, buys[0].unitCost)] + buys[1..]
  }

  function Buys(rows: seq<Row>): seq<Lot> {
    if rows == [] then []
    else
      var row := rows[|rows| - 1];
      Buys(rows[..|rows| - 1]) + if row.side == Buy && row.qty > 0.0 then [Lot(row.qty, UnitCost(row))] else []
  }

  function Traded(rows: seq<Row>, side: Side): real {
    if rows == [] then 0.0
    else
      var row := rows[|rows| - 1];
      Traded(rows[..|rows| - 1], side) + if row.side == side && row.qty > 0.0 then row.qty else 0.0
  }

  /** Quote received for sells, net of fees. */
  function Proceeds(rows: seq<Row>): real {
    if rows == [] then 0.0
    else
      var row := rows[|rows| - 1];
      Proceeds(rows[..|rows| - 1]) + if row.side == Sell && row.qty > 0.0 then row.quoteCost - row.fee else 0.0
  }

  ghost predicate NeverOversold(rows: seq<Row>) {
    forall k :: 0 <= k <= |rows| ==> Traded(rows[..k], Sell) <= Traded(rows[..k], Buy)
  }

  // ----- One sell -----

  lemma {:induction false} TakeIsDrop(lots: seq<Lot>, want: real)
    requires LotsOnLattice(lots) && OnLattice(want) && want >= 0.0
    ensures TakeFifo(lots, want) == Take(Cost(lots, want), Max(0.0, want - TotalQty(lots)), DropUnits(lots, want))
    ensures LotsOnLattice(DropUnits(lots, want))
    decreases lots
  {
    TotalNonnegative(lots);
    if want <= DUST {
      NoDustOnLattice(want);
    } else if lots != [] {
      var used := Min(want, lots[0].qty);
      LatticeClosed(want, used);
      LatticeClosed(lots[0].qty, used);
      if lots[0].qty - used <= DUST {
        NoDustOnLattice(lots[0].qty - used);
        TakeIsDrop(lots[1..], want - used);
      } else {
        TotalNonnegative(lots[1..]);
      }
    }
  }

  lemma {:induction false} TotalNonnegative(lots: seq<Lot>)
    requires LotsOnLattice(lots)
    ensures TotalQty(lots) >= 0.0
    decreases lots
  {
    if lots != [] { TotalNonnegative(lots[1..]); }
  }

  lemma {:induction false} TotalPositive(lots: seq<Lot>)
    requires PositiveLots(lots)
    ensures TotalQty(lots) >= 0.0
    decreases lots
  {
    if lots != [] { TotalPositive(lots[1..]); }
  }

  lemma {:induction false} DropTwice(buys: seq<Lot>, s: real, q: real)
    requires LotsOnLattice(buys) && OnLattice(s) && s >= 0.0 && q >= 0.0
    ensures LotsOnLattice(DropUnits(buys, s))
    ensures DropUnits(DropUnits(buys, s), q) == DropUnits(buys, s + q)
    decreases buys
  {
    if buys != [] && s > 0.0 {
      var head, rest := buys[0], buys[1..];
      if s >= head.qty {
        LatticeClosed(s, head.qty);
        DropTwice(rest, s - head.qty, q);
        assert s + q - head.qty == s - head.qty + q;
      } else {
        LatticeClosed(head.qty, s);
        var left := Lot(head.qty - s, head.unitCost);
        assert DropUnits(buys, s) == [left] + rest;
        assert ([left] + rest)[1..] == rest;
        assert q - left.qty == s + q - head.qty;
      }
    }
  }

  lemma {:induction false} CostPastHead(buys: seq<Lot>, x: real)
    requires buys != [] && 0.0 < buys[0].qty <= x
    ensures Cost(buys, x) == buys[0].qty * buys[0].unitCost + Cost(buys[1..], x - buys[0].qty)
  {
  }

  lemma {:induction false} CostOfRest(buys: seq<Lot>, s: real, q: real)
    requires LotsOnLattice(buys) && s >= 0.0 && q >= 0.0
    ensures Cost(DropUnits(buys, s), q) == Cost(buys, s + q) - Cost(buys, s)
    decreases buys
  {
    if buys != [] && s > 0.0 {
      if s >= buys[0].qty {
        CostOfRest(buys[1..], s - buys[0].qty, q);
        CostPastHead(buys, s);
        CostPastHead(buys, s + q);
        assert s + q - buys[0].qty == s - buys[0].qty + q;
      } else {
        CostInsideHead(buys, s, q);
      }
    }
  }

  lemma {:induction false} CostInsideHead(buys: seq<Lot>, s: real, q: real)
    requires buys != [] && 0.0 < s < buys[0].qty && q >= 0.0
    ensures Cost(DropUnits(buys, s), q) == Cost(buys, s + q) - Cost(buys, s)
  {
    var head, rest := buys[0], buys[1..];
    var left := Lot(head.qty - s, head.unitCost);
    var drop := [left] + rest;
    assert DropUnits(buys, s) == drop && drop[0] == left && drop[1..] == rest;
    var taken := Min(q, left.qty);
    assert Min(s + q, head.qty) == s + taken;
    assert Cost(buys, s) == s * head.unitCost + Cost(rest, s - s);
    assert Cost(buys, s + q) == (s + taken) * head.unitCost + Cost(rest, s + q - (s + taken));
    assert s + q - (s + taken) == q - taken;
    assert Cost(drop, q) == taken * head.unitCost + Cost(rest, q - taken);
    assert (s + taken) * head.unitCost == s * head.unitCost + taken * head.unitCost;
  }

  lemma {:induction false} RestQty(buys: seq<Lot>, s: real)
    requires LotsOnLattice(buys) && 0.0 <= s <= TotalQty(buys)
    ensures TotalQty(DropUnits(buys, s)) == TotalQty(buys) - s
    decreases buys
  {
    if buys != [] && s > 0.0 {
      if s >= buys[0].qty {
        RestQty(buys[1..], s - buys[0].qty);
      } else {
        assert ([Lot(buys[0].qty - s, buys[0].unitCost)] + buys[1..])[1..] == buys[1..];
      }
    }
  }

  // ----- Later buys do not disturb earlier units -----

  lemma {:induction false} LaterBuysCost(buys: seq<Lot>, more: seq<Lot>, x: real)
    requires LotsOnLattice(buys) && x <= TotalQty(buys)
    ensures Cost(buys + more, x) == Cost(buys, x)
    decreases buys
  {
    if x <= 0.0 {
    } else if buys == [] {
      assert false;
    } else {
      var all := buys + more;
      assert all[0] == buys[0] && all[1..] == buys[1..] + more;
      TotalNonnegative(buys[1..]);
      LaterBuysCost(buys[1..], more, x - Min(x, buys[0].qty));
    }
  }

  lemma {:induction false} LaterBuysRest(buys: seq<Lot>, more: seq<Lot>, x: real)
    requires LotsOnLattice(buys) && x <= TotalQty(buys)
    ensures DropUnits(buys + more, x) == DropUnits(buys, x) + more
    decreases buys
  {
    if buys == [] {
      assert buys + more == more;
    } else if x > 0.0 {
      var all := buys + more;
      assert all[0] == buys[0] && all[1..] == buys[1..] + more;
      if x >= buys[0].qty {
        LaterBuysRest(buys[1..], more, x - buys[0].qty);
      } else {
        hide TotalQty, LotsOnLattice;
        var left := [Lot(buys[0].qty - x, buys[0].unitCost)];
        assert left + (buys[1..] + more) == left + buys[1..] + more;
      }
    }
  }

  lemma {:induction false} TotalAppend(lots: seq<Lot>, more: seq<Lot>)
    ensures TotalQty(lots + more) == TotalQty(lots) + TotalQty(more)
    decreases lots
  {
    if lots == [] {
      assert lots + more == more;
    } else {
      assert (lots + more)[1..] == lots[1..] + more;
      TotalAppend(lots[1..], more);
    }
  }

  // ----- The whole history -----

  lemma {:induction false} BuyLots(rows: seq<Row>)
    requires Lattice(rows)
    ensures LotsOnLattice(Buys(rows))
    decreases |rows|
  {
    if rows != [] {
      BuyLots(rows[..|rows| - 1]);
    }
  }

  lemma {:induction false} BoughtIsTotal(rows: seq<Row>)
    ensures TotalQty(Buys(rows)) == Traded(rows, Buy)
    decreases |rows|
  {
    if rows != [] {
      var before := Buys(rows[..|rows| - 1]);
      var last := Buys(rows)[|before|..];
      BoughtIsTotal(rows[..|rows| - 1]);
      TotalAppend(before, last);
      assert Buys(rows) == before + last;
      assert last != [] ==> last[1..] == [];
    }
  }

  lemma {:induction false} SoldOnLattice(rows: seq<Row>)
    requires Lattice(rows)
    ensures OnLattice(Traded(rows, Sell)) && Traded(rows, Sell) >= 0.0
    decreases |rows|
  {
    if rows == [] {
      assert IsUnits(0.0, 0);
    } else {
      SoldOnLattice(rows[..|rows| - 1]);
      LatticeClosed(Traded(rows[..|rows| - 1], Sell), rows[|rows| - 1].qty);
    }
  }

  lemma {:induction false} HistoryFacts(rows: seq<Row>)
    requires Lattice(rows)
    ensures LotsOnLattice(Buys(rows)) && TotalQty(Buys(rows)) == Traded(rows, Buy)
    ensures OnLattice(Traded(rows, Sell)) && Traded(rows, Sell) >= 0.0
  {
    BuyLots(rows);
    BoughtIsTotal(rows);
    SoldOnLattice(rows);
  }

  lemma {:induction false} NeverOversoldSnoc(rows: seq<Row>)
    requires rows != []
    ensures NeverOversold(rows) <==> NeverOversold(rows[..|rows| - 1]) && Traded(rows, Sell) <= Traded(rows, Buy)
  {
    var shorter := rows[..|rows| - 1];
    assert forall k :: 0 <= k < |rows| ==> shorter[..k] == rows[..k];
    assert rows[..|rows|] == rows;
    if NeverOversold(rows) {
      forall k | 0 <= k <= |shorter| ensures Traded(shorter[..k], Sell) <= Traded(shorter[..k], Buy) {
        assert shorter[..k] == rows[..k];
      }
    }
    if NeverOversold(shorter) && Traded(rows, Sell) <= Traded(rows, Buy) {
      forall k | 0 <= k <= |rows| ensures Traded(rows[..k], Sell) <= Traded(rows[..k], Buy) {
        if k < |rows| { assert shorter[..k] == rows[..k]; }
      }
    }
  }

  /** The replay accepts exactly the histories that never oversell; its queue is every buy with the
      sold units removed from the front, and its profit is proceeds minus the cost curve. */
  lemma {:induction false} ReplayIsIdealFifo(rows: seq<Row>)
    requires Lattice(rows)
    ensures Replay(rows).Ledger? <==> NeverOversold(rows)
    ensures Replay(rows).Ledger? ==> IsIdeal(rows)
    decreases |rows|
  {
    if rows == [] {
      assert rows[..0] == rows;
    } else {
      var n := |rows| - 1;
      ReplayIsIdealFifo(rows[..n]);
      NeverOversoldSnoc(rows);
      if NeverOversold(rows[..n]) {
        assert rows[..n][..n] == rows[..n];
        IdealStep(rows);
      }
    }
  }

  /** One sell after `sold` units have gone, in terms of the cost curve alone. */
  lemma {:induction false} SellAlongCurve(buys: seq<Lot>, sold: real, q: real)
    requires LotsOnLattice(buys) && OnLattice(sold) && OnLattice(q) && q >= 0.0
    requires 0.0 <= sold <= TotalQty(buys)
    ensures var take := TakeFifo(DropUnits(buys, sold), q);
            && (take.unfilled > GAP <==> sold + q > TotalQty(buys))
            && take.basis == Cost(buys, sold + q) - Cost(buys, sold)
            && take.lots == DropUnits(buys, sold + q)
  {
    CostOfRest(buys, sold, q);
    DropTwice(buys, sold, q);
    TakeIsDrop(DropUnits(buys, sold), q);
    RestQty(buys, sold);
    TotalOnLattice(buys);
    LatticeClosed(sold, q);
    LatticeClosed(sold + q, TotalQty(buys));
    if q - TotalQty(DropUnits(buys, sold)) <= GAP {
      NoDustOnLattice(sold + q - TotalQty(buys));
    }
  }

  ghost predicate IsIdeal(rows: seq<Row>) {
    Replay(rows) == Ledger(DropUnits(Buys(rows), Traded(rows, Sell)),
                           Proceeds(rows) - Cost(Buys(rows), Traded(rows, Sell)))
  }

  /** What the last row adds to each running total. */
  lemma {:induction false} LastRow(rows: seq<Row>)
    requires rows != []
    ensures var before, row := rows[..|rows| - 1], rows[|rows| - 1];
            && Replay(rows) == Step(Replay(before), row)
            && (row.qty > 0.0 && row.side == Buy ==>
                  && Buys(rows) == Buys(before) + [Lot(row.qty, UnitCost(row))]
                  && Traded(rows, Buy) == Traded(before, Buy) + row.qty && Traded(rows, Sell) == Traded(before, Sell)
                  && Proceeds(rows) == Proceeds(before))
            && (row.qty > 0.0 && row.side == Sell ==>
                  && Buys(rows) == Buys(before) && Traded(rows, Sell) == Traded(before, Sell) + row.qty
                  && Traded(rows, Buy) == Traded(before, Buy)
                  && Proceeds(rows) == Proceeds(before) + (row.quoteCost - row.fee))
            && (row.qty <= 0.0 || row.side == OtherSide ==>
                  && Buys(rows) == Buys(before) && Proceeds(rows) == Proceeds(before)
                  && Traded(rows, Sell) == Traded(before, Sell) && Traded(rows, Buy) == Traded(before, Buy))
  {
    hide Step, UnitCost;
  }

  lemma {:induction false} IdealStep(rows: seq<Row>)
    requires rows != [] && Lattice(rows)
    requires IsIdeal(rows[..|rows| - 1])
    requires Traded(rows[..|rows| - 1], Sell) <= Traded(rows[..|rows| - 1], Buy)
    ensures Replay(rows).Ledger? <==> Traded(rows, Sell) <= Traded(rows, Buy)
    ensures Replay(rows).Ledger? ==> IsIdeal(rows)
  {
    hide TakeFifo, Cost, DropUnits, UnitCost, OnLattice, TotalQty, Replay, Buys, Traded, Proceeds;
    var before, row := rows[..|rows| - 1], rows[|rows| - 1];
    var buys, sold := Buys(before), Traded(before, Sell);
    HistoryFacts(before);
    LastRow(rows);
    if row.qty > 0.0 && row.side == Buy {
      LaterBuysCost(buys, [Lot(row.qty, UnitCost(row))], sold);
      LaterBuysRest(buys, [Lot(row.qty, UnitCost(row))], sold);
    } else if row.qty > 0.0 && row.side == Sell {
      SellAlongCurve(buys, sold, row.qty);
    }
  }

  lemma {:induction false} TotalOnLattice(lots: seq<Lot>)
    requires LotsOnLattice(lots)
    ensures OnLattice(TotalQty(lots))
    decreases lots
  {
    if lots == [] {
      assert IsUnits(0.0, 0);
    } else {
      TotalOnLattice(lots[1..]);
      LatticeClosed(lots[0].qty, TotalQty(lots[1..]));
    }
  }

  lemma {:induction false} BuysPrefix(rows: seq<Row>, k: nat) returns (more: seq<Lot>)
    requires k <= |rows|
    ensures Buys(rows) == Buys(rows[..k]) + more
    decreases |rows|
  {
    if k == |rows| {
      assert rows[..k] == rows;
      more := [];
    } else {
      var shorter := rows[..|rows| - 1];
      more := BuysPrefix(shorter, k);
      assert shorter[..k] == rows[..k];
      more := more + Buys(rows)[|Buys(shorter)|..];
    }
  }

  lemma {:induction false} AcceptedSell(before: seq<Row>, row: Row)
    requires Lattice(before) && OnLattice(row.qty) && row.side == Sell && row.qty > 0.0
    requires Replay(before).Ledger? && Step(Replay(before), row).Ledger?
    ensures var sold := Traded(before, Sell);
            && LotsOnLattice(Buys(before)) && 0.0 <= sold && sold + row.qty <= TotalQty(Buys(before))
            && TakeFifo(Replay(before).lots, row.qty).basis
               == Cost(Buys(before), sold + row.qty) - Cost(Buys(before), sold)
  {
    ReplayIsIdealFifo(before);
    assert before[..|before|] == before;
    HistoryFacts(before);
    SellAlongCurve(Buys(before), Traded(before, Sell), row.qty);
  }

  /** Every sell is charged the increment of one cost curve, fixed by all the buys of the history. */
  lemma {:induction false} SellChargedAlongCurve(rows: seq<Row>, k: nat)
    requires Lattice(rows) && Replay(rows).Ledger?
    requires k < |rows| && rows[k].side == Sell && rows[k].qty > 0.0
    ensures Replay(rows[..k]).Ledger?
    ensures TakeFifo(Replay(rows[..k]).lots, rows[k].qty).basis
         == Cost(Buys(rows), Traded(rows[..k + 1], Sell)) - Cost(Buys(rows), Traded(rows[..k], Sell))
  {
    hide TakeFifo, Cost, UnitCost;
    var before := rows[..k];
    PrefixAccepted(rows, k);
    PrefixAccepted(rows, k + 1);
    assert rows[..k + 1] == before + [rows[k]];
    ReplaySnoc(before, rows[k]);
    AcceptedSell(before, rows[k]);
    var sold := Traded(before, Sell);
    assert (before + [rows[k]])[..k] == before;
    var more := BuysPrefix(rows, k);
    LaterBuysCost(Buys(before), more, sold);
    LaterBuysCost(Buys(before), more, sold + rows[k].qty);
  }

  /** Off the lattice the characterisation fails: an oversell inside the tolerance is accepted. */
  lemma {:induction false} OversellInsideTolerance()
    ensures var rows := [Row("b", "", Buy, 1.0, 1.0, 0.0, 0), Row("s", "", Sell, 1.0000000005, 2.0, 0.0, 1)];
            Replay(rows).Ledger? && !NeverOversold(rows)
  {
    var buy := Row("b", "", Buy, 1.0, 1.0, 0.0, 0);
    var sell := Row("s", "", Sell, 1.0000000005, 2.0, 0.0, 1);
    var rows := [buy, sell];
    assert rows[..1] == [buy] && [buy][..0] == [] && rows[..2] == rows;
    assert UnitCost(buy) == 1.0;
    var queue := [Lot(1.0, 1.0)];
    assert Replay([buy]) == Ledger(queue, 0.0);
    assert queue[1..] == [];
    var rest := TakeFifo([], 0.0000000005);
    assert TakeFifo(queue, sell.qty).unfilled == rest.unfilled;
    assert Replay(rows) == Step(Replay([buy]), sell);
    assert Traded([buy], Sell) == 0.0 && Traded([buy], Buy) == 1.0;
    assert Traded(rows[..2], Sell) > Traded(rows[..2], Buy);
  }
}
