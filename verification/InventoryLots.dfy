/** The local inventory of notional lots: buys append, sells eat the buys in order and leave a short lot for
    what they could not eat. */
module InventoryLots {
  import opened FifoLedger

  /** Lots at or below this are dropped after every fill. */
  const KEEP: real := 0.000000001

  /** `openedTs`, `exitCostBps` and `reserved` are annotations: a rebuild does not restore them. */
  datatype NotionalLot = NotionalLot(
    isBuy: bool, remaining: real, entry: real, feesPaid: real, sourceFillId: string, sourceOrderId: string,
    openedTs: int, exitCostBps: real, reserved: real)

  datatype Fill = Fill(
    symbol: string, isBuy: bool, notional: real, fee: real, slippageCost: real, fillId: string, orderId: string)

  datatype Annotation = Annotation(openedTs: int, exitCostBps: real, reserved: real)

  // ----- Specification -----

  /** A sell of `want` against the buy lots in order: the reduced lots, and what was not covered. */
  function Eat(lots: seq<NotionalLot>, want: real): (r: (seq<NotionalLot>, real))
    ensures |r.0| == |lots|
  {
    if lots == [] || want <= 0.0 then (lots, want)
    else if !lots[0].isBuy || lots[0].remaining <= 0.0 then
      var rest := Eat(lots[1..], want);
      ([lots[0]] + rest.0, rest.1)
    else
      var used := Min(lots[0].remaining, want);
      var rest := Eat(lots[1..], want - used);
      ([lots[0].(remaining := lots[0].remaining - used)] + rest.0, rest.1)
  }

  function Keep(lots: seq<NotionalLot>): seq<NotionalLot> {
    if lots == [] then []
    else (if lots[0].remaining > KEEP then [lots[0]] else []) + Keep(lots[1..])
  }

  function NewLot(fill: Fill, isBuy: bool, notional: real, note: Annotation): NotionalLot {
    NotionalLot(isBuy, notional, notional, fill.fee + fill.slippageCost, fill.fillId, fill.orderId,
                note.openedTs, note.exitCostBps, if isBuy then note.reserved else 0.0)
  }

  function AfterFill(lots: seq<NotionalLot>, fill: Fill, note: Annotation): seq<NotionalLot> {
    if fill.isBuy then
      Keep(lots + [NewLot(fill, true, fill.notional, note)])
    else
      var (eaten, short) := Eat(lots, fill.notional);
      Keep(if short > 0.0 then eaten + [NewLot(fill, false, short, note)] else eaten)
  }

  // ----- The service -----

  class InventoryService {
    var lots: map<string, seq<NotionalLot>>

    /** Lots of a symbol; a symbol never seen has none. */
    function Lots(symbol: string): seq<NotionalLot>
      reads this
    {
      if symbol in lots then lots[symbol] else []
    }

    constructor ()
      ensures lots == map[]
    {
      lots := map[];
    }

    method Clear()
      modifies this
      ensures lots == map[]
    {
      lots := map[];
    }

    method UpdateFromFill(fill: Fill, note: Annotation) returns (after: seq<NotionalLot>)
      modifies this
      ensures lots == old(lots)[fill.symbol := AfterFill(old(Lots(fill.symbol)), fill, note)]
      ensures after == Lots(fill.symbol)
    {
      var queue := Lots(fill.symbol);
      if fill.isBuy {
        queue := queue + [NewLot(fill, true, fill.notional, note)];
      } else {
        var remaining;
        queue, remaining := EatLots(queue, fill.notional);
        if remaining > 0.0 {
          queue := queue + [NewLot(fill, false, remaining, note)];
        }
      }
      lots := lots[fill.symbol := Keep(queue)];
      after := lots[fill.symbol];
    }

    /** The reducing loop of a sell. */
    static method EatLots(was: seq<NotionalLot>, want: real) returns (queue: seq<NotionalLot>, remaining: real)
      ensures queue == Eat(was, want).0 && remaining == Eat(was, want).1
    {
      hide Eat, Min;
      queue, remaining := was, want;
      ghost var done: seq<NotionalLot> := [];
      var i := 0;
      assert was[0..] == was;
      while i < |queue| && remaining > 0.0
        invariant 0 <= i == |done| <= |was| && queue == done + was[i..]
        invariant done + Eat(was[i..], remaining).0 == Eat(was, want).0
        invariant Eat(was[i..], remaining).1 == Eat(was, want).1
      {
        EatHead(was, i, remaining);
        assert queue[i] == was[i] by { OneEaten(done, was, i, 0.0, []); }
        var used := if queue[i].isBuy && queue[i].remaining > 0.0 then Min(queue[i].remaining, remaining) else 0.0;
        OneEaten(done, was, i, used, Eat(was[i + 1..], remaining - used).0);
        done := done + [was[i].(remaining := was[i].remaining - used)];
        if queue[i].isBuy && queue[i].remaining > 0.0 {
          queue := queue[i := queue[i].(remaining := queue[i].remaining - used)];
          remaining := remaining - used;
        }
        i := i + 1;
      }
      EatNothing(was[i..], remaining);
    }

    /** Clears and refolds the usable events of a fill log; `None` is an event that did not parse. */
    method RehydrateFromEvents(events: seq<Option<Logged>>)
      modifies this
      ensures forall symbol :: Lots(symbol) == Rebuilt(events, symbol)
    {
      Clear();
      for i := 0 to |events|
        invariant forall symbol :: Lots(symbol) == Rebuilt(events[..i], symbol)
      {
        assert events[..i + 1][..i] == events[..i];
        if events[i].Some? && events[i].value.fill.notional > 0.0 && events[i].value.fill.symbol != "" {
          var after := UpdateFromFill(events[i].value.fill, events[i].value.note);
        }
      }
      assert events[..|events|] == events;
    }
  }

  /** The queue around position `i`, before and after the lot there is reduced by `used`. */
  lemma {:induction false} OneEaten(
    done: seq<NotionalLot>, was: seq<NotionalLot>, i: nat, used: real, rest: seq<NotionalLot>)
    requires i == |done| < |was|
    ensures var queue, lot := done + was[i..], was[i].(remaining := was[i].remaining - used);
            && queue[i] == was[i] && queue[i := lot] == done + [lot] + was[i + 1..]
            && (used == 0.0 ==> queue == done + [lot] + was[i + 1..])
            && done + ([lot] + rest) == done + [lot] + rest
  {
    assert was[i..] == [was[i]] + was[i + 1..];
  }

  lemma {:induction false} EatNothing(lots: seq<NotionalLot>, want: real)
    requires lots == [] || want <= 0.0
    ensures Eat(lots, want).0 == lots && Eat(lots, want).1 == want
  {
  }

  lemma {:induction false} EatHead(was: seq<NotionalLot>, i: nat, want: real)
    requires i < |was| && want > 0.0
    ensures var used := if was[i].isBuy && was[i].remaining > 0.0 then Min(was[i].remaining, want) else 0.0;
            && Eat(was[i..], want).0
               == [was[i].(remaining := was[i].remaining - used)] + Eat(was[i + 1..], want - used).0
            && Eat(was[i..], want).1 == Eat(was[i + 1..], want - used).1
  {
    var tail := was[i..];
    assert tail[0] == was[i];
    assert tail[1..] == was[i + 1..];
  }

  /** A parsed log entry: the fill, and whatever annotations the entry still carries. */
  datatype Logged = Logged(fill: Fill, note: Annotation)

  function Rebuilt(events: seq<Option<Logged>>, symbol: string): seq<NotionalLot> {
    if events == [] then []
    else
      var before := Rebuilt(events[..|events| - 1], symbol);
      var last := events[|events| - 1];
      if last.Some? && last.value.fill.notional > 0.0 && symbol != "" && last.value.fill.symbol == symbol then
        AfterFill(before, last.value.fill, last.value.note)
      else before
  }

  // ----- Conservation -----

  function Signed(lots: seq<NotionalLot>): real {
    if lots == [] then 0.0
    else (if lots[0].isBuy then lots[0].remaining else -lots[0].remaining) + Signed(lots[1..])
  }

  /** Every kept lot is above the threshold, and only the first buy lot may be partly eaten. */
  ghost predicate Tidy(lots: seq<NotionalLot>) {
    && (forall i :: 0 <= i < |lots| ==> lots[i].remaining > 0.000000001)
    && (forall i, j :: 0 <= i < j < |lots| && lots[i].isBuy && lots[j].isBuy ==> lots[j].remaining == lots[j].entry)
  }

  ghost predicate NoBuys(lots: seq<NotionalLot>) {
    forall i :: 0 <= i < |lots| ==> !lots[i].isBuy
  }

  lemma {:induction false} SignedAppend(lots: seq<NotionalLot>, more: seq<NotionalLot>)
    ensures Signed(lots + more) == Signed(lots) + Signed(more)
    decreases lots
  {
    if lots == [] {
      assert lots + more == more;
    } else {
      assert (lots + more)[1..] == lots[1..] + more;
      SignedAppend(lots[1..], more);
    }
  }

  lemma {:induction false} KeepAppend(lots: seq<NotionalLot>, more: seq<NotionalLot>)
    ensures Keep(lots + more) == Keep(lots) + Keep(more)
    decreases lots
  {
    if lots == [] {
      assert lots + more == more;
    } else {
      assert (lots + more)[1..] == lots[1..] + more;
      KeepAppend(lots[1..], more);
    }
  }

  lemma {:induction false} KeepTidy(lots: seq<NotionalLot>)
    requires forall i :: 0 <= i < |lots| ==> lots[i].remaining > 0.000000001
    ensures Keep(lots) == lots
    decreases lots
  {
    if lots != [] { KeepTidy(lots[1..]); }
  }

  ghost predicate AboveKeep(lots: seq<NotionalLot>) {
    forall i :: 0 <= i < |lots| ==> lots[i].remaining > 0.000000001
  }

  /** Every buy lot of `lots` is whole. */
  ghost predicate Whole(lots: seq<NotionalLot>) {
    forall i :: 0 <= i < |lots| && lots[i].isBuy ==> lots[i].remaining == lots[i].entry
  }

  /** A sell that is covered leaves, after the sweep, what the sell asked for less at most one sliver; one that
      is not covered leaves no buy lot at all. */
  lemma {:induction false} EatConserves(lots: seq<NotionalLot>, want: real)
    requires Tidy(lots) && want >= 0.0
    ensures var (eaten, short) := Eat(lots, want);
            && 0.0 <= short <= want && Tidy(Keep(eaten))
            && 0.0 <= Signed(lots) - (want - short) - Signed(Keep(eaten)) <= 0.000000001
            && (short > 0.0 ==> NoBuys(Keep(eaten)) && Signed(lots) - (want - short) == Signed(Keep(eaten)))
    decreases lots
  {
    if lots == [] || want <= 0.0 {
      KeepTidy(lots);
    } else {
      var rest := lots[1..];
      assert Tidy(rest);
      if !lots[0].isBuy {
        EatConserves(rest, want);
        PrependKept([lots[0]], Eat(rest, want).0);
        TidyPrepend(lots[0], Keep(Eat(rest, want).0));
      } else {
        EatBuyHead(lots, want);
      }
    }
  }

  lemma {:induction false} PrependKept(head: seq<NotionalLot>, tail: seq<NotionalLot>)
    requires |head| == 1
    ensures Keep(head + tail) == (if head[0].remaining > 0.000000001 then head else []) + Keep(tail)
    ensures Signed(head + tail) == (if head[0].isBuy then head[0].remaining else -head[0].remaining) + Signed(tail)
  {
    assert (head + tail)[1..] == tail;
  }

  lemma {:induction false} TidyPrepend(head: NotionalLot, tail: seq<NotionalLot>)
    requires Tidy(tail) && head.remaining > 0.000000001 && (head.isBuy ==> Whole(tail))
    ensures Tidy([head] + tail)
    ensures Signed([head] + tail) == (if head.isBuy then head.remaining else -head.remaining) + Signed(tail)
  {
    assert ([head] + tail)[1..] == tail;
  }

  lemma {:induction false} EatBuyHead(lots: seq<NotionalLot>, want: real)
    requires lots != [] && lots[0].isBuy && Tidy(lots) && want > 0.0
    ensures var (eaten, short) := Eat(lots, want);
            && 0.0 <= short <= want && Tidy(Keep(eaten))
            && 0.0 <= Signed(lots) - (want - short) - Signed(Keep(eaten)) <= 0.000000001
            && (short > 0.0 ==> NoBuys(Keep(eaten)) && Signed(lots) - (want - short) == Signed(Keep(eaten)))
    decreases lots, 0
  {
    var head, rest := lots[0], lots[1..];
    assert Tidy(rest);
    var used := Min(head.remaining, want);
    var left := head.(remaining := head.remaining - used);
    PrependKept([left], Eat(rest, want - used).0);
    assert Eat(lots, want).0 == [left] + Eat(rest, want - used).0 && Eat(lots, want).1 == Eat(rest, want - used).1;
    if want < head.remaining {
      assert want - used == 0.0;
      KeepTidy(rest);
      assert Whole(rest);
      if left.remaining > KEEP {
        TidyPrepend(left, rest);
      } else {
        assert [] + rest == rest;
      }
    } else {
      EatConserves(rest, want - used);
      assert [] + Keep(Eat(rest, want - used).0) == Keep(Eat(rest, want - used).0);
    }
  }

  lemma {:induction false} BuyConserves(lots: seq<NotionalLot>, fill: Fill, note: Annotation)
    requires Tidy(lots) && fill.isBuy && fill.notional >= 0.0
    ensures Tidy(AfterFill(lots, fill, note))
    ensures 0.0 <= Signed(lots) + fill.notional - Signed(AfterFill(lots, fill, note)) <= 0.000000001
  {
    var lot := NewLot(fill, true, fill.notional, note);
    KeepTidy(lots);
    KeepAppend(lots, [lot]);
    assert [lot][1..] == [];
    SignedAppend(lots, Keep([lot]));
    if lot.remaining > KEEP {
      assert Keep([lot]) == [lot];
    } else {
      assert lots + [] == lots;
    }
  }

  lemma {:induction false} ShortConserves(eaten: seq<NotionalLot>, lot: NotionalLot)
    requires Tidy(Keep(eaten)) && NoBuys(Keep(eaten)) && !lot.isBuy && lot.remaining >= 0.0
    ensures Tidy(Keep(eaten + [lot])) && NoBuys(Keep(eaten + [lot]))
    ensures 0.0 <= Signed(Keep(eaten + [lot])) - (Signed(Keep(eaten)) - lot.remaining) <= 0.000000001
  {
    var kept := Keep(eaten);
    KeepAppend(eaten, [lot]);
    assert [lot][1..] == [];
    assert Keep([lot]) == if lot.remaining > KEEP then [lot] else [];
    hide Keep;
    if lot.remaining > KEEP {
      SignedAppend(kept, [lot]);
      assert Signed([lot]) == -lot.remaining;
    } else {
      assert kept + [] == kept;
    }
  }

  lemma {:induction false} SellConserves(lots: seq<NotionalLot>, fill: Fill, note: Annotation)
    requires Tidy(lots) && !fill.isBuy && fill.notional >= 0.0
    ensures Tidy(AfterFill(lots, fill, note))
    ensures -0.000000001 <= Signed(AfterFill(lots, fill, note)) - (Signed(lots) - fill.notional) <= 0.000000001
    ensures Eat(lots, fill.notional).1 > 0.0 ==> NoBuys(AfterFill(lots, fill, note))
  {
    EatConserves(lots, fill.notional);
    hide Eat, Keep, Signed, Tidy, NoBuys;
    var eaten, short := Eat(lots, fill.notional).0, Eat(lots, fill.notional).1;
    if short > 0.0 {
      ShortConserves(eaten, NewLot(fill, false, short, note));
    }
  }

  /** What a fill adds to the lots: a buy its whole notional, a sell the part no buy lot covered, with the fees and ids of the
      fill; it is the last lot, and it is kept if it is above 1e-9. Nothing else is added. */
  lemma {:induction false} FillOpensLot(lots: seq<NotionalLot>, fill: Fill, note: Annotation)
    requires Tidy(lots) && fill.notional >= 0.0
    ensures var after := AfterFill(lots, fill, note);
            var added := if fill.isBuy then fill.notional else Eat(lots, fill.notional).1;
            && (added > 0.000000001 ==>
                  && after != []
                  && var lot := after[|after| - 1];
                     && lot.isBuy == fill.isBuy && lot.remaining == added && lot.entry == added
                     && lot.feesPaid == fill.fee + fill.slippageCost
                     && lot.sourceFillId == fill.fillId && lot.sourceOrderId == fill.orderId
                     && lot.openedTs == note.openedTs && lot.exitCostBps == note.exitCostBps
                     && lot.reserved == (if fill.isBuy then note.reserved else 0.0)
                     && after[..|after| - 1] == (if fill.isBuy then lots else Keep(Eat(lots, fill.notional).0)))
            && (added <= 0.000000001 ==> after == if fill.isBuy then lots else Keep(Eat(lots, fill.notional).0))
  {
    hide Eat, Keep, Tidy, Signed;
    var added := if fill.isBuy then fill.notional else Eat(lots, fill.notional).1;
    var kept := if fill.isBuy then lots else Eat(lots, fill.notional).0;
    TidyIsKept(lots);
    KeepAppend(kept, [NewLot(fill, fill.isBuy, added, note)]);
    KeepOne(NewLot(fill, fill.isBuy, added, note));
    if !fill.isBuy { EatConserves(lots, fill.notional); }
  }

  lemma {:induction false} TidyIsKept(lots: seq<NotionalLot>)
    requires Tidy(lots)
    ensures Keep(lots) == lots
  {
    KeepTidy(lots);
  }

  lemma {:induction false} KeepOne(lot: NotionalLot)
    ensures Keep([lot]) == if lot.remaining > 0.000000001 then [lot] else []
  {
    assert [lot][1..] == [];
  }

  // ----- Whole logs -----

  /** Fills of one symbol with the annotations they were applied with. */
  function Applied(fills: seq<Logged>): seq<NotionalLot> {
    if fills == [] then []
    else AfterFill(Applied(fills[..|fills| - 1]), fills[|fills| - 1].fill, fills[|fills| - 1].note)
  }

  function SignedFills(fills: seq<Logged>): real {
    if fills == [] then 0.0
    else
      var f := fills[|fills| - 1].fill;
      SignedFills(fills[..|fills| - 1]) + if f.isBuy then f.notional else -f.notional
  }

  /** Buys held minus shorts held follow the signed fills to within one sliver per fill, and the queue is always
      tidy. */
  lemma {:induction false} InventoryConserved(fills: seq<Logged>)
    requires forall i :: 0 <= i < |fills| ==> fills[i].fill.notional >= 0.0
    ensures Tidy(Applied(fills))
    ensures -(|fills| as real * 0.000000001) <= Signed(Applied(fills)) - SignedFills(fills) <= |fills| as real * 0.000000001
    decreases |fills|
  {
    if fills != [] {
      var before, last := fills[..|fills| - 1], fills[|fills| - 1];
      InventoryConserved(before);
      if last.fill.isBuy {
        BuyConserves(Applied(before), last.fill, last.note);
      } else {
        SellConserves(Applied(before), last.fill, last.note);
      }
    }
  }

  /** A short lot is only ever created by a sell that exhausted every buy lot. */
  lemma {:induction false} ShortOnlyWhenBuysExhausted(fills: seq<Logged>, sell: Logged)
    requires forall i :: 0 <= i < |fills| ==> fills[i].fill.notional >= 0.0
    requires !sell.fill.isBuy && sell.fill.notional >= 0.0
    requires |Shorts(Applied(fills + [sell]))| > |Shorts(Applied(fills))|
    ensures NoBuys(Applied(fills + [sell]))
  {
    InventoryConserved(fills);
    assert Applied(fills + [sell]) == AfterFill(Applied(fills), sell.fill, sell.note) by {
      assert (fills + [sell])[..|fills|] == fills;
    }
    hide Eat, Keep, Shorts, Signed, Tidy, NoBuys, Applied, SignedFills;
    SellConserves(Applied(fills), sell.fill, sell.note);
    if Eat(Applied(fills), sell.fill.notional).1 <= 0.0 {
      EatAddsNoShorts(Applied(fills), sell.fill.notional);
    }
  }

  function Shorts(lots: seq<NotionalLot>): seq<NotionalLot> {
    if lots == [] then [] else (if lots[0].isBuy then [] else [lots[0]]) + Shorts(lots[1..])
  }

  lemma {:induction false} ShortsPrepend(head: NotionalLot, tail: seq<NotionalLot>)
    ensures |Shorts([head] + tail)| == |Shorts(tail)| + if head.isBuy then 0 else 1
    ensures Keep([head] + tail) == if head.remaining > 0.000000001 then [head] + Keep(tail) else Keep(tail)
  {
    assert ([head] + tail)[1..] == tail;
    assert [] + Keep(tail) == Keep(tail);
  }

  lemma {:induction false} EatSplit(lots: seq<NotionalLot>, want: real)
    requires lots != [] && want > 0.0
    ensures var used := if !lots[0].isBuy || lots[0].remaining <= 0.0 then 0.0 else Min(lots[0].remaining, want);
            && Eat(lots, want).0 == [lots[0].(remaining := lots[0].remaining - used)] + Eat(lots[1..], want - used).0
            && Eat(lots, want).1 == Eat(lots[1..], want - used).1
  {
  }

  lemma {:induction false} EatAddsNoShorts(lots: seq<NotionalLot>, want: real)
    ensures |Shorts(Keep(Eat(lots, want).0))| <= |Shorts(lots)|
    decreases lots
  {
    hide Eat, Keep, Shorts;
    if lots == [] || want <= 0.0 {
      EatNothing(lots, want);
      KeepAddsNoShorts(lots);
    } else {
      var used := if !lots[0].isBuy || lots[0].remaining <= 0.0 then 0.0 else Min(lots[0].remaining, want);
      var head := lots[0].(remaining := lots[0].remaining - used);
      var eaten := Eat(lots[1..], want - used).0;
      EatAddsNoShorts(lots[1..], want - used);
      EatSplit(lots, want);
      assert lots == [lots[0]] + lots[1..];
      ShortsPrepend(lots[0], lots[1..]);
      ShortsPrepend(head, eaten);
      ShortsPrepend(head, Keep(eaten));
    }
  }

  lemma {:induction false} KeepAddsNoShorts(lots: seq<NotionalLot>)
    ensures |Shorts(Keep(lots))| <= |Shorts(lots)|
    decreases lots
  {
    if lots != [] {
      KeepAddsNoShorts(lots[1..]);
      if lots[0].remaining > KEEP {
        assert ([lots[0]] + Keep(lots[1..]))[1..] == Keep(lots[1..]);
      } else {
        assert [] + Keep(lots[1..]) == Keep(lots[1..]);
      }
    }
  }

  /** A short lot reserves no quote, whatever the fill that opened it asked for. */
  ghost predicate NothingReserved(lots: seq<NotionalLot>) {
    forall i :: 0 <= i < |lots| && !lots[i].isBuy ==> lots[i].reserved == 0.0
  }

  lemma {:induction false} EatReservesNothing(lots: seq<NotionalLot>, want: real)
    requires NothingReserved(lots)
    ensures NothingReserved(Eat(lots, want).0)
    decreases lots
  {
    if lots != [] && want > 0.0 {
      var used := if !lots[0].isBuy || lots[0].remaining <= 0.0 then 0.0 else Min(lots[0].remaining, want);
      EatSplit(lots, want);
      EatReservesNothing(lots[1..], want - used);
    }
  }

  lemma {:induction false} KeepReservesNothing(lots: seq<NotionalLot>)
    requires NothingReserved(lots)
    ensures NothingReserved(Keep(lots))
    decreases lots
  {
    if lots != [] { KeepReservesNothing(lots[1..]); }
  }

  lemma {:induction false} ShortsReserveNothing(fills: seq<Logged>)
    ensures NothingReserved(Applied(fills))
    decreases |fills|
  {
    hide Eat, Keep;
    if fills != [] {
      var before, last := Applied(fills[..|fills| - 1]), fills[|fills| - 1];
      ShortsReserveNothing(fills[..|fills| - 1]);
      if last.fill.isBuy {
        KeepReservesNothing(before + [NewLot(last.fill, true, last.fill.notional, last.note)]);
      } else {
        var (eaten, short) := Eat(before, last.fill.notional);
        EatReservesNothing(before, last.fill.notional);
        KeepReservesNothing(if short > 0.0 then eaten + [NewLot(last.fill, false, short, last.note)] else eaten);
      }
    }
  }

  // ----- Replay after restart -----

  function Bare(lots: seq<NotionalLot>): seq<NotionalLot> {
    if lots == [] then []
    else [lots[0].(openedTs := 0, exitCostBps := 0.0, reserved := 0.0)] + Bare(lots[1..])
  }

  lemma {:induction false} BareAppend(lots: seq<NotionalLot>, more: seq<NotionalLot>)
    ensures Bare(lots + more) == Bare(lots) + Bare(more)
    decreases lots
  {
    if lots == [] {
      assert lots + more == more;
    } else {
      assert (lots + more)[1..] == lots[1..] + more;
      BareAppend(lots[1..], more);
    }
  }

  lemma {:induction false} BareKeep(lots: seq<NotionalLot>)
    ensures Bare(Keep(lots)) == Keep(Bare(lots))
    decreases lots
  {
    if lots != [] {
      BareKeep(lots[1..]);
      BareAppend(if lots[0].remaining > KEEP then [lots[0]] else [], Keep(lots[1..]));
    }
  }

  lemma {:induction false} BareEat(lots: seq<NotionalLot>, want: real)
    ensures Bare(Eat(lots, want).0) == Eat(Bare(lots), want).0
    ensures Eat(lots, want).1 == Eat(Bare(lots), want).1
    decreases lots
  {
    hide Eat, Bare;
    if lots == [] {
      BareNone();
      EatNothing(lots, want);
    } else if want <= 0.0 {
      EatNothing(lots, want);
      EatNothing(Bare(lots), want);
    } else {
      var used := if !lots[0].isBuy || lots[0].remaining <= 0.0 then 0.0 else Min(lots[0].remaining, want);
      BareHead(lots);
      EatSplit(lots, want);
      EatSplit(Bare(lots), want);
      BareEat(lots[1..], want - used);
      var head := lots[0].(remaining := lots[0].remaining - used);
      var rest := Eat(lots[1..], want - used).0;
      assert ([head] + rest)[1..] == rest;
      BareHead([head] + rest);
    }
  }

  lemma {:induction false} BareNone()
    ensures Bare([]) == []
  {
  }

  lemma {:induction false} BareHead(lots: seq<NotionalLot>)
    requires lots != []
    ensures Bare(lots) == [lots[0].(openedTs := 0, exitCostBps := 0.0, reserved := 0.0)] + Bare(lots[1..])
    ensures Bare(lots) != [] && Bare(lots)[1..] == Bare(lots[1..])
  {
  }

  /** A fill acts on lots regardless of their annotations. */
  lemma {:induction false} BareAfterFill(a: seq<NotionalLot>, b: seq<NotionalLot>, fill: Fill, n: Annotation, m: Annotation)
    requires Bare(a) == Bare(b)
    ensures Bare(AfterFill(a, fill, n)) == Bare(AfterFill(b, fill, m))
  {
    BareSide(a, fill, n);
    BareSide(b, fill, m);
  }

  lemma {:induction false} BareSide(lots: seq<NotionalLot>, fill: Fill, note: Annotation)
    ensures Bare(AfterFill(lots, fill, note)) == Bare(AfterFill(Bare(lots), fill, Annotation(0, 0.0, 0.0)))
  {
    var none := Annotation(0, 0.0, 0.0);
    if fill.isBuy {
      BareNew(lots, NewLot(fill, true, fill.notional, note), NewLot(fill, true, fill.notional, none));
    } else {
      var eaten, short := Eat(lots, fill.notional).0, Eat(lots, fill.notional).1;
      BareEat(lots, fill.notional);
      if short > 0.0 {
        BareNew(eaten, NewLot(fill, false, short, note), NewLot(fill, false, short, none));
      } else {
        BareKeep(eaten);
        BareKeep(Bare(eaten));
        BareTwice(eaten);
      }
    }
  }

  lemma {:induction false} BareTwice(lots: seq<NotionalLot>)
    ensures Bare(Bare(lots)) == Bare(lots)
    decreases lots
  {
    if lots != [] {
      BareTwice(lots[1..]);
      assert Bare(lots)[1..] == Bare(lots[1..]);
    }
  }

  lemma {:induction false} BareNew(lots: seq<NotionalLot>, x: NotionalLot, y: NotionalLot)
    requires Bare([x]) == Bare([y])
    ensures Bare(Keep(lots + [x])) == Bare(Keep(Bare(lots) + [y]))
  {
    BareKeep(lots + [x]);
    BareKeep(Bare(lots) + [y]);
    BareAppend(lots, [x]);
    BareAppend(Bare(lots), [y]);
    BareTwice(lots);
  }

  /** What the running service holds for `symbol` after applying every fill as it happened. */
  function Incremental(fills: seq<Logged>, symbol: string): seq<NotionalLot> {
    if fills == [] then []
    else
      var before, last := Incremental(fills[..|fills| - 1], symbol), fills[|fills| - 1];
      if last.fill.symbol == symbol then AfterFill(before, last.fill, last.note) else before
  }

  /** The log written for a run of fills: the same fills, with whatever annotations were logged, and entries that do
      not parse in between. */
  ghost predicate LogOf(log: seq<Option<Logged>>, fills: seq<Logged>)
    decreases |log|
  {
    if log == [] then fills == []
    else
      var last := log[|log| - 1];
      if last.None? then LogOf(log[..|log| - 1], fills)
      else fills != [] && fills[|fills| - 1].fill == last.value.fill
           && LogOf(log[..|log| - 1], fills[..|fills| - 1])
  }

  lemma {:induction false} AllKept(lots: seq<NotionalLot>)
    ensures AboveKeep(Keep(lots))
    decreases lots
  {
    if lots != [] { AllKept(lots[1..]); }
  }

  lemma {:induction false} IncrementalKept(fills: seq<Logged>, symbol: string)
    ensures AboveKeep(Incremental(fills, symbol))
    decreases |fills|
  {
    if fills != [] {
      IncrementalKept(fills[..|fills| - 1], symbol);
      var before, last := Incremental(fills[..|fills| - 1], symbol), fills[|fills| - 1];
      if last.fill.isBuy {
        AllKept(before + [NewLot(last.fill, true, last.fill.notional, last.note)]);
      } else {
        var (eaten, short) := Eat(before, last.fill.notional);
        AllKept(if short > 0.0 then eaten + [NewLot(last.fill, false, short, last.note)] else eaten);
      }
    }
  }

  /** A fill of no value changes nothing. */
  lemma {:induction false} WorthlessFill(lots: seq<NotionalLot>, fill: Fill, note: Annotation)
    requires AboveKeep(lots) && fill.notional <= 0.0
    ensures AfterFill(lots, fill, note) == lots
  {
    KeepTidy(lots);
    if fill.isBuy {
      var lot := NewLot(fill, true, fill.notional, note);
      KeepAppend(lots, [lot]);
      assert [lot][1..] == [] && lots + [] == lots;
    }
  }

  /** Rebuilding from the fill log gives the lots the running service held, annotations apart. */
  lemma {:induction false} RebuildMatchesRun(log: seq<Option<Logged>>, fills: seq<Logged>, symbol: string)
    requires LogOf(log, fills) && symbol != ""
    ensures Bare(Rebuilt(log, symbol)) == Bare(Incremental(fills, symbol))
    decreases |log|
  {
    if log != [] {
      var last := log[|log| - 1];
      if last.None? {
        RebuildMatchesRun(log[..|log| - 1], fills, symbol);
      } else {
        var earlier, f := fills[..|fills| - 1], fills[|fills| - 1];
        RebuildMatchesRun(log[..|log| - 1], earlier, symbol);
        if f.fill.symbol == symbol {
          if f.fill.notional <= 0.0 {
            IncrementalKept(earlier, symbol);
            WorthlessFill(Incremental(earlier, symbol), f.fill, f.note);
          } else {
            BareAfterFill(Rebuilt(log[..|log| - 1], symbol), Incremental(earlier, symbol), f.fill, last.value.note, f.note);
          }
        }
      }
    }
  }
}
