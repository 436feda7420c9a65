/** Start-up: the fill log is rebuilt into lots, fills the exchange knows and the log does not are added to both, and
    the open orders decide whether the service may trade on, must hold back or may only flatten. */
module BootRecovery {
  import opened FifoLedger
  import opened EventLog
  import opened InventoryLots
  import PnL = ProfitAndLoss

  // ----- Exchange history -----

  /** Payloads of the streams: a fill with its id and, where it parses, its content; anything else. */
  datatype Payload =
    | FillEntry(fillId: string, entry: Option<Logged>, rehydrated: bool)
    | OtherEntry

  const BARE_NOTE := Annotation(0, 0.0, 0.0)

  function KnownIds(rows: seq<LogRow<Payload>>): set<string> {
    set i | 0 <= i < |rows| && rows[i].payload.FillEntry? :: rows[i].payload.fillId
  }

  function Entries(rows: seq<LogRow<Payload>>): seq<Option<Logged>> {
    if rows == [] then []
    else
      var last := rows[|rows| - 1].payload;
      Entries(rows[..|rows| - 1]) + [if last.FillEntry? then last.entry else None]
  }

  function RecoveredEntry(fill: Fill): Payload {
    FillEntry(fill.fillId, Some(Logged(fill, BARE_NOTE)), true)
  }

  function Ids(fills: seq<Fill>): set<string> {
    set i | 0 <= i < |fills| :: fills[i].fillId
  }

  /** The records whose id is not known yet, each id once. */
  function Missing(known: set<string>, records: seq<Fill>): seq<Fill> {
    if records == [] then []
    else
      var before, last := Missing(known, records[..|records| - 1]), records[|records| - 1];
      if last.fillId in known + Ids(before) then before else before + [last]
  }

  function WithFills(s: Store<Payload>, fills: seq<Fill>): Store<Payload> {
    if fills == [] then s
    else Recorded(WithFills(s, fills[..|fills| - 1]), "fills", RecoveredEntry(fills[|fills| - 1]))
  }

  function AfterFills(lots: seq<NotionalLot>, fills: seq<Fill>, symbol: string, openedTs: int): seq<NotionalLot> {
    if fills == [] then lots
    else
      var before, last := AfterFills(lots, fills[..|fills| - 1], symbol, openedTs), fills[|fills| - 1];
      if last.symbol == symbol then AfterFill(before, last, Annotation(openedTs, 0.0, 0.0)) else before
  }

  /** A start on this disk when the exchange returns `records`: the log afterwards. */
  function Booted(disk: Disk<Payload>, records: seq<Fill>): Store<Payload> {
    var filled := WithFills(Seeded(disk), Missing(KnownIds(Rows(disk, "fills")), records));
    if records == [] then filled else Recorded(filled, "account", OtherEntry)
  }

  class LiveStateCoordinator {
    const eventStore: EventStore<Payload>
    const inventory: InventoryService

    constructor (eventStore: EventStore<Payload>, inventory: InventoryService)
      ensures this.eventStore == eventStore && this.inventory == inventory
    {
      this.eventStore, this.inventory := eventStore, inventory;
    }

    method ExchangeHistoryRehydrate(fillEvents: seq<LogRow<Payload>>, records: seq<Fill>, openedTs: int)
      returns (recovered: nat)
      modifies eventStore, inventory
      ensures var missing := Missing(KnownIds(fillEvents), records);
              && recovered == |missing|
              && eventStore.Value()
                 == (if records == [] then WithFills(old(eventStore.Value()), missing)
                     else Recorded(WithFills(old(eventStore.Value()), missing), "account", OtherEntry))
              && forall symbol ::
                   inventory.Lots(symbol) == AfterFills(old(inventory.Lots(symbol)), missing, symbol, openedTs)
    {
      hide KnownIds, Ids, Missing, WithFills, AfterFills, AfterFill, Recorded;
      var existing := KnownIds(fillEvents);
      ghost var missing: seq<Fill> := [];
      recovered := 0;
      assert records[..0] == [];
      Nothing(KnownIds(fillEvents), eventStore.Value());
      forall symbol ensures AfterFills(inventory.Lots(symbol), [], symbol, openedTs) == inventory.Lots(symbol) {
        NoFills(inventory.Lots(symbol), symbol, openedTs);
      }
      for i := 0 to |records|
        invariant missing == Missing(KnownIds(fillEvents), records[..i])
        invariant existing == KnownIds(fillEvents) + Ids(missing)
        invariant recovered == |missing|
        invariant eventStore.Value() == WithFills(old(eventStore.Value()), missing)
        invariant forall symbol ::
          inventory.Lots(symbol) == AfterFills(old(inventory.Lots(symbol)), missing, symbol, openedTs)
      {
        assert records[..i + 1] == records[..i] + [records[i]];
        MissingSnoc(KnownIds(fillEvents), records[..i], records[i]);
        if records[i].fillId !in existing {
          IdsSnoc(missing, records[i]);
          RecordedSnoc(old(eventStore.Value()), missing, records[i]);
          forall symbol
            ensures AfterFills(old(inventory.Lots(symbol)), missing + [records[i]], symbol, openedTs)
                 == var before := AfterFills(old(inventory.Lots(symbol)), missing, symbol, openedTs);
                    if records[i].symbol != symbol then before
                    else AfterFill(before, records[i], Annotation(openedTs, 0.0, 0.0))
          {
            FillsSnoc(old(inventory.Lots(symbol)), missing, records[i], symbol, openedTs);
          }
          eventStore.Record("fills", RecoveredEntry(records[i]));
          var lots := inventory.UpdateFromFill(records[i], Annotation(openedTs, 0.0, 0.0));
          existing := existing + {records[i].fillId};
          recovered := recovered + 1;
          missing := missing + [records[i]];
        }
      }
      assert records[..|records|] == records;
      if records != [] {
        eventStore.Record("account", OtherEntry);
      }
    }

    /** The log is read, the lots are rebuilt from it, the exchange history is added. */
    method RehydrateState(records: seq<Fill>, openedTs: int) returns (recovered: nat)
      requires eventStore.Value() == Seeded(eventStore.disk)
      modifies eventStore, inventory
      ensures eventStore.Value() == Booted(old(eventStore.disk), records)
      ensures var rows := Rows(old(eventStore.disk), "fills");
              && recovered == |Missing(KnownIds(rows), records)|
              && forall symbol ::
                   inventory.Lots(symbol)
                   == AfterFills(Rebuilt(Entries(rows), symbol), Missing(KnownIds(rows), records), symbol, openedTs)
    {
      var rows := eventStore.Load("fills");
      inventory.RehydrateFromEvents(Entries(rows));
      recovered := ExchangeHistoryRehydrate(rows, records, openedTs);
    }
  }

  lemma {:induction false} Nothing(known: set<string>, s: Store<Payload>)
    ensures Missing(known, []) == [] && Ids([]) == {} && WithFills(s, []) == s
  {
  }

  lemma {:induction false} NoFills(lots: seq<NotionalLot>, symbol: string, openedTs: int)
    ensures AfterFills(lots, [], symbol, openedTs) == lots
  {
  }

  lemma {:induction false} MissingSnoc(known: set<string>, records: seq<Fill>, f: Fill)
    ensures Missing(known, records + [f])
         == var before := Missing(known, records);
            if f.fillId in known + Ids(before) then before else before + [f]
  {
    assert (records + [f])[..|records|] == records;
  }

  lemma {:induction false} RecordedSnoc(s: Store<Payload>, fills: seq<Fill>, f: Fill)
    ensures WithFills(s, fills + [f]) == Recorded(WithFills(s, fills), "fills", RecoveredEntry(f))
  {
    assert (fills + [f])[..|fills|] == fills;
  }

  lemma {:induction false} FillsSnoc(lots: seq<NotionalLot>, fills: seq<Fill>, f: Fill, symbol: string, openedTs: int)
    ensures AfterFills(lots, fills + [f], symbol, openedTs)
         == var before := AfterFills(lots, fills, symbol, openedTs);
            if f.symbol == symbol then AfterFill(before, f, Annotation(openedTs, 0.0, 0.0)) else before
  {
    hide AfterFill;
    assert (fills + [f])[..|fills|] == fills;
  }

  lemma {:induction false} IdsSnoc(fills: seq<Fill>, f: Fill)
    ensures Ids(fills + [f]) == Ids(fills) + {f.fillId}
  {
    var longer := fills + [f];
    forall id | id in Ids(fills) + {f.fillId} ensures id in Ids(longer) {
      if id == f.fillId {
        assert longer[|fills|].fillId == id;
      } else {
        var i :| 0 <= i < |fills| && fills[i].fillId == id;
        assert longer[i].fillId == id;
      }
    }
  }

  // ----- A fill id is rehydrated at most once -----

  function Rehydrations(rows: seq<LogRow<Payload>>, id: string): nat {
    if rows == [] then 0
    else
      var last := rows[|rows| - 1].payload;
      Rehydrations(rows[..|rows| - 1], id) + if last.FillEntry? && last.rehydrated && last.fillId == id then 1 else 0
  }

  lemma {:induction false} KnownSnoc(rows: seq<LogRow<Payload>>, row: LogRow<Payload>)
    ensures KnownIds(rows + [row]) == KnownIds(rows) + if row.payload.FillEntry? then {row.payload.fillId} else {}
    ensures Entries(rows + [row]) == Entries(rows) + [if row.payload.FillEntry? then row.payload.entry else None]
    ensures forall id :: Rehydrations(rows + [row], id)
                      == Rehydrations(rows, id)
                         + if row.payload.FillEntry? && row.payload.rehydrated && row.payload.fillId == id then 1 else 0
  {
    var longer := rows + [row];
    assert longer[..|rows|] == rows;
    forall id | id in KnownIds(rows) ensures id in KnownIds(longer) {
      var i :| 0 <= i < |rows| && rows[i].payload.FillEntry? && rows[i].payload.fillId == id;
      assert longer[i].payload.fillId == id;
    }
    if row.payload.FillEntry? { assert longer[|rows|].payload.fillId == row.payload.fillId; }
  }

  /** Nothing is rehydrated twice, and what was rehydrated is known. */
  ghost predicate OncePerId(rows: seq<LogRow<Payload>>) {
    forall id :: Rehydrations(rows, id) <= if id in KnownIds(rows) then 1 else 0
  }

  /** Ids not in `known`, all different. */
  ghost predicate NewIds(known: set<string>, fills: seq<Fill>) {
    forall i :: 0 <= i < |fills| ==> fills[i].fillId !in known + Ids(fills[..i])
  }

  lemma {:induction false} NewIdsPrefix(known: set<string>, fills: seq<Fill>, k: nat)
    requires NewIds(known, fills) && k <= |fills|
    ensures NewIds(known, fills[..k])
  {
    forall i | 0 <= i < k ensures fills[..k][i].fillId !in known + Ids(fills[..k][..i]) {
      assert fills[..k][..i] == fills[..i];
    }
  }

  lemma {:induction false} MissingAreNew(known: set<string>, records: seq<Fill>)
    ensures NewIds(known, Missing(known, records))
  {
    hide Ids;
    if records != [] {
      var before, last := Missing(known, records[..|records| - 1]), records[|records| - 1];
      MissingAreNew(known, records[..|records| - 1]);
      var missing := Missing(known, records);
      if last.fillId !in known + Ids(before) {
        assert missing == before + [last];
        forall i | 0 <= i < |missing| ensures missing[i].fillId !in known + Ids(missing[..i]) {
          assert missing[..i] == before[..i];
          if i < |before| { assert before[i].fillId !in known + Ids(before[..i]); }
        }
      }
    }
  }

  lemma {:induction false} OneMoreRow(rows: seq<LogRow<Payload>>, row: LogRow<Payload>)
    requires OncePerId(rows)
    requires row.payload.FillEntry? && row.payload.rehydrated ==> row.payload.fillId !in KnownIds(rows)
    ensures OncePerId(rows + [row])
  {
    hide Rehydrations, KnownIds;
    KnownSnoc(rows, row);
  }

  /** Exactly the unknown ids are added. */
  lemma {:induction false} MissingIds(known: set<string>, records: seq<Fill>)
    ensures Ids(Missing(known, records)) == Ids(records) - known
  {
    if records != [] {
      var before, last := records[..|records| - 1], records[|records| - 1];
      MissingIds(known, before);
      IdsSnoc(before, last);
      assert before + [last] == records;
      IdsSnoc(Missing(known, before), last);
    }
  }

  lemma {:induction false} WithFillsIds(s: Store<Payload>, fills: seq<Fill>)
    ensures KnownIds(Rows(WithFills(s, fills).disk, "fills")) == KnownIds(Rows(s.disk, "fills")) + Ids(fills)
    decreases |fills|
  {
    hide Rehydrations, KnownIds, Ids, WithFills, Entries;
    if fills == [] {
      Nothing({}, s);
    } else {
      var n := |fills| - 1;
      WithFillsIds(s, fills[..n]);
      IdsSnoc(fills[..n], fills[n]);
      assert fills[..n] + [fills[n]] == fills;
      WithFillsSnoc(s, fills);
      KnownSnoc(Rows(WithFills(s, fills[..n]).disk, "fills"), LastRow(s, fills));
    }
  }

  lemma {:induction false} WithFillsKeepsOnce(s: Store<Payload>, fills: seq<Fill>)
    requires OncePerId(Rows(s.disk, "fills")) && NewIds(KnownIds(Rows(s.disk, "fills")), fills)
    ensures OncePerId(Rows(WithFills(s, fills).disk, "fills"))
    decreases |fills|
  {
    hide Rehydrations, KnownIds, OncePerId, Ids;
    if fills != [] {
      var n := |fills| - 1;
      NewIdsPrefix(KnownIds(Rows(s.disk, "fills")), fills, n);
      WithFillsKeepsOnce(s, fills[..n]);
      WithFillsIds(s, fills[..n]);
      WithFillsSnoc(s, fills);
      OneMoreRow(Rows(WithFills(s, fills[..n]).disk, "fills"), LastRow(s, fills));
    }
  }

  function LastRow(s: Store<Payload>, fills: seq<Fill>): LogRow<Payload>
    requires fills != []
  {
    LogRow(Counter(WithFills(s, fills[..|fills| - 1]), "fills") + 1, RecoveredEntry(fills[|fills| - 1]))
  }

  lemma {:induction false} WithFillsSnoc(s: Store<Payload>, fills: seq<Fill>)
    requires fills != []
    ensures Rows(WithFills(s, fills).disk, "fills")
         == Rows(WithFills(s, fills[..|fills| - 1]).disk, "fills") + [LastRow(s, fills)]
  {
  }

  /** Trading between starts writes events of its own, never marked as rehydrated; a start may stop anywhere in
      the history it is adding, before its account row. */
  datatype Life =
    | Traded(stream: string, payload: Payload)
    | Lost(stream: string)
    | Boot(records: seq<Fill>)
    | CrashedBoot(records: seq<Fill>, stopped: nat)

  predicate Ordinary(life: Life) {
    life.Traded? ==> life.payload.OtherEntry? || !life.payload.rehydrated
  }

  function Live(s: Store<Payload>, life: Life): Store<Payload> {
    match life
    case Traded(stream, payload) => Recorded(s, stream, payload)
    case Lost(stream) => Drawn(s, stream)
    case Boot(records) => Booted(s.disk, records)
    case CrashedBoot(records, stopped) =>
      var missing := Missing(KnownIds(Rows(s.disk, "fills")), records);
      WithFills(Seeded(s.disk), missing[..if stopped < |missing| then stopped else |missing|])
  }

  function Lived(start: Store<Payload>, lives: seq<Life>): Store<Payload> {
    if lives == [] then start else Live(Lived(start, lives[..|lives| - 1]), lives[|lives| - 1])
  }

  lemma {:induction false} OtherStreams(s: Store<Payload>, fills: seq<Fill>)
    ensures Rows(Recorded(WithFills(s, fills), "account", OtherEntry).disk, "fills")
         == Rows(WithFills(s, fills).disk, "fills")
  {
  }

  lemma {:induction false} LiveKeepsOnce(s: Store<Payload>, life: Life)
    requires OncePerId(Rows(s.disk, "fills")) && Ordinary(life)
    ensures OncePerId(Rows(Live(s, life).disk, "fills"))
  {
    hide Rehydrations, KnownIds, Missing, WithFills, OncePerId, NewIds;
    var rows := Rows(s.disk, "fills");
    match life
    case Traded(stream, payload) =>
      if stream == "fills" { OneMoreRow(rows, LogRow(Counter(s, stream) + 1, payload)); }
    case Boot(records) =>
      MissingAreNew(KnownIds(rows), records);
      WithFillsKeepsOnce(Seeded(s.disk), Missing(KnownIds(rows), records));
      OtherStreams(Seeded(s.disk), Missing(KnownIds(rows), records));
    case CrashedBoot(records, stopped) =>
      var missing := Missing(KnownIds(rows), records);
      var k := if stopped < |missing| then stopped else |missing|;
      MissingAreNew(KnownIds(rows), records);
      NewIdsPrefix(KnownIds(rows), missing, k);
      WithFillsKeepsOnce(Seeded(s.disk), missing[..k]);
    case Lost(stream) =>
  }

  /** Main result: over any number of starts, complete or not, and any trading in between, a fill id gets at most one
      rehydrated row. */
  lemma {:induction false} RehydratedAtMostOnce(lives: seq<Life>, id: string)
    requires forall i :: 0 <= i < |lives| ==> Ordinary(lives[i])
    ensures Rehydrations(Rows(Lived(Seeded(map[]), lives).disk, "fills"), id) <= 1
  {
    hide Rehydrations, KnownIds;
    LivedOnce(lives);
  }

  lemma {:induction false} LivedOnce(lives: seq<Life>)
    requires forall i :: 0 <= i < |lives| ==> Ordinary(lives[i])
    ensures OncePerId(Rows(Lived(Seeded(map[]), lives).disk, "fills"))
    decreases |lives|
  {
    hide Live, KnownIds;
    if lives != [] {
      LivedOnce(lives[..|lives| - 1]);
      LiveKeepsOnce(Lived(Seeded(map[]), lives[..|lives| - 1]), lives[|lives| - 1]);
    }
  }

  lemma {:induction false} WithFillsOrdered(s: Store<Payload>, fills: seq<Fill>)
    requires Ordered(s)
    ensures Ordered(WithFills(s, fills))
    decreases |fills|
  {
    hide Ordered, Recorded;
    if fills != [] {
      WithFillsOrdered(s, fills[..|fills| - 1]);
      RecordKeepsOrder(WithFills(s, fills[..|fills| - 1]), "fills", RecoveredEntry(fills[|fills| - 1]));
    }
  }

  /** Through the same lives, every stream stays numbered strictly upwards. */
  lemma {:induction false} LivesKeepOrder(lives: seq<Life>)
    ensures Ordered(Lived(Seeded(map[]), lives))
    decreases |lives|
  {
    hide Ordered, Recorded, WithFills, Missing, KnownIds;
    if lives == [] {
      EmptyDiskIsOrdered<Payload>();
    } else {
      LivesKeepOrder(lives[..|lives| - 1]);
      var s := Lived(Seeded(map[]), lives[..|lives| - 1]);
      SeedKeepsOrder(s);
      match lives[|lives| - 1]
      case Traded(stream, payload) => RecordKeepsOrder(s, stream, payload);
      case Lost(stream) => DrawKeepsOrder(s, stream);
      case Boot(records) =>
        var filled := WithFills(Seeded(s.disk), Missing(KnownIds(Rows(s.disk, "fills")), records));
        WithFillsOrdered(Seeded(s.disk), Missing(KnownIds(Rows(s.disk, "fills")), records));
        RecordKeepsOrder(filled, "account", OtherEntry);
      case CrashedBoot(records, stopped) =>
        var missing := Missing(KnownIds(Rows(s.disk, "fills")), records);
        WithFillsOrdered(Seeded(s.disk), missing[..if stopped < |missing| then stopped else |missing|]);
    }
  }

  /** A start leaves the fill log alone exactly when the exchange returns no id the log does not hold. */
  lemma {:induction false} KnownRecordsAddNothing(disk: Disk<Payload>, records: seq<Fill>)
    ensures Rows(Booted(disk, records).disk, "fills") == Rows(disk, "fills")
       <==> Ids(records) <= KnownIds(Rows(disk, "fills"))
  {
    hide KnownIds;
    var known := KnownIds(Rows(disk, "fills"));
    var missing := Missing(known, records);
    MissingIds(known, records);
    WithFillsLength(Seeded(disk), missing);
    OtherStreams(Seeded(disk), missing);
    if missing != [] {
      assert missing[0].fillId in Ids(missing);
    }
  }

  lemma {:induction false} WithFillsLength(s: Store<Payload>, fills: seq<Fill>)
    ensures |Rows(WithFills(s, fills).disk, "fills")| == |Rows(s.disk, "fills")| + |fills|
    decreases |fills|
  {
    if fills != [] { WithFillsLength(s, fills[..|fills| - 1]); }
  }

  /** The rows a start adds to the fill log: one per missing record, in order, with its id and content and marked as
      rehydrated; the rows before them stay. */
  lemma {:induction false} AddedRowsAreMarked(disk: Disk<Payload>, records: seq<Fill>)
    ensures var was, now := Rows(disk, "fills"), Rows(Booted(disk, records).disk, "fills");
            var missing := Missing(KnownIds(was), records);
            && |now| == |was| + |missing| && now[..|was|] == was
            && forall i :: 0 <= i < |missing| ==>
                 now[|was| + i].payload
                 == FillEntry(missing[i].fillId, Some(Logged(missing[i], Annotation(0, 0.0, 0.0))), true)
  {
    hide KnownIds, Missing, WithFills;
    var missing := Missing(KnownIds(Rows(disk, "fills")), records);
    OtherStreams(Seeded(disk), missing);
    AddedRows(Seeded(disk), missing);
    assert Rows(Booted(disk, records).disk, "fills") == Rows(WithFills(Seeded(disk), missing).disk, "fills");
  }

  lemma {:induction false} AddedRows(s: Store<Payload>, fills: seq<Fill>)
    ensures var was, now := Rows(s.disk, "fills"), Rows(WithFills(s, fills).disk, "fills");
            && |now| == |was| + |fills| && now[..|was|] == was
            && forall i :: 0 <= i < |fills| ==>
                 now[|was| + i].payload == FillEntry(fills[i].fillId, Some(Logged(fills[i], Annotation(0, 0.0, 0.0))), true)
    decreases |fills|
  {
    hide WithFills, Counter;
    if fills == [] {
      Nothing({}, s);
    } else {
      AddedRows(s, fills[..|fills| - 1]);
      WithFillsSnoc(s, fills);
    }
  }

  /** A second start with the same records finds every id logged and adds nothing. */
  lemma {:induction false} SecondBootAddsNothing(disk: Disk<Payload>, records: seq<Fill>, again: seq<Fill>)
    requires Ids(again) <= Ids(records)
    ensures var first := Booted(disk, records).disk;
            Rows(Booted(first, again).disk, "fills") == Rows(first, "fills")
  {
    hide KnownIds, Rehydrations, Booted;
    BootedIds(disk, records);
    KnownRecordsAddNothing(Booted(disk, records).disk, again);
  }

  lemma {:induction false} BootedIds(disk: Disk<Payload>, records: seq<Fill>)
    ensures KnownIds(Rows(Booted(disk, records).disk, "fills")) == KnownIds(Rows(disk, "fills")) + Ids(records)
  {
    hide KnownIds, Rehydrations, WithFills, Missing;
    var known := KnownIds(Rows(disk, "fills"));
    var missing := Missing(known, records);
    MissingIds(known, records);
    WithFillsIds(Seeded(disk), missing);
    OtherStreams(Seeded(disk), missing);
  }

  // ----- The history is asked for buys only -----

  function FillsOf(symbol: string, records: seq<FillRecord>): (fills: seq<Fill>)
    ensures |fills| == |records|
    ensures forall i :: 0 <= i < |records| ==>
              && fills[i].fillId == records[i].fillId && (fills[i].isBuy <==> records[i].side == Buy)
              && fills[i].notional == records[i].notional && fills[i].fee == records[i].fee
              && fills[i].orderId == records[i].orderId && fills[i].symbol == symbol && fills[i].slippageCost == 0.0
  {
    if records == [] then []
    else
      var last := records[|records| - 1];
      FillsOf(symbol, records[..|records| - 1])
      + [InventoryLots.Fill(symbol, last.side == Buy, last.notional, last.fee, 0.0, last.fillId, last.orderId)]
  }

  /** What a start fetches. */
  function HistoryFills(symbol: string, rows: seq<Row>, sinceMs: Option<int>): seq<Fill> {
    FillsOf(symbol, FillHistory(Filter(Buy, None, sinceMs), rows).0)
  }

  /** A buy of the history inside the window. */
  predicate Restorable(row: Row, sinceMs: Option<int>) {
    row.side == Buy && row.qty > 0.0 && (sinceMs.Some? ==> row.ts >= sinceMs.value)
  }

  lemma {:induction false} FetchedIff(symbol: string, rows: seq<Row>, sinceMs: Option<int>, id: string)
    ensures id in Ids(HistoryFills(symbol, rows, sinceMs))
       <==> Replay(rows).Ledger? && exists row :: row in rows && Restorable(row, sinceMs) && row.tradeId == id
    ensures forall i :: 0 <= i < |HistoryFills(symbol, rows, sinceMs)| ==> HistoryFills(symbol, rows, sinceMs)[i].isBuy
  {
    hide FillsOf, FillHistory, Replay, PnL.SelectedRows;
    var filter, fills := Filter(Buy, None, sinceMs), HistoryFills(symbol, rows, sinceMs);
    var selected := if Replay(rows).Ledger? then PnL.SelectedRows(filter, rows) else [];
    PnL.HistoryIsTheSelectedRows(filter, rows);
    assert |fills| == |selected|;
    forall i | 0 <= i < |fills| ensures fills[i].fillId == selected[i].tradeId && fills[i].isBuy {
      PnL.SelectedIff(filter, rows, selected[i]);
    }
    if i :| 0 <= i < |fills| && fills[i].fillId == id {
      PnL.SelectedIff(filter, rows, selected[i]);
      assert Restorable(selected[i], sinceMs);
    }
    if Replay(rows).Ledger? {
      if row :| row in rows && Restorable(row, sinceMs) && row.tradeId == id {
        PnL.SelectedIff(filter, rows, row);
        var i :| 0 <= i < |selected| && selected[i] == row;
        assert fills[i].fillId == id;
      }
    }
  }

  /** Every fill a start fetches is a buy of the history inside the window: its ids, its notional the quote cost and its fee
      the fee of that row, without slippage. */
  lemma {:induction false} FetchedFillsAreRows(symbol: string, rows: seq<Row>, sinceMs: Option<int>, i: nat)
    requires i < |HistoryFills(symbol, rows, sinceMs)|
    ensures exists row ::
              && row in rows && Restorable(row, sinceMs)
              && HistoryFills(symbol, rows, sinceMs)[i]
                 == InventoryLots.Fill(symbol, true, Abs(row.quoteCost), Abs(row.fee), 0.0, row.tradeId, row.orderId)
  {
    hide FillsOf, FillHistory, Replay, PnL.SelectedRows, Abs;
    var filter, fill := Filter(Buy, None, sinceMs), HistoryFills(symbol, rows, sinceMs)[i];
    var selected := if Replay(rows).Ledger? then PnL.SelectedRows(filter, rows) else [];
    PnL.HistoryIsTheSelectedRows(filter, rows);
    PnL.SelectedIff(filter, rows, selected[i]);
    var row := selected[i];
    assert row in rows && Restorable(row, sinceMs);
    assert fill == InventoryLots.Fill(symbol, true, Abs(row.quoteCost), Abs(row.fee), 0.0, row.tradeId, row.orderId);
  }

  /** A start writes one account row if the exchange returned anything, and no other. */
  lemma {:induction false} OneAccountRow(disk: Disk<Payload>, records: seq<Fill>)
    ensures var was, now := Rows(disk, "account"), Rows(Booted(disk, records).disk, "account");
            && (records == [] ==> now == was)
            && (records != [] ==> now == was + [LogRow(LastNumber(was) + 1, OtherEntry)])
    ensures forall stream :: stream != "account" && stream != "fills" ==>
              Rows(Booted(disk, records).disk, stream) == Rows(disk, stream)
  {
    hide KnownIds, LastNumber;
    FillsTouchFillsOnly(Seeded(disk), Missing(KnownIds(Rows(disk, "fills")), records));
    SeededCounter(disk, "account");
  }

  lemma {:induction false} SeededCounter(disk: Disk<Payload>, stream: string)
    ensures Counter(Seeded(disk), stream) == LastNumber(Rows(disk, stream))
  {
  }

  lemma {:induction false} FillsTouchFillsOnly(s: Store<Payload>, fills: seq<Fill>)
    ensures forall stream :: stream != "fills" ==>
              && Rows(WithFills(s, fills).disk, stream) == Rows(s.disk, stream)
              && Counter(WithFills(s, fills), stream) == Counter(s, stream)
    decreases |fills|
  {
    if fills != [] { FillsTouchFillsOnly(s, fills[..|fills| - 1]); }
  }

  /** Main result: after a start the fill log holds an id exactly if it held it before, or a positive buy inside the window
      of an accepted trade history carries it. A sell the log has lost is never restored. */
  lemma {:induction false} RestoredIff(
    disk: Disk<Payload>, symbol: string, rows: seq<Row>, sinceMs: Option<int>, id: string)
    ensures id in KnownIds(Rows(Booted(disk, HistoryFills(symbol, rows, sinceMs)).disk, "fills"))
       <==> || id in KnownIds(Rows(disk, "fills"))
            || (Replay(rows).Ledger? && exists row :: row in rows && Restorable(row, sinceMs) && row.tradeId == id)
  {
    hide KnownIds, Booted, Restorable, HistoryFills, Ids, Replay;
    FetchedIff(symbol, rows, sinceMs, id);
    BootedIds(disk, HistoryFills(symbol, rows, sinceMs));
  }

  /** In particular a lost sell stays lost, however often the history is fetched. */
  lemma {:induction false} LostSellsStayLost(
    disk: Disk<Payload>, symbol: string, rows: seq<Row>, sinceMs: Option<int>, id: string)
    requires id !in KnownIds(Rows(disk, "fills"))
    requires forall row :: row in rows && row.tradeId == id ==> row.side != Buy
    ensures id !in KnownIds(Rows(Booted(disk, HistoryFills(symbol, rows, sinceMs)).disk, "fills"))
  {
    hide KnownIds, Booted, HistoryFills;
    RestoredIff(disk, symbol, rows, sinceMs, id);
  }

  // ----- The lots of one start are those the next start rebuilds -----

  lemma {:induction false} RebuiltKept(entries: seq<Option<Logged>>, symbol: string)
    ensures AboveKeep(Rebuilt(entries, symbol))
    decreases |entries|
  {
    if entries != [] {
      var last := entries[|entries| - 1];
      RebuiltKept(entries[..|entries| - 1], symbol);
      if last.Some? {
        AfterFillKept(Rebuilt(entries[..|entries| - 1], symbol), last.value.fill, last.value.note);
      }
    }
  }

  lemma {:induction false} AfterFillKept(lots: seq<NotionalLot>, fill: Fill, note: Annotation)
    ensures AboveKeep(AfterFill(lots, fill, note))
  {
    if fill.isBuy {
      AllKept(lots + [NewLot(fill, true, fill.notional, note)]);
    } else {
      var (eaten, short) := Eat(lots, fill.notional);
      AllKept(if short > 0.0 then eaten + [NewLot(fill, false, short, note)] else eaten);
    }
  }

  lemma {:induction false} AfterFillsKept(lots: seq<NotionalLot>, fills: seq<Fill>, symbol: string, openedTs: int)
    requires AboveKeep(lots)
    ensures AboveKeep(AfterFills(lots, fills, symbol, openedTs))
    decreases |fills|
  {
    if fills != [] {
      var before := AfterFills(lots, fills[..|fills| - 1], symbol, openedTs);
      AfterFillsKept(lots, fills[..|fills| - 1], symbol, openedTs);
      AfterFillKept(before, fills[|fills| - 1], Annotation(openedTs, 0.0, 0.0));
    }
  }

  lemma {:induction false} RebuildWithFills(s: Store<Payload>, fills: seq<Fill>, symbol: string, openedTs: int)
    requires symbol != ""
    ensures Bare(Rebuilt(Entries(Rows(WithFills(s, fills).disk, "fills")), symbol))
         == Bare(AfterFills(Rebuilt(Entries(Rows(s.disk, "fills")), symbol), fills, symbol, openedTs))
    decreases |fills|
  {
    hide AfterFill, KnownIds, WithFills;
    if fills == [] {
      Nothing({}, s);
    } else {
      var n := |fills| - 1;
      RebuildWithFills(s, fills[..n], symbol, openedTs);
      WithFillsSnoc(s, fills);
      var rows := Rows(WithFills(s, fills[..n]).disk, "fills");
      KnownSnoc(rows, LastRow(s, fills));
      var entries := Entries(rows);
      var entry := Some(Logged(fills[n], BARE_NOTE));
      assert (entries + [entry])[..|entries|] == entries;
      var held := AfterFills(Rebuilt(Entries(Rows(s.disk, "fills")), symbol), fills[..n], symbol, openedTs);
      RebuiltKept(Entries(Rows(s.disk, "fills")), symbol);
      AfterFillsKept(Rebuilt(Entries(Rows(s.disk, "fills")), symbol), fills[..n], symbol, openedTs);
      OneMoreFill(Rebuilt(entries, symbol), held, fills[n], openedTs);
    }
  }

  lemma {:induction false} OneMoreFill(rebuilt: seq<NotionalLot>, held: seq<NotionalLot>, fill: Fill, openedTs: int)
    requires Bare(rebuilt) == Bare(held) && AboveKeep(held)
    ensures Bare(if fill.notional > 0.0 then AfterFill(rebuilt, fill, BARE_NOTE) else rebuilt)
         == Bare(AfterFill(held, fill, Annotation(openedTs, 0.0, 0.0)))
  {
    hide AfterFill, Bare, AboveKeep;
    if fill.notional <= 0.0 {
      WorthlessFill(held, fill, Annotation(openedTs, 0.0, 0.0));
    } else {
      BareAfterFill(rebuilt, held, fill, BARE_NOTE, Annotation(openedTs, 0.0, 0.0));
    }
  }

  /** Main result: the lots held after a start are the lots the next start rebuilds from the log it left, time stamps
      and annotations apart. */
  lemma {:induction false} NextBootRebuildsTheSameLots(
    disk: Disk<Payload>, records: seq<Fill>, symbol: string, openedTs: int)
    requires symbol != ""
    ensures var rows := Rows(disk, "fills");
            var held := AfterFills(Rebuilt(Entries(rows), symbol), Missing(KnownIds(rows), records), symbol, openedTs);
            Bare(Rebuilt(Entries(Rows(Booted(disk, records).disk, "fills")), symbol)) == Bare(held)
  {
    hide KnownIds, Rebuilt, Entries, Bare, AfterFills, Missing, WithFills;
    var missing := Missing(KnownIds(Rows(disk, "fills")), records);
    OtherStreams(Seeded(disk), missing);
    RebuildWithFills(Seeded(disk), missing, symbol, openedTs);
  }
}
