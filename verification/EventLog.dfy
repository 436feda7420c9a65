/** The append-only event store: one log per stream on disk, and counters that are seeded from the disk at start. */
module EventLog {
  datatype LogRow<P> = LogRow(number: int, payload: P)

  type Disk<P> = map<string, seq<LogRow<P>>>

  // ----- Specification -----

  datatype Store<P> = Store(disk: Disk<P>, counters: map<string, int>)

  function Rows<P>(disk: Disk<P>, stream: string): seq<LogRow<P>> {
    if stream in disk then disk[stream] else []
  }

  function Counter<P>(s: Store<P>, stream: string): int {
    if stream in s.counters then s.counters[stream] else 0
  }

  /** The largest number of a log, 0 for an empty one. */
  function LastNumber<P>(rows: seq<LogRow<P>>): int {
    if rows == [] then 0
    else
      var last, before := rows[|rows| - 1].number, rows[..|rows| - 1];
      if before == [] || LastNumber(before) <= last then last else LastNumber(before)
  }

  /** A process start: every stream on disk gets its largest number as counter. */
  function Seeded<P>(disk: Disk<P>): Store<P> {
    Store(disk, map stream | stream in disk :: LastNumber(disk[stream]))
  }

  function Drawn<P>(s: Store<P>, stream: string): Store<P> {
    s.(counters := s.counters[stream := Counter(s, stream) + 1])
  }

  function Appended<P>(s: Store<P>, stream: string, row: LogRow<P>): Store<P> {
    s.(disk := s.disk[stream := Rows(s.disk, stream) + [row]])
  }

  /** An event recorded under a fresh number. */
  function Recorded<P>(s: Store<P>, stream: string, payload: P): Store<P> {
    Appended(Drawn(s, stream), stream, LogRow(Counter(s, stream) + 1, payload))
  }

  // ----- The store object -----

  class EventStore<P> {
    var disk: Disk<P>
    var seqByStream: map<string, int>

    function Value(): Store<P>
      reads this
    {
      Store(disk, seqByStream)
    }

    constructor (disk: Disk<P>)
      ensures Value() == Seeded(disk)
    {
      this.disk := disk;
      this.seqByStream := map[];
      new;
      SeedSequences();
    }

    method SeedSequences()
      requires seqByStream == map[]
      modifies this`seqByStream
      ensures Value() == Seeded(disk)
    {
      var todo := disk.Keys;
      while todo != {}
        invariant todo <= disk.Keys
        invariant seqByStream == map stream | stream in disk && stream !in todo :: LastNumber(disk[stream])
        decreases todo
      {
        var stream :| stream in todo;
        var last := LastSeq(stream);
        seqByStream := seqByStream[stream := last];
        todo := todo - {stream};
      }
    }

    method NextSeq(stream: string) returns (number: int)
      modifies this`seqByStream
      ensures Value() == Drawn(old(Value()), stream)
      ensures number == Counter(old(Value()), stream) + 1
    {
      number := (if stream in seqByStream then seqByStream[stream] else 0) + 1;
      seqByStream := seqByStream[stream := number];
    }

    method Append(stream: string, row: LogRow<P>)
      modifies this`disk
      ensures Value() == Appended(old(Value()), stream, row)
    {
      disk := disk[stream := (if stream in disk then disk[stream] else []) + [row]];
    }

    method Load(stream: string) returns (rows: seq<LogRow<P>>)
      ensures rows == Rows(disk, stream)
    {
      rows := if stream in disk then disk[stream] else [];
    }

    method LastSeq(stream: string) returns (last: int)
      ensures last == LastNumber(Rows(disk, stream))
    {
      var rows := Load(stream);
      if rows == [] {
        return 0;
      }
      last := rows[0].number;
      for i := 1 to |rows|
        invariant last == LastNumber(rows[..i])
      {
        assert rows[..i + 1][..i] == rows[..i];
        if rows[i].number > last {
          last := rows[i].number;
        }
      }
      assert rows[..|rows|] == rows;
    }

    /** How every event is written: its number is drawn as the row is built. */
    method Record(stream: string, payload: P)
      modifies this
      ensures Value() == Recorded(old(Value()), stream, payload)
    {
      var number := NextSeq(stream);
      Append(stream, LogRow(number, payload));
    }
  }

  // ----- Runs with crashes -----

  /** A number drawn by a process that stops before writing, an event written, a process start. */
  datatype Op<P> =
    | Lose(stream: string)
    | Write(stream: string, payload: P)
    | Restart

  function Perform<P>(s: Store<P>, op: Op<P>): Store<P> {
    match op
    case Lose(stream) => Drawn(s, stream)
    case Write(stream, payload) => Recorded(s, stream, payload)
    case Restart => Seeded(s.disk)
  }

  function Run<P>(start: Store<P>, ops: seq<Op<P>>): Store<P> {
    if ops == [] then start else Perform(Run(start, ops[..|ops| - 1]), ops[|ops| - 1])
  }

  ghost predicate Increasing<P>(rows: seq<LogRow<P>>) {
    && (forall i :: 0 <= i < |rows| ==> rows[i].number > 0)
    && forall i, j :: 0 <= i < j < |rows| ==> rows[i].number < rows[j].number
  }

  /** Logs are numbered strictly upwards and no counter is behind its log. */
  ghost predicate Ordered<P>(s: Store<P>) {
    forall stream ::
      Increasing(Rows(s.disk, stream)) && LastNumber(Rows(s.disk, stream)) <= Counter(s, stream)
  }

  lemma {:induction false} LastOfIncreasing<P>(rows: seq<LogRow<P>>)
    requires Increasing(rows)
    ensures LastNumber(rows) == if rows == [] then 0 else rows[|rows| - 1].number
  {
    if |rows| > 1 {
      LastOfIncreasing(rows[..|rows| - 1]);
    }
  }

  lemma {:induction false} RecordKeepsOrder<P>(s: Store<P>, stream: string, payload: P)
    requires Ordered(s)
    ensures Ordered(Recorded(s, stream, payload))
  {
    hide LastNumber;
    var t := Recorded(s, stream, payload);
    forall other ensures Increasing(Rows(t.disk, other)) && LastNumber(Rows(t.disk, other)) <= Counter(t, other) {
      assert Increasing(Rows(s.disk, other)) && LastNumber(Rows(s.disk, other)) <= Counter(s, other);
      if other == stream {
        LastOfIncreasing(Rows(s.disk, stream));
        assert Increasing(Rows(t.disk, other));
        LastOfIncreasing(Rows(t.disk, stream));
      }
    }
  }

  lemma {:induction false} SeedKeepsOrder<P>(s: Store<P>)
    requires Ordered(s)
    ensures Ordered(Seeded(s.disk))
  {
    hide LastNumber;
    forall stream
      ensures Increasing(Rows(s.disk, stream)) && LastNumber(Rows(s.disk, stream)) <= Counter(Seeded(s.disk), stream)
    {
      assert Increasing(Rows(s.disk, stream));
      LastOfIncreasing(Rows(s.disk, stream));
    }
  }

  /** The last number is the largest there is, and 0 only where there is none. */
  lemma {:induction false} LastNumberIsLargest<P>(rows: seq<LogRow<P>>)
    ensures rows == [] ==> LastNumber(rows) == 0
    ensures rows != [] ==> exists i :: 0 <= i < |rows| && rows[i].number == LastNumber(rows)
    ensures forall i :: 0 <= i < |rows| ==> rows[i].number <= LastNumber(rows)
    decreases |rows|
  {
    if rows != [] {
      var n := |rows| - 1;
      LastNumberIsLargest(rows[..n]);
      if n > 0 {
        var i :| 0 <= i < n && rows[..n][i].number == LastNumber(rows[..n]);
        assert rows[i].number == LastNumber(rows[..n]);
      }
      forall i | 0 <= i < |rows| ensures rows[i].number <= LastNumber(rows) {
        if i < n { assert rows[..n][i].number <= LastNumber(rows[..n]); }
      }
    }
  }

  /** The payloads written to a stream, in order. */
  function Written<P>(ops: seq<Op<P>>, stream: string): seq<P> {
    if ops == [] then []
    else
      var last := ops[|ops| - 1];
      Written(ops[..|ops| - 1], stream) + if last.Write? && last.stream == stream then [last.payload] else []
  }

  function Payloads<P>(rows: seq<LogRow<P>>): seq<P> {
    seq(|rows|, i requires 0 <= i < |rows| => rows[i].payload)
  }

  lemma {:induction false} PayloadsSnoc<P>(rows: seq<LogRow<P>>, row: LogRow<P>)
    ensures Payloads(rows + [row]) == Payloads(rows) + [row.payload]
  {
  }

  /** Main result: through the same operations, the rows added to a stream hold exactly what was written to it, in order:
      nothing is lost, repeated or made up. */
  lemma {:induction false} RowsAreWhatWasWritten<P>(start: Store<P>, ops: seq<Op<P>>, stream: string)
    ensures Payloads(Rows(Run(start, ops).disk, stream)) == Payloads(Rows(start.disk, stream)) + Written(ops, stream)
    decreases |ops|
  {
    hide LastNumber, Payloads, Counter;
    if ops != [] {
      var n := |ops| - 1;
      var s := Run(start, ops[..n]);
      RowsAreWhatWasWritten(start, ops[..n], stream);
      if ops[n].Write? && ops[n].stream == stream {
        PayloadsSnoc(Rows(s.disk, stream), LogRow(Counter(s, stream) + 1, ops[n].payload));
      }
    }
  }

  /** Main result: with processes stopping between any two operations and counters reseeded from disk at every
      start, the numbers of each stream are strictly increasing, and no written row is changed or lost. */
  lemma {:induction false} NumbersStrictlyIncrease<P>(start: Store<P>, ops: seq<Op<P>>)
    requires Ordered(start)
    ensures Ordered(Run(start, ops))
    ensures forall stream :: Rows(start.disk, stream) <= Rows(Run(start, ops).disk, stream)
    decreases |ops|
  {
    hide LastNumber, Increasing, Ordered;
    if ops != [] {
      var n := |ops| - 1;
      NumbersStrictlyIncrease(start, ops[..n]);
      var s := Run(start, ops[..n]);
      match ops[n]
      case Write(stream, payload) => RecordKeepsOrder(s, stream, payload);
      case Restart => SeedKeepsOrder(s);
      case Lose(stream) => DrawKeepsOrder(s, stream);
    }
  }

  lemma {:induction false} DrawKeepsOrder<P>(s: Store<P>, stream: string)
    requires Ordered(s)
    ensures Ordered(Drawn(s, stream))
  {
    hide LastNumber, Increasing;
    forall other
      ensures Increasing(Rows(s.disk, other)) && LastNumber(Rows(s.disk, other)) <= Counter(Drawn(s, stream), other)
    {
      assert Increasing(Rows(s.disk, other)) && LastNumber(Rows(s.disk, other)) <= Counter(s, other);
    }
  }

  /** The first process starts on an empty disk. */
  lemma {:induction false} EmptyDiskIsOrdered<P>()
    ensures Ordered(Seeded<P>(map[]))
  {
  }
}
