/** Pull-based reading of a JSONEachRow response: chunks to lines, lines to bounded batches. */
module EventStream {
  import opened Options
  import opened OutputTables
  import opened Batching

  newtype byte = x: int | 0 <= x < 256

  const NEWLINE: byte := 10
  const CARRIAGE_RETURN: byte := 13

  datatype Chunk = Data(bytes: seq<byte>) | Failure

  /** How the response ends: with the body, or with a broken connection. */
  datatype End = Eof | Broken

  datatype Error = TooLong | Interrupted | Invalid

  datatype NextLine = Line(line: seq<byte>, rest: seq<byte>) | NoLine | LineError(error: Error)

  // ----- what the lines of an input are, whatever its chunks -----

  function FirstNewline(s: seq<byte>): (k: nat)
    ensures k <= |s|
  {
    if s == [] || s[0] == NEWLINE then 0 else 1 + FirstNewline(s[1..])
  }

  predicate OneLine(s: seq<byte>) { FirstNewline(s) == |s| }

  lemma {:induction false} CutAtNewline(s: seq<byte>)
    ensures OneLine(s[..FirstNewline(s)])
    ensures FirstNewline(s[FirstNewline(s)..]) == 0
  {
    if s != [] && s[0] != NEWLINE {
      CutAtNewline(s[1..]);
      var k := FirstNewline(s);
      assert s[..k][1..] == s[1..][..k - 1] && s[k..] == s[1..][k - 1..];
    }
  }

  function StripReturn(line: seq<byte>): seq<byte> {
    if line != [] && line[|line| - 1] == CARRIAGE_RETURN then line[..|line| - 1] else line
  }

  /** The next non-empty line; a line longer than `max`, its return included, is an error. */
  function LineOf(input: seq<byte>, end: End, max: nat): NextLine
    decreases |input|
  {
    var k := FirstNewline(input);
    if k > max then LineError(TooLong)
    else if k < |input| then
      var line := StripReturn(input[..k]);
      if line == [] then LineOf(input[k + 1..], end, max) else Line(line, input[k + 1..])
    else if end == Broken then LineError(Interrupted)
    else if input == [] then NoLine
    else Line(input, [])
  }

  /** The first line of the input, up to its newline, and what follows it. */
  ghost predicate TakesLine(input: seq<byte>, line: seq<byte>, rest: seq<byte>, max: nat) {
    var k := FirstNewline(input);
    k < |input| && k <= max && line == StripReturn(input[..k]) && rest == input[k + 1..]
  }

  lemma {:induction false} LineShrinks(input: seq<byte>, end: End, max: nat)
    requires LineOf(input, end, max).Line?
    ensures |LineOf(input, end, max).rest| < |input|
    ensures 0 < |LineOf(input, end, max).line| <= max
    decreases |input|
  {
    var k := FirstNewline(input);
    if k < |input| && StripReturn(input[..k]) == [] { LineShrinks(input[k + 1..], end, max); }
  }

  lemma {:induction false} NewlineAfter(a: seq<byte>, b: seq<byte>)
    requires OneLine(a)
    ensures FirstNewline(a + b) == |a| + FirstNewline(b)
  {
    if a == [] {
      assert a + b == b;
    } else {
      assert (a + b)[1..] == a[1..] + b;
      NewlineAfter(a[1..], b);
    }
  }

  function BytesOf(chunks: seq<Chunk>): seq<byte> {
    if chunks == [] || chunks[0].Failure? then [] else chunks[0].bytes + BytesOf(chunks[1..])
  }

  function EndOf(chunks: seq<Chunk>): End {
    if chunks == [] then Eof else if chunks[0].Failure? then Broken else EndOf(chunks[1..])
  }

  // ----- what the batches of an input are -----

  datatype Row<T> = Row(event: T, size: nat)

  datatype NextRow<T> = Got(row: Row<T>, rest: seq<byte>) | NoRow | RowError(error: Error)

  datatype Config<!T> = Config(limits: Limits, parse: seq<byte> -> Option<T>)

  function ParsedRow<T>(input: seq<byte>, end: End, config: Config<T>): NextRow<T> {
    match LineOf(input, end, config.limits.maxEventBytes)
    case NoLine => NoRow
    case LineError(error) => RowError(error)
    case Line(line, rest) =>
      match config.parse(line)
      case None => RowError(Invalid)
      case Some(event) => Got(Row(event, |line|), rest)
  }

  /** A row kept back by the last batch comes first. */
  function RowOf<T>(kept: Option<Row<T>>, input: seq<byte>, end: End, config: Config<T>): NextRow<T> {
    if kept.Some? then Got(kept.value, input) else ParsedRow(input, end, config)
  }

  function Bytes<T>(batch: seq<Row<T>>): nat {
    if batch == [] then 0 else Bytes(batch[..|batch| - 1]) + batch[|batch| - 1].size
  }

  function EventsOf<T>(batch: seq<Row<T>>): seq<T> {
    if batch == [] then [] else EventsOf(batch[..|batch| - 1]) + [batch[|batch| - 1].event]
  }

  datatype Filled<T> = Batch(rows: seq<Row<T>>, kept: Option<Row<T>>, rest: seq<byte>) | NoBatch | BatchError(error: Error)

  function Weight<T>(kept: Option<Row<T>>, input: seq<byte>): nat { |input| + if kept.Some? then 1 else 0 }

  lemma RowShrinks<T>(kept: Option<Row<T>>, input: seq<byte>, end: End, config: Config<T>)
    requires RowOf(kept, input, end, config).Got?
    ensures Weight(Option<Row<T>>.None, RowOf(kept, input, end, config).rest) < Weight(kept, input)
    ensures kept.None? ==> RowOf(kept, input, end, config).row.size <= config.limits.maxEventBytes
  {
    if kept.None? { LineShrinks(input, end, config.limits.maxEventBytes); }
  }

  /** Fills a batch until a limit is met, a row does not fit, or the input ends. */
  function FillOf<T>(batch: seq<Row<T>>, kept: Option<Row<T>>, input: seq<byte>, end: End, config: Config<T>): Filled<T>
    decreases Weight(kept, input)
  {
    match RowOf(kept, input, end, config)
    case RowError(error) => BatchError(error)
    case NoRow => if batch == [] then NoBatch else Batch(batch, None, [])
    case Got(row, rest) =>
      if batch != [] && Bytes(batch) + row.size > config.limits.maxBatchBytes then Batch(batch, Some(row), rest)
      else
        var longer := batch + [row];
        if |longer| >= config.limits.batchSize || Bytes(longer) >= config.limits.maxBatchBytes then Batch(longer, None, rest)
        else
          RowShrinks(kept, input, end, config);
          FillOf(longer, None, rest, end, config)
  }

  lemma Appended<T>(batch: seq<Row<T>>, row: Row<T>)
    ensures Bytes(batch + [row]) == Bytes(batch) + row.size
    ensures EventsOf(batch + [row]) == EventsOf(batch) + [row.event]
  {
    assert (batch + [row])[..|batch|] == batch;
  }

  // ----- the reader -----

  datatype LineOutcome = GotLine(line: seq<byte>) | LastLine | LineFailed(error: Error)

  datatype RowOutcome<T> = Taken(row: Row<T>) | Finished | Failed(error: Error)

  datatype BatchOutcome<T> = GotBatch(events: seq<T>) | LastBatch | BatchFailed(error: Error)

  class EventBatches<T> {
    const config: Config<T>
    var stream: seq<Chunk>
    var current: seq<byte>
    var offset: nat
    var line: seq<byte>
    var kept: Option<Row<T>>
    var eof: bool

    ghost predicate Valid()
      reads this
    {
      && config.limits.Valid()
      && offset <= |current| && OneLine(line) && |line| <= config.limits.maxEventBytes
      && (eof ==> stream == [] && offset == |current|)
    }

    /** Everything not yet handed out, regardless of how it is cut into chunks. */
    ghost function Unread(): seq<byte>
      reads this
      requires Valid()
    {
      line + current[offset..] + BytesOf(stream)
    }

    constructor (stream: seq<Chunk>, config: Config<T>)
      requires config.limits.Valid()
      ensures Valid() && Unread() == BytesOf(stream) && this.stream == stream
      ensures this.config == config && kept == None
    {
      this.config, this.stream, current, offset := config, stream, [], 0;
      line, kept, eof := [], None, false;
    }

    /** Moves the current chunk's bytes into the line, up to and including a newline. */
    method ScanChunk() returns (scan: Scan)
      requires Valid()
      modifies this`line, this`offset
      ensures Valid()
      ensures match scan
              case Overflow => FirstNewline(old(Unread())) > config.limits.maxEventBytes
              case Whole(l) => TakesLine(old(Unread()), l, Unread(), config.limits.maxEventBytes)
              case Partial => Unread() == old(Unread()) && offset == |current|
      ensures scan.Whole? ==> old(offset) < offset
    {
      var remaining := current[offset..];
      var k := FirstNewline(remaining);
      ghost var behind := BytesOf(stream);
      if k < |remaining| { Located(line, remaining, behind); } else { Unended(line, remaining, behind); }
      if |line| + k > config.limits.maxEventBytes { return Overflow; }
      if k < |remaining| {
        var whole := StripReturn(line + remaining[..k]);
        ghost var after := remaining[k + 1..];
        TakeLine(line, remaining, behind, k, config.limits.maxEventBytes);
        assert current[offset + k + 1..] == after;
        line, offset := [], offset + k + 1;
        return Whole(whole);
      }
      assert remaining[..k] == remaining;
      Regroup(line, remaining, behind);
      line, offset := line + remaining, |current|;
      assert current[offset..] == [];
      return Partial;
    }

    /** Waits for the next chunk. */
    method Refill() returns (failed: bool)
      requires Valid() && !eof && offset == |current|
      modifies this`stream, this`current, this`offset, this`eof
      ensures Valid()
      ensures failed ==> old(EndOf(stream)) == Broken && old(Unread()) == line
      ensures !failed ==> Unread() == old(Unread()) && EndOf(stream) == old(EndOf(stream))
      ensures |stream| < old(|stream|) || (stream == old(stream) && eof)
    {
      Regroup(line, [], BytesOf(stream));
      assert current[offset..] == [];
      if stream == [] {
        eof := true;
        return false;
      }
      var chunk := stream[0];
      if chunk.Failure? { stream := stream[1..]; return true; }
      Regroup(line, chunk.bytes, BytesOf(stream[1..]));
      stream, current, offset := stream[1..], chunk.bytes, 0;
      assert current[0..] == chunk.bytes;
      failed := false;
    }

    method ReadLine() returns (outcome: LineOutcome)
      requires Valid()
      modifies this
      ensures Valid() && kept == old(kept) && (!outcome.LineFailed? ==> EndOf(stream) == old(EndOf(stream)))
      ensures match old(LineOf(Unread(), EndOf(stream), config.limits.maxEventBytes))
              case Line(l, rest) => outcome == GotLine(l) && Unread() == rest
              case NoLine => outcome == LastLine && Unread() == []
              case LineError(error) => outcome == LineFailed(error)
    {
      ghost var end, max := EndOf(stream), config.limits.maxEventBytes;
      while true
        invariant Valid() && kept == old(kept) && EndOf(stream) == end
        invariant LineOf(Unread(), end, max) == LineOf(old(Unread()), end, max)
        decreases |stream|, if eof then 0 else 1, |current| - offset
      {
        if offset < |current| {
          var scan := ScanChunk();
          match scan {
            case Overflow => return LineFailed(TooLong);
            case Whole(l) =>
              if l != [] { return GotLine(l); }
              continue;
            case Partial =>
          }
        }
        Regroup(line, [], []);
        if eof {
          outcome := if line == [] then LastLine else GotLine(line);
          assert Unread() == line;
          line := [];
          return;
        }
        var failed := Refill();
        if failed { return LineFailed(Interrupted); }
      }
    }

    /** The row kept back by the last batch, or the next line parsed. */
    method TakeRow() returns (next: RowOutcome<T>)
      requires Valid()
      modifies this
      ensures Valid() && (next.Failed? || EndOf(stream) == old(EndOf(stream)))
      ensures match old(RowOf(kept, Unread(), EndOf(stream), config))
              case Got(row, rest) => next == Taken(row) && kept == None && Unread() == rest
              case NoRow => next == Finished && kept == None && Unread() == []
              case RowError(error) => next == Failed(error)
    {
      if kept.Some? {
        next, kept := Taken(kept.value), None;
        return;
      }
      var outcome := ReadLine();
      match outcome {
        case LastLine => return Finished;
        case LineFailed(error) => return Failed(error);
        case GotLine(line) =>
          var event := config.parse(line);
          return if event.None? then Failed(Invalid) else Taken(Row(event.value, |line|));
      }
    }

    method NextBatch() returns (outcome: BatchOutcome<T>)
      requires Valid()
      modifies this
      ensures Valid() && (outcome.BatchFailed? || EndOf(stream) == old(EndOf(stream)))
      ensures match old(FillOf([], kept, Unread(), EndOf(stream), config))
              case Batch(rows, k, rest) => outcome == GotBatch(EventsOf(rows)) && kept == k && Unread() == rest
              case NoBatch => outcome == LastBatch
              case BatchError(error) => outcome == BatchFailed(error)
    {
      var batch, bytes := [], 0;
      ghost var rows: seq<Row<T>>, end := [], EndOf(stream);
      while true
        invariant Valid() && EndOf(stream) == end
        invariant batch == EventsOf(rows) && bytes == Bytes(rows) && |batch| == |rows|
        invariant FillOf(rows, kept, Unread(), end, config) == FillOf([], old(kept), old(Unread()), end, config)
        decreases Weight(kept, Unread())
      {
        if RowOf(kept, Unread(), end, config).Got? { RowShrinks(kept, Unread(), end, config); }
        var next := TakeRow();
        match next {
          case Failed(error) => return BatchFailed(error);
          case Finished => return if batch == [] then LastBatch else GotBatch(batch);
          case Taken(row) =>
            if batch != [] && bytes + row.size > config.limits.maxBatchBytes {
              kept := Some(row);
              return GotBatch(batch);
            }
            Appended(rows, row);
            batch, bytes, rows := batch + [row.event], bytes + row.size, rows + [row];
            if |batch| >= config.limits.batchSize || bytes >= config.limits.maxBatchBytes { return GotBatch(batch); }
        }
      }
    }
  }

  datatype Scan = Overflow | Whole(line: seq<byte>) | Partial

  lemma Regroup(line: seq<byte>, remaining: seq<byte>, behind: seq<byte>)
    ensures line + remaining + behind == (line + remaining) + [] + behind == line + [] + (remaining + behind)
    ensures [] + remaining + behind == remaining + behind && line + [] + [] == line
  {
    assert line + remaining + behind == line + (remaining + behind);
    assert line + [] == line;
  }

  lemma Located(line: seq<byte>, remaining: seq<byte>, behind: seq<byte>)
    requires OneLine(line) && FirstNewline(remaining) < |remaining|
    ensures FirstNewline(line + remaining + behind) == |line| + FirstNewline(remaining)
  {
    var k := FirstNewline(remaining);
    var head, back := remaining[..k], remaining[k..] + behind;
    CutAtNewline(remaining);
    NewlineAfter(line, head);
    NewlineAfter(line + head, back);
    assert line + remaining + behind == (line + head) + back;
    assert back[0] == remaining[k..][0];
  }

  lemma Unended(line: seq<byte>, remaining: seq<byte>, behind: seq<byte>)
    requires OneLine(line) && OneLine(remaining)
    ensures OneLine(line + remaining)
    ensures FirstNewline(line + remaining + behind) >= |line + remaining|
  {
    NewlineAfter(line, remaining);
    NewlineAfter(line + remaining, behind);
  }

  lemma Around(line: seq<byte>, remaining: seq<byte>, behind: seq<byte>, k: nat)
    requires k < |remaining|
    ensures (line + remaining + behind)[..|line| + k] == line + remaining[..k]
    ensures (line + remaining + behind)[|line| + k + 1..] == [] + remaining[k + 1..] + behind
  {
  }

  /** A newline in the current chunk ends the line, and what follows is read next. */
  lemma TakeLine(line: seq<byte>, remaining: seq<byte>, behind: seq<byte>, k: nat, max: nat)
    requires FirstNewline(line + remaining + behind) == |line| + k <= max && k < |remaining|
    ensures TakesLine(line + remaining + behind, StripReturn(line + remaining[..k]), [] + remaining[k + 1..] + behind, max)
  {
    Around(line, remaining, behind, k);
  }

  // ----- the whole response -----

  /** What was read before the end or the first error. */
  datatype Reading<T> = Reading(parts: seq<T>, error: Option<Error>)

  function RowsOf<T>(kept: Option<Row<T>>, input: seq<byte>, end: End, config: Config<T>): Reading<Row<T>>
    decreases Weight(kept, input)
  {
    match RowOf(kept, input, end, config)
    case NoRow => Reading([], None)
    case RowError(error) => Reading([], Some(error))
    case Got(row, rest) =>
      RowShrinks(kept, input, end, config);
      var later := RowsOf(None, rest, end, config);
      Reading([row] + later.parts, later.error)
  }

  lemma {:induction false} FillShrinks<T>(batch: seq<Row<T>>, kept: Option<Row<T>>, input: seq<byte>, end: End, config: Config<T>)
    requires FillOf(batch, kept, input, end, config).Batch?
    ensures var fill := FillOf(batch, kept, input, end, config);
            Weight(fill.kept, fill.rest) <= Weight(kept, input) - if batch == [] then 1 else 0
    decreases Weight(kept, input)
  {
    var next := RowOf(kept, input, end, config);
    if next.Got? {
      RowShrinks(kept, input, end, config);
      var longer := batch + [next.row];
      if FillOf(batch, kept, input, end, config) == FillOf(longer, None, next.rest, end, config) {
        FillShrinks(longer, None, next.rest, end, config);
      }
    }
  }

  function BatchesOf<T>(kept: Option<Row<T>>, input: seq<byte>, end: End, config: Config<T>): Reading<seq<Row<T>>>
    decreases Weight(kept, input)
  {
    match FillOf([], kept, input, end, config)
    case NoBatch => Reading([], None)
    case BatchError(error) => Reading([], Some(error))
    case Batch(rows, kept', rest) =>
      FillShrinks([], kept, input, end, config);
      var later := BatchesOf(kept', rest, end, config);
      Reading([rows] + later.parts, later.error)
  }

  ghost predicate WithinLimits<T>(rows: seq<Row<T>>, limits: Limits) {
    0 < |rows| <= limits.batchSize && Bytes(rows) <= limits.maxBatchBytes
  }

  /** A batch is handed out because it is full, because the next row does not fit, or at the end. */
  ghost predicate ClosedFor<T>(rows: seq<Row<T>>, kept: Option<Row<T>>, later: Reading<Row<T>>, limits: Limits) {
    if kept.Some? then Bytes(rows) + kept.value.size > limits.maxBatchBytes
    else |rows| == limits.batchSize || Bytes(rows) == limits.maxBatchBytes || later == Reading([], None)
  }

  ghost predicate Small<T>(kept: Option<Row<T>>, limits: Limits) { kept.Some? ==> kept.value.size <= limits.maxEventBytes }

  lemma {:induction false} NoLineAtEnd(input: seq<byte>, end: End, max: nat)
    requires LineOf(input, end, max).NoLine?
    ensures end == Eof && LineOf([], end, max).NoLine?
    decreases |input|
  {
    var k := FirstNewline(input);
    if k < |input| { NoLineAtEnd(input[k + 1..], end, max); }
  }

  ghost predicate Accounts<T>(batch: seq<Row<T>>, all: Reading<Row<T>>, fill: Filled<T>, end: End, config: Config<T>) {
    match fill
    case NoBatch => batch == [] && all == Reading([], None)
    case BatchError(error) => all.error == Some(error)
    case Batch(rows, kept, rest) =>
      var later := RowsOf(kept, rest, end, config);
      && batch + all.parts == rows + later.parts && all.error == later.error
      && WithinLimits(rows, config.limits) && Small(kept, config.limits)
      && ClosedFor(rows, kept, later, config.limits)
  }

  lemma AccountsBefore<T>(batch: seq<Row<T>>, row: Row<T>, later: Reading<Row<T>>, fill: Filled<T>, end: End, config: Config<T>)
    requires Accounts(batch + [row], later, fill, end, config)
    ensures Accounts(batch, Reading([row] + later.parts, later.error), fill, end, config)
  {
    assert batch + ([row] + later.parts) == (batch + [row]) + later.parts;
  }

  /** Filling one batch moves rows from the stream to the batch and loses none, the kept row included. */
  lemma {:induction false} FillMovesRows<T>(batch: seq<Row<T>>, kept: Option<Row<T>>, input: seq<byte>, end: End, config: Config<T>)
    requires config.limits.Valid() && Small(kept, config.limits)
    requires |batch| < config.limits.batchSize && Bytes(batch) < config.limits.maxBatchBytes
    ensures Accounts(batch, RowsOf(kept, input, end, config), FillOf(batch, kept, input, end, config), end, config)
    decreases Weight(kept, input)
  {
    var next := RowOf(kept, input, end, config);
    match next {
      case RowError(_) =>
      case NoRow => NoLineAtEnd(input, end, config.limits.maxEventBytes);
      case Got(row, rest) =>
        RowShrinks(kept, input, end, config);
        Appended(batch, row);
        var longer, later := batch + [row], RowsOf(None, rest, end, config);
        if batch != [] && Bytes(batch) + row.size > config.limits.maxBatchBytes {
        } else {
          if |longer| < config.limits.batchSize && Bytes(longer) < config.limits.maxBatchBytes {
            FillMovesRows(longer, None, rest, end, config);
          }
          AccountsBefore(batch, row, later, FillOf(batch, kept, input, end, config), end, config);
        }
    }
  }

  /** A batch with another behind it is full, or the first row behind does not fit. */
  ghost predicate Packed<T>(parts: seq<seq<Row<T>>>, limits: Limits) {
    forall i :: 0 <= i < |parts| - 1 ==> NoRoomFor(parts[i], parts[i + 1], limits)
  }

  ghost predicate NoRoomFor<T>(rows: seq<Row<T>>, next: seq<Row<T>>, limits: Limits) {
    next != [] && (|rows| == limits.batchSize || Bytes(rows) == limits.maxBatchBytes || Bytes(rows) + next[0].size > limits.maxBatchBytes)
  }

  lemma NextHasNoRoom<T>(fill: Filled<T>, end: End, config: Config<T>)
    requires config.limits.Valid() && fill.Batch? && Small(fill.kept, config.limits)
    requires ClosedFor(fill.rows, fill.kept, RowsOf(fill.kept, fill.rest, end, config), config.limits)
    ensures var next := FillOf([], fill.kept, fill.rest, end, config);
            next.Batch? ==> NoRoomFor(fill.rows, next.rows, config.limits)
  {
    FillMovesRows([], fill.kept, fill.rest, end, config);
    var next, later := FillOf([], fill.kept, fill.rest, end, config), RowsOf(fill.kept, fill.rest, end, config);
    if next.Batch? {
      assert [] + later.parts == later.parts;
      assert later.parts[0] == next.rows[0];
    }
  }

  lemma PackedBefore<T>(rows: seq<Row<T>>, later: seq<seq<Row<T>>>, limits: Limits)
    requires Packed(later, limits) && (later != [] ==> NoRoomFor(rows, later[0], limits))
    ensures Packed([rows] + later, limits)
  {
    var parts := [rows] + later;
    forall i | 0 <= i < |parts| - 1 ensures NoRoomFor(parts[i], parts[i + 1], limits) {
      if i > 0 { assert NoRoomFor(later[i - 1], later[i], limits); }
    }
  }

  /**
   * The batches are the response's rows in order, cut but not changed, each within both limits and cut
   * only where there was no room. After an error they are the rows up to some point before it.
   */
  lemma {:induction false} BatchesCoverRows<T>(kept: Option<Row<T>>, input: seq<byte>, end: End, config: Config<T>)
    requires config.limits.Valid() && Small(kept, config.limits)
    ensures var all, batches := RowsOf(kept, input, end, config), BatchesOf(kept, input, end, config);
            && batches.error == all.error
            && Flatten(batches.parts) <= all.parts && (all.error.None? ==> Flatten(batches.parts) == all.parts)
            && Packed(batches.parts, config.limits)
            && forall b :: b in batches.parts ==> WithinLimits(b, config.limits)
    decreases Weight(kept, input)
  {
    hide WithinLimits, NoRoomFor, Weight, Small;
    FillMovesRows([], kept, input, end, config);
    var fill := FillOf([], kept, input, end, config);
    if fill.Batch? {
      FillShrinks([], kept, input, end, config);
      BatchesCoverRows(fill.kept, fill.rest, end, config);
      NextHasNoRoom(fill, end, config);
      PackedBefore(fill.rows, BatchesOf(fill.kept, fill.rest, end, config).parts, config.limits);
      var later := BatchesOf(fill.kept, fill.rest, end, config).parts;
      assert ([fill.rows] + later)[1..] == later;
      assert [] + RowsOf(kept, input, end, config).parts == RowsOf(kept, input, end, config).parts;
    }
  }

  ghost predicate Delivers<T>(batches: seq<seq<T>>, parts: seq<seq<Row<T>>>) {
    |batches| == |parts| && forall i :: 0 <= i < |batches| ==> batches[i] == EventsOf(parts[i])
  }

  lemma DeliversNext<T>(batches: seq<seq<T>>, parts: seq<seq<Row<T>>>, rows: seq<Row<T>>)
    requires Delivers(batches, parts)
    ensures Delivers(batches + [EventsOf(rows)], parts + [rows])
  {
  }

  /** The batch loop of one attempt: its outcome depends on the bytes, not on how they were chunked. */
  method ReadAll<T>(chunks: seq<Chunk>, config: Config<T>) returns (batches: seq<seq<T>>, error: Option<Error>)
    requires config.limits.Valid()
    ensures var all := BatchesOf(None, BytesOf(chunks), EndOf(chunks), config);
            error == all.error && Delivers(batches, all.parts)
  {
    var reader := new EventBatches(chunks, config);
    ghost var end, all := EndOf(chunks), BatchesOf(None, BytesOf(chunks), EndOf(chunks), config);
    batches := [];
    ghost var read: seq<seq<Row<T>>> := [];
    while true
      invariant reader.Valid() && reader.config == config && fresh(reader) && EndOf(reader.stream) == end
      invariant Resumes(all, read, BatchesOf(reader.kept, reader.Unread(), end, config))
      invariant Delivers(batches, read)
      decreases Weight(reader.kept, reader.Unread())
    {
      ghost var fill := FillOf([], reader.kept, reader.Unread(), end, config);
      if fill.Batch? {
        FillShrinks([], reader.kept, reader.Unread(), end, config);
        ResumesNext(all, read, fill.rows, BatchesOf(fill.kept, fill.rest, end, config));
      }
      var outcome := reader.NextBatch();
      match outcome {
        case LastBatch => return batches, None;
        case BatchFailed(e) => return batches, Some(e);
        case GotBatch(events) =>
          DeliversNext(batches, read, fill.rows);
          batches, read := batches + [events], read + [fill.rows];
      }
    }
  }

  ghost predicate Resumes<T>(all: Reading<T>, read: seq<T>, later: Reading<T>) {
    all.parts == read + later.parts && all.error == later.error
  }

  lemma ResumesNext<T>(all: Reading<T>, read: seq<T>, part: T, later: Reading<T>)
    requires Resumes(all, read, Reading([part] + later.parts, later.error))
    ensures Resumes(all, read + [part], later)
  {
  }

  // ----- what a well-formed response reads as -----

  /** How a line ends: `returned` with a carriage return before the newline. */
  function Ending(returned: bool): seq<byte> { if returned then [CARRIAGE_RETURN, NEWLINE] else [NEWLINE] }

  predicate IsRow<T>(line: seq<byte>, returned: bool, config: Config<T>) {
    && 0 < |line| && |line| + |Ending(returned)| - 1 <= config.limits.maxEventBytes && OneLine(line) && line[|line| - 1] != CARRIAGE_RETURN
    && config.parse(line).Some?
  }

  /** One JSON document per line, each line ended. */
  function Encode(lines: seq<seq<byte>>, returned: bool): seq<byte> {
    if lines == [] then [] else lines[0] + Ending(returned) + Encode(lines[1..], returned)
  }

  function Parsed<T>(lines: seq<seq<byte>>, returned: bool, config: Config<T>): seq<Row<T>>
    requires forall i :: 0 <= i < |lines| ==> IsRow(lines[i], returned, config)
  {
    if lines == [] then []
    else
      assert IsRow(lines[0], returned, config);
      [Row(config.parse(lines[0]).value, |lines[0]|)] + Parsed(lines[1..], returned, config)
  }

  lemma FirstLine(line: seq<byte>, returned: bool, later: seq<byte>, max: nat)
    requires 0 < |line| && |line| + |Ending(returned)| - 1 <= max && OneLine(line) && line[|line| - 1] != CARRIAGE_RETURN
    ensures LineOf(line + Ending(returned) + later, Eof, max) == Line(line, later)
  {
    var whole := if returned then line + [CARRIAGE_RETURN] else line;
    if returned {
      NewlineAfter(line, [CARRIAGE_RETURN]);
      assert FirstNewline([CARRIAGE_RETURN]) == 1 by { assert [CARRIAGE_RETURN][1..] == []; }
    }
    var input := whole + ([NEWLINE] + later);
    assert line + Ending(returned) + later == input;
    NewlineAfter(whole, [NEWLINE] + later);
    assert input[..|whole|] == whole && input[|whole| + 1..] == later;
    assert StripReturn(whole) == line;
  }

  /** Rows written one per line read back, whether or not lines end in a carriage return too. */
  lemma {:induction false} EncodedRowsReadBack<T>(lines: seq<seq<byte>>, returned: bool, config: Config<T>)
    requires forall i :: 0 <= i < |lines| ==> IsRow(lines[i], returned, config)
    ensures RowsOf(None, Encode(lines, returned), Eof, config) == Reading(Parsed(lines, returned, config), None)
  {
    if lines != [] {
      assert IsRow(lines[0], returned, config);
      FirstLine(lines[0], returned, Encode(lines[1..], returned), config.limits.maxEventBytes);
      EncodedRowsReadBack(lines[1..], returned, config);
    }
  }

  /** A response that breaks off never reads as complete, whatever came before. */
  lemma {:induction false} BrokenIsError<T>(kept: Option<Row<T>>, input: seq<byte>, config: Config<T>)
    ensures RowsOf(kept, input, Broken, config).error.Some?
    decreases Weight(kept, input)
  {
    var next := RowOf(kept, input, Broken, config);
    if next.Got? {
      RowShrinks(kept, input, Broken, config);
      BrokenIsError(None, next.rest, config);
    } else if next.NoRow? {
      BrokenHasNoEnd(input, config.limits.maxEventBytes);
    }
  }

  lemma {:induction false} BrokenHasNoEnd(input: seq<byte>, max: nat)
    ensures !LineOf(input, Broken, max).NoLine?
    decreases |input|
  {
    var k := FirstNewline(input);
    if k <= max && k < |input| && StripReturn(input[..k]) == [] { BrokenHasNoEnd(input[k + 1..], max); }
  }
}
