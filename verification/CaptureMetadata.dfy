/** The running summary the writer keeps of the rows it has formatted, compared with
    a summary computed from the finished list of rows. */
module CaptureMetadata {
  import opened Wrappers

  const WORD32: nat := 0x1_0000_0000

  type Word32 = w: nat | w < WORD32

  /** One CSV row: the columns the summary looks at, and the rest as an opaque payload. */
  datatype Row = Row(
    timestampNs: int,
    rdtSequence: Word32,
    configurationRevision: nat,
    forceUnit: nat,
    torqueUnit: nat,
    payload: nat)

  datatype Capture = Capture(
    firstTimestampNs: Option<int>,
    lastTimestampNs: Option<int>,
    lastRdt: Option<Word32>,
    rdtGaps: nat,
    revisions: set<nat>,
    forceUnits: set<nat>,
    torqueUnits: set<nat>)

  /** Sequence numbers skipped going forward from `previous` to `current`, modulo 2^32;
      repeats and backward jumps skip nothing. */
  function GapBetween(previous: Word32, current: Word32): nat {
    var delta := (current - previous) % WORD32;
    if 0 < delta < 0x8000_0000 then delta - 1 else 0
  }

  function Gaps(rows: seq<Row>): nat {
    if |rows| < 2 then 0
    else
      Gaps(rows[..|rows| - 1]) +
      GapBetween(rows[|rows| - 2].rdtSequence, rows[|rows| - 1].rdtSequence)
  }

  /** The summary of a finished list of rows. */
  function Summary(rows: seq<Row>): Capture {
    Capture(
      if rows == [] then None else Some(rows[0].timestampNs),
      if rows == [] then None else Some(rows[|rows| - 1].timestampNs),
      if rows == [] then None else Some(rows[|rows| - 1].rdtSequence),
      Gaps(rows),
      set row <- rows :: row.configurationRevision,
      set row <- rows :: row.forceUnit,
      set row <- rows :: row.torqueUnit)
  }

  /** The writer's update for one row. */
  function Note(c: Capture, row: Row): Capture {
    Capture(
      if c.firstTimestampNs.None? then Some(row.timestampNs) else c.firstTimestampNs,
      Some(row.timestampNs),
      Some(row.rdtSequence),
      c.rdtGaps + (if c.lastRdt.Some? then GapBetween(c.lastRdt.value, row.rdtSequence) else 0),
      c.revisions + {row.configurationRevision},
      c.forceUnits + {row.forceUnit},
      c.torqueUnits + {row.torqueUnit})
  }

  function NoteAll(c: Capture, batch: seq<Row>): Capture
    decreases |batch|
  {
    if batch == [] then c else NoteAll(Note(c, batch[0]), batch[1..])
  }

  lemma NoteExtendsSummary(rows: seq<Row>, row: Row)
    ensures Note(Summary(rows), row) == Summary(rows + [row])
  {
    var c, c' := Note(Summary(rows), row), Summary(rows + [row]);
    assert (rows + [row])[..|rows|] == rows;
    assert forall r :: r in rows + [row] <==> r in rows || r == row;
    assert c.revisions == c'.revisions;
    assert c.forceUnits == c'.forceUnits;
    assert c.torqueUnits == c'.torqueUnits;
  }

  /** However the rows are cut into batches, the running summary is the summary of all
      rows so far. */
  lemma {:induction false} BatchesDoNotMatter(rows: seq<Row>, batch: seq<Row>)
    ensures NoteAll(Summary(rows), batch) == Summary(rows + batch)
    decreases |batch|
  {
    if batch == [] {
      assert rows + batch == rows;
    } else {
      NoteExtendsSummary(rows, batch[0]);
      BatchesDoNotMatter(rows + [batch[0]], batch[1..]);
      assert rows + [batch[0]] + batch[1..] == rows + batch;
    }
  }

  /** The rows carry true sequence numbers modulo 2^32. */
  predicate Carries(rows: seq<Row>, numbers: seq<int>) {
    |rows| == |numbers| && forall i :: 0 <= i < |rows| ==> rows[i].rdtSequence == numbers[i] % 0x1_0000_0000
  }

  lemma GapOfStep(a: int, b: int)
    requires -0x8000_0000 < b - a < 0x8000_0000
    ensures GapBetween(a % 0x1_0000_0000, b % 0x1_0000_0000) == if b > a then b - a - 1 else 0
  {
    assert (b % 0x1_0000_0000 - a % 0x1_0000_0000) % 0x1_0000_0000 == (b - a) % 0x1_0000_0000;
  }

  /** While the numbers rise, each by less than half the range, the gaps of a capture are the
      numbers it skips: those between the first and the last that no row carries. */
  lemma {:induction false} RisingGaps(rows: seq<Row>, numbers: seq<int>)
    requires rows != [] && Carries(rows, numbers)
    requires forall i :: 0 < i < |numbers| ==> 0 < numbers[i] - numbers[i - 1] < 0x8000_0000
    ensures Summary(rows).rdtGaps == numbers[|numbers| - 1] - numbers[0] + 1 - |rows|
    decreases |rows|
  {
    var n := |rows| - 1;
    if n > 0 {
      RisingGaps(rows[..n], numbers[..n]);
      GapOfStep(numbers[n - 1], numbers[n]);
    }
  }

  /** A repeated number, or one that goes back by less than half the range, adds none. */
  lemma NoGapBack(rows: seq<Row>, row: Row, was: int, now: int)
    requires rows != [] && rows[|rows| - 1].rdtSequence == was % 0x1_0000_0000 && row.rdtSequence == now % 0x1_0000_0000
    requires -0x8000_0000 < now - was <= 0
    ensures Summary(rows + [row]).rdtGaps == Summary(rows).rdtGaps
  {
    assert (rows + [row])[..|rows|] == rows;
    GapOfStep(was, now);
  }

  /** The writer-owned fields, updated row by row. */
  class CaptureLog {
    var capture: Capture
    ghost var rows: seq<Row>

    ghost predicate Valid()
      reads this
    {
      capture == Summary(rows)
    }

    constructor ()
      ensures Valid() && rows == []
    {
      capture := Capture(None, None, None, 0, {}, {}, {});
      rows := [];
    }

    method NoteRow(row: Row)
      requires Valid()
      modifies this
      ensures Valid()
      ensures rows == old(rows) + [row]
      ensures capture == Note(old(capture), row)
    {
      NoteExtendsSummary(rows, row);
      if capture.firstTimestampNs.None? {
        capture := capture.(firstTimestampNs := Some(row.timestampNs));
      }
      capture := capture.(lastTimestampNs := Some(row.timestampNs),
                          revisions := capture.revisions + {row.configurationRevision},
                          forceUnits := capture.forceUnits + {row.forceUnit},
                          torqueUnits := capture.torqueUnits + {row.torqueUnit});
      if capture.lastRdt.Some? {
        var delta := (row.rdtSequence - capture.lastRdt.value) % WORD32;
        if 0 < delta < 0x8000_0000 {
          capture := capture.(rdtGaps := capture.rdtGaps + delta - 1);
        }
      }
      capture := capture.(lastRdt := Some(row.rdtSequence));
      rows := rows + [row];
    }

    method NoteBatch(batch: seq<Row>)
      requires Valid()
      modifies this
      ensures Valid()
      ensures rows == old(rows) + batch
      ensures capture == NoteAll(old(capture), batch)
    {
      ghost var was := rows;
      assert was + batch[..0] == was;
      for index := 0 to |batch|
        invariant Valid() && rows == was + batch[..index]
      {
        assert was + batch[..index + 1] == was + batch[..index] + [batch[index]];
        NoteRow(batch[index]);
      }
      assert batch[..|batch|] == batch;
      BatchesDoNotMatter(was, batch);
    }
  }
}
