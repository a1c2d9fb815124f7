/**
 * A CSV file as the pipeline sees it through `csv.DictWriter` and `csv.DictReader`:
 * a sequence of lines, each either the header line (the field names) or one record.
 * A file that does not exist on disk is `None`.
 */
module Csv {
  import opened Base

  datatype Line<R> = Header | Data(row: R)

  /** The state of one file on disk: `None` when it does not exist. */
  type File<R> = Option<seq<Line<R>>>

  /** One line per record, in order (`writer.writerow` in a loop, or `writer.writerows`). */
  function DataLines<R>(rows: seq<R>): (lines: seq<Line<R>>)
    ensures |lines| == |rows|
    ensures forall i :: 0 <= i < |rows| ==> lines[i] == Data(rows[i])
  {
    seq(|rows|, i requires 0 <= i < |rows| => Data(rows[i]))
  }

  /** The records among some lines; header lines carry none. */
  function RowsOf<R>(lines: seq<Line<R>>): seq<R>
  {
    if lines == [] then []
    else (if lines[0].Data? then [lines[0].row] else []) + RowsOf(lines[1..])
  }

  /** `csv.DictReader`: the first line is taken as the field names, every later line is read as a record. */
  function ReadRows<R>(lines: seq<Line<R>>): seq<R>
  {
    if lines == [] then [] else RowsOf(lines[1..])
  }

  /** A file written as a header followed by records: what every writer of this pipeline produces. */
  function Fresh<R>(rows: seq<R>): (lines: seq<Line<R>>)
    ensures |lines| == |rows| + 1 && lines[0] == Header
  {
    [Header] + DataLines(rows)
  }

  lemma {:induction false} RowsOfDataLines<R>(rows: seq<R>)
    ensures RowsOf(DataLines(rows)) == rows
  {
    if rows != [] {
      assert DataLines(rows)[1..] == DataLines(rows[1..]);
      RowsOfDataLines(rows[1..]);
    }
  }

  /** Reading back a file written as header plus records gives exactly those records. */
  lemma ReadFresh<R>(rows: seq<R>)
    ensures ReadRows(Fresh(rows)) == rows
  {
    assert Fresh(rows)[1..] == DataLines(rows);
    RowsOfDataLines(rows);
  }

  /** Appending records to a header-plus-records file extends what is read back. */
  lemma ExtendFresh<R>(rows: seq<R>, more: seq<R>)
    ensures Fresh(rows) + DataLines(more) == Fresh(rows + more)
  {
  }
}
