/**
 TimelineTable: the table of eclipse milestones in the middle of the front of the card, preceded by
 some empty lines that push it down the page. The PDF library's table is modelled as the column
 count, widths and the sequence of cells added to it, row after row; the document as the sequence
 of blocks added to it.
 */
module TimelineTables {
  import opened JavaStrings
  import opened Time
  import opened EclipseTypes
  import opened Timeline
  import opened Maths

  /** The number of empty lines above the table (`NUM_EMPTY_LINES`). */
  const NUM_EMPTY_LINES: nat := 17
  /** The table's width, as a percentage of the page (`PERCENTAGE_WIDTH`). */
  const PERCENTAGE_WIDTH: int := 68

  /** The columns of a total eclipse: there is no altitude column. */
  const COLUMN_NAMES: seq<string> := ["-/+ Tot.", "Time", "Mag.", "Comment"]
  const RELATIVE_COL_WIDTHS: seq<real> := [1.0, 1.0, 1.0, 5.0]
  /** The columns of every other kind of eclipse, including an altitude column. */
  const COLUMN_NAMES_PARTIAL: seq<string> := ["-/+ Max", "Time", "Mag.", "Alt.", "Comment"]
  const RELATIVE_COL_WIDTHS_PARTIAL: seq<real> := [1.0, 1.0, 1.0, 1.0, 5.0]

  datatype Align = Left | Center

  /**
   What a cell shows, before it is turned into text: a column name, an event's signed offset, its
   clock time, its magnitude, its altitude in degrees, or its comment.
   */
  datatype Content =
    | Name(name: string)
    | Offset(plusMinus: Duration)
    | Clock(when: NanoOfDay)
    | Mag(magnitude: real)
    | Alt(altitude: real)
    | Comment(comment: string)

  /** A cell: what it shows, its horizontal alignment, and whether it has the grey header background. */
  datatype Cell = Cell(content: Content, align: Align, shaded: bool)

  /** What `tableFor` hands to the document. */
  datatype Table = Table(columns: nat, widthPercentage: int, widths: seq<real>, headerRows: nat, cells: seq<Cell>)

  /** What the document receives: a paragraph of text, or a table. */
  datatype Block = Paragraph(text: string) | TableBlock(table: Table)

  /**
   The number formats the table uses: `DecimalFormat("0.000")` for the magnitude and
   `Double.toString` for the altitude.
   */
  datatype Formats = Formats(magnitude: real -> string, double: real -> string)

  /**
   The text of a cell: the offset as "hhmmss" with its sign, the clock time with the pattern
   "hh:mm:ss", the magnitude rounded to three places then formatted, the altitude followed by a
   degree sign; names and comments as they are.
   */
  function Text(c: Content, formats: Formats): (r: string)
    ensures c.Offset? ==> |r| >= 8 && (r[0] == '-' <==> c.plusMinus < 0)
    ensures c.Clock? ==> |r| == 8 && r[2] == ':' && r[5] == ':'
    ensures c.Alt? ==> |r| >= 1 && r[|r| - 1] == '°'
    ensures c.Name? ==> r == c.name
    ensures c.Comment? ==> r == c.comment
  {
    match c
    case Name(name) => name
    case Offset(d) => Hhmmss(d)
    case Clock(when) => FormatHhMmSs(LocalDateTime(0, when))
    case Mag(m) => formats.magnitude(RoundToThreePlaces(m))
    case Alt(a) => formats.double(a) + "°"
    case Comment(s) => s
  }

  /** `columnNames`: the altitude column is present exactly when the eclipse is not total. */
  function ColumnNames(t: EclipseType): (r: seq<string>)
    ensures |r| == (if t == Total then 4 else 5)
  {
    if t == Total then COLUMN_NAMES else COLUMN_NAMES_PARTIAL
  }

  /**
   The columns: the offset (from totality for a total eclipse, from the maximum otherwise), the
   time, the magnitude, the altitude for all but a total eclipse, and the comment last. Only the
   last column is called "Comment".
   */
  lemma ColumnNamesContent(t: EclipseType)
    ensures var r := ColumnNames(t);
      && r[0] == (if t == Total then "-/+ Tot." else "-/+ Max")
      && r[1] == "Time" && r[2] == "Mag." && (t != Total ==> r[3] == "Alt.") && r[|r| - 1] == "Comment"
      && forall i :: 0 <= i < |r| - 1 ==> r[i] != "Comment"
  {
    var r := ColumnNames(t);
    forall i | 0 <= i < |r| - 1
      ensures r[i] != "Comment"
    {
      assert r[i][0] != 'C';
    }
  }

  /** `relativeColWidths`: one width per column, the comment five times as wide as the others. */
  function RelativeColWidths(t: EclipseType): (r: seq<real>)
    ensures |r| == |ColumnNames(t)|
    ensures r[|r| - 1] == 5.0 && forall i :: 0 <= i < |r| - 1 ==> r[i] == 1.0
  {
    if t == Total then RELATIVE_COL_WIDTHS else RELATIVE_COL_WIDTHS_PARTIAL
  }

  /** The alignment of a header: the comment is left-aligned, everything else centred. */
  function ColumnAlign(name: string): Align {
    if name == "Comment" then Left else Center
  }

  /** The header row: one shaded cell per column name. */
  function Header(t: EclipseType): (r: seq<Cell>)
    ensures |r| == |ColumnNames(t)|
    ensures forall i :: 0 <= i < |r| ==>
      r[i].content == Name(ColumnNames(t)[i]) && r[i].align == ColumnAlign(ColumnNames(t)[i]) && r[i].shaded
  {
    var names := ColumnNames(t);
    seq(|names|, i requires 0 <= i < |names| => Cell(Name(names[i]), ColumnAlign(names[i]), true))
  }

  /** An unshaded cell of a data row. */
  function RowCell(content: Content, align: Align): Cell {
    Cell(content, align, false)
  }

  /**
   The cells `tableFor` adds for one event: every one centred but the comment, and no altitude
   cell for a total eclipse.
   */
  function RowCells(t: EclipseType, e: TimelineEvent): (r: seq<Cell>)
    ensures |r| == (if t == Total then 4 else 5)
  {
    var front := [RowCell(Offset(e.plusMinus), Center), RowCell(Clock(e.when), Center), RowCell(Mag(e.magnitude), Center)];
    var altitude := if t != Total then [RowCell(Alt(e.altitude), Center)] else [];
    front + altitude + [RowCell(Comment(e.text), Left)]
  }

  /**
   Every cell of an event's row is unshaded, is aligned as its column's header, and shows what
   that column names: the offset, time, magnitude, altitude (not for a total eclipse) and comment.
   */
  lemma RowUnderHeader(t: EclipseType, e: TimelineEvent)
    ensures var r := RowCells(t, e);
      && (forall i :: 0 <= i < |r| ==> r[i].align == Header(t)[i].align && !r[i].shaded)
      && r[0].content == Offset(e.plusMinus) && r[1].content == Clock(e.when)
      && r[2].content == Mag(e.magnitude)
      && (t != Total ==> r[3].content == Alt(e.altitude))
      && r[|r| - 1].content == Comment(e.text)
  {
    ColumnNamesContent(t);
  }

  /** Cells laid out row after row. */
  function Flatten(rows: seq<seq<Cell>>): seq<Cell> {
    if |rows| == 0 then [] else Flatten(rows[..|rows| - 1]) + rows[|rows| - 1]
  }

  /** The data rows for a list of events, in the list's order. */
  function Rows(t: EclipseType, events: seq<TimelineEvent>): (r: seq<seq<Cell>>)
    ensures |r| == |events|
  {
    if |events| == 0 then [] else Rows(t, events[..|events| - 1]) + [RowCells(t, events[|events| - 1])]
  }

  /** Row k is the k-th event's row, of one cell per column. */
  lemma {:induction false} RowOfEvent(t: EclipseType, events: seq<TimelineEvent>, k: nat)
    requires k < |events|
    ensures Rows(t, events)[k] == RowCells(t, events[k]) && |Rows(t, events)[k]| == |ColumnNames(t)|
  {
    var last := |events| - 1;
    if k < last {
      RowOfEvent(t, events[..last], k);
    }
  }

  /** The header loop of `tableFor`: one `addHeaderCell` per column name. */
  method AddHeaderCells(t: EclipseType, cells: seq<Cell>) returns (result: seq<Cell>)
    ensures result == cells + Header(t)
  {
    var names := ColumnNames(t);
    result := cells;
    for k := 0 to |names|
      invariant result == cells + Header(t)[..k]
    {
      var align := if names[k] == "Comment" then Left else Center;
      result := result + [Cell(Name(names[k]), align, true)];
    }
    assert Header(t)[..|names|] == Header(t);
  }

  /** The body of the event loop of `tableFor`: one `addRowCell` per column. */
  method AddRowCells(t: EclipseType, e: TimelineEvent, cells: seq<Cell>) returns (result: seq<Cell>)
    ensures result == cells + RowCells(t, e)
  {
    result := cells + [RowCell(Offset(e.plusMinus), Center)];
    result := result + [RowCell(Clock(e.when), Center)];
    result := result + [RowCell(Mag(e.magnitude), Center)];
    if t != Total {
      result := result + [RowCell(Alt(e.altitude), Center)];
    }
    result := result + [RowCell(Comment(e.text), Left)];
  }

  /**
   `tableFor`: the table, whose cells are the header row followed by one row per event. The
   PDF library lays the cells out row by row, `columns` to a row.
   */
  method TableFor(t: EclipseType, events: seq<TimelineEvent>) returns (table: Table)
    ensures table.columns == |ColumnNames(t)| && table.widths == RelativeColWidths(t)
    ensures table.widthPercentage == PERCENTAGE_WIDTH && table.headerRows == 1
    ensures table.cells == Header(t) + Flatten(Rows(t, events))
  {
    var cells := AddHeaderCells(t, []);
    cells := AddEventRows(t, events, cells);
    table := Table(|ColumnNames(t)|, PERCENTAGE_WIDTH, RelativeColWidths(t), 1, cells);
  }

  /** The loop over the events of `tableFor`: one row of cells per event, in order. */
  method AddEventRows(t: EclipseType, events: seq<TimelineEvent>, cells: seq<Cell>) returns (result: seq<Cell>)
    ensures result == cells + Flatten(Rows(t, events))
  {
    result := cells;
    for k := 0 to |events|
      invariant result == cells + RowCellsUpTo(t, events, k)
    {
      result := AddRowCells(t, events[k], result);
    }
    RowCellsUpToIsFlatten(t, events, |events|);
    assert events[..|events|] == events;
  }

  /** The cells of the rows of the first k events, one row after another. */
  function RowCellsUpTo(t: EclipseType, events: seq<TimelineEvent>, k: nat): seq<Cell>
    requires k <= |events|
  {
    if k == 0 then [] else RowCellsUpTo(t, events, k - 1) + RowCells(t, events[k - 1])
  }

  lemma {:induction false} RowCellsUpToIsFlatten(t: EclipseType, events: seq<TimelineEvent>, k: nat)
    requires k <= |events|
    ensures RowCellsUpTo(t, events, k) == Flatten(Rows(t, events[..k]))
  {
    if k > 0 {
      RowCellsUpToIsFlatten(t, events, k - 1);
      RowsSnoc(t, events, k - 1);
    }
  }

  /** Flattening one more row appends that row's cells. */
  lemma FlattenSnoc(rows: seq<seq<Cell>>, row: seq<Cell>)
    ensures Flatten(rows + [row]) == Flatten(rows) + row
  {
    assert (rows + [row])[..|rows|] == rows;
  }

  /** The rows of one more event are the rows so far, then that event's row. */
  lemma RowsSnoc(t: EclipseType, events: seq<TimelineEvent>, k: nat)
    requires k < |events|
    ensures Flatten(Rows(t, events[..k + 1])) == Flatten(Rows(t, events[..k])) + RowCells(t, events[k])
  {
    assert events[..k + 1][..k] == events[..k];
    FlattenSnoc(Rows(t, events[..k]), RowCells(t, events[k]));
  }

  /** Rows of n cells each flatten to n cells per row. */
  lemma {:induction false} FlattenLength(rows: seq<seq<Cell>>, n: nat)
    requires forall k :: 0 <= k < |rows| ==> |rows[k]| == n
    ensures |Flatten(rows)| == |rows| * n
  {
    if |rows| > 0 {
      FlattenLength(rows[..|rows| - 1], n);
    }
  }

  /** Flattening a concatenation flattens each part, one after the other. */
  lemma {:induction false} FlattenAppend(a: seq<seq<Cell>>, b: seq<seq<Cell>>)
    ensures Flatten(a + b) == Flatten(a) + Flatten(b)
    decreases |b|
  {
    if |b| > 0 {
      var last := |b| - 1;
      assert (a + b)[..|a + b| - 1] == a + b[..last];
      assert (a + b)[|a + b| - 1] == b[last];
      FlattenAppend(a, b[..last]);
    } else {
      assert a + b == a;
    }
  }

  /**
   The table is rectangular: with n cells in every row, row k comes after exactly k full rows and
   the remaining rows follow it.
   */
  lemma RowAt(rows: seq<seq<Cell>>, n: nat, k: nat)
    requires forall j :: 0 <= j < |rows| ==> |rows[j]| == n
    requires k < |rows|
    ensures Flatten(rows) == Flatten(rows[..k]) + rows[k] + Flatten(rows[k + 1..])
    ensures |Flatten(rows[..k])| == k * n
  {
    FlattenLength(rows[..k], n);
    assert rows == rows[..k] + [rows[k]] + rows[k + 1..];
    FlattenAppend(rows[..k] + [rows[k]], rows[k + 1..]);
    FlattenAppend(rows[..k], [rows[k]]);
    assert [rows[k]][..0] == [];
  }

  /**
   In the table `tableFor` builds, the cell in column j of the row after the header row k is what
   the k-th event shows in that column, aligned as the header of that column.
   */
  lemma EventCell(t: EclipseType, events: seq<TimelineEvent>, k: nat, j: nat)
    requires k < |events| && j < |ColumnNames(t)|
    ensures var n := |ColumnNames(t)|;
      var cells := Header(t) + Flatten(Rows(t, events));
      n + k * n + j < |cells| && cells[n + k * n + j] == RowCells(t, events[k])[j]
      && cells[n + k * n + j].align == cells[j].align
  {
    var n, h, f := |ColumnNames(t)|, Header(t), Flatten(Rows(t, events));
    EventCellAt(t, events, k, j);
    var m := k * n + j;
    assert (h + f)[n + m] == f[m] && (h + f)[j] == h[j];
    RowUnderHeader(t, events[k]);
  }

  /** The position in the flattened data rows of column j of event k's row. */
  lemma EventCellAt(t: EclipseType, events: seq<TimelineEvent>, k: nat, j: nat)
    requires k < |events| && j < |ColumnNames(t)|
    ensures var n := |ColumnNames(t)|; var cells := Flatten(Rows(t, events));
      k * n + j < |cells| && cells[k * n + j] == RowCells(t, events[k])[j]
  {
    RowsUniform(t, events);
    CellAt(Rows(t, events), |ColumnNames(t)|, k, j);
    RowOfEvent(t, events, k);
  }

  /** Every data row has one cell per column. */
  lemma RowsUniform(t: EclipseType, events: seq<TimelineEvent>)
    ensures forall i :: 0 <= i < |Rows(t, events)| ==> |Rows(t, events)[i]| == |ColumnNames(t)|
  {
    forall i | 0 <= i < |Rows(t, events)|
      ensures |Rows(t, events)[i]| == |ColumnNames(t)|
    {
      RowOfEvent(t, events, i);
    }
  }

  /** With n cells in every row, cell j of row k is at k * n + j once the rows are flattened. */
  lemma CellAt(rows: seq<seq<Cell>>, n: nat, k: nat, j: nat)
    requires forall i :: 0 <= i < |rows| ==> |rows[i]| == n
    requires k < |rows| && j < n
    ensures k * n + j < |Flatten(rows)| && Flatten(rows)[k * n + j] == rows[k][j]
  {
    RowAt(rows, n, k);
  }

  /** `someEmptyLines`: the line separator n times (nothing when n is not positive). */
  method SomeEmptyLines(n: int, nl: string) returns (result: string)
    ensures result == Repeat(nl, if n < 0 then 0 else n)
  {
    result := "";
    var idx := 0;
    while idx < n
      invariant if n < 0 then idx == 0 else 0 <= idx <= n
      invariant result == Repeat(nl, idx)
    {
      result := result + nl;
      idx := idx + 1;
    }
  }

  /** Repeating a separator a + b times is repeating it a times then b times. */
  lemma {:induction false} RepeatAdd(s: string, a: nat, b: nat)
    ensures Repeat(s, a + b) == Repeat(s, a) + Repeat(s, b)
  {
    if b > 0 {
      RepeatAdd(s, a, b - 1);
    }
  }

  /** With a one-character separator the empty lines are that character and nothing else. */
  lemma {:induction false} RepeatSingle(c: char, n: nat)
    ensures forall i :: 0 <= i < |Repeat([c], n)| ==> Repeat([c], n)[i] == c
  {
    if n > 0 {
      RepeatSingle(c, n - 1);
    }
  }

  /**
   TimelineTable: draws on a document, modelled by the blocks added to it. The line separator is
   a parameter of the model.
   */
  class TimelineTable {
    const eclipseType: EclipseType
    const timelineEvents: seq<TimelineEvent>
    const nl: string
    var document: seq<Block>

    constructor (eclipseType: EclipseType, timelineEvents: seq<TimelineEvent>, document: seq<Block>, nl: string)
      ensures this.eclipseType == eclipseType && this.timelineEvents == timelineEvents
      ensures this.document == document && this.nl == nl
    {
      this.eclipseType := eclipseType;
      this.timelineEvents := timelineEvents;
      this.document := document;
      this.nl := nl;
    }

    /** `emptyLines`: a paragraph holding `num` line separators. */
    method EmptyLines(num: int)
      modifies this`document
      ensures document == old(document) + [Paragraph(Repeat(nl, if num < 0 then 0 else num))]
    {
      var lines := SomeEmptyLines(num, nl);
      document := document + [Paragraph(lines)];
    }

    /** `draw`: 17 empty lines, then the timeline table. */
    method Draw()
      modifies this`document
      ensures document == old(document) + [Paragraph(Repeat(nl, NUM_EMPTY_LINES)),
        TableBlock(Table(|ColumnNames(eclipseType)|, PERCENTAGE_WIDTH, RelativeColWidths(eclipseType), 1,
          Header(eclipseType) + Flatten(Rows(eclipseType, timelineEvents))))]
    {
      EmptyLines(NUM_EMPTY_LINES);
      var table := TableFor(eclipseType, timelineEvents);
      document := document + [TableBlock(table)];
    }
  }
}
