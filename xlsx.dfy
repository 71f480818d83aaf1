/** The worksheet decoder of internal/application/providers/xlsx_parser_provider.go.
    An XLSX file is a zip archive of SpreadsheetML parts (ECMA-376 Part 1):
    the decoder takes the shared string table (section 18.4) and the first
    worksheet part (section 18.3) and turns each `row` element into a row of
    exactly 55 texts, one per column A..BC. Unzipping and XML decoding are
    library calls: an archive entry here carries what those libraries decode
    from it. */
module XlsxParser {
  import opened Wrappers
  import opened Strconv

  /** Number of columns of every decoded row. */
  const TotalColumns: nat := 55

  /** A `c` element: its reference (`r`), its type (`t`) and its value (`v`). */
  datatype Cell = Cell(ref: string, kind: string, value: string)

  /** A `row` element with its row number (`r`) and its cells. */
  datatype RowXml = RowXml(number: int, cells: seq<Cell>)

  /** An archive entry: its name and what the XML decoder makes of it, read
      as a shared string table (the `t` of each `si`) and read as a
      worksheet (its rows); None when opening or decoding the entry fails. */
  datatype ZipEntry = ZipEntry(name: string, sharedItems: Option<seq<string>>, sheetRows: Option<seq<RowXml>>)

  /** Which step failed. */
  datatype ParseError =
    | ArchiveError       // the zip reader rejects the file
    | SharedStringsError // the shared string table cannot be opened or decoded
    | WorksheetError     // the worksheet cannot be opened, read or decoded
    | WorksheetNotFound  // "worksheet not found"

  const SharedStringsName := "xl/sharedStrings.xml"
  const WorksheetPrefix := "xl/worksheets/sheet"

  // ---------------------------------------------------------------------
  // Column letters

  predicate IsUpper(c: char) { 'A' <= c <= 'Z' }

  predicate AllUpper(s: string) {
    forall i :: 0 <= i < |s| ==> IsUpper(s[i])
  }

  /** What `^[A-Z]+` finds in a cell reference: its longest run of capital
      letters at the start, "" when there is none. */
  function LeadingLetters(s: string): (p: string)
    ensures p <= s && AllUpper(p)
    ensures |p| < |s| ==> !IsUpper(s[|p|])
  {
    if s != [] && IsUpper(s[0]) then [s[0]] + LeadingLetters(s[1..]) else []
  }

  /** The value of one letter in `colToIndex`: 'A' is 1, 'Z' is 26. */
  function LetterValue(c: char): int {
    c as int - 'A' as int + 1
  }

  /** The number `colToIndex` accumulates: the letters read left to right
      as a numeral in base 26 whose digits run from 1 to 26. */
  function ColumnNumber(col: string): int
  {
    if col == [] then 0 else 26 * ColumnNumber(col[..|col| - 1]) + LetterValue(col[|col| - 1])
  }

  /** `colToIndex`: the 0-based column of a run of letters. */
  function ColumnIndex(col: string): int
  {
    ColumnNumber(col) - 1
  }

  /** `colToIndex`, the loop that computes it. */
  method ColToIndex(col: string) returns (idx: int)
    ensures idx == ColumnIndex(col)
  {
    var acc := 0;
    for i := 0 to |col|
      invariant acc == ColumnNumber(col[..i])
    {
      assert col[..i + 1][..i] == col[..i];
      acc := acc * 26 + LetterValue(col[i]);
    }
    assert col[..|col|] == col;
    idx := acc - 1;
  }

  lemma ColumnIndexExamples()
    ensures ColumnIndex("A") == 0 && ColumnIndex("Z") == 25
    ensures ColumnIndex("AA") == 26 && ColumnIndex("AZ") == 51 && ColumnIndex("BA") == 52
    ensures ColumnIndex("BC") == 54 && ColumnIndex("BD") == TotalColumns
  {
    assert "AA"[..1] == "A" && "AZ"[..1] == "A" && "BA"[..1] == "B";
    assert "BC"[..1] == "B" && "BD"[..1] == "B";
  }

  /** Appending a letter c to s: colToIndex(s + c) = 26 * (colToIndex(s) + 1) + (c - 'A'). */
  lemma ColumnIndexSnoc(s: string, c: char)
    ensures ColumnIndex(s + [c]) == 26 * (ColumnIndex(s) + 1) + (c as int - 'A' as int)
  {
    assert (s + [c])[..|s|] == s;
  }

  function Pow26(n: nat): (p: nat)
    ensures p >= 1
  {
    if n == 0 then 1 else 26 * Pow26(n - 1)
  }

  /** The smallest and largest numbers of n-letter columns: "A...A" and "Z...Z". */
  function MinNumber(n: nat): nat {
    if n == 0 then 0 else 26 * MinNumber(n - 1) + 1
  }

  function MaxNumber(n: nat): nat {
    if n == 0 then 0 else 26 * MaxNumber(n - 1) + 26
  }

  /** The first letter weighs 26^(n-1). */
  lemma {:induction false} ColumnNumberFront(s: string)
    requires s != []
    ensures ColumnNumber(s) == LetterValue(s[0]) * Pow26(|s| - 1) + ColumnNumber(s[1..])
  {
    if |s| > 1 {
      var init := s[..|s| - 1];
      ColumnNumberFront(init);
      assert init[0] == s[0];
      assert init[1..] == s[1..][..|s| - 2];
      var d, p := LetterValue(s[0]), Pow26(|s| - 2);
      assert ColumnNumber(s[1..]) == 26 * ColumnNumber(init[1..]) + LetterValue(s[|s| - 1]);
      assert 26 * (d * p) == d * (26 * p);
    }
  }

  /** Every n-letter column lies between "A...A" and "Z...Z". */
  lemma {:induction false} ColumnNumberBounds(s: string)
    requires AllUpper(s)
    ensures MinNumber(|s|) <= ColumnNumber(s) <= MaxNumber(|s|)
  {
    if s != [] {
      ColumnNumberBounds(s[..|s| - 1]);
    }
  }

  /** The n-letter columns come right after the (n-1)-letter ones, and there
      are 26^n of them. */
  lemma {:induction false} NumberSpans(n: nat)
    ensures MaxNumber(n) + 1 == MinNumber(n + 1)
    ensures MaxNumber(n) - MinNumber(n) == Pow26(n) - 1
  {
    if n > 0 {
      NumberSpans(n - 1);
    }
  }

  lemma {:induction false} MinNumberMonotone(a: nat, b: nat)
    requires a <= b
    ensures MinNumber(a) <= MinNumber(b)
  {
    if a < b {
      MinNumberMonotone(a, b - 1);
    }
  }

  /** Dictionary order of two texts of the same length. */
  predicate LexLess(s: string, t: string) {
    s != [] && t != [] && (s[0] < t[0] || (s[0] == t[0] && LexLess(s[1..], t[1..])))
  }

  /** Shortlex order: shorter first, then dictionary order. */
  predicate ShortlexLess(s: string, t: string) {
    |s| < |t| || (|s| == |t| && LexLess(s, t))
  }

  lemma {:induction false} ColumnNumberLexMonotone(s: string, t: string)
    requires AllUpper(s) && AllUpper(t) && |s| == |t| && LexLess(s, t)
    ensures ColumnNumber(s) < ColumnNumber(t)
  {
    ColumnNumberFront(s);
    ColumnNumberFront(t);
    var k := |s| - 1;
    var p := Pow26(k);
    if s[0] < t[0] {
      ColumnNumberBounds(s[1..]);
      ColumnNumberBounds(t[1..]);
      NumberSpans(k);
      MulStep(LetterValue(s[0]), LetterValue(t[0]), p);
    } else {
      ColumnNumberLexMonotone(s[1..], t[1..]);
    }
  }

  lemma MulStep(a: int, b: int, p: nat)
    requires a < b
    ensures a * p + p <= b * p
  {
    assert b * p - a * p == (b - a) * p;
    assert (b - a) * p >= p by {
      var d := b - a;
      assert d >= 1;
      assert d * p == p + (d - 1) * p;
    }
  }

  /** colToIndex is strictly increasing in shortlex order. */
  lemma ColumnIndexMonotone(s: string, t: string)
    requires AllUpper(s) && AllUpper(t) && ShortlexLess(s, t)
    ensures ColumnIndex(s) < ColumnIndex(t)
  {
    if |s| < |t| {
      ColumnNumberBounds(s);
      ColumnNumberBounds(t);
      NumberSpans(|s|);
      MinNumberMonotone(|s| + 1, |t|);
    } else {
      ColumnNumberLexMonotone(s, t);
    }
  }

  /** The letters of the column numbered n >= 1: the inverse of colToIndex. */
  function ColumnName(n: int): (s: string)
    requires n >= 1
    ensures s != [] && AllUpper(s)
  {
    var q, r := (n - 1) / 26, (n - 1) % 26;
    (if q == 0 then "" else ColumnName(q)) + [('A' as int + r) as char]
  }

  lemma {:induction false} ColumnNameNumber(n: int)
    requires n >= 1
    ensures ColumnNumber(ColumnName(n)) == n
  {
    var q, r := (n - 1) / 26, (n - 1) % 26;
    var prefix := if q == 0 then "" else ColumnName(q);
    var s := ColumnName(n);
    assert s[..|s| - 1] == prefix;
    if q != 0 {
      ColumnNameNumber(q);
    }
  }

  lemma {:induction false} ColumnNumberName(s: string)
    requires s != [] && AllUpper(s)
    ensures ColumnNumber(s) >= 1 && ColumnName(ColumnNumber(s)) == s
  {
    var init, last := s[..|s| - 1], s[|s| - 1];
    var d := LetterValue(last);
    assert AllUpper(init) by {
      forall i | 0 <= i < |init| ensures IsUpper(init[i]) {
        assert init[i] == s[i];
      }
    }
    var m := ColumnNumber(init);
    ColumnNumberBounds(init);
    assert ColumnNumber(s) == 26 * m + d;
    ColumnNameSnoc(m, last);
    if init != [] {
      ColumnNumberName(init);
    }
    assert s == init + [last];
  }

  /** The name of column 26 * m + d is the name of column m followed by the
      d-th letter. */
  lemma ColumnNameSnoc(m: nat, c: char)
    requires IsUpper(c)
    ensures ColumnName(26 * m + LetterValue(c)) == (if m == 0 then "" else ColumnName(m)) + [c]
  {
    var d := LetterValue(c);
    DivMod26(26 * m + d - 1, m, d - 1);
    assert ('A' as int + (d - 1)) as char == c;
  }

  lemma DivMod26(m: int, q: int, r: int)
    requires 0 <= r < 26 && m == 26 * q + r
    ensures m / 26 == q && m % 26 == r
  {
  }

  /** Two different runs of letters never name the same column. */
  lemma ColumnIndexInjective(s: string, t: string)
    requires s != [] && AllUpper(s) && t != [] && AllUpper(t)
    requires ColumnIndex(s) == ColumnIndex(t)
    ensures s == t
  {
    ColumnNumberName(s);
    ColumnNumberName(t);
  }

  // ---------------------------------------------------------------------
  // Cells and rows

  /** A write of `text` into column `column` of the row buffer. */
  datatype Write = Write(column: nat, text: string)

  /** The column a cell writes, when its reference has leading letters and
      they name one of the 55 columns. */
  function CellColumn(c: Cell): (k: Option<nat>)
    ensures k.Some? ==> k.value < TotalColumns
    ensures k.Some? <==> LeadingLetters(c.ref) != "" && 0 <= ColumnIndex(LeadingLetters(c.ref)) < TotalColumns
  {
    var col := LeadingLetters(c.ref);
    if col == "" then None
    else
      var idx := ColumnIndex(col);
      if idx < 0 || idx >= TotalColumns then None else Some(idx)
  }

  /** The text a shared-string cell stands for: the n-th entry of the table
      when its value is the integer n and 0 <= n < len(table); otherwise
      the cell writes nothing. */
  function ResolveShared(v: string, shared: seq<string>): (r: Option<string>)
    ensures r.Some? <==> Atoi(v).Parsed? && 0 <= Atoi(v).value < |shared|
    ensures r.Some? ==> r == Some(shared[Atoi(v).value])
  {
    match Atoi(v)
    case Parsed(n) => if 0 <= n < |shared| then Some(shared[n]) else None
    case _ => None
  }

  /** In terms of the text: a decimal literal naming an entry of the table
      resolves to that entry. */
  lemma ResolveSharedLiteral(v: string, shared: seq<string>)
    requires IsDecimalLiteral(v) && 0 <= LiteralValue(v) < |shared| && LiteralValue(v) <= MaxInt64
    ensures ResolveShared(v, shared) == Some(shared[LiteralValue(v)])
  {
    AtoiParsedIff(v);
  }

  /** What the shared-string lookup does as written: the index is checked
      against the length of the table only. */
  datatype Lookup = Found(text: string) | Kept | IndexPanic

  function ResolveSharedAsWritten(v: string, shared: seq<string>): Lookup
  {
    match Atoi(v)
    case Parsed(n) =>
      if n < |shared| then (if n < 0 then IndexPanic else Found(shared[n])) else Kept
    case _ => Kept
  }

  /** A negative index passes the check and indexes the table below 0. */
  lemma SharedIndexNegative()
    ensures ResolveSharedAsWritten("-1", ["Contoso"]) == IndexPanic
    ensures ResolveShared("-1", ["Contoso"]) == None
  {
    assert "-1"[1..] == "1";
    assert ScanUint("1", 0) == ScanUint("", 1) == Parsed(1);
  }

  /** Apart from that input, the lookup as written and ResolveShared agree. */
  lemma ResolveSharedAgrees(v: string, shared: seq<string>)
    ensures ResolveSharedAsWritten(v, shared) == IndexPanic <==> Atoi(v).Parsed? && Atoi(v).value < 0
    ensures ResolveSharedAsWritten(v, shared) != IndexPanic ==>
      match ResolveShared(v, shared)
      case Some(s) => ResolveSharedAsWritten(v, shared) == Found(s)
      case None => ResolveSharedAsWritten(v, shared) == Kept
  {
  }

  /** What a cell writes: a shared-string cell (`t="s"`) its entry of the
      table, any other cell its value as it is. */
  function CellWrite(c: Cell, shared: seq<string>): (w: Option<Write>)
    ensures w.Some? ==> CellColumn(c) == Some(w.value.column)
    ensures w.Some? && c.kind != "s" ==> w.value.text == c.value
    ensures w.Some? && c.kind == "s" ==> ResolveShared(c.value, shared) == Some(w.value.text)
    ensures w.None? <==> CellColumn(c).None? || (c.kind == "s" && ResolveShared(c.value, shared).None?)
  {
    match CellColumn(c)
    case None => None
    case Some(k) =>
      if c.kind == "s" then
        match ResolveShared(c.value, shared)
        case Some(s) => Some(Write(k, s))
        case None => None
      else Some(Write(k, c.value))
  }

  predicate WritesColumn(c: Cell, k: nat, shared: seq<string>) {
    CellWrite(c, shared).Some? && CellWrite(c, shared).value.column == k
  }

  /** One cell applied to the row buffer. */
  function ApplyCell(row: seq<string>, c: Cell, shared: seq<string>): seq<string>
    requires |row| == TotalColumns
  {
    match CellWrite(c, shared)
    case Some(w) => row[w.column := w.text]
    case None => row
  }

  /** The row buffer after the cells, first to last, starting from `start`. */
  function DecodeCells(start: seq<string>, cells: seq<Cell>, shared: seq<string>): (row: seq<string>)
    requires |start| == TotalColumns
    ensures |row| == TotalColumns
  {
    if cells == [] then start
    else ApplyCell(DecodeCells(start, cells[..|cells| - 1], shared), cells[|cells| - 1], shared)
  }

  function EmptyRow(): seq<string> {
    seq(TotalColumns, _ => "")
  }

  /** The decoded row of a `row` element. */
  function DecodeRow(r: RowXml, shared: seq<string>): seq<string>
  {
    DecodeCells(EmptyRow(), r.cells, shared)
  }

  /** The text of the last cell that writes column k, if any. */
  function LastWrite(cells: seq<Cell>, k: nat, shared: seq<string>): Option<string>
  {
    if cells == [] then None
    else if WritesColumn(cells[|cells| - 1], k, shared) then Some(CellWrite(cells[|cells| - 1], shared).value.text)
    else LastWrite(cells[..|cells| - 1], k, shared)
  }

  /** LastWrite finds a cell that writes column k with no later cell
      writing it, or reports that no cell writes it. */
  lemma {:induction false} LastWriteSpec(cells: seq<Cell>, k: nat, shared: seq<string>)
    ensures var w := LastWrite(cells, k, shared);
      && (w.Some? ==>
            exists j :: 0 <= j < |cells| && CellWrite(cells[j], shared) == Some(Write(k, w.value))
              && forall i :: j < i < |cells| ==> !WritesColumn(cells[i], k, shared))
      && (w.None? ==> forall j :: 0 <= j < |cells| ==> !WritesColumn(cells[j], k, shared))
  {
    if cells != [] {
      var n := |cells| - 1;
      if WritesColumn(cells[n], k, shared) {
        var t := CellWrite(cells[n], shared).value.text;
        assert CellWrite(cells[n], shared) == Some(Write(k, t));
      } else {
        var init := cells[..n];
        LastWriteSpec(init, k, shared);
        assert forall j :: 0 <= j < n ==> init[j] == cells[j];
      }
    }
  }

  /** Each column ends up with the text of the last cell that writes it, or
      keeps its starting text when no cell does: later cells overwrite
      earlier ones, and skipped cells change nothing. */
  lemma {:induction false} DecodeCellsLastWriter(start: seq<string>, cells: seq<Cell>, shared: seq<string>, k: nat)
    requires |start| == TotalColumns && k < TotalColumns
    ensures DecodeCells(start, cells, shared)[k] == LastWrite(cells, k, shared).GetOr(start[k])
  {
    if cells != [] {
      DecodeCellsLastWriter(start, cells[..|cells| - 1], shared, k);
    }
  }

  /** So a decoded row holds, in each of its 55 columns, the last text
      written to it in that row, and "" where nothing was: no value of an
      earlier row survives. */
  lemma DecodeRowColumns(r: RowXml, shared: seq<string>)
    ensures |DecodeRow(r, shared)| == TotalColumns
    ensures forall k :: 0 <= k < TotalColumns ==> DecodeRow(r, shared)[k] == LastWrite(r.cells, k, shared).GetOr("")
  {
    forall k | 0 <= k < TotalColumns
      ensures DecodeRow(r, shared)[k] == LastWrite(r.cells, k, shared).GetOr("")
    {
      DecodeCellsLastWriter(EmptyRow(), r.cells, shared, k);
    }
  }

  /** A cell that writes nothing (no leading letters, a column past BC, an
      unresolvable shared string) can be dropped without changing the row. */
  lemma {:induction false} SkippedCellInvisible(start: seq<string>, before: seq<Cell>, c: Cell, after: seq<Cell>, shared: seq<string>)
    requires |start| == TotalColumns && CellWrite(c, shared).None?
    ensures DecodeCells(start, before + [c] + after, shared) == DecodeCells(start, before + after, shared)
  {
    if after == [] {
      assert before + [c] + after == before + [c];
      assert (before + [c])[..|before|] == before;
      assert before + after == before;
    } else {
      var n := |after|;
      var with, without := before + [c] + after, before + after;
      assert with[..|with| - 1] == before + [c] + after[..n - 1] && with[|with| - 1] == after[n - 1];
      assert without[..|without| - 1] == before + after[..n - 1] && without[|without| - 1] == after[n - 1];
      SkippedCellInvisible(start, before, c, after[..n - 1], shared);
    }
  }

  /** The rows of a worksheet, one decoded row per `row` element, in order. */
  function DecodeSheet(rows: seq<RowXml>, shared: seq<string>): (out: seq<seq<string>>)
    ensures |out| == |rows|
    ensures forall i :: 0 <= i < |rows| ==> out[i] == DecodeRow(rows[i], shared)
  {
    seq(|rows|, i requires 0 <= i < |rows| => DecodeRow(rows[i], shared))
  }

  /** `parseWorksheet`: one row buffer, reset from an empty buffer before
      each row, written cell by cell, and copied into the result. */
  method ParseWorksheet(entry: ZipEntry, shared: seq<string>) returns (r: Result<seq<seq<string>>, ParseError>)
    ensures entry.sheetRows.None? ==> r == Failure(WorksheetError)
    ensures entry.sheetRows.Some? ==> r == Success(DecodeSheet(entry.sheetRows.value, shared))
  {
    if entry.sheetRows.None? {
      return Failure(WorksheetError);
    }
    var sheet := entry.sheetRows.value;
    var rows: seq<seq<string>> := [];
    var empty := new string[TotalColumns](_ => "");
    var row := new string[TotalColumns];
    for i := 0 to |sheet|
      invariant |rows| == i
      invariant forall k :: 0 <= k < i ==> rows[k] == DecodeRow(sheet[k], shared)
      invariant empty[..] == EmptyRow()
    {
      forall k | 0 <= k < TotalColumns {
        row[k] := empty[k];
      }
      var cells := sheet[i].cells;
      for j := 0 to |cells|
        invariant row[..] == DecodeCells(EmptyRow(), cells[..j], shared)
        invariant empty[..] == EmptyRow()
      {
        assert cells[..j + 1][..j] == cells[..j];
        var c := cells[j];
        var colRef := LeadingLetters(c.ref);
        if colRef != "" {
          var idx := ColToIndex(colRef);
          if 0 <= idx < TotalColumns {
            if c.kind == "s" {
              var n := Atoi(c.value);
              if n.Parsed? && 0 <= n.value < |shared| {
                row[idx] := shared[n.value];
              }
            } else {
              row[idx] := c.value;
            }
          }
        }
      }
      assert cells[..|cells|] == cells;
      rows := rows + [row[..]];
    }
    assert rows == DecodeSheet(sheet, shared);
    return Success(rows);
  }

  // ---------------------------------------------------------------------
  // Archive entries

  /** `parseSharedStrings`: the first entry named exactly
      xl/sharedStrings.xml gives the table, its `si` texts in document
      order; a missing table is an empty one. */
  function SharedStrings(entries: seq<ZipEntry>): (r: Result<seq<string>, ParseError>)
    ensures r.Failure? ==> r.error == SharedStringsError
  {
    if entries == [] then Success([])
    else if entries[0].name == SharedStringsName then
      match entries[0].sharedItems
      case Some(items) => Success(items)
      case None => Failure(SharedStringsError)
    else SharedStrings(entries[1..])
  }

  /** The index of the first entry whose name satisfies `named`. */
  function FirstEntry(entries: seq<ZipEntry>, named: string -> bool): (i: Option<nat>)
    ensures i.Some? ==>
      && i.value < |entries| && named(entries[i.value].name)
      && forall j :: 0 <= j < i.value ==> !named(entries[j].name)
    ensures i.None? ==> forall j :: 0 <= j < |entries| ==> !named(entries[j].name)
  {
    if entries == [] then None
    else if named(entries[0].name) then Some(0)
    else match FirstEntry(entries[1..], named)
      case Some(i) =>
        assert forall j :: 1 <= j <= i ==> entries[j] == entries[1..][j - 1];
        Some(i + 1)
      case None =>
        assert forall j :: 1 <= j < |entries| ==> entries[j] == entries[1..][j - 1];
        None
  }

  predicate IsSharedStringsName(name: string) { name == SharedStringsName }
  predicate IsWorksheetName(name: string) { WorksheetPrefix <= name }

  /** The table comes from the first entry with the exact name, and is
      empty when there is none. */
  lemma {:induction false} SharedStringsSource(entries: seq<ZipEntry>)
    ensures match FirstEntry(entries, IsSharedStringsName)
      case None => SharedStrings(entries) == Success([])
      case Some(i) =>
        SharedStrings(entries) == (if entries[i].sharedItems.Some? then Success(entries[i].sharedItems.value) else Failure(SharedStringsError))
  {
    if entries != [] && entries[0].name != SharedStringsName {
      SharedStringsSource(entries[1..]);
    }
  }

  /** `parseSharedStrings`, the loops over the entries and over the items. */
  method ParseSharedStrings(entries: seq<ZipEntry>) returns (r: Result<seq<string>, ParseError>)
    ensures r == SharedStrings(entries)
  {
    for i := 0 to |entries|
      invariant SharedStrings(entries) == SharedStrings(entries[i..])
    {
      assert entries[i..][1..] == entries[i + 1..];
      var e := entries[i];
      if e.name == SharedStringsName {
        if e.sharedItems.None? {
          return Failure(SharedStringsError);
        }
        var items := e.sharedItems.value;
        var shared := new string[|items|];
        for k := 0 to |items|
          invariant shared[..k] == items[..k]
        {
          shared[k] := items[k];
        }
        assert shared[..] == items;
        return Success(shared[..]);
      }
    }
    assert entries[|entries|..] == [];
    return Success([]);
  }

  /** `ParseXLSXRows` as a function of the archive: the zip reader, then the
      shared string table, then the first worksheet entry. */
  function XlsxRows(archive: Option<seq<ZipEntry>>): Result<seq<seq<string>>, ParseError>
  {
    match archive
    case None => Failure(ArchiveError)
    case Some(entries) =>
      match SharedStrings(entries)
      case Failure(e) => Failure(e)
      case Success(shared) =>
        match FirstEntry(entries, IsWorksheetName)
        case None => Failure(WorksheetNotFound)
        case Some(i) =>
          match entries[i].sheetRows
          case None => Failure(WorksheetError)
          case Some(sheet) => Success(DecodeSheet(sheet, shared))
  }

  /** `ParseXLSXRows`. */
  method ParseXlsxRows(archive: Option<seq<ZipEntry>>) returns (r: Result<seq<seq<string>>, ParseError>)
    ensures r == XlsxRows(archive)
  {
    if archive.None? {
      return Failure(ArchiveError);
    }
    var entries := archive.value;
    var shared := ParseSharedStrings(entries);
    if shared.Failure? {
      return Failure(shared.error);
    }
    for i := 0 to |entries|
      invariant forall j :: 0 <= j < i ==> !IsWorksheetName(entries[j].name)
    {
      if WorksheetPrefix <= entries[i].name {
        assert FirstEntry(entries, IsWorksheetName) == Some(i);
        r := ParseWorksheet(entries[i], shared.value);
        return;
      }
    }
    assert FirstEntry(entries, IsWorksheetName).None?;
    return Failure(WorksheetNotFound);
  }

  /** What a successful decode promises: the rows of the first worksheet
      entry, one per `row` element and in order, each 55 columns wide and
      holding the last text written to each column. */
  lemma XlsxRowsShape(archive: Option<seq<ZipEntry>>)
    requires XlsxRows(archive).Success?
    ensures var rows := XlsxRows(archive).value;
      var i := FirstEntry(archive.value, IsWorksheetName).value;
      var sheet := archive.value[i].sheetRows.value;
      var shared := SharedStrings(archive.value).value;
      && |rows| == |sheet|
      && (forall n :: 0 <= n < |rows| ==> |rows[n]| == TotalColumns)
      && (forall n, k :: 0 <= n < |rows| && 0 <= k < TotalColumns ==>
            rows[n][k] == LastWrite(sheet[n].cells, k, shared).GetOr(""))
  {
    var rows := XlsxRows(archive).value;
    var i := FirstEntry(archive.value, IsWorksheetName).value;
    var sheet := archive.value[i].sheetRows.value;
    var shared := SharedStrings(archive.value).value;
    forall n | 0 <= n < |rows|
      ensures |rows[n]| == TotalColumns
      ensures forall k :: 0 <= k < TotalColumns ==> rows[n][k] == LastWrite(sheet[n].cells, k, shared).GetOr("")
    {
      DecodeRowColumns(sheet[n], shared);
    }
  }

  /** "worksheet not found" exactly when the archive and its shared string
      table are readable and no entry name starts with xl/worksheets/sheet. */
  lemma XlsxRowsNotFound(archive: Option<seq<ZipEntry>>)
    ensures XlsxRows(archive) == Failure(WorksheetNotFound) <==>
      archive.Some? && SharedStrings(archive.value).Success?
      && forall j :: 0 <= j < |archive.value| ==> !IsWorksheetName(archive.value[j].name)
  {
    if archive.Some? {
      var entries := archive.value;
      match FirstEntry(entries, IsWorksheetName)
      case Some(i) =>
        assert IsWorksheetName(entries[i].name);
      case None =>
        assert forall j :: 0 <= j < |entries| ==> !IsWorksheetName(entries[j].name);
    }
  }
}
