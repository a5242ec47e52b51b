/** The CSV reader: RFC 4180 as spreadsheets export it, and what it reads back of any table so printed. */
module Csv {
  import opened Common

  datatype Record = Record(line: nat, fields: seq<string>)

  datatype Fault = QuoteInField | NeverClosed | Empty | BlankHeader | HeaderTwice | LongRow

  datatype Result<+T> = Ok(value: T) | Err(line: nat, fault: Fault)

  const QUOTE := '"'
  const COMMA := ','
  const CR := '\r'
  const LF := '\n'

  // ---- the scanner, one turn of its loop at a time ----

  /** The scanner's variables; `quoted` says it is inside a quoted field. */
  datatype Scan = Scan(out: seq<Record>, fields: seq<string>, field: string, quoted: bool, line: nat, start: nat)

  datatype Turn = Go(scan: Scan, taken: nat) | Stop(line: nat, fault: Fault)

  const FRESH := Scan([], [], [], false, 1, 1)

  function Advance(s: string, st: Scan): (t: Turn)
    requires s != []
    ensures t.Go? ==> 1 <= t.taken <= |s|
  {
    var c, next := s[0], if |s| > 1 then Some(s[1]) else None;
    if st.quoted then
      if c == QUOTE then
        if next == Some(QUOTE) then Go(st.(field := st.field + [QUOTE]), 2)
        else Go(st.(quoted := false), 1)
      else Go(st.(field := st.field + [c], line := if c == LF then st.line + 1 else st.line), 1)
    else if c == QUOTE then
      if Trim(st.field) != [] then Stop(st.line, QuoteInField)
      else Go(st.(field := [], quoted := true), 1)
    else if c == COMMA then Go(st.(fields := st.fields + [st.field], field := []), 1)
    else if c == CR || c == LF then
      Go(Scan(st.out + [Record(st.start, st.fields + [st.field])], [], [], false, st.line + 1, st.line + 1),
         if c == CR && next == Some(LF) then 2 else 1)
    else Go(st.(field := st.field + [c]), 1)
  }

  function Finish(st: Scan): Result<seq<Record>> {
    if st.quoted then Err(st.start, NeverClosed)
    else if st.field != [] || st.fields != [] then Ok(st.out + [Record(st.start, st.fields + [st.field])])
    else Ok(st.out)
  }

  function ScanFrom(s: string, st: Scan): Result<seq<Record>>
    decreases |s|
  {
    if s == [] then Finish(st)
    else match Advance(s, st)
      case Stop(line, fault) => Err(line, fault)
      case Go(st', n) => ScanFrom(s[n..], st')
  }

  function Read(text: string): Result<seq<Record>> {
    ScanFrom(if text != [] && text[0] == BOM then text[1..] else text, FRESH)
  }

  lemma {:induction false} ReadStarts(text: string)
    ensures Read(text) == ScanFrom(if text != [] && text[0] == BOM then text[1..] else text, FRESH)
    ensures forall st :: ScanFrom([], st) == Finish(st)
  {
  }

  lemma {:induction false} OneTurn(s: string, st: Scan)
    requires s != []
    ensures ScanFrom(s, st)
         == match Advance(s, st) { case Stop(line, fault) => Err(line, fault) case Go(st', n) => ScanFrom(s[n..], st') }
  {
  }

  method Records(text: string) returns (r: Result<seq<Record>>)
    ensures r == Read(text)
  {
    hide ScanFrom, Read, Trim;
    ReadStarts(text);
    var out: seq<Record>, fields: seq<string>, field: string, quoted := [], [], [], false;
    var line: nat, start: nat, i: nat := 1, 1, 0;
    var s := if text != [] && text[0] == BOM then text[1..] else text;
    assert s[0..] == s;
    while i < |s|
      invariant 0 <= i <= |s|
      invariant ScanFrom(s[i..], Scan(out, fields, field, quoted, line, start)) == Read(text)
      decreases |s| - i
    {
      ghost var rest := s[i..];
      OneTurn(rest, Scan(out, fields, field, quoted, line, start));
      assert rest[1..] == s[i + 1..] && (|rest| > 1 ==> rest[2..] == s[i + 2..]);
      var c := s[i];
      if quoted {
        if c == QUOTE {
          if i + 1 < |s| && s[i + 1] == QUOTE {
            field, i := field + [QUOTE], i + 2;
            continue;
          }
          quoted, i := false, i + 1;
          continue;
        }
        if c == LF {
          line := line + 1;
        }
        field, i := field + [c], i + 1;
        continue;
      }
      if c == QUOTE {
        if Trim(field) != [] {
          return Err(line, QuoteInField);
        }
        field, quoted, i := [], true, i + 1;
        continue;
      }
      if c == COMMA {
        fields, field, i := fields + [field], [], i + 1;
        continue;
      }
      if c == CR || c == LF {
        fields := fields + [field];
        out := out + [Record(start, fields)];
        field, fields := [], [];
        i := i + if c == CR && i + 1 < |s| && s[i + 1] == LF then 2 else 1;
        line := line + 1;
        start := line;
        continue;
      }
      field, i := field + [c], i + 1;
    }
    assert s[i..] == [];
    if quoted {
      return Err(start, NeverClosed);
    }
    if field != [] || |fields| > 0 {
      fields := fields + [field];
      out := out + [Record(start, fields)];
    }
    return Ok(out);
  }

  // ---- a table, printed ----

  /** One field and the writer's choice to quote it or not. */
  datatype Cell = Cell(text: string, quoted: bool)

  datatype Break = Crlf | Cr | Lf

  datatype Row = Row(cells: seq<Cell>, brk: Break)

  function Doubled(s: string): string {
    if s == [] then [] else (if s[0] == QUOTE then [QUOTE, QUOTE] else [s[0]]) + Doubled(s[1..])
  }

  function PrintCell(c: Cell): string {
    if c.quoted then [QUOTE] + Doubled(c.text) + [QUOTE] else c.text
  }

  function PrintCells(cs: seq<Cell>): string {
    if cs == [] then []
    else if |cs| == 1 then PrintCell(cs[0])
    else PrintCell(cs[0]) + [COMMA] + PrintCells(cs[1..])
  }

  function BreakText(b: Break): string {
    match b
    case Crlf => [CR, LF]
    case Cr => [CR]
    case Lf => [LF]
  }

  function Print(rows: seq<Row>): string {
    if rows == [] then [] else PrintCells(rows[0].cells) + BreakText(rows[0].brk) + Print(rows[1..])
  }

  predicate Bare(s: string) {
    forall c :: c in s ==> c != QUOTE && c != COMMA && c != CR && c != LF
  }

  /** A field with a quote, a comma or a break in it is quoted; a row has a field. */
  predicate Legal(row: Row) {
    row.cells != [] && forall c :: c in row.cells ==> c.quoted || Bare(c.text)
  }

  /** The one empty field of a row, left bare: the row prints as its break alone. */
  predicate PrintsNothing(row: Row) {
    |row.cells| == 1 && PrintCell(row.cells[0]) == []
  }

  /** A bare CR is not followed by a row that prints as a bare LF, which together would be one CRLF. */
  predicate Separable(rows: seq<Row>) {
    forall i :: 0 <= i < |rows| - 1 && rows[i].brk == Cr ==> !(PrintsNothing(rows[i + 1]) && rows[i + 1].brk == Lf)
  }

  function LineFeeds(s: string): nat {
    if s == [] then 0 else (if s[0] == LF then 1 else 0) + LineFeeds(s[1..])
  }

  function LinesIn(cs: seq<Cell>): nat {
    if cs == [] then 0 else LineFeeds(cs[0].text) + LinesIn(cs[1..])
  }

  function Texts(cs: seq<Cell>): (r: seq<string>)
    ensures |r| == |cs| && forall i :: 0 <= i < |cs| ==> r[i] == cs[i].text
  {
    seq(|cs|, i requires 0 <= i < |cs| => cs[i].text)
  }

  /** The table's own rows, each with the physical line it starts on if the first starts on `line`. */
  function Placed(rows: seq<Row>, line: nat): seq<Record> {
    if rows == [] then []
    else [Record(line, Texts(rows[0].cells))] + Placed(rows[1..], line + LinesIn(rows[0].cells) + 1)
  }

  // ---- reading a printed table ----

  /** What may follow a field: nothing, a comma or a break. */
  predicate AtFieldEnd(s: string) {
    s == [] || s[0] == COMMA || s[0] == CR || s[0] == LF
  }

  lemma {:induction false} ReadBare(text: string, rest: string, st: Scan)
    requires Bare(text) && !st.quoted
    ensures ScanFrom(text + rest, st) == ScanFrom(rest, st.(field := st.field + text))
    decreases |text|
  {
    if text == [] {
      assert text + rest == rest && st.field + text == st.field;
    } else {
      assert (text + rest)[0] == text[0] && (text + rest)[1..] == text[1..] + rest;
      assert text[0] in text && forall c :: c in text[1..] ==> c in text;
      ReadBare(text[1..], rest, st.(field := st.field + [text[0]]));
      assert st.field + [text[0]] + text[1..] == st.field + text;
    }
  }

  lemma {:induction false} ReadQuoted(text: string, rest: string, st: Scan)
    requires st.quoted && AtFieldEnd(rest)
    ensures ScanFrom(Doubled(text) + [QUOTE] + rest, st)
         == ScanFrom(rest, st.(field := st.field + text, quoted := false, line := st.line + LineFeeds(text)))
    decreases |text|
  {
    var s := Doubled(text) + [QUOTE] + rest;
    if text == [] {
      assert s[0] == QUOTE && s[1..] == rest && st.field + text == st.field;
    } else {
      var c := text[0];
      var tail := Doubled(text[1..]) + [QUOTE] + rest;
      var st' := st.(field := st.field + [c], line := if c == LF then st.line + 1 else st.line);
      if c == QUOTE {
        assert s[0] == QUOTE && s[1] == QUOTE && s[2..] == tail;
      } else {
        assert s[0] == c && s[1..] == tail;
      }
      assert ScanFrom(s, st) == ScanFrom(tail, st');
      ReadQuoted(text[1..], rest, st');
      assert st.field + [c] + text[1..] == st.field + text;
    }
  }

  lemma {:induction false} BareHasNoLineFeed(text: string)
    requires Bare(text)
    ensures LineFeeds(text) == 0
  {
    if text != [] {
      assert text[0] in text && forall c :: c in text[1..] ==> c in text;
      BareHasNoLineFeed(text[1..]);
    }
  }

  lemma {:induction false} ReadCell(c: Cell, rest: string, st: Scan)
    requires c.quoted || Bare(c.text)
    requires !st.quoted && st.field == [] && AtFieldEnd(rest)
    ensures ScanFrom(PrintCell(c) + rest, st)
         == ScanFrom(rest, st.(field := c.text, line := st.line + LineFeeds(c.text)))
  {
    assert [] + c.text == c.text;
    if c.quoted {
      var s := PrintCell(c) + rest;
      assert s[0] == QUOTE && s[1..] == Doubled(c.text) + [QUOTE] + rest;
      ReadQuoted(c.text, rest, st.(quoted := true));
    } else {
      ReadBare(c.text, rest, st);
      BareHasNoLineFeed(c.text);
    }
  }

  lemma {:induction false} ReadComma(c: Cell, tail: string, st: Scan)
    requires c.quoted || Bare(c.text)
    requires !st.quoted && st.field == []
    ensures ScanFrom(PrintCell(c) + [COMMA] + tail, st)
         == ScanFrom(tail, st.(fields := st.fields + [c.text], line := st.line + LineFeeds(c.text)))
  {
    var after := [COMMA] + tail;
    assert PrintCell(c) + [COMMA] + tail == PrintCell(c) + after;
    ReadCell(c, after, st);
    assert after[1..] == tail;
  }

  lemma {:induction false} TextsSplit(cs: seq<Cell>)
    requires |cs| > 1
    ensures Texts(cs[..|cs| - 1]) == [cs[0].text] + Texts(cs[1..][..|cs[1..]| - 1])
  {
  }

  lemma {:induction false} PrintCellsSplit(cs: seq<Cell>, rest: string)
    requires |cs| > 1
    ensures PrintCells(cs) + rest == PrintCell(cs[0]) + [COMMA] + (PrintCells(cs[1..]) + rest)
  {
    AppendAssociates(PrintCell(cs[0]) + [COMMA], PrintCells(cs[1..]), rest);
  }

  lemma {:induction false} PrintOne(cs: seq<Cell>)
    ensures |cs| == 1 ==> PrintCells(cs) == PrintCell(cs[0])
  {
  }

  lemma {:induction false} ReadCells(cs: seq<Cell>, rest: string, st: Scan)
    requires cs != [] && forall c :: c in cs ==> c.quoted || Bare(c.text)
    requires !st.quoted && st.field == []
    requires rest == [] || rest[0] == CR || rest[0] == LF
    ensures ScanFrom(PrintCells(cs) + rest, st)
         == ScanFrom(rest, st.(fields := st.fields + Texts(cs[..|cs| - 1]), field := cs[|cs| - 1].text,
                               line := st.line + LinesIn(cs)))
    decreases |cs|
  {
    hide ScanFrom, PrintCells, PrintCell, LineFeeds, Bare;
    var c, more := cs[0], cs[1..];
    PrintOne(cs);
    if |cs| == 1 {
      ReadCell(c, rest, st);
      assert LinesIn(cs) == LineFeeds(c.text) + LinesIn(more) && more == [];
      assert st.fields + Texts(cs[..0]) == st.fields;
    } else {
      PrintCellsSplit(cs, rest);
      ReadComma(c, PrintCells(more) + rest, st);
      ReadCells(more, rest, st.(fields := st.fields + [c.text], line := st.line + LineFeeds(c.text)));
      TextsSplit(cs);
      AppendAssociates(st.fields, [c.text], Texts(more[..|more| - 1]));
    }
  }

  /** One row and its break: the record is complete, and the next starts on the next line. */
  lemma {:induction false} ReadRow(row: Row, rest: string, out: seq<Record>, line: nat)
    requires Legal(row) && (row.brk == Cr ==> rest == [] || rest[0] != LF)
    ensures ScanFrom(PrintCells(row.cells) + BreakText(row.brk) + rest, Scan(out, [], [], false, line, line))
         == var next := line + LinesIn(row.cells) + 1;
            ScanFrom(rest, Scan(out + [Record(line, Texts(row.cells))], [], [], false, next, next))
  {
    hide ScanFrom, PrintCells, PrintCell, LineFeeds, LinesIn, Trim;
    var cs, after := row.cells, BreakText(row.brk) + rest;
    var st := Scan(out, [], [], false, line, line);
    assert PrintCells(cs) + BreakText(row.brk) + rest == PrintCells(cs) + after;
    ReadCells(cs, after, st);
    OneTurn(after, st.(fields := st.fields + Texts(cs[..|cs| - 1]), field := cs[|cs| - 1].text, line := line + LinesIn(cs)));
    assert [] + Texts(cs[..|cs| - 1]) + [cs[|cs| - 1].text] == Texts(cs);
    assert after[|BreakText(row.brk)|..] == rest;
  }

  lemma {:induction false} PrintStarts(rows: seq<Row>)
    requires rows != [] && Legal(rows[0]) && !(PrintsNothing(rows[0]) && rows[0].brk == Lf)
    ensures Print(rows)[0] != LF
  {
    var cs := rows[0].cells;
    if |cs| == 1 {
      if PrintCell(cs[0]) != [] && !cs[0].quoted {
        assert cs[0] in cs && cs[0].text[0] in cs[0].text;
      }
    } else if PrintCell(cs[0]) != [] && !cs[0].quoted {
      assert cs[0] in cs && cs[0].text[0] in cs[0].text;
    }
  }

  lemma {:induction false} RestIsSeparable(rows: seq<Row>)
    requires rows != [] && Separable(rows) && forall r :: r in rows ==> Legal(r)
    ensures Separable(rows[1..]) && forall r :: r in rows[1..] ==> Legal(r)
    ensures rows[0].brk == Cr && |rows| > 1 ==> Print(rows[1..])[0] != LF
  {
    var rest := rows[1..];
    forall i | 0 <= i < |rest| - 1 && rest[i].brk == Cr
      ensures !(PrintsNothing(rest[i + 1]) && rest[i + 1].brk == Lf)
    {
      assert rest[i] == rows[i + 1] && rest[i + 1] == rows[i + 2];
    }
    if rows[0].brk == Cr && rest != [] {
      assert rest[0] == rows[1] && rows[1] in rows && rows[0 + 1] == rows[1];
      PrintStarts(rest);
    }
  }

  /** The text after the rows does not join the last row's break. */
  predicate Parted(rows: seq<Row>, after: string) {
    rows != [] && rows[|rows| - 1].brk == Cr ==> after == [] || after[0] != LF
  }

  lemma {:induction false} FirstIsParted(rows: seq<Row>, after: string)
    requires (forall r :: r in rows ==> Legal(r)) && Separable(rows) && Parted(rows, after) && rows != []
    ensures Parted(rows[1..], after)
    ensures Parted(rows[..1], Print(rows[1..]) + after)
  {
    var rest := rows[1..];
    RestIsSeparable(rows);
    if rest == [] {
      assert Print(rest) + after == after;
    } else {
      assert rest[0] in rest && Print(rest) != [];
    }
  }

  lemma {:induction false} ReadFirstRow(rows: seq<Row>, after: string, out: seq<Record>, line: nat)
    requires (forall r :: r in rows ==> Legal(r)) && Separable(rows) && Parted(rows, after) && rows != []
    ensures ScanFrom(Print(rows) + after, Scan(out, [], [], false, line, line))
         == var next := line + LinesIn(rows[0].cells) + 1;
            ScanFrom(Print(rows[1..]) + after, Scan(out + [Record(line, Texts(rows[0].cells))], [], [], false, next, next))
  {
    hide ScanFrom;
    FirstIsParted(rows, after);
    AppendAssociates(PrintCells(rows[0].cells) + BreakText(rows[0].brk), Print(rows[1..]), after);
    ReadRow(rows[0], Print(rows[1..]) + after, out, line);
  }

  lemma {:induction false} ReadRows(rows: seq<Row>, after: string, out: seq<Record>, line: nat)
    requires (forall r :: r in rows ==> Legal(r)) && Separable(rows) && Parted(rows, after)
    ensures var next := line + Lines(rows);
      ScanFrom(Print(rows) + after, Scan(out, [], [], false, line, line))
      == ScanFrom(after, Scan(out + Placed(rows, line), [], [], false, next, next))
    decreases |rows|
  {
    hide ScanFrom;
    if rows == [] {
      assert out + Placed(rows, line) == out && Print(rows) + after == after;
    } else {
      var rest, record, next := rows[1..], Record(line, Texts(rows[0].cells)), line + LinesIn(rows[0].cells) + 1;
      ReadFirstRow(rows, after, out, line);
      FirstIsParted(rows, after);
      RestIsSeparable(rows);
      ReadRows(rest, after, out + [record], next);
      AppendAssociates(out, [record], Placed(rest, next));
    }
  }

  /** How many physical lines the rows take. */
  function Lines(rows: seq<Row>): nat {
    if rows == [] then 0 else LinesIn(rows[0].cells) + 1 + Lines(rows[1..])
  }

  /** Any printed table is read back field for field, whatever was quoted, and every row carries its own line. */
  lemma {:induction false} PrintedTableReadsBack(rows: seq<Row>)
    requires (forall r :: r in rows ==> Legal(r)) && Separable(rows)
    requires Print(rows) == [] || Print(rows)[0] != BOM
    ensures Read(Print(rows)) == Ok(Placed(rows, 1))
  {
    ReadRows(rows, [], [], 1);
    assert [] + Placed(rows, 1) == Placed(rows, 1) && Print(rows) + [] == Print(rows);
  }

  lemma {:induction false} PlacedFirst(rows: seq<Row>, line: nat)
    ensures if rows == [] then Placed(rows, line) == [] && Lines(rows) == 0
            else var next := line + LinesIn(rows[0].cells) + 1;
              && Placed(rows, line) == [Record(line, Texts(rows[0].cells))] + Placed(rows[1..], next)
              && line + Lines(rows) == next + Lines(rows[1..])
  {
  }

  lemma {:induction false} PlacedAppend(rows: seq<Row>, more: seq<Row>, line: nat)
    ensures Placed(rows + more, line) == Placed(rows, line) + Placed(more, line + Lines(rows))
  {
    hide LinesIn, Texts, Placed, Lines;
    PlacedFirst(rows, line);
    PlacedFirst(rows + more, line);
    if rows == [] {
      assert rows + more == more;
    } else {
      var next := line + LinesIn(rows[0].cells) + 1;
      PlacedAppend(rows[1..], more, next);
      assert (rows + more)[1..] == rows[1..] + more && (rows + more)[0] == rows[0];
      AppendAssociates([Record(line, Texts(rows[0].cells))], Placed(rows[1..], next), Placed(more, line + Lines(rows)));
    }
  }

  lemma {:induction false} ReadLastRow(cells: seq<Cell>, out: seq<Record>, line: nat)
    requires Legal(Row(cells, Crlf))
    ensures ScanFrom(PrintCells(cells), Scan(out, [], [], false, line, line))
         == Ok(if |cells| == 1 && cells[0].text == [] then out else out + [Record(line, Texts(cells))])
  {
    ReadCells(cells, [], Scan(out, [], [], false, line, line));
    assert PrintCells(cells) + [] == PrintCells(cells);
    assert [] + Texts(cells[..|cells| - 1]) + [cells[|cells| - 1].text] == Texts(cells);
    assert Texts(cells[..|cells| - 1]) == [] <==> |cells| == 1;
  }

  /** The break after the last row may be left off - unless that row is one empty field, which is then lost. */
  lemma {:induction false} LastBreakIsOptionalIffItsRowShows(rows: seq<Row>, last: seq<Cell>)
    requires (forall r :: r in rows ==> Legal(r)) && Separable(rows) && Legal(Row(last, Crlf))
    requires Parted(rows, PrintCells(last))
    requires Print(rows) + PrintCells(last) == [] || (Print(rows) + PrintCells(last))[0] != BOM
    ensures Read(Print(rows) + PrintCells(last)) == Ok(Placed(rows + [Row(last, Crlf)], 1))
        <==> !(|last| == 1 && last[0].text == [])
  {
    hide ScanFrom, Print, PrintCells, Legal, Separable, Parted, LinesIn, Texts;
    ReadRows(rows, PrintCells(last), [], 1);
    assert [] + Placed(rows, 1) == Placed(rows, 1);
    ReadLastRow(last, Placed(rows, 1), 1 + Lines(rows));
    PlacedAppend(rows, [Row(last, Crlf)], 1);
    assert Placed([Row(last, Crlf)], 1 + Lines(rows)) == [Record(1 + Lines(rows), Texts(last))];
  }

  // ---- any text that reads at all ----

  ghost predicate AllHaveFields(rs: seq<Record>) {
    forall r :: r in rs ==> r.fields != []
  }

  lemma {:induction false} ReadGivesFields(s: string, st: Scan)
    requires AllHaveFields(st.out)
    ensures ScanFrom(s, st).Ok? ==> AllHaveFields(ScanFrom(s, st).value)
    decreases |s|
  {
    if s != [] && Advance(s, st).Go? {
      ReadGivesFields(s[Advance(s, st).taken..], Advance(s, st).scan);
    }
  }

  /** Every field quoted, every row ended by CRLF: the form any table can be written in. */
  function Quoted(r: Record): Row {
    Row(seq(|r.fields|, i requires 0 <= i < |r.fields| => Cell(r.fields[i], true)), Crlf)
  }

  function Reprint(rs: seq<Record>): (rows: seq<Row>)
    ensures |rows| == |rs| && forall i :: 0 <= i < |rs| ==> rows[i] == Quoted(rs[i])
  {
    seq(|rs|, i requires 0 <= i < |rs| => Quoted(rs[i]))
  }

  lemma {:induction false} PlacedFields(rows: seq<Row>, line: nat)
    ensures |Placed(rows, line)| == |rows|
    ensures forall i :: 0 <= i < |rows| ==> Placed(rows, line)[i].fields == Texts(rows[i].cells)
  {
    if rows != [] {
      PlacedFields(rows[1..], line + LinesIn(rows[0].cells) + 1);
    }
  }

  /** Whatever a text reads as, writing that out quoted and reading it again gives the same fields. */
  lemma {:induction false} ReadingIsANormalForm(text: string)
    requires Read(text).Ok?
    ensures var rs, again := Read(text).value, Read(Print(Reprint(Read(text).value)));
      && again.Ok? && |again.value| == |rs|
      && forall i :: 0 <= i < |rs| ==> again.value[i].fields == rs[i].fields
  {
    var rs := Read(text).value;
    var rows := Reprint(rs);
    ReadGivesFields(if text != [] && text[0] == BOM then text[1..] else text, FRESH);
    assert forall i :: 0 <= i < |rs| ==> rs[i] in rs;
    if rows != [] {
      QuotedStarts(rows);
    }
    PrintedTableReadsBack(rows);
    PlacedFields(rows, 1);
    forall i | 0 <= i < |rs| ensures Texts(rows[i].cells) == rs[i].fields {
    }
  }

  lemma {:induction false} QuotedStarts(rows: seq<Row>)
    requires rows != [] && rows[0].cells != [] && rows[0].cells[0].quoted
    ensures Print(rows) != [] && Print(rows)[0] == QUOTE
  {
    assert PrintCell(rows[0].cells[0])[0] == QUOTE;
  }
}
