/** What the reader keeps of a file and what it drops, in terms of the characters alone. */
module CsvContents {
  import opened Common
  import opened Csv
  import opened CsvFiles

  // ---- white space ----

  /** White space and line ends, as the language's standard lists them. */
  const SPACES: set<int> := {
    0x09, 0x0A, 0x0B, 0x0C, 0x0D, 0x20, 0xA0, 0x1680,
    0x2000, 0x2001, 0x2002, 0x2003, 0x2004, 0x2005, 0x2006, 0x2007, 0x2008, 0x2009, 0x200A,
    0x2028, 0x2029, 0x202F, 0x205F, 0x3000, 0xFEFF
  }

  predicate White(s: string) {
    forall c :: c in s ==> c as int in SPACES
  }

  /** `t` is `s` less white space before and after it, with none left at either end. */
  ghost predicate IsTrimmed(s: string, t: string) {
    && (exists before, after :: White(before) && White(after) && s == before + t + after)
    && (t != [] ==> t[0] as int !in SPACES && t[|t| - 1] as int !in SPACES)
  }

  lemma {:induction false} SpacesAre(c: char)
    ensures IsSpace(c) <==> c as int in SPACES
  {
  }

  lemma {:induction false} TrimStartIs(s: string) returns (before: string)
    ensures White(before) && s == before + TrimStart(s)
    ensures TrimStart(s) != [] ==> TrimStart(s)[0] as int !in SPACES
  {
    hide IsSpace;
    before := [];
    if s != [] {
      SpacesAre(s[0]);
      if IsSpace(s[0]) {
        before := TrimStartIs(s[1..]);
        before := [s[0]] + before;
      }
    }
  }

  lemma {:induction false} TrimEndIs(s: string) returns (after: string)
    ensures White(after) && s == TrimEnd(s) + after
    ensures TrimEnd(s) != [] ==> TrimEnd(s)[|TrimEnd(s)| - 1] as int !in SPACES && TrimEnd(s)[0] == s[0]
  {
    hide IsSpace;
    after := [];
    if s != [] {
      SpacesAre(s[|s| - 1]);
      if IsSpace(s[|s| - 1]) {
        after := TrimEndIs(s[..|s| - 1]);
        after := after + [s[|s| - 1]];
      }
    }
  }

  lemma {:induction false} TrimIs(s: string)
    ensures IsTrimmed(s, Trim(s))
  {
    hide IsSpace, TrimStart, TrimEnd;
    var before := TrimStartIs(s);
    var after := TrimEndIs(TrimStart(s));
    assert s == before + Trim(s) + after;
  }

  /** There is only one way to trim a string. */
  lemma {:induction false} TrimsToOne(s: string, t: string)
    ensures t == Trim(s) <==> IsTrimmed(s, t)
  {
    hide Trim;
    TrimIs(s);
    if IsTrimmed(s, t) {
      SameTrim(s, t, Trim(s));
    }
  }

  lemma {:induction false} LeadingWhite(s: string, white: string, inked: string, before: string, rest: string)
    requires s == white + rest && White(white)
    requires s == before + inked && inked != [] && inked[0] as int !in SPACES
    ensures |white| <= |before|
  {
    assert s[|before|] == inked[0];
    assert forall i :: 0 <= i < |white| ==> s[i] == white[i] && white[i] in white;
  }

  lemma {:induction false} TrailingWhite(s: string, white: string, inked: string, after: string, rest: string)
    requires s == rest + white && White(white)
    requires s == inked + after && inked != [] && inked[|inked| - 1] as int !in SPACES
    ensures |white| <= |after|
  {
    var at := |inked| - 1;
    assert s[at] == inked[at];
    assert forall i :: |rest| <= i < |s| ==> s[i] == white[i - |rest|] && white[i - |rest|] in white;
  }

  lemma {:induction false} SameTrim(s: string, t: string, u: string)
    requires IsTrimmed(s, t) && IsTrimmed(s, u)
    ensures t == u
  {
    var b, a :| White(b) && White(a) && s == b + t + a;
    var c, d :| White(c) && White(d) && s == c + u + d;
    if t == [] || u == [] {
      assert White(s) by {
        assert forall x :: x in s ==> (t == [] && (x in b || x in a)) || (u == [] && (x in c || x in d));
      }
      assert forall x :: x in t || x in u ==> x in s;
      FirstIsIn(t);
      FirstIsIn(u);
    } else {
      LeadingWhite(s, c, t + a, b, u + d);
      LeadingWhite(s, b, u + d, c, t + a);
      TrailingWhite(s, d, b + t, a, c + u);
      TrailingWhite(s, a, c + u, d, b + t);
      assert t == s[|b|..|s| - |a|] && u == s[|c|..|s| - |d|];
    }
  }

  lemma {:induction false} WhiteTrimsAway(s: string)
    ensures Trim(s) == [] <==> White(s)
  {
    hide Trim;
    TrimsToOne(s, []);
    if White(s) {
      assert White([]) && s == s + [] + [];
    } else {
      forall b: string, a: string | White(b) && White(a) ensures s != b + [] + a {
        assert s == b + [] + a ==> forall x :: x in s ==> x in b || x in a;
      }
    }
  }

  // ---- the records kept ----

  /** Some field has a character that is not white space. */
  ghost predicate Inked(fields: seq<string>) {
    exists f :: f in fields && !White(f)
  }

  /** The places of the records with something in them, in order. */
  ghost predicate Places(rs: seq<seq<string>>, at: seq<nat>) {
    Picks(|rs|, (k: nat) => k < |rs| && Inked(rs[k]), at)
  }

  function FieldsOf(rs: seq<Record>): (r: seq<seq<string>>)
    ensures |r| == |rs| && forall i :: 0 <= i < |rs| ==> r[i] == rs[i].fields
  {
    seq(|rs|, i requires 0 <= i < |rs| => rs[i].fields)
  }

  lemma {:induction false} BlankIsNotInked(r: Record)
    ensures Blank(r) <==> !Inked(r.fields)
  {
    hide Trim;
    forall f | f in r.fields ensures Trim(f) == [] <==> White(f) {
      WhiteTrimsAway(f);
    }
  }

  /** What is kept is exactly the records with something in them, each once, in their order. */
  lemma {:induction false} KeptAre(rs: seq<Record>, at: seq<nat>)
    requires Places(FieldsOf(rs), at)
    ensures KeptAt(Kept(rs), rs, at)
  {
    KeptArePicked(rs, (k: nat) => k < |rs| && Inked(FieldsOf(rs)[k]), at);
  }

  lemma {:induction false} KeptArePicked(rs: seq<Record>, p: nat -> bool, at: seq<nat>)
    requires forall k: nat :: k < |rs| ==> (p(k) <==> Inked(rs[k].fields))
    requires Picks(|rs|, p, at)
    ensures KeptAt(Kept(rs), rs, at)
  {
    hide Inked, Blank, Picks, KeptAt;
    if rs == [] {
      PicksNone(p, at);
      NoneKept(rs, at);
    } else {
      var n := |rs| - 1;
      PicksLast(n, p, at);
      BlankIsNotInked(rs[n]);
      KeptArePicked(rs[..n], p, if p(n) then at[..|at| - 1] else at);
      KeptSnoc(Kept(rs[..n]), rs[..n], rs[n], p, at);
      assert rs == rs[..n] + [rs[n]];
      assert forall s: seq<Record> :: s + [] == s;
    }
  }

  // ---- a file, printed ----

  function TextsOf(rows: seq<Row>): (r: seq<seq<string>>)
    ensures |r| == |rows| && forall i :: 0 <= i < |rows| ==> r[i] == Texts(rows[i].cells)
  {
    seq(|rows|, i requires 0 <= i < |rows| => Texts(rows[i].cells))
  }

  /** The row as the reader gives it: its own line, and every header with its trimmed field, or nothing. */
  ghost predicate ReadsAs(headers: seq<string>, row: Row, line: nat, got: CsvRow) {
    && got.line == line && got.values.Keys == (set h | h in headers)
    && |row.cells| <= |headers|
    && (forall i :: 0 <= i < |row.cells| ==> IsTrimmed(row.cells[i].text, got.values[headers[i]]))
    && (forall i :: |row.cells| <= i < |headers| ==> got.values[headers[i]] == [])
  }

  /** `names` are the header's texts, trimmed and lower-cased; they are distinct and none is blank. */
  ghost predicate Heads(lower: string -> string, header: Row, names: seq<string>) {
    && |names| == |header.cells|
    && (forall i :: 0 <= i < |names| ==> exists t :: IsTrimmed(header.cells[i].text, t) && names[i] == lower(t))
    && (forall i :: 0 <= i < |names| ==> names[i] != [])
    && (forall i, j :: 0 <= i < j < |names| ==> names[i] != names[j])
  }

  lemma {:induction false} HeadsAreNames(lower: string -> string, header: Row, names: seq<string>)
    requires Heads(lower, header, names)
    ensures names == Names(lower, Texts(header.cells)) && GoodNames(names)
  {
    hide IsTrimmed, Trim;
    forall i | 0 <= i < |names| ensures names[i] == lower(Trim(header.cells[i].text)) {
      var t :| IsTrimmed(header.cells[i].text, t) && names[i] == lower(t);
      TrimsToOne(header.cells[i].text, t);
    }
  }

  lemma {:induction false} PlacedLines(rows: seq<Row>, line: nat, k: nat)
    requires k < |rows|
    ensures |Placed(rows, line)| == |rows| && Placed(rows, line)[k] == Record(line + Lines(rows[..k]), Texts(rows[k].cells))
  {
    hide LinesIn;
    PlacedFields(rows, line);
    if k > 0 {
      var next := line + LinesIn(rows[0].cells) + 1;
      PlacedLines(rows[1..], next, k - 1);
      assert rows[..k][1..] == rows[1..][..k - 1];
    }
  }

  lemma {:induction false} KeyedReadsAs(names: seq<string>, row: Row, line: nat, got: CsvRow)
    requires Keyed(names, Record(line, Texts(row.cells)), got) && |row.cells| <= |names|
    ensures ReadsAs(names, row, line, got)
  {
    hide IsTrimmed, Trim;
    forall i | 0 <= i < |row.cells| ensures IsTrimmed(row.cells[i].text, got.values[names[i]]) {
      TrimIs(row.cells[i].text);
    }
  }

  lemma {:induction false} PrintedIsKept(rows: seq<Row>, at: seq<nat>)
    requires (forall r :: r in rows ==> Legal(r)) && Separable(rows)
    requires Print(rows) == [] || Print(rows)[0] != BOM
    requires Places(TextsOf(rows), at)
    ensures Read(Print(rows)).Ok? && |Kept(Read(Print(rows)).value)| == |at|
    ensures forall i :: 0 <= i < |at| ==> at[i] < |rows|
    ensures forall i :: 0 <= i < |at| ==>
      Kept(Read(Print(rows)).value)[i] == Record(1 + Lines(rows[..at[i]]), Texts(rows[at[i]].cells))
  {
    hide Read, Print, Kept, Legal, Separable, Picks, Placed, Lines;
    PrintedTableReadsBack(rows);
    PlacedFields(rows, 1);
    assert FieldsOf(Placed(rows, 1)) == TextsOf(rows);
    KeptAre(Placed(rows, 1), at);
    PickedAreBelow(|rows|, (k: nat) => k < |rows| && Inked(TextsOf(rows)[k]), at);
    forall i | 0 <= i < |at|
      ensures Kept(Read(Print(rows)).value)[i] == Record(1 + Lines(rows[..at[i]]), Texts(rows[at[i]].cells))
    {
      PlacedLines(rows, 1, at[i]);
    }
  }

  lemma {:induction false} ParsedRows(lower: string -> string, text: string, r: Result<CsvFile>)
    requires Parsed(lower, text, r) && r.Ok?
    ensures Read(text).Ok?
    ensures var all := Kept(Read(text).value);
      |r.value.rows| == |all| - 1 && forall i :: 1 <= i < |all| ==> Keyed(r.value.headers, all[i], r.value.rows[i - 1])
  {
  }

  /** Any table written out comes back as it was: its first row with something in it is the header, and every other
      one is there, in order, under its own line, with every field trimmed; rows blank throughout are passed over. */
  lemma {:induction false} FileReadsBack(lower: string -> string, rows: seq<Row>, at: seq<nat>, names: seq<string>, r: Result<CsvFile>)
    requires (forall row :: row in rows ==> Legal(row)) && Separable(rows)
    requires Print(rows) == [] || Print(rows)[0] != BOM
    requires Places(TextsOf(rows), at) && at != [] && at[0] < |rows| && Heads(lower, rows[at[0]], names)
    requires forall k :: k in at && k < |rows| ==> |rows[k].cells| <= |names|
    requires Parsed(lower, Print(rows), r)
    ensures r.Ok? && r.value.headers == names && |r.value.rows| == |at| - 1
    ensures forall i :: 1 <= i < |at| ==> at[i] < |rows| && ReadsAs(names, rows[at[i]], 1 + Lines(rows[..at[i]]), r.value.rows[i - 1])
  {
    hide Read, Print, Kept, Legal, Separable, Picks, Lines, Heads, ReadsAs, Keyed, IsTrimmed, RefusedFor;
    assert at[0] in at;
    PrintedIsKept(rows, at);
    PickedAreBelow(|rows|, (k: nat) => k < |rows| && Inked(TextsOf(rows)[k]), at);
    HeadsAreNames(lower, rows[at[0]], names);
    var all := Kept(Read(Print(rows)).value);
    assert forall k :: 1 <= k < |all| ==> |all[k].fields| <= |all[0].fields|;
    ParsedRows(lower, Print(rows), r);
    forall i | 1 <= i < |at| ensures ReadsAs(names, rows[at[i]], 1 + Lines(rows[..at[i]]), r.value.rows[i - 1]) {
      KeyedReadsAs(names, rows[at[i]], 1 + Lines(rows[..at[i]]), r.value.rows[i - 1]);
    }
  }

  // ---- what does not read ----

  lemma {:induction false} ReadUnclosed(text: string, st: Scan)
    requires st.quoted
    ensures ScanFrom(Doubled(text), st) == Err(st.start, NeverClosed)
    decreases |text|
  {
    if text != [] {
      var s, c := Doubled(text), text[0];
      if c == QUOTE {
        assert s[0] == QUOTE && s[1] == QUOTE && s[2..] == Doubled(text[1..]);
      } else {
        assert s[0] == c && s[1..] == Doubled(text[1..]);
      }
      ReadUnclosed(text[1..], Advance(s, st).scan);
    }
  }

  /** Rows and the fields before it read as they should; what then begins is `tail`. */
  lemma {:induction false} ReadUpTo(rows: seq<Row>, c: Cell, tail: string)
    requires (forall r :: r in rows ==> Legal(r)) && Separable(rows) && Legal(Row([c], Crlf))
    requires Parted(rows, PrintCell(c) + [COMMA] + tail)
    requires (Print(rows) + (PrintCell(c) + [COMMA] + tail))[0] != BOM
    ensures Read(Print(rows) + (PrintCell(c) + [COMMA] + tail))
         == ScanFrom(tail, Scan(Placed(rows, 1), [c.text], [], false, 1 + Lines(rows) + LineFeeds(c.text), 1 + Lines(rows)))
  {
    hide ScanFrom, Print, PrintCell, Legal, Separable, Parted, LineFeeds;
    var after, line := PrintCell(c) + [COMMA] + tail, 1 + Lines(rows);
    ReadRows(rows, after, [], 1);
    assert [] + Placed(rows, 1) == Placed(rows, 1);
    assert c in [c] && Legal(Row([c], Crlf));
    LegalCell(c);
    ReadComma(c, tail, Scan(Placed(rows, 1), [], [], false, line, line));
    assert [] + [c.text] == [c.text];
  }

  lemma {:induction false} LegalCell(c: Cell)
    requires Legal(Row([c], Crlf))
    ensures c.quoted || Bare(c.text)
  {
    assert c in Row([c], Crlf).cells;
  }

  /** A quoted field left open is refused, under the line its row starts on. */
  lemma {:induction false} OpenQuoteIsRefused(rows: seq<Row>, c: Cell, text: string)
    requires (forall r :: r in rows ==> Legal(r)) && Separable(rows) && Legal(Row([c], Crlf))
    requires Parted(rows, PrintCell(c) + [COMMA] + ([QUOTE] + Doubled(text)))
    requires (Print(rows) + (PrintCell(c) + [COMMA] + ([QUOTE] + Doubled(text))))[0] != BOM
    ensures Read(Print(rows) + (PrintCell(c) + [COMMA] + ([QUOTE] + Doubled(text)))) == Err(1 + Lines(rows), NeverClosed)
  {
    hide ScanFrom, Read, Print, PrintCell, Legal, Separable, Parted, LineFeeds, Doubled;
    var tail := [QUOTE] + Doubled(text);
    ReadUpTo(rows, c, tail);
    var st := Scan(Placed(rows, 1), [c.text], [], false, 1 + Lines(rows) + LineFeeds(c.text), 1 + Lines(rows));
    OneTurn(tail, st);
    assert tail[1..] == Doubled(text);
    ReadUnclosed(text, st.(quoted := true));
  }

  /** A quote after bare text is refused, under the line it is on - exactly when that text is not all white space;
      white space before a quoted field goes. */
  lemma {:induction false} QuoteInsideIsRefusedIff(rows: seq<Row>, c: Cell, text: string, rest: string)
    requires (forall r :: r in rows ==> Legal(r)) && Separable(rows) && Legal(Row([c], Crlf)) && Bare(text)
    requires Parted(rows, PrintCell(c) + [COMMA] + (text + ([QUOTE] + rest)))
    requires (Print(rows) + (PrintCell(c) + [COMMA] + (text + ([QUOTE] + rest))))[0] != BOM
    ensures var read, line := Read(Print(rows) + (PrintCell(c) + [COMMA] + (text + ([QUOTE] + rest)))), 1 + Lines(rows) + LineFeeds(c.text);
      read == if White(text) then ScanFrom(rest, Scan(Placed(rows, 1), [c.text], [], true, line, 1 + Lines(rows)))
              else Err(line, QuoteInField)
  {
    hide ScanFrom, Read, Print, PrintCell, Legal, Separable, Parted, LineFeeds, Bare, Trim;
    var after := [QUOTE] + rest;
    ReadUpTo(rows, c, text + after);
    var st := Scan(Placed(rows, 1), [c.text], [], false, 1 + Lines(rows) + LineFeeds(c.text), 1 + Lines(rows));
    ReadBare(text, after, st);
    assert [] + text == text;
    OneTurn(after, st.(field := text));
    assert after[1..] == rest;
    WhiteTrimsAway(text);
  }
}
