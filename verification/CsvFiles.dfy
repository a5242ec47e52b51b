/** The reader's second half: a header, and rows of named values. */
module CsvFiles {
  import opened Common
  import opened Csv

  datatype CsvRow = CsvRow(line: nat, values: map<string, string>)

  datatype CsvFile = CsvFile(headers: seq<string>, rows: seq<CsvRow>)

  predicate Blank(r: Record) {
    forall f :: f in r.fields ==> Trim(f) == []
  }

  /** The records with something in them, in order. */
  function Kept(rs: seq<Record>): seq<Record> {
    if rs == [] then []
    else Kept(rs[..|rs| - 1]) + (if Blank(rs[|rs| - 1]) then [] else [rs[|rs| - 1]])
  }

  /** Header names as the file's rows are keyed by them; `lower` is the platform's lower-casing. */
  function Names(lower: string -> string, fields: seq<string>): (r: seq<string>)
    ensures |r| == |fields| && forall i :: 0 <= i < |fields| ==> r[i] == lower(Trim(fields[i]))
  {
    seq(|fields|, i requires 0 <= i < |fields| => lower(Trim(fields[i])))
  }

  predicate Distinct(names: seq<string>) {
    forall i, j :: 0 <= i < j < |names| ==> names[i] != names[j]
  }

  predicate GoodNames(names: seq<string>) {
    [] !in names && Distinct(names)
  }

  function Field(r: Record, i: nat): string {
    if i < |r.fields| then Trim(r.fields[i]) else []
  }

  /** One row's values: every header named, each with its own field or nothing. */
  predicate Keyed(names: seq<string>, r: Record, row: CsvRow) {
    && row.line == r.line
    && row.values.Keys == (set n | n in names)
    && forall i :: 0 <= i < |names| ==> row.values[names[i]] == Field(r, i)
  }

  method RowOf(names: seq<string>, r: Record) returns (row: CsvRow)
    requires Distinct(names)
    ensures Keyed(names, r, row)
  {
    var values: map<string, string> := map[];
    for i := 0 to |names|
      invariant values.Keys == set n | n in names[..i]
      invariant forall j :: 0 <= j < i ==> names[j] in values && values[names[j]] == Field(r, j)
    {
      assert names[..i + 1] == names[..i] + [names[i]];
      values := values[names[i] := Field(r, i)];
    }
    assert names[..|names|] == names;
    row := CsvRow(r.line, values);
  }

  /** The first name that is blank or was there before, and which of the two it is. */
  predicate FirstBad(names: seq<string>, at: nat, fault: Fault) {
    && at < |names| && GoodNames(names[..at])
    && ((names[at] == [] && fault == BlankHeader) || (names[at] != [] && names[at] in names[..at] && fault == HeaderTwice))
  }

  method CheckNames(names: seq<string>) returns (fault: Option<Fault>)
    ensures fault.None? <==> GoodNames(names)
    ensures fault.Some? ==> exists at: nat :: FirstBad(names, at, fault.value)
  {
    var seen: set<string> := {};
    for i := 0 to |names|
      invariant seen == set n | n in names[..i]
      invariant GoodNames(names[..i])
    {
      assert names[..i + 1] == names[..i] + [names[i]];
      if names[i] == [] {
        assert names[..i + 1][i] == [];
        assert FirstBad(names, i, BlankHeader);
        return Some(BlankHeader);
      }
      if names[i] in seen {
        var j :| 0 <= j < i && names[..i][j] == names[i];
        assert names[..i + 1][j] == names[..i + 1][i];
        assert FirstBad(names, i, HeaderTwice);
        return Some(HeaderTwice);
      }
      seen := seen + {names[i]};
    }
    assert names[..|names|] == names;
    return None;
  }

  /** What a file is refused for, and where. */
  ghost predicate RefusedFor(lower: string -> string, text: string, line: nat, fault: Fault) {
    match Read(text)
    case Err(at, why) => line == at && fault == why
    case Ok(rs) =>
      var all := Kept(rs);
      if all == [] then line == 1 && fault == Empty
      else
        var names := Names(lower, all[0].fields);
        if !GoodNames(names) then line == all[0].line && exists at: nat :: FirstBad(names, at, fault)
        else fault == LongRow
             && exists k :: 1 <= k < |all| && |all[k].fields| > |all[0].fields| && line == all[k].line
                            && forall j :: 1 <= j < k ==> |all[j].fields| <= |all[0].fields|
  }

  /** A file is read exactly when its records read, one is not blank, the header names are distinct and none is
      blank, and no row is longer than the header; its rows are then the other records, keyed. */
  ghost predicate Parsed(lower: string -> string, text: string, r: Result<CsvFile>) {
    var all := if Read(text).Ok? then Kept(Read(text).value) else [];
    && (r.Ok? <==> all != [] && GoodNames(Names(lower, all[0].fields))
                   && forall k :: 1 <= k < |all| ==> |all[k].fields| <= |all[0].fields|)
    && (r.Ok? ==> r.value.headers == Names(lower, all[0].fields) && |r.value.rows| == |all| - 1
                  && forall k :: 1 <= k < |all| ==> Keyed(r.value.headers, all[k], r.value.rows[k - 1]))
    && (r.Err? ==> RefusedFor(lower, text, r.line, r.fault))
  }

  method ParseCsv(lower: string -> string, text: string) returns (r: Result<CsvFile>)
    ensures Parsed(lower, text, r)
  {
    var read := Records(text);
    if read.Err? {
      return Err(read.line, read.fault);
    }
    var all := Kept(read.value);
    if all == [] {
      return Err(1, Empty);
    }
    var head, headers := all[0], Names(lower, all[0].fields);
    var fault := CheckNames(headers);
    if fault.Some? {
      return Err(head.line, fault.value);
    }
    var rows: seq<CsvRow> := [];
    for k := 1 to |all|
      invariant |rows| == k - 1
      invariant forall j :: 1 <= j < k ==> Keyed(headers, all[j], rows[j - 1])
      invariant forall j :: 1 <= j < k ==> |all[j].fields| <= |head.fields|
    {
      if |all[k].fields| > |headers| {
        return Err(all[k].line, LongRow);
      }
      var row := RowOf(headers, all[k]);
      rows := rows + [row];
    }
    return Ok(CsvFile(headers, rows));
  }
}
