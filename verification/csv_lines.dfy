/** The comma-delimited output of the appliance's `-delim ,` commands, as the
    collectors read it: a line is split on every ',' (no quoting), an empty
    line has no fields at all, and a table is a header line naming the
    columns followed by one data line per record (what `csv.DictReader`
    yields on such output). */
module Csv {
  import opened Common

  /** The fields of a line: the text between consecutive commas. */
  function SplitFields(s: string): (r: seq<string>)
    ensures |r| >= 1
  {
    if s == [] then [""]
    else
      var rest := SplitFields(s[1..]);
      if s[0] == ',' then [""] + rest else [[s[0]] + rest[0]] + rest[1..]
  }

  /** The fields `csv.reader` yields for one unquoted line; a blank line yields none. */
  function Split(line: string): (r: seq<string>)
    ensures r == [] <==> line == ""
  {
    if line == "" then [] else SplitFields(line)
  }

  /** The line that prints `fields` with the delimiter between them. */
  function Join(fields: seq<string>): string {
    if |fields| == 0 then ""
    else if |fields| == 1 then fields[0]
    else fields[0] + "," + Join(fields[1..])
  }

  /** No field holds the delimiter. */
  lemma {:induction false} SplitFieldsNoComma(s: string)
    ensures forall i :: 0 <= i < |SplitFields(s)| ==> ',' !in SplitFields(s)[i]
  {
    if s != [] {
      SplitFieldsNoComma(s[1..]);
      var rest := SplitFields(s[1..]);
      if s[0] != ',' {
        assert ',' !in [s[0]] + rest[0];
      }
    }
  }

  lemma {:induction false} JoinSplitFields(s: string)
    ensures Join(SplitFields(s)) == s
  {
    if s != [] {
      var rest := SplitFields(s[1..]);
      JoinSplitFields(s[1..]);
      if s[0] == ',' {
        assert ([""] + rest)[1..] == rest;
      } else {
        var r := [[s[0]] + rest[0]] + rest[1..];
        assert r[1..] == rest[1..];
        if |rest| > 1 {
          assert Join(rest) == rest[0] + "," + Join(rest[1..]);
        }
      }
    }
  }

  /** Splitting loses nothing: rejoining the fields gives the line back. */
  lemma JoinSplit(line: string)
    ensures Join(Split(line)) == line
  {
    if line != "" {
      JoinSplitFields(line);
    }
  }

  lemma {:induction false} SplitFieldsPlain(a: string)
    requires ',' !in a
    ensures SplitFields(a) == [a]
  {
    if a != [] {
      SplitFieldsPlain(a[1..]);
      assert [a[0]] + a[1..] == a;
    }
  }

  lemma {:induction false} SplitFieldsCons(a: string, b: string)
    requires ',' !in a
    ensures SplitFields(a + "," + b) == [a] + SplitFields(b)
  {
    if a == [] {
      assert ("" + "," + b)[1..] == b;
    } else {
      SplitFieldsCons(a[1..], b);
      assert (a + "," + b)[1..] == a[1..] + "," + b;
      assert [a[0]] + a[1..] == a;
    }
  }

  lemma {:induction false} SplitJoinFields(fields: seq<string>)
    requires |fields| >= 1
    requires forall i :: 0 <= i < |fields| ==> ',' !in fields[i]
    ensures SplitFields(Join(fields)) == fields
  {
    if |fields| == 1 {
      SplitFieldsPlain(fields[0]);
    } else {
      SplitJoinFields(fields[1..]);
      SplitFieldsCons(fields[0], Join(fields[1..]));
      assert [fields[0]] + fields[1..] == fields;
    }
  }

  /** Printing fields that hold no comma and splitting the line again gives
      the same fields back (a line that prints as "" reads as no fields). */
  lemma SplitJoin(fields: seq<string>)
    requires forall i :: 0 <= i < |fields| ==> ',' !in fields[i]
    requires Join(fields) != ""
    ensures Split(Join(fields)) == fields
  {
    SplitJoinFields(fields);
  }

  /** `csv.reader`: the fields of every line, in order. */
  function Reader(lines: seq<string>): (r: seq<seq<string>>)
    ensures |r| == |lines|
  {
    seq(|lines|, i requires 0 <= i < |lines| => Split(lines[i]))
  }

  /** A line read as blank or with one field per header column. */
  predicate Fits(header: seq<string>, fields: seq<string>) {
    fields == [] || |fields| == |header|
  }

  predicate AllFit(header: seq<string>, rows: seq<seq<string>>) {
    forall i :: 0 <= i < |rows| ==> Fits(header, rows[i])
  }

  /** Every data line is blank or has as many fields as the header. */
  predicate WellFormedTable(lines: seq<string>) {
    var rows := Reader(lines);
    rows != [] ==> AllFit(rows[0], rows[1..])
  }

  /** The record of one data line: header name to field, a later column
      replacing an earlier one of the same name. */
  function ZipRow(header: seq<string>, fields: seq<string>): Row
    requires |header| == |fields|
  {
    if header == [] then map[]
    else
      var n := |header| - 1;
      ZipRow(header[..n], fields[..n])[header[n] := fields[n]]
  }

  /** A record has one entry per distinct column name. */
  lemma {:induction false} ZipRowKeys(header: seq<string>, fields: seq<string>)
    requires |header| == |fields|
    ensures ZipRow(header, fields).Keys == set k | k in header
  {
    if header != [] {
      var n := |header| - 1;
      ZipRowKeys(header[..n], fields[..n]);
      assert header == header[..n] + [header[n]];
    }
  }

  /** The column a name is read from is its last occurrence in the header. */
  lemma {:induction false} ZipRowValue(header: seq<string>, fields: seq<string>, i: nat)
    requires |header| == |fields| && i < |header|
    requires header[i] !in header[i + 1..]
    ensures header[i] in ZipRow(header, fields)
    ensures ZipRow(header, fields)[header[i]] == fields[i]
  {
    var n := |header| - 1;
    if i < n {
      assert header[n] in header[i + 1..];
      assert header[..n][i + 1..] == header[i + 1..n];
      ZipRowValue(header[..n], fields[..n], i);
    }
  }

  /** The records of the data rows under `header`; blank lines are skipped. */
  function DataRecords(header: seq<string>, rows: seq<seq<string>>): (r: seq<Row>)
    requires AllFit(header, rows)
    ensures |r| <= |rows|
  {
    if rows == [] then []
    else
      var n := |rows| - 1;
      DataRecords(header, rows[..n]) + (if rows[n] == [] then [] else [ZipRow(header, rows[n])])
  }

  /** `csv.DictReader`: the first line names the columns; no output, no records. */
  function Records(lines: seq<string>): seq<Row>
    requires WellFormedTable(lines)
  {
    var rows := Reader(lines);
    if rows == [] then [] else DataRecords(rows[0], rows[1..])
  }

  lemma AllFitAppend(header: seq<string>, a: seq<seq<string>>, b: seq<seq<string>>)
    requires AllFit(header, a) && AllFit(header, b)
    ensures AllFit(header, a + b)
  {
    forall i | 0 <= i < |a + b| ensures Fits(header, (a + b)[i]) {
      if i < |a| { assert (a + b)[i] == a[i]; } else { assert (a + b)[i] == b[i - |a|]; }
    }
  }

  /** Records keep the order of the lines they come from. */
  lemma {:induction false} DataRecordsAppend(header: seq<string>, a: seq<seq<string>>, b: seq<seq<string>>)
    requires AllFit(header, a)
    requires AllFit(header, b)
    ensures AllFit(header, a + b)
    ensures DataRecords(header, a + b) == DataRecords(header, a) + DataRecords(header, b)
  {
    AllFitAppend(header, a, b);
    if b == [] {
      assert a + b == a;
    } else {
      var n := |b| - 1;
      assert AllFit(header, b[..n]);
      DataRecordsAppend(header, a, b[..n]);
      assert (a + b)[..|a + b| - 1] == a + b[..n];
      assert (a + b)[|a + b| - 1] == b[n];
    }
  }

  /** A blank line between data lines contributes no record. */
  lemma BlankLineSkipped(header: seq<string>, a: seq<seq<string>>, b: seq<seq<string>>)
    requires AllFit(header, a)
    requires AllFit(header, b)
    ensures AllFit(header, a + [[]] + b)
    ensures DataRecords(header, a + [[]] + b) == DataRecords(header, a + b)
  {
    var blank: seq<seq<string>> := [[]];
    assert AllFit(header, blank);
    assert DataRecords(header, blank) == [] by {
      assert blank[..0] == [];
    }
    var ra := DataRecords(header, a);
    DataRecordsAppend(header, a, blank);
    assert DataRecords(header, a + blank) == ra by {
      assert ra + [] == ra;
    }
    DataRecordsAppend(header, a + blank, b);
    DataRecordsAppend(header, a, b);
  }

  /** One record per non-blank data line: when no data line is blank, the
      i-th record comes from the i-th data line. */
  lemma {:induction false} RecordsOfFullLines(header: seq<string>, rows: seq<seq<string>>, i: int)
    requires forall j :: 0 <= j < |rows| ==> |rows[j]| == |header|
    requires header != []
    requires 0 <= i < |rows|
    ensures AllFit(header, rows)
    ensures |DataRecords(header, rows)| == |rows|
    ensures DataRecords(header, rows)[i] == ZipRow(header, rows[i])
  {
    assert AllFit(header, rows);
    var n := |rows| - 1;
    var init := rows[..n];
    var before := DataRecords(header, init);
    assert DataRecords(header, rows) == before + [ZipRow(header, rows[n])];
    if i < n {
      RecordsOfFullLines(header, init, i);
    } else if n > 0 {
      RecordsOfFullLines(header, init, n - 1);
    }
  }

}
