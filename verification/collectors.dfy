/** The SSH collectors.  A collector owns one session on one appliance,
    sends the appliance's listing commands through it, reads the comma
    delimited output into records and hands every record to its series
    builder.  The pool collector needs one listing; the volume collector
    lists the volumes and then asks for the details of each one. */
module Collectors {
  import opened Common
  import opened Csv
  import opened Series
  import opened Builder
  import opened Config

  /** The appliance's command line: the lines a command prints on an
      appliance.  Connecting, authentication and time-outs are outside it. */
  type Remote = (Endpoint, string) -> seq<string>

  const PoolListCommand: string := "lsmdiskgrp -bytes -delim ,"
  const VolumeListCommand: string := "lsvdisk -bytes -delim ,"

  /** The command that prints the `field,value` details of one volume. */
  function VolumeDetailCommand(identifier: string): string {
    VolumeListCommand + " " + identifier
  }

  /** A session on one appliance; `sent` records the commands it executed. */
  class Session {
    const endpoint: Endpoint
    const remote: Remote
    ghost var sent: seq<string>

    constructor (endpoint: Endpoint, remote: Remote)
      ensures this.endpoint == endpoint && this.remote == remote && sent == []
    {
      this.endpoint := endpoint;
      this.remote := remote;
      sent := [];
    }

    /** `_send_command`: the command's output, one more command executed. */
    method SendCommand(command: string) returns (output: seq<string>)
      modifies this`sent
      ensures output == remote(endpoint, command)
      ensures sent == old(sent) + [command]
    {
      output := remote(endpoint, command);
      sent := sent + [command];
    }
  }

  // ----- Volume details -----

  /** A detail line that is not blank names a field and its value. */
  predicate FieldLine(fields: seq<string>) {
    |fields| >= 2
  }

  /** Every line is blank or names a field and its value. */
  predicate FieldLines(rows: seq<seq<string>>) {
    forall i :: 0 <= i < |rows| ==> rows[i] == [] || FieldLine(rows[i])
  }

  /** `{line[0]: line[1] for line in reader if line}` over the lines the
      reader yields: blank lines are skipped, a later line replaces an
      earlier one with the same field, and a line with a single column
      raises IndexError. */
  function Details(rows: seq<seq<string>>): Result<Row> {
    if rows == [] then Ok(map[])
    else
      var n := |rows| - 1;
      match Details(rows[..n])
      case Err(e) => Err(e)
      case Ok(details) =>
        if rows[n] == [] then Ok(details)
        else if |rows[n]| < 2 then Err(IndexError)
        else Ok(details[rows[n][0] := rows[n][1]])
  }

  /** `_get_volume_details`' reading of the command's output. */
  function VolumeDetails(lines: seq<string>): Result<Row> {
    Details(Reader(lines))
  }

  /** The details are read exactly when every line is blank or a field line. */
  lemma {:induction false} DetailsSucceed(rows: seq<seq<string>>)
    ensures Details(rows).Ok? <==> FieldLines(rows)
  {
    if rows != [] {
      var n := |rows| - 1;
      DetailsSucceed(rows[..n]);
      assert forall i :: 0 <= i < n ==> rows[i] == rows[..n][i];
    }
  }

  /** The line `i` names the field `k`. */
  predicate Names(rows: seq<seq<string>>, i: int, k: string) {
    0 <= i < |rows| && FieldLine(rows[i]) && rows[i][0] == k
  }

  /** The fields of the details are exactly those the lines name. */
  lemma {:induction false} DetailsKeys(rows: seq<seq<string>>)
    requires Details(rows).Ok?
    ensures forall k :: k in Details(rows).value <==> exists i :: Names(rows, i, k)
  {
    if rows != [] {
      var n := |rows| - 1;
      var init := rows[..n];
      DetailsKeys(init);
      var d := Details(init).value;
      assert Details(rows) == Ok(if rows[n] == [] then d else d[rows[n][0] := rows[n][1]]);
      forall k ensures k in Details(rows).value <==> exists i :: Names(rows, i, k) {
        if k in d {
          var i :| Names(init, i, k);
          assert Names(rows, i, k);
        } else if rows[n] != [] && k == rows[n][0] {
          assert Names(rows, n, k);
        } else {
          forall i | 0 <= i < |rows| ensures !Names(rows, i, k) {
            if i < n {
              assert !Names(init, i, k);
            }
          }
        }
      }
    }
  }

  /** The first line that is neither blank nor a field line. */
  predicate FirstBadLine(rows: seq<seq<string>>, i: int) {
    0 <= i < |rows| && rows[i] != [] && !FieldLine(rows[i]) && FieldLines(rows[..i])
  }

  /** Reading fails only with IndexError, at the first single-column line. */
  lemma {:induction false} DetailsError(rows: seq<seq<string>>)
    requires Details(rows).Err?
    ensures Details(rows).error == IndexError
    ensures exists i :: FirstBadLine(rows, i)
  {
    var n := |rows| - 1;
    var init := rows[..n];
    if Details(init).Err? {
      DetailsError(init);
      var i :| FirstBadLine(init, i);
      assert init[..i] == rows[..i];
      assert FirstBadLine(rows, i);
    } else {
      DetailsSucceed(init);
      assert FirstBadLine(rows, n);
    }
  }

  /** The value of a field is the one on the last line that names it. */
  lemma {:induction false} DetailsLastWins(rows: seq<seq<string>>, i: int)
    requires Details(rows).Ok?
    requires 0 <= i < |rows| && FieldLine(rows[i])
    requires forall j :: i < j < |rows| && FieldLine(rows[j]) ==> rows[j][0] != rows[i][0]
    ensures rows[i][0] in Details(rows).value
    ensures Details(rows).value[rows[i][0]] == rows[i][1]
  {
    var n := |rows| - 1;
    if i < n {
      var init := rows[..n];
      assert init[i] == rows[i];
      assert forall j :: i < j < n ==> init[j] == rows[j];
      DetailsLastWins(init, i);
    }
  }

  /** Blank lines contribute nothing to the details. */
  lemma {:induction false} DetailsSkipBlank(a: seq<seq<string>>, b: seq<seq<string>>)
    ensures Details(a + [[]] + b) == Details(a + b)
  {
    if b == [] {
      assert (a + [[]] + b)[..|a|] == a;
      assert a + b == a;
    } else {
      var n := |b| - 1;
      DetailsSkipBlank(a, b[..n]);
      assert (a + [[]] + b)[..|a + [[]] + b| - 1] == a + [[]] + b[..n];
      assert (a + b)[..|a + b| - 1] == a + b[..n];
    }
  }

  // ----- Parsing records through a builder -----

  /** The state of the builder a collector was given, if any. */
  function BuilderOf(builder: SeriesBuilder?): Option<BuilderState>
    reads builder
  {
    if builder == null then None else Some(builder.State())
  }

  /** `[builder.parse(line, prefix) for line in rows]`: one point list per
      record, in record order; the first failing record fails the whole
      list, and without a builder any record fails with AttributeError. */
  function ParseRows(builder: Option<BuilderState>, rows: seq<Row>, prefix: string): (r: Result<seq<seq<Point>>>)
    ensures builder.None? ==> r == if rows == [] then Ok([]) else Err(AttributeError)
    ensures r.Ok? ==> |r.value| == |rows|
    ensures r.Ok? && builder.Some? ==> forall i :: 0 <= i < |rows| ==> ParseRow(builder.value, rows[i], prefix) == Ok(r.value[i])
  {
    if rows == [] then Ok([])
    else
      var n := |rows| - 1;
      var init := rows[..n];
      assert forall i :: 0 <= i < n ==> rows[i] == init[i];
      match ParseRows(builder, init, prefix)
      case Err(e) => Err(e)
      case Ok(lists) =>
        match builder
        case None => Err(AttributeError)
        case Some(b) =>
          match ParseRow(b, rows[n], prefix)
          case Err(e) => Err(e)
          case Ok(points) => Ok(lists + [points])
  }

  /** With a builder, the comprehension completes exactly when every record parses. */
  lemma {:induction false} ParseRowsSucceed(b: BuilderState, rows: seq<Row>, prefix: string)
    ensures ParseRows(Some(b), rows, prefix).Ok? <==> forall i :: 0 <= i < |rows| ==> ParseRow(b, rows[i], prefix).Ok?
  {
    if rows != [] {
      var n := |rows| - 1;
      var init := rows[..n];
      ParseRowsSucceed(b, init, prefix);
      assert forall i :: 0 <= i < n ==> rows[i] == init[i];
    }
  }

  /** Once a record fails, the records after it are never parsed. */
  lemma {:induction false} ParseRowsStopAtError(builder: Option<BuilderState>, rows: seq<Row>, prefix: string, i: int)
    requires 0 <= i <= |rows|
    requires ParseRows(builder, rows[..i], prefix).Err?
    ensures ParseRows(builder, rows, prefix) == ParseRows(builder, rows[..i], prefix)
    decreases |rows| - i
  {
    if i < |rows| {
      assert rows[..i + 1][..i] == rows[..i];
      ParseRowsStopAtError(builder, rows, prefix, i + 1);
    } else {
      assert rows[..i] == rows;
    }
  }

  /** The list comprehension both collectors end with: the builder's `parse`
      applied to every record, in order. */
  method ParseEach(builder: SeriesBuilder?, rows: seq<Row>, prefix: string) returns (r: Result<seq<seq<Point>>>)
    ensures r == ParseRows(BuilderOf(builder), rows, prefix)
  {
    var lists: seq<seq<Point>> := [];
    var i := 0;
    while i < |rows|
      invariant 0 <= i <= |rows|
      invariant ParseRows(BuilderOf(builder), rows[..i], prefix) == Ok(lists)
    {
      assert rows[..i + 1][..i] == rows[..i];
      if builder == null {
        ParseRowsStopAtError(BuilderOf(builder), rows, prefix, i + 1);
        return Err(AttributeError);
      }
      var points := builder.Parse(rows[i], prefix);
      if points.Err? {
        ParseRowsStopAtError(BuilderOf(builder), rows, prefix, i + 1);
        return Err(points.error);
      }
      lists := lists + [points.value];
      i := i + 1;
    }
    assert rows[..i] == rows;
    r := Ok(lists);
  }

  // ----- What the collectors compute -----

  /** `PoolSSHCollector.collect`: one point list per pool record. */
  function PoolSeries(builder: Option<BuilderState>, remote: Remote, endpoint: Endpoint): Result<seq<seq<Point>>>
    requires WellFormedTable(remote(endpoint, PoolListCommand))
  {
    ParseRows(builder, Records(remote(endpoint, PoolListCommand)), "pool")
  }

  /** The details of the listed volumes, fetched one `lsvdisk <id>` at a
      time in listing order, and the detail commands sent on the way, up to
      and including the one that failed. */
  datatype Fetched = Fetched(details: Result<seq<Row>>, sent: seq<string>)

  function FetchDetails(remote: Remote, endpoint: Endpoint, rows: seq<Row>): (f: Fetched)
    ensures |f.sent| <= |rows|
    ensures f.details.Ok? ==> |f.details.value| == |rows| && |f.sent| == |rows|
  {
    if rows == [] then Fetched(Ok([]), [])
    else
      var n := |rows| - 1;
      var before := FetchDetails(remote, endpoint, rows[..n]);
      if before.details.Err? then before
      else if "id" !in rows[n] then Fetched(Err(KeyError("id")), before.sent)
      else
        var command := VolumeDetailCommand(rows[n]["id"]);
        match VolumeDetails(remote(endpoint, command))
        case Err(e) => Fetched(Err(e), before.sent + [command])
        case Ok(d) => Fetched(Ok(before.details.value + [d]), before.sent + [command])
  }

  /** One more listed volume: its `id` is looked up, then its details are asked for. */
  lemma FetchStep(remote: Remote, endpoint: Endpoint, rows: seq<Row>, i: int)
    requires 0 <= i < |rows|
    ensures FetchDetails(remote, endpoint, rows[..i + 1]) ==
      var before := FetchDetails(remote, endpoint, rows[..i]);
      if before.details.Err? then before
      else if "id" !in rows[i] then Fetched(Err(KeyError("id")), before.sent)
      else
        var command := VolumeDetailCommand(rows[i]["id"]);
        match VolumeDetails(remote(endpoint, command))
        case Err(e) => Fetched(Err(e), before.sent + [command])
        case Ok(d) => Fetched(Ok(before.details.value + [d]), before.sent + [command])
  {
    assert rows[..i + 1][..i] == rows[..i];
  }

  /** When every volume's details are read, the i-th detail command names the
      i-th listed volume and the i-th record is what that command printed. */
  lemma {:induction false} FetchDetailsCommands(remote: Remote, endpoint: Endpoint, rows: seq<Row>)
    requires FetchDetails(remote, endpoint, rows).details.Ok?
    ensures forall i :: 0 <= i < |rows| ==>
      var f := FetchDetails(remote, endpoint, rows);
      && "id" in rows[i]
      && f.sent[i] == VolumeDetailCommand(rows[i]["id"])
      && VolumeDetails(remote(endpoint, f.sent[i])) == Ok(f.details.value[i])
  {
    if rows != [] {
      var n := |rows| - 1;
      var f, before := FetchDetails(remote, endpoint, rows), FetchDetails(remote, endpoint, rows[..n]);
      FetchStep(remote, endpoint, rows, n);
      assert rows[..n + 1] == rows;
      assert before.details.Ok? && "id" in rows[n];
      var command := VolumeDetailCommand(rows[n]["id"]);
      var d := VolumeDetails(remote(endpoint, command));
      assert d.Ok?;
      assert f == Fetched(Ok(before.details.value + [d.value]), before.sent + [command]);
      FetchDetailsCommands(remote, endpoint, rows[..n]);
      forall i | 0 <= i < |rows|
        ensures "id" in rows[i]
        ensures f.sent[i] == VolumeDetailCommand(rows[i]["id"])
        ensures VolumeDetails(remote(endpoint, f.sent[i])) == Ok(f.details.value[i])
      {
        if i < n {
          assert rows[..n][i] == rows[i];
        }
      }
    }
  }

  /** Once a volume's details fail, no later volume is asked for. */
  lemma {:induction false} FetchStopsAtError(remote: Remote, endpoint: Endpoint, rows: seq<Row>, i: int)
    requires 0 <= i <= |rows|
    requires FetchDetails(remote, endpoint, rows[..i]).details.Err?
    ensures FetchDetails(remote, endpoint, rows) == FetchDetails(remote, endpoint, rows[..i])
    decreases |rows| - i
  {
    if i < |rows| {
      FetchStep(remote, endpoint, rows, i);
      FetchStopsAtError(remote, endpoint, rows, i + 1);
    } else {
      assert rows[..i] == rows;
    }
  }

  /** `VolumeSSHCollector.collect`: every listed volume's details are
      fetched first, then turned into one point list per volume. */
  function VolumeSeries(builder: Option<BuilderState>, remote: Remote, endpoint: Endpoint): Result<seq<seq<Point>>>
    requires WellFormedTable(remote(endpoint, VolumeListCommand))
  {
    match FetchDetails(remote, endpoint, Records(remote(endpoint, VolumeListCommand))).details
    case Err(e) => Err(e)
    case Ok(details) => ParseRows(builder, details, "volume")
  }

  // ----- The collector objects -----

  class PoolCollector {
    const session: Session
    var builder: SeriesBuilder?

    /** `PoolSSHCollector(**svc)`: a fresh session and no builder yet. */
    constructor (endpoint: Endpoint, remote: Remote)
      ensures fresh(session) && session.endpoint == endpoint && session.remote == remote && session.sent == []
      ensures builder == null
    {
      session := new Session(endpoint, remote);
      builder := null;
    }

    method AddSeriesBuilder(b: SeriesBuilder)
      modifies this`builder
      ensures builder == b
    {
      builder := b;
    }

    /** Sends the pool listing once and parses every pool record. */
    method Collect() returns (r: Result<seq<seq<Point>>>)
      requires WellFormedTable(session.remote(session.endpoint, PoolListCommand))
      modifies session`sent
      ensures session.sent == old(session.sent) + [PoolListCommand]
      ensures r == PoolSeries(BuilderOf(builder), session.remote, session.endpoint)
    {
      var output := session.SendCommand(PoolListCommand);
      r := ParseEach(builder, Records(output), "pool");
    }
  }

  class VolumeCollector {
    const session: Session
    var builder: SeriesBuilder?

    /** `VolumeSSHCollector(**svc)`: a fresh session and no builder yet. */
    constructor (endpoint: Endpoint, remote: Remote)
      ensures fresh(session) && session.endpoint == endpoint && session.remote == remote && session.sent == []
      ensures builder == null
    {
      session := new Session(endpoint, remote);
      builder := null;
    }

    method AddSeriesBuilder(b: SeriesBuilder)
      modifies this`builder
      ensures builder == b
    {
      builder := b;
    }

    /** `_get_volume_details`: one detail command, its output as a record. */
    method GetVolumeDetails(identifier: string) returns (r: Result<Row>)
      modifies session`sent
      ensures session.sent == old(session.sent) + [VolumeDetailCommand(identifier)]
      ensures r == VolumeDetails(session.remote(session.endpoint, VolumeDetailCommand(identifier)))
    {
      var output := session.SendCommand(VolumeDetailCommand(identifier));
      r := VolumeDetails(output);
    }

    /** The loop of `collect`: the details of every listed volume, asked
        for one at a time in listing order. */
    method FetchVolumeDetails(rows: seq<Row>) returns (r: Result<seq<Row>>)
      modifies session`sent
      ensures session.sent == old(session.sent) + FetchDetails(session.remote, session.endpoint, rows).sent
      ensures r == FetchDetails(session.remote, session.endpoint, rows).details
    {
      var details: seq<Row> := [];
      var i := 0;
      while i < |rows|
        invariant 0 <= i <= |rows|
        invariant FetchDetails(session.remote, session.endpoint, rows[..i]).details == Ok(details)
        invariant session.sent == old(session.sent) + FetchDetails(session.remote, session.endpoint, rows[..i]).sent
      {
        FetchStep(session.remote, session.endpoint, rows, i);
        if "id" !in rows[i] {
          FetchStopsAtError(session.remote, session.endpoint, rows, i + 1);
          return Err(KeyError("id"));
        }
        var d := GetVolumeDetails(rows[i]["id"]);
        if d.Err? {
          FetchStopsAtError(session.remote, session.endpoint, rows, i + 1);
          return Err(d.error);
        }
        details := details + [d.value];
        i := i + 1;
      }
      assert rows[..i] == rows;
      r := Ok(details);
    }

    /** Sends the volume listing, then one detail command per listed volume
        in listing order, then parses every detail record. */
    method Collect() returns (r: Result<seq<seq<Point>>>)
      requires WellFormedTable(session.remote(session.endpoint, VolumeListCommand))
      modifies session`sent
      ensures session.sent == old(session.sent) + [VolumeListCommand] +
        FetchDetails(session.remote, session.endpoint, Records(session.remote(session.endpoint, VolumeListCommand))).sent
      ensures r == VolumeSeries(BuilderOf(builder), session.remote, session.endpoint)
    {
      var output := session.SendCommand(VolumeListCommand);
      var details := FetchVolumeDetails(Records(output));
      if details.Err? {
        return Err(details.error);
      }
      r := ParseEach(builder, details.value, "volume");
    }
  }
}
