/** What `SeriesBuilder.parse` computes from one appliance record: the
    InfluxDB points of that record, as values.

    A builder is configured with a schema (the ordered measurement columns
    and tag columns of one entity type), the appliance-level extra tags and
    an optional fixed time.  For every measurement column the record has, in
    schema order, it emits one point named `<prefix>_<column>` whose only
    field `value` is the column read as an integer and whose tags are the
    extra tags overridden by the record's tag columns. */
module Series {
  import opened Common
  import PyInt

  /** One InfluxDB point, as handed to `write_points`. */
  datatype Point = Point(
    measurement: string,
    tags: map<string, string>,
    fields: map<string, int>,
    time: Option<int>)

  /** The measurement columns and the tag columns of one entity type, in order. */
  datatype Schema = Schema(measurements: seq<string>, tagNames: seq<string>)

  /** Everything `parse` reads from its builder. */
  datatype BuilderState = BuilderState(schema: Schema, extras: map<string, string>, fixedTime: Option<int>)

  /** The columns `PoolSeriesBuilder` reads from `lsmdiskgrp` records. */
  const PoolSchema: Schema := Schema(
    ["capacity", "virtual_capacity", "compression_compressed_capacity",
     "compression_uncompressed_capacity", "overallocation", "vdisk_count",
     "compression_virtual_capacity", "free_capacity", "real_capacity", "used_capacity"],
    ["name", "id"])

  /** The columns `VolumeSeriesBuilder` reads from `lsvdisk <id>` records. */
  const VolumeSchema: Schema := Schema(
    ["capacity", "virtual_capacity", "used_capacity", "real_capacity",
     "free_capacity", "uncompressed_used_capacity"],
    ["name", "id", "vdisk_UID"])

  /** Python truthiness of the stored fixed time: neither `None` nor `0`. */
  predicate HasFixedTime(fixedTime: Option<int>) {
    fixedTime.Some? && fixedTime.value != 0
  }

  /** The time a point carries: the fixed time when it is truthy, else none. */
  function PointTime(fixedTime: Option<int>): (t: Option<int>)
    ensures t.Some? <==> HasFixedTime(fixedTime)
    ensures t.Some? ==> t == fixedTime
  {
    if HasFixedTime(fixedTime) then fixedTime else None
  }

  /** `_build_series`: the point of one measurement column. */
  function BuildPoint(measurement: string, tags: map<string, string>, value: string,
                      prefix: string, fixedTime: Option<int>): Result<Point>
  {
    match PyInt.ParseInt(value)
    case None => Err(ValueError(value))
    case Some(n) => Ok(Point(prefix + "_" + measurement, tags, map["value" := n], PointTime(fixedTime)))
  }

  /** The measurement columns of `names` that `row` has, in schema order. */
  function Present(names: seq<string>, row: Row): (r: seq<string>)
    ensures AllIn(r, row)
    ensures |r| <= |names|
  {
    if names == [] then []
    else
      var k := |names| - 1;
      Present(names[..k], row) + (if names[k] in row then [names[k]] else [])
  }

  /** Every name of `names` is a key of `row`. */
  predicate AllIn(names: seq<string>, row: Row) {
    forall i :: 0 <= i < |names| ==> names[i] in row
  }

  /** `i` is the position of the first name of `names` missing from `row`. */
  predicate FirstMissing(row: Row, names: seq<string>, i: int) {
    0 <= i < |names| && names[i] !in row && forall j :: 0 <= j < i ==> names[j] in row
  }

  lemma FirstMissingUnique(row: Row, names: seq<string>, i: int, j: int)
    requires FirstMissing(row, names, i) && FirstMissing(row, names, j)
    ensures i == j
  {
  }

  /** `{tag: data[tag] for tag in self._tags}`: the record's tag columns, or
      KeyError for the first tag column the record lacks. */
  function RowTags(row: Row, tagNames: seq<string>): (r: Result<map<string, string>>)
    ensures r.Ok? <==> AllIn(tagNames, row)
    ensures r.Ok? ==> forall i :: 0 <= i < |tagNames| ==>
      tagNames[i] in r.value && r.value[tagNames[i]] == row[tagNames[i]]
  {
    if tagNames == [] then Ok(map[])
    else
      var k := |tagNames| - 1;
      assert forall i :: 0 <= i < k ==> tagNames[..k][i] == tagNames[i];
      match RowTags(row, tagNames[..k])
      case Err(e) => Err(e)
      case Ok(tags) =>
        if tagNames[k] in row then Ok(tags[tagNames[k] := row[tagNames[k]]])
        else Err(KeyError(tagNames[k]))
  }

  /** The tag map has no key besides the tag columns. */
  lemma {:induction false} RowTagsKeys(row: Row, tagNames: seq<string>)
    requires RowTags(row, tagNames).Ok?
    ensures forall t :: t in RowTags(row, tagNames).value ==> t in tagNames
  {
    if tagNames != [] {
      var k := |tagNames| - 1;
      RowTagsKeys(row, tagNames[..k]);
      assert tagNames == tagNames[..k] + [tagNames[k]];
    }
  }

  /** A failed tag lookup is the KeyError of the first missing tag column. */
  lemma {:induction false} RowTagsError(row: Row, tagNames: seq<string>)
    requires RowTags(row, tagNames).Err?
    ensures exists i :: FirstMissing(row, tagNames, i) && RowTags(row, tagNames).error == KeyError(tagNames[i])
  {
    var k := |tagNames| - 1;
    var init := tagNames[..k];
    if RowTags(row, init).Err? {
      RowTagsError(row, init);
      var i :| FirstMissing(row, init, i) && RowTags(row, init).error == KeyError(init[i]);
      assert init[i] == tagNames[i];
      assert FirstMissing(row, tagNames, i);
    } else {
      assert AllIn(init, row);
      assert FirstMissing(row, tagNames, k);
    }
  }

  /** `i` is the position of the first name whose value in `row` is not an integer. */
  predicate FirstNotInteger(row: Row, names: seq<string>, i: int)
    requires AllIn(names, row)
  {
    && 0 <= i < |names|
    && PyInt.ParseInt(row[names[i]]).None?
    && forall j :: 0 <= j < i ==> PyInt.ParseInt(row[names[j]]).Some?
  }

  /** The points of the present columns `names`, all sharing `tags`; the
      first column whose value is not an integer raises ValueError. */
  function BuildPoints(names: seq<string>, row: Row, tags: map<string, string>,
                       prefix: string, fixedTime: Option<int>): (r: Result<seq<Point>>)
    requires AllIn(names, row)
    ensures r.Ok? <==> forall i :: 0 <= i < |names| ==> PyInt.ParseInt(row[names[i]]).Some?
    ensures r.Ok? ==> |r.value| == |names|
    ensures r.Ok? ==> forall i :: 0 <= i < |names| ==>
      BuildPoint(names[i], tags, row[names[i]], prefix, fixedTime) == Ok(r.value[i])
  {
    if names == [] then Ok([])
    else
      var k := |names| - 1;
      var init := names[..k];
      assert forall i :: 0 <= i < k ==> init[i] == names[i];
      match BuildPoints(init, row, tags, prefix, fixedTime)
      case Err(e) => Err(e)
      case Ok(points) =>
        match BuildPoint(names[k], tags, row[names[k]], prefix, fixedTime)
        case Err(e) => Err(e)
        case Ok(p) =>
          assert forall i :: 0 <= i < k ==> (points + [p])[i] == points[i];
          Ok(points + [p])
  }

  /** A failed column is the ValueError of the first column that is not an integer. */
  lemma {:induction false} BuildPointsError(names: seq<string>, row: Row, tags: map<string, string>,
                                            prefix: string, fixedTime: Option<int>)
    requires AllIn(names, row)
    requires BuildPoints(names, row, tags, prefix, fixedTime).Err?
    ensures exists i :: (FirstNotInteger(row, names, i) &&
      BuildPoints(names, row, tags, prefix, fixedTime).error == ValueError(row[names[i]]))
  {
    var k := |names| - 1;
    var init := names[..k];
    assert forall j :: 0 <= j < k ==> init[j] == names[j];
    var before := BuildPoints(init, row, tags, prefix, fixedTime);
    var r := BuildPoints(names, row, tags, prefix, fixedTime);
    if before.Err? {
      assert r == before;
      BuildPointsError(init, row, tags, prefix, fixedTime);
      var i :| FirstNotInteger(row, init, i) && before.error == ValueError(row[init[i]]);
      assert FirstNotInteger(row, names, i) && r.error == ValueError(row[names[i]]);
    } else {
      assert BuildPoint(names[k], tags, row[names[k]], prefix, fixedTime).Err?;
      assert FirstNotInteger(row, names, k) && r.error == ValueError(row[names[k]]);
    }
  }

  /** `SeriesBuilder.parse(data, prefix)`.  The tag columns are read only
      once some measurement column is present. */
  function ParseRow(b: BuilderState, row: Row, prefix: string): Result<seq<Point>> {
    var present := Present(b.schema.measurements, row);
    if present == [] then Ok([])
    else
      match RowTags(row, b.schema.tagNames)
      case Err(e) => Err(e)
      case Ok(rowTags) => BuildPoints(present, row, b.extras + rowTags, prefix, b.fixedTime)
  }

  // ----- Order of the points -----

  /** The present columns of two schema segments are those of the first
      followed by those of the second: points keep schema order. */
  lemma {:induction false} PresentAppend(a: seq<string>, b: seq<string>, row: Row)
    ensures Present(a + b, row) == Present(a, row) + Present(b, row)
  {
    if b == [] {
      assert a + b == a;
    } else {
      var k := |b| - 1;
      PresentAppend(a, b[..k], row);
      assert (a + b)[..|a + b| - 1] == a + b[..k];
      assert (a + b)[|a + b| - 1] == b[k];
      var tail := if b[k] in row then [b[k]] else [];
      assert Present(a + b, row) == Present(a + b[..k], row) + tail;
      assert Present(b, row) == Present(b[..k], row) + tail;
      assert Present(a, row) + Present(b[..k], row) + tail == Present(a, row) + (Present(b[..k], row) + tail);
    }
  }

  /** A column yields a point exactly when it is in the schema and in the record. */
  lemma {:induction false} PresentMembers(names: seq<string>, row: Row)
    ensures forall n :: n in Present(names, row) <==> n in names && n in row
  {
    if names != [] {
      var k := |names| - 1;
      PresentMembers(names[..k], row);
      assert names == names[..k] + [names[k]];
    }
  }

  /** A record with every measurement column yields one point per column. */
  lemma {:induction false} PresentAll(names: seq<string>, row: Row)
    requires AllIn(names, row)
    ensures Present(names, row) == names
  {
    if names != [] {
      var k := |names| - 1;
      PresentAll(names[..k], row);
      assert names[..k] + [names[k]] == names;
    }
  }

  /** Once a column fails, the columns after it are never reached. */
  lemma {:induction false} BuildPointsStopsAtError(a: seq<string>, b: seq<string>, row: Row,
                                                   tags: map<string, string>, prefix: string,
                                                   fixedTime: Option<int>)
    requires AllIn(a, row) && AllIn(b, row)
    requires BuildPoints(a, row, tags, prefix, fixedTime).Err?
    ensures AllIn(a + b, row)
    ensures BuildPoints(a + b, row, tags, prefix, fixedTime) == BuildPoints(a, row, tags, prefix, fixedTime)
  {
    assert AllIn(a + b, row) by {
      forall i | 0 <= i < |a + b| ensures (a + b)[i] in row {
        if i < |a| { assert (a + b)[i] == a[i]; } else { assert (a + b)[i] == b[i - |a|]; }
      }
    }
    if b == [] {
      assert a + b == a;
    } else {
      var k := |b| - 1;
      BuildPointsStopsAtError(a, b[..k], row, tags, prefix, fixedTime);
      assert (a + b)[..|a + b| - 1] == a + b[..k];
    }
  }

  /** One more schema column adds at most that column to the present ones. */
  lemma PresentStep(names: seq<string>, i: int, row: Row)
    requires 0 <= i < |names|
    ensures names[i] in row ==> Present(names[..i + 1], row) == Present(names[..i], row) + [names[i]]
    ensures names[i] !in row ==> Present(names[..i + 1], row) == Present(names[..i], row)
  {
    assert names[..i + 1][..i] == names[..i];
    assert Present(names[..i], row) + [] == Present(names[..i], row);
  }

  /** Appending a present column appends its point, or fails with it. */
  lemma BuildPointsSnoc(names: seq<string>, n: string, row: Row, tags: map<string, string>,
                        prefix: string, fixedTime: Option<int>)
    requires AllIn(names, row)
    requires n in row
    requires BuildPoints(names, row, tags, prefix, fixedTime).Ok?
    ensures AllIn(names + [n], row)
    ensures BuildPoints(names + [n], row, tags, prefix, fixedTime) ==
      match BuildPoint(n, tags, row[n], prefix, fixedTime)
      case Err(e) => Err(e)
      case Ok(p) => Ok(BuildPoints(names, row, tags, prefix, fixedTime).value + [p])
  {
    assert (names + [n])[..|names|] == names;
  }

  /** What `parse` has built after its first `i` columns: nothing while no
      column was present, and otherwise the points of the present ones,
      tagged with the extra tags merged with the record's tag columns. */
  predicate PartialParse(b: BuilderState, row: Row, prefix: string, i: int,
                         merged: map<string, string>, series: seq<Point>)
    requires 0 <= i <= |b.schema.measurements|
  {
    var present := Present(b.schema.measurements[..i], row);
    if present == [] then merged == b.extras && series == []
    else
      && RowTags(row, b.schema.tagNames).Ok?
      && merged == b.extras + RowTags(row, b.schema.tagNames).value
      && BuildPoints(present, row, merged, prefix, b.fixedTime) == Ok(series)
  }

  /** Before the first column nothing is built. */
  lemma PartialParseStart(b: BuilderState, row: Row, prefix: string)
    ensures PartialParse(b, row, prefix, 0, b.extras, [])
  {
    assert b.schema.measurements[..0] == [];
  }

  /** An absent column changes nothing. */
  lemma PartialParseSkip(b: BuilderState, row: Row, prefix: string, i: int,
                         merged: map<string, string>, series: seq<Point>)
    requires 0 <= i < |b.schema.measurements| && b.schema.measurements[i] !in row
    requires PartialParse(b, row, prefix, i, merged, series)
    ensures PartialParse(b, row, prefix, i + 1, merged, series)
  {
    PresentStep(b.schema.measurements, i, row);
  }

  /** A present column merges the record's tag columns again and appends its point. */
  lemma PartialParseAppend(b: BuilderState, row: Row, prefix: string, i: int,
                           merged: map<string, string>, series: seq<Point>, p: Point)
    requires 0 <= i < |b.schema.measurements| && b.schema.measurements[i] in row
    requires PartialParse(b, row, prefix, i, merged, series)
    requires RowTags(row, b.schema.tagNames).Ok?
    requires var m := b.schema.measurements[i];
             BuildPoint(m, merged + RowTags(row, b.schema.tagNames).value, row[m], prefix, b.fixedTime) == Ok(p)
    ensures PartialParse(b, row, prefix, i + 1, merged + RowTags(row, b.schema.tagNames).value, series + [p])
  {
    var ms, rt := b.schema.measurements, RowTags(row, b.schema.tagNames).value;
    PresentStep(ms, i, row);
    MergeAgain(b.extras, rt);
    BuildPointsSnoc(Present(ms[..i], row), ms[i], row, merged + rt, prefix, b.fixedTime);
  }

  /** A present column whose value is not an integer ends `parse` with its error. */
  lemma PartialParseFails(b: BuilderState, row: Row, prefix: string, i: int,
                          merged: map<string, string>, series: seq<Point>)
    requires 0 <= i < |b.schema.measurements| && b.schema.measurements[i] in row
    requires PartialParse(b, row, prefix, i, merged, series)
    requires RowTags(row, b.schema.tagNames).Ok?
    requires var m := b.schema.measurements[i];
             BuildPoint(m, merged + RowTags(row, b.schema.tagNames).value, row[m], prefix, b.fixedTime).Err?
    ensures var m := b.schema.measurements[i];
            ParseRow(b, row, prefix) ==
              Err(BuildPoint(m, merged + RowTags(row, b.schema.tagNames).value, row[m], prefix, b.fixedTime).error)
  {
    var ms, rt := b.schema.measurements, RowTags(row, b.schema.tagNames).value;
    PresentStep(ms, i, row);
    MergeAgain(b.extras, rt);
    BuildPointsSnoc(Present(ms[..i], row), ms[i], row, merged + rt, prefix, b.fixedTime);
    ParseRowFailsOnValue(b, row, prefix, i + 1);
  }

  /** After the last column, what `parse` has built is its result. */
  lemma ParseRowDone(b: BuilderState, row: Row, prefix: string,
                     merged: map<string, string>, series: seq<Point>)
    requires PartialParse(b, row, prefix, |b.schema.measurements|, merged, series)
    ensures ParseRow(b, row, prefix) == Ok(series)
  {
    assert b.schema.measurements[..|b.schema.measurements|] == b.schema.measurements;
  }

  /** Merging the same tag columns twice is merging them once. */
  lemma MergeAgain(extras: map<string, string>, rowTags: map<string, string>)
    ensures (extras + rowTags) + rowTags == extras + rowTags
  {
  }

  /** `parse` fails on the record's tag columns as soon as one measurement
      column is present. */
  lemma ParseRowFailsOnTags(b: BuilderState, row: Row, prefix: string, i: int)
    requires 0 <= i < |b.schema.measurements| && b.schema.measurements[i] in row
    requires RowTags(row, b.schema.tagNames).Err?
    ensures ParseRow(b, row, prefix) == Err(RowTags(row, b.schema.tagNames).error)
  {
    PresentMembers(b.schema.measurements, row);
    assert b.schema.measurements[i] in Present(b.schema.measurements, row);
  }

  /** A failure among the points of the first `i` columns is the failure of `parse`. */
  lemma ParseRowFailsOnValue(b: BuilderState, row: Row, prefix: string, i: int)
    requires 0 <= i <= |b.schema.measurements|
    requires RowTags(row, b.schema.tagNames).Ok?
    requires BuildPoints(Present(b.schema.measurements[..i], row), row,
                         b.extras + RowTags(row, b.schema.tagNames).value, prefix, b.fixedTime).Err?
    ensures ParseRow(b, row, prefix) ==
      BuildPoints(Present(b.schema.measurements[..i], row), row,
                  b.extras + RowTags(row, b.schema.tagNames).value, prefix, b.fixedTime)
  {
    var ms := b.schema.measurements;
    assert ms == ms[..i] + ms[i..];
    PresentAppend(ms[..i], ms[i..], row);
    var before, after := Present(ms[..i], row), Present(ms[i..], row);
    BuildPointsStopsAtError(before, after, row, b.extras + RowTags(row, b.schema.tagNames).value, prefix, b.fixedTime);
  }

  // ----- Properties of parse -----

  /** One point per present measurement column, in schema order, named
      `<prefix>_<column>`, whose only field `value` is the column's integer,
      and carrying the fixed time exactly when it is truthy. */
  lemma ParseRowPoints(b: BuilderState, row: Row, prefix: string)
    requires ParseRow(b, row, prefix).Ok?
    ensures var points := ParseRow(b, row, prefix).value;
            var present := Present(b.schema.measurements, row);
            && |points| == |present|
            && forall i :: 0 <= i < |points| ==>
                 && points[i].measurement == prefix + "_" + present[i]
                 && PyInt.ParseInt(row[present[i]]) == Some(points[i].fields["value"])
                 && points[i].fields.Keys == {"value"}
                 && (points[i].time.Some? <==> HasFixedTime(b.fixedTime))
                 && (points[i].time.Some? ==> points[i].time == b.fixedTime)
  {
    var points := ParseRow(b, row, prefix).value;
    var present := Present(b.schema.measurements, row);
    forall i | 0 <= i < |points|
      ensures points[i].measurement == prefix + "_" + present[i]
      ensures PyInt.ParseInt(row[present[i]]) == Some(points[i].fields["value"])
      ensures points[i].fields.Keys == {"value"}
      ensures points[i].time == PointTime(b.fixedTime)
    {
      var rowTags := RowTags(row, b.schema.tagNames).value;
      assert BuildPoint(present[i], b.extras + rowTags, row[present[i]], prefix, b.fixedTime) == Ok(points[i]);
    }
  }

  /** Tag precedence: every point's tags are the extra tags together with
      the record's tag columns, and the record wins on a shared key.  All
      points of one record carry the same tags. */
  lemma ParseRowTags(b: BuilderState, row: Row, prefix: string)
    requires ParseRow(b, row, prefix).Ok?
    ensures var points := ParseRow(b, row, prefix).value;
            forall i :: 0 <= i < |points| ==>
              && (forall k :: k in points[i].tags <==> k in b.extras || k in b.schema.tagNames)
              && (forall k :: k in b.schema.tagNames ==> k in row && points[i].tags[k] == row[k])
              && (forall k :: k in b.extras && k !in b.schema.tagNames ==> points[i].tags[k] == b.extras[k])
              && points[i].tags == points[0].tags
  {
    var points := ParseRow(b, row, prefix).value;
    var present := Present(b.schema.measurements, row);
    if points != [] {
      var tagNames := b.schema.tagNames;
      var rowTags := RowTags(row, tagNames).value;
      RowTagsKeys(row, tagNames);
      forall k | k in tagNames ensures k in row && k in rowTags && rowTags[k] == row[k] {
        var j :| 0 <= j < |tagNames| && tagNames[j] == k;
      }
      forall i | 0 <= i < |points| ensures points[i].tags == b.extras + rowTags {
        assert BuildPoint(present[i], b.extras + rowTags, row[present[i]], prefix, b.fixedTime) == Ok(points[i]);
      }
    }
  }

  /** `parse` succeeds exactly when no measurement column is present, or all
      tag columns are present and every present measurement is an integer. */
  lemma ParseRowSucceeds(b: BuilderState, row: Row, prefix: string)
    ensures ParseRow(b, row, prefix).Ok? <==>
      || Present(b.schema.measurements, row) == []
      || (&& (forall t :: t in b.schema.tagNames ==> t in row)
          && (forall n :: n in b.schema.measurements && n in row ==> PyInt.ParseInt(row[n]).Some?))
    ensures Present(b.schema.measurements, row) == [] ==> ParseRow(b, row, prefix) == Ok([])
  {
    var present := Present(b.schema.measurements, row);
    PresentMembers(b.schema.measurements, row);
    if present != [] && forall t :: t in b.schema.tagNames ==> t in row {
      var r := BuildPoints(present, row, b.extras + RowTags(row, b.schema.tagNames).value, prefix, b.fixedTime);
      if r.Ok? {
        forall n | n in b.schema.measurements && n in row ensures PyInt.ParseInt(row[n]).Some? {
          var i :| 0 <= i < |present| && present[i] == n;
        }
      } else {
        BuildPointsError(present, row, b.extras + RowTags(row, b.schema.tagNames).value, prefix, b.fixedTime);
        var i :| FirstNotInteger(row, present, i);
        assert present[i] in present;
      }
    }
  }

  /** A missing tag column fails `parse` with KeyError on the first missing
      tag, but only when some measurement column is present; otherwise a
      value that is not an integer fails it with ValueError. */
  lemma ParseRowErrors(b: BuilderState, row: Row, prefix: string)
    requires Present(b.schema.measurements, row) != []
    ensures forall i :: FirstMissing(row, b.schema.tagNames, i) ==>
              ParseRow(b, row, prefix) == Err(KeyError(b.schema.tagNames[i]))
    ensures ParseRow(b, row, prefix).Err? && ParseRow(b, row, prefix).error.ValueError? ==>
              exists n :: n in b.schema.measurements && n in row && PyInt.ParseInt(row[n]).None?
                          && ParseRow(b, row, prefix).error.text == row[n]
  {
    var tagNames := b.schema.tagNames;
    var rt := RowTags(row, tagNames);
    forall i | FirstMissing(row, tagNames, i) ensures ParseRow(b, row, prefix) == Err(KeyError(tagNames[i])) {
      assert !AllIn(tagNames, row);
      RowTagsError(row, tagNames);
      var j :| FirstMissing(row, tagNames, j) && rt.error == KeyError(tagNames[j]);
      FirstMissingUnique(row, tagNames, i, j);
    }
    if rt.Ok? {
      var present := Present(b.schema.measurements, row);
      var r := BuildPoints(present, row, b.extras + rt.value, prefix, b.fixedTime);
      if r.Err? {
        BuildPointsError(present, row, b.extras + rt.value, prefix, b.fixedTime);
        var i :| FirstNotInteger(row, present, i) && r.error == ValueError(row[present[i]]);
        PresentMembers(b.schema.measurements, row);
        assert present[i] in present;
        assert ParseRow(b, row, prefix) == r;
        var n := present[i];
        assert n in b.schema.measurements && n in row && PyInt.ParseInt(row[n]).None? && r.error.text == row[n];
      }
    } else {
      RowTagsError(row, tagNames);
    }
  }

  // ----- The two concrete schemas -----

  /** A pool record with every pool column yields ten points, a volume detail
      record with every volume column six. */
  lemma FullRecords(b: BuilderState, row: Row, prefix: string)
    requires b.schema == PoolSchema || b.schema == VolumeSchema
    requires forall n :: n in b.schema.measurements ==> n in row
    requires ParseRow(b, row, prefix).Ok?
    ensures |ParseRow(b, row, prefix).value| == (if b.schema == PoolSchema then 10 else 6)
  {
    PresentAll(b.schema.measurements, row);
    ParseRowPoints(b, row, prefix);
  }
}
