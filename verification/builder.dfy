/** The mutable `SeriesBuilder` object: its schema, the extra tags that the
    main loop replaces before every appliance, and the fixed time chosen at
    construction.  `Pool` and `Volume` are the constructors of the two
    concrete builders. */
module Builder {
  import opened Common
  import opened Series
  import PyInt

  class SeriesBuilder {
    var measurements: seq<string>
    var tagNames: seq<string>
    var extrasTags: map<string, string>
    var fixedTime: Option<int>

    /** The builder's fields as the value `Series.ParseRow` is defined over. */
    function State(): BuilderState
      reads this
    {
      BuilderState(Schema(measurements, tagNames), extrasTags, fixedTime)
    }

    /** `PoolSeriesBuilder(fixed_time)`: no extra tags yet. */
    constructor Pool(fixedTime: Option<int>)
      ensures State() == BuilderState(PoolSchema, map[], fixedTime)
    {
      measurements := PoolSchema.measurements;
      tagNames := PoolSchema.tagNames;
      extrasTags := map[];
      this.fixedTime := fixedTime;
    }

    /** `VolumeSeriesBuilder(fixed_time)`: no extra tags yet. */
    constructor Volume(fixedTime: Option<int>)
      ensures State() == BuilderState(VolumeSchema, map[], fixedTime)
    {
      measurements := VolumeSchema.measurements;
      tagNames := VolumeSchema.tagNames;
      extrasTags := map[];
      this.fixedTime := fixedTime;
    }

    /** `add_extras_tags`: replaces the extra tags and nothing else. */
    method AddExtrasTags(tags: map<string, string>)
      modifies this`extrasTags
      ensures State() == old(State()).(extras := tags)
    {
      extrasTags := tags;
    }

    /** `_build_series`: reads the value as an integer, then copies the tags
        key by key into the new point and attaches the fixed time when it is
        truthy. */
    method BuildSeries(measurement: string, tags: map<string, string>, value: string, prefix: string)
      returns (r: Result<Point>)
      ensures r == BuildPoint(measurement, tags, value, prefix, fixedTime)
    {
      var n := PyInt.ParseInt(value);
      if n.None? {
        return Err(ValueError(value));
      }
      var copied: map<string, string> := map[];
      var pending := tags.Keys;
      while pending != {}
        invariant pending <= tags.Keys
        invariant copied == map k | k in tags.Keys - pending :: tags[k]
        decreases pending
      {
        var k :| k in pending;
        copied := copied[k := tags[k]];
        pending := pending - {k};
      }
      assert copied == tags;
      var time := None;
      if HasFixedTime(fixedTime) {
        time := Some(fixedTime.value);
      }
      r := Ok(Point(prefix + "_" + measurement, copied, map["value" := n.value], time));
    }

    /** `parse`: walks the measurement columns in order, merges the record's
        tag columns into a copy of the extra tags at every present column,
        and appends that column's point.  The builder itself is left as it
        was, so the same record always gives the same points. */
    method Parse(row: Row, prefix: string) returns (r: Result<seq<Point>>)
      ensures r == ParseRow(State(), row, prefix)
    {
      ghost var b := State();
      var merged := extrasTags;
      var series: seq<Point> := [];
      PartialParseStart(b, row, prefix);
      var i := 0;
      while i < |measurements|
        invariant 0 <= i <= |measurements|
        invariant PartialParse(b, row, prefix, i, merged, series)
      {
        var m := measurements[i];
        if m in row {
          var rowTags := RowTags(row, tagNames);
          if rowTags.Err? {
            ParseRowFailsOnTags(b, row, prefix, i);
            return Err(rowTags.error);
          }
          ghost var before := merged;
          merged := merged + rowTags.value;
          var p := BuildSeries(m, merged, row[m], prefix);
          if p.Err? {
            PartialParseFails(b, row, prefix, i, before, series);
            return Err(p.error);
          }
          PartialParseAppend(b, row, prefix, i, before, series, p.value);
          series := series + [p.value];
        } else {
          PartialParseSkip(b, row, prefix, i, merged, series);
        }
        i := i + 1;
      }
      ParseRowDone(b, row, prefix, merged, series);
      r := Ok(series);
    }
  }
}
