/** The collector's main program: read the database settings, build one
    pool and one volume series builder (with the same fixed time when
    `--fixed` is given), then walk the appliance sections, collect the pool
    series and then the volume series of each one, and keep them all in one
    batch that is written only once every appliance has been collected. */
module Batch {
  import opened Common
  import opened Csv
  import opened Series
  import opened Builder
  import opened Config
  import opened Collectors

  /** An appliance answers both listings with well-formed tables. */
  predicate Answers(remote: Remote, endpoint: Endpoint) {
    WellFormedTable(remote(endpoint, PoolListCommand)) && WellFormedTable(remote(endpoint, VolumeListCommand))
  }

  /** Every appliance the configuration describes answers both listings. */
  predicate AllAnswer(remote: Remote, sections: seq<Section>) {
    forall i :: 0 <= i < |sections| && sections[i].name != InfluxSection && Descriptor(sections[i]).Ok? ==>
      Answers(remote, Descriptor(sections[i]).value.endpoint)
  }

  /** One appliance's share of the batch: its pool lists, then its volume
      lists, built while both builders carry the appliance's tags. */
  function ApplianceSeries(pool: BuilderState, volume: BuilderState, remote: Remote, a: Appliance): Result<seq<seq<Point>>>
    requires Answers(remote, a.endpoint)
  {
    match PoolSeries(Some(pool.(extras := a.tags)), remote, a.endpoint)
    case Err(e) => Err(e)
    case Ok(ps) =>
      match VolumeSeries(Some(volume.(extras := a.tags)), remote, a.endpoint)
      case Err(e) => Err(e)
      case Ok(vs) => Ok(ps + vs)
  }

  lemma AllAnswerPrefix(remote: Remote, sections: seq<Section>, i: int)
    requires AllAnswer(remote, sections)
    requires 0 <= i <= |sections|
    ensures AllAnswer(remote, sections[..i])
  {
    assert forall j :: 0 <= j < i ==> sections[..i][j] == sections[j];
  }

  /** What an appliance yields does not depend on the extra tags the
      builders held before: `add_extras_tags` replaces them, so the tags of
      one appliance never reach the points of the next. */
  lemma ApplianceSeriesIgnoresExtras(pool: BuilderState, volume: BuilderState, remote: Remote, a: Appliance,
                                     poolExtras: map<string, string>, volumeExtras: map<string, string>)
    requires Answers(remote, a.endpoint)
    ensures ApplianceSeries(pool.(extras := poolExtras), volume.(extras := volumeExtras), remote, a) ==
            ApplianceSeries(pool, volume, remote, a)
  {
    assert pool.(extras := poolExtras).(extras := a.tags) == pool.(extras := a.tags);
    assert volume.(extras := volumeExtras).(extras := a.tags) == volume.(extras := a.tags);
  }

  lemma SectionSeriesIgnoresExtras(pool: BuilderState, volume: BuilderState, remote: Remote, section: Section,
                                   poolExtras: map<string, string>, volumeExtras: map<string, string>)
    requires SectionAnswers(remote, section)
    ensures SectionSeries(pool.(extras := poolExtras), volume.(extras := volumeExtras), remote, section) ==
            SectionSeries(pool, volume, remote, section)
  {
    if section.name != InfluxSection && Descriptor(section).Ok? {
      ApplianceSeriesIgnoresExtras(pool, volume, remote, Descriptor(section).value, poolExtras, volumeExtras);
    }
  }

  /** The part of `AllAnswer` about one section. */
  predicate SectionAnswers(remote: Remote, section: Section) {
    section.name != InfluxSection && Descriptor(section).Ok? ==> Answers(remote, Descriptor(section).value.endpoint)
  }

  /** What one section contributes: nothing for `INFLUXDB`; for an
      appliance section, its descriptor's error or the appliance's lists. */
  function SectionSeries(pool: BuilderState, volume: BuilderState, remote: Remote, section: Section): Result<seq<seq<Point>>>
    requires SectionAnswers(remote, section)
  {
    if section.name == InfluxSection then Ok([])
    else
      match Descriptor(section)
      case Err(e) => Err(e)
      case Ok(appliance) => ApplianceSeries(pool, volume, remote, appliance)
  }

  /** Lists appended to lists, where the first error wins. */
  function Concat(x: Result<seq<seq<Point>>>, y: Result<seq<seq<Point>>>): (r: Result<seq<seq<Point>>>)
    ensures r.Ok? <==> x.Ok? && y.Ok?
    ensures x.Err? ==> r == x
    ensures x.Ok? && y.Err? ==> r == y
    ensures r.Ok? ==> |r.value| == |x.value| + |y.value| && r.value[..|x.value|] == x.value && r.value[|x.value|..] == y.value
  {
    if x.Err? then x else if y.Err? then y else Ok(x.value + y.value)
  }

  lemma ConcatAssoc(x: Result<seq<seq<Point>>>, y: Result<seq<seq<Point>>>, z: Result<seq<seq<Point>>>)
    ensures Concat(Concat(x, y), z) == Concat(x, Concat(y, z))
  {
    if x.Ok? && y.Ok? && z.Ok? {
      assert x.value + y.value + z.value == x.value + (y.value + z.value);
    }
  }

  /** The parts appended in order, where the first error wins. */
  function ConcatAll(parts: seq<Result<seq<seq<Point>>>>): Result<seq<seq<Point>>> {
    if parts == [] then Ok([])
    else Concat(ConcatAll(parts[..|parts| - 1]), parts[|parts| - 1])
  }

  lemma {:induction false} ConcatAllAppend(p: seq<Result<seq<seq<Point>>>>, q: seq<Result<seq<seq<Point>>>>)
    ensures ConcatAll(p + q) == Concat(ConcatAll(p), ConcatAll(q))
  {
    if q == [] {
      assert p + q == p;
      if ConcatAll(p).Ok? {
        assert ConcatAll(p).value + [] == ConcatAll(p).value;
      }
    } else {
      var n := |q| - 1;
      ConcatAllAppend(p, q[..n]);
      assert (p + q)[..|p + q| - 1] == p + q[..n];
      assert (p + q)[|p + q| - 1] == q[n];
      ConcatAssoc(ConcatAll(p), ConcatAll(q[..n]), q[n]);
    }
  }

  /** What each section contributes, in file order. */
  function SectionResults(pool: BuilderState, volume: BuilderState, remote: Remote, sections: seq<Section>): (r: seq<Result<seq<seq<Point>>>>)
    requires AllAnswer(remote, sections)
    ensures |r| == |sections|
  {
    seq(|sections|, i requires 0 <= i < |sections| => SectionSeries(pool, volume, remote, sections[i]))
  }

  /** The batch the main loop accumulates over `sections`, or the first
      error raised on the way (a section without its connection entries, a
      record the builders reject, a volume without details). */
  function BatchSeries(pool: BuilderState, volume: BuilderState, remote: Remote, sections: seq<Section>): Result<seq<seq<Point>>>
    requires AllAnswer(remote, sections)
  {
    ConcatAll(SectionResults(pool, volume, remote, sections))
  }

  /** One more section of the configuration. */
  lemma BatchStep(pool: BuilderState, volume: BuilderState, remote: Remote, sections: seq<Section>, i: int)
    requires AllAnswer(remote, sections)
    requires 0 <= i < |sections|
    ensures SectionAnswers(remote, sections[i])
    ensures BatchSeries(pool, volume, remote, sections[..i + 1]) ==
      Concat(BatchSeries(pool, volume, remote, sections[..i]), SectionSeries(pool, volume, remote, sections[i]))
  {
    AllAnswerPrefix(remote, sections, i);
    AllAnswerPrefix(remote, sections, i + 1);
    var r := SectionResults(pool, volume, remote, sections[..i + 1]);
    assert r[..i] == SectionResults(pool, volume, remote, sections[..i]);
    assert r[i] == SectionSeries(pool, volume, remote, sections[i]);
  }

  /** The first error ends the batch: later appliances are never collected. */
  lemma {:induction false} BatchStopsAtError(pool: BuilderState, volume: BuilderState, remote: Remote, sections: seq<Section>, i: int)
    requires AllAnswer(remote, sections)
    requires 0 <= i <= |sections|
    requires BatchSeries(pool, volume, remote, sections[..i]).Err?
    ensures BatchSeries(pool, volume, remote, sections) == BatchSeries(pool, volume, remote, sections[..i])
    decreases |sections| - i
  {
    if i < |sections| {
      BatchStep(pool, volume, remote, sections, i);
      BatchStopsAtError(pool, volume, remote, sections, i + 1);
    } else {
      assert sections[..i] == sections;
    }
  }

  /** A batch that completes has described every appliance section: it
      succeeds only where `get_svc` runs to the end. */
  lemma {:induction false} BatchDescribesAll(pool: BuilderState, volume: BuilderState, remote: Remote, sections: seq<Section>)
    requires AllAnswer(remote, sections)
    requires BatchSeries(pool, volume, remote, sections).Ok?
    ensures Appliances(sections).Ok?
  {
    if sections != [] {
      var n := |sections| - 1;
      BatchStep(pool, volume, remote, sections, n);
      AppliancesStep(sections, n);
      assert sections[..n + 1] == sections;
      AllAnswerPrefix(remote, sections, n);
      BatchDescribesAll(pool, volume, remote, sections[..n]);
    }
  }

  lemma AllAnswerSplit(remote: Remote, a: seq<Section>, b: seq<Section>)
    requires AllAnswer(remote, a + b)
    ensures AllAnswer(remote, a) && AllAnswer(remote, b)
  {
    assert forall i :: 0 <= i < |a| ==> (a + b)[i] == a[i];
    assert forall i :: 0 <= i < |b| ==> (a + b)[|a| + i] == b[i];
  }

  /** The batch of two parts of the configuration is the first part's
      batch followed by the second's; an error in either is the batch's. */
  lemma {:induction false} BatchAppend(pool: BuilderState, volume: BuilderState, remote: Remote, a: seq<Section>, b: seq<Section>)
    requires AllAnswer(remote, a + b)
    ensures AllAnswer(remote, a) && AllAnswer(remote, b)
    ensures BatchSeries(pool, volume, remote, a + b) ==
            Concat(BatchSeries(pool, volume, remote, a), BatchSeries(pool, volume, remote, b))
  {
    AllAnswerSplit(remote, a, b);
    var ra, rb := SectionResults(pool, volume, remote, a), SectionResults(pool, volume, remote, b);
    assert SectionResults(pool, volume, remote, a + b) == ra + rb;
    ConcatAllAppend(ra, rb);
  }

  // ----- A shared collect time -----

  /** Every point of the lists carries the time `time`. */
  predicate Stamped(lists: seq<seq<Point>>, time: Option<int>) {
    forall i, j :: 0 <= i < |lists| && 0 <= j < |lists[i]| ==> lists[i][j].time == time
  }

  lemma StampedAppend(a: seq<seq<Point>>, b: seq<seq<Point>>, time: Option<int>)
    requires Stamped(a, time) && Stamped(b, time)
    ensures Stamped(a + b, time)
  {
    forall i, j | 0 <= i < |a + b| && 0 <= j < |(a + b)[i]| ensures (a + b)[i][j].time == time {
      if i < |a| { assert (a + b)[i] == a[i]; } else { assert (a + b)[i] == b[i - |a|]; }
    }
  }

  /** All points one builder parses carry the builder's time. */
  lemma ParseRowsStamped(b: BuilderState, rows: seq<Row>, prefix: string)
    requires ParseRows(Some(b), rows, prefix).Ok?
    ensures Stamped(ParseRows(Some(b), rows, prefix).value, PointTime(b.fixedTime))
  {
    var lists: seq<seq<Point>> := ParseRows(Some(b), rows, prefix).value;
    forall i, j | 0 <= i < |lists| && 0 <= j < |lists[i]| ensures lists[i][j].time == PointTime(b.fixedTime) {
      ParseRowPoints(b, rows[i], prefix);
    }
  }

  lemma ApplianceSeriesStamped(pool: BuilderState, volume: BuilderState, remote: Remote, a: Appliance)
    requires Answers(remote, a.endpoint)
    requires pool.fixedTime == volume.fixedTime
    requires ApplianceSeries(pool, volume, remote, a).Ok?
    ensures Stamped(ApplianceSeries(pool, volume, remote, a).value, PointTime(pool.fixedTime))
  {
    var ps := PoolSeries(Some(pool.(extras := a.tags)), remote, a.endpoint).value;
    var vs := VolumeSeries(Some(volume.(extras := a.tags)), remote, a.endpoint).value;
    ParseRowsStamped(pool.(extras := a.tags), Records(remote(a.endpoint, PoolListCommand)), "pool");
    var details := FetchDetails(remote, a.endpoint, Records(remote(a.endpoint, VolumeListCommand))).details.value;
    ParseRowsStamped(volume.(extras := a.tags), details, "volume");
    StampedAppend(ps, vs, PointTime(pool.fixedTime));
  }

  /** With one time given to both builders, every point of the batch, from
      every appliance, carries that time (none when it is absent or zero). */
  lemma {:induction false} BatchStamped(pool: BuilderState, volume: BuilderState, remote: Remote, sections: seq<Section>)
    requires AllAnswer(remote, sections)
    requires pool.fixedTime == volume.fixedTime
    requires BatchSeries(pool, volume, remote, sections).Ok?
    ensures Stamped(BatchSeries(pool, volume, remote, sections).value, PointTime(pool.fixedTime))
  {
    if sections != [] {
      var n := |sections| - 1;
      BatchStep(pool, volume, remote, sections, n);
      assert sections[..n + 1] == sections;
      BatchStamped(pool, volume, remote, sections[..n]);
      if sections[n].name != InfluxSection {
        var a := Descriptor(sections[n]).value;
        ApplianceSeriesStamped(pool, volume, remote, a);
        StampedAppend(BatchSeries(pool, volume, remote, sections[..n]).value,
                      ApplianceSeries(pool, volume, remote, a).value, PointTime(pool.fixedTime));
      }
    }
  }

  // ----- Appliance tags -----

  /** Every point of the lists carries `tags[k]` under every key `k` of
      `tags` that is not in `columns`. */
  predicate Carries(lists: seq<seq<Point>>, tags: map<string, string>, columns: seq<string>) {
    forall i, j, k :: 0 <= i < |lists| && 0 <= j < |lists[i]| && k in tags && k !in columns ==>
      k in lists[i][j].tags && lists[i][j].tags[k] == tags[k]
  }

  /** A builder's extra tags reach every point it parses, except where a
      tag column of the record overrides them. */
  lemma ParseRowsCarry(b: BuilderState, rows: seq<Row>, prefix: string)
    requires ParseRows(Some(b), rows, prefix).Ok?
    ensures Carries(ParseRows(Some(b), rows, prefix).value, b.extras, b.schema.tagNames)
  {
    var lists: seq<seq<Point>> := ParseRows(Some(b), rows, prefix).value;
    forall i, j, k | 0 <= i < |lists| && 0 <= j < |lists[i]| && k in b.extras && k !in b.schema.tagNames
      ensures k in lists[i][j].tags && lists[i][j].tags[k] == b.extras[k]
    {
      ParseRowTags(b, rows[i], prefix);
    }
  }

  /** Every point collected on an appliance carries the appliance's tags,
      except those named like a tag column of the pool and volume tables. */
  lemma ApplianceSeriesCarries(pool: BuilderState, volume: BuilderState, remote: Remote, a: Appliance)
    requires Answers(remote, a.endpoint)
    requires ApplianceSeries(pool, volume, remote, a).Ok?
    ensures Carries(ApplianceSeries(pool, volume, remote, a).value, a.tags, pool.schema.tagNames + volume.schema.tagNames)
  {
    var ps := PoolSeries(Some(pool.(extras := a.tags)), remote, a.endpoint).value;
    var vs := VolumeSeries(Some(volume.(extras := a.tags)), remote, a.endpoint).value;
    ParseRowsCarry(pool.(extras := a.tags), Records(remote(a.endpoint, PoolListCommand)), "pool");
    var details := FetchDetails(remote, a.endpoint, Records(remote(a.endpoint, VolumeListCommand))).details.value;
    ParseRowsCarry(volume.(extras := a.tags), details, "volume");
    var lists: seq<seq<Point>> := ps + vs;
    forall i, j, k | 0 <= i < |lists| && 0 <= j < |lists[i]| && k in a.tags && k !in pool.schema.tagNames + volume.schema.tagNames
      ensures k in lists[i][j].tags && lists[i][j].tags[k] == a.tags[k]
    {
      if i < |ps| {
        assert lists[i] == ps[i];
        assert k !in pool.schema.tagNames;
      } else {
        assert lists[i] == vs[i - |ps|];
        assert k !in volume.schema.tagNames;
      }
    }
  }

  /** The point's `svc` tag is that of one of the appliance sections. */
  predicate NamesAppliance(p: Point, sections: seq<Section>) {
    "svc" in p.tags &&
    exists n :: 0 <= n < |sections| && sections[n].name != InfluxSection && Descriptor(sections[n]).Ok? &&
      p.tags["svc"] == Descriptor(sections[n]).value.tags["svc"]
  }

  /** Every point of the lists carries `value` under the tag `key`. */
  predicate AllTagged(lists: seq<seq<Point>>, key: string, value: string) {
    forall i, j :: 0 <= i < |lists| && 0 <= j < |lists[i]| ==> key in lists[i][j].tags && lists[i][j].tags[key] == value
  }

  predicate AllNameAppliances(lists: seq<seq<Point>>, sections: seq<Section>) {
    forall i, j :: 0 <= i < |lists| && 0 <= j < |lists[i]| ==> NamesAppliance(lists[i][j], sections)
  }

  lemma NamesApplianceGrow(p: Point, sections: seq<Section>, n: int)
    requires 0 <= n <= |sections|
    requires NamesAppliance(p, sections[..n])
    ensures NamesAppliance(p, sections)
  {
    var m :| 0 <= m < n && sections[..n][m].name != InfluxSection && Descriptor(sections[..n][m]).Ok? &&
      p.tags["svc"] == Descriptor(sections[..n][m]).value.tags["svc"];
    assert sections[..n][m] == sections[m];
  }

  /** The lists collected on section `n` carry that section's `svc` tag. */
  lemma ApplianceSeriesNamed(pool: BuilderState, volume: BuilderState, remote: Remote, sections: seq<Section>, n: int)
    requires 0 <= n < |sections|
    requires sections[n].name != InfluxSection && Descriptor(sections[n]).Ok?
    requires "svc" !in pool.schema.tagNames && "svc" !in volume.schema.tagNames
    requires Answers(remote, Descriptor(sections[n]).value.endpoint)
    requires ApplianceSeries(pool, volume, remote, Descriptor(sections[n]).value).Ok?
    ensures AllTagged(ApplianceSeries(pool, volume, remote, Descriptor(sections[n]).value).value,
                      "svc", Descriptor(sections[n]).value.tags["svc"])
    ensures AllNameAppliances(ApplianceSeries(pool, volume, remote, Descriptor(sections[n]).value).value, sections)
  {
    var appliance := Descriptor(sections[n]).value;
    ApplianceSeriesCarries(pool, volume, remote, appliance);
    assert "svc" in appliance.tags;
    assert "svc" !in pool.schema.tagNames + volume.schema.tagNames;
  }

  /** In a completed batch, the lists of appliance section `i` follow those
      of the sections before it, and each of their points carries section
      `i`'s own `svc` tag. */
  lemma BatchSectionNamed(pool: BuilderState, volume: BuilderState, remote: Remote, sections: seq<Section>, i: int)
    requires AllAnswer(remote, sections)
    requires "svc" !in pool.schema.tagNames && "svc" !in volume.schema.tagNames
    requires BatchSeries(pool, volume, remote, sections).Ok?
    requires 0 <= i < |sections| && sections[i].name != InfluxSection
    ensures AllAnswer(remote, sections[..i]) && SectionAnswers(remote, sections[i])
    ensures Descriptor(sections[i]).Ok?
    ensures var before := BatchSeries(pool, volume, remote, sections[..i]);
            var mine := SectionSeries(pool, volume, remote, sections[i]);
            var all := BatchSeries(pool, volume, remote, sections).value;
            && before.Ok? && mine.Ok?
            && |before.value| + |mine.value| <= |all|
            && all[|before.value|..|before.value| + |mine.value|] == mine.value
            && AllTagged(mine.value, "svc", Descriptor(sections[i]).value.tags["svc"])
  {
    AllAnswerPrefix(remote, sections, i);
    AllAnswerPrefix(remote, sections, i + 1);
    BatchStep(pool, volume, remote, sections, i);
    assert sections[..i + 1] + sections[i + 1..] == sections;
    BatchAppend(pool, volume, remote, sections[..i + 1], sections[i + 1..]);
    var before := BatchSeries(pool, volume, remote, sections[..i]).value;
    var mine := SectionSeries(pool, volume, remote, sections[i]).value;
    var upTo := BatchSeries(pool, volume, remote, sections[..i + 1]).value;
    var all := BatchSeries(pool, volume, remote, sections).value;
    assert upTo == before + mine;
    assert all[..|upTo|] == upTo;
    assert all[|before|..|before| + |mine|] == upTo[|before|..] == mine;
    ApplianceSeriesNamed(pool, volume, remote, sections, i);
  }

  lemma AllNameAppliancesAppend(a: seq<seq<Point>>, b: seq<seq<Point>>, sections: seq<Section>)
    requires AllNameAppliances(a, sections) && AllNameAppliances(b, sections)
    ensures AllNameAppliances(a + b, sections)
  {
    forall i, j | 0 <= i < |a + b| && 0 <= j < |(a + b)[i]| ensures NamesAppliance((a + b)[i][j], sections) {
      if i < |a| { assert (a + b)[i] == a[i]; } else { assert (a + b)[i] == b[i - |a|]; }
    }
  }

  /** Every point of a batch names the appliance it was collected on: its
      `svc` tag is the `svc` tag of an appliance section. */
  lemma {:induction false} BatchSvcTagged(pool: BuilderState, volume: BuilderState, remote: Remote, sections: seq<Section>)
    requires AllAnswer(remote, sections)
    requires "svc" !in pool.schema.tagNames && "svc" !in volume.schema.tagNames
    requires BatchSeries(pool, volume, remote, sections).Ok?
    ensures AllNameAppliances(BatchSeries(pool, volume, remote, sections).value, sections)
  {
    if sections != [] {
      var n := |sections| - 1;
      BatchStep(pool, volume, remote, sections, n);
      assert sections[..n + 1] == sections;
      BatchSvcTagged(pool, volume, remote, sections[..n]);
      var acc: seq<seq<Point>> := BatchSeries(pool, volume, remote, sections[..n]).value;
      forall i, j | 0 <= i < |acc| && 0 <= j < |acc[i]| ensures NamesAppliance(acc[i][j], sections) {
        NamesApplianceGrow(acc[i][j], sections, n);
      }
      if sections[n].name != InfluxSection {
        ApplianceSeriesNamed(pool, volume, remote, sections, n);
        AllNameAppliancesAppend(acc, ApplianceSeries(pool, volume, remote, Descriptor(sections[n]).value).value, sections);
      }
    }
  }

  // ----- The builders' extra tags -----

  /** The section is an appliance section that `get_svc` describes. */
  predicate Describes(section: Section) {
    section.name != InfluxSection && Descriptor(section).Ok?
  }

  /** The extra tags a builder holds after one iteration of the main loop:
      the appliance's tags once the section is described, else the old ones. */
  function SectionExtras(extras: map<string, string>, section: Section): map<string, string> {
    if Describes(section) then Descriptor(section).value.tags else extras
  }

  /** The extra tags a builder holds after the main loop went over `sections`. */
  function ExtrasAfter(extras: map<string, string>, sections: seq<Section>): map<string, string> {
    if sections == [] then extras
    else SectionExtras(ExtrasAfter(extras, sections[..|sections| - 1]), sections[|sections| - 1])
  }

  lemma ExtrasStep(extras: map<string, string>, sections: seq<Section>, i: int)
    requires 0 <= i < |sections|
    ensures ExtrasAfter(extras, sections[..i + 1]) == SectionExtras(ExtrasAfter(extras, sections[..i]), sections[i])
  {
    assert sections[..i + 1][..i] == sections[..i];
  }

  /** After the loop, a builder holds the tags of the last appliance section
      that was described. */
  lemma {:induction false} ExtrasAfterLast(extras: map<string, string>, sections: seq<Section>, k: int)
    requires 0 <= k < |sections| && Describes(sections[k])
    requires forall j :: k < j < |sections| ==> !Describes(sections[j])
    ensures ExtrasAfter(extras, sections) == Descriptor(sections[k]).value.tags
  {
    var n := |sections| - 1;
    if k < n {
      ExtrasAfterLast(extras, sections[..n], k);
    }
  }

  /** Without any appliance section described, a builder keeps its extra tags. */
  lemma {:induction false} ExtrasAfterNone(extras: map<string, string>, sections: seq<Section>)
    requires forall j :: 0 <= j < |sections| ==> !Describes(sections[j])
    ensures ExtrasAfter(extras, sections) == extras
  {
    if sections != [] {
      ExtrasAfterNone(extras, sections[..|sections| - 1]);
    }
  }

  /** `k` is the first section whose contribution to the batch fails. */
  predicate FirstFailure(pool: BuilderState, volume: BuilderState, remote: Remote, sections: seq<Section>, k: int)
    requires AllAnswer(remote, sections)
  {
    && 0 <= k < |sections|
    && SectionSeries(pool, volume, remote, sections[k]).Err?
    && forall j :: 0 <= j < k ==> SectionSeries(pool, volume, remote, sections[j]).Ok?
  }

  /** A batch prefix that completes has every one of its sections succeed. */
  lemma {:induction false} BatchSectionsSucceed(pool: BuilderState, volume: BuilderState, remote: Remote,
                                                sections: seq<Section>, i: int)
    requires AllAnswer(remote, sections)
    requires 0 <= i <= |sections|
    requires AllAnswer(remote, sections[..i]) && BatchSeries(pool, volume, remote, sections[..i]).Ok?
    ensures forall j :: 0 <= j < i ==> SectionSeries(pool, volume, remote, sections[j]).Ok?
  {
    if i > 0 {
      var k := i - 1;
      BatchStep(pool, volume, remote, sections, k);
      assert k + 1 == i;
      var before := BatchSeries(pool, volume, remote, sections[..k]);
      var last := SectionSeries(pool, volume, remote, sections[k]);
      assert Concat(before, last).Ok?;
      assert before.Ok? && last.Ok?;
      AllAnswerPrefix(remote, sections, k);
      BatchSectionsSucceed(pool, volume, remote, sections, k);
      forall j | 0 <= j < i
        ensures SectionSeries(pool, volume, remote, sections[j]).Ok?
      {
        if j == k {
          assert SectionSeries(pool, volume, remote, sections[j]) == last;
        }
      }
    }
  }

  // ----- The program -----

  /** The body of `__main__`'s loop for one appliance: give both builders
      the appliance's tags, open a pool and a volume collector on it, and
      return what the pool and then the volume collector return. */
  method CollectAppliance(appliance: Appliance, remote: Remote, pool: SeriesBuilder, volume: SeriesBuilder)
    returns (r: Result<seq<seq<Point>>>)
    requires pool != volume
    requires Answers(remote, appliance.endpoint)
    modifies pool`extrasTags, volume`extrasTags
    ensures pool.State() == old(pool.State()).(extras := appliance.tags)
    ensures volume.State() == old(volume.State()).(extras := appliance.tags)
    ensures r == ApplianceSeries(old(pool.State()), old(volume.State()), remote, appliance)
  {
    pool.AddExtrasTags(appliance.tags);
    volume.AddExtrasTags(appliance.tags);
    var poolCollector := new PoolCollector(appliance.endpoint, remote);
    var volumeCollector := new VolumeCollector(appliance.endpoint, remote);
    poolCollector.AddSeriesBuilder(pool);
    volumeCollector.AddSeriesBuilder(volume);
    var ps := poolCollector.Collect();
    if ps.Err? {
      return Err(ps.error);
    }
    var vs := volumeCollector.Collect();
    if vs.Err? {
      return Err(vs.error);
    }
    r := Ok(ps.value + vs.value);
  }

  /** One iteration of `__main__`'s loop, with `get_svc`'s step before it:
      `INFLUXDB` is passed over, any other section is described and its
      appliance collected. */
  method CollectSection(section: Section, remote: Remote, pool: SeriesBuilder, volume: SeriesBuilder)
    returns (r: Result<seq<seq<Point>>>)
    requires pool != volume
    requires SectionAnswers(remote, section)
    modifies pool`extrasTags, volume`extrasTags
    ensures pool.State() == old(pool.State()).(extras := SectionExtras(old(pool.extrasTags), section))
    ensures volume.State() == old(volume.State()).(extras := SectionExtras(old(volume.extrasTags), section))
    ensures r == SectionSeries(old(pool.State()), old(volume.State()), remote, section)
  {
    if section.name == InfluxSection {
      return Ok([]);
    }
    var svc := DescribeSection(section);
    if svc.Err? {
      return Err(svc.error);
    }
    r := CollectAppliance(svc.value, remote, pool, volume);
  }

  /** `__main__`'s loop over `get_svc()`: every appliance section is
      described when the loop reaches it, then collected, and its lists are
      appended to the batch. */
  method RunBatch(sections: seq<Section>, remote: Remote, pool: SeriesBuilder, volume: SeriesBuilder)
    returns (r: Result<seq<seq<Point>>>)
    requires pool != volume
    requires AllAnswer(remote, sections)
    modifies pool`extrasTags, volume`extrasTags
    ensures r == BatchSeries(old(pool.State()), old(volume.State()), remote, sections)
    ensures r.Ok? ==>
      && pool.State() == old(pool.State()).(extras := ExtrasAfter(old(pool.extrasTags), sections))
      && volume.State() == old(volume.State()).(extras := ExtrasAfter(old(volume.extrasTags), sections))
    ensures r.Err? ==> exists k ::
      && FirstFailure(old(pool.State()), old(volume.State()), remote, sections, k)
      && pool.State() == old(pool.State()).(extras := ExtrasAfter(old(pool.extrasTags), sections[..k + 1]))
      && volume.State() == old(volume.State()).(extras := ExtrasAfter(old(volume.extrasTags), sections[..k + 1]))
  {
    ghost var p0, v0 := pool.State(), volume.State();
    var series: seq<seq<Point>> := [];
    var i := 0;
    while i < |sections|
      invariant 0 <= i <= |sections|
      invariant BatchSeries(p0, v0, remote, sections[..i]) == Ok(series)
      invariant pool.State() == p0.(extras := ExtrasAfter(p0.extras, sections[..i]))
      invariant volume.State() == v0.(extras := ExtrasAfter(v0.extras, sections[..i]))
    {
      BatchStep(p0, v0, remote, sections, i);
      ExtrasStep(p0.extras, sections, i);
      ExtrasStep(v0.extras, sections, i);
      SectionSeriesIgnoresExtras(p0, v0, remote, sections[i], pool.extrasTags, volume.extrasTags);
      var s := CollectSection(sections[i], remote, pool, volume);
      if s.Err? {
        BatchStopsAtError(p0, v0, remote, sections, i + 1);
        BatchSectionsSucceed(p0, v0, remote, sections, i);
        assert FirstFailure(p0, v0, remote, sections, i);
        return Err(s.error);
      }
      series := series + s.value;
      i := i + 1;
    }
    assert sections[..i] == sections;
    r := Ok(series);
  }

  /** What the program writes: the database settings and the batch. */
  datatype Output = Output(settings: InfluxSettings, series: seq<seq<Point>>)

  /** The builders' fixed time: `now` with `--fixed`, none without. */
  function FixedTime(fixed: bool, now: int): Option<int> {
    if fixed then Some(now) else None
  }

  /** The whole program: the database settings are read first, then the
      batch is collected with two fresh builders sharing one fixed time. */
  function Program(sections: seq<Section>, remote: Remote, fixed: bool, now: int): Result<Output>
    requires AllAnswer(remote, sections)
  {
    match GetInfluxdb(sections)
    case Err(e) => Err(e)
    case Ok(settings) =>
      var time := FixedTime(fixed, now);
      match BatchSeries(BuilderState(PoolSchema, map[], time), BuilderState(VolumeSchema, map[], time), remote, sections)
      case Err(e) => Err(e)
      case Ok(series) => Ok(Output(settings, series))
  }

  /** With `--fixed` every point of the batch carries the one time taken
      before collecting (unless that time is zero); without it none does. */
  lemma ProgramStamped(sections: seq<Section>, remote: Remote, fixed: bool, now: int)
    requires AllAnswer(remote, sections)
    requires Program(sections, remote, fixed, now).Ok?
    ensures Stamped(Program(sections, remote, fixed, now).value.series, if fixed && now != 0 then Some(now) else None)
  {
    var time := FixedTime(fixed, now);
    BatchStamped(BuilderState(PoolSchema, map[], time), BuilderState(VolumeSchema, map[], time), remote, sections);
  }

  /** A program that completes read the database settings and described
      every appliance; every point names its appliance in its `svc` tag. */
  lemma ProgramComplete(sections: seq<Section>, remote: Remote, fixed: bool, now: int)
    requires AllAnswer(remote, sections)
    requires Program(sections, remote, fixed, now).Ok?
    ensures GetInfluxdb(sections) == Ok(Program(sections, remote, fixed, now).value.settings)
    ensures Appliances(sections).Ok?
    ensures AllNameAppliances(Program(sections, remote, fixed, now).value.series, sections)
  {
    var time := FixedTime(fixed, now);
    BatchDescribesAll(BuilderState(PoolSchema, map[], time), BuilderState(VolumeSchema, map[], time), remote, sections);
    BatchSvcTagged(BuilderState(PoolSchema, map[], time), BuilderState(VolumeSchema, map[], time), remote, sections);
  }

  /** `__main__` without its I/O: `now` is the time read from the clock. */
  method Run(sections: seq<Section>, remote: Remote, fixed: bool, now: int) returns (r: Result<Output>)
    requires AllAnswer(remote, sections)
    ensures r == Program(sections, remote, fixed, now)
    ensures r.Ok? ==> Stamped(r.value.series, if fixed && now != 0 then Some(now) else None)
  {
    var settings := GetInfluxdb(sections);
    if settings.Err? {
      return Err(settings.error);
    }
    var time := FixedTime(fixed, now);
    var pool := new SeriesBuilder.Pool(time);
    var volume := new SeriesBuilder.Volume(time);
    var series := RunBatch(sections, remote, pool, volume);
    if series.Err? {
      return Err(series.error);
    }
    r := Ok(Output(settings.value, series.value));
    ProgramStamped(sections, remote, fixed, now);
  }
}
