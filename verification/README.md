# svc2influxdb in Dafny

A model of `svc2influxdb.py`, the collector that reads capacity metrics
from IBM SAN Volume Controller (SVC) appliances and turns them into
InfluxDB points. The model covers:

- the configuration (`ConfigFile.get_influxdb`, `ConfigFile.get_svc`);
- the series builders (`SeriesBuilder` and its pool and volume schemas);
- the SSH collectors (`PoolSSHCollector`, `VolumeSSHCollector`);
- the main loop, which collects every appliance into one batch before anything is written.

The Python exceptions the modelled code raises become error values of a
`Result`: `KeyError`, `ValueError` from `int()`, `IndexError` from a
one-column detail line, and `AttributeError` from a collector that has no
builder. Exceptions raised inside the libraries it calls (configparser's
interpolation errors, SSH and database failures) are not modelled; see
"Left out".

| file | module | what it holds |
|---|---|---|
| `common.dfy` | `Common` | `Option`, `Result`, the error kinds, and `Row`, a record as a map from column to text |
| `pyint.dfy` | `PyInt` | Python `int()` on decimal text, and `str()` of an integer |
| `csv_lines.dfy` | `Csv` | `csv.reader` and `csv.DictReader` on the appliance's `-delim ,` output |
| `series.dfy` | `Series` | the points, the two schemas, and `parse` as a function of the builder's state |
| `builder.dfy` | `Builder` | the mutable `SeriesBuilder` class, whose loops are proved against `Series` |
| `config.dfy` | `Config` | the sections of a loaded configuration, `get_influxdb` and `get_svc` |
| `collectors.dfy` | `Collectors` | one session per collector with a log of the commands it sent, the pool and volume collectors, and the volume details |
| `batch.dfy` | `Batch` | the `__main__` loop and the whole program without its I/O |

The appliance's shell is a parameter, `Remote`: a function from an
endpoint and a command line to the lines the command prints. The clock is
a parameter too: `now` is an integer.

### Behaviour worth noting

- A point carries the fixed time only when that time is truthy
  (svc2influxdb.py:87-88). `--fixed` with a time of `0` gives points
  without a time.
- `parse` reads the tag columns only once a measurement column is present
  (svc2influxdb.py:100-101). A record with no measurement column gives no
  points, even if it lacks a tag column.
- A missing tag column raises `KeyError` before the column's value is read
  as an integer (svc2influxdb.py:101-105).
- The batch is a list of point lists: one list per record, in the order
  the records were collected (svc2influxdb.py:240-242). One `write_points`
  call is made per list, not per point (svc2influxdb.py:253-254).

## Model

| member | source | states |
|---|---|---|
| PyInt.IntRoundTrip | svc2influxdb.py:82 | `int` reads the decimal text of every integer back as that integer, negative ones included. No limit on the number of digits is modelled (see PyInt.ParseInt under Left out) |
| PyInt.NatToStringValue | svc2influxdb.py:82 | the digits printed for a natural number are text `int` accepts, and they denote that number |
| PyInt.ParseIntIgnoresPadding | svc2influxdb.py:82 | whitespace before or after a value never changes what `int` reads |
| Csv.Split | svc2influxdb.py:199 | a line yields no fields exactly when it is empty |
| Csv.SplitFieldsNoComma | svc2influxdb.py:199 | no field of a line contains the delimiter |
| Csv.JoinSplit | svc2influxdb.py:199 | splitting on `,` loses nothing: the fields joined with `,` give the line back |
| Csv.SplitJoin | svc2influxdb.py:199 | fields without a comma, printed on one line and split again, are the same fields |
| Csv.Reader | svc2influxdb.py:199 | the reader yields one field row per output line |
| Csv.ZipRowKeys | svc2influxdb.py:187 | the keys of a record are exactly the column names of the header |
| Csv.ZipRowValue | svc2influxdb.py:187 | a column's value is the field under the last header position with that name |
| Csv.DataRecords | svc2influxdb.py:187 | a table has no more records than data lines |
| Csv.DataRecordsAppend | svc2influxdb.py:187 | records keep the order of their lines: the records of two runs of lines are those of the first run, then those of the second |
| Csv.BlankLineSkipped | svc2influxdb.py:187 | a blank data line yields no record |
| Csv.RecordsOfFullLines | svc2influxdb.py:187 | with no blank data line there is one record per line, and the i-th record comes from the i-th line |
| Series.PointTime | svc2influxdb.py:87-88 | a point has a time exactly when the fixed time is neither None nor 0, and then it is that time |
| Series.Present | svc2influxdb.py:99-100 | the columns `parse` visits are all in the record, and there are no more of them than the schema has |
| Series.PresentMembers | svc2influxdb.py:99-100 | a column yields a point exactly when it is in both the schema and the record |
| Series.PresentAppend | svc2influxdb.py:99-100 | present columns keep schema order: those of two schema parts are the first part's, then the second's |
| Series.PresentAll | svc2influxdb.py:99-100 | a record that has every measurement column yields every column, in schema order |
| Series.RowTags | svc2influxdb.py:101 | the tag lookup succeeds exactly when every tag column is in the record, and then it maps each tag column to the record's value |
| Series.RowTagsKeys | svc2influxdb.py:101 | the tag map has no key besides the tag columns |
| Series.RowTagsError | svc2influxdb.py:101 | a failed tag lookup is the KeyError of the first missing tag column |
| Series.BuildPoints | svc2influxdb.py:102-105 | the points of the present columns exist exactly when every value is an integer; there is then one point per column, built from that column |
| Series.BuildPointsError | svc2influxdb.py:82 | a failure is the ValueError of the first column whose value is not an integer |
| Series.BuildPointsStopsAtError | svc2influxdb.py:99-105 | once a column fails, the later columns are never reached |
| Series.ParseRowFailsOnTags | svc2influxdb.py:100-101 | once some measurement column is present, a missing tag column fails `parse` |
| Series.ParseRowFailsOnValue | svc2influxdb.py:99-105 | a value that fails among the first columns is the failure of `parse` |
| Series.ParseRowPoints | svc2influxdb.py:79-90 | `parse` gives one point per present measurement column, in schema order. Each point is named `<prefix>_<column>` and has one field, `value`, holding the column's integer. It has a time exactly when the fixed time is truthy |
| Series.ParseRowTags | svc2influxdb.py:96-101 | a point's tags are the extra tags plus the record's tag columns; the record wins on a shared key, and all points of a record carry the same tags |
| Series.ParseRowSucceeds | svc2influxdb.py:95-107 | `parse` succeeds exactly when no measurement column is present, or all tag columns are present and every present value is an integer. No present column gives no points |
| Series.ParseRowErrors | svc2influxdb.py:99-105 | a missing tag column fails `parse` with the KeyError of the first missing tag. A ValueError names a present measurement column whose value is not an integer |
| Series.FullRecords | svc2influxdb.py:113-141 | a full pool record yields 10 points and a full volume detail record 6 |
| Builder.SeriesBuilder.Pool | svc2influxdb.py:113-126 | a pool builder has the pool schema, no extra tags and the given fixed time |
| Builder.SeriesBuilder.Volume | svc2influxdb.py:132-141 | a volume builder has the volume schema, no extra tags and the given fixed time |
| Builder.SeriesBuilder.AddExtrasTags | svc2influxdb.py:92-93 | replaces the extra tags and changes nothing else |
| Builder.SeriesBuilder.BuildSeries | svc2influxdb.py:79-90 | the key-by-key copy loop builds `BuildPoint`'s point: a copy of the tags, the integer value and the truthy fixed time |
| Builder.SeriesBuilder.Parse | svc2influxdb.py:95-107 | the loop's result is `ParseRow` of the builder's state, and the builder is not modified, so the same record always gives the same points |
| Config.FindSection | svc2influxdb.py:41 | a section is found exactly when one has that name, and then its entries are those of such a section |
| Config.GetInfluxdb | svc2influxdb.py:36-46 | a missing INFLUXDB section is a KeyError, and a missing entry is a KeyError naming the first one absent in the order address, username, password, database. An empty user name or password becomes None, an empty database name becomes `svc2influxdb`, and otherwise each entry is kept as it is |
| Config.Descriptor | svc2influxdb.py:55-62 | describing a section succeeds exactly when it has address, login and password. Otherwise it is a KeyError naming the first one absent, in that order. Its tags are `svc` (the section name) plus every entry other than name, address, login and password, with their values; the endpoint holds the three connection entries |
| Config.ApplianceSections | svc2influxdb.py:51-53 | no yielded section is INFLUXDB |
| Config.ApplianceSectionsMembers | svc2influxdb.py:51-53 | exactly the sections not called INFLUXDB are yielded |
| Config.Appliances | svc2influxdb.py:48-64 | one descriptor per appliance section, in file order, each that section's descriptor |
| Config.AppliancesSucceed | svc2influxdb.py:48-64 | `get_svc` runs to the end exactly when every appliance section has its connection entries |
| Config.AppliancesStopAtError | svc2influxdb.py:51-64 | after the first section that fails, no later section is described |
| Config.DescribeSection | svc2influxdb.py:55-62 | the loop over a section's entries builds `Descriptor`'s appliance |
| Config.GetSvc | svc2influxdb.py:48-64 | the generator loop yields `Appliances` |
| Collectors.Session.constructor | svc2influxdb.py:149-153 | a session is bound to the appliance's endpoint and has sent nothing |
| Collectors.Session.SendCommand | svc2influxdb.py:168-170 | returns the command's output and logs one more command |
| Collectors.DetailsSucceed | svc2influxdb.py:200 | the details are read exactly when every line is blank or has a field and a value |
| Collectors.DetailsKeys | svc2influxdb.py:200 | the fields of the details are exactly the first columns of the non-blank lines |
| Collectors.DetailsError | svc2influxdb.py:200 | a failure is always IndexError, at the first line with a single column |
| Collectors.DetailsLastWins | svc2influxdb.py:200 | a field's value is the second column of the last line that names it |
| Collectors.DetailsSkipBlank | svc2influxdb.py:200 | blank lines contribute nothing to the details |
| Collectors.ParseRows | svc2influxdb.py:188 | with no builder an empty table gives no lists and any record raises AttributeError. Otherwise there is one list per record, the i-th being `parse` of the i-th record |
| Collectors.ParseRowsSucceed | svc2influxdb.py:188 | with a builder, the comprehension completes exactly when every record parses |
| Collectors.ParseRowsStopAtError | svc2influxdb.py:188 | after the first record that fails, no later record is parsed |
| Collectors.ParseEach | svc2influxdb.py:210 | the comprehension's loop computes `ParseRows` for the collector's builder |
| Collectors.FetchDetails | svc2influxdb.py:206-208 | no more detail commands than volumes; when all details are read there is one record and one command per volume |
| Collectors.FetchDetailsCommands | svc2influxdb.py:198-208 | when all details are read, the i-th command is `lsvdisk -bytes -delim , <id>` for the i-th volume's id, and the i-th record is what that command printed |
| Collectors.FetchStopsAtError | svc2influxdb.py:206-208 | after the first volume that fails, no later volume is asked for |
| Collectors.PoolCollector.constructor | svc2influxdb.py:182-183 | a pool collector opens a fresh session on the endpoint and has no builder |
| Collectors.PoolCollector.AddSeriesBuilder | svc2influxdb.py:172-173 | sets the builder |
| Collectors.PoolCollector.Collect | svc2influxdb.py:185-188 | sends exactly `lsmdiskgrp -bytes -delim ,` and returns `parse` with prefix `pool` of each pool record |
| Collectors.VolumeCollector.constructor | svc2influxdb.py:194-195 | a volume collector opens a fresh session on the endpoint and has no builder |
| Collectors.VolumeCollector.AddSeriesBuilder | svc2influxdb.py:172-173 | sets the builder |
| Collectors.VolumeCollector.GetVolumeDetails | svc2influxdb.py:197-200 | sends one detail command for the identifier and reads its output as the volume's details |
| Collectors.VolumeCollector.FetchVolumeDetails | svc2influxdb.py:206-208 | the loop sends the commands of `FetchDetails` in order and returns its details |
| Collectors.VolumeCollector.Collect | svc2influxdb.py:202-210 | sends the volume listing and then one detail command per listed volume. Every detail is fetched before any is parsed, and each is parsed with prefix `volume` |
| Batch.ApplianceSeriesIgnoresExtras | svc2influxdb.py:231-232 | what an appliance yields does not depend on the extra tags the builders held before |
| Batch.SectionSeriesIgnoresExtras | svc2influxdb.py:230-232 | the same holds for a whole configuration section |
| Batch.Concat | svc2influxdb.py:240-242 | `series += ...` succeeds only when both parts do, the first error wins, and the result is the first part followed by the second |
| Batch.ConcatAssoc | svc2influxdb.py:240-242 | appending lists is associative, errors included |
| Batch.ConcatAllAppend | svc2influxdb.py:229-243 | accumulating two runs of parts is accumulating each, then appending |
| Batch.BatchStep | svc2influxdb.py:230-243 | one more section appends that section's lists to the batch |
| Batch.BatchStopsAtError | svc2influxdb.py:230-243 | the first error ends the batch, and later appliances are never collected |
| Batch.BatchAppend | svc2influxdb.py:229-243 | the batch of two parts of the configuration is the first part's batch followed by the second's |
| Batch.BatchDescribesAll | svc2influxdb.py:230 | a batch that completes has described every appliance section |
| Batch.ParseRowsStamped | svc2influxdb.py:87-88 | every point a builder parses carries that builder's time |
| Batch.ApplianceSeriesStamped | svc2influxdb.py:226-227 | both builders share one fixed time, so every point of an appliance carries it |
| Batch.BatchStamped | svc2influxdb.py:224-243 | with one time given to both builders, every point of the batch carries that time |
| Batch.ParseRowsCarry | svc2influxdb.py:96-101 | a builder's extra tags reach every point it parses, except where a tag column of the record overrides them |
| Batch.ApplianceSeriesCarries | svc2influxdb.py:231-242 | every point collected on an appliance carries the appliance's tags, except those named like a pool or volume tag column |
| Batch.ApplianceSeriesNamed | svc2influxdb.py:55 | every point collected on an appliance has the `svc` tag of that appliance's own section |
| Batch.BatchSectionNamed | svc2influxdb.py:229-243 | in a completed batch, the lists of appliance section `i` come right after those of the sections before it, and every one of their points has section `i`'s own `svc` tag |
| Batch.BatchSvcTagged | svc2influxdb.py:229-243 | every point of a batch has in its `svc` tag the `svc` tag of an appliance section |
| Batch.CollectAppliance | svc2influxdb.py:231-243 | both builders get the appliance's tags and keep them. The result is the pool lists, then the volume lists |
| Batch.CollectSection | svc2influxdb.py:230-243 | INFLUXDB contributes nothing and leaves both builders as they were; another section is described, then collected, and both builders end with that appliance's tags as their extra tags and nothing else changed |
| Batch.RunBatch | svc2influxdb.py:229-243 | the loop over `get_svc()` computes `BatchSeries` from the builders' initial states. On success both builders end with the extra tags `ExtrasAfter` gives for all sections; on an error they end with those for the sections up to and including the first one that fails, and nothing else in them changes |
| Batch.ExtrasAfterLast | svc2influxdb.py:231-232 | after the loop a builder holds the tags of the last appliance section described |
| Batch.ExtrasAfterNone | svc2influxdb.py:231-232 | when no appliance section is described, a builder keeps the extra tags it had |
| Batch.ProgramStamped | svc2influxdb.py:224-227 | with `--fixed` every point carries the one time taken before collecting, unless that time is 0; without it no point has a time |
| Batch.ProgramComplete | svc2influxdb.py:219-243 | a program that completes has read the database settings and described every appliance section, and every point's `svc` tag is the `svc` tag of an appliance section |
| Batch.Run | svc2influxdb.py:219-243 | `__main__` without its I/O computes `Program`: settings first, then the batch with two fresh builders sharing one time, all of whose points are stamped alike |

Many of the lemmas and methods above are stated about reference
definitions: functions that follow the source line by line and whose
meaning is given by those lemmas, not by a contract of their own. They are
`PyInt.ParseInt` (svc2influxdb.py:82),
`Csv.Records` (svc2influxdb.py:187, 204),
`Series.BuildPoint` (svc2influxdb.py:79-90),
`Series.ParseRow` (svc2influxdb.py:95-107),
`Collectors.Details` and `Collectors.VolumeDetails` (svc2influxdb.py:197-200),
`Collectors.PoolSeries` (svc2influxdb.py:185-188),
`Collectors.VolumeSeries` (svc2influxdb.py:202-210),
`Batch.ApplianceSeries`, `Batch.SectionSeries`, `Batch.BatchSeries`,
`Batch.ExtrasAfter` and `Batch.Program` (svc2influxdb.py:219-243).

## Left out

- SSH transport: paramiko's client, host keys, `connect`, and the authentication and time-out exits (svc2influxdb.py:155-166). These are a foreign library and process exit. A session is modelled as the `Remote` function applied to its endpoint.
- The InfluxDB client: construction, `create_database`, `write_points` and the ConnectionError exit (svc2influxdb.py:220-222, 245-254). These are network I/O; the model ends with the settings and the batch they would be given.
- `timestamp_ms` (svc2influxdb.py:16-17): wall-clock time and floating point. `now` is an integer parameter.
- Interpolation of configuration values: `self._conf[...][...]` (svc2influxdb.py:41-44, 56-62) goes through configparser's BasicInterpolation. An entry is modelled as its value after interpolation (`%%` already read as `%`, `%(x)s` already replaced). The InterpolationSyntaxError raised by a lone `%`, and the other interpolation errors, are not modelled.
- `ConfigFile.__init__` (svc2influxdb.py:23-34): file existence, parsing and their exits. The configuration is a sequence of already-parsed sections. configparser's `DEFAULT` inheritance, key lower-casing and duplicate-section errors are not modelled.
- `argparse` and exit codes (svc2influxdb.py:214-217). `--fixed` is a boolean parameter.
- CSV quoting: a field cannot contain a quoted comma. Lines are split on every `,`.
- Collectors.PoolCollector.Collect: requires every data line of the listing to be blank or as wide as its header. `csv.DictReader`'s handling of ragged rows (the `None` rest key, `None` fill values) is not modelled. The same requirement is on Collectors.VolumeCollector.Collect, Collectors.PoolSeries and Collectors.VolumeSeries.
- Batch.RunBatch: requires every appliance the configuration describes to answer both listings with such tables, including appliances after one that fails. The same requirement is on Batch.Run, Batch.Program and Batch.BatchSeries.
- PyInt.ParseInt: ASCII decimal text only. Unicode digits and Unicode whitespace, which Python's `int` also accepts, are not modelled. CPython 3.11 and later also raise ValueError for decimal text of more than 4300 digits (`sys.int_info.default_max_str_digits`); no digit limit is modelled, so the model reads such text as a number.
- Collectors.DetailsError: the text of the IndexError message is not modelled, only its kind.
- `del svc_pool` / `del svc_volume` (svc2influxdb.py:241, 243): session teardown has no effect on the data.
- `SeriesBuilder._command` (svc2influxdb.py:73) is never read and is not modelled.
- `get_svc` yields the same `equipment` dict every time (svc2influxdb.py:50, 64). The main loop consumes each descriptor before asking for the next, so each is modelled as a fresh value.
- The abstract `collect` of `SSHCollector` (svc2influxdb.py:175-176): there is no abstract class; the two collectors are separate classes.
- The session's command log `sent` is ghost state. It records what the collectors send and has no counterpart in the program.
