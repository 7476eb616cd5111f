/** `ConfigFile`: what the collector takes from an already-loaded
    configuration, a sequence of named sections of key/value entries.  The
    `INFLUXDB` section describes the database; every other section is one
    SVC appliance.  An entry is the value configparser returns for it, after
    interpolation. */
module Config {
  import opened Common

  datatype Section = Section(name: string, entries: map<string, string>)

  /** What a collector needs to open its session on one appliance. */
  datatype Endpoint = Endpoint(address: string, login: string, password: string)

  /** One yielded appliance descriptor: its tags and its connection. */
  datatype Appliance = Appliance(tags: map<string, string>, endpoint: Endpoint)

  /** The database connection and the database name. */
  datatype InfluxSettings = InfluxSettings(
    address: string,
    username: Option<string>,
    password: Option<string>,
    database: string)

  const InfluxSection: string := "INFLUXDB"
  const DefaultDatabase: string := "svc2influxdb"

  /** Keys of an appliance section that are connection data, not tags. */
  const ConnectionKeys: set<string> := {"name", "address", "login", "password"}

  /** `conf[name]`: the entries of the first section called `name`. */
  function FindSection(sections: seq<Section>, name: string): (r: Option<map<string, string>>)
    ensures r.Some? <==> exists i :: 0 <= i < |sections| && sections[i].name == name
    ensures r.Some? ==> exists i :: 0 <= i < |sections| && sections[i].name == name && sections[i].entries == r.value
  {
    if sections == [] then None
    else if sections[0].name == name then Some(sections[0].entries)
    else
      var r := FindSection(sections[1..], name);
      assert forall i :: 0 < i < |sections| ==> sections[i] == sections[1..][i - 1];
      r
  }

  /** Python truthiness of an entry: the empty string stands for None. */
  function NoneIfEmpty(s: string): Option<string> {
    if s == "" then None else Some(s)
  }

  /** `get_influxdb`: the four database entries, read in order; a missing
      section or entry is a KeyError, an empty user name or password is
      None, and an empty database name is the default. */
  function GetInfluxdb(sections: seq<Section>): (r: Result<InfluxSettings>)
    ensures FindSection(sections, InfluxSection).None? ==> r == Err(KeyError(InfluxSection))
    ensures FindSection(sections, InfluxSection).Some? ==>
      var e := FindSection(sections, InfluxSection).value;
      && ("address" !in e ==> r == Err(KeyError("address")))
      && ("address" in e && "username" !in e ==> r == Err(KeyError("username")))
      && ("address" in e && "username" in e && "password" !in e ==> r == Err(KeyError("password")))
      && ("address" in e && "username" in e && "password" in e && "database" !in e ==> r == Err(KeyError("database")))
    ensures r.Ok? <==>
      && FindSection(sections, InfluxSection).Some?
      && var e := FindSection(sections, InfluxSection).value;
         "address" in e && "username" in e && "password" in e && "database" in e
    ensures r.Ok? ==>
      var e := FindSection(sections, InfluxSection).value;
      && r.value.address == e["address"]
      && (r.value.username.None? <==> e["username"] == "")
      && (r.value.username.Some? ==> r.value.username.value == e["username"])
      && (r.value.password.None? <==> e["password"] == "")
      && (r.value.password.Some? ==> r.value.password.value == e["password"])
      && r.value.database != ""
      && (e["database"] != "" ==> r.value.database == e["database"])
      && (e["database"] == "" ==> r.value.database == DefaultDatabase)
  {
    match FindSection(sections, InfluxSection)
    case None => Err(KeyError(InfluxSection))
    case Some(e) =>
      if "address" !in e then Err(KeyError("address"))
      else if "username" !in e then Err(KeyError("username"))
      else if "password" !in e then Err(KeyError("password"))
      else if "database" !in e then Err(KeyError("database"))
      else
        Ok(InfluxSettings(
          e["address"],
          NoneIfEmpty(e["username"]),
          NoneIfEmpty(e["password"]),
          if e["database"] == "" then DefaultDatabase else e["database"]))
  }

  /** The entries of a section that become tags. */
  function TagEntries(entries: map<string, string>): map<string, string> {
    map k | k in entries && k !in ConnectionKeys :: entries[k]
  }

  /** One step of `get_svc`: the descriptor of an appliance section.  Its tags
      are `svc` (the section name) and every entry that is not connection
      data; an entry called `svc` replaces the section name. */
  function Descriptor(section: Section): (r: Result<Appliance>)
    ensures r.Ok? <==> "address" in section.entries && "login" in section.entries && "password" in section.entries
    ensures "address" !in section.entries ==> r == Err(KeyError("address"))
    ensures "address" in section.entries && "login" !in section.entries ==> r == Err(KeyError("login"))
    ensures "address" in section.entries && "login" in section.entries && "password" !in section.entries ==>
      r == Err(KeyError("password"))
    ensures r.Ok? ==> forall k :: k in r.value.tags <==> k == "svc" || (k in section.entries && k !in ConnectionKeys)
    ensures r.Ok? ==> forall k :: k in section.entries && k !in ConnectionKeys ==> r.value.tags[k] == section.entries[k]
    ensures r.Ok? && "svc" !in section.entries ==> r.value.tags["svc"] == section.name
    ensures r.Ok? ==>
      r.value.endpoint == Endpoint(section.entries["address"], section.entries["login"], section.entries["password"])
  {
    var e := section.entries;
    if "address" !in e then Err(KeyError("address"))
    else if "login" !in e then Err(KeyError("login"))
    else if "password" !in e then Err(KeyError("password"))
    else Ok(Appliance(map["svc" := section.name] + TagEntries(e), Endpoint(e["address"], e["login"], e["password"])))
  }

  /** The sections `get_svc` turns into appliances, in file order. */
  function ApplianceSections(sections: seq<Section>): (r: seq<Section>)
    ensures forall i :: 0 <= i < |r| ==> r[i].name != InfluxSection
    ensures |r| <= |sections|
  {
    if sections == [] then []
    else
      var k := |sections| - 1;
      ApplianceSections(sections[..k]) + (if sections[k].name == InfluxSection then [] else [sections[k]])
  }

  /** Everything `get_svc` yields, or the KeyError of the first appliance
      section that lacks a connection entry. */
  function Appliances(sections: seq<Section>): (r: Result<seq<Appliance>>)
    ensures r.Ok? ==> |r.value| == |ApplianceSections(sections)|
    ensures r.Ok? ==> forall i :: 0 <= i < |r.value| ==> Descriptor(ApplianceSections(sections)[i]) == Ok(r.value[i])
  {
    if sections == [] then Ok([])
    else
      var k := |sections| - 1;
      var before := ApplianceSections(sections[..k]);
      var all := ApplianceSections(sections);
      assert all == before + (if sections[k].name == InfluxSection then [] else [sections[k]]);
      assert forall i :: 0 <= i < |before| ==> all[i] == before[i];
      match Appliances(sections[..k])
      case Err(e) => Err(e)
      case Ok(appliances) =>
        if sections[k].name == InfluxSection then Ok(appliances)
        else
          match Descriptor(sections[k])
          case Err(e) => Err(e)
          case Ok(a) => Ok(appliances + [a])
  }

  /** `get_svc` runs to the end exactly when every appliance section has its
      connection entries. */
  lemma {:induction false} AppliancesSucceed(sections: seq<Section>)
    ensures Appliances(sections).Ok? <==>
      forall i :: 0 <= i < |ApplianceSections(sections)| ==> Descriptor(ApplianceSections(sections)[i]).Ok?
  {
    if sections != [] {
      var k := |sections| - 1;
      AppliancesSucceed(sections[..k]);
      var before, all := ApplianceSections(sections[..k]), ApplianceSections(sections);
      assert all == before + (if sections[k].name == InfluxSection then [] else [sections[k]]);
      assert forall i :: 0 <= i < |before| ==> all[i] == before[i];
      if Appliances(sections[..k]).Err? {
        assert Appliances(sections).Err?;
        var i :| 0 <= i < |before| && Descriptor(before[i]).Err?;
        assert Descriptor(all[i]).Err?;
      } else if sections[k].name == InfluxSection {
        assert all == before;
      } else {
        assert all[|before|] == sections[k];
        assert Appliances(sections).Ok? <==> Descriptor(sections[k]).Ok?;
      }
    }
  }

  /** One more section extends what `get_svc` has yielded by at most its descriptor. */
  lemma AppliancesStep(sections: seq<Section>, i: int)
    requires 0 <= i < |sections|
    ensures Appliances(sections[..i + 1]) ==
      match Appliances(sections[..i])
      case Err(e) => Err(e)
      case Ok(appliances) =>
        if sections[i].name == InfluxSection then Ok(appliances)
        else
          match Descriptor(sections[i])
          case Err(e) => Err(e)
          case Ok(a) => Ok(appliances + [a])
  {
    assert sections[..i + 1][..i] == sections[..i];
  }

  /** Exactly the sections not called `INFLUXDB` describe appliances. */
  lemma {:induction false} ApplianceSectionsMembers(sections: seq<Section>)
    ensures forall s :: s in ApplianceSections(sections) <==> s in sections && s.name != InfluxSection
  {
    if sections != [] {
      var k := |sections| - 1;
      ApplianceSectionsMembers(sections[..k]);
      assert sections == sections[..k] + [sections[k]];
    }
  }

  /** One iteration of `get_svc`'s loop: start the tags with `svc`, read the
      connection entries, then add the other entries one by one. */
  method DescribeSection(section: Section) returns (r: Result<Appliance>)
    ensures r == Descriptor(section)
  {
    var e := section.entries;
    var tags := map["svc" := section.name];
    if "address" !in e {
      return Err(KeyError("address"));
    }
    if "login" !in e {
      return Err(KeyError("login"));
    }
    if "password" !in e {
      return Err(KeyError("password"));
    }
    var endpoint := Endpoint(e["address"], e["login"], e["password"]);
    var pending := e.Keys;
    while pending != {}
      invariant pending <= e.Keys
      invariant tags == map["svc" := section.name] + (map k | k in e.Keys - pending && k !in ConnectionKeys :: e[k])
      decreases pending
    {
      var item :| item in pending;
      if item !in ConnectionKeys {
        tags := tags[item := e[item]];
      }
      pending := pending - {item};
    }
    assert (map k | k in e.Keys - {} && k !in ConnectionKeys :: e[k]) == TagEntries(e);
    r := Ok(Appliance(tags, endpoint));
  }

  /** `get_svc`: walks the sections in order, skipping `INFLUXDB`, and
      collects one descriptor per appliance section. */
  method GetSvc(sections: seq<Section>) returns (r: Result<seq<Appliance>>)
    ensures r == Appliances(sections)
  {
    var appliances: seq<Appliance> := [];
    var i := 0;
    while i < |sections|
      invariant 0 <= i <= |sections|
      invariant Appliances(sections[..i]) == Ok(appliances)
    {
      AppliancesStep(sections, i);
      if sections[i].name != InfluxSection {
        var svc := DescribeSection(sections[i]);
        if svc.Err? {
          AppliancesStopAtError(sections, i + 1);
          return Err(svc.error);
        }
        appliances := appliances + [svc.value];
      }
      i := i + 1;
    }
    assert sections[..i] == sections;
    r := Ok(appliances);
  }

  /** Once a section fails, the sections after it are never described. */
  lemma {:induction false} AppliancesStopAtError(sections: seq<Section>, i: int)
    requires 0 <= i <= |sections|
    requires Appliances(sections[..i]).Err?
    ensures Appliances(sections) == Appliances(sections[..i])
    decreases |sections| - i
  {
    if i < |sections| {
      assert sections[..i + 1][..i] == sections[..i];
      AppliancesStopAtError(sections, i + 1);
    } else {
      assert sections[..i] == sections;
    }
  }
}
