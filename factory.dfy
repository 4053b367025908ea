/** `hubFactory` (aws_hub/aws_hub.py:104-506): the object that holds the configuration, the
    region tables and the results of each stage, and runs the nodegroup pipeline. Its loops are
    proved equal to the stage functions of `Groups` and `Nodegroups`. */
module Factory {
  import opened Wrappers
  import opened Tree
  import opened Ec2
  import opened Region
  import opened Groups
  import opened Nodegroups

  /** The settings document `set_configuration` reads; every section is optional. */
  datatype Settings = Settings(
    config: Option<UserConfig>,
    nodegroupDefaults: Option<seq<Entry>>,
    groups: Option<seq<RawGroup>>,
    hubDefaults: Option<seq<Entry>>)

  const NoUserConfig := UserConfig(None, None, None, None, None, None)

  /** An instance record after `query_region_information`: unchanged except that the spot
      ceiling is the largest available price, when the instance has one. */
  ghost predicate Ceilinged(before: Instance, after: Instance) {
    var spot := before.info.spotPricing;
    after.name == before.name &&
    after.info.(maxPrice := before.info.maxPrice) == before.info &&
    (AvailableZones(spot) == {} ==> after.info.maxPrice == before.info.maxPrice) &&
    (AvailableZones(spot) != {} ==> after.info.maxPrice.Some? && IsMaxPrice(spot, after.info.maxPrice.value))
  }

  /** The first three stages of `process_groups`: defaults, family split, instance split. */
  function Stages(raws: seq<RawGroup>, c: Config, table: map<string, seq<string>>): Result<seq<Group>> {
    var gs0 :- ApplyDefaults(raws, Some(c));
    var gs1 :- SeparateFamilies(gs0, table, c.region);
    Ok(SeparateInstances(gs1))
  }

  /** The hub's instance table (`set_hub_instances(get_unique_instances(groups))`). */
  function HubStage(raws: seq<RawGroup>, c: Config, table: map<string, seq<string>>, region: seq<Instance>)
    : Result<map<string, InstanceRecord>>
  {
    var gs :- Stages(raws, c, table);
    var names :- UniqueInstances(gs);
    HubInstances(names, region)
  }

  /** The groups handed to nodegroup construction: zones validated, then split. */
  function ZoneStage(raws: seq<RawGroup>, c: Config, table: map<string, seq<string>>,
                     avail: map<string, set<string>>): Result<seq<Group>>
  {
    var gs :- Stages(raws, c, table);
    var checked :- EvaluateZones(gs, avail);
    Ok(SeparateZones(checked))
  }

  /** `process_groups`: the stages in their fixed order, then one nodegroup per group. */
  function Processed(raws: seq<RawGroup>, c: Config, table: map<string, seq<string>>, region: seq<Instance>,
                     avail: map<string, set<string>>, defaults: Option<seq<Entry>>,
                     fmt: (Tokens, string) -> string): Result<seq<Value>>
  {
    var hub :- HubStage(raws, c, table, region);
    var gs :- ZoneStage(raws, c, table, avail);
    SynthesizeAll(gs, defaults, region, c, fmt)
  }

  /** The eksctl document of `create_eksctl_config`, a dict literal. */
  function EksctlDocument(c: Config, zones: seq<string>, nodegroups: seq<Value>): (doc: Value)
    ensures doc.Dict?
  {
    Dict([Entry("apiVersion", Str("eksctl.io/v1alpha5")),
          Entry("kind", Str("ClusterConfig")),
          Entry("metadata", Dict([Entry("name", Str(c.clusterName)), Entry("region", Str(c.region))])),
          Entry("availabilityZones", StrList(Prefixed(c.region, zones))),
          Entry("nodeGroups", List(nodegroups))])
  }

  /** The document holds exactly the five keys, each once: the API version, the kind, the metadata naming
      the cluster and region, the region-prefixed zones and the nodegroups. */
  lemma EksctlDocumentSpec(c: Config, zones: seq<string>, nodegroups: seq<Value>)
    ensures DistinctKeys(EksctlDocument(c, zones, nodegroups).entries)
    ensures var es := EksctlDocument(c, zones, nodegroups).entries;
      Keys(es) == {"apiVersion", "kind", "metadata", "availabilityZones", "nodeGroups"} &&
      Get(es, "apiVersion") == Some(Str("eksctl.io/v1alpha5")) &&
      Get(es, "kind") == Some(Str("ClusterConfig")) &&
      Get(es, "metadata") == Some(Dict([Entry("name", Str(c.clusterName)), Entry("region", Str(c.region))])) &&
      Get(es, "availabilityZones") == Some(StrList(Prefixed(c.region, zones))) &&
      Get(es, "nodeGroups") == Some(List(nodegroups))
  {
    var es := EksctlDocument(c, zones, nodegroups).entries;
    var e4 := es[4..];
    var e3 := es[3..];
    var e2 := es[2..];
    var e1 := es[1..];
    assert e4[1..] == [] && e3[1..] == e4 && e2[1..] == e3 && e1[1..] == e2 && es[1..] == e1;
    assert Keys(e4) == {"nodeGroups"};
    assert Keys(e3) == {"availabilityZones", "nodeGroups"};
    assert Keys(e2) == {"metadata", "availabilityZones", "nodeGroups"};
    assert Keys(e1) == {"kind", "metadata", "availabilityZones", "nodeGroups"};
    assert Get(e4, "nodeGroups") == Some(List(nodegroups));
    assert Get(e3, "nodeGroups") == Get(e4, "nodeGroups");
    assert Get(e2, "nodeGroups") == Get(e3, "nodeGroups");
    assert Get(e1, "nodeGroups") == Get(e2, "nodeGroups");
    assert Get(e2, "availabilityZones") == Get(e3, "availabilityZones");
    assert Get(e1, "availabilityZones") == Get(e2, "availabilityZones");
    assert Get(e1, "metadata") == Get(e2, "metadata");
    assert DistinctKeys(e4) && DistinctKeys(e3) && DistinctKeys(e2) && DistinctKeys(e1);
  }

  /** The zones and the spot ceiling of one instance: the zones with a price that is neither
      None nor zero, and the largest of those prices. */
  method SpotSummary(spot: map<string, Option<real>>) returns (zones: set<string>, maxPrice: Option<real>)
    ensures zones == AvailableZones(spot)
    ensures maxPrice.Some? <==> zones != {}
    ensures maxPrice.Some? ==> IsMaxPrice(spot, maxPrice.value)
  {
    zones := {};
    maxPrice := None;
    var todo := spot.Keys;
    while todo != {}
      invariant todo <= spot.Keys
      invariant zones == AvailableZones(spot) - todo
      invariant maxPrice.Some? <==> zones != {}
      invariant maxPrice.Some? ==>
        (exists z :: z in zones && spot[z].value == maxPrice.value) &&
        forall z :: z in zones ==> spot[z].value <= maxPrice.value
      decreases todo
    {
      var z :| z in todo;
      if spot[z].Some? && spot[z].value != 0.0 {
        zones := zones + {z};
        if maxPrice.None? || spot[z].value > maxPrice.value {
          maxPrice := Some(spot[z].value);
        }
      }
      todo := todo - {z};
    }
  }

  /** `rest` with the key `k` in front when it has a value. */
  function Optional(k: string, v: Option<Value>, rest: seq<Entry>): seq<Entry> {
    if v.Some? then [Entry(k, v.value)] + rest else rest
  }

  lemma OptionalGet(k: string, v: Option<Value>, rest: seq<Entry>, k': string)
    ensures Get(Optional(k, v, rest), k') == if k == k' && v.Some? then v else Get(rest, k')
  {
    if v.Some? {
      assert Optional(k, v, rest)[1..] == rest;
    }
  }

  lemma OptionalShape(k: string, v: Option<Value>, rest: seq<Entry>)
    requires v.None? || !v.value.Dict?
    requires forall i :: 0 <= i < |rest| ==> !rest[i].val.Dict?
    requires k !in Keys(rest) && DistinctKeys(rest)
    ensures forall i :: 0 <= i < |Optional(k, v, rest)| ==> !Optional(k, v, rest)[i].val.Dict?
    ensures DistinctKeys(Optional(k, v, rest))
    ensures Keys(Optional(k, v, rest)) <= {k} + Keys(rest)
  {
    if v.Some? {
      assert Optional(k, v, rest)[1..] == rest;
    }
  }

  function StrValue(s: Option<string>): Option<Value> {
    if s.Some? then Some(Str(s.value)) else None
  }

  function ZonesValue(zs: Option<seq<string>>): Option<Value> {
    if zs.Some? then Some(StrList(zs.value)) else None
  }

  /** The hub configuration as the dict `self.config` is, in Python's key order (a user's
      `availabilityZones` is a new key, so it comes last). */
  function ConfigEntries(c: Config): seq<Entry> {
    Optional("region", Some(Str(c.region)),
    Optional("avalabilityZones", Some(StrList(c.avalabilityZones)),
    Optional("operatingSystem", Some(Str(c.operatingSystem)),
    Optional("clusterName", Some(Str(c.clusterName)),
    Optional("overPayBy", Some(Num(c.overPayBy)),
    Optional("availabilityZones", ZonesValue(c.availabilityZones), []))))))
  }

  /** The user's `config` section as the loaded dict is: only the keys the user wrote. */
  function UserEntries(u: UserConfig): seq<Entry> {
    Optional("region", StrValue(u.region),
    Optional("avalabilityZones", ZonesValue(u.avalabilityZones),
    Optional("operatingSystem", StrValue(u.operatingSystem),
    Optional("clusterName", StrValue(u.clusterName),
    Optional("overPayBy", if u.overPayBy.Some? then Some(Num(u.overPayBy.value)) else None,
    Optional("availabilityZones", ZonesValue(u.availabilityZones), []))))))
  }

  /** What a configuration dict holds under a key. */
  function ConfigField(c: Config, k: string): Option<Value> {
    if k == "region" then Some(Str(c.region))
    else if k == "avalabilityZones" then Some(StrList(c.avalabilityZones))
    else if k == "operatingSystem" then Some(Str(c.operatingSystem))
    else if k == "clusterName" then Some(Str(c.clusterName))
    else if k == "overPayBy" then Some(Num(c.overPayBy))
    else if k == "availabilityZones" then ZonesValue(c.availabilityZones)
    else None
  }

  /** What the user's section holds under a key. */
  function UserField(u: UserConfig, k: string): Option<Value> {
    if k == "region" then StrValue(u.region)
    else if k == "avalabilityZones" then ZonesValue(u.avalabilityZones)
    else if k == "operatingSystem" then StrValue(u.operatingSystem)
    else if k == "clusterName" then StrValue(u.clusterName)
    else if k == "overPayBy" then (if u.overPayBy.Some? then Some(Num(u.overPayBy.value)) else None)
    else if k == "availabilityZones" then ZonesValue(u.availabilityZones)
    else None
  }

  lemma ConfigEntriesGet(c: Config, k: string)
    ensures Get(ConfigEntries(c), k) == ConfigField(c, k)
  {
    var e5 := Optional("availabilityZones", ZonesValue(c.availabilityZones), []);
    var e4 := Optional("overPayBy", Some(Num(c.overPayBy)), e5);
    var e3 := Optional("clusterName", Some(Str(c.clusterName)), e4);
    var e2 := Optional("operatingSystem", Some(Str(c.operatingSystem)), e3);
    var e1 := Optional("avalabilityZones", Some(StrList(c.avalabilityZones)), e2);
    OptionalGet("availabilityZones", ZonesValue(c.availabilityZones), [], k);
    OptionalGet("overPayBy", Some(Num(c.overPayBy)), e5, k);
    OptionalGet("clusterName", Some(Str(c.clusterName)), e4, k);
    OptionalGet("operatingSystem", Some(Str(c.operatingSystem)), e3, k);
    OptionalGet("avalabilityZones", Some(StrList(c.avalabilityZones)), e2, k);
    OptionalGet("region", Some(Str(c.region)), e1, k);
  }

  lemma UserEntriesGet(u: UserConfig, k: string)
    ensures Get(UserEntries(u), k) == UserField(u, k)
  {
    var ov := if u.overPayBy.Some? then Some(Num(u.overPayBy.value)) else None;
    var e5 := Optional("availabilityZones", ZonesValue(u.availabilityZones), []);
    var e4 := Optional("overPayBy", ov, e5);
    var e3 := Optional("clusterName", StrValue(u.clusterName), e4);
    var e2 := Optional("operatingSystem", StrValue(u.operatingSystem), e3);
    var e1 := Optional("avalabilityZones", ZonesValue(u.avalabilityZones), e2);
    OptionalGet("availabilityZones", ZonesValue(u.availabilityZones), [], k);
    OptionalGet("overPayBy", ov, e5, k);
    OptionalGet("clusterName", StrValue(u.clusterName), e4, k);
    OptionalGet("operatingSystem", StrValue(u.operatingSystem), e3, k);
    OptionalGet("avalabilityZones", ZonesValue(u.avalabilityZones), e2, k);
    OptionalGet("region", StrValue(u.region), e1, k);
  }

  /** The user's section holds each key at most once and nothing but values to overwrite. */
  lemma UserEntriesShape(u: UserConfig)
    ensures DistinctKeys(UserEntries(u))
    ensures forall i :: 0 <= i < |UserEntries(u)| ==> !UserEntries(u)[i].val.Dict?
  {
    var ov := if u.overPayBy.Some? then Some(Num(u.overPayBy.value)) else None;
    var e5 := Optional("availabilityZones", ZonesValue(u.availabilityZones), []);
    var e4 := Optional("overPayBy", ov, e5);
    var e3 := Optional("clusterName", StrValue(u.clusterName), e4);
    var e2 := Optional("operatingSystem", StrValue(u.operatingSystem), e3);
    var e1 := Optional("avalabilityZones", ZonesValue(u.avalabilityZones), e2);
    OptionalShape("availabilityZones", ZonesValue(u.availabilityZones), []);
    OptionalShape("overPayBy", ov, e5);
    OptionalShape("clusterName", StrValue(u.clusterName), e4);
    OptionalShape("operatingSystem", StrValue(u.operatingSystem), e3);
    OptionalShape("avalabilityZones", ZonesValue(u.avalabilityZones), e2);
    OptionalShape("region", StrValue(u.region), e1);
  }

  /** Key by key, `ConfigWith` takes the user's value when there is one, else the default's. */
  lemma ConfigFieldWith(u: UserConfig, k: string)
    ensures ConfigField(ConfigWith(u), k) ==
      if UserField(u, k).Some? then UserField(u, k) else ConfigField(DefaultConfig, k)
  {
  }

  /** `set_configuration` copies the user's `config` section over the default configuration
      with `recursive_dict_copy`: that merge always succeeds, and key by key the merged dict
      is the configuration `ConfigWith` builds. */
  lemma ConfigWithMerge(u: UserConfig)
    ensures Merge(UserEntries(u), ConfigEntries(DefaultConfig)).Ok?
    ensures var merged := Merge(UserEntries(u), ConfigEntries(DefaultConfig)).value;
      forall k :: Get(merged, k) == Get(ConfigEntries(ConfigWith(u)), k)
  {
    var source, target := UserEntries(u), ConfigEntries(DefaultConfig);
    UserEntriesShape(u);
    MergeScalars(source, target);
    var merged := Merge(source, target).value;
    forall k
      ensures Get(merged, k) == Get(ConfigEntries(ConfigWith(u)), k)
    {
      UserEntriesGet(u, k);
      GetNone(source, k);
      ConfigEntriesGet(DefaultConfig, k);
      ConfigEntriesGet(ConfigWith(u), k);
      ConfigFieldWith(u, k);
      assert Get(merged, k) == if UserField(u, k).Some? then UserField(u, k) else ConfigField(DefaultConfig, k);
    }
  }

  /** With the misspelled default key, a group without its own zone list can be defaulted only
      when the user's configuration supplies `availabilityZones`. */
  lemma MisspelledDefaultZones(raw: RawGroup, u: UserConfig)
    requires WellFormedEntries(raw.nodegroupOverrides.GetOr([]))
    ensures DefaultGroup(raw, ConfigWith(u)).Err? <==> raw.availabilityZones.None? && u.availabilityZones.None?
  {
    DefaultGroupSpec(raw, ConfigWith(u));
  }

  /** Validation runs before the zone split, so every group that reaches nodegroup
      construction with zones runs only in zones where all of its instances are available. */
  lemma PipelineZones(raws: seq<RawGroup>, c: Config, table: map<string, seq<string>>,
                      avail: map<string, set<string>>)
    requires ZoneStage(raws, c, table, avail).Ok?
    ensures forall h :: h in ZoneStage(raws, c, table, avail).value && h.availabilityZones != [] ==>
      ZonesServeAll(h, avail)
  {
    var gs := Stages(raws, c, table).value;
    var checked := EvaluateZones(gs, avail).value;
    EvaluateZonesSpec(gs, avail);
    var parts := seq(|checked|, i requires 0 <= i < |checked| => ZoneGroups(checked[i]));
    FlattenMembers(parts);
    forall h | h in SeparateZones(checked) && h.availabilityZones != []
      ensures ZonesServeAll(h, avail)
    {
      var i :| 0 <= i < |parts| && h in parts[i];
      if SplitsZones(checked[i]) {
        ValidatedThenSplit(checked[i], avail);
      }
    }
  }

  /** One more group processed: its nodegroup, if any, is appended. */
  lemma SynthesizeStep(gs: seq<Group>, i: nat, defaults: Option<seq<Entry>>, region: seq<Instance>, c: Config,
                       fmt: (Tokens, string) -> string)
    requires i < |gs| && SynthesizeAll(gs[..i], defaults, region, c, fmt).Ok?
    requires Synthesize(gs[i], defaults, region, c, fmt).Ok?
    ensures var h := Synthesize(gs[i], defaults, region, c, fmt).value;
      SynthesizeAll(gs[..i + 1], defaults, region, c, fmt) ==
        Ok(SynthesizeAll(gs[..i], defaults, region, c, fmt).value + (if h.Some? then [h.value] else []))
  {
    var pre, one := gs[..i], [gs[i]];
    var h := Synthesize(gs[i], defaults, region, c, fmt).value;
    var hs := if h.Some? then [h.value] else [];
    SynthesizeOne(gs[i], defaults, region, c, fmt);
    assert SynthesizeAll(one, defaults, region, c, fmt) == Ok(hs);
    SynthesizeAllAppend(pre, one, defaults, region, c, fmt);
    assert SynthesizeAll(pre + one, defaults, region, c, fmt) ==
      Ok(SynthesizeAll(pre, defaults, region, c, fmt).value + hs);
    assert gs[..i + 1] == pre + one;
  }

  lemma SynthesizeOne(g: Group, defaults: Option<seq<Entry>>, region: seq<Instance>, c: Config,
                      fmt: (Tokens, string) -> string)
    requires Synthesize(g, defaults, region, c, fmt).Ok?
    ensures var h := Synthesize(g, defaults, region, c, fmt).value;
      SynthesizeAll([g], defaults, region, c, fmt) == Ok(if h.Some? then [h.value] else [])
  {
    assert [g][1..] == [];
    var h := Synthesize(g, defaults, region, c, fmt).value;
    assert (if h.Some? then [h.value] else []) + [] == (if h.Some? then [h.value] else []);
  }

  /** The exception of one group ends the whole loop. */
  lemma SynthesizeStops(gs: seq<Group>, i: nat, defaults: Option<seq<Entry>>, region: seq<Instance>, c: Config,
                        fmt: (Tokens, string) -> string)
    requires i < |gs| && SynthesizeAll(gs[..i], defaults, region, c, fmt).Ok?
    requires Synthesize(gs[i], defaults, region, c, fmt).Err?
    ensures SynthesizeAll(gs, defaults, region, c, fmt) == Err(Synthesize(gs[i], defaults, region, c, fmt).error)
  {
    assert gs == gs[..i] + gs[i..];
    SynthesizeAllAppend(gs[..i], gs[i..], defaults, region, c, fmt);
    assert gs[i..][0] == gs[i];
  }

  lemma NamesSnoc(region: seq<Instance>, i: nat)
    requires i < |region|
    ensures Names(region[..i + 1]) == Names(region[..i]) + {region[i].name}
  {
    var a, b := region[..i + 1], region[..i];
    assert forall j :: 0 <= j < i ==> a[j] == b[j];
    assert a[i] == region[i];
    forall n | n in Names(a) ensures n in Names(b) + {region[i].name} {
      var j :| 0 <= j < |a| && a[j].name == n;
      if j < i {
        assert b[j].name == n;
      }
    }
    forall n | n in Names(b) ensures n in Names(a) {
      var j :| 0 <= j < |b| && b[j].name == n;
      assert a[j].name == n;
    }
  }

  /** The availability table after the first `i` instances. */
  ghost predicate AvailabilityUpTo(fetched: seq<Instance>, i: nat, avail: map<string, set<string>>)
    requires i <= |fetched|
  {
    avail.Keys == Names(fetched[..i]) &&
    forall j :: 0 <= j < i ==> avail[fetched[j].name] == AvailableZones(fetched[j].info.spotPricing)
  }

  /** The region records after the first `i` instances: those have their ceilings, the rest
      are as fetched. */
  ghost predicate CeilingsUpTo(fetched: seq<Instance>, i: nat, records: seq<Instance>)
    requires i <= |fetched|
  {
    |records| == |fetched| &&
    (forall j :: 0 <= j < i ==> Ceilinged(fetched[j], records[j])) &&
    forall j :: i <= j < |fetched| ==> records[j] == fetched[j]
  }

  lemma AvailabilityStep(fetched: seq<Instance>, i: nat, avail: map<string, set<string>>, zones: set<string>)
    requires i < |fetched| && DistinctNames(fetched) && AvailabilityUpTo(fetched, i, avail)
    requires zones == AvailableZones(fetched[i].info.spotPricing)
    ensures AvailabilityUpTo(fetched, i + 1, avail[fetched[i].name := zones])
  {
    NamesSnoc(fetched, i);
    assert forall j :: 0 <= j < i ==> fetched[j].name != fetched[i].name;
  }

  lemma CeilingStep(fetched: seq<Instance>, i: nat, records: seq<Instance>, maxPrice: Option<real>,
                    next: seq<Instance>)
    requires i < |fetched| && CeilingsUpTo(fetched, i, records)
    requires var spot := fetched[i].info.spotPricing;
      (maxPrice.Some? <==> AvailableZones(spot) != {}) &&
      (maxPrice.Some? ==> IsMaxPrice(spot, maxPrice.value))
    requires next == if maxPrice.Some? then records[i := Instance(fetched[i].name, fetched[i].info.(maxPrice := maxPrice))]
                     else records
    ensures CeilingsUpTo(fetched, i + 1, next)
  {
  }

  lemma FamilyTableStep(fetched: seq<Instance>, i: nat)
    requires i < |fetched| && FamilyTable(fetched[..i]).Ok?
    ensures var name := fetched[i].name;
      var table := FamilyTable(fetched[..i]).value;
      var fam := FamilyOf(name);
      FamilyTable(fetched[..i + 1]) ==
        if TypeOf(name).Err? then Err(IndexError)
        else Ok(table[fam := (if fam in table then table[fam] else []) + [TypeOf(name).value]])
  {
    assert fetched[..i + 1][..i] == fetched[..i] && fetched[..i + 1][i] == fetched[i];
  }

  /** The loop of `query_region_information`: the family table, the spot zones of every
      instance and every spot ceiling, instance by instance. A name without a dot raises
      IndexError and leaves the tables as far as they got. */
  method IndexRegion(fetched: seq<Instance>)
      returns (error: Option<Exception>, table: map<string, seq<string>>,
               avail: map<string, set<string>>, records: seq<Instance>)
    requires DistinctNames(fetched)
    ensures error.None? <==> FamilyTable(fetched).Ok?
    ensures error.Some? ==> error == Some(IndexError)
    ensures error.None? ==>
      table == FamilyTable(fetched).value &&
      AvailabilityUpTo(fetched, |fetched|, avail) &&
      CeilingsUpTo(fetched, |fetched|, records)
  {
    records := fetched;
    avail := map[];
    table := map[];
    for i := 0 to |fetched|
      invariant FamilyTable(fetched[..i]).Ok? && table == FamilyTable(fetched[..i]).value
      invariant AvailabilityUpTo(fetched, i, avail)
      invariant CeilingsUpTo(fetched, i, records)
    {
      var inst := fetched[i];
      var family := FamilyOf(inst.name);
      var t := TypeOf(inst.name);
      FamilyTableStep(fetched, i);
      if t.Err? {
        FamilyTablePrefixErr(fetched, i + 1);
        return Some(IndexError), table, avail, records;
      }
      table := table[family := (if family in table then table[family] else []) + [t.value]];
      var zones, maxPrice := SpotSummary(inst.info.spotPricing);
      AvailabilityStep(fetched, i, avail, zones);
      avail := avail[inst.name := zones];
      var next := if maxPrice.Some? then records[i := Instance(inst.name, inst.info.(maxPrice := maxPrice))]
                  else records;
      CeilingStep(fetched, i, records, maxPrice, next);
      records := next;
    }
    assert fetched[..|fetched|] == fetched;
    error := None;
  }

  class HubFactory {
    var config: Option<Config>
    var nodegroupDefaults: Option<seq<Entry>>
    var groups: Option<seq<RawGroup>>
    var defaultHubConfig: seq<Entry>
    var regionInformation: seq<Instance>
    var hubFamilyInstances: map<string, seq<string>>
    var instanceAvailability: map<string, set<string>>
    var hubInstances: Option<map<string, InstanceRecord>>
    var processedNodegroups: Option<seq<Value>>
    var eksctlConfig: Option<Value>

    /** A fresh factory: nothing configured, no region data, no results. */
    constructor ()
      ensures config.None? && nodegroupDefaults.None? && groups.None? && defaultHubConfig == []
      ensures regionInformation == [] && hubFamilyInstances == map[] && instanceAvailability == map[]
      ensures hubInstances.None? && processedNodegroups.None? && eksctlConfig.None?
    {
      config := None;
      nodegroupDefaults := None;
      groups := None;
      defaultHubConfig := [];
      regionInformation := [];
      hubFamilyInstances := map[];
      instanceAvailability := map[];
      hubInstances := None;
      processedNodegroups := None;
      eksctlConfig := None;
    }

    /** `set_configuration`: the default configuration with the user's section over it, the
        nodegroup defaults, the groups (whose absence raises, after the configuration and the
        defaults are stored), and the hub defaults merged into the stored ones, in place: a merge
        that raises keeps the writes made before the exception. */
    method SetConfiguration(s: Settings) returns (error: Option<Exception>)
      modifies this
      ensures config == Some(ConfigWith(s.config.GetOr(NoUserConfig)))
      ensures nodegroupDefaults == s.nodegroupDefaults
      ensures s.groups.None? ==>
        error == Some(MissingGroups) && groups == old(groups) && defaultHubConfig == old(defaultHubConfig)
      ensures s.groups.Some? ==> groups == s.groups
      ensures s.groups.Some? && s.hubDefaults.None? ==> error.None? && defaultHubConfig == old(defaultHubConfig)
      ensures s.groups.Some? && s.hubDefaults.Some? ==>
        var merged := Merge(s.hubDefaults.value, old(defaultHubConfig));
        (merged.Ok? ==> error.None? && defaultHubConfig == merged.value) &&
        (merged.Err? ==> error == Some(merged.error)) &&
        Outcome(defaultHubConfig, error) == MergeState(s.hubDefaults.value, old(defaultHubConfig))
      ensures regionInformation == old(regionInformation) && hubFamilyInstances == old(hubFamilyInstances)
      ensures instanceAvailability == old(instanceAvailability) && hubInstances == old(hubInstances)
      ensures processedNodegroups == old(processedNodegroups) && eksctlConfig == old(eksctlConfig)
    {
      config := Some(ConfigWith(s.config.GetOr(NoUserConfig)));
      nodegroupDefaults := s.nodegroupDefaults;
      if s.groups.None? {
        return Some(MissingGroups);
      }
      groups := s.groups;
      error := None;
      if s.hubDefaults.Some? {
        defaultHubConfig, error := RecursiveDictCopy(s.hubDefaults.value, defaultHubConfig);
      }
    }

    /** `query_region_information` over the region's instance records (the result of the AWS
        queries): without a configuration the region lookup fails; otherwise the records and the
        three tables `IndexRegion` builds are stored, partial ones when a name has no dot. */
    method QueryRegionInformation(fetched: seq<Instance>) returns (error: Option<Exception>)
      requires DistinctNames(fetched)
      modifies this
      ensures config == old(config) && nodegroupDefaults == old(nodegroupDefaults) && groups == old(groups)
      ensures defaultHubConfig == old(defaultHubConfig) && hubInstances == old(hubInstances)
      ensures processedNodegroups == old(processedNodegroups) && eksctlConfig == old(eksctlConfig)
      ensures config.None? ==>
        error == Some(TypeError("'NoneType' object is not subscriptable")) &&
        regionInformation == old(regionInformation) && hubFamilyInstances == old(hubFamilyInstances) &&
        instanceAvailability == old(instanceAvailability)
      ensures config.Some? ==> (error.None? <==> FamilyTable(fetched).Ok?)
      ensures config.Some? && error.Some? ==> error == Some(IndexError)
      ensures config.Some? && error.None? ==>
        hubFamilyInstances == FamilyTable(fetched).value &&
        AvailabilityUpTo(fetched, |fetched|, instanceAvailability) &&
        CeilingsUpTo(fetched, |fetched|, regionInformation)
    {
      if config.None? {
        return Some(TypeError("'NoneType' object is not subscriptable"));
      }
      var table, avail, records;
      error, table, avail, records := IndexRegion(fetched);
      hubFamilyInstances := table;
      instanceAvailability := avail;
      regionInformation := records;
    }

    /** The loop of `apply_defaults_to_groups`. */
    method ApplyDefaultsToGroups(raws: seq<RawGroup>) returns (r: Result<seq<Group>>)
      ensures r == ApplyDefaults(raws, config)
    {
      if config.None? {
        return Err(ConfigurationNotSet);
      }
      var c := config.value;
      var done: seq<Group> := [];
      for i := 0 to |raws|
        invariant |done| == i
        invariant forall j :: 0 <= j < i ==> DefaultStep(c)(raws[j]) == Ok(done[j])
      {
        var g := DefaultGroup(raws[i], c);
        if g.Err? {
          MapAllStops(raws, DefaultStep(c), i);
          return Err(g.error);
        }
        done := done + [g.value];
      }
      MapAllDone(raws, DefaultStep(c), done);
      r := Ok(done);
    }

    /** The loops of `separate_families`: without a configuration it raises; otherwise the
        family table must be loaded. */
    method SeparateFamiliesOf(gs: seq<Group>) returns (r: Result<seq<Group>>)
      requires config.None? || hubFamilyInstances != map[]
      ensures config.None? ==> r == Err(ConfigurationNotSet)
      ensures config.Some? ==> r == SeparateFamilies(gs, hubFamilyInstances, config.value.region)
    {
      if config.None? {
        return Err(ConfigurationNotSet);
      }
      var table := hubFamilyInstances;
      var region := config.value.region;
      var all: seq<seq<Group>> := [];
      for i := 0 to |gs|
        invariant |all| == i
        invariant forall j :: 0 <= j < i ==> FamilyStep(table, region)(gs[j]) == Ok(all[j])
      {
        var g := gs[i];
        if g.separateFamilies && g.families.Some? && g.families.value != [] {
          var fams := g.families.value;
          var pieces: seq<Group> := [];
          for k := 0 to |fams|
            invariant |pieces| == k
            invariant forall j :: 0 <= j < k ==> MemberStep(g, table, region)(fams[j]) == Ok(pieces[j])
          {
            var fam := fams[k];
            if fam !in table {
              MapAllStops(fams, MemberStep(g, table, region), k);
              MapAllStops(gs, FamilyStep(table, region), i);
              return Err(UnknownFamily(fam, region));
            }
            pieces := pieces + [g.(families := None, instances := Some(Qualify(fam, table[fam])))];
          }
          MapAllDone(fams, MemberStep(g, table, region), pieces);
          all := all + [pieces];
        } else {
          all := all + [[g]];
        }
      }
      MapAllDone(gs, FamilyStep(table, region), all);
      r := Ok(Flatten(all));
    }

    /** The loops of `separate_instances`. */
    method SeparateInstancesOf(gs: seq<Group>) returns (r: seq<Group>)
      ensures r == SeparateInstances(gs)
    {
      var all: seq<seq<Group>> := [];
      for i := 0 to |gs|
        invariant |all| == i && forall j :: 0 <= j < i ==> all[j] == InstanceGroups(gs[j])
      {
        var g := gs[i];
        if g.separateInstances && g.instances.Some? && g.instances.value != [] {
          var ins := g.instances.value;
          var pieces: seq<Group> := [];
          for k := 0 to |ins|
            invariant |pieces| == k && forall j :: 0 <= j < k ==> pieces[j] == g.(instances := Some([ins[j]]))
          {
            pieces := pieces + [g.(instances := Some([ins[k]]))];
          }
          all := all + [pieces];
        } else {
          all := all + [[g]];
        }
      }
      assert all == seq(|gs|, i requires 0 <= i < |gs| => InstanceGroups(gs[i]));
      r := Flatten(all);
    }

    /** The loops of `separate_availability_zones`. */
    method SeparateZonesOf(gs: seq<Group>) returns (r: seq<Group>)
      ensures r == SeparateZones(gs)
    {
      var all: seq<seq<Group>> := [];
      for i := 0 to |gs|
        invariant |all| == i && forall j :: 0 <= j < i ==> all[j] == ZoneGroups(gs[j])
      {
        var g := gs[i];
        if g.separateAvailabilityZones && g.availabilityZones != [] {
          var zs := g.availabilityZones;
          var pieces: seq<Group> := [];
          for k := 0 to |zs|
            invariant |pieces| == k && forall j :: 0 <= j < k ==> pieces[j] == g.(availabilityZones := [zs[j]])
          {
            pieces := pieces + [g.(availabilityZones := [zs[k]])];
          }
          all := all + [pieces];
        } else {
          all := all + [[g]];
        }
      }
      assert all == seq(|gs|, i requires 0 <= i < |gs| => ZoneGroups(gs[i]));
      r := Flatten(all);
    }

    /** The loops of `evaluate_instances_availability_zones`. The availability test runs once
        per zone, so a group without zones is never checked. */
    method EvaluateZonesOf(gs: seq<Group>) returns (r: Result<seq<Group>>)
      ensures r == EvaluateZones(gs, instanceAvailability)
    {
      var avail := instanceAvailability;
      var checked: seq<Group> := [];
      for i := 0 to |gs|
        invariant |checked| == i
        invariant forall j :: 0 <= j < i ==> ValidateStep(avail)(gs[j]) == Ok(checked[j])
      {
        var g := gs[i];
        var zones := g.availabilityZones;
        var valid: seq<string> := [];
        for k := 0 to |zones|
          invariant k == 0 ==> valid == []
          invariant k > 0 ==> g.instances.Some? && FirstUnknown(g.instances.value, avail).None?
          invariant k > 0 ==> valid == KeepZones(zones[..k], g.instances.value, avail)
        {
          if g.instances.None? {
            MapAllStops(gs, ValidateStep(avail), i);
            return Err(TypeError("'NoneType' object is not iterable"));
          }
          var missing := FirstUnknown(g.instances.value, avail);
          if missing.Some? {
            MapAllStops(gs, ValidateStep(avail), i);
            return Err(KeyError(missing.value));
          }
          KeepZonesSnoc(zones[..k], zones[k], g.instances.value, avail);
          assert zones[..k + 1] == zones[..k] + [zones[k]];
          if AvailableFor(zones[k], g.instances.value, avail) {
            valid := valid + [zones[k]];
          }
        }
        assert zones[..|zones|] == zones;
        checked := checked + [g.(availabilityZones := valid)];
      }
      MapAllDone(gs, ValidateStep(avail), checked);
      r := Ok(checked);
    }

    /** `set_hub_instances`, once the region data is loaded. */
    method SetHubInstances(names: seq<string>) returns (error: Option<Exception>)
      requires regionInformation != []
      modifies this
      ensures var hub := HubInstances(names, old(regionInformation));
        (hub.Ok? ==> error.None? && hubInstances == Some(hub.value)) &&
        (hub.Err? ==> error == Some(hub.error) && hubInstances == old(hubInstances))
      ensures config == old(config) && nodegroupDefaults == old(nodegroupDefaults) && groups == old(groups)
      ensures defaultHubConfig == old(defaultHubConfig) && regionInformation == old(regionInformation)
      ensures hubFamilyInstances == old(hubFamilyInstances) && instanceAvailability == old(instanceAvailability)
      ensures processedNodegroups == old(processedNodegroups) && eksctlConfig == old(eksctlConfig)
    {
      var hub := HubInstances(names, regionInformation);
      if hub.Err? {
        return Some(hub.error);
      }
      hubInstances := Some(hub.value);
      error := None;
    }

    /** The loop of `process_groups` over the prepared groups: on-demand groups give a
        formatted nodegroup, spot groups one unless construction yields None or raises
        ValueError, and any other type raises. */
    method CreateNodegroups(gs: seq<Group>, c: Config, fmt: (Tokens, string) -> string)
      returns (r: Result<seq<Value>>)
      ensures r == SynthesizeAll(gs, nodegroupDefaults, regionInformation, c, fmt)
    {
      var defaults := nodegroupDefaults;
      var region := regionInformation;
      var done: seq<Value> := [];
      for i := 0 to |gs|
        invariant SynthesizeAll(gs[..i], defaults, region, c, fmt) == Ok(done)
      {
        var g := gs[i];
        var formatted: Value;
        if g.kind == "onDemand" {
          var ng := OnDemandNodegroup(defaults, g);
          if ng.Err? {
            SynthesizeStops(gs, i, defaults, region, c, fmt);
            return Err(ng.error);
          }
          var f := FormatNodegroup(ng.value, c.region, fmt);
          if f.Err? {
            SynthesizeStops(gs, i, defaults, region, c, fmt);
            return Err(f.error);
          }
          formatted := f.value;
        } else if g.kind == "spot" {
          var spot := SpotNodegroup(defaults, g, region, c.overPayBy);
          if spot == Err(ValueError) || spot == Ok(None) {
            SynthesizeStep(gs, i, defaults, region, c, fmt);
            assert done + [] == done;
            continue;
          }
          if spot.Err? {
            SynthesizeStops(gs, i, defaults, region, c, fmt);
            return Err(spot.error);
          }
          var f := FormatNodegroup(spot.value.value, c.region, fmt);
          if f.Err? {
            SynthesizeStops(gs, i, defaults, region, c, fmt);
            return Err(f.error);
          }
          formatted := f.value;
        } else {
          SynthesizeStops(gs, i, defaults, region, c, fmt);
          return Err(InvalidType);
        }
        SynthesizeStep(gs, i, defaults, region, c, fmt);
        done := done + [formatted];
      }
      assert gs[..|gs|] == gs;
      r := Ok(done);
    }

    /** `process_groups`, with the region data loaded once the groups and the configuration
        are there: the stages in order, the hub's
        instance table stored once the instance split is done, and the nodegroups stored at
        the end. */
    method ProcessGroups(fmt: (Tokens, string) -> string) returns (error: Option<Exception>)
      requires groups.None? || config.None? || (hubFamilyInstances != map[] && regionInformation != [])
      modifies this
      ensures config == old(config) && nodegroupDefaults == old(nodegroupDefaults) && groups == old(groups)
      ensures defaultHubConfig == old(defaultHubConfig) && regionInformation == old(regionInformation)
      ensures hubFamilyInstances == old(hubFamilyInstances) && instanceAvailability == old(instanceAvailability)
      ensures eksctlConfig == old(eksctlConfig)
      ensures groups.None? ==>
        error == Some(AttributeError("groups")) &&
        hubInstances == old(hubInstances) && processedNodegroups == old(processedNodegroups)
      ensures groups.Some? && config.None? ==>
        error == Some(ConfigurationNotSet) &&
        hubInstances == old(hubInstances) && processedNodegroups == old(processedNodegroups)
      ensures groups.Some? && config.Some? ==>
        var hub := HubStage(groups.value, config.value, hubFamilyInstances, regionInformation);
        var p := Processed(groups.value, config.value, hubFamilyInstances, regionInformation,
                           instanceAvailability, nodegroupDefaults, fmt);
        (p.Ok? ==> error.None? && processedNodegroups == Some(p.value)) &&
        (p.Err? ==> error == Some(p.error) && processedNodegroups == old(processedNodegroups)) &&
        hubInstances == (if hub.Ok? then Some(hub.value) else old(hubInstances))
    {
      if groups.None? {
        return Some(AttributeError("groups"));
      }
      var gs0 := ApplyDefaultsToGroups(groups.value);
      if gs0.Err? {
        return Some(gs0.error);
      }
      var c := config.value;
      var gs1 := SeparateFamiliesOf(gs0.value);
      if gs1.Err? {
        return Some(gs1.error);
      }
      var gs2 := SeparateInstancesOf(gs1.value);
      var names := UniqueInstances(gs2);
      if names.Err? {
        return Some(names.error);
      }
      error := SetHubInstances(names.value);
      if error.Some? {
        return;
      }
      var gs3 := EvaluateZonesOf(gs2);
      if gs3.Err? {
        return Some(gs3.error);
      }
      var gs4 := SeparateZonesOf(gs3.value);
      var nodegroups := CreateNodegroups(gs4, c, fmt);
      if nodegroups.Err? {
        return Some(nodegroups.error);
      }
      processedNodegroups := Some(nodegroups.value);
    }

    /** `create_eksctl_config`, with the nodegroups processed. The cluster's zones come from
        the configuration's `availabilityZones`, which the default configuration lacks. */
    method CreateEksctlConfig() returns (error: Option<Exception>)
      requires processedNodegroups.Some? && processedNodegroups.value != []
      modifies this
      ensures config == old(config) && nodegroupDefaults == old(nodegroupDefaults) && groups == old(groups)
      ensures defaultHubConfig == old(defaultHubConfig) && regionInformation == old(regionInformation)
      ensures hubFamilyInstances == old(hubFamilyInstances) && instanceAvailability == old(instanceAvailability)
      ensures hubInstances == old(hubInstances) && processedNodegroups == old(processedNodegroups)
      ensures config.None? ==>
        error == Some(TypeError("'NoneType' object is not subscriptable")) && eksctlConfig == old(eksctlConfig)
      ensures config.Some? && config.value.availabilityZones.None? ==>
        error == Some(KeyError("availabilityZones")) && eksctlConfig == old(eksctlConfig)
      ensures config.Some? && config.value.availabilityZones.Some? ==>
        error.None? &&
        eksctlConfig == Some(EksctlDocument(config.value, config.value.availabilityZones.value, processedNodegroups.value))
    {
      if config.None? {
        return Some(TypeError("'NoneType' object is not subscriptable"));
      }
      var c := config.value;
      if c.availabilityZones.None? {
        return Some(KeyError("availabilityZones"));
      }
      eksctlConfig := Some(EksctlDocument(c, c.availabilityZones.value, processedNodegroups.value));
      error := None;
    }
  }
}
