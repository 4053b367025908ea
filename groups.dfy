/** The hub configuration and the group transforms of `hubFactory` (aws_hub/aws_hub.py):
    defaulting, the family split, the instance split, zone validation and the zone split, as
    functions over sequences of groups. The class in `factory.dfy` runs the same transforms as
    loops and is proved to compute these functions. */
module Groups {
  import opened Wrappers
  import opened Tree
  import opened Ec2
  import opened Region

  // ---------------------------------------------------------------------------------------
  // Generic list plumbing
  // ---------------------------------------------------------------------------------------

  /** Apply `f` to every element in order; the first exception ends the loop. */
  function MapAll<A, B>(xs: seq<A>, f: A -> Result<B>): (r: Result<seq<B>>)
    ensures r.Ok? <==> forall i :: 0 <= i < |xs| ==> f(xs[i]).Ok?
    ensures r.Ok? ==> |r.value| == |xs| && forall i :: 0 <= i < |xs| ==> r.value[i] == f(xs[i]).value
    ensures r.Err? ==>
      exists i :: 0 <= i < |xs| && f(xs[i]) == Err(r.error) && (forall j :: 0 <= j < i ==> f(xs[j]).Ok?)
  {
    if xs == [] then Ok([])
    else
      var h :- f(xs[0]);
      var t :- MapAll(xs[1..], f);
      Ok([h] + t)
  }

  /** A loop that applied `f` successfully to every element built the same list as `MapAll`. */
  lemma MapAllDone<A, B>(xs: seq<A>, f: A -> Result<B>, ys: seq<B>)
    requires |ys| == |xs| && forall j :: 0 <= j < |xs| ==> f(xs[j]) == Ok(ys[j])
    ensures MapAll(xs, f) == Ok(ys)
  {
    var r := MapAll(xs, f);
    assert forall j :: 0 <= j < |xs| ==> f(xs[j]).Ok?;
    assert r.Ok?;
    assert forall j :: 0 <= j < |xs| ==> r.value[j] == ys[j];
    assert r.value == ys;
  }

  /** A loop that stopped at the first element `f` fails on raised what `MapAll` raises. */
  lemma MapAllStops<A, B>(xs: seq<A>, f: A -> Result<B>, i: nat)
    requires i < |xs| && f(xs[i]).Err?
    requires forall j :: 0 <= j < i ==> f(xs[j]).Ok?
    ensures MapAll(xs, f) == Err(f(xs[i]).error)
  {
    var r := MapAll(xs, f);
    assert r.Err?;
    var k :| 0 <= k < |xs| && f(xs[k]) == Err(r.error) && (forall j :: 0 <= j < k ==> f(xs[j]).Ok?);
    assert k == i;
  }

  /** `sum(lists, [])`: the lists concatenated in order. */
  function Flatten<T>(xss: seq<seq<T>>): seq<T> {
    if xss == [] then [] else xss[0] + Flatten(xss[1..])
  }

  /** Appending one more list to the accumulator appends its elements. */
  lemma {:induction false} FlattenSnoc<T>(xss: seq<seq<T>>, xs: seq<T>)
    ensures Flatten(xss + [xs]) == Flatten(xss) + xs
  {
    if xss == [] {
      assert [] + [xs] == [xs];
      assert Flatten([xs]) == xs + Flatten([xs][1..]);
    } else {
      assert (xss + [xs])[1..] == xss[1..] + [xs];
      FlattenSnoc(xss[1..], xs);
    }
  }

  lemma {:induction false} FlattenAppend<T>(a: seq<seq<T>>, b: seq<seq<T>>)
    ensures Flatten(a + b) == Flatten(a) + Flatten(b)
  {
    if a == [] {
      assert a + b == b;
    } else {
      assert (a + b)[1..] == a[1..] + b;
      FlattenAppend(a[1..], b);
    }
  }

  /** Concatenating singletons gives the elements back. */
  lemma {:induction false} FlattenSingletons<T>(xs: seq<T>, xss: seq<seq<T>>)
    requires |xss| == |xs| && forall i :: 0 <= i < |xs| ==> xss[i] == [xs[i]]
    ensures Flatten(xss) == xs
  {
    if xs != [] {
      FlattenSingletons(xs[1..], xss[1..]);
    }
  }

  // ---------------------------------------------------------------------------------------
  // Configuration and groups
  // ---------------------------------------------------------------------------------------

  /** The hub configuration (`self.config`). The default configuration stores its zone
      suffixes under the misspelled key `avalabilityZones`, so `availabilityZones` is present
      only when the user supplies it. */
  datatype Config = Config(
    region: string,
    avalabilityZones: seq<string>,
    availabilityZones: Option<seq<string>>,
    operatingSystem: string,
    clusterName: string,
    overPayBy: real)

  /** `default_config`. */
  const DefaultConfig := Config("us-west-2", ["a", "b", "c", "d"], None, "Linux", "eks-cluster", 0.0)

  /** The `config` section of the user's settings: every key is optional. */
  datatype UserConfig = UserConfig(
    region: Option<string>,
    avalabilityZones: Option<seq<string>>,
    availabilityZones: Option<seq<string>>,
    operatingSystem: Option<string>,
    clusterName: Option<string>,
    overPayBy: Option<real>)

  /** The default configuration with the user's section copied over it: every key the user
      gives replaces the default, every other key keeps it. */
  function ConfigWith(u: UserConfig): (c: Config)
    ensures c.region == u.region.GetOr("us-west-2")
    ensures c.avalabilityZones == u.avalabilityZones.GetOr(["a", "b", "c", "d"])
    ensures c.availabilityZones == u.availabilityZones
    ensures c.operatingSystem == u.operatingSystem.GetOr("Linux")
    ensures c.clusterName == u.clusterName.GetOr("eks-cluster")
    ensures c.overPayBy == u.overPayBy.GetOr(0.0)
  {
    var d := DefaultConfig;
    Config(
      if u.region.Some? then u.region.value else d.region,
      if u.avalabilityZones.Some? then u.avalabilityZones.value else d.avalabilityZones,
      if u.availabilityZones.Some? then u.availabilityZones else d.availabilityZones,
      if u.operatingSystem.Some? then u.operatingSystem.value else d.operatingSystem,
      if u.clusterName.Some? then u.clusterName.value else d.clusterName,
      if u.overPayBy.Some? then u.overPayBy.value else d.overPayBy)
  }

  /** A group as the user writes it: every key is optional. */
  datatype RawGroup = RawGroup(
    families: Option<seq<string>>,
    instances: Option<seq<string>>,
    kind: Option<string>,
    separateAvailabilityZones: Option<bool>,
    separateInstances: Option<bool>,
    separateFamilies: Option<bool>,
    nodegroupOverrides: Option<seq<Entry>>,
    availabilityZones: Option<seq<string>>)

  /** A group after defaulting. `families` and `instances` stay optional (None is their
      default); `kind` is the group's 'type'. */
  datatype Group = Group(
    families: Option<seq<string>>,
    instances: Option<seq<string>>,
    kind: string,
    separateAvailabilityZones: bool,
    separateInstances: bool,
    separateFamilies: bool,
    nodegroupOverrides: seq<Entry>,
    availabilityZones: seq<string>)

  /** `[region + az for az in suffixes]`. */
  function Prefixed(region: string, suffixes: seq<string>): (r: seq<string>)
    ensures |r| == |suffixes|
    ensures forall i :: 0 <= i < |suffixes| ==> r[i] == region + suffixes[i]
  {
    seq(|suffixes|, i requires 0 <= i < |suffixes| => region + suffixes[i])
  }

  // ---------------------------------------------------------------------------------------
  // apply_defaults_to_groups (aws_hub.py:193-205)
  // ---------------------------------------------------------------------------------------

  /** One group: `default_group` with the user's group copied over it; zones come from the
      group or else from the configuration's `availabilityZones` (KeyError when neither has
      them) and are prefixed with the region. */
  function DefaultGroup(raw: RawGroup, c: Config): Result<Group> {
    var overrides :- Merge(raw.nodegroupOverrides.GetOr([]), []);
    var suffixes :-
      if raw.availabilityZones.Some? then Ok(raw.availabilityZones.value)
      else if c.availabilityZones.Some? then Ok(c.availabilityZones.value)
      else Err(KeyError("availabilityZones"));
    Ok(Group(
      raw.families,
      raw.instances,
      raw.kind.GetOr("onDemand"),
      raw.separateAvailabilityZones.GetOr(false),
      raw.separateInstances.GetOr(false),
      raw.separateFamilies.GetOr(false),
      overrides,
      Prefixed(c.region, suffixes)))
  }

  function ApplyDefaults(raws: seq<RawGroup>, config: Option<Config>): Result<seq<Group>> {
    if config.None? then Err(ConfigurationNotSet)
    else MapAll(raws, DefaultStep(config.value))
  }

  /** `DefaultGroup` under a fixed configuration, as a function of the group. */
  function DefaultStep(c: Config): RawGroup -> Result<Group> {
    (raw: RawGroup) => DefaultGroup(raw, c)
  }

  /** A defaulted group keeps the user's fields, takes the defaults for the rest, receives a
      copy of the user's overrides, and lists its zones as region + suffix in order; it fails
      only for lack of a zone list. */
  lemma DefaultGroupSpec(raw: RawGroup, c: Config)
    requires WellFormedEntries(raw.nodegroupOverrides.GetOr([]))
    ensures DefaultGroup(raw, c).Err? <==> raw.availabilityZones.None? && c.availabilityZones.None?
    ensures DefaultGroup(raw, c).Err? ==> DefaultGroup(raw, c).error == KeyError("availabilityZones")
    ensures DefaultGroup(raw, c).Ok? ==>
      var g := DefaultGroup(raw, c).value;
      g.families == raw.families && g.instances == raw.instances &&
      g.kind == raw.kind.GetOr("onDemand") &&
      g.separateAvailabilityZones == raw.separateAvailabilityZones.GetOr(false) &&
      g.separateInstances == raw.separateInstances.GetOr(false) &&
      g.separateFamilies == raw.separateFamilies.GetOr(false) &&
      g.nodegroupOverrides == raw.nodegroupOverrides.GetOr([]) &&
      g.availabilityZones == Prefixed(c.region, raw.availabilityZones.GetOr(c.availabilityZones.GetOr([])))
  {
    MergeFresh(raw.nodegroupOverrides.GetOr([]), []);
    assert [] + raw.nodegroupOverrides.GetOr([]) == raw.nodegroupOverrides.GetOr([]);
  }

  // ---------------------------------------------------------------------------------------
  // separate_families (aws_hub.py:208-227)
  // ---------------------------------------------------------------------------------------

  /** The groups one group becomes: with `separateFamilies` set and a non-empty family list,
      one group per family whose instances are the family's types qualified by the family;
      otherwise the group itself. */
  function FamilyGroups(g: Group, table: map<string, seq<string>>, region: string): Result<seq<Group>> {
    if g.separateFamilies && g.families.Some? && g.families.value != [] then
      MapAll(g.families.value, MemberStep(g, table, region))
    else Ok([g])
  }

  /** The group made for one family: the family's types qualified by the family. */
  function MemberStep(g: Group, table: map<string, seq<string>>, region: string): string -> Result<Group> {
    (fam: string) =>
      if fam in table then Ok(g.(families := None, instances := Some(Qualify(fam, table[fam]))))
      else Err(UnknownFamily(fam, region))
  }

  function FamilyStep(table: map<string, seq<string>>, region: string): Group -> Result<seq<Group>> {
    (g: Group) => FamilyGroups(g, table, region)
  }

  function SeparateFamilies(gs: seq<Group>, table: map<string, seq<string>>, region: string): Result<seq<Group>> {
    var parts :- MapAll(gs, FamilyStep(table, region));
    Ok(Flatten(parts))
  }

  /** A group split by family becomes one group per family, in family order, each without a
      family list and holding exactly the region's instances of its family; a family the region
      lacks raises. */
  lemma FamilyGroupsSpec(g: Group, region: seq<Instance>, regionName: string)
    requires DottedNames(region)
    requires g.separateFamilies && g.families.Some? && g.families.value != []
    ensures FamilyTable(region).Ok?
    ensures var r := FamilyGroups(g, FamilyTable(region).value, regionName);
      var fams := g.families.value;
      (r.Ok? <==> forall i :: 0 <= i < |fams| ==> fams[i] in Families(region)) &&
      (r.Err? ==> exists i :: 0 <= i < |fams| && fams[i] !in Families(region) &&
                             r.error == UnknownFamily(fams[i], regionName)) &&
      (r.Ok? ==>
        |r.value| == |fams| &&
        forall i :: 0 <= i < |fams| ==>
          r.value[i] == g.(families := None, instances := Some(FamilyMembers(region, fams[i]))))
  {
    FamilyTableSpec(region);
  }

  /** Groups that are not split by family pass through unchanged and in order. */
  lemma {:induction false} SeparateFamiliesUnflagged(gs: seq<Group>, table: map<string, seq<string>>, region: string)
    requires forall i :: 0 <= i < |gs| ==>
      !(gs[i].separateFamilies && gs[i].families.Some? && gs[i].families.value != [])
    ensures SeparateFamilies(gs, table, region) == Ok(gs)
  {
    var parts := MapAll(gs, FamilyStep(table, region)).value;
    FlattenSingletons(gs, parts);
  }

  // ---------------------------------------------------------------------------------------
  // separate_instances (aws_hub.py:237-251) and separate_availability_zones (253-267)
  // ---------------------------------------------------------------------------------------

  predicate SplitsInstances(g: Group) {
    g.separateInstances && g.instances.Some? && g.instances.value != []
  }

  /** One group per instance, each holding that instance alone, or the group itself. */
  function InstanceGroups(g: Group): seq<Group> {
    if SplitsInstances(g) then
      var ins := g.instances.value;
      seq(|ins|, i requires 0 <= i < |ins| => g.(instances := Some([ins[i]])))
    else [g]
  }

  function SeparateInstances(gs: seq<Group>): seq<Group> {
    Flatten(seq(|gs|, i requires 0 <= i < |gs| => InstanceGroups(gs[i])))
  }

  predicate SplitsZones(g: Group) {
    g.separateAvailabilityZones && g.availabilityZones != []
  }

  /** One group per zone, each holding that zone alone, or the group itself. */
  function ZoneGroups(g: Group): seq<Group> {
    if SplitsZones(g) then
      var zs := g.availabilityZones;
      seq(|zs|, i requires 0 <= i < |zs| => g.(availabilityZones := [zs[i]]))
    else [g]
  }

  function SeparateZones(gs: seq<Group>): seq<Group> {
    Flatten(seq(|gs|, i requires 0 <= i < |gs| => ZoneGroups(gs[i])))
  }

  /** The instance lists of the groups. */
  function InstanceLists(gs: seq<Group>): seq<seq<string>> {
    seq(|gs|, i requires 0 <= i < |gs| => gs[i].instances.GetOr([]))
  }

  function ZoneLists(gs: seq<Group>): seq<seq<string>> {
    seq(|gs|, i requires 0 <= i < |gs| => gs[i].availabilityZones)
  }

  /** Splitting by instance and concatenating the pieces' instance lists gives the group's list
      back; every piece equals the group except for its instance list. */
  lemma InstanceSplitRejoin(g: Group)
    requires SplitsInstances(g)
    ensures Flatten(InstanceLists(InstanceGroups(g))) == g.instances.value
    ensures forall h :: h in InstanceGroups(g) ==> h.(instances := g.instances) == g
  {
    FlattenSingletons(g.instances.value, InstanceLists(InstanceGroups(g)));
  }

  /** Splitting by zone and concatenating the pieces' zone lists gives the group's list back;
      every piece equals the group except for its zone list. */
  lemma ZoneSplitRejoin(g: Group)
    requires SplitsZones(g)
    ensures Flatten(ZoneLists(ZoneGroups(g))) == g.availabilityZones
    ensures forall h :: h in ZoneGroups(g) ==> h.(availabilityZones := g.availabilityZones) == g
  {
    FlattenSingletons(g.availabilityZones, ZoneLists(ZoneGroups(g)));
  }

  /** The number of groups the instance split produces. */
  function InstanceCount(gs: seq<Group>): nat {
    if gs == [] then 0
    else (if SplitsInstances(gs[0]) then |gs[0].instances.value| else 1) + InstanceCount(gs[1..])
  }

  function ZoneCount(gs: seq<Group>): nat {
    if gs == [] then 0
    else (if SplitsZones(gs[0]) then |gs[0].availabilityZones| else 1) + ZoneCount(gs[1..])
  }

  /** The output length is the sum of the per-group counts. */
  lemma {:induction false} SeparateInstancesCount(gs: seq<Group>)
    ensures |SeparateInstances(gs)| == InstanceCount(gs)
  {
    if gs != [] {
      SeparateInstancesCount(gs[1..]);
      SeparateInstancesCons(gs);
    }
  }

  lemma SeparateInstancesCons(gs: seq<Group>)
    requires gs != []
    ensures SeparateInstances(gs) == InstanceGroups(gs[0]) + SeparateInstances(gs[1..])
  {
    var parts := seq(|gs|, i requires 0 <= i < |gs| => InstanceGroups(gs[i]));
    assert parts[1..] == seq(|gs[1..]|, i requires 0 <= i < |gs[1..]| => InstanceGroups(gs[1..][i]));
  }

  lemma {:induction false} SeparateZonesCount(gs: seq<Group>)
    ensures |SeparateZones(gs)| == ZoneCount(gs)
  {
    if gs != [] {
      SeparateZonesCount(gs[1..]);
      SeparateZonesCons(gs);
    }
  }

  lemma SeparateZonesCons(gs: seq<Group>)
    requires gs != []
    ensures SeparateZones(gs) == ZoneGroups(gs[0]) + SeparateZones(gs[1..])
  {
    var parts := seq(|gs|, i requires 0 <= i < |gs| => ZoneGroups(gs[i]));
    assert parts[1..] == seq(|gs[1..]|, i requires 0 <= i < |gs[1..]| => ZoneGroups(gs[1..][i]));
  }

  /** Splitting twice is splitting once: every piece already holds a single instance. */
  lemma {:induction false} SeparateInstancesIdempotent(gs: seq<Group>)
    ensures SeparateInstances(SeparateInstances(gs)) == SeparateInstances(gs)
  {
    if gs != [] {
      SeparateInstancesCons(gs);
      SeparateInstancesIdempotent(gs[1..]);
      var head := InstanceGroups(gs[0]);
      SeparateInstancesAppend(head, SeparateInstances(gs[1..]));
      InstancePiecesFixed(head);
    }
  }

  lemma {:induction false} SeparateInstancesAppend(a: seq<Group>, b: seq<Group>)
    ensures SeparateInstances(a + b) == SeparateInstances(a) + SeparateInstances(b)
  {
    if a == [] {
      assert a + b == b;
    } else {
      SeparateInstancesCons(a + b);
      SeparateInstancesCons(a);
      assert (a + b)[1..] == a[1..] + b;
      SeparateInstancesAppend(a[1..], b);
    }
  }

  /** The pieces of one group split into themselves. */
  lemma {:induction false} InstancePiecesFixed(gs: seq<Group>)
    requires forall i :: 0 <= i < |gs| ==>
      (!gs[i].separateInstances || gs[i].instances.None? || |gs[i].instances.value| <= 1)
    ensures SeparateInstances(gs) == gs
  {
    if gs != [] {
      SeparateInstancesCons(gs);
      InstancePiecesFixed(gs[1..]);
      var g := gs[0];
      if SplitsInstances(g) {
        assert InstanceGroups(g) == [g.(instances := Some([g.instances.value[0]]))];
        assert [g.instances.value[0]] == g.instances.value;
      }
    }
  }

  // ---------------------------------------------------------------------------------------
  // evaluate_instances_availability_zones (aws_hub.py:380-397)
  // ---------------------------------------------------------------------------------------

  /** The first instance of the group the availability table does not know. */
  function FirstUnknown(insts: seq<string>, avail: map<string, set<string>>): (r: Option<string>)
    ensures r.None? <==> forall k :: 0 <= k < |insts| ==> insts[k] in avail
    ensures r.Some? ==>
      exists k :: 0 <= k < |insts| && insts[k] == r.value && r.value !in avail &&
        (forall j :: 0 <= j < k ==> insts[j] in avail)
  {
    if insts == [] then None
    else if insts[0] !in avail then Some(insts[0])
    else
      var r := FirstUnknown(insts[1..], avail);
      assert forall k :: 1 <= k < |insts| ==> insts[k] == insts[1..][k - 1];
      r
  }

  /** `all([az in availability[i] for i in instances])`; true for an empty instance list. */
  predicate AvailableFor(z: string, insts: seq<string>, avail: map<string, set<string>>)
    requires forall k :: 0 <= k < |insts| ==> insts[k] in avail
  {
    forall k :: 0 <= k < |insts| ==> z in avail[insts[k]]
  }

  /** The zones kept, in their original order. */
  function KeepZones(zones: seq<string>, insts: seq<string>, avail: map<string, set<string>>): seq<string>
    requires forall k :: 0 <= k < |insts| ==> insts[k] in avail
  {
    if zones == [] then []
    else (if AvailableFor(zones[0], insts, avail) then [zones[0]] else []) + KeepZones(zones[1..], insts, avail)
  }

  /** Checking one more zone appends it when every instance is available there. */
  lemma {:induction false} KeepZonesSnoc(zones: seq<string>, z: string, insts: seq<string>, avail: map<string, set<string>>)
    requires forall k :: 0 <= k < |insts| ==> insts[k] in avail
    ensures KeepZones(zones + [z], insts, avail) ==
      KeepZones(zones, insts, avail) + (if AvailableFor(z, insts, avail) then [z] else [])
  {
    if zones == [] {
      assert [] + [z] == [z];
      assert [z][1..] == [];
    } else {
      assert (zones + [z])[0] == zones[0] && (zones + [z])[1..] == zones[1..] + [z];
      KeepZonesSnoc(zones[1..], z, insts, avail);
      var head := if AvailableFor(zones[0], insts, avail) then [zones[0]] else [];
      var tail := if AvailableFor(z, insts, avail) then [z] else [];
      AppendAssoc(head, KeepZones(zones[1..], insts, avail), tail);
    }
  }

  /** `a` is `b` with some elements left out, the rest in order. */
  predicate IsSubsequence(a: seq<string>, b: seq<string>) {
    if a == [] then true
    else if b == [] then false
    else if a[0] == b[0] then IsSubsequence(a[1..], b[1..])
    else IsSubsequence(a, b[1..])
  }

  /** The kept zones are exactly the group's zones where every instance is available, in their
      original order; with no instances every zone is kept. */
  lemma {:induction false} KeepZonesSpec(zones: seq<string>, insts: seq<string>, avail: map<string, set<string>>)
    requires forall k :: 0 <= k < |insts| ==> insts[k] in avail
    ensures forall z :: z in KeepZones(zones, insts, avail) <==> z in zones && AvailableFor(z, insts, avail)
    ensures IsSubsequence(KeepZones(zones, insts, avail), zones)
    ensures insts == [] ==> KeepZones(zones, insts, avail) == zones
  {
    if zones != [] {
      KeepZonesSpec(zones[1..], insts, avail);
      assert zones == [zones[0]] + zones[1..];
      var rest := KeepZones(zones[1..], insts, avail);
      if AvailableFor(zones[0], insts, avail) {
        assert KeepZones(zones, insts, avail) == [zones[0]] + rest;
        assert ([zones[0]] + rest)[1..] == rest;
      } else {
        assert KeepZones(zones, insts, avail) == rest;
        assert rest != [] ==> rest[0] in rest && rest[0] != zones[0];
      }
    }
  }

  /** One group's zone check: an empty zone list is kept as it is; otherwise the instance list
      must exist (TypeError) and every instance must be known (KeyError), and the zones where
      some instance is unavailable are removed. */
  function ValidateZones(g: Group, avail: map<string, set<string>>): Result<Group> {
    if g.availabilityZones == [] then Ok(g)
    else if g.instances.None? then Err(TypeError("'NoneType' object is not iterable"))
    else
      var insts := g.instances.value;
      match FirstUnknown(insts, avail)
      case Some(m) => Err(KeyError(m))
      case None => Ok(g.(availabilityZones := KeepZones(g.availabilityZones, insts, avail)))
  }

  function EvaluateZones(gs: seq<Group>, avail: map<string, set<string>>): Result<seq<Group>> {
    MapAll(gs, ValidateStep(avail))
  }

  function ValidateStep(avail: map<string, set<string>>): Group -> Result<Group> {
    (g: Group) => ValidateZones(g, avail)
  }

  /** Zone validation keeps the group count and changes nothing but the zone lists, each of
      which becomes a subsequence of the original holding exactly the zones where all of the
      group's instances are available. */
  lemma EvaluateZonesSpec(gs: seq<Group>, avail: map<string, set<string>>)
    requires EvaluateZones(gs, avail).Ok?
    ensures var r := EvaluateZones(gs, avail).value;
      |r| == |gs| &&
      forall i :: 0 <= i < |gs| ==>
        r[i].(availabilityZones := gs[i].availabilityZones) == gs[i] &&
        IsSubsequence(r[i].availabilityZones, gs[i].availabilityZones) &&
        (r[i].availabilityZones != [] ==> ZonesServeAll(r[i], avail))
  {
    var r := EvaluateZones(gs, avail).value;
    forall i | 0 <= i < |gs|
      ensures IsSubsequence(r[i].availabilityZones, gs[i].availabilityZones)
      ensures r[i].availabilityZones != [] ==> ZonesServeAll(r[i], avail)
    {
      assert ValidateZones(gs[i], avail).Ok?;
      SubsequenceRefl(gs[i].availabilityZones);
      if gs[i].availabilityZones != [] {
        KeepZonesSpec(gs[i].availabilityZones, gs[i].instances.value, avail);
      }
    }
  }

  lemma {:induction false} SubsequenceRefl(a: seq<string>)
    ensures IsSubsequence(a, a)
  {
    if a != [] {
      SubsequenceRefl(a[1..]);
    }
  }

  /** Every zone of the group is available for every instance of the group. */
  ghost predicate ZonesServeAll(g: Group, avail: map<string, set<string>>) {
    g.instances.Some? &&
    (forall k :: 0 <= k < |g.instances.value| ==> g.instances.value[k] in avail) &&
    forall z :: z in g.availabilityZones ==> AvailableFor(z, g.instances.value, avail)
  }

  /** Validation runs before the zone split, so every nodegroup the split produces from a
      validated group with zones runs only in zones where all of its instances are available. */
  lemma ValidatedThenSplit(g: Group, avail: map<string, set<string>>)
    requires g.availabilityZones != [] && ZonesServeAll(g, avail)
    ensures forall h :: h in ZoneGroups(g) ==> ZonesServeAll(h, avail)
  {
  }

  // ---------------------------------------------------------------------------------------
  // get_unique_instances (aws_hub.py:297-302) and set_hub_instances (371-373)
  // ---------------------------------------------------------------------------------------

  /** The instances the groups name, each once. `sum` raises TypeError at a group without an
      instance list. The order of Python's `set` is unspecified; this model keeps first
      occurrences in group order. */
  function UniqueInstances(gs: seq<Group>): Result<seq<string>> {
    if exists i :: 0 <= i < |gs| && gs[i].instances.None? then
      Err(TypeError("can only concatenate list (not \"NoneType\") to list"))
    else Ok(Dedup(Flatten(InstanceLists(gs)), []))
  }

  /** Keep the first occurrence of every element. */
  function Dedup(xs: seq<string>, seen: seq<string>): (r: seq<string>)
    requires forall i, j :: 0 <= i < j < |seen| ==> seen[i] != seen[j]
    ensures forall i, j :: 0 <= i < j < |r| ==> r[i] != r[j]
    ensures forall x :: x in r <==> x in seen || x in xs
    ensures |seen| <= |r| && r[..|seen|] == seen
  {
    if xs == [] then seen
    else if xs[0] in seen then Dedup(xs[1..], seen)
    else Dedup(xs[1..], seen + [xs[0]])
  }

  /** The instances named by the groups, each once, exactly when every group has an instance
      list. */
  lemma UniqueInstancesSpec(gs: seq<Group>)
    ensures UniqueInstances(gs).Ok? <==> forall i :: 0 <= i < |gs| ==> gs[i].instances.Some?
    ensures UniqueInstances(gs).Ok? ==>
      var u := UniqueInstances(gs).value;
      (forall i, j :: 0 <= i < j < |u| ==> u[i] != u[j]) &&
      forall x :: x in u <==> exists i :: 0 <= i < |gs| && x in gs[i].instances.value
  {
    if forall i :: 0 <= i < |gs| ==> gs[i].instances.Some? {
      FlattenMembers(InstanceLists(gs));
      assert forall i :: 0 <= i < |gs| ==> InstanceLists(gs)[i] == gs[i].instances.value;
    }
  }

  lemma {:induction false} FlattenMembers<T>(xss: seq<seq<T>>)
    ensures forall x :: x in Flatten(xss) <==> exists i :: 0 <= i < |xss| && x in xss[i]
  {
    if xss != [] {
      FlattenMembers(xss[1..]);
      forall x ensures (exists i :: 0 <= i < |xss| && x in xss[i]) <==>
        x in xss[0] || exists i :: 0 <= i < |xss[1..]| && x in xss[1..][i]
      {
        if exists i :: 0 <= i < |xss| && x in xss[i] {
          var i :| 0 <= i < |xss| && x in xss[i];
          if i > 0 {
            assert x in xss[1..][i - 1];
          }
        }
        if exists i :: 0 <= i < |xss[1..]| && x in xss[1..][i] {
          var i :| 0 <= i < |xss[1..]| && x in xss[1..][i];
          assert x in xss[i + 1];
        }
      }
    }
  }

  /** `{instance : region_information[instance] for instance in instances}`: the first instance
      the region lacks raises KeyError. */
  function HubInstances(names: seq<string>, region: seq<Instance>): Result<map<string, InstanceRecord>> {
    if names == [] then Ok(map[])
    else
      match Lookup(region, names[0])
      case None => Err(KeyError(names[0]))
      case Some(rec) =>
        var rest :- HubInstances(names[1..], region);
        Ok(rest[names[0] := rec])
  }

  /** The hub's instance table holds exactly the named instances with their region records,
      and exists exactly when the region knows every one of them. */
  lemma {:induction false} HubInstancesSpec(names: seq<string>, region: seq<Instance>)
    ensures HubInstances(names, region).Ok? <==> forall i :: 0 <= i < |names| ==> names[i] in Names(region)
    ensures HubInstances(names, region).Ok? ==>
      var h := HubInstances(names, region).value;
      (forall n :: n in h <==> n in names) &&
      forall n :: n in h ==> Some(h[n]) == Lookup(region, n)
  {
    if names != [] {
      HubInstancesSpec(names[1..], region);
      assert forall i :: 1 <= i < |names| ==> names[i] == names[1..][i - 1];
      assert names == [names[0]] + names[1..];
    }
  }
}
