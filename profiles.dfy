/** `make_profile_list` (aws_hub/aws_hub.py:20-98): one JupyterHub profile per instance record,
    with its display name, family, category, description, the AWS facts it shows and the
    resource limits kubespawner applies. Float parsing is a parameter (`parse`, Python's
    `float()` on a string); the rounding and formatting of prices and memory are not modelled. */
module Profiles {
  import opened Wrappers
  import opened Strs
  import opened Ec2
  import opened Region
  import opened Groups

  /** A profile, with the keys the source fills in: the top level (`display_name`, `family`,
      `category`, `description`), the `aws` part (`instance_size`, `price`, `network`, `cpu`,
      `memory`, `storage`, `gpu`) and the `kubespawner_override` part (`cpu_limit`, the memory
      it is derived from, and the `nvidia.com/gpu` limit). */
  datatype Profile = Profile(
    displayName: string,
    family: string,
    category: Option<string>,
    description: string,
    instanceSize: string,
    price: real,
    network: Option<string>,
    cpu: Option<string>,
    memory: Option<string>,
    storage: Option<string>,
    gpu: Option<string>,
    cpuLimit: real,
    memoryGiB: real,
    gpuLimit: string)

  /** Python truthiness of a hardware attribute: None and the empty string are false. */
  predicate Truthy(o: Option<string>) {
    o.Some? && o.value != ""
  }

  /** `"{}".format(o)`: None is written `None`. */
  function Shown(o: Option<string>): string {
    if o.None? then "None" else o.value
  }

  /** `hardware[key]`. */
  function Field(hw: map<string, Option<string>>, key: string): (r: Result<Option<string>>)
    ensures r.Ok? <==> key in hw
    ensures r.Ok? ==> r.value == hw[key]
    ensures r.Err? ==> r.error == KeyError(key)
  {
    if key in hw then Ok(hw[key]) else Err(KeyError(key))
  }

  /** `float(s)`: None is a TypeError, a string `parse` rejects a ValueError. */
  function Float(s: Option<string>, parse: string -> Option<real>): (r: Result<real>)
    ensures s.None? ==> r == Err(TypeError("float() argument must be a string or a real number, not 'NoneType'"))
    ensures s.Some? ==> (r.Ok? <==> parse(s.value).Some?)
    ensures r.Ok? ==> s.Some? && r.value == parse(s.value).value
    ensures s.Some? && r.Err? ==> r.error == ValueError
  {
    if s.None? then Err(TypeError("float() argument must be a string or a real number, not 'NoneType'"))
    else if parse(s.value).None? then Err(ValueError)
    else Ok(parse(s.value).value)
  }

  /** `s.replace(",", "")`. */
  function WithoutCommas(s: string): (r: string)
    ensures |r| <= |s|
    ensures forall i :: 0 <= i < |r| ==> r[i] != ','
    ensures forall i :: 0 <= i < |s| && s[i] != ',' ==> s[i] in r
  {
    if s == [] then []
    else (if s[0] == ',' then [] else [s[0]]) + WithoutCommas(s[1..])
  }

  /** Dropping the commas is splitting at them and joining the pieces with nothing between:
      the other characters stay, in order and with their multiplicity. */
  lemma {:induction false} WithoutCommasJoinSplit(s: string)
    ensures WithoutCommas(s) == Join(Split(s, ","), "")
    decreases |s|
  {
    if s != [] {
      WithoutCommasJoinSplit(s[1..]);
      if s[0] == ',' {
        assert s[..1] == ",";
        SplitAtSeparator(s, ",");
        JoinEmptyFirst(Split(s[1..], ","), "");
      } else {
        assert s[..1] != ",";
        var rest := Split(s[1..], ",");
        assert Split(s, ",") == [[s[0]] + rest[0]] + rest[1..];
        JoinConsPiece(s[0], rest, "");
      }
    }
  }

  /** The description: CPU and RAM, and the GPU count when there is one. */
  function Description(cpu: Option<string>, memory: Option<string>, gpu: Option<string>): string {
    var base := Shown(cpu) + " CPU, " + Shown(memory) + " RAM";
    if Truthy(gpu) then base + ", " + gpu.value + " GPU" else base
  }

  /** The profile of one instance: the on-demand price and the hardware record must be there,
      and so must the six hardware keys the profile reads. */
  function ProfileOf(inst: Instance, parse: string -> Option<real>): (r: Result<Profile>)
    ensures inst.info.onDemandPricing.None? ==> r == Err(KeyError("on_demand_pricing"))
    ensures inst.info.onDemandPricing.Some? && inst.info.hardware.None? ==> r == Err(KeyError("hardware"))
    ensures r.Ok? ==> inst.info.onDemandPricing.Some? && inst.info.hardware.Some?
  {
    if inst.info.onDemandPricing.None? then Err(KeyError("on_demand_pricing"))
    else if inst.info.hardware.None? then Err(KeyError("hardware"))
    else
      var hw := inst.info.hardware.value;
      var displayName := Hyphenate(inst.name);
      var category :- Field(hw, "instanceFamily");
      var cpu :- Field(hw, "vcpu");
      var memory :- Field(hw, "memory");
      var storage :- Field(hw, "storage");
      var gpu :- Field(hw, "gpu");
      var network :- Field(hw, "networkPerformance");
      var price :- Float(Some(inst.info.onDemandPricing.value.price), parse);
      var cpuLimit :- Float(cpu, parse);
      if memory.None? then Err(AttributeError("split"))
      else
        var memoryGiB :- Float(Some(WithoutCommas(Split(memory.value, " ")[0])), parse);
        Ok(Profile(displayName, Upper(FamilyOf(inst.name)), category, Description(cpu, memory, gpu),
                   LastPiece(displayName, "-"), price, network, cpu, memory, storage, gpu,
                   cpuLimit, memoryGiB, if Truthy(gpu) then gpu.value else "0"))
  }

  /** The hardware keys a profile reads, in the order it reads them. */
  const ProfileKeys: seq<string> := ["instanceFamily", "vcpu", "memory", "storage", "gpu", "networkPerformance"]

  /** A hardware record lacking one of the keys the profile reads raises KeyError, naming the
      first absent key in reading order. */
  lemma MissingKey(inst: Instance, parse: string -> Option<real>, k: string)
    requires inst.info.onDemandPricing.Some? && inst.info.hardware.Some?
    requires k in ProfileKeys && k !in inst.info.hardware.value
    ensures exists i ::
              && 0 <= i < |ProfileKeys|
              && ProfileKeys[i] !in inst.info.hardware.value
              && (forall j :: 0 <= j < i ==> ProfileKeys[j] in inst.info.hardware.value)
              && ProfileOf(inst, parse) == Err(KeyError(ProfileKeys[i]))
  {
    var hw := inst.info.hardware.value;
    var i := FirstAbsent(hw, 0);
    assert ProfileKeys[i] !in hw;
  }

  /** The index of the first key from `from` on that the record lacks, when one is lacking. */
  function FirstAbsent(hw: map<string, Option<string>>, from: nat): (i: nat)
    requires from <= |ProfileKeys|
    requires exists j :: from <= j < |ProfileKeys| && ProfileKeys[j] !in hw
    ensures from <= i < |ProfileKeys| && ProfileKeys[i] !in hw
    ensures forall j :: from <= j < i ==> ProfileKeys[j] in hw
    decreases |ProfileKeys| - from
  {
    if ProfileKeys[from] !in hw then from else FirstAbsent(hw, from + 1)
  }

  /** What a profile holds: the hyphenated name, the upper-case family, the hardware facts
      under their keys, the description built from them, the size after the last hyphen, the
      parsed on-demand price, CPU count and memory in GiB, and the GPU limit. */
  lemma ProfileOk(inst: Instance, parse: string -> Option<real>)
    requires ProfileOf(inst, parse).Ok?
    ensures var p := ProfileOf(inst, parse).value;
      var hw := inst.info.hardware.value;
      (forall k :: k in ProfileKeys ==> k in hw) &&
      p.displayName == Hyphenate(inst.name) &&
      p.family == Upper(FamilyOf(inst.name)) &&
      p.instanceSize == LastPiece(p.displayName, "-") &&
      p.category == hw["instanceFamily"] && p.cpu == hw["vcpu"] && p.memory == hw["memory"] &&
      p.storage == hw["storage"] && p.gpu == hw["gpu"] && p.network == hw["networkPerformance"] &&
      p.description == Description(p.cpu, p.memory, p.gpu) &&
      Some(p.price) == parse(inst.info.onDemandPricing.value.price)
    ensures var p := ProfileOf(inst, parse).value;
      p.cpu.Some? && Some(p.cpuLimit) == parse(p.cpu.value) &&
      p.memory.Some? && Some(p.memoryGiB) == parse(WithoutCommas(Split(p.memory.value, " ")[0])) &&
      (Truthy(p.gpu) ==> p.gpuLimit == p.gpu.value) &&
      (!Truthy(p.gpu) ==> p.gpuLimit == "0")
  {
  }

  function ProfileStep(parse: string -> Option<real>): Instance -> Result<Profile> {
    inst => ProfileOf(inst, parse)
  }

  /** The loop of `make_profile_list`: one profile per instance, in order; the first instance
      that cannot be profiled stops the list with its error. */
  method MakeProfileList(region: seq<Instance>, parse: string -> Option<real>) returns (r: Result<seq<Profile>>)
    ensures r == MapAll(region, ProfileStep(parse))
    ensures r.Ok? <==> forall i :: 0 <= i < |region| ==> ProfileOf(region[i], parse).Ok?
    ensures r.Ok? ==>
      |r.value| == |region| &&
      forall i :: 0 <= i < |region| ==> r.value[i] == ProfileOf(region[i], parse).value
  {
    var profiles: seq<Profile> := [];
    for i := 0 to |region|
      invariant |profiles| == i
      invariant forall j :: 0 <= j < i ==> ProfileStep(parse)(region[j]) == Ok(profiles[j])
    {
      var p := ProfileOf(region[i], parse);
      if p.Err? {
        MapAllStops(region, ProfileStep(parse), i);
        return Err(p.error);
      }
      profiles := profiles + [p.value];
    }
    MapAllDone(region, ProfileStep(parse), profiles);
    r := Ok(profiles);
  }

  /** A character-level absence of `c` means the one-character separator never occurs. */
  lemma NoOccurrence(s: string, c: char)
    requires forall i :: 0 <= i < |s| ==> s[i] != c
    ensures !Occurs([c], s)
  {
    forall i: int ensures !MatchAt([c], s, i) {
      if 0 <= i && i + 1 <= |s| {
        assert s[i..i + 1][0] == s[i];
      }
    }
  }

  /** The display name of `family.size` is `family-size`, with the family's own dots
      replaced too. */
  lemma DisplayNameDotted(fam: string, size: string)
    requires !Occurs(".", size)
    ensures Hyphenate(fam + "." + size) == Hyphenate(fam) + "-" + size
  {
    var name := fam + "." + size;
    var l, r := Hyphenate(name), Hyphenate(fam) + "-" + size;
    assert |l| == |r|;
    forall i | 0 <= i < |l| ensures l[i] == r[i] {
      if i < |fam| {
        assert name[i] == fam[i];
      } else if i == |fam| {
        assert name[i] == '.';
      } else {
        assert name[i] == size[i - |fam| - 1];
        assert size[i - |fam| - 1..i - |fam|] == [size[i - |fam| - 1]];
        assert !MatchAt(".", size, i - |fam| - 1);
      }
    }
  }

  /** The last hyphen-separated piece of `h-size` is `size` when it has no hyphen. */
  lemma LastPieceAfterHyphen(h: string, size: string)
    requires forall i :: 0 <= i < |size| ==> size[i] != '-'
    ensures LastPiece(h + "-" + size, "-") == size
  {
    SplitAround(h, "-", size);
    NoOccurrence(size, '-');
    SplitWithoutSeparator(size, "-");
  }

  /** For an EC2 name `family.size` whose size has no hyphen, the display name is
      `family-size`, the instance size shown is the size and the family shown is the upper-case
      family. */
  lemma ProfileNaming(fam: string, size: string)
    requires !Occurs(".", fam) && !Occurs(".", size)
    requires forall i :: 0 <= i < |size| ==> size[i] != '-'
    ensures Hyphenate(fam + "." + size) == Hyphenate(fam) + "-" + size
    ensures LastPiece(Hyphenate(fam + "." + size), "-") == size
    ensures Upper(FamilyOf(fam + "." + size)) == Upper(fam)
    ensures TypeOf(fam + "." + size) == Ok(size)
  {
    DisplayNameDotted(fam, size);
    LastPieceAfterHyphen(Hyphenate(fam), size);
    SplitDotted(fam, size);
  }

  /** Replacing dots loses nothing on names without hyphens. */
  lemma HyphenateInjective(a: string, b: string)
    requires forall i :: 0 <= i < |a| ==> a[i] != '-'
    requires forall i :: 0 <= i < |b| ==> b[i] != '-'
    requires Hyphenate(a) == Hyphenate(b)
    ensures a == b
  {
    assert |a| == |b|;
    forall i | 0 <= i < |a| ensures a[i] == b[i] {
      assert Hyphenate(a)[i] == Hyphenate(b)[i];
    }
  }

  /** Profiles of distinct instance names without hyphens have distinct display names, so
      the profile list offers every instance once. */
  lemma DistinctDisplayNames(region: seq<Instance>, profiles: seq<Profile>, parse: string -> Option<real>)
    requires DistinctNames(region)
    requires forall i, k :: 0 <= i < |region| && 0 <= k < |region[i].name| ==> region[i].name[k] != '-'
    requires MapAll(region, ProfileStep(parse)) == Ok(profiles)
    ensures forall i, j :: 0 <= i < j < |profiles| ==> profiles[i].displayName != profiles[j].displayName
  {
    forall i, j | 0 <= i < j < |profiles|
      ensures profiles[i].displayName != profiles[j].displayName
    {
      assert ProfileStep(parse)(region[i]) == ProfileOf(region[i], parse);
      assert ProfileStep(parse)(region[j]) == ProfileOf(region[j], parse);
      ProfileOk(region[i], parse);
      ProfileOk(region[j], parse);
      if profiles[i].displayName == profiles[j].displayName {
        HyphenateInjective(region[i].name, region[j].name);
      }
    }
  }

  /** With or without a GPU, the description starts with the CPU and RAM part. */
  lemma DescriptionPrefix(cpu: Option<string>, memory: Option<string>, gpu: Option<string>)
    ensures var base := Description(cpu, memory, None);
      var d := Description(cpu, memory, gpu);
      |base| <= |d| && d[..|base|] == base
  {
  }

  /** The description ends in a GPU count exactly when the GPU attribute is truthy. */
  lemma GpuDescribed(cpu: Option<string>, memory: Option<string>, gpu: Option<string>)
    ensures Truthy(gpu) <==>
      var d := Description(cpu, memory, gpu);
      |d| >= 4 && d[|d| - 4..] == " GPU"
  {
    var d := Description(cpu, memory, gpu);
    if Truthy(gpu) {
      assert d[|d| - 4..] == " GPU";
    } else {
      assert d[|d| - 4..] == " RAM";
    }
  }
}
