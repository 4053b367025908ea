/** Building one eksctl nodegroup from a processed group (`create_on_demand_configuration`,
    `create_spot_configuration`), the tokens `format_nodegroup` substitutes into it, and the
    per-group dispatch of `process_groups` (aws_hub/aws_hub.py:269-295, 304-369, 412-427). */
module Nodegroups {
  import opened Wrappers
  import opened Strs
  import opened Tree
  import opened Ec2
  import opened Region
  import opened Groups

  /** A list of strings as a configuration value. */
  function StrList(xs: seq<string>): (v: Value)
    ensures v.List? && |v.items| == |xs|
    ensures forall i :: 0 <= i < |xs| ==> v.items[i] == Str(xs[i])
  {
    List(seq(|xs|, i requires 0 <= i < |xs| => Str(xs[i])))
  }

  // ---------------------------------------------------------------------------------------
  // create_on_demand_configuration (304-319)
  // ---------------------------------------------------------------------------------------

  /** The common start of both constructions: a copy of `nodegroupDefaults` with the group's
      overrides merged in and the group's zones set. With no defaults the first access to the
      `None` copy raises TypeError: a read when the first override is a dict, a write
      otherwise. */
  function BaseNodegroup(defaults: Option<seq<Entry>>, g: Group): Result<seq<Entry>> {
    if defaults.None? then
      if g.nodegroupOverrides != [] && g.nodegroupOverrides[0].val.Dict? then
        Err(TypeError("'NoneType' object is not subscriptable"))
      else Err(TypeError("'NoneType' object does not support item assignment"))
    else
      var ng :- Merge(g.nodegroupOverrides, defaults.value);
      Ok(Put(ng, "availabilityZones", StrList(g.availabilityZones)))
  }

  function OnDemandNodegroup(defaults: Option<seq<Entry>>, g: Group): Result<seq<Entry>> {
    var ng :- BaseNodegroup(defaults, g);
    if g.instances.None? || g.instances.value == [] then Err(NoInstances)
    else if |g.instances.value| > 1 then Err(TooManyOnDemandInstances)
    else Ok(Put(ng, "instanceType", Str(g.instances.value[0])))
  }

  /** What every key of a base nodegroup holds: the group's zones, or what merging the overrides
      into the defaults puts there. */
  lemma BaseNodegroupSpec(defaults: Option<seq<Entry>>, g: Group, k: string)
    requires BaseNodegroup(defaults, g).Ok?
    requires DistinctKeys(g.nodegroupOverrides)
    ensures defaults.Some?
    ensures Get(BaseNodegroup(defaults, g).value, k) ==
      if k == "availabilityZones" then Some(StrList(g.availabilityZones))
      else MergedAt(g.nodegroupOverrides, defaults.value, k)
  {
    MergeGet(g.nodegroupOverrides, defaults.value, k);
  }

  /** An on-demand group yields a nodegroup exactly when it has one instance (and defaults that
      the overrides merge into); that instance becomes `instanceType` and the zones are the
      group's. Zero instances and several instances raise. */
  lemma OnDemandSpec(defaults: Option<seq<Entry>>, g: Group)
    requires BaseNodegroup(defaults, g).Ok?
    ensures OnDemandNodegroup(defaults, g).Ok? <==> g.instances.Some? && |g.instances.value| == 1
    ensures g.instances.None? || g.instances.value == [] ==> OnDemandNodegroup(defaults, g) == Err(NoInstances)
    ensures g.instances.Some? && |g.instances.value| > 1 ==>
      OnDemandNodegroup(defaults, g) == Err(TooManyOnDemandInstances)
    ensures OnDemandNodegroup(defaults, g).Ok? ==>
      var ng := OnDemandNodegroup(defaults, g).value;
      Get(ng, "instanceType") == Some(Str(g.instances.value[0])) &&
      Get(ng, "availabilityZones") == Some(StrList(g.availabilityZones)) &&
      forall k :: k != "instanceType" ==> Get(ng, k) == Get(BaseNodegroup(defaults, g).value, k)
  {
  }

  // ---------------------------------------------------------------------------------------
  // create_spot_configuration (321-369)
  // ---------------------------------------------------------------------------------------

  /** `max(prices)`. */
  function Max(prices: seq<real>): (m: real)
    requires |prices| > 0
    ensures m in prices
    ensures forall i :: 0 <= i < |prices| ==> prices[i] <= m
  {
    if |prices| == 1 then prices[0]
    else
      var rest := Max(prices[1..]);
      assert forall i :: 1 <= i < |prices| ==> prices[i] == prices[1..][i - 1];
      if prices[0] >= rest then prices[0] else rest
  }

  /** `region_information[instance]['spot_pricing']['maxPrice']`: KeyError for an instance the
      region lacks, and for one without a spot ceiling. */
  function SpotCeiling(region: seq<Instance>, inst: string): Result<real> {
    match Lookup(region, inst)
    case None => Err(KeyError(inst))
    case Some(rec) => if rec.maxPrice.None? then Err(KeyError("maxPrice")) else Ok(rec.maxPrice.value)
  }

  /** An instance of the family with its spot ceiling. */
  datatype Priced = Priced(name: string, price: real)

  /** The family's instances with their ceilings, in region order; the first one without a
      ceiling raises KeyError. */
  function FamilyPrices(region: seq<Instance>, fam: string): (r: Result<seq<Priced>>)
    ensures r.Ok? ==> forall p :: p in r.value ==> FamilyOf(p.name) == fam
  {
    if region == [] then Ok([])
    else
      var init :- FamilyPrices(region[..|region| - 1], fam);
      var last := region[|region| - 1];
      if FamilyOf(last.name) != fam then Ok(init)
      else if last.info.maxPrice.None? then Err(KeyError("maxPrice"))
      else Ok(init + [Priced(last.name, last.info.maxPrice.value)])
  }

  /** `sorted(prices, key=price, reverse=True)[0]`: the sort is stable, so this is the first
      entry holding the largest price. */
  function MostExpensive(ps: seq<Priced>): (top: Priced)
    requires |ps| > 0
  {
    if |ps| == 1 then ps[0]
    else
      var rest := MostExpensive(ps[1..]);
      if rest.price > ps[0].price then rest else ps[0]
  }

  /** The chosen entry holds the largest price, and every entry before it is strictly cheaper:
      it is the entry a stable descending sort puts first. */
  lemma {:induction false} MostExpensiveSpec(ps: seq<Priced>)
    requires |ps| > 0
    ensures exists k :: (0 <= k < |ps| && ps[k] == MostExpensive(ps) &&
      (forall j :: 0 <= j < |ps| ==> ps[j].price <= ps[k].price) &&
      (forall j :: 0 <= j < k ==> ps[j].price < ps[k].price))
  {
    if |ps| > 1 {
      MostExpensiveSpec(ps[1..]);
      var k :| 0 <= k < |ps[1..]| && ps[1..][k] == MostExpensive(ps[1..]) &&
        (forall j :: 0 <= j < |ps[1..]| ==> ps[1..][j].price <= ps[1..][k].price) &&
        (forall j :: 0 <= j < k ==> ps[1..][j].price < ps[1..][k].price);
      assert forall j :: 1 <= j < |ps| ==> ps[j] == ps[1..][j - 1];
      if MostExpensive(ps[1..]).price > ps[0].price {
        assert ps[k + 1] == MostExpensive(ps);
      } else {
        assert ps[0] == MostExpensive(ps);
      }
    } else {
      assert ps[0] == MostExpensive(ps);
    }
  }

  /** The spot ceiling of a group: the largest ceiling of its instances raised by `overPayBy`
      percent. */
  function Ceiling(prices: seq<real>, overPayBy: real): real
    requires |prices| > 0
  {
    Raised(Max(prices), overPayBy)
  }

  /** A price raised by `overPayBy` percent. */
  function Raised(price: real, overPayBy: real): real {
    price * (1.0 + overPayBy / 100.0)
  }

  /** With a non-negative surcharge and non-negative prices, the ceiling covers every
      instance's own ceiling. */
  lemma CeilingCovers(prices: seq<real>, overPayBy: real)
    requires |prices| > 0 && overPayBy >= 0.0
    requires forall i :: 0 <= i < |prices| ==> prices[i] >= 0.0
    ensures forall i :: 0 <= i < |prices| ==> prices[i] <= Ceiling(prices, overPayBy)
  {
    var m := Max(prices);
    assert m >= 0.0;
    assert Ceiling(prices, overPayBy) == m * (1.0 + overPayBy / 100.0);
    assert m * (1.0 + overPayBy / 100.0) == m + m * (overPayBy / 100.0);
    assert m * (overPayBy / 100.0) >= 0.0;
  }

  /** `instancesDistribution` with its capacity defaults: a setting the user gave is kept, an
      absent one becomes 0, and nothing else changes. */
  function WithCapacityDefaults(given: seq<Entry>): (d: seq<Entry>)
    ensures Get(d, "onDemandBaseCapacity") == Some(Get(given, "onDemandBaseCapacity").GetOr(Num(0.0)))
    ensures Get(d, "onDemandPercentageAboveBaseCapacity") ==
      Some(Get(given, "onDemandPercentageAboveBaseCapacity").GetOr(Num(0.0)))
    ensures forall k :: k != "onDemandBaseCapacity" && k != "onDemandPercentageAboveBaseCapacity" ==>
      Get(d, k) == Get(given, k)
  {
    GetNone(given, "onDemandBaseCapacity");
    GetNone(given, "onDemandPercentageAboveBaseCapacity");
    var d1 := if "onDemandBaseCapacity" in Keys(given) then given else Put(given, "onDemandBaseCapacity", Num(0.0));
    GetNone(d1, "onDemandPercentageAboveBaseCapacity");
    if "onDemandPercentageAboveBaseCapacity" in Keys(d1) then d1
    else Put(d1, "onDemandPercentageAboveBaseCapacity", Num(0.0))
  }

  /** The nodegroup with an empty `instancesDistribution` added when it has none. */
  function WithDistribution(ng: seq<Entry>): (r: seq<Entry>)
    ensures Get(r, "instancesDistribution") == Some(Get(ng, "instancesDistribution").GetOr(Dict([])))
    ensures forall k :: k != "instancesDistribution" ==> Get(r, k) == Get(ng, k)
  {
    GetNone(ng, "instancesDistribution");
    if "instancesDistribution" in Keys(ng) then ng else Put(ng, "instancesDistribution", Dict([]))
  }

  /** The distribution a spot nodegroup ends with: the capacity defaults, the instance types
      (the group's, then `extra`) and the ceiling; other settings stay as given. */
  function SpotDistribution(given: seq<Entry>, types: seq<string>, ceiling: real, extra: seq<string>): (d: seq<Entry>)
    ensures Get(d, "instanceTypes") == Some(StrList(types + extra))
    ensures Get(d, "maxPrice") == Some(Num(ceiling))
    ensures Get(d, "onDemandBaseCapacity") == Some(Get(given, "onDemandBaseCapacity").GetOr(Num(0.0)))
    ensures Get(d, "onDemandPercentageAboveBaseCapacity") ==
      Some(Get(given, "onDemandPercentageAboveBaseCapacity").GetOr(Num(0.0)))
    ensures forall k ::
      (k != "instanceTypes" && k != "maxPrice" && k != "onDemandBaseCapacity" &&
       k != "onDemandPercentageAboveBaseCapacity") ==> Get(d, k) == Get(given, k)
  {
    var d := Put(Put(WithCapacityDefaults(given), "instanceTypes", StrList(types)), "maxPrice", Num(ceiling));
    if extra == [] then
      assert types + extra == types;
      d
    else Put(d, "instanceTypes", StrList(types + extra))
  }

  /** The spot ceilings of the group's instances, in group order. */
  function GroupCeilings(region: seq<Instance>, insts: seq<string>): (r: Result<seq<real>>)
    ensures r.Ok? <==> forall i :: 0 <= i < |insts| ==> SpotCeiling(region, insts[i]).Ok?
    ensures r.Ok? ==>
      |r.value| == |insts| && forall i :: 0 <= i < |insts| ==> r.value[i] == SpotCeiling(region, insts[i]).value
  {
    MapAll(insts, (i: string) => SpotCeiling(region, i))
  }

  /** The spot nodegroup of a group, or None when the group's single instance is the most
      expensive of its family. */
  function SpotNodegroup(defaults: Option<seq<Entry>>, g: Group, region: seq<Instance>, overPayBy: real)
    : Result<Option<seq<Entry>>>
  {
    var ng :- BaseNodegroup(defaults, g);
    if g.instances.None? || g.instances.value == [] then Err(NoInstances)
    else
      var insts := g.instances.value;
      var ng1 := WithDistribution(ng);
      var dist := Get(ng1, "instancesDistribution").value;
      if !dist.Dict? then Err(AttributeError("keys"))
      else
        var prices :- GroupCeilings(region, insts);
        var ceiling := Ceiling(prices, overPayBy);
        if |insts| == 1 then
          var family :- FamilyPrices(region, FamilyOf(insts[0]));
          if family == [] then Err(IndexError)
          else
            var top := MostExpensive(family).name;
            if insts[0] == top then Ok(None)
            else Ok(Some(Put(ng1, "instancesDistribution", Dict(SpotDistribution(dist.entries, insts, ceiling, [top])))))
        else Ok(Some(Put(ng1, "instancesDistribution", Dict(SpotDistribution(dist.entries, insts, ceiling, [])))))
  }

  /** A spot nodegroup keeps every setting of the base nodegroup (the zones included) except
      `instancesDistribution`, which becomes the given distribution (empty when there was none)
      completed with the capacity defaults, the ceiling raised from the largest of the group's
      own ceilings, and the group's instances; a single instance is followed by the most
      expensive member of its family, which is a different instance. */
  lemma SpotSpec(defaults: Option<seq<Entry>>, g: Group, region: seq<Instance>, overPayBy: real)
    requires SpotNodegroup(defaults, g, region, overPayBy).Ok?
    requires SpotNodegroup(defaults, g, region, overPayBy).value.Some?
    ensures BaseNodegroup(defaults, g).Ok? && g.instances.Some? && g.instances.value != []
    ensures GroupCeilings(region, g.instances.value).Ok?
    ensures var ng := SpotNodegroup(defaults, g, region, overPayBy).value.value;
      var base := BaseNodegroup(defaults, g).value;
      Get(ng, "availabilityZones") == Some(StrList(g.availabilityZones)) &&
      forall k :: k != "instancesDistribution" ==> Get(ng, k) == Get(base, k)
    ensures var ng := SpotNodegroup(defaults, g, region, overPayBy).value.value;
      var given := Get(BaseNodegroup(defaults, g).value, "instancesDistribution").GetOr(Dict([]));
      var insts := g.instances.value;
      var ceiling := Ceiling(GroupCeilings(region, insts).value, overPayBy);
      given.Dict? &&
      (|insts| > 1 ==> Get(ng, "instancesDistribution") == Some(Dict(SpotDistribution(given.entries, insts, ceiling, [])))) &&
      (|insts| == 1 ==>
        var family := FamilyPrices(region, FamilyOf(insts[0]));
        family.Ok? && family.value != [] && MostExpensive(family.value).name != insts[0] &&
        Get(ng, "instancesDistribution") ==
          Some(Dict(SpotDistribution(given.entries, insts, ceiling, [MostExpensive(family.value).name]))))
  {
  }

  /** A spot group yields None exactly when it is a single instance that is the most expensive
      of its family (and nothing before that raises). */
  lemma SpotNone(defaults: Option<seq<Entry>>, g: Group, region: seq<Instance>, overPayBy: real)
    ensures SpotNodegroup(defaults, g, region, overPayBy) == Ok(None) <==>
      BaseNodegroup(defaults, g).Ok? && g.instances.Some? && |g.instances.value| == 1 &&
      Get(BaseNodegroup(defaults, g).value, "instancesDistribution").GetOr(Dict([])).Dict? &&
      GroupCeilings(region, g.instances.value).Ok? &&
      FamilyPrices(region, FamilyOf(g.instances.value[0])).Ok? &&
      FamilyPrices(region, FamilyOf(g.instances.value[0])).value != [] &&
      MostExpensive(FamilyPrices(region, FamilyOf(g.instances.value[0])).value).name == g.instances.value[0]
  {
  }

  /** `region_information[name]` is the first record of that name. */
  lemma {:induction false} LookupSnoc(region: seq<Instance>, name: string)
    requires region != []
    ensures var init := region[..|region| - 1];
      var last := region[|region| - 1];
      Lookup(region, name) ==
        if Lookup(init, name).Some? then Lookup(init, name)
        else if last.name == name then Some(last.info)
        else None
  {
    if |region| > 1 {
      var init := region[..|region| - 1];
      assert region[1..][..|region| - 2] == init[1..];
      assert init[0] == region[0];
      LookupSnoc(region[1..], name);
    }
  }

  /** An instance with a spot ceiling is among its family's priced instances. */
  lemma {:induction false} FamilyPricesHold(region: seq<Instance>, name: string)
    requires Lookup(region, name).Some? && Lookup(region, name).value.maxPrice.Some?
    requires FamilyPrices(region, FamilyOf(name)).Ok?
    ensures Priced(name, Lookup(region, name).value.maxPrice.value) in FamilyPrices(region, FamilyOf(name)).value
  {
    var init := region[..|region| - 1];
    LookupSnoc(region, name);
    if Lookup(init, name).Some? {
      FamilyPricesHold(init, name);
    }
  }

  /** For a single spot instance, the ceiling is the instance's own ceiling raised by the
      surcharge. */
  lemma SpotSingle(defaults: Option<seq<Entry>>, g: Group, region: seq<Instance>, overPayBy: real)
    requires SpotNodegroup(defaults, g, region, overPayBy).Ok?
    requires SpotNodegroup(defaults, g, region, overPayBy).value.Some?
    requires g.instances.Some? && |g.instances.value| == 1
    ensures SpotCeiling(region, g.instances.value[0]).Ok?
    ensures FamilyPrices(region, FamilyOf(g.instances.value[0])).Ok?
    ensures Get(Distribution(SpotNodegroup(defaults, g, region, overPayBy).value.value), "maxPrice") ==
      Some(Num(Raised(SpotCeiling(region, g.instances.value[0]).value, overPayBy)))
  {
    SpotSpec(defaults, g, region, overPayBy);
    var insts := g.instances.value;
    var ng := SpotNodegroup(defaults, g, region, overPayBy).value.value;
    var given := Get(BaseNodegroup(defaults, g).value, "instancesDistribution").GetOr(Dict([]));
    var prices := GroupCeilings(region, insts).value;
    var p := SpotCeiling(region, insts[0]).value;
    assert prices == [p];
    var top := MostExpensive(FamilyPrices(region, FamilyOf(insts[0])).value).name;
    var d := SpotDistribution(given.entries, insts, Ceiling(prices, overPayBy), [top]);
    assert Get(ng, "instancesDistribution") == Some(Dict(d));
    assert Distribution(ng) == d;
    assert Max(prices) == p;
  }

  /** The instance added beside a single spot instance belongs to the same family and costs at
      least as much: it is the first of the family's most expensive instances. */
  lemma Companion(region: seq<Instance>, inst: string)
    requires SpotCeiling(region, inst).Ok?
    requires FamilyPrices(region, FamilyOf(inst)).Ok?
    ensures var family := FamilyPrices(region, FamilyOf(inst)).value;
      family != [] &&
      FamilyOf(MostExpensive(family).name) == FamilyOf(inst) &&
      MostExpensive(family).price >= SpotCeiling(region, inst).value
  {
    var family := FamilyPrices(region, FamilyOf(inst)).value;
    FamilyPricesHold(region, inst);
    MostExpensiveSpec(family);
  }

  /** The distribution of a spot nodegroup. */
  function Distribution(ng: seq<Entry>): seq<Entry> {
    match Get(ng, "instancesDistribution")
    case Some(Dict(d)) => d
    case _ => []
  }

  // ---------------------------------------------------------------------------------------
  // format_nodegroup (269-295)
  // ---------------------------------------------------------------------------------------

  /** The values `format_nodegroup` substitutes for `{instance_name}`, `{instance_names}`,
      `{region}`, `{availability_zones}` and `{availability_zones_short}`. */
  datatype Tokens = Tokens(
    instanceName: string,
    instanceNames: string,
    region: string,
    availabilityZones: string,
    availabilityZonesShort: string)

  /** The strings of a list value; None when some item is not a string. */
  function Strings(items: seq<Value>): (r: Option<seq<string>>)
    ensures r.Some? ==> |r.value| == |items| && forall i :: 0 <= i < |items| ==> items[i] == Str(r.value[i])
  {
    if items == [] then Some([])
    else if !items[0].Str? then None
    else
      match Strings(items[1..])
      case None => None
      case Some(rest) => Some([items[0].s] + rest)
  }

  /** The strings a Python loop over a value visits, as `"-".join` and a list comprehension
      see them: the items of a list (TypeError when one is not a string), the characters of a
      string, the keys of a dict; anything else is not iterable. */
  function Iterated(v: Value): Result<seq<string>> {
    match v
    case List(items) =>
      (match Strings(items)
       case None => Err(TypeError("sequence item: expected str instance"))
       case Some(names) => Ok(names))
    case Str(s) => Ok(Chars(s))
    case Dict(es) => Ok(KeyList(es))
    case _ => Err(TypeError("can only join an iterable"))
  }

  /** The one-character strings of `s`, in order. */
  function Chars(s: string): (r: seq<string>)
    ensures |r| == |s| && forall i :: 0 <= i < |s| ==> r[i] == [s[i]]
  {
    seq(|s|, i requires 0 <= i < |s| => [s[i]])
  }

  /** The keys of a dict, in insertion order. */
  function KeyList(es: seq<Entry>): seq<string> {
    if es == [] then [] else [es[0].key] + KeyList(es[1..])
  }

  /** The instance-name tokens: from `instanceType` when present, overridden by the first of
      `instancesDistribution.instanceTypes` when a distribution is present. Subscripting
      `[0]` takes the first item of a list or the first character of a string, and raises
      KeyError on a dict (whose keys are strings) and TypeError on anything else. */
  function InstanceTokens(ng: seq<Entry>): Result<(string, string)> {
    var single :-
      match Get(ng, "instanceType")
      case None => Ok("")
      case Some(Str(s)) => Ok(Hyphenate(s))
      case Some(_) => Err(AttributeError("replace"));
    match Get(ng, "instancesDistribution")
    case None => Ok((single, ""))
    case Some(Dict(d)) =>
      (match Get(d, "instanceTypes")
       case None => Err(KeyError("instanceTypes"))
       case Some(List(items)) =>
         if items == [] then Err(IndexError)
         else if !items[0].Str? then Err(AttributeError("replace"))
         else
           var names :- Iterated(List(items));
           Ok((Hyphenate(items[0].s), Hyphenate(Join(names, "-"))))
       case Some(Str(s)) =>
         if s == [] then Err(IndexError)
         else Ok((Hyphenate([s[0]]), Hyphenate(Join(Chars(s), "-"))))
       case Some(Dict(_)) => Err(KeyError("0"))
       case Some(_) => Err(TypeError("object is not subscriptable")))
    case Some(_) => Err(TypeError("object is not subscriptable"))
  }

  /** A list of instance names as a configuration value reads back as those names. */
  lemma {:induction false} StringsOfStrList(xs: seq<string>)
    ensures Strings(StrList(xs).items) == Some(xs)
  {
    if xs != [] {
      var items := StrList(xs).items;
      StringsOfStrList(xs[1..]);
      assert items[1..] == StrList(xs[1..]).items;
      assert items[0] == Str(xs[0]);
      assert [xs[0]] + xs[1..] == xs;
    }
  }

  /** A distribution listing instance names yields as tokens the first name and all the
      names, dots turned into hyphens and names joined by '-'. */
  lemma InstanceTokensOfNames(ng: seq<Entry>, d: seq<Entry>, names: seq<string>)
    requires Get(ng, "instanceType").None? || Get(ng, "instanceType").value.Str?
    requires Get(ng, "instancesDistribution") == Some(Dict(d))
    requires Get(d, "instanceTypes") == Some(StrList(names)) && names != []
    ensures InstanceTokens(ng) == Ok((Hyphenate(names[0]), Join(HyphenateEach(names), "-")))
  {
    StringsOfStrList(names);
    HyphenateJoin(names);
  }

  /** A single instance type written as a string instead of a list is taken character by
      character: its first character is the instance name and its characters joined by '-'
      are the instance names. */
  lemma StringInstanceTypes()
    ensures var d := [Entry("instanceTypes", Str("m5.xl"))];
      InstanceTokens([Entry("instancesDistribution", Dict(d))]) == Ok(("m", "m-5---x-l"))
  {
    var d := [Entry("instanceTypes", Str("m5.xl"))];
    var ng := [Entry("instancesDistribution", Dict(d))];
    assert Get(ng, "instanceType") == None;
    assert Get(ng, "instancesDistribution") == Some(Dict(d));
    assert Get(d, "instanceTypes") == Some(Str("m5.xl"));
    StringTokens(ng, d, "m5.xl");
    CharsJoined();
    HyphenatedJoined();
    assert Hyphenate(['m']) == "m";
  }

  lemma StringTokens(ng: seq<Entry>, d: seq<Entry>, s: string)
    requires Get(ng, "instanceType") == None
    requires Get(ng, "instancesDistribution") == Some(Dict(d))
    requires Get(d, "instanceTypes") == Some(Str(s)) && s != []
    ensures InstanceTokens(ng) == Ok((Hyphenate([s[0]]), Hyphenate(Join(Chars(s), "-"))))
  {
  }

  lemma CharsJoined()
    ensures Join(Chars("m5.xl"), "-") == "m-5-.-x-l"
  {
    var cs := Chars("m5.xl");
    assert cs == ["m", "5", ".", "x", "l"];
    assert cs[1..][1..][1..][1..] == ["l"];
    assert Join(cs[1..][1..][1..], "-") == "x-l";
    assert Join(cs[1..][1..], "-") == ".-x-l";
  }

  lemma HyphenatedJoined()
    ensures Hyphenate("m-5-.-x-l") == "m-5---x-l"
  {
    var h := Hyphenate("m-5-.-x-l");
    forall i | 0 <= i < 9
      ensures h[i] == "m-5---x-l"[i]
    {
    }
  }

  /** `"".join([az.split(region)[-1] for az in zones])`; an empty region is an empty separator,
      which raises ValueError as soon as there is a zone to split. */
  function ShortZones(zones: seq<string>, region: string): Result<string> {
    if zones == [] then Ok("")
    else if region == [] then Err(ValueError)
    else
      var rest :- ShortZones(zones[1..], region);
      Ok(LastPiece(zones[0], region) + rest)
  }

  function Concat(xs: seq<string>): string {
    if xs == [] then "" else xs[0] + Concat(xs[1..])
  }

  function NodegroupTokens(ng: seq<Entry>, region: string): Result<Tokens> {
    var names :- InstanceTokens(ng);
    var zones :-
      match Get(ng, "availabilityZones")
      case None => Err(KeyError("availabilityZones"))
      case Some(v) => Iterated(v);
    var short :- ShortZones(zones, region);
    Ok(Tokens(names.0, names.1, region, Join(zones, "-"), short))
  }

  /** `format_nodegroup`: the nodegroup with every string and key passed through `fmt` with the
      nodegroup's tokens (`fmt` stands for `str.format`). */
  function FormatNodegroup(ng: seq<Entry>, region: string, fmt: (Tokens, string) -> string): Result<Value> {
    var t :- NodegroupTokens(ng, region);
    Ok(RenameObject(Dict(ng), (s: string) => fmt(t, s)).value)
  }

  /** Zones built as region + suffix shorten back to their suffixes: the short token is the
      suffixes concatenated, whenever the region is not empty and does not occur in a suffix. */
  lemma {:induction false} ShortZonesRoundTrip(region: string, suffixes: seq<string>)
    requires region != []
    requires forall i :: 0 <= i < |suffixes| ==> !Occurs(region, suffixes[i])
    ensures ShortZones(Prefixed(region, suffixes), region) == Ok(Concat(suffixes))
  {
    if suffixes != [] {
      SplitAfterPrefix(region, suffixes[0]);
      ShortZonesRoundTrip(region, suffixes[1..]);
      assert Prefixed(region, suffixes)[1..] == Prefixed(region, suffixes[1..]);
    }
  }

  /** `"-".join(names).replace(".", "-")` is the hyphenated names joined by '-'. */
  lemma {:induction false} HyphenateJoin(names: seq<string>)
    ensures Hyphenate(Join(names, "-")) == Join(HyphenateEach(names), "-")
  {
    if |names| > 1 {
      HyphenateJoin(names[1..]);
      HyphenateAppend(names[0] + "-", Join(names[1..], "-"));
      HyphenateAppend(names[0], "-");
      assert Hyphenate("-") == "-";
      assert HyphenateEach(names)[1..] == HyphenateEach(names[1..]);
    }
  }

  function HyphenateEach(names: seq<string>): (r: seq<string>)
    ensures |r| == |names| && forall i :: 0 <= i < |names| ==> r[i] == Hyphenate(names[i])
  {
    seq(|names|, i requires 0 <= i < |names| => Hyphenate(names[i]))
  }

  /** The formatted nodegroup is the nodegroup with every key and string rewritten: under each
      rewritten key it holds the rewritten value of the last key that rewrites to it. */
  lemma FormatNodegroupSpec(ng: seq<Entry>, region: string, fmt: (Tokens, string) -> string, k: string)
    requires FormatNodegroup(ng, region, fmt).Ok?
    ensures var t := NodegroupTokens(ng, region).value;
      var f := (s: string) => fmt(t, s);
      FormatNodegroup(ng, region, fmt).value.Dict? &&
      Get(FormatNodegroup(ng, region, fmt).value.entries, k) ==
        match LastRenamedTo(ng, f, k)
        case Some(v) => Some(RenameValue(v, f))
        case None => None
  {
    var t := NodegroupTokens(ng, region).value;
    RenameLookup(ng, [], (s: string) => fmt(t, s), k);
  }

  // ---------------------------------------------------------------------------------------
  // The per-group dispatch of process_groups (412-427)
  // ---------------------------------------------------------------------------------------

  /** What one group contributes: an on-demand or spot nodegroup, formatted; nothing for a
      spot group that yields None or raises ValueError; InvalidType for any other type. */
  function Synthesize(g: Group, defaults: Option<seq<Entry>>, region: seq<Instance>, c: Config,
                      fmt: (Tokens, string) -> string): Result<Option<Value>>
  {
    if g.kind == "onDemand" then
      var ng :- OnDemandNodegroup(defaults, g);
      var f :- FormatNodegroup(ng, c.region, fmt);
      Ok(Some(f))
    else if g.kind == "spot" then
      var spot := SpotNodegroup(defaults, g, region, c.overPayBy);
      if spot == Err(ValueError) || spot == Ok(None) then Ok(None)
      else
        var ng :- spot;
        var f :- FormatNodegroup(ng.value, c.region, fmt);
        Ok(Some(f))
    else Err(InvalidType)
  }

  /** The nodegroups of a sequence of groups, in group order. */
  function SynthesizeAll(gs: seq<Group>, defaults: Option<seq<Entry>>, region: seq<Instance>, c: Config,
                         fmt: (Tokens, string) -> string): Result<seq<Value>>
  {
    if gs == [] then Ok([])
    else
      var head :- Synthesize(gs[0], defaults, region, c, fmt);
      var rest :- SynthesizeAll(gs[1..], defaults, region, c, fmt);
      Ok((if head.Some? then [head.value] else []) + rest)
  }

  /** Processing succeeds only when every group has a valid type; each on-demand group yields
      exactly one nodegroup and each spot group at most one, in group order. */
  lemma {:induction false} SynthesizeAllSpec(gs: seq<Group>, defaults: Option<seq<Entry>>, region: seq<Instance>,
                                            c: Config, fmt: (Tokens, string) -> string)
    requires SynthesizeAll(gs, defaults, region, c, fmt).Ok?
    ensures forall i :: 0 <= i < |gs| ==> gs[i].kind == "onDemand" || gs[i].kind == "spot"
    ensures OnDemandCount(gs) <= |SynthesizeAll(gs, defaults, region, c, fmt).value| <= |gs|
  {
    if gs != [] {
      SynthesizeAllSpec(gs[1..], defaults, region, c, fmt);
      assert forall i :: 1 <= i < |gs| ==> gs[i] == gs[1..][i - 1];
    }
  }

  function OnDemandCount(gs: seq<Group>): nat {
    if gs == [] then 0 else (if gs[0].kind == "onDemand" then 1 else 0) + OnDemandCount(gs[1..])
  }

  /** The per-group results collected in order, stopping at the first exception. */
  function Collect<A, B>(xs: seq<A>, f: A -> Result<Option<B>>): Result<seq<B>> {
    if xs == [] then Ok([])
    else
      var head :- f(xs[0]);
      var rest :- Collect(xs[1..], f);
      Ok((if head.Some? then [head.value] else []) + rest)
  }

  lemma {:induction false} CollectAppend<A, B>(a: seq<A>, b: seq<A>, f: A -> Result<Option<B>>)
    requires Collect(a, f).Ok?
    ensures Collect(a + b, f) ==
      match Collect(b, f)
      case Ok(rb) => Ok(Collect(a, f).value + rb)
      case Err(e) => Err(e)
  {
    if a == [] {
      assert a + b == b;
      if Collect(b, f).Ok? {
        var rb := Collect(b, f).value;
        assert [] + rb == rb;
      }
    } else {
      assert (a + b)[0] == a[0] && (a + b)[1..] == a[1..] + b;
      CollectAppend(a[1..], b, f);
      var head := f(a[0]).value;
      var h := if head.Some? then [head.value] else [];
      var ra := Collect(a[1..], f).value;
      if Collect(b, f).Ok? {
        var rb := Collect(b, f).value;
        assert (h + ra) + rb == h + (ra + rb);
      }
    }
  }

  function SynthesizeFn(defaults: Option<seq<Entry>>, region: seq<Instance>, c: Config,
                        fmt: (Tokens, string) -> string): Group -> Result<Option<Value>> {
    g => Synthesize(g, defaults, region, c, fmt)
  }

  lemma {:induction false} SynthesizeAllCollect(gs: seq<Group>, defaults: Option<seq<Entry>>, region: seq<Instance>,
                                               c: Config, fmt: (Tokens, string) -> string)
    ensures SynthesizeAll(gs, defaults, region, c, fmt) == Collect(gs, SynthesizeFn(defaults, region, c, fmt))
  {
    if gs != [] {
      SynthesizeAllCollect(gs[1..], defaults, region, c, fmt);
      assert SynthesizeFn(defaults, region, c, fmt)(gs[0]) == Synthesize(gs[0], defaults, region, c, fmt);
    }
  }

  /** Processing two runs of groups one after the other gives their nodegroups one after the
      other. */
  lemma SynthesizeAllAppend(a: seq<Group>, b: seq<Group>, defaults: Option<seq<Entry>>,
                            region: seq<Instance>, c: Config, fmt: (Tokens, string) -> string)
    requires SynthesizeAll(a, defaults, region, c, fmt).Ok?
    ensures SynthesizeAll(a + b, defaults, region, c, fmt) ==
      match SynthesizeAll(b, defaults, region, c, fmt)
      case Ok(rb) => Ok(SynthesizeAll(a, defaults, region, c, fmt).value + rb)
      case Err(e) => Err(e)
  {
    var f := SynthesizeFn(defaults, region, c, fmt);
    SynthesizeAllCollect(a, defaults, region, c, fmt);
    SynthesizeAllCollect(b, defaults, region, c, fmt);
    SynthesizeAllCollect(a + b, defaults, region, c, fmt);
    CollectAppend(a, b, f);
  }
}
