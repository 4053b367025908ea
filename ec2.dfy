/** The part of `aws_hub/ec2_instance_information.py` that assembles per-instance records once
    the AWS API answers are in hand: the spot-price post-processing of
    `get_spot_price_for_instance_names`, the hardware projection of
    `get_instance_hardware_information_for_region`, and the three-source merge of
    `get_all_instance_information_for_region`. The API pages and zone lists are inputs. */
module Ec2 {
  import opened Wrappers

  // ---------------------------------------------------------------------------------------
  // Spot prices
  // ---------------------------------------------------------------------------------------

  /** The product description the spot-price history is queried with, for the operating
      system name of the configuration; None where the source leaves it unbound. */
  function OsDescription(os: string): (r: Option<string>)
    ensures r.Some? <==>
      os in {"Linux", "Linux/Unix", "Windows", "RHEL", "Red Hat Enterprise Linux", "SUSE", "SUSE Linux"}
    ensures r.Some? ==> r.value in {"Linux/UNIX", "Windows", "Red Hat Enterprise Linux", "SUSE Linux"}
    ensures r == Some("Linux/UNIX") <==> os == "Linux" || os == "Linux/Unix"
    ensures r == Some("Windows") <==> os == "Windows"
    ensures r == Some("Red Hat Enterprise Linux") <==> os == "RHEL" || os == "Red Hat Enterprise Linux"
    ensures r == Some("SUSE Linux") <==> os == "SUSE" || os == "SUSE Linux"
  {
    if os == "Linux" || os == "Linux/Unix" then Some("Linux/UNIX")
    else if os == "Windows" then Some(os)
    else if os == "RHEL" || os == "Red Hat Enterprise Linux" then Some("Red Hat Enterprise Linux")
    else if os == "SUSE" || os == "SUSE Linux" then Some("SUSE Linux")
    else None
  }

  /** One record of the spot-price history, its price already parsed. */
  datatype SpotRecord = SpotRecord(instanceType: string, zone: string, price: real)

  /** The instance types the records name. */
  function InstancesNamed(rs: seq<SpotRecord>): set<string> {
    if rs == [] then {} else InstancesNamed(rs[..|rs| - 1]) + {rs[|rs| - 1].instanceType}
  }

  /** The zones the records name for one instance type. */
  function ZonesNamed(rs: seq<SpotRecord>, inst: string): set<string> {
    if rs == [] then {}
    else
      var last := rs[|rs| - 1];
      ZonesNamed(rs[..|rs| - 1], inst) + (if last.instanceType == inst then {last.zone} else {})
  }

  /** The prices recorded for one (instance, zone) pair, in record order. */
  function PricesFor(rs: seq<SpotRecord>, inst: string, zone: string): seq<real> {
    if rs == [] then []
    else
      var last := rs[|rs| - 1];
      PricesFor(rs[..|rs| - 1], inst, zone)
        + (if last.instanceType == inst && last.zone == zone then [last.price] else [])
  }

  function Sum(s: seq<real>): real {
    if s == [] then 0.0 else Sum(s[..|s| - 1]) + s[|s| - 1]
  }

  /** `sum(prices) / len(prices)`. */
  function Mean(s: seq<real>): real
    requires |s| > 0
  {
    Sum(s) / (|s| as real)
  }

  /** The spot price reported for a requested zone: the mean of the pair's records, or None
      when no record names the pair. */
  function SpotPrice(rs: seq<SpotRecord>, inst: string, zone: string): Option<real> {
    var ps := PricesFor(rs, inst, zone);
    if ps == [] then None else Some(Mean(ps))
  }

  /** A pair has prices exactly when some record names it. */
  lemma {:induction false} PricesNamed(rs: seq<SpotRecord>, inst: string, zone: string)
    ensures |PricesFor(rs, inst, zone)| > 0 <==> inst in InstancesNamed(rs) && zone in ZonesNamed(rs, inst)
    ensures zone in ZonesNamed(rs, inst) ==> inst in InstancesNamed(rs)
  {
    if rs != [] {
      PricesNamed(rs[..|rs| - 1], inst, zone);
    }
  }

  /** The mean lies between the least and the greatest price averaged. */
  lemma MeanBounds(s: seq<real>, lo: real, hi: real)
    requires |s| > 0
    requires forall i :: 0 <= i < |s| ==> lo <= s[i] <= hi
    ensures lo <= Mean(s) <= hi
  {
    SumBounds(s, lo, hi);
  }

  lemma {:induction false} SumBounds(s: seq<real>, lo: real, hi: real)
    requires forall i :: 0 <= i < |s| ==> lo <= s[i] <= hi
    ensures lo * (|s| as real) <= Sum(s) <= hi * (|s| as real)
  {
    if s != [] {
      SumBounds(s[..|s| - 1], lo, hi);
    }
  }

  /** The spot-price post-processing: group the history records by instance and zone, replace
      every price list by its mean, drop the zones that were not requested and add the missing
      requested zones as None. An operating system name the source does not map leaves the
      product description unbound, which fails when the history is requested. */
  method SpotPrices(os: string, zones: seq<string>, records: seq<SpotRecord>)
    returns (r: Result<map<string, map<string, Option<real>>>>)
    ensures r.Err? <==> OsDescription(os).None?
    ensures r.Err? ==> r.error == UnboundLocalError("operating_system_description")
    ensures r.Ok? ==> r.value.Keys == InstancesNamed(records)
    ensures r.Ok? ==> forall inst :: inst in r.value ==> r.value[inst].Keys == set z | z in zones
    ensures r.Ok? ==> forall inst, z :: inst in r.value && z in r.value[inst] ==>
      r.value[inst][z] == SpotPrice(records, inst, z)
  {
    if OsDescription(os).None? {
      return Err(UnboundLocalError("operating_system_description"));
    }
    var data := CollectPrices(records);
    var result: map<string, map<string, Option<real>>> := map[];
    var todo := data.Keys;
    while todo != {}
      invariant todo <= data.Keys
      invariant result.Keys == data.Keys - todo
      invariant forall inst :: inst in result ==> result[inst].Keys == set z | z in zones
      invariant forall inst, z :: inst in result && z in result[inst] ==>
        result[inst][z] == SpotPrice(records, inst, z)
      decreases todo
    {
      var inst :| inst in todo;
      forall z | z in data[inst] ensures |data[inst][z]| > 0 {
        PricesNamed(records, inst, z);
      }
      var normalised := NormaliseZones(data[inst], zones);
      forall z | z in normalised ensures normalised[z] == SpotPrice(records, inst, z) {
        PricesNamed(records, inst, z);
      }
      result := result[inst := normalised];
      todo := todo - {inst};
    }
    r := Ok(result);
  }

  /** The price lists after one more record: its price is appended to the list of its
      (instance, zone) pair, the instance and zone entries being created on first sight. */
  function AddRecord(data: map<string, map<string, seq<real>>>, rec: SpotRecord)
    : map<string, map<string, seq<real>>>
  {
    var zs := if rec.instanceType in data then data[rec.instanceType] else map[];
    var ps := if rec.zone in zs then zs[rec.zone] else [];
    data[rec.instanceType := zs[rec.zone := ps + [rec.price]]]
  }

  /** The price lists after the records, in order. */
  function Collected(rs: seq<SpotRecord>): map<string, map<string, seq<real>>> {
    if rs == [] then map[] else AddRecord(Collected(rs[..|rs| - 1]), rs[|rs| - 1])
  }

  /** The collected price lists are keyed by exactly the named instances and, for each, the
      named zones, and hold every price of the pair in record order. */
  lemma {:induction false} CollectedSpec(rs: seq<SpotRecord>)
    ensures Collected(rs).Keys == InstancesNamed(rs)
    ensures forall inst :: inst in Collected(rs) ==> Collected(rs)[inst].Keys == ZonesNamed(rs, inst)
    ensures forall inst, z :: inst in Collected(rs) && z in Collected(rs)[inst] ==>
      Collected(rs)[inst][z] == PricesFor(rs, inst, z)
  {
    if rs != [] {
      var init, last := rs[..|rs| - 1], rs[|rs| - 1];
      CollectedSpec(init);
      var d := Collected(init);
      assert Collected(rs) == AddRecord(d, last);
      forall inst, z ensures (inst in d && z in d[inst]) <==> |PricesFor(init, inst, z)| > 0 {
        PricesNamed(init, inst, z);
      }
      forall inst | inst in Collected(rs)
        ensures Collected(rs)[inst].Keys == ZonesNamed(rs, inst)
      {
        if inst == last.instanceType && inst !in d {
          forall z ensures z !in ZonesNamed(init, inst) {
            PricesNamed(init, inst, z);
          }
        }
      }
    }
  }

  /** The accumulation loop over the history records. */
  method CollectPrices(records: seq<SpotRecord>) returns (data: map<string, map<string, seq<real>>>)
    ensures data.Keys == InstancesNamed(records)
    ensures forall inst :: inst in data ==> data[inst].Keys == ZonesNamed(records, inst)
    ensures forall inst, z :: inst in data && z in data[inst] ==> data[inst][z] == PricesFor(records, inst, z)
  {
    data := map[];
    var i := 0;
    while i < |records|
      invariant 0 <= i <= |records|
      invariant data == Collected(records[..i])
    {
      var rec := records[i];
      assert records[..i + 1][..i] == records[..i] && records[..i + 1][i] == rec;
      ghost var before := data;
      ghost var zs := if rec.instanceType in before then before[rec.instanceType] else map[];
      ghost var ps := if rec.zone in zs then zs[rec.zone] else [];
      if rec.instanceType !in data {
        data := data[rec.instanceType := map[]];
      }
      assert data[rec.instanceType] == zs;
      if rec.zone !in data[rec.instanceType] {
        data := data[rec.instanceType := data[rec.instanceType][rec.zone := []]];
      }
      var zoneData := data[rec.instanceType];
      assert zoneData[rec.zone] == ps && zoneData[rec.zone := ps + [rec.price]] == zs[rec.zone := ps + [rec.price]];
      data := data[rec.instanceType := zoneData[rec.zone := zoneData[rec.zone] + [rec.price]]];
      assert data.Keys == before.Keys + {rec.instanceType};
      assert data == AddRecord(before, rec);
      i := i + 1;
    }
    assert records[..|records|] == records;
    CollectedSpec(records);
  }

  /** The normalisation of one instance's zone map: every price list becomes its mean, zones
      outside the requested list are popped, and requested zones without prices are set to
      None. */
  method NormaliseZones(prices: map<string, seq<real>>, zones: seq<string>)
    returns (m: map<string, Option<real>>)
    requires forall z :: z in prices ==> |prices[z]| > 0
    ensures m.Keys == set z | z in zones
    ensures forall z :: z in m ==> m[z] == if z in prices then Some(Mean(prices[z])) else None
  {
    m := map[];
    var todo := prices.Keys;
    while todo != {}
      invariant todo <= prices.Keys
      invariant m.Keys == prices.Keys - todo
      invariant forall z :: z in m ==> m[z] == Some(Mean(prices[z]))
      decreases todo
    {
      var z :| z in todo;
      m := m[z := Some(Mean(prices[z]))];
      todo := todo - {z};
    }
    var extra := set z | z in m && z !in zones;
    m := m - extra;
    var k := 0;
    while k < |zones|
      invariant 0 <= k <= |zones|
      invariant m.Keys == (set z | z in prices && z in zones) + (set j | 0 <= j < k :: zones[j])
      invariant forall z :: z in m ==> m[z] == if z in prices then Some(Mean(prices[z])) else None
    {
      if zones[k] !in prices {
        m := m[zones[k] := None];
      }
      k := k + 1;
    }
  }

  // ---------------------------------------------------------------------------------------
  // Hardware projection
  // ---------------------------------------------------------------------------------------

  /** A product of the price list: its instance type and its attribute map. */
  datatype Product = Product(name: string, attributes: map<string, string>)

  /** The attributes copied into a hardware record, in the order the source lists them
      ('storage' appears twice there; the second write changes nothing). */
  const HardwareKeys: seq<string> :=
    ["vcpu", "memory", "networkPerformance", "storage", "physicalProcessor", "storage", "gpu",
     "clockSpeed", "instanceFamily"]

  /** The product of the last SKU carrying a name: each SKU resets the record of its name. */
  function LastNamed(products: seq<Product>, name: string): Option<Product> {
    if products == [] then None
    else if products[|products| - 1].name == name then Some(products[|products| - 1])
    else LastNamed(products[..|products| - 1], name)
  }

  function ProductNames(products: seq<Product>): set<string> {
    set i | 0 <= i < |products| :: products[i].name
  }

  /** The inner loop over the attribute keys: every listed key is present, holding the
      product's attribute or None. */
  method ProjectAttributes(attributes: map<string, string>) returns (hw: map<string, Option<string>>)
    ensures hw.Keys == set k | k in HardwareKeys
    ensures forall k :: k in hw ==> hw[k] == if k in attributes then Some(attributes[k]) else None
  {
    hw := map[];
    var i := 0;
    while i < |HardwareKeys|
      invariant 0 <= i <= |HardwareKeys|
      invariant hw.Keys == set j | 0 <= j < i :: HardwareKeys[j]
      invariant forall k :: k in hw ==> hw[k] == if k in attributes then Some(attributes[k]) else None
    {
      var key := HardwareKeys[i];
      if key in attributes {
        hw := hw[key := Some(attributes[key])];
      } else {
        hw := hw[key := None];
      }
      i := i + 1;
    }
  }

  /** The hardware table: one record per product name, projected from the last SKU with that
      name; every record holds every listed attribute key. */
  method HardwareInformation(products: seq<Product>) returns (r: map<string, map<string, Option<string>>>)
    ensures r.Keys == ProductNames(products)
    ensures forall name :: name in r ==>
      LastNamed(products, name).Some? &&
      r[name].Keys == (set k | k in HardwareKeys) &&
      forall k :: k in r[name] ==>
        r[name][k] == (var a := LastNamed(products, name).value.attributes;
                       if k in a then Some(a[k]) else None)
  {
    r := map[];
    var i := 0;
    while i < |products|
      invariant 0 <= i <= |products|
      invariant r.Keys == ProductNames(products[..i])
      invariant forall name :: name in r ==>
        LastNamed(products[..i], name).Some? &&
        r[name].Keys == (set k | k in HardwareKeys) &&
        forall k :: k in r[name] ==>
          r[name][k] == (var a := LastNamed(products[..i], name).value.attributes;
                         if k in a then Some(a[k]) else None)
    {
      assert products[..i + 1][..i] == products[..i];
      assert ProductNames(products[..i + 1]) == ProductNames(products[..i]) + {products[i].name} by {
        assert forall j :: 0 <= j < i ==> products[..i + 1][j] == products[..i][j];
      }
      var hw := ProjectAttributes(products[i].attributes);
      r := r[products[i].name := hw];
      i := i + 1;
    }
    assert products[..|products|] == products;
  }

  // ---------------------------------------------------------------------------------------
  // The three-source merge
  // ---------------------------------------------------------------------------------------

  /** The on-demand price of an instance, as the price list states it. */
  datatype OnDemandPrice = OnDemandPrice(price: string, description: string)

  /** What the hub knows about one instance type. `maxPrice` is the spot ceiling that
      `query_region_information` adds later; the source keeps it inside the spot-price map,
      here it is a field of its own. */
  datatype InstanceRecord = InstanceRecord(
    onDemandPricing: Option<OnDemandPrice>,
    spotPricing: map<string, Option<real>>,
    hardware: Option<map<string, Option<string>>>,
    maxPrice: Option<real>)

  datatype Instance = Instance(name: string, info: InstanceRecord)

  function Names(region: seq<Instance>): set<string> {
    set i | 0 <= i < |region| :: region[i].name
  }

  ghost predicate DistinctNames(region: seq<Instance>) {
    forall i, j :: 0 <= i < j < |region| ==> region[i].name != region[j].name
  }

  /** The record the merge builds for one name. */
  function MergedRecord(name: string, onDemand: map<string, OnDemandPrice>,
                        spot: map<string, map<string, Option<real>>>,
                        hardware: map<string, map<string, Option<string>>>,
                        regionZones: seq<string>): (rec: InstanceRecord)
    ensures rec.onDemandPricing.Some? <==> name in onDemand
    ensures name in onDemand ==> rec.onDemandPricing == Some(onDemand[name])
    ensures rec.hardware.Some? <==> name in hardware
    ensures name in hardware ==> rec.hardware == Some(hardware[name])
    ensures name in spot ==> rec.spotPricing == spot[name]
    ensures name !in spot ==>
      rec.spotPricing.Keys == (set z | z in regionZones) &&
      forall z :: z in rec.spotPricing ==> rec.spotPricing[z].None?
    ensures rec.maxPrice.None?
  {
    InstanceRecord(
      if name in onDemand then Some(onDemand[name]) else None,
      if name in spot then spot[name] else map z | z in regionZones :: None,
      if name in hardware then Some(hardware[name]) else None,
      None)
  }

  /** `get_all_instance_information_for_region` after its API calls: one record for every
      instance type named by any of the three sources, visited in the (unspecified) order of
      a set. */
  method AllInstanceInformation(onDemand: map<string, OnDemandPrice>,
                                spot: map<string, map<string, Option<real>>>,
                                hardware: map<string, map<string, Option<string>>>,
                                regionZones: seq<string>)
    returns (region: seq<Instance>)
    ensures Names(region) == onDemand.Keys + spot.Keys + hardware.Keys
    ensures DistinctNames(region)
    ensures forall i :: 0 <= i < |region| ==>
      region[i].info == MergedRecord(region[i].name, onDemand, spot, hardware, regionZones)
  {
    var all := onDemand.Keys + spot.Keys + hardware.Keys;
    var todo := all;
    region := [];
    while todo != {}
      invariant todo <= all
      invariant Names(region) == all - todo
      invariant DistinctNames(region)
      invariant forall i :: 0 <= i < |region| ==>
        region[i].info == MergedRecord(region[i].name, onDemand, spot, hardware, regionZones)
      decreases todo
    {
      var name :| name in todo;
      var rec := InstanceRecord(None, map[], None, None);
      if name in onDemand {
        rec := rec.(onDemandPricing := Some(onDemand[name]));
      }
      if name in spot {
        rec := rec.(spotPricing := spot[name]);
      } else {
        rec := rec.(spotPricing := map z | z in regionZones :: None);
      }
      if name in hardware {
        rec := rec.(hardware := Some(hardware[name]));
      }
      assert Names(region + [Instance(name, rec)]) == Names(region) + {name} by {
        assert forall j :: 0 <= j < |region| ==> (region + [Instance(name, rec)])[j] == region[j];
        assert (region + [Instance(name, rec)])[|region|].name == name;
      }
      region := region + [Instance(name, rec)];
      todo := todo - {name};
    }
  }
}
