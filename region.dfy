/** The per-region tables `hubFactory.query_region_information` derives from the merged
    instance records (aws_hub/aws_hub.py:147-169): the family table (family -> instance types,
    in region order), the zones where each instance is available as a spot instance, and each
    instance's spot ceiling. */
module Region {
  import opened Wrappers
  import opened Strs
  import opened Ec2

  /** `region_information[name]`. */
  function Lookup(region: seq<Instance>, name: string): (r: Option<InstanceRecord>)
    ensures r.Some? <==> name in Names(region)
  {
    if region == [] then None
    else if region[0].name == name then Some(region[0].info)
    else
      var r := Lookup(region[1..], name);
      assert Names(region) == {region[0].name} + Names(region[1..]) by {
        assert forall i :: 1 <= i < |region| ==> region[i] == region[1..][i - 1];
      }
      r
  }

  /** `name.split(".")[0]`. */
  function FamilyOf(name: string): string {
    Split(name, ".")[0]
  }

  /** `name.split(".")[1]`, which raises IndexError for a name without a dot. */
  function TypeOf(name: string): Result<string> {
    var parts := Split(name, ".");
    if |parts| < 2 then Err(IndexError) else Ok(parts[1])
  }

  /** `split(".")[1]` fails exactly for the names without a dot. */
  lemma TypeOfFails(name: string)
    ensures TypeOf(name).Err? <==> !Occurs(".", name)
  {
    if Occurs(".", name) {
      SplitAtOccurrence(name);
    } else {
      SplitWithoutSeparator(name, ".");
    }
  }

  /** A dot in the name gives at least two pieces. */
  lemma {:induction false} SplitAtOccurrence(s: string)
    requires Occurs(".", s)
    ensures |Split(s, ".")| >= 2
    decreases |s|
  {
    if s[..1] != "." {
      var i :| MatchAt(".", s, i);
      assert i != 0;
      assert MatchAt(".", s[1..], i - 1) by {
        assert s[1..][i - 1..i] == s[i..i + 1];
      }
      SplitAtOccurrence(s[1..]);
    }
  }

  /** The family table after the loop over `region`: every family maps to the types of its
      instances, in region order; the first name without a dot raises IndexError. */
  function FamilyTable(region: seq<Instance>): Result<map<string, seq<string>>> {
    if region == [] then Ok(map[])
    else
      var table :- FamilyTable(region[..|region| - 1]);
      var name := region[|region| - 1].name;
      var t :- TypeOf(name);
      var fam := FamilyOf(name);
      Ok(table[fam := (if fam in table then table[fam] else []) + [t]])
  }

  /** Once a prefix of the region has a name without a dot, so does the whole region. */
  lemma {:induction false} FamilyTablePrefixErr(region: seq<Instance>, n: nat)
    requires n <= |region| && FamilyTable(region[..n]).Err?
    ensures FamilyTable(region).Err?
    decreases |region| - n
  {
    if n < |region| {
      var init := region[..|region| - 1];
      assert init[..n] == region[..n];
      FamilyTablePrefixErr(init, n);
    } else {
      assert region[..n] == region;
    }
  }

  /** The names of the region's instances of one family, in region order. */
  function FamilyMembers(region: seq<Instance>, fam: string): seq<string> {
    if region == [] then []
    else
      var name := region[|region| - 1].name;
      FamilyMembers(region[..|region| - 1], fam) + (if FamilyOf(name) == fam then [name] else [])
  }

  function Families(region: seq<Instance>): set<string> {
    set i | 0 <= i < |region| :: FamilyOf(region[i].name)
  }

  /** `[family + "." + t for t in types]`. */
  function Qualify(fam: string, types: seq<string>): (r: seq<string>)
    ensures |r| == |types|
    ensures forall i :: 0 <= i < |types| ==> r[i] == fam + "." + types[i]
  {
    seq(|types|, i requires 0 <= i < |types| => fam + "." + types[i])
  }

  /** Every instance name holds exactly one dot, as EC2 instance names do. */
  ghost predicate DottedNames(region: seq<Instance>) {
    forall i :: 0 <= i < |region| ==> |Split(region[i].name, ".")| == 2
  }

  /** With dotted names the family table exists, is keyed by the region's families, and
      qualifying a family's types gives back exactly the region's instances of that family, in
      region order: the family split only produces instance names the region holds. */
  lemma {:induction false} FamilyTableSpec(region: seq<Instance>)
    requires DottedNames(region)
    ensures FamilyTable(region).Ok?
    ensures FamilyTable(region).value.Keys == Families(region)
    ensures forall fam :: fam in FamilyTable(region).value ==>
      Qualify(fam, FamilyTable(region).value[fam]) == FamilyMembers(region, fam)
  {
    if region != [] {
      var init := region[..|region| - 1];
      var name := region[|region| - 1].name;
      DottedSnoc(region);
      FamilyTableSpec(init);
      DottedName(name);
      var table := FamilyTable(init).value;
      var fam := FamilyOf(name);
      var t := TypeOf(name).value;
      var types := if fam in table then table[fam] else [];
      assert FamilyTable(region) == Ok(table[fam := types + [t]]);
      if fam !in table {
        FamilyMembersAbsent(init, fam);
      }
      QualifySnoc(fam, types, t);
    }
  }

  /** A dotted name is its family, a dot and its type. */
  lemma DottedName(name: string)
    requires |Split(name, ".")| == 2
    ensures TypeOf(name).Ok? && name == FamilyOf(name) + "." + TypeOf(name).value
  {
    var parts := Split(name, ".");
    JoinSplit(name, ".");
    assert parts[1..] == [parts[1]];
  }

  lemma DottedSnoc(region: seq<Instance>)
    requires region != [] && DottedNames(region)
    ensures DottedNames(region[..|region| - 1])
    ensures |Split(region[|region| - 1].name, ".")| == 2
    ensures Families(region) == Families(region[..|region| - 1]) + {FamilyOf(region[|region| - 1].name)}
  {
    var init := region[..|region| - 1];
    assert forall i :: 0 <= i < |init| ==> init[i] == region[i];
  }

  lemma QualifySnoc(fam: string, types: seq<string>, t: string)
    ensures Qualify(fam, types + [t]) == Qualify(fam, types) + [fam + "." + t]
  {
  }

  /** A family the table lacks has no members. */
  lemma {:induction false} FamilyMembersAbsent(region: seq<Instance>, fam: string)
    requires FamilyTable(region).Ok? && fam !in FamilyTable(region).value
    ensures FamilyMembers(region, fam) == []
  {
    if region != [] {
      FamilyMembersAbsent(region[..|region| - 1], fam);
    }
  }

  /** The zones where an instance counts as available for spot: those with a price that is
      neither None nor zero. */
  function AvailableZones(spot: map<string, Option<real>>): (zs: set<string>)
    ensures forall z :: z in zs <==> z in spot && spot[z].Some? && spot[z].value != 0.0
  {
    set z | z in spot && spot[z].Some? && spot[z].value != 0.0
  }

  /** The spot ceiling: the largest available price, when there is one. */
  ghost predicate IsMaxPrice(spot: map<string, Option<real>>, p: real) {
    (exists z :: z in AvailableZones(spot) && spot[z].value == p) &&
    forall z :: z in AvailableZones(spot) ==> spot[z].value <= p
  }
}
