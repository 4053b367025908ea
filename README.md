# aws-hub nodegroup synthesis, modelled in Dafny

aws-hub turns one settings document into two outputs: an eksctl cluster configuration
(EC2 autoscaling nodegroups) and a JupyterHub profile list. Each user *group* names instance
families or instance types, a type (`onDemand` or `spot`), zone suffixes and nodegroup
overrides. The `hubFactory` object takes the groups through a fixed pipeline:

1. apply the group defaults and prefix the zones with the region;
2. split groups by family, then by instance;
3. record the hub's instances;
4. drop the zones where some instance of the group has no spot price, then split by zone;
5. build one on-demand or spot nodegroup per group and fill the name tokens into it.

The nodegroups, with the cluster metadata, form the eksctl document.

This project models that pipeline over plain values. It covers:

- the two generic tree utilities: the recursive dict merge and the recursive string rename;
- the per-instance records assembled from the AWS answers: spot-price averaging and zone
  normalisation, the hardware projection, and the three-source merge;
- the region tables: the family table, spot availability and spot ceilings;
- the group stages, the nodegroup construction and formatting, and the eksctl document;
- the structure of the profile list.

The API answers, the settings document and the region's instance records are inputs.
Python's `str.format` is a parameter `fmt`, and Python's `float()` on strings is a
parameter `parse`.

Modules, one per concern:

- `Wrappers`: `Option`, `Result` and the `Exception` kinds the modelled code raises.
- `Strs`: `split`, `join`, `replace(".", "-")` and `upper()` on `seq<char>`.
- `Tree`: configuration values (a dict keeps insertion order), `recursive_dict_copy` and
  `recursive_rename_values_in_object`.
- `Ec2`: spot-price post-processing, the hardware projection and the three-source merge.
- `Region`: the family table, spot availability and the spot ceiling.
- `Groups`: the configuration, the group records and every group stage as a function.
- `Nodegroups`: on-demand and spot nodegroups, the format tokens and the per-group dispatch.
- `Factory`: class `HubFactory`. Its fields are the factory's state. Its methods run the
  source's loops and are proved to compute the stage functions.
- `Profiles`: `make_profile_list`.

The model keeps these quirks of the code:

- The default configuration stores its zone suffixes under the misspelled key
  `avalabilityZones`. So a group without zones, and the eksctl document, need the user to
  supply `availabilityZones`.
- A zero spot price counts as unavailable.
- A spot group of a single instance gets the most expensive instance of its family added.
  When that instance is the group's own, the group yields no nodegroup.
- On a tie, the most expensive instance is the first in region order, as a stable sort
  would put it.
- A group without zones skips the availability check entirely.

## Model

| member | source | states |
|---|---|---|
| Strs.Split | aws_hub/aws_hub.py:148-149 | `split` always yields at least one piece |
| Strs.Hyphenate | aws_hub/aws_hub.py:34 | `replace(".", "-")` keeps the length and turns exactly the dots into hyphens |
| Strs.Upper | aws_hub/aws_hub.py:35 | `upper()` turns each ASCII a-z into A-Z and keeps every other character, so no lower-case ASCII letter remains |
| Strs.UpperIdempotent | aws_hub/aws_hub.py:35 | upper-casing an upper-cased family name changes nothing |
| Strs.JoinSplit | aws_hub/aws_hub.py:277 | joining the pieces of a split with the same separator gives the string back |
| Strs.SplitDotted | aws_hub/aws_hub.py:148-149 | a name `a.b` whose parts have no dot splits into exactly `[a, b]` |
| Strs.SplitAround | aws_hub/aws_hub.py:283 | with a one-character separator, the pieces of `a+sep+b` are the pieces of `a` followed by those of `b` |
| Tree.Put | aws_hub/utils.py:26-29 | `d[k] = v` stores `v` under `k`, changes no other key, and adds `k` to the keys |
| Tree.PutNew | aws_hub/utils.py:26-29 | assigning a key the dict lacks appends it at the end, as dict insertion order does |
| Tree.RecursiveDictCopy | aws_hub/utils.py:20-29 | the in-place loop leaves the target `MergeState` describes, including the writes made before a TypeError; it raises exactly when `Merge` does and otherwise leaves `Merge`'s result |
| Tree.MergeStateAgrees | aws_hub/utils.py:20-29 | the in-place run raises exactly when the merge does, with the same exception, and on success leaves the merged target |
| Tree.PartialWrites | aws_hub/utils.py:20-29 | a merge that raises keeps its earlier writes: `{a: x, b: {c: z}}` into `{b: y}` leaves `a: x` in the target |
| Tree.MergeScalars | aws_hub/utils.py:20-29 | a source without nested dicts always merges; each of its keys takes the source's value and every other key keeps the target's |
| Tree.MergeOkIff | aws_hub/utils.py:20-29 | the merge raises exactly when some dict-valued source entry meets a non-dict target value at any depth |
| Tree.MergeEntryOkIff | aws_hub/utils.py:21-29 | one iteration raises exactly when its entry is incompatible with the target |
| Tree.MergeEntryWrites | aws_hub/utils.py:21-29 | a successful iteration writes its key, or leaves the target alone when an empty dict meets a non-dict |
| Tree.MergeEntryGet | aws_hub/utils.py:21-29 | one iteration, key by key, as `MergedAt` describes it |
| Tree.MergeGet | aws_hub/utils.py:20-29 | each key holds the target's value when the source lacks it; a non-dict source value replaces wholesale; a dict merges recursively, into a fresh dict when the target lacks the key |
| Tree.MergeKeys | aws_hub/utils.py:20-29 | after a merge the target holds exactly its old keys and the source's keys |
| Tree.MergeFresh | aws_hub/utils.py:25-27 | merging into a target that shares no key appends a copy of the source; merging into `{}` reproduces it |
| Tree.CompatibleAfterPut | aws_hub/utils.py:21-29 | whether a source can merge depends on the target only under the source's own keys |
| Tree.RenameObject | aws_hub/utils.py:40-52 | a dict or list is rebuilt with every string renamed; any other object gives None |
| Tree.RenameList | aws_hub/utils.py:45-48 | the list branch keeps length and order, renaming item by item |
| Tree.RenameLookup | aws_hub/utils.py:40-44 | a key of the renamed dict holds the renamed value of the last entry whose key renames to it |
| Tree.RenameKeys | aws_hub/utils.py:40-44 | the renamed dict holds exactly the renamed keys |
| Tree.RenameNoCollision | aws_hub/utils.py:40-44 | without key collisions the renamed dict is the original renamed entry by entry, in the same order |
| Tree.RenameFixed | aws_hub/utils.py:31-52 | renaming with a function that fixes every string gives the value back |
| Tree.RenameEntriesFixed | aws_hub/utils.py:40-44 | under such a function no keys collide and every entry is kept |
| Ec2.OsDescription | aws_hub/ec2_instance_information.py:70-77 | the product description for each accepted operating system name; other names leave it unbound |
| Ec2.SpotPrices | aws_hub/ec2_instance_information.py:69-125 | an unmapped operating system raises UnboundLocalError; otherwise every named instance maps each requested zone to its mean price, or None when it has none, and no other zone survives |
| Ec2.CollectPrices | aws_hub/ec2_instance_information.py:90-107 | the accumulation loop groups every record's price under its instance and zone, in record order |
| Ec2.CollectedSpec | aws_hub/ec2_instance_information.py:90-107 | the collected lists are keyed by the named instances and zones and hold every price of the pair in order |
| Ec2.PricesNamed | aws_hub/ec2_instance_information.py:98-107 | an (instance, zone) pair has prices exactly when some record names it |
| Ec2.MeanBounds | aws_hub/ec2_instance_information.py:112 | the mean lies between the least and the greatest averaged price |
| Ec2.SumBounds | aws_hub/ec2_instance_information.py:112 | the sum lies between length times the least and length times the greatest price |
| Ec2.NormaliseZones | aws_hub/ec2_instance_information.py:109-123 | a zone map after averaging, popping extra zones and adding missing ones as None has exactly the requested zones |
| Ec2.ProjectAttributes | aws_hub/ec2_instance_information.py:203-210 | every listed attribute key is present, holding the product's attribute or None |
| Ec2.HardwareInformation | aws_hub/ec2_instance_information.py:192-212 | one hardware record per product name, projected from the last SKU of that name |
| Ec2.MergedRecord | aws_hub/ec2_instance_information.py:238-254 | a known name's record holds exactly the source's on-demand price and hardware record, and lacks them for an unknown name; its spot map is the source's, or every region zone with None |
| Ec2.AllInstanceInformation | aws_hub/ec2_instance_information.py:227-254 | one record per name in the union of the three sources, each name once |
| Region.Lookup | aws_hub/aws_hub.py:340 | `region_information[name]` exists exactly for the region's names |
| Region.TypeOfFails | aws_hub/aws_hub.py:149 | `name.split(".")[1]` raises IndexError exactly for a name without a dot |
| Region.FamilyTablePrefixErr | aws_hub/aws_hub.py:147-154 | once a name without a dot is reached, the table loop raises |
| Region.FamilyTableSpec | aws_hub/aws_hub.py:147-154 | with dotted names the family table is keyed by the region's families; a family's qualified types are its instances, in region order |
| Region.DottedName | aws_hub/aws_hub.py:148-149 | a dotted name is its family, a dot and its type |
| Groups.MapAll | aws_hub/aws_hub.py:195-203 | a loop appending one result per element succeeds exactly when every element does; otherwise the first exception is raised |
| Groups.FlattenAppend | aws_hub/aws_hub.py:227 | `sum(lists, [])` distributes over concatenation |
| Groups.FlattenSingletons | aws_hub/aws_hub.py:249 | concatenating singleton lists gives the elements back |
| Groups.FlattenMembers | aws_hub/aws_hub.py:301 | an element is in `sum(lists, [])` exactly when it is in one of the lists |
| Factory.ConfigWithMerge | aws_hub/aws_hub.py:172-174 | `recursive_dict_copy` of the user's `config` section over the default configuration always succeeds, and key by key the result is the configuration `ConfigWith` builds |
| Groups.DefaultGroupSpec | aws_hub/aws_hub.py:196-202 | a defaulted group keeps the user's fields and takes the defaults for the rest; zones come from the group or the configuration, prefixed in order; KeyError exactly when neither has zones |
| Groups.FamilyGroupsSpec | aws_hub/aws_hub.py:211-225 | a family-split group becomes one group per family, without a family list, holding exactly that family's instances; a family the region lacks raises |
| Groups.SeparateFamiliesUnflagged | aws_hub/aws_hub.py:224-227 | groups not split by family pass through unchanged and in order |
| Groups.InstanceSplitRejoin | aws_hub/aws_hub.py:240-245 | the pieces' instance lists concatenate to the group's; each piece differs from the group only there |
| Groups.ZoneSplitRejoin | aws_hub/aws_hub.py:256-261 | the pieces' zone lists concatenate to the group's; each piece differs from the group only there |
| Groups.SeparateInstancesCount | aws_hub/aws_hub.py:237-251 | the instance split yields the sum of the per-group piece counts |
| Groups.SeparateInstancesCons | aws_hub/aws_hub.py:237-251 | the instance split handles the first group, then the rest |
| Groups.SeparateZonesCount | aws_hub/aws_hub.py:253-267 | the zone split yields the sum of the per-group piece counts |
| Groups.SeparateZonesCons | aws_hub/aws_hub.py:253-267 | the zone split handles the first group, then the rest |
| Groups.SeparateInstancesIdempotent | aws_hub/aws_hub.py:237-251 | splitting by instance twice is splitting once |
| Groups.SeparateInstancesAppend | aws_hub/aws_hub.py:237-251 | the instance split of two runs of groups is the two splits one after the other |
| Groups.InstancePiecesFixed | aws_hub/aws_hub.py:240-249 | groups with at most one instance are left unchanged |
| Groups.FirstUnknown | aws_hub/aws_hub.py:388 | finds the first instance the availability table lacks, which is the KeyError raised |
| Groups.KeepZonesSnoc | aws_hub/aws_hub.py:387-392 | checking one more zone appends it exactly when every instance is available there |
| Groups.KeepZonesSpec | aws_hub/aws_hub.py:386-394 | the kept zones are, in order, exactly the group's zones where every instance is available; with no instances all are kept |
| Groups.EvaluateZonesSpec | aws_hub/aws_hub.py:380-397 | validation keeps the group count and changes only the zone lists, each a subsequence serving all its instances |
| Groups.ValidatedThenSplit | aws_hub/aws_hub.py:408-409 | splitting a validated group keeps every piece's zones available to all its instances |
| Groups.Dedup | aws_hub/aws_hub.py:302 | keeps every element once, the same set of elements |
| Groups.UniqueInstancesSpec | aws_hub/aws_hub.py:297-302 | the unique instances exist exactly when every group has an instance list; each named instance appears once |
| Groups.HubInstancesSpec | aws_hub/aws_hub.py:371-373 | the hub table holds exactly the named instances with their region records; it exists exactly when the region knows all of them |
| Nodegroups.StringsOfStrList | aws_hub/aws_hub.py:276-277 | a list of names stored as a configuration value is read back as exactly those names |
| Nodegroups.BaseNodegroupSpec | aws_hub/aws_hub.py:305-307 | a base nodegroup needs defaults; it holds the group's zones and, elsewhere, the overrides merged into the defaults |
| Nodegroups.OnDemandSpec | aws_hub/aws_hub.py:304-319 | an on-demand nodegroup exists exactly for one instance, which becomes `instanceType`; none or several raise |
| Nodegroups.Max | aws_hub/aws_hub.py:341 | `max` is one of the prices and bounds them all |
| Nodegroups.FamilyPrices | aws_hub/aws_hub.py:349-355 | the collected family prices all belong to the group's family |
| Nodegroups.MostExpensiveSpec | aws_hub/aws_hub.py:357 | the chosen entry has the largest price and every earlier entry is strictly cheaper, as a stable descending sort puts first |
| Nodegroups.CeilingCovers | aws_hub/aws_hub.py:337-343 | with non-negative prices and surcharge, the group ceiling covers every instance's ceiling |
| Nodegroups.WithCapacityDefaults | aws_hub/aws_hub.py:330-333 | each capacity setting the user gave is kept, an absent one becomes 0, nothing else changes |
| Nodegroups.WithDistribution | aws_hub/aws_hub.py:326-327 | an absent `instancesDistribution` becomes an empty dict; nothing else changes |
| Nodegroups.SpotDistribution | aws_hub/aws_hub.py:329-343 | the distribution holds the capacity defaults, the instance types (the group's, then the added one) and the ceiling; other settings stay |
| Nodegroups.GroupCeilings | aws_hub/aws_hub.py:338-340 | one spot ceiling per instance, in group order; the first missing one raises KeyError |
| Nodegroups.SpotSpec | aws_hub/aws_hub.py:321-369 | a spot nodegroup keeps the base nodegroup except its distribution; a single instance is followed by its family's most expensive instance, which is a different one |
| Nodegroups.SpotNone | aws_hub/aws_hub.py:348-365 | a spot group yields None exactly when its single instance is the most expensive of its family |
| Nodegroups.LookupSnoc | aws_hub/aws_hub.py:340 | `region_information[name]` finds the first record of that name |
| Nodegroups.FamilyPricesHold | aws_hub/aws_hub.py:349-355 | an instance with a spot ceiling is among its family's priced instances |
| Nodegroups.SpotSingle | aws_hub/aws_hub.py:339-343 | for a single instance the ceiling is its own spot ceiling raised by `overPayBy` percent |
| Nodegroups.Companion | aws_hub/aws_hub.py:349-360 | the instance added to a single-instance spot group is of the same family and costs at least as much |
| Nodegroups.Strings | aws_hub/aws_hub.py:277 | the strings of a list value, item for item |
| Nodegroups.InstanceTokensOfNames | aws_hub/aws_hub.py:275-277 | a distribution listing instance names yields the first name and all the names joined by '-', dots turned into hyphens |
| Nodegroups.StringInstanceTypes | aws_hub/aws_hub.py:276-277 | `instanceTypes` written as the string `m5.xl` is taken character by character: the tokens are `m` and `m-5---x-l`, and nothing raises |
| Nodegroups.ShortZonesRoundTrip | aws_hub/aws_hub.py:283 | zones built as region + suffix shorten back to their concatenated suffixes |
| Nodegroups.HyphenateJoin | aws_hub/aws_hub.py:277 | `"-".join(names).replace(".", "-")` is the hyphenated names joined by '-' |
| Nodegroups.FormatNodegroupSpec | aws_hub/aws_hub.py:269-295 | the formatted nodegroup is a dict; each rewritten key holds the rewritten value of the last key that rewrites to it |
| Nodegroups.SynthesizeAllSpec | aws_hub/aws_hub.py:411-427 | processing succeeds only when every type is valid; it yields at least one nodegroup per on-demand group and at most one per group |
| Nodegroups.SynthesizeAllAppend | aws_hub/aws_hub.py:411-427 | processing two runs of groups gives their nodegroups one after the other |
| Factory.EksctlDocumentSpec | aws_hub/aws_hub.py:490-499 | the document has exactly the five keys, each once, with the metadata, the prefixed zones and the nodegroups |
| Factory.SpotSummary | aws_hub/aws_hub.py:156-169 | the zones are the available ones; a ceiling exists exactly when one is, and it is their largest price |
| Factory.MisspelledDefaultZones | aws_hub/aws_hub.py:107 | a group without zones can be defaulted exactly when the user supplies `availabilityZones` |
| Factory.PipelineZones | aws_hub/aws_hub.py:408-409 | every group reaching nodegroup construction with zones runs only where all its instances are available |
| Factory.SynthesizeStep | aws_hub/aws_hub.py:412-427 | one more processed group appends its nodegroup, if any |
| Factory.SynthesizeStops | aws_hub/aws_hub.py:412-427 | an exception in one group ends the whole loop with that exception |
| Factory.FamilyTableStep | aws_hub/aws_hub.py:148-154 | one more instance appends its type to its family, or raises IndexError |
| Factory.AvailabilityStep | aws_hub/aws_hub.py:157-166 | one more instance adds its available zones under its name |
| Factory.CeilingStep | aws_hub/aws_hub.py:167-169 | one more instance gets its ceiling when it has available zones |
| Factory.IndexRegion | aws_hub/aws_hub.py:147-169 | the loop builds the family table, every instance's spot zones and every spot ceiling; IndexError exactly when a name has no dot |
| Factory.HubFactory.constructor | aws_hub/aws_hub.py:125-135 | a fresh factory holds no configuration, region data or results |
| Factory.HubFactory.SetConfiguration | aws_hub/aws_hub.py:171-187 | stores the defaulted configuration and the nodegroup defaults; raises without groups; merges the hub defaults into the stored ones in place, keeping the writes made before a TypeError |
| Factory.HubFactory.QueryRegionInformation | aws_hub/aws_hub.py:137-169 | without configuration raises; otherwise stores the family table, the availability table and the ceilinged records |
| Factory.HubFactory.ApplyDefaultsToGroups | aws_hub/aws_hub.py:193-205 | the loop computes `ApplyDefaults` |
| Factory.HubFactory.SeparateFamiliesOf | aws_hub/aws_hub.py:208-230 | raises without configuration; otherwise the loops compute `SeparateFamilies` over the stored table |
| Factory.HubFactory.SeparateInstancesOf | aws_hub/aws_hub.py:237-251 | the loops compute `SeparateInstances` |
| Factory.HubFactory.SeparateZonesOf | aws_hub/aws_hub.py:253-267 | the loops compute `SeparateZones` |
| Factory.HubFactory.EvaluateZonesOf | aws_hub/aws_hub.py:380-397 | the loops compute `EvaluateZones` over the stored availability table |
| Factory.HubFactory.SetHubInstances | aws_hub/aws_hub.py:371-373 | stores the hub table of the named instances, or raises KeyError leaving it unchanged |
| Factory.HubFactory.CreateNodegroups | aws_hub/aws_hub.py:411-427 | the loop computes `SynthesizeAll` |
| Factory.HubFactory.ProcessGroups | aws_hub/aws_hub.py:399-429 | runs the stages in order; stores the hub table once the instance split succeeds and the nodegroups at the end |
| Factory.HubFactory.CreateEksctlConfig | aws_hub/aws_hub.py:485-501 | raises without configuration or without `availabilityZones`; otherwise stores the eksctl document |
| Profiles.WithoutCommas | aws_hub/aws_hub.py:76 | `replace(",", "")` keeps every other character and leaves no comma |
| Profiles.WithoutCommasJoinSplit | aws_hub/aws_hub.py:76 | dropping the commas is splitting at them and joining the pieces with nothing between, so the other characters stay in order |
| Profiles.ProfileOf | aws_hub/aws_hub.py:31-41 | a profile needs the on-demand pricing and then the hardware record, each missing one raising KeyError |
| Profiles.MissingKey | aws_hub/aws_hub.py:36-41 | a hardware record lacking any key the profile reads raises KeyError naming the first absent key in reading order |
| Profiles.MakeProfileList | aws_hub/aws_hub.py:20-98 | one profile per instance, in order; the first instance that cannot be profiled raises |
| Profiles.DisplayNameDotted | aws_hub/aws_hub.py:34 | the display name of `family.size` is `family-size` |
| Profiles.ProfileNaming | aws_hub/aws_hub.py:34-61 | for `family.size` the display name is `family-size`, the size shown is `size` and the family shown is upper-case |
| Profiles.HyphenateInjective | aws_hub/aws_hub.py:34 | replacing dots loses nothing on names without hyphens |
| Profiles.DistinctDisplayNames | aws_hub/aws_hub.py:31-34 | distinct instance names without hyphens give distinct display names |
| Profiles.DescriptionPrefix | aws_hub/aws_hub.py:43-46 | the description always starts with the CPU and RAM part |
| Profiles.GpuDescribed | aws_hub/aws_hub.py:43-46 | the description ends in a GPU count exactly when the GPU attribute is truthy |

## Left out

- The AWS calls are not modelled. Their answers are inputs: spot-price pages, zone lists,
  price-list products, on-demand prices and each product's attributes. This covers boto3
  pagination, the endpoint file, the on-demand term extraction, the date window and the
  `float()` of spot prices.
- `get_instance_descriptions` and `get_spot_price_for_instance_families` are not modelled.
  The hub pipeline does not use them.
- `query_region_information` takes the merged records as a parameter instead of fetching
  them. Of the `self.config['region']` lookup, only its failure is modelled.
- Lines 158-160 of `aws_hub.py` are unreachable: every merged record has spot pricing.
- The spot ceiling is a separate record field. The source stores it as the key `maxPrice`
  inside the zone map. A second query over the same records would then count `maxPrice` as
  a zone. That is not reproduced.
- The "Trying now..." paths re-query or re-process and then call themselves again. These
  are preconditions here: region data loaded, or nodegroups processed. The members below
  carry them.
- Factory.HubFactory.SeparateFamiliesOf: requires the family table loaded when a
  configuration exists. The source's retry (aws_hub.py lines 231-235) does not always end:
  when the region query yields no instance, the family table is `{}` again, which is falsy,
  and `separate_families` calls itself until Python raises RecursionError.
- Factory.HubFactory.SetHubInstances: requires the region data loaded. The source's retry
  (aws_hub.py lines 374-378) likewise recurses until RecursionError when the region query
  yields no instance, because `{}` is falsy.
- Factory.HubFactory.ProcessGroups: requires the region data loaded once groups and a
  configuration exist.
- Factory.HubFactory.CreateEksctlConfig: requires non-empty processed nodegroups. The
  source's retry (aws_hub.py lines 502-506) does not always end: with `groups: []`, or with
  every spot group skipped (lines 419-423), re-processing gives `[]` again and
  `create_eksctl_config` calls itself until Python raises RecursionError.
- Factory.HubFactory.EvaluateZonesOf: on a factory whose region was never queried, the
  source's `instance_availability` is the class attribute None, and indexing it (aws_hub.py
  line 388) raises TypeError. The model keeps "never queried" as an empty map, so the same
  call raises KeyError naming the first instance instead. Within ProcessGroups the region
  data is loaded first, so only a direct call differs.
- Factory.HubFactory.CreateNodegroups: the exception kind differs on a factory that was never
  queried or configured. The source's `region_information` is then None, and line 340 raises
  TypeError, where the model's empty record list gives KeyError for a spot group. Before
  `set_configuration`, `self.nodegroupDefaults` does not exist and lines 305 and 322 raise
  AttributeError. The model holds None both for "never set" and for nodegroup defaults set
  to None, and gives TypeError in both cases.
- Factory.HubFactory.QueryRegionInformation: when a name has no dot, its contract does not
  say how far the tables were filled in.
- The configuration and the groups are typed records. A key the code never reads is not
  kept. A value of the wrong type (a region that is not a string, say) is not modelled.
- Exceptions are constructors of `Exception`. Their message texts, including the YAML dumps
  of the offending group, are not modelled.
- `str.format` is the parameter `fmt`, a total function. The KeyError, IndexError or
  ValueError that `str.format` raises on an unknown field or a stray brace is not modelled.
  In the source it would propagate out of `process_groups`.
- The `ValueError` handler of `process_groups` (lines 421-423) is kept, but no modelled
  path of spot construction raises ValueError.
- `list(set(...))` in `get_unique_instances` has unspecified order. The model keeps first
  occurrences in group order. The three-source merge visits its name set in an arbitrary
  order that the contract leaves open.
- `default_hub_config` is a class attribute in the source, shared by every factory. Here
  it is a per-object field.
- `deepcopy` and aliasing are invisible: everything is a value. In particular, the
  `instanceTypes` list aliases the group's instance list and the append at line 360
  changes both. The group is not read again.
- Only the hub-defaults merge keeps the writes made before a TypeError (`MergeState`). The
  other merges write into fresh copies, which the exception discards.
- Dict keys are strings only. YAML can load int or bool keys (`1:`, `on:`), which
  `recursive_dict_copy` and the rename carry through unchanged; such keys are not modelled.
- Strs.Upper: maps ASCII a-z only. Python's `upper()` also maps other Unicode letters and can
  change the length (`'ß'` becomes `'SS'`).
- Numbers are one kind (`real`). Python's int `0` and float `0.0` are not told apart.
- make_profile_list's float formatting is not modelled: the price text, the CPU guarantee,
  the GiB-to-MB factor and the memory limits. The profile keeps the parsed on-demand price,
  CPU count and memory in GiB.
- `create_hub_config`, `apply_defaults_to_hub_profiles` and `format_profile` are not part
  of this model. Nor are `set_configuration_from_file`, the YAML helpers, the `dump_*`
  methods and `main`, which are file and console I/O.
- Warnings printed to standard error are not modelled.
