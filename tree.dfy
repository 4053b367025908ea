/** The nested configuration values the hub reads and writes (what YAML loads into Python
    dicts and lists), and the two generic tree utilities of `aws_hub/utils.py`:
    `recursive_dict_copy` (merge a source dict into a target dict) and
    `recursive_rename_values_in_object` (rewrite every string of a nested value). */
module Tree {
  import opened Wrappers

  /** A loaded configuration value. Dict keys are strings and a dict keeps the insertion order
      of its keys, as a Python dict does. */
  datatype Value =
    | Str(s: string)
    | Num(n: real)
    | Bool(b: bool)
    | Null
    | List(items: seq<Value>)
    | Dict(entries: seq<Entry>)

  datatype Entry = Entry(key: string, val: Value)

  /** `d.get(k)`: the value stored under `k`. */
  function Get(es: seq<Entry>, k: string): Option<Value> {
    if es == [] then None
    else if es[0].key == k then Some(es[0].val)
    else Get(es[1..], k)
  }

  function Keys(es: seq<Entry>): set<string> {
    if es == [] then {} else {es[0].key} + Keys(es[1..])
  }

  /** No key is stored twice: every dict Python builds has this shape. */
  ghost predicate DistinctKeys(es: seq<Entry>) {
    es == [] || (es[0].key !in Keys(es[1..]) && DistinctKeys(es[1..]))
  }

  /** Distinct keys at every level of nesting. */
  ghost predicate WellFormed(v: Value)
    decreases v, 1
  {
    match v
    case List(items) => forall i :: 0 <= i < |items| ==> WellFormed(items[i])
    case Dict(es) => WellFormedEntries(es)
    case _ => true
  }

  ghost predicate WellFormedEntries(es: seq<Entry>)
    decreases es, 0
  {
    es == [] || (es[0].key !in Keys(es[1..]) && WellFormed(es[0].val) && WellFormedEntries(es[1..]))
  }

  lemma GetNone(es: seq<Entry>, k: string)
    ensures Get(es, k).None? <==> k !in Keys(es)
  {
  }

  /** `d[k] = v`: an existing key keeps its position and takes the new value; a new key is
      appended at the end. */
  function Put(es: seq<Entry>, k: string, v: Value): (r: seq<Entry>)
    ensures Get(r, k) == Some(v)
    ensures forall k' :: k' != k ==> Get(r, k') == Get(es, k')
    ensures Keys(r) == Keys(es) + {k}
  {
    if es == [] then [Entry(k, v)]
    else if es[0].key == k then [Entry(k, v)] + es[1..]
    else [es[0]] + Put(es[1..], k, v)
  }

  /** Assigning a key the dict does not hold appends it. */
  lemma {:induction false} PutNew(es: seq<Entry>, k: string, v: Value)
    requires k !in Keys(es)
    ensures Put(es, k, v) == es + [Entry(k, v)]
  {
    if es != [] {
      assert es[0].key != k && k !in Keys(es[1..]);
      PutNew(es[1..], k, v);
      calc {
        Put(es, k, v);
        [es[0]] + Put(es[1..], k, v);
        [es[0]] + (es[1..] + [Entry(k, v)]);
        { assert es == [es[0]] + es[1..]; }
        es + [Entry(k, v)];
      }
    }
  }

  // ---------------------------------------------------------------------------------------
  // recursive_dict_copy
  // ---------------------------------------------------------------------------------------

  /** The target after `recursive_dict_copy(source, target)`: source entries are applied in
      order; a dict-valued entry merges into the dict the target holds under its key (a fresh
      empty dict when the key is missing); any other value overwrites. Merging a non-empty dict
      into a target value that is not a dict subscripts that value and raises TypeError. */
  function Merge(source: seq<Entry>, target: seq<Entry>): Result<seq<Entry>>
    decreases source, 1
  {
    if source == [] then Ok(target)
    else
      var t :- MergeEntry(source[0], target);
      Merge(source[1..], t)
  }

  /** One iteration of the merge loop. */
  function MergeEntry(e: Entry, target: seq<Entry>): Result<seq<Entry>>
    decreases e, 0
  {
    match e.val
    case Dict(sub) =>
      (match Get(target, e.key)
       case None =>
         var n :- Merge(sub, []);
         Ok(Put(target, e.key, Dict(n)))
       case Some(Dict(t)) =>
         var n :- Merge(sub, t);
         Ok(Put(target, e.key, Dict(n)))
       case Some(_) =>
         if sub == [] then Ok(target) else Err(TypeError("item assignment on a non-dict")))
    case _ => Ok(Put(target, e.key, e.val))
  }

  /** The target as `recursive_dict_copy` leaves it, with the exception it raised, if any. The
      copy writes in place, so the writes made before a TypeError stay in the target, nested
      dicts included. */
  datatype Outcome = Outcome(state: seq<Entry>, error: Option<Exception>)

  /** The merge loop run in place: on a TypeError it stops, keeping what it wrote so far. */
  function MergeState(source: seq<Entry>, target: seq<Entry>): Outcome
    decreases source, 1
  {
    if source == [] then Outcome(target, None)
    else
      var o := MergeEntryState(source[0], target);
      if o.error.Some? then o else MergeState(source[1..], o.state)
  }

  /** One iteration run in place. A missing key is first bound to a fresh dict, so a failing
      nested copy still leaves that dict, partly filled, under the key. */
  function MergeEntryState(e: Entry, target: seq<Entry>): Outcome
    decreases e, 0
  {
    match e.val
    case Dict(sub) =>
      (match Get(target, e.key)
       case None =>
         var o := MergeState(sub, []);
         Outcome(Put(target, e.key, Dict(o.state)), o.error)
       case Some(Dict(t)) =>
         var o := MergeState(sub, t);
         Outcome(Put(target, e.key, Dict(o.state)), o.error)
       case Some(_) =>
         Outcome(target, if sub == [] then None else Some(TypeError("item assignment on a non-dict"))))
    case _ => Outcome(Put(target, e.key, e.val), None)
  }

  /** The in-place run raises exactly when `Merge` does, with the same exception, and on
      success leaves the target `Merge` computes. */
  lemma {:induction false} MergeStateAgrees(source: seq<Entry>, target: seq<Entry>)
    ensures var o := MergeState(source, target);
      var m := Merge(source, target);
      (o.error.None? <==> m.Ok?) &&
      (m.Ok? ==> o.state == m.value) &&
      (m.Err? ==> o.error == Some(m.error))
    decreases source, 1
  {
    if source != [] {
      MergeEntryStateAgrees(source[0], target);
      var o := MergeEntryState(source[0], target);
      if o.error.None? {
        MergeStateAgrees(source[1..], o.state);
      }
    }
  }

  lemma {:induction false} MergeEntryStateAgrees(e: Entry, target: seq<Entry>)
    ensures var o := MergeEntryState(e, target);
      var m := MergeEntry(e, target);
      (o.error.None? <==> m.Ok?) &&
      (m.Ok? ==> o.state == m.value) &&
      (m.Err? ==> o.error == Some(m.error))
    decreases e, 0
  {
    match e.val {
      case Dict(sub) =>
        match Get(target, e.key) {
          case None => MergeStateAgrees(sub, []);
          case Some(Dict(t)) => MergeStateAgrees(sub, t);
          case Some(_) =>
        }
      case _ =>
    }
  }

  /** A merge that raises still writes: when a non-empty source dict meets a string, the
      entries before it are already in the target. */
  lemma PartialWrites()
    ensures var source := [Entry("a", Str("x")), Entry("b", Dict([Entry("c", Str("z"))]))];
      var target := [Entry("b", Str("y"))];
      Merge(source, target).Err? &&
      MergeState(source, target) ==
        Outcome([Entry("b", Str("y")), Entry("a", Str("x"))], Some(TypeError("item assignment on a non-dict")))
  {
    var source := [Entry("a", Str("x")), Entry("b", Dict([Entry("c", Str("z"))]))];
    var target := [Entry("b", Str("y"))];
    var t1 := [Entry("b", Str("y")), Entry("a", Str("x"))];
    assert MergeEntryState(source[0], target) == Outcome(t1, None);
    assert Get(t1, "b") == Some(Str("y"));
    assert MergeEntryState(source[1], t1).error.Some?;
    assert source[1..][1..] == [];
    MergeStateAgrees(source, target);
  }

  /** `recursive_dict_copy`, as the loop the source runs: entries of `source` are written into
      the target one at a time, recursing into nested dicts; a TypeError stops the copy and
      leaves the writes made so far. */
  method RecursiveDictCopy(source: seq<Entry>, target: seq<Entry>)
      returns (t: seq<Entry>, error: Option<Exception>)
    ensures Outcome(t, error) == MergeState(source, target)
    ensures error.None? <==> Merge(source, target).Ok?
    ensures error.None? ==> t == Merge(source, target).value
    ensures error.Some? ==> error == Some(Merge(source, target).error)
    decreases source
  {
    MergeStateAgrees(source, target);
    t := target;
    error := None;
    var i := 0;
    while i < |source|
      invariant 0 <= i <= |source|
      invariant MergeState(source, target) == MergeState(source[i..], t)
    {
      var e := source[i];
      assert source[i..][0] == e && source[i..][1..] == source[i + 1..];
      match e.val {
        case Dict(sub) =>
          var nested: seq<Entry>;
          match Get(t, e.key) {
            case None =>
              nested := [];
            case Some(Dict(existing)) =>
              nested := existing;
            case Some(_) =>
              if sub != [] {
                error := Some(TypeError("item assignment on a non-dict"));
                return;
              }
              i := i + 1;
              continue;
          }
          var n, nestedError := RecursiveDictCopy(sub, nested);
          t := Put(t, e.key, Dict(n));
          if nestedError.Some? {
            error := nestedError;
            return;
          }
        case _ =>
          t := Put(t, e.key, e.val);
      }
      i := i + 1;
    }
  }

  /** No dict-valued source entry meets a target value that is not a dict, at any depth. */
  ghost predicate Compatible(source: seq<Entry>, target: seq<Entry>)
    decreases source, 1
  {
    source == [] || (EntryCompatible(source[0], target) && Compatible(source[1..], target))
  }

  ghost predicate EntryCompatible(e: Entry, target: seq<Entry>)
    decreases e, 0
  {
    match e.val
    case Dict(sub) =>
      (match Get(target, e.key)
       case None => Compatible(sub, [])
       case Some(Dict(t)) => Compatible(sub, t)
       case Some(_) => sub == [])
    case _ => true
  }

  /** Compatibility of a source depends on the target only under the source's own keys. */
  lemma CompatibleAfterPut(source: seq<Entry>, target: seq<Entry>, k: string, v: Value)
    requires k !in Keys(source)
    ensures Compatible(source, Put(target, k, v)) <==> Compatible(source, target)
  {
  }

  /** A successful merge step writes the entry's key, or leaves the target alone when an empty
      dict meets a value that is not a dict. */
  lemma MergeEntryWrites(e: Entry, target: seq<Entry>)
    requires MergeEntry(e, target).Ok?
    ensures MergeEntry(e, target).value == target ||
      exists v :: MergeEntry(e, target).value == Put(target, e.key, v)
  {
    match e.val {
      case Dict(sub) =>
        match Get(target, e.key) {
          case None =>
            var n := Merge(sub, []).value;
            assert MergeEntry(e, target).value == Put(target, e.key, Dict(n));
          case Some(Dict(t)) =>
            var n := Merge(sub, t).value;
            assert MergeEntry(e, target).value == Put(target, e.key, Dict(n));
          case Some(_) =>
        }
      case _ =>
        assert MergeEntry(e, target).value == Put(target, e.key, e.val);
    }
  }

  /** The merge raises exactly when the source is not compatible with the target. */
  lemma {:induction false} MergeOkIff(source: seq<Entry>, target: seq<Entry>)
    requires WellFormedEntries(source)
    ensures Merge(source, target).Ok? <==> Compatible(source, target)
    decreases source, 1
  {
    if source != [] {
      var e := source[0];
      MergeEntryOkIff(e, target);
      var me := MergeEntry(e, target);
      if me.Ok? {
        MergeOkIff(source[1..], me.value);
        MergeEntryWrites(e, target);
        if me.value != target {
          var v :| me.value == Put(target, e.key, v);
          CompatibleAfterPut(source[1..], target, e.key, v);
        }
      }
    }
  }

  lemma {:induction false} MergeEntryOkIff(e: Entry, target: seq<Entry>)
    requires WellFormed(e.val)
    ensures MergeEntry(e, target).Ok? <==> EntryCompatible(e, target)
    decreases e, 0
  {
    match e.val {
      case Dict(sub) =>
        match Get(target, e.key) {
          case None => MergeOkIff(sub, []);
          case Some(Dict(t)) => MergeOkIff(sub, t);
          case Some(_) =>
        }
      case _ =>
    }
  }

  /** What the merged dict holds under `k`, stated key by key: the target's value when the
      source lacks `k`; the source's value when it is not a dict; a dict-valued source entry
      merged into the target's dict (a fresh one when the target lacks `k`); the target's
      value when an empty source dict meets a value that is not a dict. */
  function MergedAt(source: seq<Entry>, target: seq<Entry>, k: string): Option<Value> {
    match Get(source, k)
    case None => Get(target, k)
    case Some(Dict(sub)) =>
      (match Get(target, k)
       case None => (match Merge(sub, []) case Ok(n) => Some(Dict(n)) case Err(_) => None)
       case Some(Dict(t)) => (match Merge(sub, t) case Ok(n) => Some(Dict(n)) case Err(_) => None)
       case Some(other) => Some(other))
    case Some(v) => Some(v)
  }

  /** One merge step, key by key. */
  lemma MergeEntryGet(e: Entry, target: seq<Entry>, k: string)
    requires MergeEntry(e, target).Ok?
    ensures Get(MergeEntry(e, target).value, k) == MergedAt([e], target, k)
  {
    assert Get([e], k) == if e.key == k then Some(e.val) else None;
  }

  /** After a successful merge, every key holds what `MergedAt` says: target keys the source
      does not mention are untouched, scalars and lists from the source overwrite wholesale,
      and nested dicts merge recursively. */
  lemma {:induction false} MergeGet(source: seq<Entry>, target: seq<Entry>, k: string)
    requires DistinctKeys(source)
    requires Merge(source, target).Ok?
    ensures Get(Merge(source, target).value, k) == MergedAt(source, target, k)
  {
    if source != [] {
      var e := source[0];
      var t1 := MergeEntry(e, target).value;
      MergeGet(source[1..], t1, k);
      MergeEntryGet(e, target, k);
      GetNone(source[1..], k);
      assert Get([e], k) == if e.key == k then Some(e.val) else None;
    }
  }

  /** A source without nested dicts always merges: each of its values overwrites. */
  lemma {:induction false} MergeScalars(source: seq<Entry>, target: seq<Entry>)
    requires forall i :: 0 <= i < |source| ==> !source[i].val.Dict?
    ensures Merge(source, target).Ok?
    ensures DistinctKeys(source) ==>
      forall k :: Get(Merge(source, target).value, k) == (if k in Keys(source) then Get(source, k) else Get(target, k))
  {
    if source != [] {
      var e := source[0];
      assert MergeEntry(e, target) == Ok(Put(target, e.key, e.val));
      MergeScalars(source[1..], Put(target, e.key, e.val));
    }
  }

  /** After a successful merge the target holds exactly its old keys and the source's keys. */
  lemma {:induction false} MergeKeys(source: seq<Entry>, target: seq<Entry>)
    requires Merge(source, target).Ok?
    ensures Keys(Merge(source, target).value) == Keys(target) + Keys(source)
  {
    if source != [] {
      var e := source[0];
      var t1 := MergeEntry(e, target).value;
      MergeKeys(source[1..], t1);
      MergeEntryWrites(e, target);
      if t1 == target {
        GetNone(target, e.key);
      }
    }
  }

  /** Merging a well-formed source into a target that shares none of its keys appends a copy of
      the source; in particular merging into an empty dict reproduces the source. */
  lemma {:induction false} MergeFresh(source: seq<Entry>, target: seq<Entry>)
    requires WellFormedEntries(source)
    requires Keys(source) !! Keys(target)
    ensures Merge(source, target) == Ok(target + source)
    decreases source, 1
  {
    if source != [] {
      var e := source[0];
      GetNone(target, e.key);
      MergeEntryFresh(e, target);
      KeysAppend(target, [e]);
      assert Keys([e]) == {e.key};
      MergeFresh(source[1..], target + [e]);
      assert Merge(source, target) == Merge(source[1..], target + [e]);
      assert (target + [e]) + source[1..] == target + source;
    } else {
      assert target + source == target;
    }
  }

  lemma KeysAppend(a: seq<Entry>, b: seq<Entry>)
    ensures Keys(a + b) == Keys(a) + Keys(b)
  {
    if a == [] {
      assert a + b == b;
    } else {
      KeysAppend(a[1..], b);
      assert (a + b)[0] == a[0] && (a + b)[1..] == a[1..] + b;
    }
  }

  lemma {:induction false} MergeEntryFresh(e: Entry, target: seq<Entry>)
    requires WellFormed(e.val)
    requires e.key !in Keys(target)
    ensures MergeEntry(e, target) == Ok(target + [e])
    decreases e, 0
  {
    GetNone(target, e.key);
    match e.val {
      case Dict(sub) =>
        MergeFresh(sub, []);
        assert [] + sub == sub;
      case _ =>
    }
    PutNew(target, e.key, e.val);
  }

  // ---------------------------------------------------------------------------------------
  // recursive_rename_values_in_object
  // ---------------------------------------------------------------------------------------

  /** `_try_rename_value`: a string is passed through `f`, a dict or list is rebuilt with every
      string renamed, any other value is returned as it is. */
  function RenameValue(v: Value, f: string -> string): Value
    decreases v, 1
  {
    match v
    case Str(s) => Str(f(s))
    case List(items) => List(RenameList(items, f))
    case Dict(es) => Dict(RenameEntries(es, [], f))
    case _ => v
  }

  /** The list branch: a fresh list of the renamed items, in order. */
  function RenameList(items: seq<Value>, f: string -> string): (r: seq<Value>)
    ensures |r| == |items|
    ensures forall i :: 0 <= i < |items| ==> r[i] == RenameValue(items[i], f)
    decreases items, 0
  {
    if items == [] then [] else [RenameValue(items[0], f)] + RenameList(items[1..], f)
  }

  /** The dict branch: entries are visited in order and `ret[f(key)] = rename(value)` is
      assigned into the fresh dict `acc`. */
  function RenameEntries(es: seq<Entry>, acc: seq<Entry>, f: string -> string): seq<Entry>
    decreases es, 0
  {
    if es == [] then acc
    else RenameEntries(es[1..], Put(acc, f(es[0].key), RenameValue(es[0].val, f)), f)
  }

  /** `recursive_rename_values_in_object`: a dict or a list is renamed, anything else gives
      None. */
  function RenameObject(obj: Value, f: string -> string): (r: Option<Value>)
    ensures r.None? <==> !(obj.Dict? || obj.List?)
    ensures obj.Dict? ==> r == Some(Dict(RenameEntries(obj.entries, [], f)))
    ensures obj.List? ==> r == Some(List(RenameList(obj.items, f)))
  {
    if obj.Dict? || obj.List? then Some(RenameValue(obj, f)) else None
  }

  /** The value of the last entry whose renamed key is `k`. */
  function LastRenamedTo(es: seq<Entry>, f: string -> string, k: string): Option<Value> {
    if es == [] then None
    else
      match LastRenamedTo(es[1..], f, k)
      case Some(v) => Some(v)
      case None => if f(es[0].key) == k then Some(es[0].val) else None
  }

  /** The renamed keys of a dict. */
  function RenamedKeys(es: seq<Entry>, f: string -> string): set<string> {
    if es == [] then {} else {f(es[0].key)} + RenamedKeys(es[1..], f)
  }

  /** Looking up `k` in the renamed dict finds the renamed value of the LAST entry whose key
      renames to `k` (later entries overwrite earlier ones on a collision), or what the
      accumulator already held. */
  lemma {:induction false} RenameLookup(es: seq<Entry>, acc: seq<Entry>, f: string -> string, k: string)
    ensures Get(RenameEntries(es, acc, f), k) ==
      match LastRenamedTo(es, f, k)
      case Some(v) => Some(RenameValue(v, f))
      case None => Get(acc, k)
  {
    if es != [] {
      RenameLookup(es[1..], Put(acc, f(es[0].key), RenameValue(es[0].val, f)), f, k);
    }
  }

  /** The renamed dict holds exactly the renamed keys. */
  lemma {:induction false} RenameKeys(es: seq<Entry>, acc: seq<Entry>, f: string -> string)
    ensures Keys(RenameEntries(es, acc, f)) == Keys(acc) + RenamedKeys(es, f)
  {
    if es != [] {
      RenameKeys(es[1..], Put(acc, f(es[0].key), RenameValue(es[0].val, f)), f);
    }
  }

  /** No two keys of the dict rename to the same key. */
  ghost predicate NoCollision(es: seq<Entry>, f: string -> string) {
    es == [] || (f(es[0].key) !in RenamedKeys(es[1..], f) && NoCollision(es[1..], f))
  }

  /** Entry by entry renaming, position for position: entry i becomes entry i with its key
      and its value renamed. */
  function RenameEach(es: seq<Entry>, f: string -> string): (r: seq<Entry>)
    ensures |r| == |es|
    ensures forall i :: 0 <= i < |es| ==> r[i] == Entry(f(es[i].key), RenameValue(es[i].val, f))
  {
    if es == [] then [] else [Entry(f(es[0].key), RenameValue(es[0].val, f))] + RenameEach(es[1..], f)
  }

  /** Without collisions the renamed dict is the entry by entry renaming: it has the same
      length and order as the original. */
  lemma {:induction false} RenameNoCollision(es: seq<Entry>, acc: seq<Entry>, f: string -> string)
    requires NoCollision(es, f)
    requires RenamedKeys(es, f) !! Keys(acc)
    ensures RenameEntries(es, acc, f) == acc + RenameEach(es, f)
  {
    if es == [] {
      assert acc + [] == acc;
    } else {
      var e := Entry(f(es[0].key), RenameValue(es[0].val, f));
      RenameStepFresh(es, acc, f);
      RenameNoCollision(es[1..], acc + [e], f);
      assert RenameEach(es, f) == [e] + RenameEach(es[1..], f);
      AppendAssoc(acc, [e], RenameEach(es[1..], f));
    }
  }

  lemma AppendAssoc<T>(a: seq<T>, b: seq<T>, c: seq<T>)
    ensures a + b + c == a + (b + c)
  {
  }

  /** One step of the dict branch when the renamed key is new: it is appended. */
  lemma RenameStepFresh(es: seq<Entry>, acc: seq<Entry>, f: string -> string)
    requires es != [] && NoCollision(es, f) && RenamedKeys(es, f) !! Keys(acc)
    ensures var e := Entry(f(es[0].key), RenameValue(es[0].val, f));
      RenameEntries(es, acc, f) == RenameEntries(es[1..], acc + [e], f) &&
      NoCollision(es[1..], f) && RenamedKeys(es[1..], f) !! Keys(acc + [e])
  {
    var e := Entry(f(es[0].key), RenameValue(es[0].val, f));
    PutNew(acc, e.key, e.val);
    KeysAppend(acc, [e]);
    assert Keys([e]) == {e.key};
  }

  /** Every string of the value, and every dict key, is fixed by `f`, and keys are distinct
      at every level. */
  ghost predicate FixedBy(v: Value, f: string -> string)
    decreases v, 1
  {
    match v
    case Str(s) => f(s) == s
    case List(items) => forall i :: 0 <= i < |items| ==> FixedBy(items[i], f)
    case Dict(es) => EntriesFixedBy(es, f)
    case _ => true
  }

  ghost predicate EntriesFixedBy(es: seq<Entry>, f: string -> string)
    decreases es, 0
  {
    es == [] ||
    (f(es[0].key) == es[0].key && es[0].key !in Keys(es[1..]) &&
     FixedBy(es[0].val, f) && EntriesFixedBy(es[1..], f))
  }

  /** Renaming with a function that fixes every string of a value gives the value back. */
  lemma {:induction false} RenameFixed(v: Value, f: string -> string)
    requires FixedBy(v, f)
    ensures RenameValue(v, f) == v
    decreases v, 1
  {
    match v {
      case Str(s) =>
      case List(items) =>
        forall i | 0 <= i < |items| ensures RenameValue(items[i], f) == items[i] {
          RenameFixed(items[i], f);
        }
        assert RenameList(items, f) == items;
      case Dict(es) =>
        RenameEntriesFixed(es, f);
        RenameNoCollision(es, [], f);
        assert [] + RenameEach(es, f) == es;
      case _ =>
    }
  }

  lemma {:induction false} RenameEntriesFixed(es: seq<Entry>, f: string -> string)
    requires EntriesFixedBy(es, f)
    ensures NoCollision(es, f) && RenamedKeys(es, f) == Keys(es)
    ensures forall i :: 0 <= i < |es| ==> RenameValue(es[i].val, f) == es[i].val && f(es[i].key) == es[i].key
    decreases es, 0
  {
    if es != [] {
      RenameEntriesFixed(es[1..], f);
      RenameFixed(es[0].val, f);
      forall i | 1 <= i < |es|
        ensures RenameValue(es[i].val, f) == es[i].val && f(es[i].key) == es[i].key
      {
        assert es[i] == es[1..][i - 1];
      }
    }
  }
}
