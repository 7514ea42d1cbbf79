/**
  Metrics recorded in the kernel (metricStore of benchkit/kernel/kernel.go),
  metrics aggregated in a plugin (TestRunEnv of benchkit/contract/types.go), and
  the flush that brings the second into the first. Values are reals.
 */
module MetricStore {
  import opened Ordering
  import opened Strings
  import opened MetricKeys

  /** A counter or duration call of a unit. */
  datatype Emission = Count(name: string, value: real, labels: Labels) | Observe(name: string, value: real, labels: Labels)

  datatype Item = Item(kind: string, labels: Labels, count: int, sum: real, min: real, max: real)

  datatype Snapshot = Snapshot(name: string, kind: string, labels: Labels, count: int, sum: real, min: real, max: real)

  type Items = map<string, Item>
  type Snapshots = map<string, Snapshot>

  /** The declared metric types, by metric name. */
  type Types = map<string, string>

  const NO_ITEM := Item("", map[], 0, 0.0, 0.0, 0.0)
  const NO_SNAPSHOT := Snapshot("", "", map[], 0, 0.0, 0.0, 0.0)

  function MetricType(types: Types, name: string, fallback: string): string {
    var declared := if name in types then types[name] else "";
    if TrimSpace(declared) == "" then fallback else declared
  }

  ghost function Key(e: Emission): string {
    KeyOf(e.name, e.labels)
  }

  // ------------------------------------------------------------ in the kernel

  function AddCounter(items: Items, types: Types, key: string, e: Emission): Items {
    var item := if key in items then items[key] else NO_ITEM;
    var typed := if item.kind == "" then item.(kind := MetricType(types, e.name, "counter"), labels := e.labels) else item;
    items[key := typed.(count := typed.count + 1, sum := typed.sum + e.value)]
  }

  function ObserveDuration(items: Items, types: Types, key: string, e: Emission): Items {
    var item := if key in items then items[key] else NO_ITEM;
    var typed :=
      if item.kind == ""
      then item.(kind := MetricType(types, e.name, "duration"), labels := e.labels, min := e.value, max := e.value)
      else item.(min := if e.value < item.min then e.value else item.min,
                 max := if e.value > item.max then e.value else item.max);
    items[key := typed.(count := typed.count + 1, sum := typed.sum + e.value)]
  }

  function RecordSnapshot(items: Items, types: Types, key: string, s: Snapshot): Items {
    if s.count <= 0 then items
    else
      var item := if key in items then items[key] else NO_ITEM;
      var kind := MetricType(types, s.name, s.kind);
      var typed := if item.kind == "" then item.(kind := if kind == "" then "counter" else kind, labels := s.labels) else item;
      var added := typed.(count := typed.count + s.count, sum := typed.sum + s.sum);
      items[key :=
        if s.kind == "duration" || added.kind == "duration" then
          var retyped := added.(kind := MetricType(types, s.name, "duration"));
          if retyped.count == s.count then retyped.(min := s.min, max := s.max)
          else retyped.(min := if retyped.min == 0.0 || s.min < retyped.min then s.min else retyped.min,
                        max := if s.max > retyped.max then s.max else retyped.max)
        else added]
  }

  /** Recording emissions one by one in the kernel. */
  ghost function Local(types: Types, es: seq<Emission>): Items {
    if es == [] then map[]
    else
      var e := es[|es| - 1];
      var items := Local(types, es[..|es| - 1]);
      if e.Count? then AddCounter(items, types, Key(e), e) else ObserveDuration(items, types, Key(e), e)
  }

  // ------------------------------------------------------------ in the plugin

  function EmitCounter(metrics: Snapshots, key: string, e: Emission): Snapshots {
    var s := if key in metrics then metrics[key] else NO_SNAPSHOT;
    var typed := if s.kind == "" then s.(name := e.name, kind := "counter", labels := e.labels) else s;
    metrics[key := typed.(count := typed.count + 1, sum := typed.sum + e.value)]
  }

  function EmitDuration(metrics: Snapshots, key: string, e: Emission): Snapshots {
    var s := if key in metrics then metrics[key] else NO_SNAPSHOT;
    var typed :=
      if s.kind == ""
      then s.(name := e.name, kind := "duration", labels := e.labels, min := e.value, max := e.value)
      else s.(min := if e.value < s.min then e.value else s.min, max := if e.value > s.max then e.value else s.max);
    metrics[key := typed.(count := typed.count + 1, sum := typed.sum + e.value)]
  }

  /** Aggregating emissions in the plugin. */
  ghost function Aggregated(es: seq<Emission>): Snapshots {
    if es == [] then map[]
    else
      var e := es[|es| - 1];
      var metrics := Aggregated(es[..|es| - 1]);
      if e.Count? then EmitCounter(metrics, Key(e), e) else EmitDuration(metrics, Key(e), e)
  }

  function Picked(metrics: Snapshots, keys: seq<string>): seq<Snapshot> {
    if keys == [] then []
    else
      var n := |keys| - 1;
      Picked(metrics, keys[..n]) + (if keys[n] in metrics then [metrics[keys[n]]] else [])
  }

  /** The flush: every snapshot, in key order. */
  ghost function Flush(metrics: Snapshots): seq<Snapshot> {
    Picked(metrics, SortedKeys(metrics.Keys))
  }

  ghost function Merge(types: Types, flush: seq<Snapshot>): Items {
    if flush == [] then map[]
    else
      var s := flush[|flush| - 1];
      RecordSnapshot(Merge(types, flush[..|flush| - 1]), types, KeyOf(s.name, s.labels), s)
  }

  ghost function Remote(types: Types, es: seq<Emission>): Items {
    Merge(types, Flush(Aggregated(es)))
  }

  /** What a kernel store is told: a unit's own emission, or a snapshot flushed by its plugin. */
  datatype Entry = Emitted(e: Emission) | Flushed(s: Snapshot)

  ghost function Kept(types: Types, entries: seq<Entry>): Items {
    if entries == [] then map[]
    else
      Told(types, Kept(types, entries[..|entries| - 1]), entries[|entries| - 1])
  }

  ghost function Told(types: Types, items: Items, entry: Entry): Items {
    match entry
    case Emitted(e) => if e.Count? then AddCounter(items, types, Key(e), e) else ObserveDuration(items, types, Key(e), e)
    case Flushed(s) => RecordSnapshot(items, types, KeyOf(s.name, s.labels), s)
  }

  function EmittedAll(es: seq<Emission>): seq<Entry> {
    if es == [] then [] else EmittedAll(es[..|es| - 1]) + [Emitted(es[|es| - 1])]
  }

  function FlushedAll(flush: seq<Snapshot>): seq<Entry> {
    if flush == [] then [] else FlushedAll(flush[..|flush| - 1]) + [Flushed(flush[|flush| - 1])]
  }

  lemma KeptMore(types: Types, entries: seq<Entry>, e: Entry)
    ensures Kept(types, entries + [e]) == Told(types, Kept(types, entries), e)
  {
    assert (entries + [e])[..|entries|] == entries;
  }

  /** A store told nothing but emissions, or nothing but one flush. */
  lemma {:induction false} KeptEmissions(types: Types, es: seq<Emission>)
    ensures Kept(types, EmittedAll(es)) == Local(types, es)
  {
    hide AddCounter, ObserveDuration, RecordSnapshot;
    if es != [] {
      KeptEmissions(types, es[..|es| - 1]);
      KeptMore(types, EmittedAll(es[..|es| - 1]), Emitted(es[|es| - 1]));
    }
  }

  lemma {:induction false} KeptFlush(types: Types, flush: seq<Snapshot>)
    ensures Kept(types, FlushedAll(flush)) == Merge(types, flush)
  {
    hide AddCounter, ObserveDuration, RecordSnapshot;
    if flush != [] {
      KeptFlush(types, flush[..|flush| - 1]);
      KeptMore(types, FlushedAll(flush[..|flush| - 1]), Flushed(flush[|flush| - 1]));
    }
  }

  // -------------------------------------------------------- the objects that do it

  class KernelMetrics {
    const types: Types
    var items: Items
    /** Everything recorded so far. */
    ghost var history: seq<Entry>

    ghost predicate Valid()
      reads this
    {
      items == Kept(types, history)
    }

    constructor (types: Types)
      ensures Valid() && this.types == types && history == []
    {
      this.types := types;
      items, history := map[], [];
    }

    method Add(e: Emission)
      requires Valid()
      modifies this
      ensures Valid() && history == old(history) + [Emitted(e)]
    {
      var key := MetricKey(e.name, e.labels);
      KeptMore(types, history, Emitted(e));
      items := if e.Count? then AddCounter(items, types, key, e) else ObserveDuration(items, types, key, e);
      history := history + [Emitted(e)];
    }

    method Record(s: Snapshot)
      requires Valid()
      modifies this
      ensures Valid() && history == old(history) + [Flushed(s)]
    {
      KeptMore(types, history, Flushed(s));
      history := history + [Flushed(s)];
      if s.count <= 0 { return; }
      var key := MetricKey(s.name, s.labels);
      items := RecordSnapshot(items, types, key, s);
    }

    /** applyMetricFlush, for an environment that records snapshots. */
    method Apply(flush: seq<Snapshot>)
      requires Valid()
      modifies this
      ensures Valid() && history == old(history) + FlushedAll(flush)
    {
      hide Kept, FlushedAll;
      FlushedMore(flush);
      assert flush[..0] == [];
      for i := 0 to |flush|
        invariant Valid() && history == old(history) + FlushedAll(flush[..i])
      {
        Skipped(types, history, flush[i]);
        if flush[i].count > 0 {
          Record(flush[i]);
        } else {
          history := history + [Flushed(flush[i])];
        }
      }
      assert flush[..|flush|] == flush;
    }
  }

  lemma FlushedMore(flush: seq<Snapshot>)
    ensures FlushedAll([]) == []
    ensures forall i :: 0 <= i < |flush| ==> FlushedAll(flush[..i + 1]) == FlushedAll(flush[..i]) + [Flushed(flush[i])]
  {
    forall i | 0 <= i < |flush|
      ensures FlushedAll(flush[..i + 1]) == FlushedAll(flush[..i]) + [Flushed(flush[i])]
    {
      assert flush[..i + 1][..i] == flush[..i];
    }
  }

  /** A snapshot that counts nothing changes nothing. */
  lemma Skipped(types: Types, entries: seq<Entry>, s: Snapshot)
    ensures s.count <= 0 ==> Kept(types, entries + [Flushed(s)]) == Kept(types, entries)
  {
    KeptMore(types, entries, Flushed(s));
    hide KeyOf;
  }

  class PluginMetrics {
    var metrics: Snapshots
    /** Everything emitted so far. */
    ghost var history: seq<Emission>

    ghost predicate Valid()
      reads this
    {
      metrics == Aggregated(history)
    }

    constructor ()
      ensures Valid() && history == []
    {
      metrics, history := map[], [];
    }

    method Emit(e: Emission)
      requires Valid()
      modifies this
      ensures Valid() && history == old(history) + [e]
    {
      var key := MetricKey(e.name, e.labels);
      assert (history + [e])[..|history|] == history;
      metrics := if e.Count? then EmitCounter(metrics, key, e) else EmitDuration(metrics, key, e);
      history := history + [e];
    }

    /** The flush: one snapshot of everything emitted under each key, in key order. */
    method MetricSnapshots() returns (out: seq<Snapshot>)
      requires Valid()
      ensures out == Flush(Aggregated(history))
    {
      var keys := ListKeys(metrics.Keys);
      SortedKeysSorted(metrics.Keys);
      hide SortedKeys;
      out := [];
      for i := 0 to |keys|
        invariant out == Picked(metrics, keys[..i])
      {
        assert keys[..i + 1][..i] == keys[..i];
        out := out + [metrics[keys[i]]];
      }
      assert keys[..|keys|] == keys;
    }
  }

  // ------------------------------------------------------------ one key on its own

  /** The emissions under one key. */
  ghost function Under(es: seq<Emission>, key: string): seq<Emission> {
    if es == [] then []
    else
      var e := es[|es| - 1];
      Under(es[..|es| - 1], key) + (if Key(e) == key then [e] else [])
  }

  function KindOf(e: Emission): string {
    if e.Count? then "counter" else "duration"
  }

  function Sum(es: seq<Emission>): real {
    if es == [] then 0.0 else Sum(es[..|es| - 1]) + es[|es| - 1].value
  }

  /** The least and the greatest duration; a counter at the head counts as zero. */
  function Least(es: seq<Emission>): real {
    if es == [] then 0.0
    else
      var e, rest := es[|es| - 1], Least(es[..|es| - 1]);
      if e.Count? then rest else if |es| == 1 || e.value < rest then e.value else rest
  }

  function Greatest(es: seq<Emission>): real {
    if es == [] then 0.0
    else
      var e, rest := es[|es| - 1], Greatest(es[..|es| - 1]);
      if e.Count? then rest else if |es| == 1 || e.value > rest then e.value else rest
  }

  function SnapshotOf(es: seq<Emission>): Snapshot
    requires es != []
  {
    Snapshot(es[0].name, KindOf(es[0]), es[0].labels, |es|, Sum(es), Least(es), Greatest(es))
  }

  function ItemOf(types: Types, es: seq<Emission>): Item
    requires es != []
  {
    Item(MetricType(types, es[0].name, KindOf(es[0])), es[0].labels, |es|, Sum(es), Least(es), Greatest(es))
  }

  lemma MetricTypeSet(types: Types, name: string, fallback: string)
    requires fallback != ""
    ensures MetricType(types, name, fallback) != ""
  {
  }

  lemma OneMore(es: seq<Emission>, e: Emission)
    ensures Sum(es + [e]) == Sum(es) + e.value
    ensures Least(es + [e]) == (if e.Count? then Least(es) else if es == [] || e.value < Least(es) then e.value else Least(es))
    ensures Greatest(es + [e])
         == (if e.Count? then Greatest(es) else if es == [] || e.value > Greatest(es) then e.value else Greatest(es))
  {
    assert (es + [e])[..|es|] == es;
  }

  lemma LocalStep(types: Types, items: Items, key: string, front: seq<Emission>, e: Emission)
    requires key in items <==> front != []
    requires front != [] ==> items[key] == ItemOf(types, front)
    ensures var items' := if e.Count? then AddCounter(items, types, key, e) else ObserveDuration(items, types, key, e);
            key in items' && items'[key] == ItemOf(types, front + [e])
  {
    OneMore(front, e);
    Nothing();
    MetricTypeSet(types, e.name, KindOf(e));
    if front != [] { MetricTypeSet(types, front[0].name, KindOf(front[0])); }
    hide MetricType, Sum, Least, Greatest;
  }

  lemma AggregatedStep(metrics: Snapshots, key: string, front: seq<Emission>, e: Emission)
    requires key in metrics <==> front != []
    requires front != [] ==> metrics[key] == SnapshotOf(front)
    ensures var metrics' := if e.Count? then EmitCounter(metrics, key, e) else EmitDuration(metrics, key, e);
            key in metrics' && metrics'[key] == SnapshotOf(front + [e])
  {
    OneMore(front, e);
    Nothing();
    hide Sum, Least, Greatest;
  }

  lemma Nothing()
    ensures Sum([]) == 0.0 && Least([]) == 0.0 && Greatest([]) == 0.0
  {
  }

  lemma OtherKey(types: Types, items: Items, metrics: Snapshots, key: string, other: string, e: Emission)
    requires key != other
    ensures var items' := if e.Count? then AddCounter(items, types, other, e) else ObserveDuration(items, types, other, e);
            (key in items' <==> key in items) && (key in items ==> items'[key] == items[key])
    ensures var metrics' := if e.Count? then EmitCounter(metrics, other, e) else EmitDuration(metrics, other, e);
            (key in metrics' <==> key in metrics) && (key in metrics ==> metrics'[key] == metrics[key])
  {
  }

  /** What either store holds under a key depends on the emissions under that key alone. */
  lemma {:induction false} PerKey(types: Types, es: seq<Emission>, key: string)
    ensures key in Local(types, es) <==> Under(es, key) != []
    ensures key in Aggregated(es) <==> Under(es, key) != []
    ensures Under(es, key) != [] ==>
              Local(types, es)[key] == ItemOf(types, Under(es, key)) && Aggregated(es)[key] == SnapshotOf(Under(es, key))
  {
    if es != [] {
      var n := |es| - 1;
      var front := Under(es[..n], key);
      PerKey(types, es[..n], key);
      hide MetricType, Key, AddCounter, ObserveDuration, EmitCounter, EmitDuration, ItemOf, SnapshotOf;
      if Key(es[n]) == key {
        LocalStep(types, Local(types, es[..n]), key, front, es[n]);
        AggregatedStep(Aggregated(es[..n]), key, front, es[n]);
      } else {
        assert Under(es, key) == front;
        OtherKey(types, Local(types, es[..n]), Aggregated(es[..n]), key, Key(es[n]), es[n]);
      }
    }
  }

  lemma {:induction false} UnderKey(es: seq<Emission>, key: string)
    ensures forall i :: 0 <= i < |Under(es, key)| ==> Key(Under(es, key)[i]) == key && Under(es, key)[i] in es
  {
    if es != [] {
      UnderKey(es[..|es| - 1], key);
      assert es == es[..|es| - 1] + [es[|es| - 1]];
    }
  }

  // ------------------------------------------------------------------- the refinement

  /** What merging a single snapshot into an empty slot leaves there. */
  function Merged(types: Types, s: Snapshot): Item {
    var kind := MetricType(types, s.name, s.kind);
    var timed := s.kind == "duration" || kind == "duration";
    Item(if timed then MetricType(types, s.name, "duration") else kind, s.labels, s.count, s.sum,
         if timed then s.min else 0.0, if timed then s.max else 0.0)
  }

  lemma RecordFresh(items: Items, types: Types, key: string, s: Snapshot)
    requires key !in items && s.count > 0 && s.kind != ""
    ensures RecordSnapshot(items, types, key, s) == items[key := Merged(types, s)]
  {
    MetricTypeSet(types, s.name, s.kind);
    hide MetricType;
  }

  /** Snapshots under their own, different keys are merged each into its own slot. */
  ghost predicate Flushable(metrics: Snapshots) {
    forall k :: k in metrics ==>
      metrics[k].count > 0 && metrics[k].kind != "" && KeyOf(metrics[k].name, metrics[k].labels) == k
  }

  lemma {:induction false} MergeAt(types: Types, metrics: Snapshots, keys: seq<string>)
    requires Flushable(metrics) && Distinct(keys) && forall k :: k in keys ==> k in metrics
    ensures var items := Merge(types, Picked(metrics, keys));
            (forall k :: k in items <==> k in keys) && (forall k :: k in keys ==> items[k] == Merged(types, metrics[k]))
  {
    if keys != [] {
      var n := |keys| - 1;
      var front := Picked(metrics, keys[..n]);
      assert keys == keys[..n] + [keys[n]];
      MergeAt(types, metrics, keys[..n]);
      assert (front + [metrics[keys[n]]])[..|front|] == front;
      assert keys[n] !in keys[..n];
      hide Merged, RecordSnapshot, KeyOf;
      RecordFresh(Merge(types, front), types, keys[n], metrics[keys[n]]);
    }
  }

  lemma AggregatedFlushable(es: seq<Emission>)
    ensures Flushable(Aggregated(es))
  {
    forall k | k in Aggregated(es)
      ensures Aggregated(es)[k].count > 0 && Aggregated(es)[k].kind != ""
      ensures KeyOf(Aggregated(es)[k].name, Aggregated(es)[k].labels) == k
    {
      PerKey(map[], es, k);
      UnderKey(es, k);
      hide Aggregated, Local, Under, KeyOf;
    }
  }

  /** A key's minimum and maximum survive the detour through the plugin. */
  ghost predicate Faithful(types: Types, es: seq<Emission>) {
    es != [] ==>
      || es[0].Observe?
      || MetricType(types, es[0].name, "counter") == "duration"
      || (Least(es) == 0.0 && Greatest(es) == 0.0)
  }

  lemma MergedIsItem(types: Types, es: seq<Emission>)
    requires es != []
    ensures var remote, local := Merged(types, SnapshotOf(es)), ItemOf(types, es);
            && remote.(min := local.min, max := local.max) == local
            && (remote == local <==> Faithful(types, es))
  {
    hide Sum, Least, Greatest;
    MetricTypeIs(types, es[0].name);
  }

  /** A declared type wins over any fallback. */
  lemma MetricTypeIs(types: Types, name: string)
    ensures MetricType(types, name, "counter") == "duration" ==> MetricType(types, name, "duration") == "duration"
    ensures MetricType(types, name, "duration") != "duration" ==> MetricType(types, name, "counter") == MetricType(types, name, "duration")
  {
  }

  /**
    For every key, aggregating in the plugin, flushing once and merging gives the
    type, labels, count and sum that recording in the kernel would have given; and
    the same minimum and maximum exactly when the key is faithful.
   */
  lemma RemoteRefinesLocal(types: Types, es: seq<Emission>, key: string)
    ensures key in Remote(types, es) <==> key in Local(types, es)
    ensures key in Local(types, es) ==>
              var remote, local := Remote(types, es)[key], Local(types, es)[key];
              && remote.kind == local.kind && remote.labels == local.labels
              && remote.count == local.count && remote.sum == local.sum
              && (remote == local <==> Faithful(types, Under(es, key)))
  {
    var metrics := Aggregated(es);
    PerKey(types, es, key);
    AggregatedFlushable(es);
    SortedKeysSorted(metrics.Keys);
    MergeAt(types, metrics, SortedKeys(metrics.Keys));
    hide Aggregated, Local, Under, Merged, Faithful, ItemOf, SnapshotOf, Merge;
    if key in metrics { MergedIsItem(types, Under(es, key)); }
  }

  /**
    A plugin that emits, flushes once, and a kernel store that applies the flush: the
    store holds what recording the emissions in it would have given, up to the
    extremes of unfaithful keys.
   */
  lemma FlushStandsForEmissions(types: Types, es: seq<Emission>, key: string)
    ensures var flushed, recorded := Kept(types, FlushedAll(Flush(Aggregated(es)))), Kept(types, EmittedAll(es));
            && (key in flushed <==> key in recorded)
            && (key in recorded ==>
                  && flushed[key].(min := recorded[key].min, max := recorded[key].max) == recorded[key]
                  && (flushed[key] == recorded[key] <==> Faithful(types, Under(es, key))))
  {
    KeptEmissions(types, es);
    KeptFlush(types, Flush(Aggregated(es)));
    RemoteRefinesLocal(types, es, key);
    hide Kept, Faithful, Under, Merge, Local, Aggregated, Flush;
  }

  predicate OneKind(es: seq<Emission>) {
    (forall i :: 0 <= i < |es| ==> es[i].Count?) || (forall i :: 0 <= i < |es| ==> es[i].Observe?)
  }

  lemma {:induction false} CountersOnly(es: seq<Emission>)
    requires forall i :: 0 <= i < |es| ==> es[i].Count?
    ensures Least(es) == 0.0 && Greatest(es) == 0.0
  {
    if es != [] { CountersOnly(es[..|es| - 1]); }
  }

  /** With one kind of emission per key, the two ways agree everywhere. */
  lemma OneKindAgrees(types: Types, es: seq<Emission>)
    requires forall key :: OneKind(Under(es, key))
    ensures Remote(types, es) == Local(types, es)
  {
    forall key
      ensures key in Remote(types, es) <==> key in Local(types, es)
      ensures key in Local(types, es) ==> Remote(types, es)[key] == Local(types, es)[key]
    {
      RemoteRefinesLocal(types, es, key);
      assert OneKind(Under(es, key));
      hide Remote, Local, Under, MetricType;
      if forall i :: 0 <= i < |Under(es, key)| ==> Under(es, key)[i].Count? { CountersOnly(Under(es, key)); }
    }
  }

  /** A counter first and a duration later: the duration's extremes do not survive. */
  lemma MixedKindsDiffer()
    ensures var es := [Count("m", 1.0, map[]), Observe("m", 2.0, map[])];
            "m" in Remote(map[], es) && "m" in Local(map[], es)
            && Local(map[], es)["m"].max == 2.0 && Remote(map[], es)["m"].max == 0.0
  {
    var a, b := Count("m", 1.0, map[]), Observe("m", 2.0, map[]);
    var es := [a, b];
    assert es[..1] == [a] && [a][..0] == [];
    assert Key(a) == "m" && Key(b) == "m";
    assert Under([a], "m") == [a] && Under(es, "m") == [a, b];
    PerKey(map[], es, "m");
    Nothing();
    OneMore([], a);
    OneMore([a], b);
    assert [] + [a] == [a] && [a] + [b] == es;
    RemoteRefinesLocal(map[], es, "m");
    MixedMerged(es);
  }

  lemma MixedMerged(es: seq<Emission>)
    requires es == [Count("m", 1.0, map[]), Observe("m", 2.0, map[])] && Under(es, "m") == es
    ensures "m" in Remote(map[], es) && Remote(map[], es)["m"].max == 0.0
  {
    var metrics := Aggregated(es);
    PerKey(map[], es, "m");
    AggregatedFlushable(es);
    SortedKeysSorted(metrics.Keys);
    MergeAt(map[], metrics, SortedKeys(metrics.Keys));
    hide Aggregated, Local, Under, Merge, Sum, Least, Greatest;
    assert TrimSpace("") == "";
  }

  // --------------------------------------------------------- what a result means

  /** Minimum and maximum bound every duration, and are durations themselves if the first emission was one. */
  lemma {:induction false} ExtremesMean(es: seq<Emission>)
    requires es != []
    ensures forall i :: 0 <= i < |es| && es[i].Observe? ==> Least(es) <= es[i].value <= Greatest(es)
    ensures es[0].Observe? ==>
              (exists i :: 0 <= i < |es| && es[i].Observe? && es[i].value == Least(es))
              && (exists i :: 0 <= i < |es| && es[i].Observe? && es[i].value == Greatest(es))
    ensures Least(es) <= Greatest(es)
  {
    var n := |es| - 1;
    if n > 0 {
      var front := es[..n];
      ExtremesMean(front);
      assert forall i :: 0 <= i < n ==> front[i] == es[i];
      if es[0].Observe? {
        var i :| 0 <= i < n && front[i].Observe? && front[i].value == Least(front);
        var j :| 0 <= j < n && front[j].Observe? && front[j].value == Greatest(front);
        assert es[i] == front[i] && es[j] == front[j];
      }
    }
  }

  /** The emissions of one metric. */
  ghost function Of(es: seq<Emission>, name: string, labels: Labels): seq<Emission> {
    if es == [] then []
    else
      var e := es[|es| - 1];
      Of(es[..|es| - 1], name, labels) + (if e.name == name && e.labels == labels then [e] else [])
  }

  /** No emission shares the metric's key without being its own. */
  ghost predicate Unshadowed(es: seq<Emission>, name: string, labels: Labels) {
    forall i :: 0 <= i < |es| ==>
      !Shadows(es[i].name, es[i].labels, name, labels) && !Shadows(name, labels, es[i].name, es[i].labels)
  }

  /** A key collects the emissions of its metric and no others, exactly if none is shadowed. */
  lemma {:induction false} KeyIsMetric(es: seq<Emission>, name: string, labels: Labels)
    requires ByteLabels(labels) && forall i :: 0 <= i < |es| ==> ByteLabels(es[i].labels)
    ensures Under(es, KeyOf(name, labels)) == Of(es, name, labels) <==> Unshadowed(es, name, labels)
    ensures |Under(es, KeyOf(name, labels))| >= |Of(es, name, labels)|
  {
    hide ByteLabels, KeyOf, Shadows, Under, Of, Unshadowed;
    if es == [] {
      NoEmissions(KeyOf(name, labels), name, labels);
    } else {
      var n := |es| - 1;
      var e, key := es[n], KeyOf(name, labels);
      KeyIsMetric(es[..n], name, labels);
      KeysMeet(e.name, e.labels, name, labels);
      LastUnder(es, key, name, labels);
      LastUnshadowed(es, name, labels);
      OwnIsNoShadow(e.name, e.labels);
      LastJoins(Under(es[..n], key), Of(es[..n], name, labels), e, Key(e) == key, e.name == name && e.labels == labels);
    }
  }

  lemma NoEmissions(key: string, name: string, labels: Labels)
    ensures Under([], key) == Of([], name, labels) == [] && Unshadowed([], name, labels)
  {
  }

  lemma LastUnshadowed(es: seq<Emission>, name: string, labels: Labels)
    requires es != []
    ensures var e, n := es[|es| - 1], |es| - 1;
            Unshadowed(es, name, labels) <==>
              && Unshadowed(es[..n], name, labels)
              && !Shadows(e.name, e.labels, name, labels) && !Shadows(name, labels, e.name, e.labels)
  {
    hide Shadows;
    var n := |es| - 1;
    assert forall i :: 0 <= i < n ==> es[..n][i] == es[i];
  }

  /** An element more on the longer side, and on the shorter side only if on both. */
  lemma LastJoins(a: seq<Emission>, b: seq<Emission>, e: Emission, more: bool, both: bool)
    requires |a| >= |b| && (both ==> more)
    ensures var a', b' := a + (if more then [e] else []), b + (if both then [e] else []);
            |a'| >= |b'| && (a' == b' <==> a == b && more == both)
  {
    var a', b' := a + (if more then [e] else []), b + (if both then [e] else []);
    assert a'[..|a|] == a && b'[..|b|] == b;
  }

  lemma OwnIsNoShadow(name: string, labels: Labels)
    ensures !Shadows(name, labels, name, labels)
  {
  }

  lemma LastUnder(es: seq<Emission>, key: string, name: string, labels: Labels)
    requires es != []
    ensures var e, n := es[|es| - 1], |es| - 1;
            && Under(es, key) == Under(es[..n], key) + (if Key(e) == key then [e] else [])
            && Of(es, name, labels) == Of(es[..n], name, labels) + (if e.name == name && e.labels == labels then [e] else [])
  {
  }
}
