/**
  What a kernel store holds after any mixture of emissions and flushed snapshots
  (metricStore of benchkit/kernel/kernel.go): counts and sums add up, the greatest
  duration is kept, and the least one exactly when no zero is merged away.
 */
module Totals {
  import opened Ordering
  import opened Strings
  import opened MetricKeys
  import opened MetricStore

  function CountOf(e: Entry): int {
    match e
    case Emitted(_) => 1
    case Flushed(s) => if s.count > 0 then s.count else 0
  }

  function SumOf(e: Entry): real {
    match e
    case Emitted(emission) => emission.value
    case Flushed(s) => if s.count > 0 then s.sum else 0.0
  }

  /** The least and the greatest duration an entry tells of. */
  function LowOf(e: Entry): real {
    match e
    case Emitted(emission) => emission.value
    case Flushed(s) => s.min
  }

  function HighOf(e: Entry): real {
    match e
    case Emitted(emission) => emission.value
    case Flushed(s) => s.max
  }

  ghost function At(e: Entry): string {
    match e
    case Emitted(emission) => Key(emission)
    case Flushed(s) => KeyOf(s.name, s.labels)
  }

  /** The entry counts, and does so under this key. */
  ghost predicate Under(e: Entry, key: string) {
    At(e) == key && CountOf(e) > 0
  }

  ghost function CountUnder(entries: seq<Entry>, key: string): int {
    if entries == [] then 0
    else
      var e := entries[|entries| - 1];
      CountUnder(entries[..|entries| - 1], key) + (if Under(e, key) then CountOf(e) else 0)
  }

  ghost function SumUnder(entries: seq<Entry>, key: string): real {
    if entries == [] then 0.0
    else
      var e := entries[|entries| - 1];
      SumUnder(entries[..|entries| - 1], key) + (if Under(e, key) then SumOf(e) else 0.0)
  }

  // --------------------------------------------------------------- counts and sums

  /** What one entry does to the counts and sums of a store. */
  lemma TellAdds(types: Types, items: Items, e: Entry, key: string)
    requires key in items ==> items[key].count > 0
    ensures var t := Told(types, items, e);
            && (key in t <==> key in items || Under(e, key))
            && (key in t ==>
                  var before := if key in items then items[key] else NO_ITEM;
                  && t[key].count == before.count + (if Under(e, key) then CountOf(e) else 0)
                  && t[key].sum == before.sum + (if Under(e, key) then SumOf(e) else 0.0))
  {
    hide KeyOf, MetricType;
  }

  /** In any store, the count and the sum under a key are those of all its entries. */
  lemma {:induction false} TotalsAddUp(types: Types, entries: seq<Entry>, key: string)
    ensures key in Kept(types, entries) <==> CountUnder(entries, key) > 0
    ensures CountUnder(entries, key) == 0 ==> SumUnder(entries, key) == 0.0
    ensures CountUnder(entries, key) >= 0
    ensures key in Kept(types, entries) ==>
              Kept(types, entries)[key].count == CountUnder(entries, key) && Kept(types, entries)[key].sum == SumUnder(entries, key)
  {
    hide Told, At, KeyOf;
    if entries != [] {
      var n := |entries| - 1;
      TotalsAddUp(types, entries[..n], key);
      TellAdds(types, Kept(types, entries[..n]), entries[n], key);
    }
  }

  // -------------------------------------------------------------------- extremes

  /** A duration, or a snapshot of durations. */
  predicate Timed(e: Entry) {
    match e
    case Emitted(emission) => emission.Observe?
    case Flushed(s) => s.kind == "duration"
  }

  /** Whatever counts under the key is about durations. */
  ghost predicate AllTimed(entries: seq<Entry>, key: string) {
    forall i :: 0 <= i < |entries| && Under(entries[i], key) ==> Timed(entries[i])
  }

  ghost function GreatestUnder(entries: seq<Entry>, key: string): real {
    if entries == [] then 0.0
    else
      var e, rest := entries[|entries| - 1], GreatestUnder(entries[..|entries| - 1], key);
      if !Under(e, key) then rest
      else if CountUnder(entries[..|entries| - 1], key) == 0 || HighOf(e) > rest then HighOf(e)
      else rest
  }

  ghost function LeastUnder(entries: seq<Entry>, key: string): real {
    if entries == [] then 0.0
    else
      var e, rest := entries[|entries| - 1], LeastUnder(entries[..|entries| - 1], key);
      if !Under(e, key) then rest
      else if CountUnder(entries[..|entries| - 1], key) == 0 || LowOf(e) < rest then LowOf(e)
      else rest
  }

  /** What one entry about durations does to the extremes under its key. */
  lemma TellExtremes(types: Types, items: Items, e: Entry, key: string)
    requires Under(e, key) && Timed(e) && (key in items ==> items[key].count > 0 && items[key].kind != "")
    ensures var t := Told(types, items, e);
            && key in t && t[key].kind != ""
            && t[key].max == (if key in items && HighOf(e) <= items[key].max then items[key].max else HighOf(e))
            && t[key].min == (if key in items && LowOf(e) >= items[key].min && (e.Emitted? || items[key].min != 0.0)
                              then items[key].min else LowOf(e))
  {
    hide KeyOf, MetricType;
    MetricTypeSet(types, NameOf(e), "duration");
  }

  lemma TellElsewhere(types: Types, items: Items, e: Entry, key: string)
    requires !Under(e, key)
    ensures var t := Told(types, items, e); (key in t <==> key in items) && (key in items ==> t[key] == items[key])
  {
    hide KeyOf, MetricType;
  }

  /** The greatest duration any entry under the key tells of is kept. */
  lemma {:induction false} GreatestIsKept(types: Types, entries: seq<Entry>, key: string)
    requires AllTimed(entries, key) && CountUnder(entries, key) > 0
    ensures key in Kept(types, entries) && Kept(types, entries)[key].kind != ""
    ensures Kept(types, entries)[key].max == GreatestUnder(entries, key)
  {
    hide Told, At, KeyOf, LeastUnder, SumUnder;
    var n := |entries| - 1;
    var front, e := entries[..n], entries[n];
    TotalsAddUp(types, front, key);
    TotalsAddUp(types, entries, key);
    assert forall i :: 0 <= i < n ==> front[i] == entries[i];
    if CountUnder(front, key) > 0 { GreatestIsKept(types, front, key); }
    if Under(e, key) {
      TellExtremes(types, Kept(types, front), e, key);
    } else {
      TellElsewhere(types, Kept(types, front), e, key);
    }
  }

  ghost predicate ZeroAt(entries: seq<Entry>, key: string, i: nat) {
    i < |entries| && Under(entries[i], key) && LowOf(entries[i]) == 0.0
  }

  /** A snapshot follows the last zero under the key. */
  ghost predicate ZeroMergedAway(entries: seq<Entry>, key: string) {
    exists j: nat, k: nat :: MergesAway(entries, key, j, k)
  }

  ghost predicate MergesAway(entries: seq<Entry>, key: string, j: nat, k: nat) {
    && j < k < |entries| && ZeroAt(entries, key, j) && Under(entries[k], key) && entries[k].Flushed?
    && forall i: nat :: j < i < |entries| ==> !ZeroAt(entries, key, i)
  }

  /** No duration is negative. */
  ghost predicate NoneNegative(entries: seq<Entry>, key: string) {
    forall i :: 0 <= i < |entries| && Under(entries[i], key) ==> LowOf(entries[i]) >= 0.0
  }

  lemma {:induction false} LeastSigns(entries: seq<Entry>, key: string)
    requires NoneNegative(entries, key) && CountUnder(entries, key) > 0
    ensures LeastUnder(entries, key) >= 0.0
    ensures LeastUnder(entries, key) == 0.0 <==> exists i: nat :: ZeroAt(entries, key, i)
  {
    hide At, SumUnder;
    var n := |entries| - 1;
    var front, e := entries[..n], entries[n];
    assert forall i :: 0 <= i < n ==> front[i] == entries[i];
    forall i: nat
      ensures ZeroAt(entries, key, i) <==> ZeroAt(front, key, i) || (i == n && Under(e, key) && LowOf(e) == 0.0)
    {
    }
    if CountUnder(front, key) > 0 {
      LeastSigns(front, key);
      if i: nat :| ZeroAt(front, key, i) { assert ZeroAt(entries, key, i); }
    } else {
      NoZero(front, key);
    }
    if Under(e, key) && LowOf(e) == 0.0 { assert ZeroAt(entries, key, n); }
  }

  lemma {:induction false} NoZero(entries: seq<Entry>, key: string)
    requires CountUnder(entries, key) <= 0
    ensures forall i :: 0 <= i < |entries| ==> !Under(entries[i], key)
    ensures CountUnder(entries, key) == 0
  {
    hide At;
    if entries != [] {
      var n := |entries| - 1;
      CountPositive(entries[..n], key);
      NoZero(entries[..n], key);
      assert forall i :: 0 <= i < n ==> entries[..n][i] == entries[i];
    }
  }

  lemma {:induction false} CountPositive(entries: seq<Entry>, key: string)
    ensures CountUnder(entries, key) >= 0
  {
    hide At;
    if entries != [] { CountPositive(entries[..|entries| - 1], key); }
  }

  /** How one more entry bears on zeros merged away. */
  lemma MergedMore(entries: seq<Entry>, key: string)
    requires entries != []
    ensures var n := |entries| - 1; var front, e := entries[..n], entries[n];
            ZeroMergedAway(entries, key) <==>
              if !Under(e, key) then ZeroMergedAway(front, key)
              else if LowOf(e) == 0.0 then false
              else ZeroMergedAway(front, key) || (e.Flushed? && exists i: nat :: ZeroAt(front, key, i))
  {
    hide At;
    var n := |entries| - 1;
    var front, e := entries[..n], entries[n];
    assert forall i: nat :: i < n ==> front[i] == entries[i];
    assert forall i: nat :: ZeroAt(entries, key, i) <==> ZeroAt(front, key, i) || (i == n && Under(e, key) && LowOf(e) == 0.0);
    forall j: nat, k: nat | k < n
      ensures MergesAway(entries, key, j, k) <==> MergesAway(front, key, j, k) && !ZeroAt(entries, key, n)
    {
      MergesInFront(entries, key, j, k);
    }
    hide MergesAway, Under, ZeroAt;
    if j: nat, k: nat :| MergesAway(front, key, j, k) { MergesBounds(front, key, j, k); }
    if j: nat, k: nat :| MergesAway(entries, key, j, k) { MergesBounds(entries, key, j, k); }
    if Under(e, key) && LowOf(e) != 0.0 && e.Flushed? {
      if i: nat :| ZeroAt(front, key, i) {
        var j := LastZero(front, key, i);
        MergesNow(entries, key, j);
      }
    }
  }

  lemma MergesInFront(entries: seq<Entry>, key: string, j: nat, k: nat)
    requires entries != [] && k < |entries| - 1
    ensures var n := |entries| - 1;
            MergesAway(entries, key, j, k) <==> MergesAway(entries[..n], key, j, k) && !ZeroAt(entries, key, n)
  {
    hide At;
    var n := |entries| - 1;
    assert forall i: nat :: i < n ==> entries[..n][i] == entries[i];
    assert forall i: nat :: i < n ==> (ZeroAt(entries[..n], key, i) <==> ZeroAt(entries, key, i));
  }

  lemma MergesBounds(entries: seq<Entry>, key: string, j: nat, k: nat)
    requires MergesAway(entries, key, j, k)
    ensures j < k < |entries| && ZeroAt(entries, key, j) && Under(entries[k], key) && entries[k].Flushed?
    ensures k == |entries| - 1 ==> ZeroAt(entries[..k], key, j) && LowOf(entries[k]) != 0.0
  {
    hide At;
    assert !ZeroAt(entries, key, k) && entries[..k][j] == entries[j];
  }

  /** A snapshot that is no zero merges away the last zero before it. */
  lemma MergesNow(entries: seq<Entry>, key: string, j: nat)
    requires entries != []
    requires var n := |entries| - 1;
             && ZeroAt(entries[..n], key, j) && Under(entries[n], key) && entries[n].Flushed? && LowOf(entries[n]) != 0.0
             && forall i: nat :: j < i < n ==> !ZeroAt(entries[..n], key, i)
    ensures MergesAway(entries, key, j, |entries| - 1)
  {
    hide At;
    var n := |entries| - 1;
    assert forall i: nat :: i < n ==> entries[..n][i] == entries[i];
    assert forall i: nat :: i < n ==> (ZeroAt(entries[..n], key, i) <==> ZeroAt(entries, key, i));
  }

  lemma LastZero(entries: seq<Entry>, key: string, i: nat) returns (j: nat)
    requires ZeroAt(entries, key, i)
    ensures ZeroAt(entries, key, j) && forall k: nat :: j < k < |entries| ==> !ZeroAt(entries, key, k)
    decreases |entries| - i
  {
    hide At;
    j := i;
    if k: nat :| i < k < |entries| && ZeroAt(entries, key, k) { j := LastZero(entries, key, k); }
  }

  /**
    Of durations that are not negative, the least under a key is kept exactly if no
    snapshot follows the last zero there; otherwise what is kept is greater.
   */
  lemma {:induction false} LeastIsKept(types: Types, entries: seq<Entry>, key: string)
    requires AllTimed(entries, key) && NoneNegative(entries, key) && CountUnder(entries, key) > 0
    ensures key in Kept(types, entries) && Kept(types, entries)[key].min >= LeastUnder(entries, key)
    ensures Kept(types, entries)[key].min == LeastUnder(entries, key) <==> !ZeroMergedAway(entries, key)
    ensures ZeroMergedAway(entries, key) ==> LeastUnder(entries, key) == 0.0
  {
    hide Told, At, KeyOf, SumUnder, ZeroMergedAway, GreatestUnder;
    var n := |entries| - 1;
    var front, e := entries[..n], entries[n];
    assert forall i :: 0 <= i < n ==> front[i] == entries[i];
    MergedMore(entries, key);
    TotalsAddUp(types, front, key);
    if CountUnder(front, key) > 0 {
      LeastIsKept(types, front, key);
      GreatestIsKept(types, front, key);
      LeastSigns(front, key);
    } else {
      NoZero(front, key);
      NothingMerged(front, key);
    }
    if Under(e, key) {
      TellExtremes(types, Kept(types, front), e, key);
    } else {
      TellElsewhere(types, Kept(types, front), e, key);
    }
  }

  lemma NothingMerged(entries: seq<Entry>, key: string)
    requires forall i :: 0 <= i < |entries| ==> !Under(entries[i], key)
    ensures !ZeroMergedAway(entries, key) && forall i: nat :: !ZeroAt(entries, key, i)
  {
  }

  /** A zero, then a flush whose least is one: the least kept is one. */
  lemma ZeroIsLost(types: Types)
    ensures var zero, one := Snapshot("m", "duration", map[], 1, 0.0, 0.0, 0.0), Snapshot("m", "duration", map[], 1, 1.0, 1.0, 1.0);
            var entries, key := [Flushed(zero), Flushed(one)], KeyOf("m", map[]);
            key in Kept(types, entries) && Kept(types, entries)[key].min == 1.0 && LeastUnder(entries, key) == 0.0
  {
    var zero, one := Snapshot("m", "duration", map[], 1, 0.0, 0.0, 0.0), Snapshot("m", "duration", map[], 1, 1.0, 1.0, 1.0);
    var entries, key := [Flushed(zero), Flushed(one)], KeyOf("m", map[]);
    hide KeyOf, Kept, Told;
    KeptNone(types);
    KeptMore(types, [], Flushed(zero));
    KeptMore(types, [Flushed(zero)], Flushed(one));
    assert [] + [Flushed(zero)] == [Flushed(zero)] && [Flushed(zero)] + [Flushed(one)] == entries;
    TellExtremes(types, map[], Flushed(zero), key);
    TellAdds(types, map[], Flushed(zero), key);
    TellExtremes(types, Kept(types, [Flushed(zero)]), Flushed(one), key);
    TwoLeast(Flushed(zero), Flushed(one), key);
  }

  lemma KeptNone(types: Types)
    ensures Kept(types, []) == map[]
  {
  }

  lemma TwoLeast(a: Entry, b: Entry, key: string)
    requires Under(a, key) && Under(b, key) && LowOf(a) <= LowOf(b)
    ensures LeastUnder([a, b], key) == LowOf(a)
  {
    hide At;
    assert [a, b][..1] == [a] && [a][..0] == [];
    assert CountUnder([a], key) == CountOf(a);
  }

  // ------------------------------------------------------------------------- types

  /** The name of the metric an entry is about, and the type it speaks of. */
  function NameOf(e: Entry): string {
    match e
    case Emitted(emission) => emission.name
    case Flushed(s) => s.name
  }

  function SpokenType(e: Entry): string {
    match e
    case Emitted(emission) => if emission.Count? then "counter" else "duration"
    case Flushed(s) => if s.kind == "" then "counter" else s.kind
  }

  /** The metric has a type of its own, which is not blank. */
  predicate Declares(types: Types, name: string) {
    name in types && TrimSpace(types[name]) != ""
  }

  /** Every entry that counts under the key is about this metric. */
  ghost predicate OneName(entries: seq<Entry>, key: string, name: string) {
    forall i :: 0 <= i < |entries| && Under(entries[i], key) ==> NameOf(entries[i]) == name
  }

  ghost predicate FirstUnder(entries: seq<Entry>, key: string, i: nat) {
    i < |entries| && Under(entries[i], key) && forall j :: 0 <= j < i ==> !Under(entries[j], key)
  }

  ghost predicate FlushesDurations(entries: seq<Entry>, key: string) {
    exists i :: 0 <= i < |entries| && Under(entries[i], key) && entries[i].Flushed? && entries[i].s.kind == "duration"
  }

  /** What one entry does to the type under its key. */
  lemma TellType(types: Types, items: Items, e: Entry, key: string)
    requires Under(e, key) && (key in items ==> items[key].kind != "" && items[key].count > 0)
    ensures var t := Told(types, items, e); var name := NameOf(e);
            && key in t && t[key].kind != ""
            && (Declares(types, name) && (key in items ==> items[key].kind == types[name]) ==> t[key].kind == types[name])
            && (!Declares(types, name) ==>
                  t[key].kind == if e.Flushed? && e.s.kind == "duration" then "duration"
                                 else if key in items then items[key].kind
                                 else SpokenType(e))
  {
    assert TrimSpace("") == "";
    hide KeyOf, TrimSpace;
  }

  /**
    The type of a metric is the one it declares. Undeclared, it is what the first entry
    speaks of, unless durations are flushed to it at any time.
   */
  lemma {:induction false} TypeIsDeclared(types: Types, entries: seq<Entry>, key: string, name: string, i: nat)
    requires OneName(entries, key, name) && FirstUnder(entries, key, i)
    ensures key in Kept(types, entries) && Kept(types, entries)[key].kind != ""
    ensures Kept(types, entries)[key].kind
            == if Declares(types, name) then types[name]
               else if FlushesDurations(entries, key) then "duration"
               else SpokenType(entries[i])
  {
    hide Told, At, KeyOf, TrimSpace, SumUnder;
    var n := |entries| - 1;
    var front, e := entries[..n], entries[n];
    assert forall j :: 0 <= j < n ==> front[j] == entries[j];
    TotalsAddUp(types, front, key);
    FlushesMore(entries, key);
    if i < n {
      TypeIsDeclared(types, front, key, name, i);
    } else {
      NotBefore(front, key);
    }
    if Under(e, key) {
      TellType(types, Kept(types, front), e, key);
    } else {
      TellElsewhere(types, Kept(types, front), e, key);
    }
  }

  lemma FlushesMore(entries: seq<Entry>, key: string)
    requires entries != []
    ensures var n := |entries| - 1;
            FlushesDurations(entries, key) <==>
              FlushesDurations(entries[..n], key) || (Under(entries[n], key) && entries[n].Flushed? && entries[n].s.kind == "duration")
  {
    hide At;
    var n := |entries| - 1;
    assert forall j :: 0 <= j < n ==> entries[..n][j] == entries[j];
  }

  lemma {:induction false} NotBefore(entries: seq<Entry>, key: string)
    requires forall j :: 0 <= j < |entries| ==> !Under(entries[j], key)
    ensures CountUnder(entries, key) == 0 && !FlushesDurations(entries, key)
  {
    hide At;
    if entries != [] {
      var n := |entries| - 1;
      assert forall j :: 0 <= j < n ==> entries[..n][j] == entries[j];
      NotBefore(entries[..n], key);
    }
  }
}
