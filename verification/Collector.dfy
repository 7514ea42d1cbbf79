/**
  What the metrics collector keeps between scrapes
  (units/wukongim/metrics_collector/collector.go): the capped index of the latest
  samples, the accounts per node, and the run of failed ticks that ends the loop.
  A series is known by its JSON key, in which a byte that starts no rune is one
  replacement escape, whatever byte it is.
 */
module Collector {
  import opened Strings
  import opened Utf8
  import M = MetricStore

  datatype Series = Series(name: string, labels: map<string, string>)

  datatype Sample = Sample(series: Series, value: real)

  // -------------------------------------------------------------------- series keys

  /** What the JSON key of a series tells: names are ASCII, label values go by runes. */
  datatype Key = Key(name: string, labels: map<string, seq<string>>)

  function KeyOf(s: Series): Key {
    Key(s.name, map k | k in s.labels :: Runes(s.labels[k]))
  }

  function At(s: Sample): Key {
    KeyOf(s.series)
  }

  /** The values are the same, stray bytes aside. */
  ghost predicate SameLabels(a: map<string, string>, b: map<string, string>) {
    a.Keys == b.Keys && forall k :: k in a ==> Alike(a[k], b[k])
  }

  /** Two series are one in the index exactly if name and labels agree up to which stray bytes the values have. */
  lemma KeysMeet(a: Series, b: Series)
    ensures KeyOf(a) == KeyOf(b) <==> a.name == b.name && SameLabels(a.labels, b.labels)
  {
    hide Runes, Alike;
    var x, y := KeyOf(a), KeyOf(b);
    assert x.labels.Keys == a.labels.Keys && y.labels.Keys == b.labels.Keys;
    forall k | k in a.labels && k in b.labels
      ensures x.labels[k] == y.labels[k] <==> Alike(a.labels[k], b.labels[k])
    {
      RunesMeet(a.labels[k], b.labels[k]);
    }
    if a.labels.Keys == b.labels.Keys && forall k :: k in a.labels ==> x.labels[k] == y.labels[k] {
      assert x.labels == y.labels;
    }
  }

  /** Series whose values are valid UTF-8 are never taken for one another. */
  lemma ValidSeriesDiffer(a: Series, b: Series)
    requires forall k :: k in a.labels ==> Valid(a.labels[k])
    requires KeyOf(a) == KeyOf(b)
    ensures a == b
  {
    KeysMeet(a, b);
    forall k | k in a.labels ensures a.labels[k] == b.labels[k] {
      ValidAlike(a.labels[k], b.labels[k]);
    }
    hide Alike, Valid, KeyOf;
    assert a.labels == b.labels;
  }

  /** Different stray bytes meet; a stray byte and a replacement character do not. */
  lemma StraySeriesMeet()
    ensures var a, b, c := Series("m", map["a" := "\U{FF}"]), Series("m", map["a" := "\U{FE}"]), Series("m", map["a" := REPLACEMENT]);
            a != b && KeyOf(a) == KeyOf(b) && KeyOf(a) != KeyOf(c)
  {
    StrayRunes('\U{FF}');
    StrayRunes('\U{FE}');
    var a, b, c := map["a" := "\U{FF}"], map["a" := "\U{FE}"], map["a" := REPLACEMENT];
    assert a["a"] != b["a"];
    assert "a" in a && "a" in c;
    assert KeyOf(Series("m", a)).labels["a"] == [""] && |Runes(REPLACEMENT)[0]| == 3;
    assert KeyOf(Series("m", c)).labels["a"] == Runes(REPLACEMENT);
  }

  lemma StrayRunes(c: char)
    requires c >= '\U{F5}'
    ensures Runes([c]) == [""]
  {
    assert [c][1..] == [];
  }

  // ------------------------------------------------------------- the capped index

  /** The series of a stream, each once, in the order of their first sample. */
  function FirstSeen(stream: seq<Sample>): seq<Key> {
    if stream == [] then []
    else
      var n := |stream| - 1;
      var front := FirstSeen(stream[..n]);
      if At(stream[n]) in front then front else front + [At(stream[n])]
  }

  function LastSample(stream: seq<Sample>, k: Key): Sample {
    if stream == [] then Sample(Series(k.name, map[]), 0.0)
    else if At(stream[|stream| - 1]) == k then stream[|stream| - 1]
    else LastSample(stream[..|stream| - 1], k)
  }

  function Capped(n: nat, max: int): nat {
    if max <= 0 then 0 else if n < max then n else max
  }

  /** The first `max` series are kept, the others dropped and counted. */
  ghost predicate Partition(all: seq<Key>, max: int, latest: set<Key>, dropped: set<Key>, count: int) {
    var kept := Capped(|all|, max);
    && (forall k :: k in latest <==> k in all[..kept])
    && (forall k :: k in dropped <==> k in all[kept..])
    && |latest| == kept && count == |all| - kept == |dropped|
  }

  /** The index as a function of everything scraped so far. */
  ghost predicate IndexOf(stream: seq<Sample>, max: int, latest: map<Key, Sample>, dropped: set<Key>, count: int) {
    && Partition(FirstSeen(stream), max, latest.Keys, dropped, count)
    && (forall k :: k in latest ==> latest[k] == LastSample(stream, k))
  }

  lemma {:induction false} FirstSeenDistinct(stream: seq<Sample>)
    ensures forall i, j :: 0 <= i < j < |FirstSeen(stream)| ==> FirstSeen(stream)[i] != FirstSeen(stream)[j]
  {
    if stream != [] { FirstSeenDistinct(stream[..|stream| - 1]); }
  }

  lemma {:induction false} FirstSeenAll(stream: seq<Sample>, k: Key)
    ensures k in FirstSeen(stream) <==> exists i :: 0 <= i < |stream| && At(stream[i]) == k
  {
    if stream != [] {
      var n := |stream| - 1;
      FirstSeenAll(stream[..n], k);
      assert forall i :: 0 <= i < n ==> stream[..n][i] == stream[i];
    }
  }

  /** The sample kept of a series is the newest one. */
  lemma {:induction false} LastSampleIsNewest(stream: seq<Sample>, k: Key)
    requires k in FirstSeen(stream)
    ensures exists i :: Newest(stream, k, i) && LastSample(stream, k) == stream[i]
  {
    var n := |stream| - 1;
    if At(stream[n]) == k {
      assert Newest(stream, k, n);
    } else {
      LastSampleIsNewest(stream[..n], k);
      var i :| Newest(stream[..n], k, i) && LastSample(stream[..n], k) == stream[..n][i];
      assert forall j :: 0 <= j < n ==> stream[..n][j] == stream[j];
      assert Newest(stream, k, i);
    }
  }

  predicate Newest(stream: seq<Sample>, k: Key, i: int) {
    0 <= i < |stream| && At(stream[i]) == k && forall j :: i < j < |stream| ==> At(stream[j]) != k
  }

  lemma OneMore(stream: seq<Sample>, s: Sample)
    ensures FirstSeen(stream + [s]) == (if At(s) in FirstSeen(stream) then FirstSeen(stream) else FirstSeen(stream) + [At(s)])
    ensures forall k :: LastSample(stream + [s], k) == if At(s) == k then s else LastSample(stream, k)
  {
    assert (stream + [s])[..|stream|] == stream;
  }

  /** No series is kept and dropped at once, and every series seen is one or the other. */
  lemma KeptOrDropped(stream: seq<Sample>, max: int, latest: map<Key, Sample>, dropped: set<Key>, count: int)
    requires IndexOf(stream, max, latest, dropped, count)
    ensures latest.Keys !! dropped
    ensures forall k :: k in latest || k in dropped <==> exists i :: 0 <= i < |stream| && At(stream[i]) == k
  {
    FirstSeenDistinct(stream);
    var all := FirstSeen(stream);
    var kept := Capped(|all|, max);
    assert all == all[..kept] + all[kept..];
    forall k
      ensures k in latest || k in dropped <==> exists i :: 0 <= i < |stream| && At(stream[i]) == k
    {
      FirstSeenAll(stream, k);
    }
    forall k | k in latest
      ensures k !in dropped
    {
      var i :| 0 <= i < kept && all[i] == k;
    }
  }

  /** A sample of a series that is kept updates it; one that was dropped stays dropped. */
  lemma KnownSeries(stream: seq<Sample>, max: int, latest: map<Key, Sample>, dropped: set<Key>, count: int, s: Sample)
    requires IndexOf(stream, max, latest, dropped, count) && (At(s) in latest || At(s) in dropped)
    ensures IndexOf(stream + [s], max, if At(s) in latest then latest[At(s) := s] else latest, dropped, count)
  {
    OneMore(stream, s);
    KeptOrDropped(stream, max, latest, dropped, count);
    FirstSeenAll(stream, At(s));
    hide FirstSeen, LastSample, Partition;
    if At(s) in latest { assert latest[At(s) := s].Keys == latest.Keys; }
  }

  lemma PartitionKeeps(all: seq<Key>, max: int, latest: set<Key>, dropped: set<Key>, count: int, k: Key)
    requires Partition(all, max, latest, dropped, count) && k !in all && |latest| < max
    ensures Partition(all + [k], max, latest + {k}, dropped, count)
  {
    assert all[..|all|] == all && all[|all|..] == [];
    assert (all + [k])[..|all| + 1] == all + [k] && (all + [k])[|all| + 1..] == [];
  }

  lemma PartitionDrops(all: seq<Key>, max: int, latest: set<Key>, dropped: set<Key>, count: int, k: Key)
    requires Partition(all, max, latest, dropped, count) && k !in all && |latest| >= max
    ensures Partition(all + [k], max, latest, dropped + {k}, count + 1)
  {
    var kept := Capped(|all|, max);
    assert k !in dropped;
    assert (all + [k])[..kept] == all[..kept] && (all + [k])[kept..] == all[kept..] + [k];
  }

  lemma SizeOfKeys(latest: map<Key, Sample>)
    ensures |latest| == |latest.Keys|
  {
  }

  lemma KeysWith(latest: map<Key, Sample>, s: Sample)
    ensures latest[At(s) := s].Keys == latest.Keys + {At(s)}
  {
  }

  lemma NewSeriesKept(stream: seq<Sample>, max: int, latest: map<Key, Sample>, dropped: set<Key>, count: int, s: Sample)
    requires IndexOf(stream, max, latest, dropped, count) && At(s) !in FirstSeen(stream) && |latest| < max
    ensures IndexOf(stream + [s], max, latest[At(s) := s], dropped, count)
  {
    hide Partition, FirstSeen, LastSample;
    OneMore(stream, s);
    SizeOfKeys(latest);
    PartitionKeeps(FirstSeen(stream), max, latest.Keys, dropped, count, At(s));
    KeysWith(latest, s);
  }

  lemma NewSeriesDropped(stream: seq<Sample>, max: int, latest: map<Key, Sample>, dropped: set<Key>, count: int, s: Sample)
    requires IndexOf(stream, max, latest, dropped, count) && At(s) !in latest
    requires At(s) !in FirstSeen(stream) && |latest| >= max
    ensures IndexOf(stream + [s], max, latest, dropped + {At(s)}, count + 1)
  {
    hide Partition, FirstSeen, LastSample;
    OneMore(stream, s);
    assert |latest| == |latest.Keys|;
    PartitionDrops(FirstSeen(stream), max, latest.Keys, dropped, count, At(s));
  }

  lemma NewSeries(stream: seq<Sample>, max: int, latest: map<Key, Sample>, dropped: set<Key>, count: int, s: Sample)
    requires IndexOf(stream, max, latest, dropped, count) && At(s) !in latest && At(s) !in dropped
    ensures if |latest| < max then IndexOf(stream + [s], max, latest[At(s) := s], dropped, count)
            else IndexOf(stream + [s], max, latest, dropped + {At(s)}, count + 1)
  {
    KeptOrDropped(stream, max, latest, dropped, count);
    FirstSeenAll(stream, At(s));
    hide IndexOf, FirstSeen;
    if |latest| < max {
      NewSeriesKept(stream, max, latest, dropped, count, s);
    } else {
      NewSeriesDropped(stream, max, latest, dropped, count, s);
    }
  }

  // ------------------------------------------------------------ nodes and the class

  datatype Node = Node(success: nat, errors: nat)

  /** One node's answer to a scrape; `index` is the node's place in the target, latencies are nanoseconds. */
  datatype Scrape = Scrape(index: nat, latency: int, failed: bool, parseErrors: nat, samples: seq<Sample>)

  /** What the accounts say after a list of answers, newest last. */
  function AccountOf(history: seq<(string, Scrape)>, addr: string): Node {
    if history == [] then Node(0, 0)
    else
      var (a, s) := history[|history| - 1];
      var node := AccountOf(history[..|history| - 1], addr);
      if a != addr then node
      else if s.failed then node.(errors := node.errors + 1)
      else node.(success := node.success + 1)
  }

  /** The samples of the answers that did not fail. */
  function Streamed(history: seq<(string, Scrape)>): seq<Sample> {
    if history == [] then []
    else
      var s := history[|history| - 1].1;
      Streamed(history[..|history| - 1]) + (if s.failed then [] else s.samples)
  }

  function Latencies(history: seq<(string, Scrape)>): seq<int> {
    if history == [] then [] else Latencies(history[..|history| - 1]) + [history[|history| - 1].1.latency]
  }

  const ERRORS := "scrape_error_total"
  const SUCCESSES := "scrape_success_total"
  const PARSE_ERRORS := "scrape_parse_error_total"

  /** What recording an answer emits to the environment. */
  function Emits(addr: string, s: Scrape): seq<M.Emission> {
    var labels := map["address" := addr, "node_index" := Decimal(s.index)];
    [M.Observe("scrape_latency", s.latency as real / 1_000_000_000.0, labels)]
    + (if s.failed then [M.Count(ERRORS, 1.0, labels)]
       else [M.Count(SUCCESSES, 1.0, labels)]
            + (if s.parseErrors > 0 then [M.Count(PARSE_ERRORS, s.parseErrors as real, labels)] else []))
  }

  function Emitted(history: seq<(string, Scrape)>): seq<M.Emission> {
    if history == [] then []
    else
      var (addr, s) := history[|history| - 1];
      Emitted(history[..|history| - 1]) + Emits(addr, s)
  }

  /** How much a counter got for one address. */
  function CountedFor(es: seq<M.Emission>, name: string, addr: string): real {
    if es == [] then 0.0
    else
      var e := es[|es| - 1];
      CountedFor(es[..|es| - 1], name, addr)
      + (if e.Count? && e.name == name && "address" in e.labels && e.labels["address"] == addr then e.value else 0.0)
  }

  lemma {:induction false} CountedJoin(a: seq<M.Emission>, b: seq<M.Emission>, name: string, addr: string)
    ensures CountedFor(a + b, name, addr) == CountedFor(a, name, addr) + CountedFor(b, name, addr)
  {
    if b == [] {
      assert a + b == a;
    } else {
      var n := |b| - 1;
      CountedJoin(a, b[..n], name, addr);
      assert (a + b)[..|a| + n] == a + b[..n];
    }
  }

  /** One answer counts once for its address, as a success with its unreadable lines, or as an error. */
  lemma EmitsCount(a: string, s: Scrape, addr: string)
    ensures CountedFor(Emits(a, s), SUCCESSES, addr) == (if a == addr && !s.failed then 1.0 else 0.0)
    ensures CountedFor(Emits(a, s), ERRORS, addr) == (if a == addr && s.failed then 1.0 else 0.0)
    ensures CountedFor(Emits(a, s), PARSE_ERRORS, addr) == (if a == addr && !s.failed then s.parseErrors as real else 0.0)
  {
    var labels := map["address" := a, "node_index" := Decimal(s.index)];
    var latency := M.Observe("scrape_latency", s.latency as real / 1_000_000_000.0, labels);
    var success, error := M.Count(SUCCESSES, 1.0, labels), M.Count(ERRORS, 1.0, labels);
    var parse := M.Count(PARSE_ERRORS, s.parseErrors as real, labels);
    assert |SUCCESSES| == 20 && |ERRORS| == 18 && |PARSE_ERRORS| == 24;
    assert Emits(a, s) == [latency] + (if s.failed then [error] else [success] + if s.parseErrors > 0 then [parse] else []);
    forall name
      ensures CountedFor(Emits(a, s), name, addr)
           == CountedFor([latency], name, addr)
              + if s.failed then CountedFor([error], name, addr)
                else CountedFor([success], name, addr) + if s.parseErrors > 0 then CountedFor([parse], name, addr) else 0.0
    {
      var more: seq<M.Emission> := if s.parseErrors > 0 then [parse] else [];
      CountedJoin([latency], if s.failed then [error] else [success] + more, name, addr);
      CountedJoin([success], more, name, addr);
    }
    CountedOne(latency, addr);
    CountedOne(success, addr);
    CountedOne(error, addr);
    CountedOne(parse, addr);
    assert labels["address"] == a;
    hide CountedFor, Emits;
  }

  lemma CountedOne(e: M.Emission, addr: string)
    ensures forall name :: CountedFor([e], name, addr)
              == if e.Count? && e.name == name && "address" in e.labels && e.labels["address"] == addr then e.value else 0.0
  {
    assert [e][..0] == [];
  }

  /** The unreadable lines in the good answers of one address. */
  function UnreadableOf(history: seq<(string, Scrape)>, addr: string): nat {
    if history == [] then 0
    else
      var (a, s) := history[|history| - 1];
      UnreadableOf(history[..|history| - 1], addr) + (if a == addr && !s.failed then s.parseErrors else 0)
  }

  /** The counters in the metrics tell the same story as the accounts in the summary, and count every unreadable line. */
  lemma {:induction false} CountersMatchAccounts(history: seq<(string, Scrape)>, addr: string)
    ensures CountedFor(Emitted(history), SUCCESSES, addr) == AccountOf(history, addr).success as real
    ensures CountedFor(Emitted(history), ERRORS, addr) == AccountOf(history, addr).errors as real
    ensures CountedFor(Emitted(history), PARSE_ERRORS, addr) == UnreadableOf(history, addr) as real
  {
    if history != [] {
      var n := |history| - 1;
      var (a, s) := history[n];
      CountersMatchAccounts(history[..n], addr);
      CountedJoin(Emitted(history[..n]), Emits(a, s), SUCCESSES, addr);
      CountedJoin(Emitted(history[..n]), Emits(a, s), ERRORS, addr);
      CountedJoin(Emitted(history[..n]), Emits(a, s), PARSE_ERRORS, addr);
      EmitsCount(a, s, addr);
      hide CountedFor, Emits;
    }
  }

  /** The durations observed among emissions. */
  function DurationsIn(es: seq<M.Emission>): seq<real> {
    if es == [] then []
    else DurationsIn(es[..|es| - 1]) + (if es[|es| - 1].Observe? then [es[|es| - 1].value] else [])
  }

  lemma {:induction false} DurationsJoin(a: seq<M.Emission>, b: seq<M.Emission>)
    ensures DurationsIn(a + b) == DurationsIn(a) + DurationsIn(b)
  {
    if b == [] {
      assert a + b == a;
    } else {
      var n := |b| - 1;
      DurationsJoin(a, b[..n]);
      assert (a + b)[..|a| + n] == a + b[..n];
    }
  }

  lemma EmitsDuration(a: string, s: Scrape)
    ensures |DurationsIn(Emits(a, s))| == 1 && DurationsIn(Emits(a, s))[0] * 1_000_000_000.0 == s.latency as real
  {
    var es := Emits(a, s);
    DurationsJoin([es[0]], es[1..]);
    assert es == [es[0]] + es[1..] && [es[0]][..0] == [];
    NoDurations(es[1..]);
  }

  lemma {:induction false} NoDurations(es: seq<M.Emission>)
    requires forall i :: 0 <= i < |es| ==> es[i].Count?
    ensures DurationsIn(es) == []
  {
    if es != [] { NoDurations(es[..|es| - 1]); }
  }

  /** The latency of every answer, failed or not, is observed once, in seconds. */
  lemma {:induction false} EveryLatencyObserved(history: seq<(string, Scrape)>)
    ensures var ds := DurationsIn(Emitted(history));
            |ds| == |history| && forall i :: 0 <= i < |ds| ==> ds[i] * 1_000_000_000.0 == history[i].1.latency as real
  {
    if history != [] {
      var n := |history| - 1;
      EveryLatencyObserved(history[..n]);
      var (a, s) := history[n];
      EmitsDuration(a, s);
      DurationsJoin(Emitted(history[..n]), Emits(a, s));
      hide Emits, DurationsIn;
    }
  }

  /** The samples recorded are exactly those of the answers that did not fail. */
  lemma {:induction false} StreamedAre(history: seq<(string, Scrape)>, x: Sample)
    ensures x in Streamed(history) <==> exists i :: 0 <= i < |history| && !history[i].1.failed && x in history[i].1.samples
  {
    if history != [] {
      var n := |history| - 1;
      StreamedAre(history[..n], x);
      assert forall i :: 0 <= i < n ==> history[..n][i] == history[i];
    }
  }

  /** The answers of one tick, in the order of the addresses. */
  function Answered(addrs: seq<string>, results: seq<Scrape>): seq<(string, Scrape)>
    requires |addrs| == |results|
  {
    if addrs == [] then []
    else
      var n := |addrs| - 1;
      Answered(addrs[..n], results[..n]) + [(addrs[n], results[n])]
  }

  class CollectorState {
    const maxSummaryMetrics: int
    var scrapeTicks: nat
    var selectedSamples: nat
    var nodes: map<string, Node>
    var latencies: seq<int>
    var latest: map<Key, Sample>
    var droppedSeries: set<Key>
    var droppedMetricNames: int
    /** What the environment was given. */
    var emissions: seq<M.Emission>
    /** Every answer recorded so far. */
    ghost var history: seq<(string, Scrape)>

    /** Every field is a function of the answers recorded so far. */
    ghost predicate Valid()
      reads this
    {
      && IndexOf(Streamed(history), maxSummaryMetrics, latest, droppedSeries, droppedMetricNames)
      && selectedSamples == |Streamed(history)| && latencies == Latencies(history)
      && emissions == Emitted(history)
      && (forall a :: (if a in nodes then nodes[a] else Node(0, 0)) == AccountOf(history, a))
    }

    constructor (max: int)
      ensures Valid() && history == [] && scrapeTicks == 0 && maxSummaryMetrics == max
    {
      maxSummaryMetrics := max;
      scrapeTicks, selectedSamples, nodes, latencies := 0, 0, map[], [];
      latest, droppedSeries, droppedMetricNames, emissions, history := map[], {}, 0, [], [];
    }

    method RecordLatest(samples: seq<Sample>, ghost stream: seq<Sample>)
      requires IndexOf(stream, maxSummaryMetrics, latest, droppedSeries, droppedMetricNames)
      modifies this`latest, this`droppedSeries, this`droppedMetricNames
      ensures IndexOf(stream + samples, maxSummaryMetrics, latest, droppedSeries, droppedMetricNames)
    {
      hide IndexOf;
      assert stream + samples[..0] == stream;
      for i := 0 to |samples|
        invariant IndexOf(stream + samples[..i], maxSummaryMetrics, latest, droppedSeries, droppedMetricNames)
      {
        var s := samples[i];
        ghost var before := stream + samples[..i];
        assert stream + samples[..i + 1] == before + [s];
        if At(s) in latest {
          KnownSeries(before, maxSummaryMetrics, latest, droppedSeries, droppedMetricNames, s);
          latest := latest[At(s) := s];
          continue;
        }
        if At(s) in droppedSeries {
          KnownSeries(before, maxSummaryMetrics, latest, droppedSeries, droppedMetricNames, s);
          continue;
        }
        NewSeries(before, maxSummaryMetrics, latest, droppedSeries, droppedMetricNames, s);
        if |latest| < maxSummaryMetrics {
          latest := latest[At(s) := s];
          continue;
        }
        droppedSeries := droppedSeries + {At(s)};
        droppedMetricNames := droppedMetricNames + 1;
      }
      assert samples[..|samples|] == samples;
    }

    method RecordResult(addr: string, result: Scrape)
      requires Valid()
      modifies this
      ensures Valid() && history == old(history) + [(addr, result)] && scrapeTicks == old(scrapeTicks)
    {
      hide IndexOf, Emits, Emitted, AccountOf, Streamed, Latencies;
      ghost var stream := Streamed(history);
      Recorded(history, addr, result);
      history := history + [(addr, result)];
      latencies := latencies + [result.latency];
      emissions := emissions + Emits(addr, result);
      var node := if addr in nodes then nodes[addr] else Node(0, 0);
      if result.failed {
        nodes := nodes[addr := node.(errors := node.errors + 1)];
        assert stream + [] == stream;
        return;
      }
      nodes := nodes[addr := node.(success := node.success + 1)];
      selectedSamples := selectedSamples + |result.samples|;
      RecordLatest(result.samples, stream);
    }

    /**
      One tick over all addresses; whether any answer recorded failed or had unreadable
      lines, and whether a record could not be written. Of the records, `writable` can
      be written; the tick stops at the first that cannot, before its answer is
      recorded. A tick after the context has ended does nothing.
     */
    method ScrapeTick(addrs: seq<string>, results: seq<Scrape>, writable: nat, ended: bool)
      returns (hadScrapeError: bool, unwritable: bool)
      requires Valid() && |results| == |addrs|
      modifies this
      ensures Valid()
      ensures ended ==> !hadScrapeError && !unwritable && history == old(history) && scrapeTicks == old(scrapeTicks)
      ensures !ended ==>
                var n := if writable < |addrs| then writable else |addrs|;
                && scrapeTicks == old(scrapeTicks) + 1 && unwritable == (writable < |addrs|)
                && history == old(history) + Answered(addrs[..n], results[..n])
                && (hadScrapeError <==> exists i :: 0 <= i < n && (results[i].failed || results[i].parseErrors > 0))
    {
      hide IndexOf, Streamed, Latencies, AccountOf, Emitted;
      hadScrapeError, unwritable := false, false;
      if ended { return; }
      scrapeTicks := scrapeTicks + 1;
      for i := 0 to |results|
        invariant Valid() && scrapeTicks == old(scrapeTicks) + 1 && !unwritable && i <= writable
        invariant history == old(history) + Answered(addrs[..i], results[..i])
        invariant hadScrapeError <==> exists j :: 0 <= j < i && (results[j].failed || results[j].parseErrors > 0)
      {
        if i == writable {
          unwritable := true;
          return;
        }
        assert addrs[..i + 1][..i] == addrs[..i] && results[..i + 1][..i] == results[..i];
        RecordResult(addrs[i], results[i]);
        if results[i].failed || results[i].parseErrors > 0 { hadScrapeError := true; }
      }
    }
  }

  lemma Recorded(history: seq<(string, Scrape)>, addr: string, s: Scrape)
    ensures var more := history + [(addr, s)];
            && Streamed(more) == Streamed(history) + (if s.failed then [] else s.samples)
            && Latencies(more) == Latencies(history) + [s.latency]
            && Emitted(more) == Emitted(history) + Emits(addr, s)
            && forall a :: AccountOf(more, a) ==
                 var node := AccountOf(history, a);
                 if a != addr then node
                 else if s.failed then node.(errors := node.errors + 1) else node.(success := node.success + 1)
  {
    assert (history + [(addr, s)])[..|history|] == history;
  }

  // ---------------------------------------------------------------------- the loop

  /**
    One turn of the loop: how its tick went, and whether the context had ended after
    the tick or ended while the loop waited for the next one.
   */
  datatype Tick = Tick(failed: bool, unwritable: bool, ended: bool, endedWaiting: bool)

  datatype End = Unwritable | Stopped | Threshold | Running

  /** How many ticks up to and including the last one failed in a row. */
  function Streak(ticks: seq<Tick>): nat {
    if ticks == [] || !ticks[|ticks| - 1].failed then 0 else 1 + Streak(ticks[..|ticks| - 1])
  }

  /** The streak is the longest run of failed ticks at the end. */
  lemma {:induction false} StreakIsRun(ticks: seq<Tick>)
    ensures Streak(ticks) <= |ticks|
    ensures forall i :: |ticks| - Streak(ticks) <= i < |ticks| ==> ticks[i].failed
    ensures Streak(ticks) < |ticks| ==> !ticks[|ticks| - 1 - Streak(ticks)].failed
  {
    if ticks != [] && ticks[|ticks| - 1].failed {
      var n := |ticks| - 1;
      StreakIsRun(ticks[..n]);
      assert forall i :: 0 <= i < n ==> ticks[..n][i] == ticks[i];
    }
  }

  /** Tick `k` failed, and so did the ones before it, `limit` in all; below two, it alone is enough. */
  ghost predicate TooMany(ticks: seq<Tick>, k: nat, limit: int)
    requires k < |ticks|
  {
    && ticks[k].failed
    && (limit <= 1 || (limit <= k + 1 && forall j :: k + 1 - limit <= j <= k ==> ticks[j].failed))
  }

  ghost predicate GivesUp(ticks: seq<Tick>, k: nat, failOnError: bool, limit: int)
    requires k < |ticks|
  {
    failOnError && !ticks[k].unwritable && !ticks[k].ended && TooMany(ticks, k, limit)
  }

  ghost predicate IsStopped(ticks: seq<Tick>, k: nat, failOnError: bool, limit: int)
    requires k < |ticks|
  {
    !ticks[k].unwritable && (ticks[k].ended || (ticks[k].endedWaiting && !GivesUp(ticks, k, failOnError, limit)))
  }

  ghost predicate GoesOn(ticks: seq<Tick>, k: nat, failOnError: bool, limit: int)
    requires k < |ticks|
  {
    !ticks[k].unwritable && !GivesUp(ticks, k, failOnError, limit) && !IsStopped(ticks, k, failOnError, limit)
  }

  /**
    The loop ends at the first tick that ends it: because its record cannot be written,
    because too many ticks failed in a row, or because the context has ended.
   */
  method Loop(ticks: seq<Tick>, failOnError: bool, limit: int) returns (end: End, n: nat)
    ensures n <= |ticks| && forall k :: 0 <= k < n - 1 ==> GoesOn(ticks, k, failOnError, limit)
    ensures end.Unwritable? <==> n > 0 && ticks[n - 1].unwritable
    ensures end.Threshold? <==> n > 0 && GivesUp(ticks, n - 1, failOnError, limit)
    ensures end.Stopped? <==> n > 0 && IsStopped(ticks, n - 1, failOnError, limit)
    ensures end.Running? ==> n == |ticks|
  {
    hide Streak;
    var consecutive := 0;
    n := 0;
    NoStreak(ticks);
    while n < |ticks|
      invariant n <= |ticks| && consecutive == Streak(ticks[..n])
      invariant forall k :: 0 <= k < n ==> GoesOn(ticks, k, failOnError, limit)
    {
      var tick := ticks[n];
      NextTick(ticks, n, limit);
      n := n + 1;
      if tick.unwritable { return Unwritable, n; }
      if tick.ended { return Stopped, n; }
      if tick.failed {
        consecutive := consecutive + 1;
        if failOnError && (limit == 0 || consecutive >= limit) { return Threshold, n; }
      } else {
        consecutive := 0;
      }
      if tick.endedWaiting { return Stopped, n; }
    }
    assert n > 0 ==> GoesOn(ticks, n - 1, failOnError, limit);
    return Running, n;
  }

  lemma NoStreak(ticks: seq<Tick>)
    ensures Streak(ticks[..0]) == 0
  {
  }

  /** One more tick: too many have failed exactly if the streak has the length of the limit. */
  lemma NextTick(ticks: seq<Tick>, n: nat, limit: int)
    requires n < |ticks|
    ensures var streak := Streak(ticks[..n + 1]);
            && streak == (if ticks[n].failed then Streak(ticks[..n]) + 1 else 0)
            && (TooMany(ticks, n, limit) <==> ticks[n].failed && (limit == 0 || streak >= limit))
  {
    var front := ticks[..n + 1];
    assert front[..n] == ticks[..n];
    StreakIsRun(front);
    hide Streak;
    assert forall i :: 0 <= i <= n ==> front[i] == ticks[i];
  }

  /** Every recorded answer is accounted for at its node, as a success or as an error. */
  lemma {:induction false} AccountsAddUp(history: seq<(string, Scrape)>, addr: string)
    ensures AccountOf(history, addr).success + AccountOf(history, addr).errors == Answers(history, addr)
  {
    if history != [] { AccountsAddUp(history[..|history| - 1], addr); }
  }

  function Answers(history: seq<(string, Scrape)>, addr: string): nat {
    if history == [] then 0
    else Answers(history[..|history| - 1], addr) + (if history[|history| - 1].0 == addr then 1 else 0)
  }
}
