/** The process-wide metric tables: integer counters and duration histograms, each a
    JavaScript `Map` that iterates in first-insertion order, and their text rendering.
    Durations are whole milliseconds here. */
module Metrics {
  import opened JsString
  import opened SeqLemmas

  datatype Histogram = Histogram(count: nat, sum: int)

  /** Both maps, each with its keys in insertion order. */
  datatype Tables = Tables(
    counterNames: seq<string>,
    counters: map<string, int>,
    histogramNames: seq<string>,
    histograms: map<string, Histogram>)

  const EmptyTables := Tables([], map[], [], map[])

  predicate Distinct(names: seq<string>) {
    forall i, j :: 0 <= i < j < |names| ==> names[i] != names[j]
  }

  /** The key lists are exactly the keys of the maps, each once. */
  ghost predicate Valid(t: Tables) {
    && Distinct(t.counterNames) && (forall n :: n in t.counters <==> n in t.counterNames)
    && Distinct(t.histogramNames) && (forall n :: n in t.histograms <==> n in t.histogramNames)
  }

  /** `counters.get(name) || 0`. */
  function CounterValue(t: Tables, name: string): int {
    if name in t.counters then t.counters[name] else 0
  }

  /** `increment_counter(name, value)`: a new key goes to the end of the iteration order,
      an existing one keeps its place. */
  function Inc(t: Tables, name: string, value: int): (r: Tables)
    ensures name in r.counters && r.counters[name] == CounterValue(t, name) + value
    ensures forall n :: n != name ==> (n in r.counters <==> n in t.counters) && CounterValue(r, n) == CounterValue(t, n)
    ensures r.counterNames == if name in t.counters then t.counterNames else t.counterNames + [name]
    ensures r.histogramNames == t.histogramNames && r.histograms == t.histograms
    ensures Valid(t) ==> Valid(r)
  {
    var names := if name in t.counters then t.counterNames else t.counterNames + [name];
    t.(counterNames := names, counters := t.counters[name := CounterValue(t, name) + value])
  }

  /** `observe_duration(name, ms)`: a missing histogram starts at count 0 and sum 0. */
  function Observe(t: Tables, name: string, ms: int): (r: Tables)
    ensures name in r.histograms
    ensures var before := if name in t.histograms then t.histograms[name] else Histogram(0, 0);
            r.histograms[name] == Histogram(before.count + 1, before.sum + ms)
    ensures forall n :: n != name ==> (n in r.histograms <==> n in t.histograms)
    ensures forall n :: n != name && n in t.histograms ==> r.histograms[n] == t.histograms[n]
    ensures r.counterNames == t.counterNames && r.counters == t.counters
    ensures Valid(t) ==> Valid(r)
  {
    var before := if name in t.histograms then t.histograms[name] else Histogram(0, 0);
    var names := if name in t.histograms then t.histogramNames else t.histogramNames + [name];
    t.(histogramNames := names, histograms := t.histograms[name := Histogram(before.count + 1, before.sum + ms)])
  }

  // ---------------------------------------------------------------- rendering

  /** The lines `render_metrics` writes. */
  function CounterTypeLine(name: string): string { "# TYPE " + name + " counter" }
  function CounterValueLine(name: string, value: int): string { name + " " + IntToString(value) }
  function GaugeTypeLine(name: string): string { "# TYPE " + name + "_sum gauge" }
  function CountLine(name: string, count: nat): string { name + "_count " + IntToString(count) }
  function SumLine(name: string, sum: int): string { name + "_sum " + IntToString(sum) }

  function CounterPair(name: string, value: int): seq<string> {
    [CounterTypeLine(name), CounterValueLine(name, value)]
  }

  function HistogramTriple(name: string, h: Histogram): seq<string> {
    [GaugeTypeLine(name), CountLine(name, h.count), SumLine(name, h.sum)]
  }

  /** The value a `Map.get` with a missing-key default of zero would give. */
  function HistogramOf(t: Tables, name: string): Histogram {
    if name in t.histograms then t.histograms[name] else Histogram(0, 0)
  }

  /** The lines of a counter table are the two-line block of each name, in order. */
  function CounterBlock(t: Tables): string -> seq<string> {
    n => CounterPair(n, CounterValue(t, n))
  }

  function HistogramBlock(t: Tables): string -> seq<string> {
    n => HistogramTriple(n, HistogramOf(t, n))
  }

  lemma CounterBlockWidth(t: Tables)
    ensures forall n :: |CounterBlock(t)(n)| == 2
  {
  }

  lemma HistogramBlockWidth(t: Tables)
    ensures forall n :: |HistogramBlock(t)(n)| == 3
  {
  }

  /** The blocks of `names`, in order, one after another. */
  function Blocks<T>(names: seq<string>, block: string -> seq<T>): seq<T> {
    if |names| == 0 then []
    else Blocks(names[..|names| - 1], block) + block(names[|names| - 1])
  }

  lemma BlocksSnoc<T>(names: seq<string>, block: string -> seq<T>, i: nat)
    requires i < |names|
    ensures Blocks(names[..i + 1], block) == Blocks(names[..i], block) + block(names[i])
  {
    TakeSnoc(names, i);
  }

  /** `render_metrics()`: the lines joined by newlines, plus a final newline. */
  function Render(t: Tables): string {
    Join(Blocks(t.counterNames, CounterBlock(t)) + Blocks(t.histogramNames, HistogramBlock(t)), "\n") + "\n"
  }

  /** With blocks of a fixed width `w`, there are `w` lines per name. */
  lemma {:induction false} BlocksLength<T>(names: seq<string>, block: string -> seq<T>, w: nat)
    requires forall n :: |block(n)| == w
    decreases |names|
    ensures |Blocks(names, block)| == w * |names|
  {
    if |names| > 0 {
      var k := |names| - 1;
      BlocksLength(names[..k], block, w);
      assert w * |names| == w * k + w;
    }
  }

  /** With blocks of a fixed width, line `w * i + d` is line `d` of the block of name `i`. */
  lemma {:induction false} BlocksAt<T>(names: seq<string>, block: string -> seq<T>, w: nat, i: nat, d: nat)
    requires forall n :: |block(n)| == w
    requires i < |names| && d < w
    decreases |names|
    ensures |Blocks(names, block)| == w * |names|
    ensures w * i + d < |Blocks(names, block)| && Blocks(names, block)[w * i + d] == block(names[i])[d]
  {
    var k := |names| - 1;
    var front := names[..k];
    var head := Blocks(front, block);
    assert Blocks(names, block) == head + block(names[k]);
    BlocksLength(front, block, w);
    BlocksLength(names, block, w);
    if i < k {
      BlocksAt(front, block, w, i, d);
      MulMonotone(w, i + 1, k);
      assert front[i] == names[i];
    } else {
      assert w * i + d == |head| + d;
    }
  }

  lemma {:induction false} MulMonotone(w: nat, a: nat, b: nat)
    requires a <= b
    decreases b - a
    ensures w * a <= w * b
  {
    if a < b {
      MulMonotone(w, a, b - 1);
      assert w * b == w * (b - 1) + w;
    }
  }

  /** Each counter in iteration order gives `# TYPE name counter` and then `name value`. */
  lemma CounterLinesAt(t: Tables, i: nat)
    requires Valid(t) && i < |t.counterNames|
    ensures |Blocks(t.counterNames, CounterBlock(t))| == 2 * |t.counterNames|
    ensures var name := t.counterNames[i];
            && Blocks(t.counterNames, CounterBlock(t))[2 * i] == CounterTypeLine(name)
            && Blocks(t.counterNames, CounterBlock(t))[2 * i + 1] == CounterValueLine(name, t.counters[name])
  {
    assert t.counterNames[i] in t.counters;
    CounterLines(t, i);
  }

  lemma CounterLines(t: Tables, i: nat)
    requires i < |t.counterNames| && t.counterNames[i] in t.counters
    ensures |Blocks(t.counterNames, CounterBlock(t))| == 2 * |t.counterNames|
    ensures var name := t.counterNames[i];
            && Blocks(t.counterNames, CounterBlock(t))[2 * i] == CounterTypeLine(name)
            && Blocks(t.counterNames, CounterBlock(t))[2 * i + 1] == CounterValueLine(name, t.counters[name])
  {
    var name := t.counterNames[i];
    var block := CounterBlock(t);
    CounterBlockWidth(t);
    assert CounterValue(t, name) == t.counters[name];
    BlocksAt(t.counterNames, block, 2, i, 0);
    BlocksAt(t.counterNames, block, 2, i, 1);
  }

  /** Each histogram in iteration order gives a gauge header, its count line and its sum line. */
  lemma HistogramLinesAt(t: Tables, i: nat)
    requires Valid(t) && i < |t.histogramNames|
    ensures |Blocks(t.histogramNames, HistogramBlock(t))| == 3 * |t.histogramNames|
    ensures var name := t.histogramNames[i];
            && Blocks(t.histogramNames, HistogramBlock(t))[3 * i] == GaugeTypeLine(name)
            && Blocks(t.histogramNames, HistogramBlock(t))[3 * i + 1] == CountLine(name, t.histograms[name].count)
            && Blocks(t.histogramNames, HistogramBlock(t))[3 * i + 2] == SumLine(name, t.histograms[name].sum)
  {
    assert t.histogramNames[i] in t.histograms;
    HistogramLines(t, i);
  }

  lemma HistogramLines(t: Tables, i: nat)
    requires i < |t.histogramNames| && t.histogramNames[i] in t.histograms
    ensures |Blocks(t.histogramNames, HistogramBlock(t))| == 3 * |t.histogramNames|
    ensures var name := t.histogramNames[i];
            && Blocks(t.histogramNames, HistogramBlock(t))[3 * i] == GaugeTypeLine(name)
            && Blocks(t.histogramNames, HistogramBlock(t))[3 * i + 1] == CountLine(name, t.histograms[name].count)
            && Blocks(t.histogramNames, HistogramBlock(t))[3 * i + 2] == SumLine(name, t.histograms[name].sum)
  {
    var name := t.histogramNames[i];
    var block := HistogramBlock(t);
    var h := t.histograms[name];
    HistogramBlockWidth(t);
    assert HistogramOf(t, name) == h;
    BlocksAt(t.histogramNames, block, 3, i, 0);
    BlocksAt(t.histogramNames, block, 3, i, 1);
    BlocksAt(t.histogramNames, block, 3, i, 2);
  }

  /** After `reset_metrics` the rendering is a lone newline. */
  lemma RenderEmpty()
    ensures Render(EmptyTables) == "\n"
  {
  }

  /** The store behind the module-level maps. */
  class Registry {
    var counterNames: seq<string>
    var counters: map<string, int>
    var histogramNames: seq<string>
    var histograms: map<string, Histogram>

    function State(): Tables
      reads this
    {
      Tables(counterNames, counters, histogramNames, histograms)
    }

    constructor ()
      ensures State() == EmptyTables && Valid(State())
    {
      counterNames, counters := [], map[];
      histogramNames, histograms := [], map[];
    }

    method IncrementCounter(name: string, value: int)
      modifies this
      ensures State() == Inc(old(State()), name, value)
      ensures old(Valid(State())) ==> Valid(State())
    {
      var prev := if name in counters then counters[name] else 0;
      if name !in counters {
        counterNames := counterNames + [name];
      }
      counters := counters[name := prev + value];
    }

    method ObserveDuration(name: string, ms: int)
      modifies this
      ensures State() == Observe(old(State()), name, ms)
      ensures old(Valid(State())) ==> Valid(State())
    {
      var entry := if name in histograms then histograms[name] else Histogram(0, 0);
      entry := Histogram(entry.count + 1, entry.sum + ms);
      if name !in histograms {
        histogramNames := histogramNames + [name];
      }
      histograms := histograms[name := entry];
    }

    method ResetMetrics()
      modifies this
      ensures State() == EmptyTables && Valid(State())
    {
      counterNames, counters := [], map[];
      histogramNames, histograms := [], map[];
    }

    method RenderMetrics() returns (text: string)
      ensures text == Render(State())
    {
      var lines: seq<string> := [];
      var i := 0;
      while i < |counterNames|
        invariant 0 <= i <= |counterNames|
        invariant lines == Blocks(counterNames[..i], CounterBlock(State()))
      {
        var name := counterNames[i];
        BlocksSnoc(counterNames, CounterBlock(State()), i);
        lines := lines + CounterPair(name, CounterValue(State(), name));
        i := i + 1;
      }
      TakeAll(counterNames);
      var counterPart := lines;
      var j := 0;
      while j < |histogramNames|
        invariant 0 <= j <= |histogramNames|
        invariant lines == counterPart + Blocks(histogramNames[..j], HistogramBlock(State()))
      {
        var name := histogramNames[j];
        var entry := HistogramOf(State(), name);
        BlocksSnoc(histogramNames, HistogramBlock(State()), j);
        SeqAssoc(counterPart, Blocks(histogramNames[..j], HistogramBlock(State())), HistogramTriple(name, entry));
        lines := lines + HistogramTriple(name, entry);
        j := j + 1;
      }
      TakeAll(histogramNames);
      text := Join(lines, "\n") + "\n";
    }
  }
}
