/**
 * The category pie chart's data preparation: values made non-negative, their total for the
 * donut's centre, and the cyclic colour of each slice. The chart title is not used.
 */
module PieChartView {
  import Wrappers
  import opened Schemas
  import JsNumber

  const Colors: seq<string> := ["#0ea5e9", "#22c55e", "#eab308", "#f97316", "#ef4444", "#8b5cf6"]

  /** `data.map(d => ({...d, value: Math.abs(d.value)}))`. */
  function CleanData(data: seq<ChartEntry>): (r: seq<ChartEntry>)
    ensures |r| == |data|
    ensures forall i :: 0 <= i < |data| ==>
      r[i].name == data[i].name && r[i].value == JsNumber.Abs(data[i].value) && r[i].value >= 0.0
  {
    if data == [] then []
    else [data[0].(value := JsNumber.Abs(data[0].value))] + CleanData(data[1..])
  }

  /** `reduce((sum, item) => sum + item.value, 0)`; real addition is exact, so the fold direction is immaterial. */
  function Total(entries: seq<ChartEntry>): real
  {
    if entries == [] then 0.0 else entries[0].value + Total(entries[1..])
  }

  /** Slice i is painted `COLORS[i % COLORS.length]`. */
  function SliceColor(i: nat): (c: string)
    ensures c in Colors
  {
    Colors[i % |Colors|]
  }

  /** What the component draws: the cleaned slices, their colours and the total. */
  datatype ChartView = ChartView(slices: seq<ChartEntry>, colors: seq<string>, total: real)

  /**
   * Slice i carries entry i's name and the absolute value of its value, painted with the i-th
   * palette colour cyclically; the centre total is the sum of the slices and never negative.
   */
  function Render(chart: PieChart): (v: ChartView)
    ensures |v.colors| == |v.slices| == |chart.data|
    ensures forall i :: 0 <= i < |chart.data| ==>
      v.slices[i].name == chart.data[i].name && v.slices[i].value == JsNumber.Abs(chart.data[i].value)
    ensures forall i :: 0 <= i < |chart.data| ==> v.colors[i] == Colors[i % |Colors|]
    ensures v.total == Total(v.slices) && v.total >= 0.0
  {
    var clean := CleanData(chart.data);
    TotalNonNegative(chart.data);
    ChartView(clean, seq(|clean|, i requires 0 <= i < |clean| => SliceColor(i)), Total(clean))
  }

  lemma {:induction false} TotalOfNonNegative(entries: seq<ChartEntry>)
    requires forall i :: 0 <= i < |entries| ==> entries[i].value >= 0.0
    ensures Total(entries) >= 0.0
  {
    if entries != [] {
      TotalOfNonNegative(entries[1..]);
    }
  }

  /** The total is never negative. */
  lemma TotalNonNegative(data: seq<ChartEntry>)
    ensures Total(CleanData(data)) >= 0.0
  {
    TotalOfNonNegative(CleanData(data));
  }

  /** Cleaning distributes over concatenation. */
  lemma {:induction false} CleanAppend(a: seq<ChartEntry>, b: seq<ChartEntry>)
    ensures CleanData(a + b) == CleanData(a) + CleanData(b)
  {
    if a == [] {
      assert a + b == b;
    } else {
      assert (a + b)[0] == a[0];
      assert (a + b)[1..] == a[1..] + b;
      CleanAppend(a[1..], b);
    }
  }

  /** The total of a concatenation is the sum of the totals. */
  lemma {:induction false} TotalAppend(a: seq<ChartEntry>, b: seq<ChartEntry>)
    ensures Total(a + b) == Total(a) + Total(b)
  {
    if a == [] {
      assert a + b == b;
    } else {
      assert (a + b)[0] == a[0];
      assert (a + b)[1..] == a[1..] + b;
      TotalAppend(a[1..], b);
    }
  }

  /** The cleaned total of a concatenation is the sum of the cleaned totals. */
  lemma TotalCleanAppend(a: seq<ChartEntry>, b: seq<ChartEntry>)
    ensures Total(CleanData(a + b)) == Total(CleanData(a)) + Total(CleanData(b))
  {
    CleanAppend(a, b);
    TotalAppend(CleanData(a), CleanData(b));
  }

  /** A single entry's cleaned total is its absolute value. */
  lemma TotalCleanSingle(e: ChartEntry)
    ensures Total(CleanData([e])) == JsNumber.Abs(e.value)
  {
    assert [e][1..] == [];
    assert CleanData([e])[1..] == [];
  }

  /** A list is its prefix before j, its j-th entry, and the rest. */
  lemma SplitAt(data: seq<ChartEntry>, j: nat)
    requires j < |data|
    ensures data == data[..j] + [data[j]] + data[j + 1..]
  {
    assert data[..j + 1] == data[..j] + [data[j]];
    assert data == data[..j + 1] + data[j + 1..];
  }

  /** Taking out one entry takes its absolute value off the total. */
  lemma CleanTotalRemove(data: seq<ChartEntry>, j: nat)
    requires j < |data|
    ensures Total(CleanData(data)) == JsNumber.Abs(data[j].value) + Total(CleanData(data[..j] + data[j + 1..]))
  {
    var pre, mid, post := data[..j], [data[j]], data[j + 1..];
    SplitAt(data, j);
    TotalCleanAppend(pre + mid, post);
    TotalCleanAppend(pre, mid);
    TotalCleanAppend(pre, post);
    TotalCleanSingle(data[j]);
  }

  /** Taking the same element out of two lists with equal multisets leaves equal multisets. */
  lemma RemoveMatching(a: seq<ChartEntry>, b: seq<ChartEntry>, j: nat)
    requires multiset(a) == multiset(b) && a != [] && j < |b| && b[j] == a[0]
    ensures multiset(a[1..]) == multiset(b[..j] + b[j + 1..])
  {
    var rest := b[..j] + b[j + 1..];
    assert b == b[..j] + [b[j]] + b[j + 1..];
    assert a == [a[0]] + a[1..];
    assert multiset(rest) == multiset(b[..j]) + multiset(b[j + 1..]);
    assert multiset(b) == multiset(b[..j]) + multiset{b[j]} + multiset(b[j + 1..]);
    assert multiset(a) == multiset{a[0]} + multiset(a[1..]);
    forall v ensures multiset(a[1..])[v] == multiset(rest)[v] {
      assert multiset(a)[v] == multiset(b)[v];
    }
  }

  /** The total is the sum of the absolute values whatever their order. */
  lemma {:induction false} TotalOrderFree(a: seq<ChartEntry>, b: seq<ChartEntry>)
    requires multiset(a) == multiset(b)
    ensures Total(CleanData(a)) == Total(CleanData(b))
  {
    if a == [] {
      assert |multiset(b)| == 0;
    } else {
      assert a[0] in multiset(b);
      var j :| 0 <= j < |b| && b[j] == a[0];
      RemoveMatching(a, b, j);
      TotalOrderFree(a[1..], b[..j] + b[j + 1..]);
      CleanTotalRemove(b, j);
      assert CleanData(a)[1..] == CleanData(a[1..]);
    }
  }

  /** Colour indices stay in range, the first six slices get six different colours, and colours repeat every six slices. */
  lemma ColorsCycle(i: nat)
    ensures SliceColor(i + |Colors|) == SliceColor(i)
    ensures i < |Colors| ==> SliceColor(i) == Colors[i]
    ensures forall j, k :: 0 <= j < k < |Colors| ==> Colors[j] != Colors[k]
  {
    assert (i + |Colors|) % |Colors| == i % |Colors|;
  }

  /** The title has no effect on what is drawn. */
  lemma TitleIgnored(chart: PieChart, title: Wrappers.Option<string>)
    ensures Render(chart.(title := title)) == Render(chart)
  {
  }

  /** Reordering the data does not change the centre total. */
  lemma RenderTotalOrderFree(a: PieChart, b: PieChart)
    requires multiset(a.data) == multiset(b.data)
    ensures Render(a).total == Render(b).total
  {
    TotalOrderFree(a.data, b.data);
  }
}
