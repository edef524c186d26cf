/**
 What the dashboard renders from its two pieces of state, the dataset and
 the filter state: nine dropdown option lists and the two charts.
 */
module Dashboard {

  import opened Records
  import opened Dedup
  import opened Filters
  import opened Charts

  /** The options of facet `k`'s dropdown (after its "Select ..." entry):
      `[...new Set(data.map(item => item.<attribute>))]` over the whole,
      unfiltered dataset. */
  function DropdownOptions(data: seq<Record>, k: Facet): (opts: seq<Value>)
    ensures NoDuplicates(opts)
    ensures forall v :: v in opts <==> v in Column(data, k.Attribute())
    ensures InFirstSeenOrder(Column(data, k.Attribute()), opts)
  {
    DistinctInFirstSeenOrder(Column(data, k.Attribute()));
    Distinct(Column(data, k.Attribute()))
  }

  /** Everything one render shows. */
  datatype View = View(options: seq<seq<Value>>, bar: BarChart, pie: PieChart)

  /** One render of the component for the given state. */
  function Render(data: seq<Record>, f: FilterState): (v: View)
    ensures |v.options| == |Facets|
    ensures forall i :: 0 <= i < |Facets| ==> v.options[i] == DropdownOptions(data, Facets[i])
    ensures |v.bar.labels| == |Filtered(data, f)| == Sum(v.pie.counts)
  {
    var filtered := Filtered(data, f);
    PieCountsSumToView(filtered);
    View(
      seq(|Facets|, i requires 0 <= i < |Facets| => DropdownOptions(data, Facets[i])),
      BarChartData(filtered),
      PieChartData(filtered))
  }

  /** The dropdowns do not cross-filter: their options are the same whatever
      the filter state. */
  lemma OptionsIgnoreFilters(data: seq<Record>, f: FilterState, g: FilterState)
    ensures Render(data, f).options == Render(data, g).options
  {
  }

  /** In particular, changing any dropdown leaves every dropdown's options as
      they were. */
  lemma ChangeKeepsOptions(data: seq<Record>, f: FilterState, name: string, value: string)
    ensures Render(data, HandleFilterChange(f, name, value)).options == Render(data, f).options
  {
    OptionsIgnoreFilters(data, f, HandleFilterChange(f, name, value));
  }

  /** Before the dataset arrives (or when fetching it failed) every dropdown
      holds only its "Select ..." entry and both charts are empty. */
  lemma EmptyDatasetRendersNothing(f: FilterState)
    ensures var v := Render([], f);
      && (forall i :: 0 <= i < |v.options| ==> v.options[i] == [])
      && v.bar.labels == [] && v.pie.labels == [] && v.pie.counts == []
  {
    var v := Render([], f);
    forall i | 0 <= i < |v.options| ensures v.options[i] == [] {
      assert Column([], Facets[i].Attribute()) == [];
    }
  }

  /** Choosing, from the initial state, a non-empty string listed in a
      dropdown shows a non-empty view in which every record carries that
      string; the first such record of `data` is in it. */
  lemma ChoosingListedOptionShowsItsRecords(data: seq<Record>, k: Facet, s: string)
    requires Str(s) in DropdownOptions(data, k)
    requires s != ""
    ensures var view := Filtered(data, HandleFilterChange(Initial, k.Key(), s));
      && view != []
      && forall x :: x in view ==> x.Field(k.Attribute()) == Str(s)
  {
    var g := HandleFilterChange(Initial, k.Key(), s);
    InitialShowsAll(data);
    var col := Column(data, k.Attribute());
    assert Str(s) in col;
    var i :| 0 <= i < |col| && col[i] == Str(s);
    var x := data[i];
    PassesIffAllFacetsAdmit(g, x);
    forall k': Facet ensures Admits(g, k', x) {
      ChangeSetsOneFacet(Initial, k, s, k');
    }
    assert x in Filtered(data, g);
    forall y | y in Filtered(data, g) ensures y.Field(k.Attribute()) == Str(s) {
      PassesIffAllFacetsAdmit(g, y);
      assert Admits(g, k, y);
      ChangeSetsOneFacet(Initial, k, s, k);
    }
  }

  /** A record with only the attributes the example below sets. */
  function Sample(country: string, topic: string, intensity: int, likelihood: int, relevance: int): Record {
    Record(Absent, Str(topic), Absent, Absent, Absent, Absent, Absent, Str(country), Absent,
      Num(intensity), Num(likelihood), Num(relevance))
  }

  /** Two records from one country with different topics. */
  function ExampleData(): seq<Record> {
    [Sample("USA", "Energy", 3, 2, 1), Sample("USA", "Economy", 5, 1, 4)]
  }

  /** The bar chart of the whole example: one bar per record, both labelled
      by their (equal) country. */
  lemma ExampleBar()
    ensures BarChartData(ExampleData()).labels == [Str("USA"), Str("USA")]
    ensures BarChartData(ExampleData()).intensity.data == [Num(3), Num(5)]
  {
  }

  /** The pie chart of the whole example: two slices of one record each, in
      first-seen order. */
  lemma ExamplePie()
    ensures PieChartData(ExampleData()).labels == [Str("Energy"), Str("Economy")]
    ensures PieChartData(ExampleData()).counts == [1, 1]
  {
    var ts := Column(ExampleData(), Topic);
    assert ts == [Str("Energy"), Str("Economy")];
    assert ts[1..] == [Str("Economy")] && ts[1..][1..] == [];
    assert DistinctFrom(ts[1..], {Str("Energy")}) == [Str("Economy")];
    var c := PieChartData(ExampleData());
    assert c.labels == Distinct(ts) == [Str("Energy"), Str("Economy")];
    assert Count(ts[1..], Str("Energy")) == 0 && Count(ts[1..], Str("Economy")) == 1;
    assert c.counts == TopicCounts(ExampleData(), c.labels);
    assert c.counts[0] == Count(ts, Str("Energy")) == 1;
    assert c.counts[1] == Count(ts, Str("Economy")) == 1;
  }

  /** Unfiltered, the example's charts are those of the whole example. */
  lemma UnfilteredExample()
    ensures Filtered(ExampleData(), Initial) == ExampleData()
    ensures BarChartData(Filtered(ExampleData(), Initial)).labels == [Str("USA"), Str("USA")]
    ensures PieChartData(Filtered(ExampleData(), Initial)).counts == [1, 1]
  {
    InitialShowsAll(ExampleData());
    ExampleBar();
    ExamplePie();
  }

  /** Setting the topic to "Energy" keeps only the first example record. */
  lemma TopicFilteredExampleView()
    ensures Filtered(ExampleData(), HandleFilterChange(Initial, "topic", "Energy")) == [ExampleData()[0]]
  {
    var data := ExampleData();
    var g := HandleFilterChange(Initial, "topic", "Energy");
    assert Selected(g, ByTopic) == "Energy";
    assert Passes(g, data[0]) && !Passes(g, data[1]);
    assert data[0] in Filtered(data, g) && data[1] !in Filtered(data, g);
  }

  /** With the topic set to "Energy", the example shows one bar and one slice. */
  lemma TopicFilteredExample()
    ensures BarChartData(Filtered(ExampleData(), HandleFilterChange(Initial, "topic", "Energy"))).labels == [Str("USA")]
    ensures PieChartData(Filtered(ExampleData(), HandleFilterChange(Initial, "topic", "Energy"))).labels == [Str("Energy")]
    ensures PieChartData(Filtered(ExampleData(), HandleFilterChange(Initial, "topic", "Energy"))).counts == [1]
  {
    TopicFilteredExampleView();
    assert Column([ExampleData()[0]], Topic) == [Str("Energy")];
  }
}
