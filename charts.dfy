/**
 The two chart projections of the filtered view: the bar chart's labels and
 three series, and the pie chart's distinct topics with their counts.
 */
module Charts {

  import opened Records
  import opened Dedup

  /** One bar-chart dataset: its legend and one value per bar. */
  datatype Series = Series(legend: string, data: seq<Value>)

  /** The bar chart's input: one label per bar and its three datasets
      (`generateBarChartData`'s fixed three-element `datasets` array). */
  datatype BarChart = BarChart(labels: seq<Value>, intensity: Series, likelihood: Series, relevance: Series)

  /** The pie chart's input: one label per slice, the dataset's legend,
      and one count per slice. */
  datatype PieChart = PieChart(labels: seq<Value>, legend: string, counts: seq<nat>)

  /** `generateBarChartData`: one bar per filtered record, in the view's
      order, with no grouping by country. Bar `i` is labelled with record
      `i`'s country and carries its intensity, likelihood and relevance. */
  function BarChartData(filtered: seq<Record>): (c: BarChart)
    ensures c.intensity.legend == "Intensity"
    ensures c.likelihood.legend == "Likelihood"
    ensures c.relevance.legend == "Relevance"
    ensures |c.labels| == |c.intensity.data| == |c.likelihood.data| == |c.relevance.data| == |filtered|
    ensures forall i :: 0 <= i < |filtered| ==>
      && c.labels[i] == filtered[i].country
      && c.intensity.data[i] == filtered[i].intensity
      && c.likelihood.data[i] == filtered[i].likelihood
      && c.relevance.data[i] == filtered[i].relevance
  {
    var countries := Column(filtered, Country);
    var intensity := Column(filtered, Intensity);
    var likelihood := Column(filtered, Likelihood);
    var relevance := Column(filtered, Relevance);
    BarChart(countries,
      Series("Intensity", intensity), Series("Likelihood", likelihood), Series("Relevance", relevance))
  }

  /** `filtered.filter(item => item.topic === t)`. */
  function WithTopic(filtered: seq<Record>, t: Value): (r: seq<Record>)
    ensures |r| == Count(Column(filtered, Topic), t)
  {
    WithTopicCount(filtered, t);
    FilterBy(filtered, (item: Record) => item.topic == t)
  }

  /** The records with topic `t` are as many as the occurrences of `t` among
      the topics. */
  lemma {:induction false} WithTopicCount(rs: seq<Record>, t: Value)
    ensures |FilterBy(rs, (item: Record) => item.topic == t)| == Count(Column(rs, Topic), t)
  {
    if rs != [] {
      WithTopicCount(rs[1..], t);
      assert Column(rs, Topic)[1..] == Column(rs[1..], Topic);
    }
  }

  /** `topics.map(topic => WithTopic(filtered, topic).length)`. */
  function TopicCounts(filtered: seq<Record>, topics: seq<Value>): (cs: seq<nat>)
    ensures |cs| == |topics|
    ensures forall i :: 0 <= i < |topics| ==> cs[i] == Count(Column(filtered, Topic), topics[i])
  {
    if topics == [] then []
    else [|WithTopic(filtered, topics[0])|] + TopicCounts(filtered, topics[1..])
  }

  /** `generatePieChartData`: the distinct topics of the view, each with the
      number of records that have it. */
  function PieChartData(filtered: seq<Record>): (c: PieChart)
    ensures c.legend == "Distribution of Topics"
    ensures |c.counts| == |c.labels|
  {
    var topics := Distinct(Column(filtered, Topic));
    PieChart(topics, "Distribution of Topics", TopicCounts(filtered, topics))
  }

  /** The pie's labels are the topics occurring in the view, each once, in
      the order in which they first occur. */
  lemma PieLabelsAreDistinctTopics(filtered: seq<Record>)
    ensures var c := PieChartData(filtered);
      && NoDuplicates(c.labels)
      && (forall t :: t in c.labels <==> t in Column(filtered, Topic))
      && InFirstSeenOrder(Column(filtered, Topic), c.labels)
  {
    DistinctInFirstSeenOrder(Column(filtered, Topic));
  }

  /** Slice `i` counts the records whose topic is label `i`, and is never
      empty. */
  lemma PieCountsCountTopics(filtered: seq<Record>, i: nat)
    requires i < |PieChartData(filtered).labels|
    ensures var c := PieChartData(filtered);
      c.counts[i] == |WithTopic(filtered, c.labels[i])| >= 1
  {
    var c := PieChartData(filtered);
    assert c.labels[i] in Column(filtered, Topic);
  }

  /** Every filtered record falls in exactly one slice: the counts add up to
      the size of the view. */
  lemma PieCountsSumToView(filtered: seq<Record>)
    ensures Sum(PieChartData(filtered).counts) == |filtered|
  {
    var ts := Column(filtered, Topic);
    SumCountsDistinct(ts);
    assert PieChartData(filtered).counts == CountsOf(ts, Distinct(ts));
  }
}
