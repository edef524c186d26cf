# Data-visualization dashboard: filter and chart logic

This project models the data logic of a single-page dashboard component. The
component holds two pieces of state: a dataset (an array of loosely typed
records fetched once) and a filter state (nine dropdown facets, each a string
where the empty string means "no filter"). From these it derives:

- the **filtered view**. A record is kept when every set facet is strictly
  equal (`===`) to the record's field. The facet `endYear` reads the field
  `end_year` and the facet `pest` reads `pestle`.
- a **bar chart** with one bar per filtered record. Each bar is labelled with
  the record's country and carries its intensity, likelihood and relevance.
- a **pie chart**. It has one slice per distinct topic of the view, in
  first-seen order, and each slice counts that topic's records.
- nine **dropdown option lists**. Each is the first-seen dedup
  (`[...new Set(...)]`) of one field over the whole, unfiltered dataset.

Changing a dropdown replaces the filter state with a copy in which that one
key is set (`{ ...filters, [name]: value }`).

Modules, one file each:

- `Records` (`records.dfy`): field values (`Str | Num | Absent`), records, and
  the array operations `map` (`Column`) and `filter` (`FilterBy`). It also
  proves that `filter` yields an order-preserving subsequence.
- `Dedup` (`dedup.dfy`): `[...new Set(xs)]` as `Distinct`, and occurrence
  counts.
- `Filters` (`filters.dfy`): the filter state, `handleFilterChange`, and the
  facet predicate with the filtered view.
- `Charts` (`charts.dfy`): `generateBarChartData` and `generatePieChartData`.
- `Dashboard` (`dashboard.dfy`): the dropdown options, one whole render, and
  the worked two-record example.

The bar chart has one bar per record; records with the same country are not
grouped. `handleFilterChange` would add any key it is given. The nine
dropdowns only pass facet keys, so the state keeps its nine keys
(`Filters.ChangeKeepsNineKeys`). A foreign key would be ignored
(`Filters.ForeignKeyChangesNothing`).

## Model

| member | source | states |
|---|---|---|
| `Records.Column` | src/App.js:59-62 | `map` of one field: one entry per record, entry `i` is record `i`'s field |
| `Records.FilterBy` | src/App.js:43-55 | `filter`: a record is in the result iff it is in the input and the callback holds of it |
| `Records.FilterByPlacesKept` | src/App.js:43-55 | a kept record at position `i` lands at position "number of kept records before `i`" of the result |
| `Records.KeptBeforeIncreases` | src/App.js:43-55 | kept records keep their relative order |
| `Filters.HandleFilterChange` | src/App.js:39-41 | the new state maps `name` to `value`, keeps every other key's entry, and has exactly the old keys plus `name` |
| `Filters.ChangeSetsOneFacet` | src/App.js:39-41 | after a change of facet `k`, `k` selects the new value and the other eight facets select what they did before |
| `Filters.ChangeKeepsNineKeys` | src/App.js:11-21 | a change of one of the nine facets keeps the state at exactly the nine keys |
| `Filters.ForeignKeyChangesNothing` | src/App.js:39-55 | a change under a name that is no facet key leaves the filtered view unchanged |
| `Filters.PassesIffAllFacetsAdmit` | src/App.js:45-53 | a record passes iff, for each of the nine facets, the facet is empty or the mapped field is strictly equal to it |
| `Filters.Filtered` | src/App.js:43-55 | a record is in the view iff it is in the data and passes |
| `Filters.FilteredLength` | src/App.js:43-55 | the view has as many entries as `data` has passing records |
| `Filters.FilteredIsPassingSubsequence` | src/App.js:43-55 | the view has one entry per passing record, and passing record `i` sits after exactly the passing records before it |
| `Filters.NoFilterKeepsAll` | src/App.js:43-55 | with all nine facets empty, the view equals the data |
| `Filters.InitialShowsAll` | src/App.js:11-21 | the initial state has the nine keys, all empty, so the view is the data |
| `Filters.SameSelectionSameView` | src/App.js:43-55 | two states that select the same nine values give the same view |
| `Filters.SettingAFacetNarrows` | src/App.js:39-55 | setting an unset facet gives the old view filtered once more |
| `Filters.NumericEndYearNeverPasses` | src/App.js:45 | with `endYear` set, a record whose `end_year` is a number or absent never passes, because `===` does not coerce |
| `Charts.BarChartData` | src/App.js:58-84 | labels and the three series all have the view's length; entry `i` holds record `i`'s country, intensity, likelihood and relevance; the series legends are Intensity, Likelihood and Relevance |
| `Charts.WithTopic` | src/App.js:89 | the records with topic `t` number as many as the occurrences of `t` among the view's topics |
| `Charts.TopicCounts` | src/App.js:88-90 | one count per topic, each equal to the topic's occurrences in the view |
| `Charts.PieChartData` | src/App.js:86-109 | as many counts as labels; the legend is "Distribution of Topics" |
| `Charts.PieLabelsAreDistinctTopics` | src/App.js:87 | the labels have no duplicates, hold exactly the topics occurring in the view, and are in first-occurrence order |
| `Charts.PieCountsCountTopics` | src/App.js:88-90 | count `i` is the number of view records whose topic is label `i`, and is at least 1 |
| `Charts.PieCountsSumToView` | src/App.js:87-90 | the counts sum to the view's length |
| `Dedup.Distinct` | src/App.js:87 | `[...new Set(xs)]` has no duplicates and holds exactly the values of `xs` |
| `Dedup.DistinctInFirstSeenOrder` | src/App.js:87 | the values come in the order of their first occurrence in `xs` |
| `Dedup.DistinctIsUnique` | src/App.js:87 | any duplicate-free list of exactly the values of `xs` in first-seen order equals `Distinct(xs)` |
| `Dedup.SumCountsDistinct` | src/App.js:87-90 | the occurrence counts of the distinct values of `xs` sum to the length of `xs` |
| `Dashboard.DropdownOptions` | src/App.js:117-178 | a dropdown's options have no duplicates, hold exactly the facet field's values over the whole data, and are in first-seen order |
| `Dashboard.Render` | src/App.js:111-198 | nine option lists, one per facet in dropdown order; bar count, view length and the sum of the pie counts agree |
| `Dashboard.OptionsIgnoreFilters` | src/App.js:117-178 | the option lists do not depend on the filter state |
| `Dashboard.ChangeKeepsOptions` | src/App.js:117-178 | a dropdown change leaves every option list unchanged |
| `Dashboard.EmptyDatasetRendersNothing` | src/App.js:10 | with the empty initial dataset, every option list is empty and both charts are empty |
| `Dashboard.ChoosingListedOptionShowsItsRecords` | src/App.js:117-178 | choosing a listed non-empty string option from the initial state gives a non-empty view whose records all carry that string |
| `Dashboard.ExampleBar` | src/App.js:58-84 | two USA records give two bars labelled USA with intensities 3 and 5 |
| `Dashboard.ExamplePie` | src/App.js:86-109 | two records with topics Energy and Economy give slices [Energy, Economy] with counts [1, 1] |
| `Dashboard.UnfilteredExample` | src/App.js:11-21 | in the initial state the example's view is the whole example |
| `Dashboard.TopicFilteredExampleView` | src/App.js:46 | setting the topic to "Energy" keeps only the Energy record |
| `Dashboard.TopicFilteredExample` | src/App.js:43-109 | with the topic "Energy", one bar and one slice {Energy: 1} |

## Left out

- The HTTP GET and its `try`/`catch` with console logging (src/App.js:26-37) are network I/O. The dataset is a parameter. The "fetch failed" case is the empty initial dataset (`Dashboard.EmptyDatasetRendersNothing`).
- React hooks (`useState`, `useEffect`, `useRef`) and re-rendering belong to the UI runtime. State is passed in as values, and `Render` is one render.
- Chart.js registration, the `Bar`/`Pie` components and `responsive: true` are library calls and drawing.
- Colour strings and the six-colour palette are presentation constants.
- JSX markup and `<option>` rendering are left out. This includes how React turns a numeric or absent option value into the `value` string.
- Numbers are modelled as mathematical integers (`Num(n: int)`). The dashboard only copies and compares them. Fractional values, `NaN` and signed zeros are not modelled, so strict equality and the `Set`'s SameValueZero are both plain equality here.
- JSON `null` and a missing field are both modelled as `Absent`. JavaScript tells `null` and `undefined` apart.
- Every element of the data array is taken to be an object whose fields are strings, numbers or missing. Boolean, array and object field values are not modelled, nor are `null` elements of the array; such an element passes the filter only while no facet is set, and the render then throws a `TypeError` at `item.end_year` (src/App.js:119); with a facet set, the filter callback throws at that facet's line (src/App.js:45-53).
- The filter values are always strings, since a `<select>` reports a string. A key missing from the state reads as `""`, the falsy `undefined`.
