# Rightsizing recommendations for running EC2 instances, modelled in Dafny

The repository's core is a batch pipeline with two steps.

`scripts/collect_metrics.py` does four things:
- It walks the paginated `describe_instances` result for running instances.
- It asks CloudWatch for each instance's hourly average CPU utilization over the last `days` days and reduces the answers to one mean.
- It rounds that mean to two decimals and classifies it with two fixed thresholds: below 10 is `downsize`, above 80 is `upgrade`, anything else is `no-change`.
- It builds one CSV row per instance. The price lookup in the row always yields nothing.

`scripts/generate_report.py` reads that CSV back. It counts the total rows, the `downsize` rows and the `upgrade` rows for the summary of the HTML report.

The model has two modules, plus a small shared one:

- `CollectMetrics` (`collect_metrics.dfy`):
  - Instances, reservations and pages are datatypes. The `InstanceType`, `Placement` and `AvailabilityZone` fields are optional.
  - The generator `get_instances` becomes the method `GetInstances`, three nested loops proved against the specification function `Flatten`.
  - The mean is `Mean` over exact `real`s. `avg_cpu` becomes `AvgCpu`. The metric query, with its window, is `CpuQuery`.
  - The classifier is `Recommend`. The best-effort price lookup is `GetPrice`.
  - The loop of `main` becomes the method `CollectRows`. Its postcondition fixes every field of every row from the discovered instance at the same position.
- `GenerateReport` (`generate_report.dfy`):
  - A CSV record is a `map<string, string>`.
  - The gathering loop becomes the method `ReadRows`.
  - The three tallies are `Summarize`. Its result is a `KeyError` when a record lacks the `Recommendation` column, as indexing the Python dictionary would raise.
- `Permutations` (`permutations.dfy`) holds one generic multiset lemma. Both order-independence proofs use it: the mean's and the tallies'.

The AWS services are parameters of the model:
- `cloudwatch: MetricQuery -> MetricResponse` is CloudWatch.
- `pricing: PriceQuery -> PricingReply` is the Pricing API. A reply can also be "the call raised".
- `round2: real -> real` is Python's `round(x, 2)`. It is deliberately abstract: the model relies only on the classifier seeing the rounded value.
- The clock is an integer number of seconds. `AvgCpu` takes the reading `now`. `CollectRows` takes `clock`, whose `k`-th reading is the one `avg_cpu` takes for the `k`-th instance, as the source reads `utcnow()` once per instance.

`CollectRows`' postcondition does not mention `pricing` and fixes the whole row. So the rows, and with them every recommendation, are the same whatever the pricing service does.

## Model

| member | source | states |
|---|---|---|
| `CollectMetrics.GetInstances` | scripts/collect_metrics.py:14-19 | the instances emitted are exactly those of all pages, in page, then reservation, then instance order |
| `CollectMetrics.FlattenConcat` | scripts/collect_metrics.py:16-19 | discovering pages `a` and then pages `b` yields `a`'s instances followed by `b`'s |
| `CollectMetrics.FlattenReservationsConcat` | scripts/collect_metrics.py:17-19 | the instances of two lists of reservations are those of the first followed by those of the second |
| `CollectMetrics.PagesAsOnePage` | scripts/collect_metrics.py:16-19 | N pages yield the same instance sequence as one page holding all their reservations in page order |
| `CollectMetrics.FlattenIsAllReservations` | scripts/collect_metrics.py:16-19 | the instances of all pages are those of the concatenation of every page's reservations |
| `CollectMetrics.InFlattenReservations` | scripts/collect_metrics.py:17-19 | an instance is emitted for a list of reservations iff some reservation in it lists the instance |
| `CollectMetrics.InFlatten` | scripts/collect_metrics.py:14-19 | an instance is discovered iff it appears in some reservation of some page (no drops, nothing invented) |
| `CollectMetrics.CpuQuery` | scripts/collect_metrics.py:22-31 | the query asks for the `Average` statistic of the `AWS/EC2` metric `CPUUtilization` for the given instance; it ends at `now`, starts exactly `days` days earlier and uses one-hour periods |
| `CollectMetrics.WindowIsWholeHours` | scripts/collect_metrics.py:22-30 | for `days >= 0` the start is not after the end and the window spans exactly `24 * days` whole one-hour periods |
| `CollectMetrics.Averages` | scripts/collect_metrics.py:33 | the `Average` of each returned datapoint, in reply order; a reply without `Datapoints` gives no points |
| `CollectMetrics.Sum` | scripts/collect_metrics.py:36 | Python's `sum` of no points is 0.0 (it adds the points left to right from 0) |
| `CollectMetrics.SumConcat` | scripts/collect_metrics.py:36 | `sum` of two series put together is the sum of their two sums |
| `CollectMetrics.SumRemove` | scripts/collect_metrics.py:36 | taking one point out of a series lowers its `sum` by exactly that point |
| `CollectMetrics.Mean` | scripts/collect_metrics.py:33-36 | no points give exactly 0.0; otherwise the mean times the number of points equals their sum |
| `CollectMetrics.Minimum` | scripts/collect_metrics.py:33 | the smallest returned average is one of the points and at most every point |
| `CollectMetrics.Maximum` | scripts/collect_metrics.py:33 | the largest returned average is one of the points and at least every point |
| `CollectMetrics.MeanBetween` | scripts/collect_metrics.py:33-36 | when every point lies between two bounds, so does the mean |
| `CollectMetrics.MeanWithinRange` | scripts/collect_metrics.py:33-36 | the mean of a non-empty series lies between its minimum and its maximum point |
| `CollectMetrics.SumPermutation` | scripts/collect_metrics.py:36 | `sum` of the points is the same for every reordering of them |
| `CollectMetrics.MeanPermutation` | scripts/collect_metrics.py:33-36 | the mean is the same for every reordering of the datapoints |
| `CollectMetrics.AvgCpu` | scripts/collect_metrics.py:21-36 | with no datapoints (or no `Datapoints` key) the average is 0.0; otherwise it is the sum of the returned hourly averages divided by their number, and it lies between the smallest and the largest of them |
| `CollectMetrics.PriceLocation` | scripts/collect_metrics.py:78 | a given non-empty region is used as is; an absent or empty one falls back to `US East (N. Virginia)` |
| `CollectMetrics.GetPrice` | scripts/collect_metrics.py:38-49 | the price is None on every path: the call raising, a missing or empty `PriceList`, or a successful reply |
| `CollectMetrics.Recommend` | scripts/collect_metrics.py:51-57 | `downsize` iff the average is below 10, `upgrade` iff above 80, `no-change` iff within [10, 80] |
| `CollectMetrics.RecommendBoundaries` | scripts/collect_metrics.py:53-57 | exactly 10 and exactly 80 give `no-change`, and the instance type never changes the result |
| `CollectMetrics.RecommendMonotone` | scripts/collect_metrics.py:51-57 | a higher average never gives a lower recommendation (downsize < no-change < upgrade) |
| `CollectMetrics.Label` | scripts/collect_metrics.py:54-57 | the written tag is `downsize`, `upgrade` or `no-change` exactly for the matching recommendation, so the three tags are distinct |
| `CollectMetrics.TypeOrUnknown` | scripts/collect_metrics.py:74 | the instance's type, or `unknown` when it has none |
| `CollectMetrics.ZoneOrEmpty` | scripts/collect_metrics.py:75 | the availability zone, or `''` when the placement or its zone is missing |
| `CollectMetrics.CollectRows` | scripts/collect_metrics.py:71-79 | one row per discovered instance, in discovery order; a missing type becomes `unknown` and a missing placement or zone becomes `''`; `AvgCPU` is the rounded average over the window ending at that instance's own clock reading; the recommendation is `recommend` of that rounded value; the price is None |
| `GenerateReport.ReadRows` | scripts/generate_report.py:37-41 | `rows` holds one entry per CSV record, in file order |
| `GenerateReport.Tagged` | scripts/generate_report.py:43-44 | a record without the `Recommendation` column matches no tag; a matching record's `Recommendation` is exactly the tag |
| `GenerateReport.CountTagged` | scripts/generate_report.py:43-44 | a tally never exceeds the number of rows |
| `GenerateReport.CountIsTaggedIndices` | scripts/generate_report.py:43-44 | a tally equals the number of positions whose `Recommendation` is exactly the tag |
| `GenerateReport.DistinctTagsBounded` | scripts/generate_report.py:43-44 | tallies for two different tags add up to at most the row count |
| `GenerateReport.CountConcat` | scripts/generate_report.py:43-44 | the tally of two row lists put together is the sum of their tallies |
| `GenerateReport.CountPermutation` | scripts/generate_report.py:43-44 | a tally is unchanged by reordering the rows |
| `GenerateReport.Summarize` | scripts/generate_report.py:42-44 | a KeyError on `Recommendation` iff some record lacks that column; otherwise `total` is the row count, `down` and `up` are the numbers of rows tagged exactly `downsize` and `upgrade`, and `down + up <= total` |
| `GenerateReport.AllHaveColumnPermutation` | scripts/generate_report.py:43-44 | whether every row has the `Recommendation` column does not depend on row order |
| `GenerateReport.SummarizePermutation` | scripts/generate_report.py:42-44 | reordering the rows changes neither the outcome nor `total`, `down` or `up` |
| `GenerateReport.NoTagInExtra` | scripts/generate_report.py:43-44 | rows that do not carry a tag contribute nothing to its tally |
| `GenerateReport.UncountedTagsAddNothing` | scripts/generate_report.py:42-44 | appending rows tagged `no-change` (or any other string) raises `total` only |
| `GenerateReport.CollectedTallies` | scripts/generate_report.py:42-44 | for a file carrying each collected row's tag, `down` counts the instances whose rounded average is below 10 and `up` those above 80 |

## Left out

- AWS clients: the boto3 sessions, the EC2 paginator, CloudWatch and the Pricing API are parameters of the model. The botocore retry configuration (5 attempts, `scripts/collect_metrics.py:12`) is library behaviour and is not modelled.
- Laziness of `get_instances`: the generator is modelled as a method that returns the whole sequence. The interleaving of page fetches with metric queries is not captured.
- Exceptions from the services: the model's backends always answer. A raised exception from `get_metric_statistics` ends the Python run. This is not modelled, and neither is the absence of `Reservations` (line 17), `Instances` (line 18), `InstanceId` (line 73) or a datapoint's `Average` (line 33). Python reports each of these as a `KeyError`; the model's datatypes make those fields always present.
- Floating point: utilization is an exact `real`. Python's double-precision `sum`, its division and `round(x, 2)` (banker's rounding on binary doubles) are not modelled. `round2` is an arbitrary function.
- Clock: each `datetime.utcnow()` reading is an integer in whole seconds: `now` for one `avg_cpu` call, and `clock(k)` for the `k`-th instance in `CollectRows`. Nothing relates successive readings to each other, so a run that crosses an hour boundary is covered. Microseconds and the `datetime` type are not modelled.
- Pricing: the body of the `get_products` reply is never parsed by the source. The model only distinguishes a raised call, a missing `PriceList`, an empty one and a non-empty one.
- CSV writing (`scripts/collect_metrics.py:82-89`), CSV parsing, the Jinja2 template, the `generated` timestamp and the HTML output (`scripts/generate_report.py:7-30,38-39,45-49`) are I/O. The link between the two scripts is stated in `CollectedTallies` as a precondition: the file carries each row's tag in its `Recommendation` column.
- `csv.DictReader` gives `None` for the missing cells of a short line. The model's records hold strings only, so such a cell is the empty string. Like `None`, it is counted in neither tally.
- Command-line handling with `argparse` in all scripts is not modelled.
- `scripts/send_alerts.py` (the Slack webhook POST and the SMTP mail) is not part of this model.
- Per-instance failure isolation and failure-marked records: the code does not implement them, so the model does not either. Where the design describes that isolation, the model follows the code.

