# log-cache-demo, modelled in Dafny

This project models the decision logic of four small Cloud Foundry tools.

- **promql-plotter** is an HTTP handler that turns PromQL expressions into a chart. The expressions come from the command line, or else one query is composed from the `source_id` and `metric` URL parameters. A number among the expressions becomes a flat line. Every other expression is sent to the backend as a range query. Each answer is checked (transport, `success` status, `matrix` result type), flattened into x/y pairs, sorted by x, and nudged so that the xs strictly increase. The series are then ordered by palette colour, and the flat lines are appended after them.
- **auto-scaler** is a webhook handler. It scales one application up or down by one instance. It does nothing if the newest event is an `audit.app.update` less than 30 seconds old, or if the step would go above `MAX_INSTANCES` (scaling up) or below `MIN_INSTANCES` (scaling down). Only the newest event is looked at, and only the bound in the step's direction is checked.
- **restarter** is a webhook handler. It restarts one application unless the newest event shows a restart within 30 seconds.
- **metrics-list** has a visitor that folds batches of envelopes into three tables, one each for gauges, counters and timers.

Each tool's `LoadConfig` is modelled too. Those of the plotter, the auto-scaler and the restarter rewrite the first `https` in the Cloud Controller (CAPI) address to `http`, and the plotter also derives the Log Cache address from the rewritten address. The metrics-list `LoadConfig` only defaults the walk window to one minute.

Modules follow the program's structure:

- `Wrappers` holds `Option` and `Result`.
- `GoStrings` holds the first-occurrence `strings.Index` and `strings.Replace(..., 1)`.
- `Capi` holds the event resources, the 30 s cooldown and the `https` rewrite.
- `AutoScaler`, `Restarter` and `MetricsList` model those three tools.
- The plotter is split into `Palette`, `Expressions` (query composition and classification), `Normalizer` (flatten, pair sort, nudge), `Collector` (answer checks, fail-fast collection), `SeriesOrder` (colour sort, scalar broadcast) and `Plotter` (the handler end to end, plus `LoadConfig`).
- `Multisets` holds shared sequence facts.

Inputs the program gets from the outside world are parameters:

- the parsed URL query;
- each backend answer (`fetches[k]` answers query `k`);
- the order in which the goroutines' messages reach the collector (`order`, a permutation of the query indices);
- the CAPI client's answers;
- the current time;
- what `envstruct.Load` extracted from the environment (`Environment`, where an unset optional variable is `None`).

The model follows the code at points where its behaviour is easy to misread:

- The code sorts with `sort.Sort`, which is not stable. So the contracts promise only "sorted, and a rearrangement of the input". They do not promise that equal keys keep their order. The normalised series is specified relationally (`Normalizer.Normalized`): it is some sorted arrangement of the samples, nudged.
- Timestamps are used as the backend returns them. No unit conversion is applied.
- The collector reads `len(queries) - len(scalars)` messages, one per backend query, not one per expression.
- The colour of scalar `i` is `colors[(len(series) + i) % 5]`, read after `i` lines were already appended. It is therefore colour slot `n + 2i` for `n` query series, and the model states exactly that.

## Model

| member | source | states |
|---|---|---|
| GoStrings.IndexFrom | cmd/promql-plotter/main.go:287-288 | the result is -1 or a position at or after `from` where the pattern occurs, and the pattern occurs nowhere between `from` and the result |
| GoStrings.IndexOf | cmd/promql-plotter/main.go:287-288 | the result is -1 or an occurrence of the pattern, and no earlier position is one (`strings.Index`) |
| GoStrings.ReplaceFirst | cmd/promql-plotter/main.go:287-288 | with no occurrence the string is unchanged; otherwise exactly the first occurrence is replaced and everything around it is kept |
| GoStrings.ReplaceFirstAtFront | cmd/restarter/main.go:85-86 | a target at the very front is replaced, and the rest (even a later copy of the target) is kept verbatim |
| GoStrings.ReplaceFirstAfter | cmd/promql-plotter/main.go:288 | if no character of the prefix can start the target, the occurrence right after the prefix is the one replaced |
| Capi.HttpAddr | cmd/restarter/main.go:85-86 | the CAPI address with its first `https` turned into `http`, or unchanged if it has none |
| Capi.RecentEventOfType | cmd/auto-scaler/main.go:44-46 | the newest event resource exists, has the given type, and is less than 30 s old; no later resource is looked at |
| Capi.HttpAddrOfHttps | cmd/auto-scaler/main.go:113-114 | `https` + rest becomes `http` + rest |
| AutoScaler.LoadConfig | cmd/auto-scaler/main.go:104-117 | a load failure is passed through; otherwise max and min are the environment's values or default to 5 and 1, the other fields are copied, and the CAPI address is rewritten to `http` |
| AutoScaler.ScaleTo | cmd/auto-scaler/main.go:73-81 | scaling up gives current + 1, allowed iff it is at most max; scaling down gives current - 1, allowed iff it is at least min |
| AutoScaler.ScaleToStaysInBounds | cmd/auto-scaler/main.go:73-81 | from a count inside `[min, max]`, an allowed step moves exactly one instance in the configured direction and stays inside the bounds |
| AutoScaler.Handle | cmd/auto-scaler/main.go:35-70 | LastEvent is always called first, and its failure aborts with that error; a recent `audit.app.update` as the newest event stops the handler quietly; otherwise ProcessStats is called, and its failure aborts with that error; Scale is called iff the event check passes, the statistics arrive and `scaleTo` allows the step; Scale is then the third and last call, with `scaleTo`'s count, and its failure is the handler's error |
| Restarter.LoadConfig | cmd/restarter/main.go:79-89 | a load failure is passed through; otherwise the fields are copied and the CAPI address is rewritten to `http` |
| Restarter.Handle | cmd/restarter/main.go:35-59 | LastEvent is always called first, and its failure is returned; Restart is called iff the last event was fetched and is not a restart within the last 30 s; the restart's failure is the handler's error; otherwise nothing is returned |
| Restarter.NoEventsRestarts | cmd/restarter/main.go:44-54 | with no event resources the handler restarts |
| Restarter.FirstResourceDecides | cmd/restarter/main.go:44-46 | only the first event resource matters: two event lists with the same head get the same reaction |
| MetricsList.Sub64 | cmd/metrics-list/main.go:43 | `int64` subtraction: the result is congruent to `stop - start` modulo 2^64, and equal to it when that fits in 64 bits |
| MetricsList.Apply | cmd/metrics-list/main.go:34-44 | a gauge writes each metric by name and leaves the other gauges; a counter sets its name to its total; a timer sets its name to `stop - start`; each kind touches only its own table, and other envelope kinds change nothing |
| MetricsList.VisitedConcat | cmd/metrics-list/main.go:29-48 | the tables live outside the visitor, so visiting two batches in turn equals visiting their concatenation |
| MetricsList.LastCounterWins | cmd/metrics-list/main.go:39-40 | a counter name ends up holding the total of its last counter envelope |
| MetricsList.LastTimerWins | cmd/metrics-list/main.go:41-43 | a timer name ends up holding `stop - start` of its last timer envelope |
| MetricsList.LastGaugeWins | cmd/metrics-list/main.go:35-38 | a gauge name ends up holding the value from the last gauge envelope carrying it |
| MetricsList.UnmentionedUnchanged | cmd/metrics-list/main.go:33-45 | a name that no envelope of a kind mentions keeps its presence and its value in that kind's table |
| MetricsList.LoadConfig | cmd/metrics-list/main.go:90-99 | a load failure is passed through; otherwise the interval is the environment's or one minute (in nanoseconds), and the token, Log Cache address and source id are copied |
| MetricsList.Maps.constructor | cmd/metrics-list/main.go:29-31 | the three tables start empty |
| MetricsList.Maps.Visit | cmd/metrics-list/main.go:32-48 | the visitor always asks the walk to continue, and the new tables are the old ones with the batch folded in, envelope by envelope |
| MetricsList.Maps.MergeGauges | cmd/metrics-list/main.go:35-38 | the gauge table gains every metric of the envelope, overriding old values; counters and timers are unchanged |
| Palette.Rank | cmd/promql-plotter/main.go:58-64 | `colorMap` gives each colour its position in `colors` |
| Palette.ColorAt | cmd/promql-plotter/main.go:50-56 | slot `i` gets the colour of rank `i mod 5` |
| Palette.ColorAtSameIff | cmd/promql-plotter/main.go:144 | two slots share a colour iff they are congruent modulo 5 |
| Expressions.CreateQuery | cmd/promql-plotter/main.go:66-87 | a parse error is returned as is; success iff there is exactly one `source_id` and exactly one `metric`; a bad `source_id` count is reported first, then a bad `metric` count; on success the query is the metric, `{source_id="`, the id and `"}`, each kept unchanged |
| Expressions.ResolveSourceID | cmd/promql-plotter/main.go:85-87 | the source id is used exactly as given |
| Expressions.CreatedQueryHasBrace | cmd/promql-plotter/main.go:82 | a composed query contains `{` |
| Expressions.Classify | cmd/promql-plotter/main.go:117-145 | the loop's scalars and requests are exactly the scalar values in order and the queries with their slot colours; together they account for every expression |
| Expressions.RequestsByPosition | cmd/promql-plotter/main.go:118-144 | request `k` is the k-th query of the input, coloured by its position among all expressions; positions increase with `k`, and every query is requested |
| Expressions.ScalarsAndRequestsPartition | cmd/promql-plotter/main.go:117-122 | the scalar count plus the request count equals the number of expressions |
| Expressions.ScalarTakesASlot | cmd/promql-plotter/main.go:118-144 | in `a`, `2.5`, `b`, query `b` is green, not red: scalars use up colour slots |
| Normalizer.Flatten | cmd/promql-plotter/main.go:162-178 | the x/y pairs are all the samples of all series of the matrix, in order |
| Normalizer.SwapPairs | cmd/promql-plotter/main.go:302-310 | `xyPair.Swap` exchanges both coordinates of two pairs and keeps the multiset of pairs |
| Normalizer.InsertPair | cmd/promql-plotter/main.go:312-315 | one insertion step under `xyPair.Less` extends the sorted prefix by one, leaves the pairs after it untouched and keeps the multiset of pairs |
| Normalizer.SortPairs | cmd/promql-plotter/main.go:180 | after `sort.Sort(xyPair)` the xs are nondecreasing and the pairs are a rearrangement of the original pairs |
| Normalizer.Lift | cmd/promql-plotter/main.go:183-185 | the inner nudge loop gives the least `x + 50k` above the previous x |
| Normalizer.Nudged | cmd/promql-plotter/main.go:182-186 | the nudged xs have the same length, and the first x is never moved |
| Normalizer.NudgeXs | cmd/promql-plotter/main.go:182-186 | the in-place nudge loops leave exactly `Nudged` of the original xs |
| Normalizer.NudgedIsStrictlyIncreasing | cmd/promql-plotter/main.go:182-186 | after nudging, the xs strictly increase |
| Normalizer.NudgedRaisesByFifties | cmd/promql-plotter/main.go:182-186 | nudging only raises an x, and only by a multiple of 50 |
| Normalizer.NudgedKeepsIncreasing | cmd/promql-plotter/main.go:182-186 | xs that already strictly increase are not changed |
| Normalizer.NudgedIdempotent | cmd/promql-plotter/main.go:182-186 | nudging twice equals nudging once |
| Normalizer.NudgeExample | cmd/promql-plotter/main.go:182-186 | xs 0, 1000, 1000 become 0, 1000, 1050 |
| Normalizer.NormalizeResult | cmd/promql-plotter/main.go:156-186 | the drawn xs and ys are some x-sorted arrangement of the result's samples, with the xs nudged |
| Normalizer.NormalizedShape | cmd/promql-plotter/main.go:156-186 | a normalised series has one point per sample, strictly increasing xs, and exactly the samples' values as ys, rearranged |
| Collector.Validate | cmd/promql-plotter/main.go:125-139 | an answer is accepted iff it arrived with status `success` and result type `matrix`; the three rejections carry their own messages, checked in that order |
| Collector.StyleFor | cmd/promql-plotter/main.go:188-201 | a series is drawn as dots exactly when the plotter runs in scatter mode, and as a line otherwise |
| Collector.CollectOne | cmd/promql-plotter/main.go:125-207 | one message: a rejected answer yields its error; an accepted one yields a series in its request's colour and style, normalised from the answer |
| Collector.Collect | cmd/promql-plotter/main.go:147-209 | collection fails iff some arriving answer is rejected, with the message of the first rejection in arrival order; on success there is one series per query, in arrival order, each built from its own answer |
| Collector.CollectedColors | cmd/promql-plotter/main.go:140-144 | whatever the arrival order, the collected series carry exactly the requests' colours, with multiplicity |
| SeriesOrder.SwapSeries | cmd/promql-plotter/main.go:323-327 | `seriesColors.Swap` exchanges two series and keeps the multiset |
| SeriesOrder.InsertSeries | cmd/promql-plotter/main.go:329-331 | one insertion step under `seriesColors.Less` extends the rank-sorted prefix by one, leaves the series after it untouched and keeps the multiset |
| SeriesOrder.SortByColor | cmd/promql-plotter/main.go:218 | after `sort.Sort(seriesColors)` the palette ranks never decrease and the series are a rearrangement of the input |
| SeriesOrder.RankOrderedColorsUnique | cmd/promql-plotter/main.go:218 | two rank-ordered colour lists with the same colours, counted with multiplicity, are equal |
| SeriesOrder.ColorOrderIndependentOfArrival | cmd/promql-plotter/main.go:218 | after the colour sort, the sequence of colours does not depend on the order the answers arrived in |
| SeriesOrder.DistinctColorsFixOrder | cmd/promql-plotter/main.go:218 | when no colour repeats, the sorted series list itself is independent of arrival order |
| SeriesOrder.FewExpressionsDistinctColors | cmd/promql-plotter/main.go:144 | with at most five expressions, no two requests share a colour |
| SeriesOrder.Broadcast | cmd/promql-plotter/main.go:220-233 | the sorted series are kept as a prefix; scalar `i` is appended as a flat line at its value over the first series' xs, as a line in colour slot `n + 2i` |
| SeriesOrder.FlatLine | cmd/promql-plotter/main.go:222-225 | the inner broadcast loop copies the xs and gives every point the scalar's value |
| Plotter.Planned | cmd/promql-plotter/main.go:97-106 | bound expressions are used as they are; without them the plan succeeds iff `createQuery` does and is then that single query, and its failure is `createQuery`'s error; a plan is never empty |
| Plotter.DrawChart | cmd/promql-plotter/main.go:95-251 | with no bound expressions, a `createQuery` failure is a 400 carrying its message; otherwise the outcome is that of `Plot` on the planned expressions |
| Plotter.Plot | cmd/promql-plotter/main.go:108-233 | a 500 iff some answer is rejected or there is no query at all; the 500 carries the first rejection's message, or else "there has to be atleast one series"; a chart has one series per query, each built from its own answer and coloured as requested, rank-sorted, followed by the broadcast scalar lines |
| Plotter.SortAndBroadcast | cmd/promql-plotter/main.go:218-233 | the first `n` series are the collected ones rank-sorted, followed by the broadcast scalar lines |
| Plotter.NoSeriesIffAllScalars | cmd/promql-plotter/main.go:211-216 | there is no series to draw exactly when every expression is a scalar |
| Plotter.ArrivalOrderCovers | cmd/promql-plotter/main.go:147-209 | every request's answer arrives at some point of an arrival order |
| Plotter.RejectedInAnyOrder | cmd/promql-plotter/main.go:147-209 | whether some answer is rejected does not depend on the arrival order |
| Plotter.ArrivalOrderIrrelevant | cmd/promql-plotter/main.go:147-233 | for the same answers and any two arrival orders, the handler draws in both cases or in neither, and both charts have the same colour sequence |
| Plotter.SortedChartsAgree | cmd/promql-plotter/main.go:218-233 | two sorted and broadcast charts over the same requests, collected in different arrival orders, have the same colour sequence |
| Plotter.DistinctColorsSameChart | cmd/promql-plotter/main.go:117-233 | with at most five expressions, if every request's series comes out the same in two runs, two charts are equal whatever the arrival orders |
| Plotter.SortedChartsEqual | cmd/promql-plotter/main.go:218-233 | two sorted and broadcast charts whose collected series are the same distinctly coloured series, in any two arrival orders, are equal |
| Plotter.SameColoursSameSeries | cmd/promql-plotter/main.go:218 | two arrangements of the same distinctly coloured series that show the same colour sequence are equal |
| Plotter.FlatLinesEqual | cmd/promql-plotter/main.go:220-233 | the broadcast lines are fixed by the series before them |
| Plotter.SingleQueryRefused | cmd/promql-plotter/main.go:147-216 | with one query the handler fails exactly when that query's answer is rejected |
| Plotter.SingleQueryChart | cmd/promql-plotter/main.go:108-233 | with one query the handler draws exactly when the answer is accepted, and the chart's first series is in the query's colour, followed by the broadcast lines |
| Plotter.SeriesThenLine | cmd/promql-plotter/main.go:220-233 | one series followed by one scalar's line: the line is flat over the series' xs and takes colour slot 1 |
| Plotter.QueryAndConstantChart | cmd/promql-plotter/main.go:108-233 | for a query then `2.5`, the handler draws exactly when the answer is accepted, and the chart is a blue series followed by a red flat line at 2.5 over the same xs |
| Plotter.QueryAndConstantColors | cmd/promql-plotter/main.go:117-144 | for a query then `2.5`, the query is requested in blue, the scalars are `[2.5]`, and the constant's line is red |
| Plotter.LoadConfig | cmd/promql-plotter/main.go:277-291 | a load failure is passed through; otherwise the port is the environment's or 8080, the CAPI address is rewritten to `http`, and the Log Cache address is the rewritten CAPI address with its first `api` turned into `log-cache` |
| Plotter.LogCacheAddrFor | cmd/promql-plotter/main.go:288 | the rewritten CAPI address with its first `api` turned into `log-cache`, or unchanged if it has none |
| Plotter.LogCacheAddrOfApi | cmd/promql-plotter/main.go:287-288 | `https://api.<domain>` yields the Log Cache address `http://log-cache.<domain>` |

## Left out

- HTTP serving, PNG rendering, the favicon handler and the chart's axis styling are presentation, not logic. `Style` keeps only line versus dots.
- Goroutines and channels are left out. Each query's outcome is an input (`fetches[k]`). The non-deterministic interleaving of result and error messages is the `order` parameter. Request cancellation and the 15-second contexts are not modelled.
- Answers are checked when collected rather than inside the goroutine. The message each one sends is then the same.
- `strconv.ParseFloat` is not modelled. Expressions arrive classified (`Expr.Scalar` or `Expr.Query`). Floating-point is modelled as `real`, and timestamps as integers. So a nudge of 50 on a float x, and a panic on a non-numeric sample, are not modelled.
- `url.ParseQuery` is an input (`Result<Values, string>`). `values.Get` takes the first value.
- Normalizer.SortPairs: `sort.Sort` is modelled as insertion sort by adjacent swaps. That is what Go 1.19 and later run on up to 12 elements; on longer inputs they run pattern-defeating quicksort. Releases before Go 1.19, contemporary with this code, make one gap-6 Shell pass before the insertion sort on 7 to 12 elements, and use quicksort with a heapsort fallback beyond that. These may arrange equal keys differently. The contract states only sortedness and permutation, which hold for every one of them.
- SeriesOrder.SortByColor: modelled as insertion sort, for the same reason as `SortPairs`. The contract states only rank order and permutation.
- `envstruct.Load` and the JSON decoding of `VCAP_APPLICATION` are left out. Their result is the `Environment` input, and a load error is a `Failure` (the program calls `log.Fatal`).
- `time.Now` is a parameter. `CreatedAt.After(now - 30s)` is a strict comparison on integer nanoseconds.
- AutoScaler.Handle: process statistics are modelled by their count, the only thing `scaleTo` uses.
- The log output of all tools is left out.
- The metrics-list `Interval` is a `time.Duration` parsed by `envstruct`; the model takes the parsed nanosecond count as given.
- The Log Cache walk in metrics-list (`logcache.Walk`, time window, envelope-type filter) and the tab-separated printing of the tables are left out. The visitor is modelled for any batches the walk hands it.
- `main`, the CAPI client's app-GUID resolution, the promql-parser and raas commands, and the token and cache-control HTTP doers are not part of this model.
- MetricsList.Maps.MergeGauges: Go's map iteration order is not modelled. Names in one gauge envelope are distinct, so every order gives the same table.
