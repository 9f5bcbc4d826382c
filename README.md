# Contact-center metrics notifier: verified model of the aggregation pipeline

This project models the core of an AWS Lambda that polls Amazon Connect for the
last full hour, aggregates four metrics (`CONTACTS_CREATED`, `CONTACTS_HANDLED`,
`AVG_QUEUE_ANSWER_TIME`, `SERVICE_LEVEL`) into one summary, and chooses the
Slack message for it. It proves properties of that model in Dafny.

The modules follow the handler's pipeline:

- `Window` (window.dfy). `get_time_range` on integer epoch seconds. The end is the current hour boundary and the start is one hour earlier.
- `Requests` (requests.dfy). The metric config and filters that `collect_metric` builds for each metric.
- `Reducer` (reducer.dfy). The raw `get_metric_data_v2` response, and the value a reduction puts in the `'total'` list.
- `Results` (store.dfy). The results store as a class. Its `lists: map<string, seq<Record>>` is updated in place by `initialize_results`, `get_queue_names`, the zero-fill, `process_metric_results` and `collect_metric`.
- `Summarizer` (summary.dfy). `calculate_summary`, written as a loop proved against a declarative "last record wins" specification.
- `Notification` (notification.dfy). The window rendered as `HH:MM` in UTC+9, and the choice between the zero-activity message and the detailed one.
- `Handler` (handler.dfy). `lambda_handler`: the parameter guard, then the whole pipeline.
- `Rounding` (rounding.dfy) and `Optional` (optional.dfy). Python's `round`/`int`, and an Option type.

The external calls are parameters:

- `describe: string -> NameLookup` stands for `describe_queue`.
- `fetch: MetricRequest -> CallOutcome` stands for `get_metric_data_v2`.
- `LookupFailed` and `Raised` stand for an exception.
- The clock is the `now` parameter.

Metric values are Dafny `real`s, so they are exact.

Points where the code behaves in a way a reader might not expect. The model follows the code in each:

- On a non-empty response, a record is appended only to `'total'` (lambda_function.py:238). The per-queue sum `value` is computed and then dropped (lambda_function.py:225-228), so the per-queue lists gain nothing.
- The average metrics are the plain mean of every collection across all groups (lambda_function.py:221-236). They are not a mean of per-queue averages.
- "No contacts created ⇒ service-level count 0" holds for the handler's fixed collection order (`Handler.NoContactsNoRates`). For an arbitrary order of records, the count uses the `CONTACTS_CREATED` value seen before the `SERVICE_LEVEL` record (`Summarizer.ServiceLevelCountIsOrderDependent`).
- The zero-activity test looks only at the three rounded rates. Five contacts created and none answered therefore also get the "no incoming contacts" message (`Notification.ZeroActivityDespiteContacts`).

The store methods do not require distinct queue ids. Their postconditions give the new state in every case. The clean per-queue picture needs distinct ids, none equal to `"total"`, and is stated as a lemma (`Results.NamesAfterInitialize`). The handler's summary is proved unaffected even when a queue id is `"total"`, because name records are ignored by the scan.

## Model

| member | source | states |
|---|---|---|
| `Rounding.RoundHalfEven` | lambda_function.py:282 | `round(x)` is within 1/2 of x, and an exact tie goes to the even integer |
| `Rounding.RoundHalfEvenOfInt` | lambda_function.py:282 | rounding leaves an integer unchanged (so `round(0) == 0`) |
| `Rounding.RoundHalfEvenMonotone` | lambda_function.py:282 | rounding preserves order |
| `Rounding.Round2` | lambda_function.py:234 | `round(x, 2)` is within 0.005 of x and has at most two decimals |
| `Rounding.Round2TieEven` | lambda_function.py:234 | an exact tie between two hundredths goes to the even number of hundredths, as Python's `round(x, 2)` does on exact values |
| `Rounding.Round2OfCents` | lambda_function.py:281-283 | a value with at most two decimals (0 included) is unchanged by `round(x, 2)` |
| `Rounding.Round2Between` | lambda_function.py:269 | rounding to two decimals stays between two-decimal bounds |
| `Rounding.Trunc` | lambda_function.py:302-303 | `int(x)` truncates toward zero: within 1 of x, on the same side of 0, never larger in magnitude |
| `Window.HourOf` | lambda_function.py:299 | definition: the hour of day of an epoch-seconds timestamp, the `%H` that `strftime` prints |
| `Window.MinuteOf` | lambda_function.py:88 | definition: the minute within the hour, the field that `replace(minute=0)` clears and `%M` prints |
| `Window.SecondOf` | lambda_function.py:88 | definition: the second within the minute, the field that `replace(second=0)` clears |
| `Window.GetTimeRange` | lambda_function.py:80-96 | `end` has zero minutes and seconds, `start == end - 3600`, and `end <= now < end + 3600` |
| `Window.HourBoundaryUnique` | lambda_function.py:85-91 | the resolved `end` is the only hour boundary in `(now - 3600, now]` |
| `Window.GetTimeRangeIdempotent` | lambda_function.py:88 | resolving the window again from its own end gives the same window |
| `Requests.MetricConfigFor` | lambda_function.py:133-172 | the config is named after the metric. Only `SERVICE_LEVEL` gets a threshold, exactly `[LTE 20.0]`. Only the two contact counts get a metric filter, exactly `[INITIATION_METHOD = [INBOUND], Negate false]`. Never both; `AVG_QUEUE_ANSWER_TIME` gets only its name |
| `Requests.BuildRequest` | lambda_function.py:151-186 | the request filters on `[QUEUE = queues]`, groups by `QUEUE`, uses interval `TOTAL` over the window, and carries exactly one metric config, the one `MetricConfigFor` gives for its metric, so the threshold and the INBOUND filter reach the issued call |
| `Requests.BuildRequestInjective` | lambda_function.py:134-136 | different metrics give different requests |
| `Reducer.GroupsOf` | lambda_function.py:204 | definition: `response.get('MetricResults', [])`, the groups or none when the key is absent |
| `Reducer.CollectionsOf` | lambda_function.py:223 | definition: `metric_result.get('Collections', [])`, the collections or none when the key is absent |
| `Reducer.ValueOf` | lambda_function.py:227 | definition: `collection.get('Value', 0)`, the value or 0 when the key is absent |
| `Reducer.Flatten` | lambda_function.py:221-230 | definition: every observation of every group, group by group in order; its sum and length are the `total_value` and `total_count` the loops accumulate |
| `Reducer.Sum` | lambda_function.py:228-229 | definition: the sum of a sequence of observations, accumulated in sequence order as the running `+=` does, 0 for none |
| `Reducer.Observations` | lambda_function.py:226-227 | a group's observation values in order, with a missing `Value` read as 0 |
| `Reducer.ReducedTotal` | lambda_function.py:221-236 | definition: the sum of every observation for the counts; for the averages, their mean rounded to two decimals, or 0 with no observation |
| `Reducer.ZeroFills` | lambda_function.py:190-219 | definition: the call raised, or its `MetricResults` is empty or absent; either way every list is zero-filled |
| `Reducer.TotalValue` | lambda_function.py:190-219 | definition: 0 when the call raised or returned no results; otherwise the reduced total of the returned groups |
| `Reducer.GroupSums` | lambda_function.py:225-228 | the per-group `value` sums the source computes before dropping them |
| `Reducer.TotalIsSumOfGroupSums` | lambda_function.py:225-229 | `total_value` equals the sum of the per-group `value`s |
| `Reducer.GroupOrderIrrelevant` | lambda_function.py:221-238 | swapping two adjacent runs of groups anywhere in the response leaves the reduced total unchanged; such swaps generate every reordering, so the order in which the groups arrive does not matter |
| `Reducer.NoCollectionsGiveZero` | lambda_function.py:223-236 | groups present with no collections give a total of 0, for every metric |
| `Reducer.AverageOfTenAndTwenty` | lambda_function.py:232-234 | two single-observation groups of 10 and 20 give 15 for the average metrics |
| `Reducer.TotalNonNegative` | lambda_function.py:221-236 | non-negative observations give a non-negative total |
| `Reducer.ServiceLevelIsPercentage` | lambda_function.py:232-234 | observations in [0, 100] give a `SERVICE_LEVEL` total in [0, 100], even after rounding |
| `Results.NameRecord` | lambda_function.py:120-124 | definition: the lookup's `Queue.Name`, `'Unknown'` when the queue or name is absent, `'Error'` when the lookup raised |
| `Results.ZeroFilled` | lambda_function.py:193-196 | definition: the store with one `{m: 0}` record appended to every list, `'total'` included, and no key added |
| `Results.NameRecordsFor` | lambda_function.py:114-124 | the records the lookups add to one list are all `QUEUE_NAME` records |
| `Results.AppendNames` | lambda_function.py:114-124 | definition: the store after the lookups of the queues in order, each appending its name record to its queue's list; the key set is kept |
| `Results.AppendNamesAt` | lambda_function.py:114-124 | after the lookups, each list is its old contents followed by the name records of the lookups of that key, in order |
| `Results.NameRecordsOfDistinct` | lambda_function.py:114-121 | with distinct ids, a queue gets exactly the record of its own lookup, and any other key gets none |
| `Results.NamesAfterInitialize` | lambda_function.py:99-124 | with distinct ids and `'total'` not among them: the keys are the queues plus `'total'`, `'total'` is empty, and each queue holds exactly one `QUEUE_NAME` record (the name, `'Unknown'` when absent, `'Error'` on failure) |
| `Results.AccumulateTotals` | lambda_function.py:221-230 | the nested loops leave `total_value` = sum of every observation and `total_count` = number of collections across all groups |
| `Results.ResultsStore.Initialize` | lambda_function.py:99-107 | the store's keys are the queues plus `'total'`, and every list is empty |
| `Results.ResultsStore.GetQueueNames` | lambda_function.py:110-124 | appends, in order, one name record per queue to that queue's list, and nothing else |
| `Results.ResultsStore.ZeroFill` | lambda_function.py:190-196 | appends exactly one `{metric: 0}` record to every queue list and to `'total'` |
| `Results.ResultsStore.ProcessMetricResults` | lambda_function.py:199-238 | an empty or absent `MetricResults` zero-fills every list. Otherwise exactly one record, the reduced total (sum for counts, rounded mean or 0 for averages), is appended to `'total'`, and every queue list is unchanged |
| `Results.ResultsStore.CollectMetric` | lambda_function.py:127-196 | builds the metric's request. A raised call zero-fills; a response is reduced. Either way, `'total'` gains exactly the value that call's outcome determines |
| `Summarizer.ServiceLevelCountRaw` | lambda_function.py:262-264 | definition: the `CONTACTS_CREATED` value seen before the last `SERVICE_LEVEL` record, times that record's value, over 100; 0 without one |
| `Summarizer.AnswerRate` | lambda_function.py:266-273 | definition: handled over created as a percentage rounded to two decimals, 0 when created is not positive |
| `Summarizer.SummaryOf` | lambda_function.py:255-286 | definition: each figure is the last record of its metric (0 without one), rounded as at lines 279-286 |
| `Summarizer.LastValue` | lambda_function.py:249-263 | definition: the value of the last `{m: ...}` record, 0 when there is none (last record wins) |
| `Summarizer.TotalOf` | lambda_function.py:246 | definition: `results.get('total', [])`, the TOTAL list or the empty list when the key is absent |
| `Summarizer.LastIndexOf` | lambda_function.py:255-263 | the index found holds a record for the key |
| `Summarizer.LastIndexOfIsLast` | lambda_function.py:255-263 | none is found exactly when no record has the key; otherwise no later record has it |
| `Summarizer.ScanStep` | lambda_function.py:255-264 | one record changes only its own figure, and a `SERVICE_LEVEL` record recomputes the count from the created value seen so far |
| `Summarizer.CalculateSummary` | lambda_function.py:241-286 | the scan's result equals the declarative summary of `results.get('total', [])` |
| `Summarizer.MissingKeysDefaultToZero` | lambda_function.py:249-253 | a list with no metric records (an empty one included) gives the all-zero summary, with no failure |
| `Summarizer.NoContactsCreatedRecord` | lambda_function.py:266-273 | without a `CONTACTS_CREATED` record, created, the answer rate and the service-level count are all 0 |
| `Summarizer.LastRecordWins` | lambda_function.py:256-263 | appending `{m: v}` makes m's figure v and leaves the other keys' figures alone |
| `Summarizer.NameRecordsIgnored` | lambda_function.py:255-263 | `QUEUE_NAME` records before the metric records do not change the summary |
| `Summarizer.SummaryOfCollected` | lambda_function.py:255-286 | for the four records in collection order, the summary is answer rate, `round(sl, 2)`, `round(created * sl / 100)`, `round(asa, 2)`, created, handled |
| `Summarizer.AnswerRateIsPercentage` | lambda_function.py:267-273 | with `0 <= handled <= created`, the answer rate is in [0, 100]. It is 0 when nothing was created |
| `Summarizer.AnswerRateExample` | lambda_function.py:268-269 | 100 created and 80 handled give 80.0 |
| `Summarizer.ServiceLevelCountExample` | lambda_function.py:262-264 | 50 created at a 90% service level give a count of 45 |
| `Summarizer.ServiceLevelCountIsOrderDependent` | lambda_function.py:255-264 | the same two records give count 45 with `CONTACTS_CREATED` first and 0 with it last |
| `Notification.RenderClock` | lambda_function.py:299 | definition: `strftime("%H:%M")`, two zero-padded digits for the hour and the minute |
| `Notification.WindowHeadline` | lambda_function.py:299-301 | definition: `<!here>\n` followed by the start and end clocks joined by `~`, the prefix both messages share |
| `Notification.IsZeroActivity` | lambda_function.py:298 | definition: answer rate, service level and average answer time all equal 0 |
| `Notification.ParseRenderClock` | lambda_function.py:299 | reading back a rendered `HH:MM` gives the hour and minute |
| `Notification.RenderParseClock` | lambda_function.py:299 | every text the reader accepts is the rendering of what it returns |
| `Notification.ClockText` | lambda_function.py:294-295 | the displayed clock is 5 characters and reads back as the hour and minute of `t + 9h` |
| `Notification.ComposeMessage` | lambda_function.py:293-304 | the zero-activity message is chosen exactly when answer rate, service level and average answer time are all 0. Both messages start with `<!here>` and the window, which reads back as the clocks of `start + 9h` and `end + 9h`. The zero-activity text is exactly that headline followed by `は着信が0件でした。\n`, with no figure lines. The detailed header is the headline followed by `の受電状況は以下のとおりです。\n`, and the detailed message carries `int(handled)`, `int(created)` and the summary figures |
| `Notification.WindowShownOnTheHour` | lambda_function.py:88-95 | for a resolved window, both displayed clocks show minute 00 and the end is the next hour of the day |
| `Notification.ZeroActivityDespiteContacts` | lambda_function.py:297-299 | five contacts created, none handled and no answer time still give the zero-activity message |
| `Handler.ParamsPresent` | lambda_function.py:26-31 | definition: `connect_arn`, `queues` and `webhook` are each present and non-empty |
| `Handler.CollectedValue` | lambda_function.py:58-59 | definition: the value one metric's call leaves in `'total'`, from the outcome of that metric's own request |
| `Handler.CollectedTotal` | lambda_function.py:51-59 | definition: the four records the collection loop leaves in `'total'`, one per metric in collection order |
| `Handler.RequestsFor` | lambda_function.py:51-59 | one request per metric, in collection order, each the one `BuildRequest` gives for that metric |
| `Handler.CollectAll` | lambda_function.py:51-59 | the four collections, in order, keep the key set, append to `'total'` exactly the four values their calls determine, append to every queue list the `{m: 0}` records of the calls that zero-filled, and issue exactly the four requests |
| `Handler.Handle` | lambda_function.py:18-65 | a missing or empty `connect_arn`, `queues` or `webhook` stops the run before any request. Otherwise the four requests are issued in order, and the notification carries the hour-aligned window, the summary of the four collected values, and the message chosen for them |
| `Handler.QueueFill` | lambda_function.py:190-219 | what the four collections leave in a queue list: at most one record per call, each a zero metric record |
| `Handler.CollectedTotalHoldsEachValue` | lambda_function.py:51-59 | a run's `'total'` list holds exactly one record per metric, at that metric's place in the collection order, and the summary scan reads back the value that metric's own call left |
| `Handler.QuietWindowGivesZeroActivity` | lambda_function.py:193-219 | when every call raises or returns no results, the summary is all zero and the zero-activity message is chosen |
| `Handler.FailedCreatedCallDegrades` | lambda_function.py:190-219 | a `CONTACTS_CREATED` call that raises or returns no results zeroes created, the answer rate and the service-level count, and keeps the other metrics' values |
| `Handler.FailedServiceLevelCallDegrades` | lambda_function.py:190-219 | a `SERVICE_LEVEL` call that raises or returns no results zeroes the service level and its count, and keeps everything else |
| `Handler.NoContactsNoRates` | lambda_function.py:264-273 | 0 contacts created gives answer rate 0 and service-level count 0, whatever the other calls returned |

## Left out

- The boto3 client and its calls (`describe_queue`, `get_metric_data_v2`) are foreign calls. Their replies and exceptions are inputs (`describe`, `fetch`).
- `describe` is a function of the queue id. A repeated id is therefore assumed to get the same reply on every lookup.
- The instance id taken from `connect_arn.split('/')[1]` is not modelled. It only addresses `describe_queue`, which is an input here. The `IndexError` it raises on an ARN without `/` is not modelled either.
- The Slack POST via `urllib`, the JSON encoding and the re-raise on delivery failure are I/O. `Handle` returns the message instead of sending it.
- Logging is left out. It has no behavioural content.
- The mapping of the outcome to status codes 200/500 is left out. `Handle` returns `MissingParameters` or the notification.
- Only absent and empty parameters are modelled for the guard. The Python truthiness of other values is not.
- Python floats are left out. Values are exact reals, and `round` is modelled as exact round-half-to-even, not as rounding of a binary double.
- Notification.ComposeMessage: the three figure lines of the detailed message are kept as values, not as text, because the textual rendering of floats is not modelled.
- `datetime` and time zones are left out. Time is integer epoch seconds (UTC, no leap seconds). The sub-second part of `now` is below the model's resolution.
- Exceptions that `process_metric_results` could raise on a malformed response are not modelled. An example is a non-numeric `Value`; Dafny's types rule such responses out.
- The `is not None` tests at lambda_function.py:281-283 always hold. The model rounds unconditionally.
