/**
 * `lambda_handler` with its external collaborators as parameters: the
 * parameter guard, the window, the store, the name lookups, the four metric
 * collections in order, the summary and the message choice.
 */
module Handler {
  import opened Optional
  import opened Rounding
  import opened Metrics
  import opened Window
  import opened Requests
  import opened Reducer
  import opened Results
  import opened Summarizer
  import opened Notification

  /** The invocation event; a key may be absent. */
  datatype Event = Event(connectArn: Option<string>, queues: Option<seq<string>>, webhook: Option<string>)

  /** The guard: all three parameters present and non-empty. */
  predicate ParamsPresent(e: Event) {
    && e.connectArn.Some? && e.connectArn.value != ""
    && e.queues.Some? && e.queues.value != []
    && e.webhook.Some? && e.webhook.value != ""
  }

  /** A run either stops at the guard or produces the notification to send. */
  datatype HandlerResult =
    | MissingParameters
    | Notified(window: TimeWindow, summary: Summary, message: Message)

  /** The four requests, in collection order. */
  function RequestsFor(arn: string, w: TimeWindow, queues: seq<string>): (rs: seq<MetricRequest>)
    ensures |rs| == |CollectionOrder|
    ensures forall i :: 0 <= i < |rs| ==> rs[i] == BuildRequest(arn, w, queues, CollectionOrder[i])
    ensures forall i :: 0 <= i < |rs| ==> rs[i].metrics == [MetricConfigFor(CollectionOrder[i])]
  {
    [BuildRequest(arn, w, queues, ContactsCreated), BuildRequest(arn, w, queues, ContactsHandled),
     BuildRequest(arn, w, queues, AvgQueueAnswerTime), BuildRequest(arn, w, queues, ServiceLevel)]
  }

  /** The value a metric's call leaves in TOTAL. */
  function CollectedValue(arn: string, w: TimeWindow, queues: seq<string>, fetch: MetricRequest -> CallOutcome,
                          m: MetricName): real {
    TotalValue(m, fetch(BuildRequest(arn, w, queues, m)))
  }

  /** The TOTAL records the four collections leave, in collection order. */
  function CollectedTotal(arn: string, w: TimeWindow, queues: seq<string>, fetch: MetricRequest -> CallOutcome): seq<Record> {
    [Metric(ContactsCreated, CollectedValue(arn, w, queues, fetch, ContactsCreated)),
     Metric(ContactsHandled, CollectedValue(arn, w, queues, fetch, ContactsHandled)),
     Metric(AvgQueueAnswerTime, CollectedValue(arn, w, queues, fetch, AvgQueueAnswerTime)),
     Metric(ServiceLevel, CollectedValue(arn, w, queues, fetch, ServiceLevel))]
  }

  /**
   * The `{m: 0}` records the first `n` collections leave in every queue list:
   * one for each call that raised or came back empty, in collection order.
   */
  function QueueFill(arn: string, w: TimeWindow, queues: seq<string>, fetch: MetricRequest -> CallOutcome,
                     n: nat): (rs: seq<Record>)
    requires n <= |CollectionOrder|
    ensures |rs| <= n
    ensures forall i :: 0 <= i < |rs| ==> rs[i].Metric? && rs[i].value == 0.0
  {
    if n == 0 then []
    else
      var m := CollectionOrder[n - 1];
      QueueFill(arn, w, queues, fetch, n - 1)
        + (if ZeroFills(fetch(BuildRequest(arn, w, queues, m))) then [Metric(m, 0.0)] else [])
  }

  /** One more turn of the collection loop adds one request and one TOTAL record. */
  lemma CollectionStep(arn: string, w: TimeWindow, queues: seq<string>, fetch: MetricRequest -> CallOutcome, i: nat)
    requires i < |CollectionOrder|
    ensures var m := CollectionOrder[i];
      && CollectedTotal(arn, w, queues, fetch)[..i + 1]
         == CollectedTotal(arn, w, queues, fetch)[..i] + [Metric(m, TotalValue(m, fetch(BuildRequest(arn, w, queues, m))))]
      && RequestsFor(arn, w, queues)[..i + 1] == RequestsFor(arn, w, queues)[..i] + [BuildRequest(arn, w, queues, m)]
  {
  }

  /**
   * The collection loop: each metric in order. TOTAL gains one record per
   * metric; every queue list gains `{m: 0}` for each call that zero-filled;
   * no key is added or removed.
   */
  method CollectAll(store: ResultsStore, arn: string, w: TimeWindow, queues: seq<string>,
                    fetch: MetricRequest -> CallOutcome)
    returns (issued: seq<MetricRequest>)
    requires store.Valid()
    modifies store
    ensures store.Valid()
    ensures store.lists.Keys == old(store.lists).Keys
    ensures store.lists[TOTAL] == old(store.lists[TOTAL]) + CollectedTotal(arn, w, queues, fetch)
    ensures forall k :: k in old(store.lists) && k != TOTAL ==>
      store.lists[k] == old(store.lists)[k] + QueueFill(arn, w, queues, fetch, |CollectionOrder|)
    ensures issued == RequestsFor(arn, w, queues)
  {
    issued := [];
    for i := 0 to |CollectionOrder|
      invariant store.Valid()
      invariant store.lists.Keys == old(store.lists).Keys
      invariant store.lists[TOTAL] == old(store.lists[TOTAL]) + CollectedTotal(arn, w, queues, fetch)[..i]
      invariant forall k :: k in old(store.lists) && k != TOTAL ==>
        store.lists[k] == old(store.lists)[k] + QueueFill(arn, w, queues, fetch, i)
      invariant issued == RequestsFor(arn, w, queues)[..i]
    {
      var request := store.CollectMetric(arn, w, queues, CollectionOrder[i], fetch);
      CollectionStep(arn, w, queues, fetch, i);
      issued := issued + [request];
    }
    assert CollectedTotal(arn, w, queues, fetch)[..|CollectionOrder|] == CollectedTotal(arn, w, queues, fetch);
    assert RequestsFor(arn, w, queues)[..|CollectionOrder|] == RequestsFor(arn, w, queues);
  }

  /**
   * The handler: nothing is requested when a parameter is missing; otherwise
   * the four metrics are requested in order and the notification carries the
   * summary of what they left in TOTAL.
   */
  method Handle(event: Event, now: int, describe: string -> NameLookup, fetch: MetricRequest -> CallOutcome)
    returns (result: HandlerResult, issued: seq<MetricRequest>)
    ensures !ParamsPresent(event) ==> result == MissingParameters && issued == []
    ensures ParamsPresent(event) ==>
      var w := GetTimeRange(now);
      var arn := event.connectArn.value;
      var queues := event.queues.value;
      var s := SummaryOf(CollectedTotal(arn, w, queues, fetch));
      issued == RequestsFor(arn, w, queues) && result == Notified(w, s, ComposeMessage(w, s))
  {
    if !ParamsPresent(event) {
      return MissingParameters, [];
    }
    var arn := event.connectArn.value;
    var queues := event.queues.value;
    var w := GetTimeRange(now);
    var store := new ResultsStore.Initialize(queues);
    ghost var initial := store.lists;
    store.GetQueueNames(queues, describe);
    AppendNamesAt(initial, queues, describe, TOTAL);
    var names := NameRecordsFor(TOTAL, queues, describe);
    assert store.lists[TOTAL] == names;
    issued := CollectAll(store, arn, w, queues, fetch);
    ghost var collected := CollectedTotal(arn, w, queues, fetch);
    var summary := CalculateSummary(store.lists);
    NameRecordsIgnored(names, collected);
    var message := ComposeMessage(w, summary);
    result := Notified(w, summary, message);
  }

  /**
   * The TOTAL list of a run holds exactly one `{m: ...}` record per metric, at
   * that metric's place in the collection order, and the summary reads back
   * the value that metric's own call left.
   */
  lemma CollectedTotalHoldsEachValue(arn: string, w: TimeWindow, queues: seq<string>,
                                     fetch: MetricRequest -> CallOutcome, m: MetricName)
    ensures var t := CollectedTotal(arn, w, queues, fetch);
      && |t| == |CollectionOrder|
      && (forall k :: 0 <= k < |t| ==> (HasKey(t[k], m) <==> CollectionOrder[k] == m))
      && LastValue(t, m) == CollectedValue(arn, w, queues, fetch, m)
  {
    var t := CollectedTotal(arn, w, queues, fetch);
    var idx := match m
      case ContactsCreated => 0 case ContactsHandled => 1 case AvgQueueAnswerTime => 2 case ServiceLevel => 3;
    assert HasKey(t[idx], m);
    LastIndexOfIsLast(t, m);
    assert LastIndexOf(t, m) == Some(idx);
  }

  /**
   * When every call raises or comes back empty the summary is all zero and the
   * zero-activity message is chosen.
   */
  lemma QuietWindowGivesZeroActivity(arn: string, w: TimeWindow, queues: seq<string>, fetch: MetricRequest -> CallOutcome)
    requires forall m: MetricName :: ZeroFills(fetch(BuildRequest(arn, w, queues, m)))
    ensures SummaryOf(CollectedTotal(arn, w, queues, fetch)) == Summary(0.0, 0.0, 0, 0.0, 0.0, 0.0)
    ensures ComposeMessage(w, SummaryOf(CollectedTotal(arn, w, queues, fetch))).ZeroActivity?
  {
    SummaryOfCollected(CollectedValue(arn, w, queues, fetch, ContactsCreated),
                       CollectedValue(arn, w, queues, fetch, ContactsHandled),
                       CollectedValue(arn, w, queues, fetch, AvgQueueAnswerTime),
                       CollectedValue(arn, w, queues, fetch, ServiceLevel));
    assert CollectedValue(arn, w, queues, fetch, ContactsCreated) == 0.0;
    assert CollectedValue(arn, w, queues, fetch, AvgQueueAnswerTime) == 0.0;
    assert CollectedValue(arn, w, queues, fetch, ServiceLevel) == 0.0;
    Round2OfCents(0);
    RoundHalfEvenOfInt(0);
  }

  /**
   * A CONTACTS_CREATED call that raises or comes back empty zeroes the created count, the answer rate
   * and the service-level count; the other figures keep their own calls' values.
   */
  lemma FailedCreatedCallDegrades(arn: string, w: TimeWindow, queues: seq<string>, fetch: MetricRequest -> CallOutcome)
    requires ZeroFills(fetch(BuildRequest(arn, w, queues, ContactsCreated)))
    ensures var s := SummaryOf(CollectedTotal(arn, w, queues, fetch));
      && s.contactsCreated == 0.0 && s.answerRate == 0.0 && s.serviceLevelCount == 0
      && s.contactsHandled == CollectedValue(arn, w, queues, fetch, ContactsHandled)
      && s.avgQueueAnswerTime == Round2(CollectedValue(arn, w, queues, fetch, AvgQueueAnswerTime))
      && s.serviceLevel == Round2(CollectedValue(arn, w, queues, fetch, ServiceLevel))
  {
    SummaryOfCollected(CollectedValue(arn, w, queues, fetch, ContactsCreated),
                       CollectedValue(arn, w, queues, fetch, ContactsHandled),
                       CollectedValue(arn, w, queues, fetch, AvgQueueAnswerTime),
                       CollectedValue(arn, w, queues, fetch, ServiceLevel));
    RoundHalfEvenOfInt(0);
  }

  /** A SERVICE_LEVEL call that raises or comes back empty zeroes the service level and its count, and nothing else. */
  lemma FailedServiceLevelCallDegrades(arn: string, w: TimeWindow, queues: seq<string>, fetch: MetricRequest -> CallOutcome)
    requires ZeroFills(fetch(BuildRequest(arn, w, queues, ServiceLevel)))
    ensures var s := SummaryOf(CollectedTotal(arn, w, queues, fetch));
      var c := CollectedValue(arn, w, queues, fetch, ContactsCreated);
      var h := CollectedValue(arn, w, queues, fetch, ContactsHandled);
      && s.serviceLevel == 0.0 && s.serviceLevelCount == 0
      && s.contactsCreated == c && s.contactsHandled == h && s.answerRate == AnswerRate(c, h)
      && s.avgQueueAnswerTime == Round2(CollectedValue(arn, w, queues, fetch, AvgQueueAnswerTime))
  {
    SummaryOfCollected(CollectedValue(arn, w, queues, fetch, ContactsCreated),
                       CollectedValue(arn, w, queues, fetch, ContactsHandled),
                       CollectedValue(arn, w, queues, fetch, AvgQueueAnswerTime),
                       CollectedValue(arn, w, queues, fetch, ServiceLevel));
    Round2OfCents(0);
    RoundHalfEvenOfInt(0);
  }

  /** No contacts created means no answer rate and no service-level count, whatever the other calls returned. */
  lemma NoContactsNoRates(arn: string, w: TimeWindow, queues: seq<string>, fetch: MetricRequest -> CallOutcome)
    requires CollectedValue(arn, w, queues, fetch, ContactsCreated) == 0.0
    ensures SummaryOf(CollectedTotal(arn, w, queues, fetch)).answerRate == 0.0
    ensures SummaryOf(CollectedTotal(arn, w, queues, fetch)).serviceLevelCount == 0
  {
    SummaryOfCollected(0.0,
                       CollectedValue(arn, w, queues, fetch, ContactsHandled),
                       CollectedValue(arn, w, queues, fetch, AvgQueueAnswerTime),
                       CollectedValue(arn, w, queues, fetch, ServiceLevel));
    RoundHalfEvenOfInt(0);
  }
}
