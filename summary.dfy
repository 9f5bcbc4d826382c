/** `calculate_summary`: one scan of the TOTAL list into the six summary figures. */
module Summarizer {
  import opened Optional
  import opened Rounding
  import opened Metrics

  datatype Summary = Summary(
    answerRate: real,
    serviceLevel: real,
    serviceLevelCount: int,
    avgQueueAnswerTime: real,
    contactsCreated: real,
    contactsHandled: real)

  /** The position of the last `{m: ...}` record, if there is one. */
  function LastIndexOf(s: seq<Record>, m: MetricName): (r: Option<nat>)
    ensures r.Some? ==> r.value < |s| && HasKey(s[r.value], m)
  {
    if s == [] then None
    else if HasKey(s[|s| - 1], m) then Some(|s| - 1)
    else LastIndexOf(s[..|s| - 1], m)
  }

  /** LastIndexOf finds the last `{m: ...}` record, and finds none only when there is none. */
  lemma {:induction false} LastIndexOfIsLast(s: seq<Record>, m: MetricName)
    ensures LastIndexOf(s, m).None? <==> forall k :: 0 <= k < |s| ==> !HasKey(s[k], m)
    ensures LastIndexOf(s, m).Some? ==> forall k :: LastIndexOf(s, m).value < k < |s| ==> !HasKey(s[k], m)
  {
    if s != [] && !HasKey(s[|s| - 1], m) {
      var s' := s[..|s| - 1];
      LastIndexOfIsLast(s', m);
      assert forall k :: 0 <= k < |s'| ==> s'[k] == s[k];
    }
  }

  /** The value of the last `{m: ...}` record, 0 when there is none. */
  function LastValue(s: seq<Record>, m: MetricName): real {
    match LastIndexOf(s, m)
    case None => 0.0
    case Some(j) => s[j].value
  }

  /**
   * The unrounded service-level count: the CONTACTS_CREATED value seen before
   * the last SERVICE_LEVEL record times that record's percentage, 0 without one.
   */
  function ServiceLevelCountRaw(s: seq<Record>): real {
    match LastIndexOf(s, ServiceLevel)
    case None => 0.0
    case Some(j) => LastValue(s[..j], ContactsCreated) * s[j].value / 100.0
  }

  /** Handled over created as a percentage, 0 when nothing was created. */
  function AnswerRate(created: real, handled: real): real {
    if created > 0.0 then Round2(handled / created * 100.0) else 0.0
  }

  /** The summary of a TOTAL list. */
  function SummaryOf(total: seq<Record>): Summary {
    var created := LastValue(total, ContactsCreated);
    var handled := LastValue(total, ContactsHandled);
    Summary(
      AnswerRate(created, handled),
      Round2(LastValue(total, ServiceLevel)),
      RoundHalfEven(ServiceLevelCountRaw(total)),
      Round2(LastValue(total, AvgQueueAnswerTime)),
      created,
      handled)
  }

  /** `results.get('total', [])`. */
  function TotalOf(results: Store): seq<Record> {
    if TOTAL in results then results[TOTAL] else []
  }

  lemma LastValueSnoc(s: seq<Record>, r: Record, m: MetricName)
    ensures LastValue(s + [r], m) == if HasKey(r, m) then r.value else LastValue(s, m)
  {
    assert (s + [r])[..|s|] == s;
  }

  lemma ServiceLevelCountSnoc(s: seq<Record>, r: Record)
    ensures ServiceLevelCountRaw(s + [r]) ==
      if HasKey(r, ServiceLevel) then LastValue(s, ContactsCreated) * r.value / 100.0
      else ServiceLevelCountRaw(s)
  {
    assert (s + [r])[..|s|] == s;
    if !HasKey(r, ServiceLevel) {
      match LastIndexOf(s, ServiceLevel)
      case None =>
      case Some(j) =>
        assert (s + [r])[..j] == s[..j];
    }
  }

  /** The five running figures of the scan agree with the records seen so far. */
  ghost predicate Scanned(seen: seq<Record>, created: real, handled: real, asa: real, sl: real, slCount: real) {
    && created == LastValue(seen, ContactsCreated)
    && handled == LastValue(seen, ContactsHandled)
    && asa == LastValue(seen, AvgQueueAnswerTime)
    && sl == LastValue(seen, ServiceLevel)
    && slCount == ServiceLevelCountRaw(seen)
  }

  /** One record more: its own figure takes its value, and a SERVICE_LEVEL record recomputes the count. */
  lemma ScanStep(seen: seq<Record>, r: Record, created: real, handled: real, asa: real, sl: real, slCount: real)
    requires Scanned(seen, created, handled, asa, sl, slCount)
    ensures r.QueueName? ==> Scanned(seen + [r], created, handled, asa, sl, slCount)
    ensures HasKey(r, ContactsCreated) ==> Scanned(seen + [r], r.value, handled, asa, sl, slCount)
    ensures HasKey(r, ContactsHandled) ==> Scanned(seen + [r], created, r.value, asa, sl, slCount)
    ensures HasKey(r, AvgQueueAnswerTime) ==> Scanned(seen + [r], created, handled, r.value, sl, slCount)
    ensures HasKey(r, ServiceLevel) ==> Scanned(seen + [r], created, handled, asa, r.value, created * r.value / 100.0)
  {
    LastValueSnoc(seen, r, ContactsCreated);
    LastValueSnoc(seen, r, ContactsHandled);
    LastValueSnoc(seen, r, AvgQueueAnswerTime);
    LastValueSnoc(seen, r, ServiceLevel);
    ServiceLevelCountSnoc(seen, r);
  }

  /** The scan of `calculate_summary`, a record at a time. */
  method CalculateSummary(results: Store) returns (summary: Summary)
    ensures summary == SummaryOf(TotalOf(results))
  {
    var totalInfo := TotalOf(results);
    var contactsCreated := 0.0;
    var contactsHandled := 0.0;
    var avgQueueAnswerTime := 0.0;
    var serviceLevel := 0.0;
    var serviceLevelCount := 0.0;
    for i := 0 to |totalInfo|
      invariant Scanned(totalInfo[..i], contactsCreated, contactsHandled, avgQueueAnswerTime, serviceLevel, serviceLevelCount)
    {
      var item := totalInfo[i];
      assert totalInfo[..i + 1] == totalInfo[..i] + [item];
      ScanStep(totalInfo[..i], item, contactsCreated, contactsHandled, avgQueueAnswerTime, serviceLevel, serviceLevelCount);
      if item.Metric? {
        match item.metric
        case ContactsCreated =>
          contactsCreated := item.value;
        case ContactsHandled =>
          contactsHandled := item.value;
        case AvgQueueAnswerTime =>
          avgQueueAnswerTime := item.value;
        case ServiceLevel =>
          serviceLevel := item.value;
          serviceLevelCount := contactsCreated * serviceLevel / 100.0;
      }
    }
    assert totalInfo[..|totalInfo|] == totalInfo;
    var answerRate := 0.0;
    if contactsCreated > 0.0 {
      answerRate := Round2((contactsHandled / contactsCreated) * 100.0);
    } else {
      answerRate := 0.0;
    }
    summary := Summary(
      answerRate,
      Round2(serviceLevel),
      RoundHalfEven(serviceLevelCount),
      Round2(avgQueueAnswerTime),
      contactsCreated,
      contactsHandled);
  }

  /** A key that never occurs reads as 0: the scan never fails on a missing metric. */
  lemma MissingKeysDefaultToZero(total: seq<Record>)
    requires forall k :: 0 <= k < |total| ==> !total[k].Metric?
    ensures SummaryOf(total) == Summary(0.0, 0.0, 0, 0.0, 0.0, 0.0)
  {
    forall m: MetricName ensures LastIndexOf(total, m).None? {
      LastIndexOfIsLast(total, m);
    }
    Round2OfCents(0);
    RoundHalfEvenOfInt(0);
  }

  /** Without any CONTACTS_CREATED record the answer rate and the service-level count are 0. */
  lemma NoContactsCreatedRecord(total: seq<Record>)
    requires forall k :: 0 <= k < |total| ==> !HasKey(total[k], ContactsCreated)
    ensures SummaryOf(total).contactsCreated == 0.0
    ensures SummaryOf(total).answerRate == 0.0
    ensures SummaryOf(total).serviceLevelCount == 0
  {
    LastIndexOfIsLast(total, ContactsCreated);
    RoundHalfEvenOfInt(0);
    match LastIndexOf(total, ServiceLevel)
    case None =>
    case Some(j) =>
      LastIndexOfIsLast(total[..j], ContactsCreated);
      assert forall k :: 0 <= k < j ==> total[..j][k] == total[k];
  }

  /** The last record for a key decides that key's figure. */
  lemma LastRecordWins(s: seq<Record>, m: MetricName, v: real)
    ensures LastValue(s + [Metric(m, v)], m) == v
    ensures forall m' :: m' != m ==> LastValue(s + [Metric(m, v)], m') == LastValue(s, m')
  {
    LastValueSnoc(s, Metric(m, v), m);
    forall m' | m' != m
      ensures LastValue(s + [Metric(m, v)], m') == LastValue(s, m')
    {
      LastValueSnoc(s, Metric(m, v), m');
    }
  }

  lemma {:induction false} LastIndexOfAfterNames(p: seq<Record>, t: seq<Record>, m: MetricName)
    requires forall k :: 0 <= k < |p| ==> p[k].QueueName?
    ensures LastIndexOf(p + t, m) == match LastIndexOf(t, m) case None => None case Some(j) => Some(|p| + j)
  {
    if t == [] {
      assert p + t == p;
      LastIndexOfIsLast(p, m);
    } else {
      assert (p + t)[..|p + t| - 1] == p + t[..|t| - 1];
      LastIndexOfAfterNames(p, t[..|t| - 1], m);
    }
  }

  lemma LastValueAfterNames(p: seq<Record>, t: seq<Record>, m: MetricName)
    requires forall k :: 0 <= k < |p| ==> p[k].QueueName?
    ensures LastValue(p + t, m) == LastValue(t, m)
  {
    LastIndexOfAfterNames(p, t, m);
  }

  lemma ServiceLevelCountAfterNames(p: seq<Record>, t: seq<Record>)
    requires forall k :: 0 <= k < |p| ==> p[k].QueueName?
    ensures ServiceLevelCountRaw(p + t) == ServiceLevelCountRaw(t)
  {
    LastIndexOfAfterNames(p, t, ServiceLevel);
    match LastIndexOf(t, ServiceLevel)
    case None =>
    case Some(j) =>
      assert (p + t)[..|p| + j] == p + t[..j];
      LastValueAfterNames(p, t[..j], ContactsCreated);
  }

  /** Two lists with the same last values and the same unrounded count have the same summary. */
  lemma SameFiguresSameSummary(a: seq<Record>, b: seq<Record>)
    requires LastValue(a, ContactsCreated) == LastValue(b, ContactsCreated)
    requires LastValue(a, ContactsHandled) == LastValue(b, ContactsHandled)
    requires LastValue(a, AvgQueueAnswerTime) == LastValue(b, AvgQueueAnswerTime)
    requires LastValue(a, ServiceLevel) == LastValue(b, ServiceLevel)
    requires ServiceLevelCountRaw(a) == ServiceLevelCountRaw(b)
    ensures SummaryOf(a) == SummaryOf(b)
  {
  }

  /** Queue-name records in front of the metric records change nothing. */
  lemma NameRecordsIgnored(p: seq<Record>, t: seq<Record>)
    requires forall k :: 0 <= k < |p| ==> p[k].QueueName?
    ensures SummaryOf(p + t) == SummaryOf(t)
  {
    LastValueAfterNames(p, t, ContactsCreated);
    LastValueAfterNames(p, t, ContactsHandled);
    LastValueAfterNames(p, t, AvgQueueAnswerTime);
    LastValueAfterNames(p, t, ServiceLevel);
    ServiceLevelCountAfterNames(p, t);
    SameFiguresSameSummary(p + t, t);
  }

  /** The summary of a TOTAL list written in collection order, one record per metric. */
  lemma SummaryOfCollected(created: real, handled: real, asa: real, sl: real)
    ensures SummaryOf([Metric(ContactsCreated, created), Metric(ContactsHandled, handled),
                       Metric(AvgQueueAnswerTime, asa), Metric(ServiceLevel, sl)])
         == Summary(AnswerRate(created, handled), Round2(sl), RoundHalfEven(created * sl / 100.0),
                    Round2(asa), created, handled)
  {
    var t1 := [Metric(ContactsCreated, created)];
    var t2 := t1 + [Metric(ContactsHandled, handled)];
    var t3 := t2 + [Metric(AvgQueueAnswerTime, asa)];
    var t4 := t3 + [Metric(ServiceLevel, sl)];
    assert [] + [t1[0]] == t1;
    forall m: MetricName
      ensures LastValue(t3, m) == if m == ServiceLevel then 0.0
                                  else if m == ContactsCreated then created
                                  else if m == ContactsHandled then handled
                                  else asa
    {
      LastValueSnoc([], t1[0], m);
      LastValueSnoc(t1, Metric(ContactsHandled, handled), m);
      LastValueSnoc(t2, Metric(AvgQueueAnswerTime, asa), m);
    }
    forall m: MetricName ensures LastValue(t4, m) == if m == ServiceLevel then sl else LastValue(t3, m) {
      LastValueSnoc(t3, Metric(ServiceLevel, sl), m);
    }
    ServiceLevelCountSnoc(t3, Metric(ServiceLevel, sl));
    assert ServiceLevelCountRaw(t4) == created * sl / 100.0;
    assert LastValue(t4, ContactsCreated) == created;
    assert LastValue(t4, ContactsHandled) == handled;
    assert LastValue(t4, AvgQueueAnswerTime) == asa;
    assert LastValue(t4, ServiceLevel) == sl;
    assert t4 == [Metric(ContactsCreated, created), Metric(ContactsHandled, handled),
                  Metric(AvgQueueAnswerTime, asa), Metric(ServiceLevel, sl)];
  }

  /** With no more handled than created, the answer rate is a percentage. */
  lemma AnswerRateIsPercentage(created: real, handled: real)
    requires 0.0 <= handled <= created
    ensures 0.0 <= AnswerRate(created, handled) <= 100.0
    ensures created == 0.0 ==> AnswerRate(created, handled) == 0.0
  {
    if created > 0.0 {
      assert handled / created <= 1.0;
      Round2Between(0, handled / created * 100.0, 10000);
    } else {
      Round2OfCents(0);
    }
  }

  /** 100 created and 80 handled give an answer rate of 80%. */
  lemma AnswerRateExample()
    ensures AnswerRate(100.0, 80.0) == 80.0
  {
    Round2OfCents(8000);
  }

  /** 50 created at a 90% service level give a service-level count of 45. */
  lemma ServiceLevelCountExample(handled: real, asa: real)
    ensures SummaryOf([Metric(ContactsCreated, 50.0), Metric(ContactsHandled, handled),
                       Metric(AvgQueueAnswerTime, asa), Metric(ServiceLevel, 90.0)]).serviceLevelCount == 45
  {
    SummaryOfCollected(50.0, handled, asa, 90.0);
    RoundHalfEvenOfInt(45);
  }

  /**
   * The service-level count depends on the order of the records: the same two
   * records give 45 when CONTACTS_CREATED comes first and 0 when it comes last.
   */
  lemma ServiceLevelCountIsOrderDependent()
    ensures SummaryOf([Metric(ContactsCreated, 50.0), Metric(ServiceLevel, 90.0)]).serviceLevelCount == 45
    ensures SummaryOf([Metric(ServiceLevel, 90.0), Metric(ContactsCreated, 50.0)]).serviceLevelCount == 0
    ensures SummaryOf([Metric(ContactsCreated, 50.0), Metric(ServiceLevel, 90.0)]).contactsCreated
         == SummaryOf([Metric(ServiceLevel, 90.0), Metric(ContactsCreated, 50.0)]).contactsCreated
  {
    var a := [Metric(ContactsCreated, 50.0), Metric(ServiceLevel, 90.0)];
    var b := [Metric(ServiceLevel, 90.0), Metric(ContactsCreated, 50.0)];
    assert a[..1] == [] + [a[0]];
    LastValueSnoc([], a[0], ContactsCreated);
    assert b[..0] == [];
    RoundHalfEvenOfInt(45);
    RoundHalfEvenOfInt(0);
  }
}
