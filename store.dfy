/**
 * The results store the handler fills in place: a list of single-key records
 * per queue id and one for TOTAL.
 */
module Results {
  import opened Optional
  import opened Rounding
  import opened Metrics
  import opened Window
  import opened Requests
  import opened Reducer

  /** `describe_queue`'s reply: the optional `Queue` with its optional `Name`. */
  datatype QueueDescription = QueueDescription(name: Option<string>)

  /** What one queue-name lookup produced: a reply, or an exception. */
  datatype NameLookup = LookupFailed | Described(queue: Option<QueueDescription>)

  /** The record a lookup adds to its queue's list. */
  function NameRecord(l: NameLookup): Record {
    match l
    case LookupFailed => QueueName("Error")
    case Described(None) => QueueName("Unknown")
    case Described(Some(QueueDescription(None))) => QueueName("Unknown")
    case Described(Some(QueueDescription(Some(n)))) => QueueName(n)
  }

  /** The store after looking up the names of `qs`, in order. */
  function AppendNames(s: Store, qs: seq<string>, describe: string -> NameLookup): (r: Store)
    requires forall q :: q in qs ==> q in s
    ensures r.Keys == s.Keys
  {
    if qs == [] then s
    else
      var q := qs[0];
      AppendNames(s[q := s[q] + [NameRecord(describe(q))]], qs[1..], describe)
  }

  /** The name records the lookups of `qs` append to the list of `k`. */
  function NameRecordsFor(k: string, qs: seq<string>, describe: string -> NameLookup): (rs: seq<Record>)
    ensures forall i :: 0 <= i < |rs| ==> rs[i].QueueName?
  {
    if qs == [] then []
    else (if qs[0] == k then [NameRecord(describe(k))] else []) + NameRecordsFor(k, qs[1..], describe)
  }

  /** The store after a zero-fill: one `{m: 0}` record appended to every list. */
  function ZeroFilled(s: Store, m: MetricName): (r: Store)
    ensures r.Keys == s.Keys
  {
    map k | k in s :: s[k] + [Metric(m, 0.0)]
  }

  /**
   * The nested loops of `process_metric_results`: the running sum and count of
   * every observation across all groups. The per-group sum is computed as in
   * the source and then dropped.
   */
  method AccumulateTotals(groups: seq<MetricResult>) returns (totalValue: real, totalCount: nat)
    ensures totalValue == Sum(Flatten(groups))
    ensures totalCount == |Flatten(groups)|
  {
    totalValue, totalCount := 0.0, 0;
    for i := 0 to |groups|
      invariant totalValue == Sum(Flatten(groups[..i]))
      invariant totalCount == |Flatten(groups[..i])|
    {
      var queue := groups[i].queue;
      var collections := CollectionsOf(groups[i]);
      var value: real := 0.0;
      for j := 0 to |collections|
        invariant value == Sum(Observations(collections[..j]))
        invariant totalValue == Sum(Flatten(groups[..i])) + value
        invariant totalCount == |Flatten(groups[..i])| + j
      {
        var collectionValue := ValueOf(collections[j]);
        assert collections[..j + 1][..j] == collections[..j];
        value := value + collectionValue;
        totalValue := totalValue + collectionValue;
        totalCount := totalCount + 1;
      }
      assert collections[..|collections|] == collections;
      assert groups[..i + 1][..i] == groups[..i];
      SumAppend(Flatten(groups[..i]), Observations(collections));
    }
    assert groups[..|groups|] == groups;
  }

  class ResultsStore {
    var lists: Store

    ghost predicate Valid()
      reads this
    {
      TOTAL in lists
    }

    /** `initialize_results`: an empty list for every queue and for TOTAL. */
    constructor Initialize(queues: seq<string>)
      ensures Valid()
      ensures lists.Keys == (set q | q in queues) + {TOTAL}
      ensures forall k :: k in lists ==> lists[k] == []
    {
      var m: Store := map[];
      for i := 0 to |queues|
        invariant m.Keys == set q | q in queues[..i]
        invariant forall k :: k in m ==> m[k] == []
      {
        assert queues[..i + 1] == queues[..i] + [queues[i]];
        m := m[queues[i] := []];
      }
      assert queues[..|queues|] == queues;
      lists := m[TOTAL := []];
    }

    /** `get_queue_names`: one name record appended per queue, in order. */
    method GetQueueNames(queues: seq<string>, describe: string -> NameLookup)
      requires Valid()
      requires forall q :: q in queues ==> q in lists
      modifies this
      ensures Valid()
      ensures lists == AppendNames(old(lists), queues, describe)
    {
      for i := 0 to |queues|
        invariant lists.Keys == old(lists).Keys
        invariant AppendNames(lists, queues[i..], describe) == AppendNames(old(lists), queues, describe)
      {
        var q := queues[i];
        assert queues[i..][1..] == queues[i + 1..];
        lists := lists[q := lists[q] + [NameRecord(describe(q))]];
      }
    }

    /** The error and empty-response path: `{m: 0}` appended to every queue list, then to TOTAL. */
    method ZeroFill(m: MetricName)
      requires Valid()
      modifies this
      ensures Valid()
      ensures lists == ZeroFilled(old(lists), m)
    {
      var pending := lists.Keys - {TOTAL};
      while pending != {}
        invariant pending <= lists.Keys - {TOTAL}
        invariant lists.Keys == old(lists).Keys
        invariant forall k :: k in lists ==>
          lists[k] == if k in pending || k == TOTAL then old(lists)[k] else old(lists)[k] + [Metric(m, 0.0)]
        decreases pending
      {
        var q :| q in pending;
        lists := lists[q := lists[q] + [Metric(m, 0.0)]];
        pending := pending - {q};
      }
      lists := lists[TOTAL := lists[TOTAL] + [Metric(m, 0.0)]];
    }

    /**
     * `process_metric_results`: an empty response zero-fills; otherwise one
     * reduced record goes to TOTAL and the per-queue lists stay as they are
     * (the per-group sum is computed but not stored).
     */
    method ProcessMetricResults(response: Response, m: MetricName)
      requires Valid()
      modifies this
      ensures Valid()
      ensures |GroupsOf(response)| == 0 ==> lists == ZeroFilled(old(lists), m)
      ensures |GroupsOf(response)| > 0 ==>
        lists == old(lists)[TOTAL := old(lists)[TOTAL] + [Metric(m, ReducedTotal(m, GroupsOf(response)))]]
    {
      var groups := GroupsOf(response);
      if |groups| == 0 {
        ZeroFill(m);
        return;
      }
      var totalValue: real, totalCount: nat;
      totalValue, totalCount := AccumulateTotals(groups);
      if m == AvgQueueAnswerTime || m == ServiceLevel {
        if totalCount > 0 {
          totalValue := Round2(totalValue / totalCount as real);
        } else {
          totalValue := 0.0;
        }
      }
      lists := lists[TOTAL := lists[TOTAL] + [Metric(m, totalValue)]];
    }

    /**
     * `collect_metric`: build the request, make the call, and reduce its
     * response, or zero-fill when the call raised.
     */
    method CollectMetric(resourceArn: string, w: TimeWindow, queues: seq<string>, m: MetricName,
                         fetch: MetricRequest -> CallOutcome)
      returns (request: MetricRequest)
      requires Valid()
      modifies this
      ensures Valid()
      ensures request == BuildRequest(resourceArn, w, queues, m)
      ensures ZeroFills(fetch(request)) ==> lists == ZeroFilled(old(lists), m)
      ensures !ZeroFills(fetch(request)) ==>
        lists == old(lists)[TOTAL := old(lists)[TOTAL] + [Metric(m, ReducedTotal(m, GroupsOf(fetch(request).response)))]]
      ensures lists[TOTAL] == old(lists)[TOTAL] + [Metric(m, TotalValue(m, fetch(request)))]
    {
      request := BuildRequest(resourceArn, w, queues, m);
      var outcome := fetch(request);
      match outcome
      case Raised =>
        ZeroFill(m);
      case Returned(response) =>
        ProcessMetricResults(response, m);
    }
  }

  /** Looking names up appends to the list of `k` exactly the records of the lookups of `k`. */
  lemma {:induction false} AppendNamesAt(s: Store, qs: seq<string>, describe: string -> NameLookup, k: string)
    requires forall q :: q in qs ==> q in s
    requires k in s
    ensures AppendNames(s, qs, describe)[k] == s[k] + NameRecordsFor(k, qs, describe)
  {
    if qs != [] {
      var q := qs[0];
      var s' := s[q := s[q] + [NameRecord(describe(q))]];
      AppendNamesAt(s', qs[1..], describe, k);
      if k == q {
        assert s'[k] == s[k] + [NameRecord(describe(k))];
      } else {
        assert s'[k] == s[k];
      }
    }
  }

  /** Distinct queues: each queue gets the one record of its own lookup, other keys none. */
  lemma {:induction false} NameRecordsOfDistinct(k: string, qs: seq<string>, describe: string -> NameLookup)
    requires forall i, j :: 0 <= i < j < |qs| ==> qs[i] != qs[j]
    ensures k in qs ==> NameRecordsFor(k, qs, describe) == [NameRecord(describe(k))]
    ensures k !in qs ==> NameRecordsFor(k, qs, describe) == []
  {
    if qs != [] {
      NameRecordsOfDistinct(k, qs[1..], describe);
      if qs[0] == k {
        assert k !in qs[1..] by {
          forall j | 0 <= j < |qs[1..]| ensures qs[1..][j] != k {
            assert qs[1..][j] == qs[j + 1];
          }
        }
      } else {
        assert k in qs ==> k in qs[1..];
      }
    }
  }

  /**
   * After initialization and the name lookups, with distinct queue ids none of
   * which is TOTAL: the keys are the queues and TOTAL, TOTAL is empty, and
   * every queue holds exactly its name record.
   */
  lemma NamesAfterInitialize(init: Store, queues: seq<string>, describe: string -> NameLookup)
    requires init.Keys == (set q | q in queues) + {TOTAL}
    requires forall k :: k in init ==> init[k] == []
    requires forall i, j :: 0 <= i < j < |queues| ==> queues[i] != queues[j]
    requires TOTAL !in queues
    ensures AppendNames(init, queues, describe).Keys == (set q | q in queues) + {TOTAL}
    ensures AppendNames(init, queues, describe)[TOTAL] == []
    ensures forall i :: 0 <= i < |queues| ==>
      AppendNames(init, queues, describe)[queues[i]] == [NameRecord(describe(queues[i]))]
  {
    AppendNamesAt(init, queues, describe, TOTAL);
    NameRecordsOfDistinct(TOTAL, queues, describe);
    forall i | 0 <= i < |queues|
      ensures AppendNames(init, queues, describe)[queues[i]] == [NameRecord(describe(queues[i]))]
    {
      AppendNamesAt(init, queues, describe, queues[i]);
      NameRecordsOfDistinct(queues[i], queues, describe);
    }
  }
}
