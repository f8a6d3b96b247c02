/** The query side of the collector that does not touch its caches: the
    paginated instance-directory fetch, the three fan-out request builders,
    and what a fan-out returns. */
module Fetch {
  import opened Values
  import opened Api

  // ---------------------------------------------------------------------
  // Paginated directory fetch
  // ---------------------------------------------------------------------

  /** A reply that ends the listing: a failed call, or a page reporting no records. */
  predicate Stops(reply: Reply<Page>)
  {
    reply.Failed? || reply.body.pageRecordCount == 0
  }

  /** Some page number ends the listing; without it the fetch loop never ends. */
  ghost predicate ListingEnds(listPage: InstancesRequest -> Reply<Page>, pageSize: int)
  {
    exists n: nat :: 1 <= n && Stops(listPage(InstancesRequest(pageSize, n)))
  }

  /** The requests for pages 1, 2, ..., n in that order. */
  function PageRequests(pageSize: int, n: nat): (requests: seq<InstancesRequest>)
  {
    seq(n, i => InstancesRequest(pageSize, i + 1))
  }

  function ItemsOf(reply: Reply<Page>): (items: seq<Record>)
  {
    match reply
    case Failed => []
    case Replied(page) => page.instances
  }

  /** The `Items.DBInstance` lists of pages 1 to n, concatenated in page order. */
  function Gathered(listPage: InstancesRequest -> Reply<Page>, pageSize: int, n: nat): (records: seq<Record>)
  {
    if n == 0 then [] else Gathered(listPage, pageSize, n - 1) + ItemsOf(listPage(InstancesRequest(pageSize, n)))
  }

  /** The directory fetch, having made `calls` page requests, yields
      `instances`: page `calls` is the first that ends the listing; if it
      failed the result is empty, otherwise it is every item of the pages
      before it. */
  ghost predicate DirectoryOutcome(listPage: InstancesRequest -> Reply<Page>, pageSize: int, instances: seq<Record>, calls: nat)
  {
    && 1 <= calls
    && Stops(listPage(InstancesRequest(pageSize, calls)))
    && (forall n :: 1 <= n < calls ==> !Stops(listPage(InstancesRequest(pageSize, n))))
    && instances == (if listPage(InstancesRequest(pageSize, calls)).Failed? then [] else Gathered(listPage, pageSize, calls - 1))
  }

  /** The body of `query_rds_instance_list`: request pages 1, 2, ... until a
      page reports zero records, extending the list with each page's items;
      any failed call abandons the pages already read and yields `[]`.
      `sent` lists the page requests in the order they were made. */
  method FetchDirectory(pageSize: int, listPage: InstancesRequest -> Reply<Page>) returns (instances: seq<Record>, sent: seq<InstancesRequest>)
    requires ListingEnds(listPage, pageSize)
    ensures sent == PageRequests(pageSize, |sent|)
    ensures DirectoryOutcome(listPage, pageSize, instances, |sent|)
    ensures instances == Listed(listPage, pageSize) && |sent| == FirstStop(listPage, pageSize)
  {
    ghost var last: nat :| 1 <= last && Stops(listPage(InstancesRequest(pageSize, last)));
    var pageNumber := 1;
    instances, sent := [], [];
    while true
      invariant 1 <= pageNumber <= last
      invariant sent == PageRequests(pageSize, pageNumber - 1)
      invariant forall n :: 1 <= n < pageNumber ==> !Stops(listPage(InstancesRequest(pageSize, n)))
      invariant instances == Gathered(listPage, pageSize, pageNumber - 1)
      decreases last - pageNumber
    {
      var request := InstancesRequest(pageSize, pageNumber);
      var reply := listPage(request);
      sent := sent + [request];
      if reply.Failed? {
        instances := [];
        return;
      }
      if reply.body.pageRecordCount == 0 {
        break;
      }
      instances := instances + reply.body.instances;
      pageNumber := pageNumber + 1;
    }
  }

  /** The outcome of a directory fetch is determined by the remote listing. */
  lemma DirectoryOutcomeUnique(listPage: InstancesRequest -> Reply<Page>, pageSize: int,
                               a: seq<Record>, m: nat, b: seq<Record>, n: nat)
    requires DirectoryOutcome(listPage, pageSize, a, m)
    requires DirectoryOutcome(listPage, pageSize, b, n)
    ensures a == b && m == n
  {
  }

  /** Below any page that ends the listing there is a first such page. */
  lemma {:induction false} FirstStopBelow(listPage: InstancesRequest -> Reply<Page>, pageSize: int, k: nat)
    requires 1 <= k && Stops(listPage(InstancesRequest(pageSize, k)))
    ensures exists n: nat :: (1 <= n <= k && Stops(listPage(InstancesRequest(pageSize, n)))
      && forall m :: 1 <= m < n ==> !Stops(listPage(InstancesRequest(pageSize, m))))
    decreases k
  {
    if m :| 1 <= m < k && Stops(listPage(InstancesRequest(pageSize, m))) {
      FirstStopBelow(listPage, pageSize, m);
    } else {
      assert forall m :: 1 <= m < k ==> !Stops(listPage(InstancesRequest(pageSize, m)));
    }
  }

  /** The number of the first page that ends the listing: the number of
      calls one directory fetch makes. */
  ghost function FirstStop(listPage: InstancesRequest -> Reply<Page>, pageSize: int): (n: nat)
    requires ListingEnds(listPage, pageSize)
    ensures 1 <= n && Stops(listPage(InstancesRequest(pageSize, n)))
    ensures forall m :: 1 <= m < n ==> !Stops(listPage(InstancesRequest(pageSize, m)))
  {
    var k: nat :| 1 <= k && Stops(listPage(InstancesRequest(pageSize, k)));
    FirstStopBelow(listPage, pageSize, k);
    var n: nat :| 1 <= n <= k && Stops(listPage(InstancesRequest(pageSize, n)))
      && forall m :: 1 <= m < n ==> !Stops(listPage(InstancesRequest(pageSize, m)));
    n
  }

  /** The directory one fetch yields from the remote listing. */
  ghost function Listed(listPage: InstancesRequest -> Reply<Page>, pageSize: int): (instances: seq<Record>)
    requires ListingEnds(listPage, pageSize)
    ensures DirectoryOutcome(listPage, pageSize, instances, FirstStop(listPage, pageSize))
  {
    var n := FirstStop(listPage, pageSize);
    if listPage(InstancesRequest(pageSize, n)).Failed? then [] else Gathered(listPage, pageSize, n - 1)
  }

  /** Any directory fetch outcome is the listed directory after `FirstStop` calls. */
  lemma OutcomeIsListed(listPage: InstancesRequest -> Reply<Page>, pageSize: int, instances: seq<Record>, calls: nat)
    requires DirectoryOutcome(listPage, pageSize, instances, calls)
    ensures ListingEnds(listPage, pageSize)
    ensures instances == Listed(listPage, pageSize) && calls == FirstStop(listPage, pageSize)
  {
    assert ListingEnds(listPage, pageSize) by {
      assert 1 <= calls && Stops(listPage(InstancesRequest(pageSize, calls)));
    }
    DirectoryOutcomeUnique(listPage, pageSize, instances, calls, Listed(listPage, pageSize), FirstStop(listPage, pageSize));
  }

  /** Two pages of 20 and 5 records followed by an empty page give 25
      instances in 3 calls. */
  lemma TwoPagesThenEmpty(listPage: InstancesRequest -> Reply<Page>, pageSize: int, instances: seq<Record>, calls: nat)
    requires listPage(InstancesRequest(pageSize, 1)).Replied? && listPage(InstancesRequest(pageSize, 1)).body.pageRecordCount == 20
    requires |listPage(InstancesRequest(pageSize, 1)).body.instances| == 20
    requires listPage(InstancesRequest(pageSize, 2)).Replied? && listPage(InstancesRequest(pageSize, 2)).body.pageRecordCount == 5
    requires |listPage(InstancesRequest(pageSize, 2)).body.instances| == 5
    requires listPage(InstancesRequest(pageSize, 3)).Replied? && listPage(InstancesRequest(pageSize, 3)).body.pageRecordCount == 0
    requires DirectoryOutcome(listPage, pageSize, instances, calls)
    ensures |instances| == 25 && calls == 3
  {
    var expected := Gathered(listPage, pageSize, 2);
    assert Gathered(listPage, pageSize, 1) == [] + ItemsOf(listPage(InstancesRequest(pageSize, 1)));
    assert |expected| == 25;
    assert DirectoryOutcome(listPage, pageSize, expected, 3) by {
      forall n | 1 <= n < 3 ensures !Stops(listPage(InstancesRequest(pageSize, n))) {
        assert n == 1 || n == 2;
      }
    }
    DirectoryOutcomeUnique(listPage, pageSize, instances, calls, expected, 3);
  }

  /** A failed call on page k, after k - 1 non-empty pages, discards them all. */
  lemma FailureDiscardsEarlierPages(listPage: InstancesRequest -> Reply<Page>, pageSize: int, k: nat, instances: seq<Record>, calls: nat)
    requires 1 <= k
    requires forall n :: 1 <= n < k ==> !Stops(listPage(InstancesRequest(pageSize, n)))
    requires listPage(InstancesRequest(pageSize, k)).Failed?
    requires DirectoryOutcome(listPage, pageSize, instances, calls)
    ensures instances == [] && calls == k
  {
    DirectoryOutcomeUnique(listPage, pageSize, instances, calls, [], k);
  }

  // ---------------------------------------------------------------------
  // Fan-out
  // ---------------------------------------------------------------------

  /** What the invoker hands back for one reply: the body, or the `[]` sentinel. */
  function SlotOf<T>(reply: Reply<T>): (slot: Slot<T>)
  {
    match reply
    case Failed => Sentinel
    case Replied(body) => Raw(body)
  }

  /** `list(executor.map(invoke, requests))`: one slot per request, aligned by index. */
  function Responses<Q, T>(call: Q -> Reply<T>, requests: seq<Q>): (slots: seq<Slot<T>>)
  {
    seq(|requests|, i requires 0 <= i < |requests| => SlotOf(call(requests[i])))
  }

  // ---------------------------------------------------------------------
  // Performance request builder
  // ---------------------------------------------------------------------

  /** The instance id and its engine's key list for one directory record,
      looked up in the order the source does; each lookup can raise KeyError,
      and an engine configured with a null key list raises TypeError. */
  function EngineKeys(record: Record, performanceList: map<string, Option<seq<string>>>): (found: Result<(Scalar, seq<string>)>)
  {
    if "DBInstanceId" !in record then Err(MissingKey("DBInstanceId"))
    else if "Engine" !in record then Err(MissingKey("Engine"))
    else match record["Engine"]
      case Text(engine) =>
        if engine !in performanceList then Err(UnknownEngine(record["Engine"]))
        else if performanceList[engine].None? then Err(NullKeyList(engine))
        else Ok((record["DBInstanceId"], performanceList[engine].value))
      case Number(_) => Err(UnknownEngine(record["Engine"]))
  }

  function RequestsFor(instanceId: Scalar, keys: seq<string>): (requests: seq<PerformanceRequest>)
  {
    seq(|keys|, j requires 0 <= j < |keys| => PerformanceRequest(instanceId, keys[j]))
  }

  /** The request list of `query_rds_performance_data_list`: for each
      instance in directory order, one request per key of its engine, in the
      configured order; the first failed lookup is the error. */
  function PerformanceRequests(instances: seq<Record>, performanceList: map<string, Option<seq<string>>>): (built: Result<seq<PerformanceRequest>>)
  {
    if |instances| == 0 then Ok([])
    else match EngineKeys(instances[0], performanceList)
      case Err(e) => Err(e)
      case Ok(found) =>
        match PerformanceRequests(instances[1..], performanceList)
        case Err(e) => Err(e)
        case Ok(rest) => Ok(RequestsFor(found.0, found.1) + rest)
  }

  /** The number of keys configured for the engines of `instances`. */
  function KeyTotal(instances: seq<Record>, performanceList: map<string, Option<seq<string>>>): (total: nat)
  {
    if |instances| == 0 then 0
    else
      (match EngineKeys(instances[0], performanceList) case Err(_) => 0 case Ok(found) => |found.1|)
      + KeyTotal(instances[1..], performanceList)
  }

  /** The request list exists exactly when every instance has an id and an
      engine that the configuration lists with a non-null key list. */
  lemma {:induction false} PerformanceRequestsDefined(instances: seq<Record>, performanceList: map<string, Option<seq<string>>>)
    ensures PerformanceRequests(instances, performanceList).Ok? <==>
      forall i :: 0 <= i < |instances| ==> EngineKeys(instances[i], performanceList).Ok?
  {
    if |instances| > 0 {
      PerformanceRequestsDefined(instances[1..], performanceList);
      assert forall i :: 1 <= i < |instances| ==> instances[i] == instances[1..][i - 1];
    }
  }

  /** The request count is the sum, over instances, of their engine's key count. */
  lemma {:induction false} PerformanceRequestsCount(instances: seq<Record>, performanceList: map<string, Option<seq<string>>>)
    requires PerformanceRequests(instances, performanceList).Ok?
    ensures |PerformanceRequests(instances, performanceList).value| == KeyTotal(instances, performanceList)
  {
    if |instances| > 0 {
      PerformanceRequestsCount(instances[1..], performanceList);
    }
  }

  /** Instance-major order: the j-th key of instance i sits after the
      requests of the instances before i. */
  lemma {:induction false} PerformanceRequestAt(instances: seq<Record>, performanceList: map<string, Option<seq<string>>>, i: nat, j: nat)
    requires PerformanceRequests(instances, performanceList).Ok?
    requires i < |instances|
    requires EngineKeys(instances[i], performanceList).Ok?
    requires j < |EngineKeys(instances[i], performanceList).value.1|
    ensures KeyTotal(instances[..i], performanceList) + j < |PerformanceRequests(instances, performanceList).value|
    ensures PerformanceRequests(instances, performanceList).value[KeyTotal(instances[..i], performanceList) + j]
         == PerformanceRequest(instances[i]["DBInstanceId"], EngineKeys(instances[i], performanceList).value.1[j])
  {
    var found := EngineKeys(instances[0], performanceList).value;
    var rest := PerformanceRequests(instances[1..], performanceList).value;
    PerformanceRequestsCount(instances[1..], performanceList);
    if i == 0 {
      assert instances[..0] == [];
    } else {
      PerformanceRequestAt(instances[1..], performanceList, i - 1, j);
      assert instances[..i][1..] == instances[1..][..i - 1];
      assert KeyTotal(instances[..i], performanceList) == |found.1| + KeyTotal(instances[1..][..i - 1], performanceList);
    }
  }

  /** Prepends already built requests to the outcome of the remaining ones. */
  function After(built: seq<PerformanceRequest>, remaining: Result<seq<PerformanceRequest>>): (whole: Result<seq<PerformanceRequest>>)
  {
    match remaining
    case Err(e) => Err(e)
    case Ok(rest) => Ok(built + rest)
  }

  lemma AfterAfter(a: seq<PerformanceRequest>, b: seq<PerformanceRequest>, x: Result<seq<PerformanceRequest>>)
    ensures After(a, After(b, x)) == After(a + b, x)
  {
    if x.Ok? {
      assert a + (b + x.value) == (a + b) + x.value;
    }
  }

  lemma AfterNothing(x: Result<seq<PerformanceRequest>>)
    ensures After([], x) == x
  {
    if x.Ok? {
      assert [] + x.value == x.value;
    }
  }

  /** One step of the request list over a suffix of the directory. */
  lemma PerformanceRequestsStep(instances: seq<Record>, performanceList: map<string, Option<seq<string>>>, i: nat)
    requires i < |instances|
    ensures PerformanceRequests(instances[i..], performanceList) ==
      match EngineKeys(instances[i], performanceList)
      case Err(e) => Err(e)
      case Ok(found) => After(RequestsFor(found.0, found.1), PerformanceRequests(instances[i + 1..], performanceList))
  {
    assert instances[i..][0] == instances[i] && instances[i..][1..] == instances[i + 1..];
  }

  lemma RequestsForSnoc(instanceId: Scalar, keys: seq<string>, j: nat)
    requires j < |keys|
    ensures RequestsFor(instanceId, keys[..j + 1]) == RequestsFor(instanceId, keys[..j]) + [PerformanceRequest(instanceId, keys[j])]
  {
  }

  /** An instance whose engine is configured with a null key list makes the
      performance request list raise. */
  lemma NullKeyListFailsBuild(instances: seq<Record>, performanceList: map<string, Option<seq<string>>>, i: nat, engine: string)
    requires i < |instances| && "DBInstanceId" in instances[i]
    requires "Engine" in instances[i] && instances[i]["Engine"] == Text(engine)
    requires engine in performanceList && performanceList[engine].None?
    ensures PerformanceRequests(instances, performanceList).Err?
  {
    PerformanceRequestsDefined(instances, performanceList);
    assert EngineKeys(instances[i], performanceList) == Err(NullKeyList(engine));
  }

  /** The nested loops of `query_rds_performance_data_list` that fill the
      request list. */
  method BuildPerformanceRequests(instances: seq<Record>, performanceList: map<string, Option<seq<string>>>)
    returns (r: Result<seq<PerformanceRequest>>)
    ensures r == PerformanceRequests(instances, performanceList)
  {
    var tasks: seq<PerformanceRequest> := [];
    var i := 0;
    assert instances[0..] == instances;
    AfterNothing(PerformanceRequests(instances, performanceList));
    while i < |instances|
      invariant 0 <= i <= |instances|
      invariant PerformanceRequests(instances, performanceList) == After(tasks, PerformanceRequests(instances[i..], performanceList))
      decreases |instances| - i
    {
      var record := instances[i];
      PerformanceRequestsStep(instances, performanceList, i);
      if "DBInstanceId" !in record {
        return Err(MissingKey("DBInstanceId"));
      }
      var instanceId := record["DBInstanceId"];
      if "Engine" !in record {
        return Err(MissingKey("Engine"));
      }
      var engine := record["Engine"];
      if !engine.Text? || engine.text !in performanceList {
        return Err(UnknownEngine(engine));
      }
      var entry := performanceList[engine.text];
      if entry.None? {
        return Err(NullKeyList(engine.text));
      }
      var keys := entry.value;
      assert EngineKeys(record, performanceList) == Ok((instanceId, keys));
      ghost var before := tasks;
      var j := 0;
      while j < |keys|
        invariant 0 <= j <= |keys|
        invariant tasks == before + RequestsFor(instanceId, keys[..j])
      {
        RequestsForSnoc(instanceId, keys, j);
        tasks := tasks + [PerformanceRequest(instanceId, keys[j])];
        j := j + 1;
      }
      assert keys[..j] == keys;
      AfterAfter(before, RequestsFor(instanceId, keys), PerformanceRequests(instances[i + 1..], performanceList));
      i := i + 1;
    }
    assert instances[i..] == [] && tasks + [] == tasks;
    r := Ok(tasks);
  }

  // ---------------------------------------------------------------------
  // Attribute and resource-usage request builders
  // ---------------------------------------------------------------------

  /** The request list of `query_rds_instance_detail_list` (make :=
      AttributeRequest) and of `query_rds_resource_usage_list` (make :=
      UsageRequest): one request per instance, in directory order. */
  function InstanceRequests<Q>(instances: seq<Record>, make: Scalar -> Q): (built: Result<seq<Q>>)
  {
    if forall i :: 0 <= i < |instances| ==> "DBInstanceId" in instances[i]
    then Ok(seq(|instances|, i requires 0 <= i < |instances| && "DBInstanceId" in instances[i] => make(instances[i]["DBInstanceId"])))
    else Err(MissingKey("DBInstanceId"))
  }

  /** The loop of the attribute and resource-usage queries that fills the
      request list, one request per instance; a record without an id
      raises KeyError. */
  method BuildInstanceRequests<Q>(instances: seq<Record>, make: Scalar -> Q) returns (r: Result<seq<Q>>)
    ensures r.Ok? <==> forall i :: 0 <= i < |instances| ==> "DBInstanceId" in instances[i]
    ensures r.Ok? ==>
      && |r.value| == |instances|
      && forall i :: 0 <= i < |instances| ==> r.value[i] == make(instances[i]["DBInstanceId"])
    ensures r.Err? ==> r.error == MissingKey("DBInstanceId")
    ensures r == InstanceRequests(instances, make)
  {
    var tasks: seq<Q> := [];
    var i := 0;
    while i < |instances|
      invariant 0 <= i <= |instances|
      invariant forall k :: 0 <= k < i ==> "DBInstanceId" in instances[k]
      invariant |tasks| == i
      invariant forall k :: 0 <= k < i ==> tasks[k] == make(instances[k]["DBInstanceId"])
    {
      if "DBInstanceId" !in instances[i] {
        return Err(MissingKey("DBInstanceId"));
      }
      tasks := tasks + [make(instances[i]["DBInstanceId"])];
      i := i + 1;
    }
    assert tasks == InstanceRequests(instances, make).value;
    r := Ok(tasks);
  }
}
