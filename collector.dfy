/** The collector object: four time-to-live caches in front of the remote
    queries, the invoker that counts every request, and `collect`. What the
    collector holds between scrapes is also described as a value, `State`,
    and each query, generator and whole scrape as a step function from the
    old state to the new state and the result; the methods of
    `RdsCollector` are proved to take exactly those steps. */
module Collector {
  import opened Values
  import opened Api
  import opened Config
  import opened Fetch
  import opened Metrics

  /** The seconds each cached query result stays fresh. */
  const INSTANCE_TTL: nat := 300
  const PERFORMANCE_TTL: nat := 50
  const DETAIL_TTL: nat := 50
  const USAGE_TTL: nat := 60

  /** A cached value and the clock reading at which it was stored. */
  datatype Entry<T> = Entry(value: T, stamp: int)

  /** cachetools' expiry rule: a lookup at `now` hits when a value is stored
      and `now` is before its stamp plus the lifetime. */
  predicate Fresh<T>(entry: Option<Entry<T>>, ttl: nat, now: int)
  {
    entry.Some? && now < entry.value.stamp + ttl
  }

  // ---------------------------------------------------------------------
  // The collector's state as a value, and the steps it takes
  // ---------------------------------------------------------------------

  /** The four cache entries and the request counter. */
  datatype State = State(
    instances: Option<Entry<seq<Record>>>,
    performance: Option<Entry<seq<Slot<PerformanceData>>>>,
    details: Option<Entry<seq<Slot<AttributeData>>>>,
    usage: Option<Entry<seq<Slot<Fields>>>>,
    requests: nat)

  /** All four datasets are cached and fresh at `now`. */
  predicate AllFresh(s: State, now: int)
  {
    && Fresh(s.instances, INSTANCE_TTL, now) && Fresh(s.performance, PERFORMANCE_TTL, now)
    && Fresh(s.details, DETAIL_TTL, now) && Fresh(s.usage, USAGE_TTL, now)
  }

  /** The replies to the built requests, or the builder's error. */
  function FannedOut<Q, T>(built: Result<seq<Q>>, call: Q -> Reply<T>): (slots: Result<seq<Slot<T>>>)
  {
    match built
    case Err(e) => Err(e)
    case Ok(requests) => Ok(Responses(call, requests))
  }

  /** The number of requests a fan-out sends: none when building failed. */
  function Sent<Q>(built: Result<seq<Q>>): (count: nat)
  {
    if built.Ok? then |built.value| else 0
  }

  /** A query's cache entry after a miss at `now`: the result stamped `now`,
      or the old entry when the query raised (nothing is cached). */
  function Cached<T>(entry: Option<Entry<T>>, r: Result<T>, now: int): (cached: Option<Entry<T>>)
  {
    if r.Ok? then Some(Entry(r.value, now)) else entry
  }

  /** `query_rds_instance_list` through its cache: a hit returns the cached
      directory; a miss fetches the listing, counts its page requests and
      caches the outcome, the empty list after a failure included. */
  ghost function InstanceListStep(s: State, now: int, config: CollectorConfig, transport: Transport): (step: (State, seq<Record>))
    requires ListingEnds(transport.listInstances, config.pageSize)
  {
    if Fresh(s.instances, INSTANCE_TTL, now) then (s, s.instances.value.value)
    else
      var listed := Listed(transport.listInstances, config.pageSize);
      (s.(instances := Some(Entry(listed, now)), requests := s.requests + FirstStop(transport.listInstances, config.pageSize)), listed)
  }

  /** `query_rds_performance_data_list` through its cache. */
  ghost function PerformanceStep(s: State, now: int, config: CollectorConfig, transport: Transport)
    : (step: (State, Result<seq<Slot<PerformanceData>>>))
    requires ListingEnds(transport.listInstances, config.pageSize)
  {
    if Fresh(s.performance, PERFORMANCE_TTL, now) then (s, Ok(s.performance.value.value))
    else
      var (listed, instances) := InstanceListStep(s, now, config, transport);
      var built := PerformanceRequests(instances, config.performanceList);
      var r := FannedOut(built, transport.performance);
      (listed.(performance := Cached(listed.performance, r, now), requests := listed.requests + Sent(built)), r)
  }

  /** `query_rds_instance_detail_list` through its cache. */
  ghost function DetailStep(s: State, now: int, config: CollectorConfig, transport: Transport)
    : (step: (State, Result<seq<Slot<AttributeData>>>))
    requires ListingEnds(transport.listInstances, config.pageSize)
  {
    if Fresh(s.details, DETAIL_TTL, now) then (s, Ok(s.details.value.value))
    else
      var (listed, instances) := InstanceListStep(s, now, config, transport);
      var built := InstanceRequests(instances, id => AttributeRequest(id));
      var r := FannedOut(built, transport.attribute);
      (listed.(details := Cached(listed.details, r, now), requests := listed.requests + Sent(built)), r)
  }

  /** `query_rds_resource_usage_list` through its cache. */
  ghost function UsageStep(s: State, now: int, config: CollectorConfig, transport: Transport)
    : (step: (State, Result<seq<Slot<Fields>>>))
    requires ListingEnds(transport.listInstances, config.pageSize)
  {
    if Fresh(s.usage, USAGE_TTL, now) then (s, Ok(s.usage.value.value))
    else
      var (listed, instances) := InstanceListStep(s, now, config, transport);
      var built := InstanceRequests(instances, id => UsageRequest(id));
      var r := FannedOut(built, transport.usage);
      (listed.(usage := Cached(listed.usage, r, now), requests := listed.requests + Sent(built)), r)
  }

  /** `generate_rds_performance_metrics`. */
  ghost function PerformanceMetricsStep(s: State, now: int, config: CollectorConfig, transport: Transport)
    : (step: (State, Result<seq<Gauge>>))
    requires ListingEnds(transport.listInstances, config.pageSize)
  {
    var (s1, r) := PerformanceStep(s, now, config, transport);
    (s1, if r.Err? then Err(r.error) else Ok(PerformanceMetrics(r.value)))
  }

  /** `generator_rds_resource_usage_metrics`. */
  ghost function UsageMetricsStep(s: State, now: int, config: CollectorConfig, transport: Transport)
    : (step: (State, Result<seq<Gauge>>))
    requires ListingEnds(transport.listInstances, config.pageSize)
  {
    var (s1, r) := UsageStep(s, now, config, transport);
    (s1, if r.Err? then Err(r.error) else UsageMetrics(r.value))
  }

  /** `generate_rds_status_metrics`. */
  ghost function StatusMetricsStep(s: State, now: int, config: CollectorConfig, transport: Transport)
    : (step: (State, Result<seq<Gauge>>))
    requires ListingEnds(transport.listInstances, config.pageSize)
  {
    var (s1, instances) := InstanceListStep(s, now, config, transport);
    (s1, StatusMetrics(instances))
  }

  /** `generate_rds_detail_metrics`. */
  ghost function DetailMetricsStep(s: State, now: int, config: CollectorConfig, transport: Transport)
    : (step: (State, Result<seq<Gauge>>))
    requires ListingEnds(transport.listInstances, config.pageSize)
  {
    var (s1, r) := DetailStep(s, now, config, transport);
    (s1, if r.Err? then Err(r.error) else DetailMetrics(r.value))
  }

  /** `collect`: the four generators in turn; the first that raises ends the scrape. */
  ghost function ScrapeStep(s: State, now: int, config: CollectorConfig, transport: Transport)
    : (step: (State, Result<seq<Gauge>>))
    requires ListingEnds(transport.listInstances, config.pageSize)
  {
    var p := PerformanceMetricsStep(s, now, config, transport);
    if p.1.Err? then p else
    var u := UsageMetricsStep(p.0, now, config, transport);
    if u.1.Err? then u else
    var st := StatusMetricsStep(u.0, now, config, transport);
    if st.1.Err? then st else
    var d := DetailMetricsStep(st.0, now, config, transport);
    if d.1.Err? then d else
    (d.0, Ok(p.1.value + u.1.value + st.1.value + d.1.value))
  }

  // ---------------------------------------------------------------------
  // What the steps do
  // ---------------------------------------------------------------------

  /** A directory lookup leaves the directory fresh and returns it; a hit
      changes nothing, a miss stores the listed directory stamped `now` after
      exactly the page requests one fetch makes. */
  lemma InstanceListStepFacts(s: State, now: int, config: CollectorConfig, transport: Transport)
    requires ListingEnds(transport.listInstances, config.pageSize)
    ensures var (s1, instances) := InstanceListStep(s, now, config, transport);
      && Fresh(s1.instances, INSTANCE_TTL, now) && s1.instances.value.value == instances
      && s1.performance == s.performance && s1.details == s.details && s1.usage == s.usage
      && (Fresh(s.instances, INSTANCE_TTL, now) ==> s1 == s)
      && (!Fresh(s.instances, INSTANCE_TTL, now) ==>
            && s1.instances == Some(Entry(instances, now))
            && s1.requests >= s.requests
            && DirectoryOutcome(transport.listInstances, config.pageSize, instances, s1.requests - s.requests))
  {
  }

  /** The performance generator changes only the directory, the performance
      cache and the counter; it succeeds exactly when the performance cache
      ends fresh, and then reports that cache's gauges. */
  lemma PerformanceMetricsStepFacts(s: State, now: int, config: CollectorConfig, transport: Transport)
    requires ListingEnds(transport.listInstances, config.pageSize)
    ensures var (s1, r) := PerformanceMetricsStep(s, now, config, transport);
      && (Fresh(s1.performance, PERFORMANCE_TTL, now) ==> r == Ok(PerformanceMetrics(s1.performance.value.value)))
      && (!Fresh(s1.performance, PERFORMANCE_TTL, now) ==> r.Err?)
      && s1.details == s.details && s1.usage == s.usage && s1.requests >= s.requests
      && (Fresh(s.instances, INSTANCE_TTL, now) ==> s1.instances == s.instances)
      && (Fresh(s.performance, PERFORMANCE_TTL, now) ==> s1 == s)
  {
    InstanceListStepFacts(s, now, config, transport);
  }

  /** The usage generator changes only the directory, the usage cache and the
      counter; when the usage cache ends fresh it reports that cache's
      gauges, otherwise it raises. */
  lemma UsageMetricsStepFacts(s: State, now: int, config: CollectorConfig, transport: Transport)
    requires ListingEnds(transport.listInstances, config.pageSize)
    ensures var (s1, r) := UsageMetricsStep(s, now, config, transport);
      && (Fresh(s1.usage, USAGE_TTL, now) ==> r == UsageMetrics(s1.usage.value.value))
      && (!Fresh(s1.usage, USAGE_TTL, now) ==> r.Err?)
      && s1.performance == s.performance && s1.details == s.details && s1.requests >= s.requests
      && (Fresh(s.instances, INSTANCE_TTL, now) ==> s1.instances == s.instances)
      && (Fresh(s.usage, USAGE_TTL, now) ==> s1 == s)
  {
    InstanceListStepFacts(s, now, config, transport);
  }

  /** The status generator leaves the directory fresh and reports its gauges. */
  lemma StatusMetricsStepFacts(s: State, now: int, config: CollectorConfig, transport: Transport)
    requires ListingEnds(transport.listInstances, config.pageSize)
    ensures var (s1, r) := StatusMetricsStep(s, now, config, transport);
      && Fresh(s1.instances, INSTANCE_TTL, now) && r == StatusMetrics(s1.instances.value.value)
      && s1.performance == s.performance && s1.details == s.details && s1.usage == s.usage
      && s1.requests >= s.requests
      && (Fresh(s.instances, INSTANCE_TTL, now) ==> s1 == s)
  {
    InstanceListStepFacts(s, now, config, transport);
  }

  /** The detail generator changes only the directory, the detail cache and
      the counter; when the detail cache ends fresh it reports that cache's
      gauges, otherwise it raises. */
  lemma DetailMetricsStepFacts(s: State, now: int, config: CollectorConfig, transport: Transport)
    requires ListingEnds(transport.listInstances, config.pageSize)
    ensures var (s1, r) := DetailMetricsStep(s, now, config, transport);
      && (Fresh(s1.details, DETAIL_TTL, now) ==> r == DetailMetrics(s1.details.value.value))
      && (!Fresh(s1.details, DETAIL_TTL, now) ==> r.Err?)
      && s1.performance == s.performance && s1.usage == s.usage && s1.requests >= s.requests
      && (Fresh(s.instances, INSTANCE_TTL, now) ==> s1.instances == s.instances)
      && (Fresh(s.details, DETAIL_TTL, now) ==> s1 == s)
  {
    InstanceListStepFacts(s, now, config, transport);
  }

  /** A scrape that ends with all four datasets fresh reports the gauges of
      the cached datasets; otherwise a generator or a request builder raised.
      A scrape while all four are fresh sends nothing and changes nothing. */
  lemma {:induction false} ScrapeOutcome(s: State, now: int, config: CollectorConfig, transport: Transport)
    requires ListingEnds(transport.listInstances, config.pageSize)
    ensures var (s1, r) := ScrapeStep(s, now, config, transport);
      && (AllFresh(s1, now) ==>
            r == CollectGauges(s1.performance.value.value, s1.usage.value.value,
                               s1.instances.value.value, s1.details.value.value))
      && (!AllFresh(s1, now) ==> r.Err?)
      && s1.requests >= s.requests
      && (AllFresh(s, now) ==> s1 == s && r == CollectGauges(s.performance.value.value, s.usage.value.value,
                                                             s.instances.value.value, s.details.value.value))
  {
    var p := PerformanceMetricsStep(s, now, config, transport);
    PerformanceMetricsStepFacts(s, now, config, transport);
    if p.1.Ok? {
      var u := UsageMetricsStep(p.0, now, config, transport);
      UsageMetricsStepFacts(p.0, now, config, transport);
      if u.1.Ok? {
        var st := StatusMetricsStep(u.0, now, config, transport);
        StatusMetricsStepFacts(u.0, now, config, transport);
        if st.1.Ok? {
          DetailMetricsStepFacts(st.0, now, config, transport);
        }
      }
    }
  }

  /** A performance query that missed at `t` and succeeded caches its replies
      stamped `t`; they are served again, with no request, exactly while
      less than 50 seconds have passed. */
  lemma PerformanceKept(s: State, t: int, d: nat, config: CollectorConfig, transport: Transport)
    requires ListingEnds(transport.listInstances, config.pageSize)
    requires !Fresh(s.performance, PERFORMANCE_TTL, t) && PerformanceStep(s, t, config, transport).1.Ok?
    ensures var (s1, r) := PerformanceStep(s, t, config, transport);
      && s1.performance == Some(Entry(r.value, t))
      && (Fresh(s1.performance, PERFORMANCE_TTL, t + d) <==> d < PERFORMANCE_TTL)
      && (d < PERFORMANCE_TTL ==> PerformanceStep(s1, t + d, config, transport) == (s1, r))
  {
  }

  /** The same for the attribute replies and their 50-second lifetime. */
  lemma DetailKept(s: State, t: int, d: nat, config: CollectorConfig, transport: Transport)
    requires ListingEnds(transport.listInstances, config.pageSize)
    requires !Fresh(s.details, DETAIL_TTL, t) && DetailStep(s, t, config, transport).1.Ok?
    ensures var (s1, r) := DetailStep(s, t, config, transport);
      && s1.details == Some(Entry(r.value, t))
      && (Fresh(s1.details, DETAIL_TTL, t + d) <==> d < DETAIL_TTL)
      && (d < DETAIL_TTL ==> DetailStep(s1, t + d, config, transport) == (s1, r))
  {
  }

  /** The same for the resource-usage replies and their 60-second lifetime. */
  lemma UsageKept(s: State, t: int, d: nat, config: CollectorConfig, transport: Transport)
    requires ListingEnds(transport.listInstances, config.pageSize)
    requires !Fresh(s.usage, USAGE_TTL, t) && UsageStep(s, t, config, transport).1.Ok?
    ensures var (s1, r) := UsageStep(s, t, config, transport);
      && s1.usage == Some(Entry(r.value, t))
      && (Fresh(s1.usage, USAGE_TTL, t + d) <==> d < USAGE_TTL)
      && (d < USAGE_TTL ==> UsageStep(s1, t + d, config, transport) == (s1, r))
  {
  }

  /** A refetched directory, the empty one after a failed page included, is
      served again with no request exactly while less than 300 seconds have passed. */
  lemma DirectoryKept(s: State, t: int, d: nat, config: CollectorConfig, transport: Transport)
    requires ListingEnds(transport.listInstances, config.pageSize)
    requires !Fresh(s.instances, INSTANCE_TTL, t)
    ensures var (s1, instances) := InstanceListStep(s, t, config, transport);
      && s1.instances == Some(Entry(Listed(transport.listInstances, config.pageSize), t))
      && (Fresh(s1.instances, INSTANCE_TTL, t + d) <==> d < INSTANCE_TTL)
      && (d < INSTANCE_TTL ==> InstanceListStep(s1, t + d, config, transport) == (s1, instances))
  {
  }

  /** With nothing cached and a first page reporting no records, a scrape
      makes that one page request and nothing else, reports no gauge, and
      leaves every dataset cached as empty at `now`. */
  lemma EmptyDirectoryScrape(s: State, now: int, config: CollectorConfig, transport: Transport)
    requires s.instances.None? && s.performance.None? && s.details.None? && s.usage.None?
    requires transport.listInstances(InstancesRequest(config.pageSize, 1)) == Replied(Page(0, []))
    ensures ListingEnds(transport.listInstances, config.pageSize)
    ensures var (s1, r) := ScrapeStep(s, now, config, transport);
      && r == Ok([]) && s1.requests == s.requests + 1
      && s1 == State(Some(Entry([], now)), Some(Entry([], now)), Some(Entry([], now)), Some(Entry([], now)), s.requests + 1)
  {
    var listPage := transport.listInstances;
    assert Stops(listPage(InstancesRequest(config.pageSize, 1)));
    assert ListingEnds(listPage, config.pageSize);
    assert FirstStop(listPage, config.pageSize) == 1;
    assert Listed(listPage, config.pageSize) == [];
    var empty: seq<Record> := [];
    var listed := s.(instances := Some(Entry(empty, now)), requests := s.requests + 1);
    assert InstanceListStep(s, now, config, transport) == (listed, []);
    assert PerformanceRequests([], config.performanceList) == Ok([]);
    var noPerformance := Responses(transport.performance, []);
    assert |noPerformance| == 0;
    var p := listed.(performance := Some(Entry([], now)));
    assert PerformanceStep(s, now, config, transport) == (p, Ok([]));
    assert PerformanceMetricsStep(s, now, config, transport) == (p, Ok([]));
    var usage := InstanceRequests(empty, id => UsageRequest(id));
    assert usage.Ok? && usage.value == [];
    var noUsage := Responses(transport.usage, []);
    assert |noUsage| == 0;
    var u := p.(usage := Some(Entry([], now)));
    assert InstanceListStep(p, now, config, transport) == (p, []);
    assert UsageStep(p, now, config, transport) == (u, Ok([]));
    assert UsageMetricsStep(p, now, config, transport) == (u, Ok([]));
    assert StatusMetricsStep(u, now, config, transport) == (u, Ok([]));
    var attributes := InstanceRequests(empty, id => AttributeRequest(id));
    assert attributes.Ok? && attributes.value == [];
    var noDetails := Responses(transport.attribute, []);
    assert |noDetails| == 0;
    var d := u.(details := Some(Entry([], now)));
    assert InstanceListStep(u, now, config, transport) == (u, []);
    assert DetailStep(u, now, config, transport) == (d, Ok([]));
    assert DetailMetricsStep(u, now, config, transport) == (d, Ok([]));
    var none: seq<Gauge> := [];
    assert none + none + none + none == [];
  }

  // ---------------------------------------------------------------------
  // The objects
  // ---------------------------------------------------------------------

  /** The one-key `TTLCache` behind a memoised zero-argument query. */
  class TtlCache<T> {
    const ttl: nat
    var entry: Option<Entry<T>>

    constructor (ttl: nat)
      ensures this.ttl == ttl && entry.None?
    {
      this.ttl := ttl;
      entry := None;
    }

    /** A lookup at `now` hits. */
    predicate Live(now: int)
      reads this
    {
      Fresh(entry, ttl, now)
    }

    /** The cached value, when the lookup at `now` hits. */
    method Lookup(now: int) returns (r: Option<T>)
      ensures r.Some? <==> Live(now)
      ensures r.Some? ==> r.value == entry.value.value
    {
      if Live(now) {
        r := Some(entry.value.value);
      } else {
        r := None;
      }
    }

    /** Stores a freshly computed value, replacing any older one. */
    method Store(value: T, now: int)
      modifies this
      ensures entry == Some(Entry(value, now))
    {
      entry := Some(Entry(value, now));
    }
  }

  /** `AliyunRDSCollector`. */
  class RdsCollector {
    const config: CollectorConfig
    /** `aliyun_api_request_counter`: one per remote call, failed or not. */
    var requestCount: nat
    const instanceCache: TtlCache<seq<Record>>
    const performanceCache: TtlCache<seq<Slot<PerformanceData>>>
    const detailCache: TtlCache<seq<Slot<AttributeData>>>
    const usageCache: TtlCache<seq<Slot<Fields>>>

    /** The caches have their fixed lifetimes and are four separate objects. */
    predicate Valid()
    {
      && instanceCache.ttl == INSTANCE_TTL && performanceCache.ttl == PERFORMANCE_TTL
      && detailCache.ttl == DETAIL_TTL && usageCache.ttl == USAGE_TTL
      && instanceCache as object != performanceCache as object
      && instanceCache as object != detailCache as object
      && instanceCache as object != usageCache as object
      && performanceCache as object != detailCache as object
      && performanceCache as object != usageCache as object
      && detailCache as object != usageCache as object
    }

    /** The cache entries and the counter, as a value. */
    function Snapshot(): (s: State)
      reads this, instanceCache, performanceCache, detailCache, usageCache
    {
      State(instanceCache.entry, performanceCache.entry, detailCache.entry, usageCache.entry, requestCount)
    }

    constructor (config: CollectorConfig)
      ensures Valid() && this.config == config
      ensures fresh(instanceCache) && fresh(performanceCache) && fresh(detailCache) && fresh(usageCache)
      ensures Snapshot() == State(None, None, None, None, 0)
    {
      this.config := config;
      requestCount := 0;
      instanceCache := new TtlCache(INSTANCE_TTL);
      performanceCache := new TtlCache(PERFORMANCE_TTL);
      detailCache := new TtlCache(DETAIL_TTL);
      usageCache := new TtlCache(USAGE_TTL);
    }

    /** `aliyun_client_do_action`: one remote call, counted whether it
        succeeds or fails; a failure becomes the `[]` sentinel. */
    method Invoke<Q, T>(call: Q -> Reply<T>, request: Q) returns (slot: Slot<T>)
      modifies this
      ensures slot == SlotOf(call(request))
      ensures slot.Sentinel? <==> call(request).Failed?
      ensures requestCount == old(requestCount) + 1
    {
      var reply := call(request);
      requestCount := requestCount + 1;
      match reply {
        case Failed => slot := Sentinel;
        case Replied(body) => slot := Raw(body);
      }
    }

    /** `list(executor.map(self.aliyun_client_do_action, requests))`: one
        slot per request, in request order. */
    method FanOut<Q, T>(call: Q -> Reply<T>, requests: seq<Q>) returns (slots: seq<Slot<T>>)
      modifies this
      ensures slots == Responses(call, requests)
      ensures requestCount == old(requestCount) + |requests|
    {
      slots := [];
      var i := 0;
      while i < |requests|
        invariant 0 <= i <= |requests|
        invariant slots == Responses(call, requests[..i])
        invariant requestCount == old(requestCount) + i
      {
        var slot := Invoke(call, requests[i]);
        slots := slots + [slot];
        i := i + 1;
      }
      assert requests[..i] == requests;
    }

    /** `query_rds_instance_list` behind its 300-second cache. On a miss the
        pages are fetched until one is empty or a call fails. */
    method QueryInstanceList(now: int, transport: Transport) returns (instances: seq<Record>)
      requires Valid()
      requires ListingEnds(transport.listInstances, config.pageSize)
      modifies this, instanceCache
      ensures (Snapshot(), instances) == InstanceListStep(old(Snapshot()), now, config, transport)
    {
      var cached := instanceCache.Lookup(now);
      if cached.Some? {
        return cached.value;
      }
      var sent;
      instances, sent := FetchDirectory(config.pageSize, transport.listInstances);
      requestCount := requestCount + |sent|;
      instanceCache.Store(instances, now);
    }

    /** `query_rds_performance_data_list` behind its 50-second cache: one
        request per instance and configured key of its engine, sent in
        that order. A KeyError or TypeError while building stores nothing. */
    method QueryPerformanceDataList(now: int, transport: Transport) returns (r: Result<seq<Slot<PerformanceData>>>)
      requires Valid()
      requires ListingEnds(transport.listInstances, config.pageSize)
      modifies this, instanceCache, performanceCache
      ensures (Snapshot(), r) == PerformanceStep(old(Snapshot()), now, config, transport)
    {
      var cached := performanceCache.Lookup(now);
      if cached.Some? {
        return Ok(cached.value);
      }
      var instances := QueryInstanceList(now, transport);
      var requests := BuildPerformanceRequests(instances, config.performanceList);
      if requests.Err? {
        return Err(requests.error);
      }
      var slots := FanOut(transport.performance, requests.value);
      performanceCache.Store(slots, now);
      r := Ok(slots);
    }

    /** `query_rds_instance_detail_list` behind its 50-second cache: one
        attribute request per instance. */
    method QueryInstanceDetailList(now: int, transport: Transport) returns (r: Result<seq<Slot<AttributeData>>>)
      requires Valid()
      requires ListingEnds(transport.listInstances, config.pageSize)
      modifies this, instanceCache, detailCache
      ensures (Snapshot(), r) == DetailStep(old(Snapshot()), now, config, transport)
    {
      var cached := detailCache.Lookup(now);
      if cached.Some? {
        return Ok(cached.value);
      }
      var instances := QueryInstanceList(now, transport);
      var requests := BuildInstanceRequests(instances, id => AttributeRequest(id));
      if requests.Err? {
        return Err(requests.error);
      }
      var slots := FanOut(transport.attribute, requests.value);
      detailCache.Store(slots, now);
      r := Ok(slots);
    }

    /** `query_rds_resource_usage_list` behind its 60-second cache: one
        resource-usage request per instance. */
    method QueryResourceUsageList(now: int, transport: Transport) returns (r: Result<seq<Slot<Fields>>>)
      requires Valid()
      requires ListingEnds(transport.listInstances, config.pageSize)
      modifies this, instanceCache, usageCache
      ensures (Snapshot(), r) == UsageStep(old(Snapshot()), now, config, transport)
    {
      var cached := usageCache.Lookup(now);
      if cached.Some? {
        return Ok(cached.value);
      }
      var instances := QueryInstanceList(now, transport);
      var requests := BuildInstanceRequests(instances, id => UsageRequest(id));
      if requests.Err? {
        return Err(requests.error);
      }
      var slots := FanOut(transport.usage, requests.value);
      usageCache.Store(slots, now);
      r := Ok(slots);
    }

    /** `generate_rds_performance_metrics` over the cached performance results. */
    method GeneratePerformanceMetrics(now: int, transport: Transport) returns (r: Result<seq<Gauge>>)
      requires Valid()
      requires ListingEnds(transport.listInstances, config.pageSize)
      modifies this, instanceCache, performanceCache
      ensures (Snapshot(), r) == PerformanceMetricsStep(old(Snapshot()), now, config, transport)
    {
      var performance := QueryPerformanceDataList(now, transport);
      if performance.Err? {
        return Err(performance.error);
      }
      r := Ok(PerformanceMetrics(performance.value));
    }

    /** `generator_rds_resource_usage_metrics` over the cached usage results. */
    method GenerateResourceUsageMetrics(now: int, transport: Transport) returns (r: Result<seq<Gauge>>)
      requires Valid()
      requires ListingEnds(transport.listInstances, config.pageSize)
      modifies this, instanceCache, usageCache
      ensures (Snapshot(), r) == UsageMetricsStep(old(Snapshot()), now, config, transport)
    {
      var usage := QueryResourceUsageList(now, transport);
      if usage.Err? {
        return Err(usage.error);
      }
      r := UsageMetrics(usage.value);
    }

    /** `generate_rds_status_metrics` over the cached directory. */
    method GenerateStatusMetrics(now: int, transport: Transport) returns (r: Result<seq<Gauge>>)
      requires Valid()
      requires ListingEnds(transport.listInstances, config.pageSize)
      modifies this, instanceCache
      ensures (Snapshot(), r) == StatusMetricsStep(old(Snapshot()), now, config, transport)
    {
      var instances := QueryInstanceList(now, transport);
      r := StatusMetrics(instances);
    }

    /** `generate_rds_detail_metrics` over the cached attribute results. */
    method GenerateDetailMetrics(now: int, transport: Transport) returns (r: Result<seq<Gauge>>)
      requires Valid()
      requires ListingEnds(transport.listInstances, config.pageSize)
      modifies this, instanceCache, detailCache
      ensures (Snapshot(), r) == DetailMetricsStep(old(Snapshot()), now, config, transport)
    {
      var details := QueryInstanceDetailList(now, transport);
      if details.Err? {
        return Err(details.error);
      }
      r := DetailMetrics(details.value);
    }

    /** `collect`: the performance, resource-usage, status and detail
        generators in turn, each reading its query through the caches; the
        first one that raises ends the scrape. `ScrapeOutcome` says what the
        result is: the gauges of the four cached datasets when all of them
        end fresh, otherwise the error of a generator or a request builder. */
    method Collect(now: int, transport: Transport) returns (r: Result<seq<Gauge>>)
      requires Valid()
      requires ListingEnds(transport.listInstances, config.pageSize)
      modifies this, instanceCache, performanceCache, detailCache, usageCache
      ensures (Snapshot(), r) == ScrapeStep(old(Snapshot()), now, config, transport)
    {
      var performance := GeneratePerformanceMetrics(now, transport);
      if performance.Err? {
        return performance;
      }
      var usage := GenerateResourceUsageMetrics(now, transport);
      if usage.Err? {
        return usage;
      }
      var status := GenerateStatusMetrics(now, transport);
      if status.Err? {
        return status;
      }
      var details := GenerateDetailMetrics(now, transport);
      if details.Err? {
        return details;
      }
      r := Ok(performance.value + usage.value + status.value + details.value);
    }
  }

  /** The exporter's use of the collector: build it, then scrape. Against a
      listing whose first page reports no records, a fresh collector's first
      scrape reports no gauge after one request, and a second scrape at the
      same time is served from the caches with no further request. */
  method ScrapeTwiceFromColdStart(config: CollectorConfig, now: int, transport: Transport)
    returns (first: Result<seq<Gauge>>, second: Result<seq<Gauge>>, requests: nat)
    requires transport.listInstances(InstancesRequest(config.pageSize, 1)) == Replied(Page(0, []))
    ensures first == Ok([]) && second == Ok([]) && requests == 1
  {
    EmptyDirectoryScrape(State(None, None, None, None, 0), now, config, transport);
    var collector := new RdsCollector(config);
    first := collector.Collect(now, transport);
    ScrapeOutcome(collector.Snapshot(), now, config, transport);
    second := collector.Collect(now, transport);
    requests := collector.requestCount;
  }
}
