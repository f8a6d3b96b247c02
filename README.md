# aliyun-rds-exporter collector, modelled in Dafny

This project models the collector of the Aliyun RDS Prometheus exporter. It
covers the following parts of `module/collector.py`:

- **Credential check.** `CollectorConfig` refuses a configuration file
  without a `server`, `credential` or `performance_list` section, one whose
  credential section is null, and one whose `access_key_id`,
  `access_key_secret` or `region_id` is missing or null.
- **Directory fetch.** `query_rds_instance_list` pages through
  DescribeDBInstances. It starts at page 1 and stops at the first page that
  reports zero records. Any failed call makes the result the empty directory.
- **Request builders.** Three queries build their request lists from the
  directory:
  - performance: one request per instance and per key configured for the
    instance's engine;
  - attribute: one request per instance;
  - resource usage: one request per instance.
- **Fan-out.** Each request list goes through the invoker
  `aliyun_client_do_action`, which counts every call. A failed call becomes
  the `[]` sentinel.
- **Caches.** The four queries sit behind `TTLCache`s of 300, 50, 50 and 60
  seconds.
- **Generators and `collect`.** Four metric generators turn the cached
  datasets into gauges, and `collect` chains them.

Module layout:

- `values.dfy`: JSON scalars, records, ordered objects, the error kinds and `Result`.
- `text.dfy`: Python's `str.split`, `str.replace` and `str(int)` on one character or integer, with their round trips.
- `api.dfy`: the four remote operations, their decoded responses, and the transport. The transport is a function from request to reply or failure.
- `config.dfy`: `CollectorConfig`.
- `fetch.dfy`: the pagination loop, the request builders and the specification of a fan-out.
- `metrics.dfy`: the four generators and `collect`, as functions from datasets to gauges.
- `collector.dfy`: the `TtlCache` class and the `RdsCollector` class.
  - The class holds the request counter and the four caches.
  - Its methods are the invoker, the fan-out, the four cached queries, the four generators and `Collect`.
  - `State` is the four cache entries and the counter as a value. Each query, generator and whole scrape is also a step function from the old `State` to the new one and the result. Each method is proved to take exactly its step, and the lemmas about the steps say what a scrape does.

### Behaviour the model makes explicit

- **Empty credentials pass.** An empty string counts as set: only `None` is rejected (`Config.EmptyStringsAccepted`). A credential key absent from the file raises `KeyError` instead of the configuration error.
- **Zip truncates.** A value string and a format string whose `&`-pieces differ in number still give gauges: `zip` stops at the shorter list (`Metrics.PerformanceGaugesShape`).
- **Newest value only.** The performance generator uses only the first performance key of a response and the last value of its series.
- **Only the performance generator skips the sentinel.**
  - The detail and resource-usage generators decode every slot, sentinel included.
  - So one failed attribute or usage call raises inside the generator.
  - The exception escapes `collect`, so the whole scrape fails rather than only that instance's gauges (`Metrics.SentinelFailsGenerator`, `Metrics.UsageFailureFailsScrape`).
  - The model gives such a slot the error `SentinelPayload`.
- **Missing fields abort the scrape.** A directory record that is not empty but lacks one of the eleven status fields raises `KeyError`, and so does a detail record lacking memory, id or CPU. Such a record is not skipped: the scrape fails.
- **Failed listing is cached.** A failed directory listing returns `[]`, and that empty directory is cached for the full 300 seconds like any other result.
- **Detail TTL.** The detail cache lives 50 seconds, the usage cache 60.
- **Builder errors are not cached.**
  - A request builder raises `KeyError` on a record without `DBInstanceId` or `Engine`, and on an engine with no configured key list. It raises TypeError on an engine whose key list is written with no value, which YAML reads as null (`Fetch.NullKeyListFailsBuild`).
  - The query then stores nothing, and the scrape fails.

## Model

| member | source | states |
|---|---|---|
| Values.Find | module/collector.py:298-299 | looking a key up in an ordered JSON object finds nothing exactly when no entry has that key, and otherwise returns the value of an entry with that key |
| Text.Split | module/collector.py:196-198 | `split('&')` yields one piece more than there are separators |
| Text.SplitPiecesFree | module/collector.py:196-198 | no piece of `split('&')` contains the separator |
| Text.JoinSplit | module/collector.py:196-198 | joining the pieces of a split with the separator gives back the original string |
| Text.SplitJoin | module/collector.py:196-198 | splitting the join of separator-free pieces gives back exactly those pieces |
| Text.Replace | module/collector.py:200 | `replace('-', '_')` keeps the length, turns every `-` into `_`, leaves no `-`, and keeps every other character in place |
| Text.ReplaceConcat | module/collector.py:200 | replacing in a concatenation is concatenating the replaced parts |
| Text.NatToDecimal | module/collector.py:280 | `str` of a natural number is a non-empty digit string without a leading zero |
| Text.IntToDecimal | module/collector.py:280 | `str` of an integer: a `-` before the digits of its magnitude when negative; `Text.DecimalRoundTrip` shows it reads back as the integer |
| Text.DecimalRoundTrip | module/collector.py:280 | `int(str(n)) == n` for every integer, negative ones included |
| Config.FirstCredentialProblem | module/collector.py:47-54 | checking the three credential entries in order succeeds exactly when all are present and non-null; otherwise the first bad entry decides the error: KeyError when absent, the configuration error when null |
| Config.NewCollectorConfig | module/collector.py:39-54 | the `server`, `credential` and `performance_list` sections are read in that order and the first absent one raises KeyError; a null credential section raises TypeError; then construction succeeds exactly when the credential is complete, keeping the sections, page size and rate limit, and otherwise fails with the credential error or a missing key |
| Config.EmptyStringsAccepted | module/collector.py:47-54 | three empty-string credential entries are accepted |
| Config.NullRegionRejected | module/collector.py:47-54 | a null `region_id` makes construction fail, whatever the other entries are |
| Fetch.FetchDirectory | module/collector.py:72-99 | pages are requested as 1, 2, … with the configured page size; the number of calls is the index of the first page that fails or reports zero records; the result is the in-order concatenation of the items of every page before it, or `[]` when that page failed |
| Fetch.FirstStop | module/collector.py:72-99 | the number of the first page that fails or reports zero records, which is the number of calls one directory fetch makes |
| Fetch.Listed | module/collector.py:72-99 | the directory one fetch yields: the items of every page before the first stopping page, or `[]` when that page failed |
| Fetch.OutcomeIsListed | module/collector.py:72-99 | every possible fetch outcome is `Listed` after `FirstStop` calls |
| Fetch.DirectoryOutcomeUnique | module/collector.py:72-99 | the directory result and the number of calls are determined by the replies |
| Fetch.TwoPagesThenEmpty | module/collector.py:72-99 | pages of 20 and 5 records followed by an empty page give 25 instances after 3 calls |
| Fetch.FailureDiscardsEarlierPages | module/collector.py:79-92 | a failing call at page k after k-1 good pages yields `[]` after exactly k calls, discarding the pages already gathered |
| Fetch.EngineKeys | module/collector.py:110-114 | a record's id and its engine's key list, looked up in the source's order, each lookup raising KeyError, and TypeError for an engine whose key list is null; characterised by `Fetch.PerformanceRequestsDefined` and `Fetch.PerformanceRequestAt` |
| Fetch.PerformanceRequests | module/collector.py:109-122 | the performance request list; its definedness, length and order are `Fetch.PerformanceRequestsDefined`, `Fetch.PerformanceRequestsCount` and `Fetch.PerformanceRequestAt`, and `Fetch.BuildPerformanceRequests` is proved to compute it |
| Fetch.NullKeyListFailsBuild | module/collector.py:113-114 | an instance whose engine is configured with a null key list makes the performance request list raise |
| Fetch.PerformanceRequestsDefined | module/collector.py:110-113 | the performance request list can be built exactly when every record has an id and an engine whose key list is configured |
| Fetch.PerformanceRequestsCount | module/collector.py:110-122 | the performance request list is as long as the sum over instances of the length of their engine's key list |
| Fetch.PerformanceRequestAt | module/collector.py:110-122 | request number (keys of the earlier instances + j) is for instance i's id and the j-th key of its engine: instance-major, key order within an engine |
| Fetch.BuildPerformanceRequests | module/collector.py:110-122 | the nested building loop produces exactly the specified performance request list, or the KeyError, or the TypeError of a null key list, of the first record that cannot be served |
| Fetch.InstanceRequests | module/collector.py:132-152 | one request per instance carrying its id, or KeyError when some record has no id; `Fetch.BuildInstanceRequests` is proved to compute it and states its shape |
| Fetch.SlotOf | module/collector.py:158-174 | the invoker's result for one reply: the body, or the `[]` sentinel for a failure; `Collector.RdsCollector.Invoke` is proved to return it |
| Fetch.Responses | module/collector.py:123-125 | what a fan-out returns: one slot per request in order, the reply or the sentinel; `Collector.RdsCollector.FanOut` is proved to compute it |
| Fetch.BuildInstanceRequests | module/collector.py:132-152 | the attribute and resource-usage loops give one request per instance carrying its id, in directory order, and fail with KeyError exactly when some record has no `DBInstanceId` |
| Metrics.Zip | module/collector.py:199 | `zip` pairs elements index by index up to the shorter list |
| Metrics.ConcatGauges | module/collector.py:213-313 | a generator's loop over its items, each item's gauges in order, ended by the first item that raises; characterised by `Metrics.ConcatGaugesDefined` |
| Metrics.ConcatGaugesDefined | module/collector.py:176-313 | a generator's loop over its items yields its gauges exactly when no item raises |
| Metrics.PerformanceMetricName | module/collector.py:200 | a performance gauge name is the prefix, the key with `-` replaced, `_`, and the sub-metric with `-` replaced, and contains no `-` |
| Metrics.PerformanceGauges | module/collector.py:184-211 | the gauges of one performance response; characterised by `Metrics.PerformanceGaugesSkipped` and `Metrics.PerformanceGaugesShape` |
| Metrics.SlotPerformanceGauges | module/collector.py:181-183 | a failed call's `[]` slot yields no performance gauge, any other slot the gauges of its response; used by `Metrics.PerformanceFailureIsolated` |
| Metrics.PerformanceMetrics | module/collector.py:176-211 | the performance generator: each slot's gauges in slot order, nothing for a sentinel; characterised by `Metrics.FlattenGaugesConcat`, `Metrics.PerformanceFailureIsolated` and `Metrics.PerformanceMetricsFamily` |
| Metrics.PerformanceGaugesSkipped | module/collector.py:187-195 | a performance response yields no gauge exactly when it has no performance key or its first key has no values |
| Metrics.PerformanceGaugesShape | module/collector.py:189-211 | from the first key and its last value: as many gauges as the shorter of the split format and split value, the i-th named after the i-th format piece, labelled `[instanceId, Unit]` with the instance id and unit, valued the i-th value piece |
| Metrics.FlattenGaugesConcat | module/collector.py:180-211 | a generator looping over two runs of items yields the concatenation of what it yields over each run |
| Metrics.FlattenGaugesSkip | module/collector.py:180-183 | an item that yields nothing leaves the gauges of the items before and after it, in order |
| Metrics.PerformanceFailureIsolated | module/collector.py:180-183 | a failed request's slot contributes nothing and leaves the gauges of the other slots, and their order, unchanged |
| Metrics.TwoSubMetrics | module/collector.py:196-211 | a format and a last value of two `&`-pieces each give exactly two gauges, the first piece of each paired, then the second |
| Metrics.DbLoadExample | module/collector.py:189-211 | value `10&20` with format `cpu&mem` for key `db-load`, instance `rm-1`, unit `percent` gives `aliyun_rds_performance_db_load_cpu` = 10 and `..._mem` = 20 |
| Metrics.UsageGauges | module/collector.py:295-313 | the gauges of one resource-usage response; characterised by `Metrics.UsageSeriesMembers`, `Metrics.UsageSeriesConcat` and `Metrics.UsageGaugesCount` |
| Metrics.UsageSeries | module/collector.py:300-313 | the usage loop over a response's entries, one gauge per non-identity entry in key order; characterised by `Metrics.UsageSeriesMembers`, `Metrics.UsageSeriesConcat` and `Metrics.UsageSeriesLength` |
| Metrics.UsageSlotGauges | module/collector.py:294 | decoding a slot: the `[]` sentinel raises, any other slot gives its usage gauges; characterised by `Metrics.SentinelFailsGenerator` |
| Metrics.UsageMetrics | module/collector.py:288-313 | the resource-usage generator, raising on a sentinel; characterised by `Metrics.SentinelFailsGenerator`, `Metrics.ConcatGaugesDefined` and `Metrics.UsageMetricsFamily` |
| Metrics.UsageSeriesMembers | module/collector.py:300-313 | a usage gauge exists exactly for each entry whose key is not `Engine`, `RequestId` or `DBInstanceId`, named `aliyun_rds_resource_usage_<key>`, labelled with the id and engine, valued the entry's value |
| Metrics.UsageSeriesConcat | module/collector.py:300-313 | usage gauges follow the response's key order |
| Metrics.UsageSeriesLength | module/collector.py:300-302 | one usage gauge per entry that is not an identity entry |
| Metrics.IdentityEntriesDistinct | module/collector.py:301 | in an object with distinct keys the identity entries are the identity keys present |
| Metrics.UsageGaugesCount | module/collector.py:295-313 | a usage response of two or more entries whose `DBInstanceId` and `Engine` lookups succeed (otherwise KeyError) yields its size minus two (id and engine) minus one more if `RequestId` is present |
| Metrics.StatusGauges | module/collector.py:215-258 | the status gauge of one directory record, none for an empty record; characterised by `Metrics.StatusMetricsShape` |
| Metrics.StatusMetrics | module/collector.py:213-258 | the status generator; characterised by `Metrics.StatusMetricsShape`, `Metrics.StatusInstanceLabel` and `Metrics.StatusMetricsFamily` |
| Metrics.LookupAll | module/collector.py:243-255 | looking up the status fields succeeds exactly when all are present, gives their values in order, and otherwise fails with KeyError on an absent field |
| Metrics.StatusMetricsShape | module/collector.py:215-258 | the status generator yields exactly one gauge per non-empty directory record, in order, named `aliyun_rds_status`, with the eleven-label schema, the record's values of the eleven fields, and value 1 |
| Metrics.StatusInstanceLabel | module/collector.py:221-246 | the status label `instanceId` carries the record's `DBInstanceId` |
| Metrics.DetailGauges | module/collector.py:262-286 | the detail gauge of one attribute response; characterised by `Metrics.DetailGaugesShape`, `Metrics.DetailMemoryInBytes` and `Metrics.SentinelFailsGenerator` |
| Metrics.DetailMetrics | module/collector.py:260-286 | the detail generator; characterised by `Metrics.SentinelFailsGenerator` and `Metrics.DetailMetricsFamily` |
| Metrics.DetailMemoryInBytes | module/collector.py:263-286 | the detail gauge's memory label reads back as `DBInstanceMemory * 1024 * 1024`; its `instanceId` label is the record's id and its value is 1 |
| Metrics.DetailGaugesShape | module/collector.py:262-286 | an accepted attribute response has a first record; it yields no gauge when that record is empty and otherwise exactly one `aliyun_rds_detail` gauge with label names `DBInstanceMemory`, `instanceId`, `DBInstanceCPU`, whose values are the memory in bytes, the id and the CPU count, and value 1 |
| Metrics.DetailMetricsCount | module/collector.py:262-286 | the detail generator yields one gauge per attribute response whose first record is non-empty |
| Metrics.SentinelFailsGenerator | module/collector.py:260-294 | one sentinel in the attribute or usage results makes that generator raise |
| Metrics.UsageFailureFailsScrape | module/collector.py:288-319 | one failed resource-usage call makes the whole collection fail, whatever the other datasets hold |
| Metrics.PerformanceMetricsFamily | module/collector.py:200 | every performance gauge name carries the performance prefix |
| Metrics.UsageMetricsFamily | module/collector.py:303 | every resource-usage gauge name carries the resource-usage prefix |
| Metrics.StatusMetricsFamily | module/collector.py:238 | every status gauge is named `aliyun_rds_status` |
| Metrics.DetailMetricsFamily | module/collector.py:274 | every detail gauge is named `aliyun_rds_detail` |
| Metrics.CollectGauges | module/collector.py:315-319 | the four generators chained over given datasets, the first error ending the chain; characterised by `Metrics.CollectOrder` and `Metrics.UsageFailureFailsScrape` |
| Metrics.CollectOrder | module/collector.py:315-319 | `collect` yields every performance gauge before every resource-usage gauge, those before every status gauge, and those before every detail gauge |
| Collector.Fresh | module/collector.py:69 | cachetools' expiry rule: an entry is served at `now` exactly when it exists and `now` is before its stamp plus the lifetime; used by every step and by `Collector.TtlCache.Lookup` |
| Collector.Cached | module/collector.py:101-126 | a query that raises stores nothing and a successful one stores its result stamped `now`; used by the query steps and characterised by `Collector.PerformanceKept` |
| Collector.TtlCache.constructor | module/collector.py:69 | a new cache has the given lifetime and holds nothing |
| Collector.TtlCache.Lookup | module/collector.py:69 | a lookup at time `now` hits exactly when the cache is `Live`: a value is stored and `now` is before its store time plus the lifetime; it then returns that value |
| Collector.TtlCache.Store | module/collector.py:69 | storing replaces the entry with the new value stamped `now` |
| Collector.InstanceListStep | module/collector.py:69-99 | the directory query through its 300-second cache, from the old state to the new state and the directory; characterised by `Collector.InstanceListStepFacts` and `Collector.DirectoryKept` |
| Collector.PerformanceStep | module/collector.py:101-126 | the performance query through its 50-second cache: on a miss, the directory step, then the replies to the built requests stored stamped `now` and counted, or the builder's error with nothing stored; characterised by `Collector.PerformanceKept` |
| Collector.DetailStep | module/collector.py:128-142 | the same for the attribute requests, one per instance, with a 50-second lifetime; characterised by `Collector.DetailKept` |
| Collector.UsageStep | module/collector.py:144-156 | the same for the resource-usage requests, one per instance, with a 60-second lifetime; characterised by `Collector.UsageKept` |
| Collector.PerformanceMetricsStep | module/collector.py:176-211 | the performance generator over the performance step; characterised by `Collector.PerformanceMetricsStepFacts` |
| Collector.UsageMetricsStep | module/collector.py:288-313 | the resource-usage generator over the usage step; characterised by `Collector.UsageMetricsStepFacts` |
| Collector.StatusMetricsStep | module/collector.py:213-258 | the status generator over the directory step; characterised by `Collector.StatusMetricsStepFacts` |
| Collector.DetailMetricsStep | module/collector.py:260-286 | the detail generator over the detail step; characterised by `Collector.DetailMetricsStepFacts` |
| Collector.ScrapeStep | module/collector.py:315-319 | `collect` as a step: the four generator steps in turn, the first error ending the scrape; characterised by `Collector.ScrapeOutcome` and `Collector.EmptyDirectoryScrape` |
| Collector.InstanceListStepFacts | module/collector.py:69-99 | after a directory lookup the directory is cached and fresh and is what was returned, and no other cache changes; a hit changes nothing; a miss stores the outcome stamped `now` and adds exactly the page requests of one fetch to the counter |
| Collector.PerformanceMetricsStepFacts | module/collector.py:176-211 | the performance generator touches only the directory, the performance cache and the counter; it succeeds exactly when the performance cache ends fresh, and then its gauges are those of the cached results; a fresh directory is not refetched; a fresh performance cache means nothing changes |
| Collector.UsageMetricsStepFacts | module/collector.py:288-313 | the usage generator touches only the directory, the usage cache and the counter; when the usage cache ends fresh the outcome is the usage transformer of the cached results, otherwise it raised; a fresh usage cache means nothing changes |
| Collector.StatusMetricsStepFacts | module/collector.py:213-258 | the status generator leaves the directory fresh, reports the status gauges of that directory, and touches no other cache |
| Collector.DetailMetricsStepFacts | module/collector.py:260-286 | the detail generator touches only the directory, the detail cache and the counter; when the detail cache ends fresh the outcome is the detail transformer of the cached results, otherwise it raised; a fresh detail cache means nothing changes |
| Collector.ScrapeOutcome | module/collector.py:315-319 | a scrape that ends with all four datasets fresh reports `CollectGauges` of them; otherwise a generator or a request builder raised; the counter never decreases; a scrape while all four are fresh sends nothing, changes nothing and reports their gauges |
| Collector.PerformanceKept | module/collector.py:101 | a performance query that missed at `t` and succeeded stores its replies stamped `t`; they stay fresh at `t + d` exactly when `d < 50`, and a query then returns them with no request and no change |
| Collector.DetailKept | module/collector.py:128 | the same for the attribute replies and 50 seconds |
| Collector.UsageKept | module/collector.py:144 | the same for the resource-usage replies and 60 seconds |
| Collector.DirectoryKept | module/collector.py:69 | a refetched directory, `[]` after a failed page included, is stored stamped `t`; it stays fresh at `t + d` exactly when `d < 300`, and a lookup then returns it with no request and no change |
| Collector.EmptyDirectoryScrape | module/collector.py:315-319 | with nothing cached and a first page reporting no records, a scrape sends that one request, reports no gauge, and caches every dataset as empty at `now` |
| Collector.RdsCollector.constructor | module/collector.py:58-67 | a new collector has a zero request count and four new, separate, empty caches of 300, 50, 50 and 60 seconds |
| Collector.RdsCollector.Invoke | module/collector.py:158-174 | the invoker returns the response when the call succeeds and the sentinel exactly when it fails, and counts one request either way |
| Collector.RdsCollector.FanOut | module/collector.py:123-125 | a fan-out returns one slot per request in request order, each the invoker's result for that request, and counts one request per request |
| Collector.RdsCollector.QueryInstanceList | module/collector.py:69-99 | the new cache entries, counter and result are exactly `Collector.InstanceListStep` of the old ones |
| Collector.RdsCollector.QueryPerformanceDataList | module/collector.py:101-126 | the new cache entries, counter and result are exactly `Collector.PerformanceStep` of the old ones |
| Collector.RdsCollector.QueryInstanceDetailList | module/collector.py:128-142 | the new cache entries, counter and result are exactly `Collector.DetailStep` of the old ones |
| Collector.RdsCollector.QueryResourceUsageList | module/collector.py:144-156 | the new cache entries, counter and result are exactly `Collector.UsageStep` of the old ones |
| Collector.RdsCollector.GeneratePerformanceMetrics | module/collector.py:176-211 | the new cache entries, counter and result are exactly `Collector.PerformanceMetricsStep` of the old ones |
| Collector.RdsCollector.GenerateResourceUsageMetrics | module/collector.py:288-313 | the new cache entries, counter and result are exactly `Collector.UsageMetricsStep` of the old ones |
| Collector.RdsCollector.GenerateStatusMetrics | module/collector.py:213-258 | the new cache entries, counter and result are exactly `Collector.StatusMetricsStep` of the old ones |
| Collector.RdsCollector.GenerateDetailMetrics | module/collector.py:260-286 | the new cache entries, counter and result are exactly `Collector.DetailMetricsStep` of the old ones |
| Collector.RdsCollector.Collect | module/collector.py:315-319 | the new cache entries, counter and result are exactly `Collector.ScrapeStep` of the old ones, so `Collector.ScrapeOutcome` and `Collector.EmptyDirectoryScrape` hold of every scrape |
| Collector.ScrapeTwiceFromColdStart | module/collector.py:315-319 | a new collector scraped twice at the same time over a listing whose first page is empty reports no gauge both times and sends exactly one request |

## Left out

- The HTTP server, metric registration and `serve_forever` of `main.py`: plumbing around `collect`.
- Command-line parsing and YAML loading of `tools.py`: file I/O. The model starts from the parsed options.
- The signed-RPC client and the request classes. They are a transport function per operation, whose replies are already decoded into typed payloads. JSON decoding, `.decode('utf-8')`, and payloads that do not match their schema are not modelled. An empty byte-string response, which the performance generator would also skip, is not modelled either.
- The thread pool and its width of 50. Only the order-preserving collation of `executor.map` is kept, as a sequential loop.
- Latency summaries, `datetime`, the `strftime` time window of the performance requests, logging and `sys.getsizeof`: clock readings, floats and output. The request counter is kept as an integer.
- The clock. It is one parameter `now` per call: the model treats a scrape as instantaneous, so a value is stamped with the time of its lookup rather than the slightly later time of its store.
- The caches' `maxsize`. Each cache holds a single key, far below its size bound.
- Gauge values are the strings or integers the code passes along. The float conversion inside `GaugeMetricFamily` is not modelled.
- `rate_limit` is stored but never used by the collector. `command_args` is not modelled.
- A `DBInstanceMemory` given as a JSON string: Python would repeat the string, and `int` would then parse or raise. The model reports it as `NotANumber`.
- Nested JSON values inside the records: fields are strings or integers.
- Fetch.FetchDirectory: requires that some page eventually ends the listing. The source loops forever against a remote end that never returns an empty page or an error. The cached queries and `Collect` carry the same requirement.
- A null `performance_list:` section. The source stores `None`, and the first performance query with an instance in the directory raises TypeError. The model takes that section as a mapping whenever it is present; an absent one is modelled.
- Where the counter and the caches live. The source's counter is the module-level `api_request_count`, and each cache is created once with the class by its decorator and keyed by the collector object. The model keeps them as fields of the one collector object; this is the same for the single collector the exporter builds, but not for several collectors in one process.
- Concurrent scrapes racing on a cache entry are not modelled: the model runs one scrape at a time.
