/** The metric transformers: each turns one cached dataset into gauges,
    and `collect` chains them. A generator that raises is an `Err`: the
    scrape then fails as a whole. */
module Metrics {
  import opened Values
  import opened Text
  import opened Api

  /** A `GaugeMetricFamily` holding its one sample. */
  datatype Gauge = Gauge(name: string, labelNames: seq<string>, labelValues: seq<Scalar>, value: Scalar)

  const PERFORMANCE_PREFIX: string := "aliyun_rds_performance_"
  const USAGE_PREFIX: string := "aliyun_rds_resource_usage_"
  const STATUS_NAME: string := "aliyun_rds_status"
  const DETAIL_NAME: string := "aliyun_rds_detail"

  const PERFORMANCE_LABELS: seq<string> := ["instanceId", "Unit"]
  const USAGE_LABELS: seq<string> := ["instanceId", "Engine"]
  const DETAIL_LABELS: seq<string> := ["DBInstanceMemory", "instanceId", "DBInstanceCPU"]

  /** The directory fields a status gauge reports, in label order. */
  const STATUS_KEYS: seq<string> := [
    "CreateTime", "DBInstanceDescription", "DBInstanceId", "DBInstanceStatus", "DBInstanceType",
    "Engine", "EngineVersion", "ExpireTime", "LockMode", "PayType", "RegionId"]

  /** The status label names: the fields above, with the id labelled `instanceId`. */
  const STATUS_LABELS: seq<string> := [
    "CreateTime", "DBInstanceDescription", "instanceId", "DBInstanceStatus", "DBInstanceType",
    "Engine", "EngineVersion", "ExpireTime", "LockMode", "PayType", "RegionId"]

  predicate HasPrefix(s: string, prefix: string)
  {
    |prefix| <= |s| && s[..|prefix|] == prefix
  }

  /** Python's `zip`: pairs up to the shorter of the two sequences. */
  function Zip<A, B>(xs: seq<A>, ys: seq<B>): (pairs: seq<(A, B)>)
    ensures |pairs| == if |xs| <= |ys| then |xs| else |ys|
    ensures forall i :: 0 <= i < |pairs| ==> pairs[i] == (xs[i], ys[i])
  {
    if |xs| == 0 || |ys| == 0 then [] else [(xs[0], ys[0])] + Zip(xs[1..], ys[1..])
  }

  /** Concatenates the gauges `gen` yields for each item in order; the
      first item whose generator raises makes the whole result that error. */
  function ConcatGauges<T>(items: seq<T>, gen: T -> Result<seq<Gauge>>): (gauges: Result<seq<Gauge>>)
  {
    if |items| == 0 then Ok([])
    else match gen(items[0])
      case Err(e) => Err(e)
      case Ok(first) =>
        match ConcatGauges(items[1..], gen)
        case Err(e) => Err(e)
        case Ok(rest) => Ok(first + rest)
  }

  /** The concatenation succeeds exactly when every item's generator does. */
  lemma {:induction false} ConcatGaugesDefined<T>(items: seq<T>, gen: T -> Result<seq<Gauge>>)
    ensures ConcatGauges(items, gen).Ok? <==> forall i :: 0 <= i < |items| ==> gen(items[i]).Ok?
  {
    if |items| > 0 {
      ConcatGaugesDefined(items[1..], gen);
      assert forall i :: 1 <= i < |items| ==> items[i] == items[1..][i - 1];
    }
  }

  // ---------------------------------------------------------------------
  // Performance
  // ---------------------------------------------------------------------

  /** The gauge name for sub-metric `subName` of performance key `key`:
      the whole name with every `-` replaced by `_`. */
  function PerformanceMetricName(key: string, subName: string): (name: string)
    ensures name == PERFORMANCE_PREFIX + Replace(key, '-', '_') + "_" + Replace(subName, '-', '_')
    ensures '-' !in name
  {
    ReplaceConcat("aliyun_rds_performance" + "_" + key + "_", subName, '-', '_');
    ReplaceConcat("aliyun_rds_performance" + "_" + key, "_", '-', '_');
    ReplaceConcat("aliyun_rds_performance" + "_", key, '-', '_');
    ReplaceAbsent("aliyun_rds_performance" + "_", '-', '_');
    ReplaceAbsent("_", '-', '_');
    Replace("aliyun_rds_performance" + "_" + key + "_" + subName, '-', '_')
  }

  /** The gauges of one performance response: from the first key only and
      the last value of its series, one gauge per sub-metric, pairing the
      `&`-split value format with the `&`-split value. */
  function PerformanceGauges(data: PerformanceData): (gauges: seq<Gauge>)
  {
    if |data.keys| == 0 then []
    else
      var key := data.keys[0];
      if |key.values| == 0 then []
      else
        var pairs := Zip(Split(key.valueFormat, '&'), Split(key.values[|key.values| - 1].value, '&'));
        seq(|pairs|, i requires 0 <= i < |pairs| =>
          Gauge(PerformanceMetricName(key.key, pairs[i].0), PERFORMANCE_LABELS,
                [Text(data.instanceId), Text(key.unit)], Text(pairs[i].1)))
  }

  function SlotPerformanceGauges(slot: Slot<PerformanceData>): (gauges: seq<Gauge>)
  {
    match slot
    case Sentinel => []
    case Raw(data) => PerformanceGauges(data)
  }

  /** The gauges `gen` yields for each item, concatenated in item order. */
  function FlattenGauges<T>(items: seq<T>, gen: T -> seq<Gauge>): (gauges: seq<Gauge>)
  {
    if |items| == 0 then [] else gen(items[0]) + FlattenGauges(items[1..], gen)
  }

  /** `generate_rds_performance_metrics` over the performance fan-out result. */
  function PerformanceMetrics(slots: seq<Slot<PerformanceData>>): (gauges: seq<Gauge>)
  {
    FlattenGauges(slots, SlotPerformanceGauges)
  }

  /** A response yields nothing exactly when it has no performance key or
      its first key has no values. */
  lemma PerformanceGaugesSkipped(data: PerformanceData)
    ensures PerformanceGauges(data) == [] <==> |data.keys| == 0 || |data.keys[0].values| == 0
  {
  }

  /** The gauges of a usable response: as many as the shorter of the two
      split lists, each named after its sub-metric and labelled with the
      instance id and the unit. */
  lemma PerformanceGaugesShape(data: PerformanceData)
    requires |data.keys| > 0 && |data.keys[0].values| > 0
    ensures var key := data.keys[0];
      var formats := Split(key.valueFormat, '&');
      var values := Split(key.values[|key.values| - 1].value, '&');
      var gauges := PerformanceGauges(data);
      && |gauges| == (if |formats| <= |values| then |formats| else |values|)
      && forall i :: 0 <= i < |formats| && i < |values| ==>
        gauges[i] == Gauge(PERFORMANCE_PREFIX + Replace(key.key, '-', '_') + "_" + Replace(formats[i], '-', '_'),
                           ["instanceId", "Unit"], [Text(data.instanceId), Text(key.unit)], Text(values[i]))
  {
  }

  /** Flattening two runs of items is concatenating their gauges. */
  lemma {:induction false} FlattenGaugesConcat<T>(a: seq<T>, b: seq<T>, gen: T -> seq<Gauge>)
    ensures FlattenGauges(a + b, gen) == FlattenGauges(a, gen) + FlattenGauges(b, gen)
  {
    if |a| == 0 {
      assert a + b == b;
    } else {
      assert (a + b)[0] == a[0] && (a + b)[1..] == a[1..] + b;
      FlattenGaugesConcat(a[1..], b, gen);
    }
  }

  /** An item that yields nothing leaves the gauges of the items around it
      as they are. */
  lemma FlattenGaugesSkip<T>(before: seq<T>, item: T, after: seq<T>, gen: T -> seq<Gauge>)
    requires gen(item) == []
    ensures FlattenGauges(before + [item] + after, gen) == FlattenGauges(before, gen) + FlattenGauges(after, gen)
  {
    FlattenGaugesConcat(before + [item], after, gen);
    FlattenGaugesConcat(before, [item], gen);
    FlattenGaugesSingle(item, gen);
  }

  lemma FlattenGaugesSingle<T>(item: T, gen: T -> seq<Gauge>)
    ensures FlattenGauges([item], gen) == gen(item)
  {
    assert [item][1..] == [];
  }

  /** A failed request's slot contributes nothing and leaves the gauges of
      the slots around it as they are. */
  lemma PerformanceFailureIsolated(slots: seq<Slot<PerformanceData>>, k: nat)
    requires k < |slots| && slots[k].Sentinel?
    ensures PerformanceMetrics(slots) == PerformanceMetrics(slots[..k]) + PerformanceMetrics(slots[k + 1..])
  {
    assert slots == slots[..k] + [slots[k]] + slots[k + 1..];
    FlattenGaugesSkip(slots[..k], slots[k], slots[k + 1..], SlotPerformanceGauges);
  }

  /** A response whose format and last value both hold two `&`-separated
      pieces gives two gauges, pairing the pieces in order. */
  lemma TwoSubMetrics(data: PerformanceData, format1: string, format2: string, value1: string, value2: string)
    requires |data.keys| > 0 && |data.keys[0].values| > 0
    requires data.keys[0].valueFormat == format1 + "&" + format2 && '&' !in format1 && '&' !in format2
    requires data.keys[0].values[|data.keys[0].values| - 1].value == value1 + "&" + value2
    requires '&' !in value1 && '&' !in value2
    ensures var key := data.keys[0];
      var labels := [Text(data.instanceId), Text(key.unit)];
      PerformanceGauges(data) == [Gauge(PerformanceMetricName(key.key, format1), PERFORMANCE_LABELS, labels, Text(value1)),
                                  Gauge(PerformanceMetricName(key.key, format2), PERFORMANCE_LABELS, labels, Text(value2))]
  {
    TwoPieces(format1, format2);
    TwoPieces(value1, value2);
    PerformanceGaugesShape(data);
  }

  lemma TwoPieces(first: string, second: string)
    requires '&' !in first && '&' !in second
    ensures Split(first + "&" + second, '&') == [first, second]
  {
    assert Join([first, second], '&') == first + "&" + second;
    SplitJoin([first, second], '&');
  }

  /** Value "10&20" with format "cpu&mem" for key "db-load" of instance
      "rm-1" in unit "percent" gives two gauges, db_load_cpu = 10 and
      db_load_mem = 20. */
  lemma DbLoadExample(data: PerformanceData, date: string)
    requires data == PerformanceData("rm-1", [PerformanceKey("db-load", "percent", "cpu&mem", [PerformanceValue("10&20", date)])])
    ensures PerformanceGauges(data)
         == [Gauge("aliyun_rds_performance_db_load_cpu", ["instanceId", "Unit"], [Text("rm-1"), Text("percent")], Text("10")),
             Gauge("aliyun_rds_performance_db_load_mem", ["instanceId", "Unit"], [Text("rm-1"), Text("percent")], Text("20"))]
  {
    assert "cpu&mem" == "cpu" + "&" + "mem" && "10&20" == "10" + "&" + "20";
    TwoSubMetrics(data, "cpu", "mem", "10", "20");
    ExampleNames();
  }

  lemma ExampleNames()
    ensures PerformanceMetricName("db-load", "cpu") == "aliyun_rds_performance_db_load_cpu"
    ensures PerformanceMetricName("db-load", "mem") == "aliyun_rds_performance_db_load_mem"
  {
    var key := Replace("db-load", '-', '_');
    assert key[2] == '_';
    ReplaceAbsent("cpu", '-', '_');
    ReplaceAbsent("mem", '-', '_');
  }

  // ---------------------------------------------------------------------
  // Resource usage
  // ---------------------------------------------------------------------

  /** The entries of a usage response that are not reported as gauges. */
  predicate IsIdentityKey(key: string)
  {
    key == "Engine" || key == "RequestId" || key == "DBInstanceId"
  }

  function UsageGauge(key: string, value: Scalar, instanceId: Scalar, engine: Scalar): (g: Gauge)
  {
    Gauge(USAGE_PREFIX + key, USAGE_LABELS, [instanceId, engine], value)
  }

  /** One gauge per non-identity entry, in the response's key order. */
  function UsageSeries(fields: seq<(string, Scalar)>, instanceId: Scalar, engine: Scalar): (gauges: seq<Gauge>)
  {
    if |fields| == 0 then []
    else
      (if IsIdentityKey(fields[0].0) then [] else [UsageGauge(fields[0].0, fields[0].1, instanceId, engine)])
      + UsageSeries(fields[1..], instanceId, engine)
  }

  /** The gauges of one usage response: none for an object of fewer than
      two entries; otherwise the id and the engine are looked up (KeyError
      if absent) and label a gauge for every other entry. */
  function UsageGauges(fields: Fields): (gauges: Result<seq<Gauge>>)
  {
    if |fields| <= 1 then Ok([])
    else match Find(fields, "DBInstanceId")
      case None => Err(MissingKey("DBInstanceId"))
      case Some(instanceId) =>
        match Find(fields, "Engine")
        case None => Err(MissingKey("Engine"))
        case Some(engine) => Ok(UsageSeries(fields, instanceId, engine))
  }

  /** Decoding a slot: the `[]` sentinel has no `decode` and raises. */
  function UsageSlotGauges(slot: Slot<Fields>): (gauges: Result<seq<Gauge>>)
  {
    match slot
    case Sentinel => Err(SentinelPayload)
    case Raw(fields) => UsageGauges(fields)
  }

  /** `generator_rds_resource_usage_metrics` over the usage fan-out result. */
  function UsageMetrics(slots: seq<Slot<Fields>>): (gauges: Result<seq<Gauge>>)
  {
    ConcatGauges(slots, UsageSlotGauges)
  }

  /** Every gauge comes from a non-identity entry, and every non-identity
      entry gives one. */
  lemma {:induction false} UsageSeriesMembers(fields: seq<(string, Scalar)>, instanceId: Scalar, engine: Scalar, g: Gauge)
    ensures g in UsageSeries(fields, instanceId, engine) <==>
      exists i :: 0 <= i < |fields| && !IsIdentityKey(fields[i].0) && g == UsageGauge(fields[i].0, fields[i].1, instanceId, engine)
  {
    if |fields| > 0 {
      UsageSeriesMembers(fields[1..], instanceId, engine, g);
      assert forall i :: 1 <= i < |fields| ==> fields[i] == fields[1..][i - 1];
      if exists i :: 0 <= i < |fields| && !IsIdentityKey(fields[i].0) && g == UsageGauge(fields[i].0, fields[i].1, instanceId, engine) {
        var i :| 0 <= i < |fields| && !IsIdentityKey(fields[i].0) && g == UsageGauge(fields[i].0, fields[i].1, instanceId, engine);
        if i > 0 {
          assert fields[1..][i - 1] == fields[i];
        }
      }
    }
  }

  /** Usage gauges keep the response's key order: the entries of an
      earlier part of the mapping are reported first. */
  lemma {:induction false} UsageSeriesConcat(a: seq<(string, Scalar)>, b: seq<(string, Scalar)>, instanceId: Scalar, engine: Scalar)
    ensures UsageSeries(a + b, instanceId, engine) == UsageSeries(a, instanceId, engine) + UsageSeries(b, instanceId, engine)
  {
    if |a| == 0 {
      assert a + b == b;
    } else {
      assert (a + b)[0] == a[0] && (a + b)[1..] == a[1..] + b;
      UsageSeriesConcat(a[1..], b, instanceId, engine);
    }
  }

  /** The number of identity entries. */
  function IdentityEntries(fields: seq<(string, Scalar)>): (count: nat)
  {
    if |fields| == 0 then 0 else (if IsIdentityKey(fields[0].0) then 1 else 0) + IdentityEntries(fields[1..])
  }

  function Present(fields: seq<(string, Scalar)>, key: string): (count: nat)
  {
    if Find(fields, key).Some? then 1 else 0
  }

  lemma {:induction false} UsageSeriesLength(fields: seq<(string, Scalar)>, instanceId: Scalar, engine: Scalar)
    ensures |UsageSeries(fields, instanceId, engine)| == |fields| - IdentityEntries(fields)
  {
    if |fields| > 0 {
      UsageSeriesLength(fields[1..], instanceId, engine);
    }
  }

  /** With distinct keys, the identity entries are the identity keys present. */
  lemma {:induction false} IdentityEntriesDistinct(fields: seq<(string, Scalar)>)
    requires DistinctKeys(fields)
    ensures IdentityEntries(fields) == Present(fields, "Engine") + Present(fields, "RequestId") + Present(fields, "DBInstanceId")
  {
    if |fields| > 0 {
      var rest := fields[1..];
      assert DistinctKeys(rest) by {
        forall i, j | 0 <= i < j < |rest| ensures rest[i].0 != rest[j].0 {
          assert rest[i] == fields[i + 1] && rest[j] == fields[j + 1];
        }
      }
      IdentityEntriesDistinct(rest);
      assert Find(rest, fields[0].0).None? by {
        forall i | 0 <= i < |rest| ensures rest[i].0 != fields[0].0 {
          assert rest[i] == fields[i + 1];
        }
      }
    }
  }

  /** A usage response with its id and engine yields one gauge per entry
      other than `Engine`, `DBInstanceId` and, when present, `RequestId`. */
  lemma UsageGaugesCount(fields: Fields)
    requires |fields| >= 2 && UsageGauges(fields).Ok?
    ensures |UsageGauges(fields).value| == |fields| - 2 - Present(fields, "RequestId")
  {
    var instanceId := Find(fields, "DBInstanceId").value;
    var engine := Find(fields, "Engine").value;
    UsageSeriesLength(fields, instanceId, engine);
    IdentityEntriesDistinct(fields);
  }

  // ---------------------------------------------------------------------
  // Status
  // ---------------------------------------------------------------------

  /** The values of `keys` in `record`, in order; the first absent key raises KeyError. */
  function LookupAll(record: Record, keys: seq<string>): (r: Result<seq<Scalar>>)
    ensures r.Ok? <==> forall i :: 0 <= i < |keys| ==> keys[i] in record
    ensures r.Ok? ==> |r.value| == |keys| && forall i :: 0 <= i < |keys| ==> r.value[i] == record[keys[i]]
    ensures r.Err? ==> exists i :: 0 <= i < |keys| && keys[i] !in record && r.error == MissingKey(keys[i])
  {
    if |keys| == 0 then Ok([])
    else if keys[0] !in record then Err(MissingKey(keys[0]))
    else
      var rest := LookupAll(record, keys[1..]);
      assert forall i :: 1 <= i < |keys| ==> keys[i] == keys[1..][i - 1];
      match rest
      case Err(e) => Err(e)
      case Ok(values) => Ok([record[keys[0]]] + values)
  }

  /** The status gauge of one directory record; nothing for an empty record. */
  function StatusGauges(record: Record): (gauges: Result<seq<Gauge>>)
  {
    if |record| == 0 then Ok([])
    else match LookupAll(record, STATUS_KEYS)
      case Err(e) => Err(e)
      case Ok(values) => Ok([Gauge(STATUS_NAME, STATUS_LABELS, values, Number(1))])
  }

  /** `generate_rds_status_metrics` over the instance directory. */
  function StatusMetrics(instances: seq<Record>): (gauges: Result<seq<Gauge>>)
  {
    ConcatGauges(instances, StatusGauges)
  }

  function NonEmptyRecords(instances: seq<Record>): (shown: seq<Record>)
  {
    if |instances| == 0 then []
    else (if |instances[0]| == 0 then [] else [instances[0]]) + NonEmptyRecords(instances[1..])
  }

  /** The status gauge of a record reports each status field under its
      label, with the record's DBInstanceId as `instanceId`, and value 1. */
  predicate IsStatusGauge(g: Gauge, record: Record)
  {
    && g.name == STATUS_NAME
    && g.labelNames == STATUS_LABELS
    && g.value == Number(1)
    && |g.labelValues| == |STATUS_KEYS|
    && (forall k :: 0 <= k < |STATUS_KEYS| ==> STATUS_KEYS[k] in record && g.labelValues[k] == record[STATUS_KEYS[k]])
  }

  /** The status transformer yields exactly one gauge per non-empty record,
      in directory order. */
  lemma {:induction false} StatusMetricsShape(instances: seq<Record>)
    requires StatusMetrics(instances).Ok?
    ensures var gauges := StatusMetrics(instances).value;
      var shown := NonEmptyRecords(instances);
      && |gauges| == |shown|
      && forall i :: 0 <= i < |gauges| ==> IsStatusGauge(gauges[i], shown[i])
  {
    if |instances| > 0 {
      var record := instances[0];
      StatusMetricsShape(instances[1..]);
      StatusRecordShape(record);
      var head := StatusGauges(record).value;
      var rest := StatusMetrics(instances[1..]).value;
      var shownRest := NonEmptyRecords(instances[1..]);
      assert StatusMetrics(instances).value == head + rest;
      if |record| == 0 {
        assert NonEmptyRecords(instances) == shownRest;
        assert head + rest == rest;
      } else {
        assert NonEmptyRecords(instances) == [record] + shownRest;
        forall i | 0 <= i < |head + rest| ensures IsStatusGauge((head + rest)[i], ([record] + shownRest)[i]) {
          if i > 0 {
            assert (head + rest)[i] == rest[i - 1];
          }
        }
      }
    }
  }

  /** A non-empty record yields exactly one status gauge, an empty one none. */
  lemma StatusRecordShape(record: Record)
    requires StatusGauges(record).Ok?
    ensures |record| == 0 ==> StatusGauges(record).value == []
    ensures |record| > 0 ==> |StatusGauges(record).value| == 1 && IsStatusGauge(StatusGauges(record).value[0], record)
  {
  }

  /** The status gauge's `instanceId` label is the record's DBInstanceId. */
  lemma StatusInstanceLabel(g: Gauge, record: Record)
    requires IsStatusGauge(g, record)
    ensures g.labelNames[2] == "instanceId" && "DBInstanceId" in record && g.labelValues[2] == record["DBInstanceId"]
  {
    assert STATUS_KEYS[2] == "DBInstanceId";
  }

  // ---------------------------------------------------------------------
  // Details
  // ---------------------------------------------------------------------

  /** The detail gauge of one attribute slot: the sentinel raises on decode,
      an empty attribute list raises IndexError, an empty first record is
      skipped; memory is reported in bytes as a decimal string. */
  function DetailGauges(slot: Slot<AttributeData>): (gauges: Result<seq<Gauge>>)
  {
    match slot
    case Sentinel => Err(SentinelPayload)
    case Raw(data) =>
      if |data.attributes| == 0 then Err(EmptyAttributeList)
      else
        var record := data.attributes[0];
        if |record| == 0 then Ok([])
        else if "DBInstanceMemory" !in record then Err(MissingKey("DBInstanceMemory"))
        else if !record["DBInstanceMemory"].Number? then Err(NotANumber("DBInstanceMemory"))
        else if "DBInstanceId" !in record then Err(MissingKey("DBInstanceId"))
        else if "DBInstanceCPU" !in record then Err(MissingKey("DBInstanceCPU"))
        else
          var bytes := record["DBInstanceMemory"].number * 1024 * 1024;
          Ok([Gauge(DETAIL_NAME, DETAIL_LABELS, [Text(IntToDecimal(bytes)), record["DBInstanceId"], record["DBInstanceCPU"]], Number(1))])
  }

  /** `generate_rds_detail_metrics` over the attribute fan-out result. */
  function DetailMetrics(slots: seq<Slot<AttributeData>>): (gauges: Result<seq<Gauge>>)
  {
    ConcatGauges(slots, DetailGauges)
  }

  /** The memory label of a detail gauge reads back as the instance's
      memory times 1024 * 1024. */
  lemma DetailMemoryInBytes(data: AttributeData)
    requires DetailGauges(Raw(data)).Ok? && |DetailGauges(Raw(data)).value| == 1
    ensures var record := data.attributes[0];
      var g := DetailGauges(Raw(data)).value[0];
      && "DBInstanceMemory" in record && record["DBInstanceMemory"].Number?
      && g.labelValues[0].Text?
      && ParseDecimal(g.labelValues[0].text) == Some(record["DBInstanceMemory"].number * 1048576)
      && g.labelValues[1] == record["DBInstanceId"] && g.value == Number(1)
  {
    var record := data.attributes[0];
    DecimalRoundTrip(record["DBInstanceMemory"].number * 1024 * 1024);
  }

  /** An attribute response that the detail transformer accepts has a first
      record; it yields no gauge when that record is empty and otherwise
      one gauge, named and labelled as the detail gauge, carrying the
      memory in bytes, the instance id and the CPU count, with value 1. */
  lemma DetailGaugesShape(data: AttributeData)
    requires DetailGauges(Raw(data)).Ok?
    ensures |data.attributes| > 0
    ensures |DetailGauges(Raw(data)).value| == if |data.attributes[0]| == 0 then 0 else 1
    ensures |data.attributes[0]| > 0 ==>
      var record := data.attributes[0];
      var g := DetailGauges(Raw(data)).value[0];
      && g.name == DETAIL_NAME && g.labelNames == DETAIL_LABELS && g.value == Number(1)
      && |g.labelValues| == 3
      && "DBInstanceMemory" in record && record["DBInstanceMemory"].Number? && g.labelValues[0].Text?
      && ParseDecimal(g.labelValues[0].text) == Some(record["DBInstanceMemory"].number * 1048576)
      && "DBInstanceId" in record && g.labelValues[1] == record["DBInstanceId"]
      && "DBInstanceCPU" in record && g.labelValues[2] == record["DBInstanceCPU"]
  {
    if |data.attributes[0]| > 0 {
      DetailMemoryInBytes(data);
    }
  }

  /** The number of attribute responses whose first record is non-empty. */
  function DetailShown(slots: seq<Slot<AttributeData>>): (count: nat)
  {
    if |slots| == 0 then 0
    else
      (if slots[0].Raw? && |slots[0].payload.attributes| > 0 && |slots[0].payload.attributes[0]| > 0 then 1 else 0)
      + DetailShown(slots[1..])
  }

  /** The detail transformer yields one gauge per response whose first
      record is non-empty. */
  lemma {:induction false} DetailMetricsCount(slots: seq<Slot<AttributeData>>)
    requires DetailMetrics(slots).Ok?
    ensures |DetailMetrics(slots).value| == DetailShown(slots)
  {
    if |slots| > 0 {
      assert DetailGauges(slots[0]).Ok?;
      DetailGaugesShape(slots[0].payload);
      DetailMetricsCount(slots[1..]);
    }
  }

  /** One failed attribute or usage call fails the whole detail or usage
      generator: the sentinel is decoded, not skipped. */
  lemma SentinelFailsGenerator(details: seq<Slot<AttributeData>>, usage: seq<Slot<Fields>>)
    ensures (exists i :: 0 <= i < |details| && details[i].Sentinel?) ==> DetailMetrics(details).Err?
    ensures (exists i :: 0 <= i < |usage| && usage[i].Sentinel?) ==> UsageMetrics(usage).Err?
  {
    ConcatGaugesDefined(details, DetailGauges);
    ConcatGaugesDefined(usage, UsageSlotGauges);
  }

  // ---------------------------------------------------------------------
  // collect
  // ---------------------------------------------------------------------

  /** A failed resource-usage call fails the whole scrape, whatever the
      other datasets hold. */
  lemma UsageFailureFailsScrape(performance: seq<Slot<PerformanceData>>, usage: seq<Slot<Fields>>,
                                instances: seq<Record>, details: seq<Slot<AttributeData>>, k: nat)
    requires k < |usage| && usage[k].Sentinel?
    ensures UsageMetrics(usage).Err?
    ensures CollectGauges(performance, usage, instances, details) == Err(UsageMetrics(usage).error)
  {
    SentinelFailsGenerator([], usage);
  }

  /** `collect`: performance, then resource-usage, then status, then detail
      gauges, each transformer over its own dataset. */
  function CollectGauges(performance: seq<Slot<PerformanceData>>, usage: seq<Slot<Fields>>,
                         instances: seq<Record>, details: seq<Slot<AttributeData>>): (gauges: Result<seq<Gauge>>)
  {
    match UsageMetrics(usage)
    case Err(e) => Err(e)
    case Ok(u) =>
      match StatusMetrics(instances)
      case Err(e) => Err(e)
      case Ok(s) =>
        match DetailMetrics(details)
        case Err(e) => Err(e)
        case Ok(d) => Ok(PerformanceMetrics(performance) + u + s + d)
  }

  /** The family a gauge name belongs to, in the order collect yields them. */
  function Family(name: string): (family: nat)
  {
    if HasPrefix(name, PERFORMANCE_PREFIX) then 0
    else if HasPrefix(name, USAGE_PREFIX) then 1
    else if name == STATUS_NAME then 2
    else 3
  }

  predicate AllInFamily(gauges: seq<Gauge>, family: nat)
  {
    forall k :: 0 <= k < |gauges| ==> Family(gauges[k].name) == family
  }

  lemma {:induction false} ConcatGaugesFamily<T>(items: seq<T>, gen: T -> Result<seq<Gauge>>, family: nat)
    requires forall i :: 0 <= i < |items| && gen(items[i]).Ok? ==> AllInFamily(gen(items[i]).value, family)
    requires ConcatGauges(items, gen).Ok?
    ensures AllInFamily(ConcatGauges(items, gen).value, family)
  {
    if |items| > 0 {
      assert forall i :: 1 <= i < |items| ==> items[i] == items[1..][i - 1];
      ConcatGaugesFamily(items[1..], gen, family);
    }
  }

  lemma {:induction false} PerformanceMetricsFamily(slots: seq<Slot<PerformanceData>>)
    ensures AllInFamily(PerformanceMetrics(slots), 0)
  {
    if |slots| > 0 {
      PerformanceMetricsFamily(slots[1..]);
      var first := SlotPerformanceGauges(slots[0]);
      forall k | 0 <= k < |first| ensures Family(first[k].name) == 0 {
        assert HasPrefix(first[k].name, PERFORMANCE_PREFIX);
      }
    }
  }

  lemma UsageNameFamily(key: string)
    ensures Family(USAGE_PREFIX + key) == 1
  {
    var name := USAGE_PREFIX + key;
    assert name[11] == 'r' && PERFORMANCE_PREFIX[11] == 'p';
    assert name[..|USAGE_PREFIX|] == USAGE_PREFIX;
  }

  lemma {:induction false} UsageSeriesFamily(fields: seq<(string, Scalar)>, instanceId: Scalar, engine: Scalar)
    ensures AllInFamily(UsageSeries(fields, instanceId, engine), 1)
  {
    if |fields| > 0 {
      UsageSeriesFamily(fields[1..], instanceId, engine);
      UsageNameFamily(fields[0].0);
    }
  }

  lemma UsageMetricsFamily(slots: seq<Slot<Fields>>)
    requires UsageMetrics(slots).Ok?
    ensures AllInFamily(UsageMetrics(slots).value, 1)
  {
    forall i | 0 <= i < |slots| && UsageSlotGauges(slots[i]).Ok?
      ensures AllInFamily(UsageSlotGauges(slots[i]).value, 1)
    {
      var fields := slots[i].payload;
      if |fields| > 1 {
        UsageSeriesFamily(fields, Find(fields, "DBInstanceId").value, Find(fields, "Engine").value);
      }
    }
    ConcatGaugesFamily(slots, UsageSlotGauges, 1);
  }

  lemma StatusMetricsFamily(instances: seq<Record>)
    requires StatusMetrics(instances).Ok?
    ensures AllInFamily(StatusMetrics(instances).value, 2)
  {
    assert Family(STATUS_NAME) == 2;
    ConcatGaugesFamily(instances, StatusGauges, 2);
  }

  lemma DetailMetricsFamily(details: seq<Slot<AttributeData>>)
    requires DetailMetrics(details).Ok?
    ensures AllInFamily(DetailMetrics(details).value, 3)
  {
    assert DETAIL_NAME[11] != STATUS_NAME[11];
    assert Family(DETAIL_NAME) == 3;
    ConcatGaugesFamily(details, DetailGauges, 3);
  }

  /** Collect yields every performance gauge before every resource-usage
      gauge, those before every status gauge, and those before every detail
      gauge. */
  lemma CollectOrder(performance: seq<Slot<PerformanceData>>, usage: seq<Slot<Fields>>,
                     instances: seq<Record>, details: seq<Slot<AttributeData>>)
    requires CollectGauges(performance, usage, instances, details).Ok?
    ensures var gauges := CollectGauges(performance, usage, instances, details).value;
      forall i, j :: 0 <= i < j < |gauges| ==> Family(gauges[i].name) <= Family(gauges[j].name)
  {
    PerformanceMetricsFamily(performance);
    UsageMetricsFamily(usage);
    StatusMetricsFamily(instances);
    DetailMetricsFamily(details);
    FamiliesInOrder(PerformanceMetrics(performance), UsageMetrics(usage).value,
                    StatusMetrics(instances).value, DetailMetrics(details).value);
  }

  lemma FamiliesInOrder(p: seq<Gauge>, u: seq<Gauge>, s: seq<Gauge>, d: seq<Gauge>)
    requires AllInFamily(p, 0) && AllInFamily(u, 1) && AllInFamily(s, 2) && AllInFamily(d, 3)
    ensures var gauges := p + u + s + d;
      forall i, j :: 0 <= i < j < |gauges| ==> Family(gauges[i].name) <= Family(gauges[j].name)
  {
    var gauges := p + u + s + d;
    forall i | 0 <= i < |gauges|
      ensures Family(gauges[i].name) ==
        if i < |p| then 0 else if i < |p| + |u| then 1 else if i < |p| + |u| + |s| then 2 else 3
    {
      if i < |p| { assert gauges[i] == p[i]; }
      else if i < |p| + |u| { assert gauges[i] == u[i - |p|]; }
      else if i < |p| + |u| + |s| { assert gauges[i] == s[i - |p| - |u|]; }
      else { assert gauges[i] == d[i - |p| - |u| - |s|]; }
    }
  }
}
