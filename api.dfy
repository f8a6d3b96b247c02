/** The four operations of the managed-database control plane the collector
    calls, their decoded response bodies, and the remote transport, which is
    left abstract: a function from a request to a reply or a failure. */
module Api {
  import opened Values

  /** DescribeDBInstancesRequest: one page of the instance directory. */
  datatype InstancesRequest = InstancesRequest(pageSize: int, pageNumber: int)

  /** DescribeDBInstancePerformanceRequest for one instance and one performance key. */
  datatype PerformanceRequest = PerformanceRequest(instanceId: Scalar, key: string)

  /** DescribeDBInstanceAttributeRequest for one instance. */
  datatype AttributeRequest = AttributeRequest(instanceId: Scalar)

  /** DescribeResourceUsageRequest for one instance. */
  datatype UsageRequest = UsageRequest(instanceId: Scalar)

  /** A directory page: `PageRecordCount` and `Items.DBInstance`. */
  datatype Page = Page(pageRecordCount: int, instances: seq<Record>)

  /** One element of `Values.PerformanceValue`: a `&`-separated compound value. */
  datatype PerformanceValue = PerformanceValue(value: string, date: string)

  /** One element of `PerformanceKeys.PerformanceKey`. */
  datatype PerformanceKey = PerformanceKey(key: string, unit: string, valueFormat: string, values: seq<PerformanceValue>)

  /** A performance response: `DBInstanceId` and `PerformanceKeys.PerformanceKey`. */
  datatype PerformanceData = PerformanceData(instanceId: string, keys: seq<PerformanceKey>)

  /** An attribute response: `Items.DBInstanceAttribute`. */
  datatype AttributeData = AttributeData(attributes: seq<Record>)

  /** What the transport does with one request: it raises, or it answers. */
  datatype Reply<+T> = Failed | Replied(body: T)

  /** One element of a fan-out result list: the response body, or the `[]`
      sentinel that stands for a failed call. */
  datatype Slot<+T> = Sentinel | Raw(payload: T)

  /** The signed-RPC client, one function per operation. A resource-usage
      response is an ordered JSON object. */
  datatype Transport = Transport(
    listInstances: InstancesRequest -> Reply<Page>,
    performance: PerformanceRequest -> Reply<PerformanceData>,
    attribute: AttributeRequest -> Reply<AttributeData>,
    usage: UsageRequest -> Reply<Fields>)
}
