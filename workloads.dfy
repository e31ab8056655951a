/** The estimator's inputs: one record per declared workload, as the form
    reader builds it, and the cluster-level fields of the form, already
    parsed. An unparseable or empty numeric field is given as 0, which is
    what `parseFloat(...) || 0` makes of it. */
module Workloads {
  import opened Numeric

  datatype WorkloadItem = WorkloadItem(
    id: string,
    workloadType: string,
    logicalTiB: real,
    coldPct: real,
    compressionEnabled: bool)

  /** The cluster-level form fields: host count, raw TiB per host, RAID key,
      the global compression switch, the domain mode, and the LFS and
      checksum overheads in percent. */
  datatype Form = Form(
    hosts: int,
    rawTiBPerHost: real,
    raidLevel: string,
    compressionOn: bool,
    domainMode: string,
    lfsOverheadPercent: real,
    checksumPercent: real)

  function LogicalSizes(ws: seq<WorkloadItem>): (xs: seq<real>)
    ensures |xs| == |ws|
    ensures forall i :: 0 <= i < |ws| ==> xs[i] == ws[i].logicalTiB
  {
    seq(|ws|, i requires 0 <= i < |ws| => ws[i].logicalTiB)
  }

  /** The summed logical size of all workloads; it is non-negative when
      no workload is negative. */
  function TotalLogical(ws: seq<WorkloadItem>): (t: real)
    ensures (forall i :: 0 <= i < |ws| ==> 0.0 <= ws[i].logicalTiB) ==> 0.0 <= t
  {
    SumNonNegative(LogicalSizes(ws));
    Sum(LogicalSizes(ws))
  }
}
