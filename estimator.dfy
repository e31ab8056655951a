/** The ESA estimation pipeline: per-workload compression, global
    deduplication with an accumulated savings total, LFS overhead on object
    plus replica data, checksum overhead, and the derived ratios, capacity
    utilisation, warnings and compliance notes. */
module Estimator {
  import opened Outcomes
  import opened Numeric
  import opened Scaling
  import opened EsaTables
  import opened Workloads

  /** The form fields after the estimator's own fallbacks: 6 hosts, 20 TiB
      per host, "raid5", the "typical" mode and the default overhead
      percentages replace a zero or empty field; the percentages become rates. */
  datatype Settings = Settings(
    hosts: int,
    rawTiBPerHost: real,
    raidLevel: string,
    compressionOn: bool,
    domainMode: string,
    lfsOverheadRate: real,
    checksumRate: real)

  function EstimatorSettings(form: Form): (s: Settings)
    ensures s.hosts != 0 && s.rawTiBPerHost != 0.0 && s.raidLevel != "" && s.domainMode != ""
    ensures s.lfsOverheadRate != 0.0 && s.checksumRate != 0.0
    ensures form.hosts != 0 ==> s.hosts == form.hosts
    ensures form.rawTiBPerHost != 0.0 ==> s.rawTiBPerHost == form.rawTiBPerHost
    ensures form.raidLevel != "" ==> s.raidLevel == form.raidLevel
    ensures form.domainMode != "" ==> s.domainMode == form.domainMode
    ensures form.lfsOverheadPercent != 0.0 ==> s.lfsOverheadRate * 100.0 == form.lfsOverheadPercent
    ensures form.checksumPercent != 0.0 ==> s.checksumRate * 100.0 == form.checksumPercent
    ensures form.hosts == 0 ==> s.hosts == 6
    ensures form.rawTiBPerHost == 0.0 ==> s.rawTiBPerHost == 20.0
    ensures form.raidLevel == "" ==> s.raidLevel == "raid5"
    ensures form.domainMode == "" ==> s.domainMode == "typical"
    ensures form.lfsOverheadPercent == 0.0 ==> s.lfsOverheadRate == 0.131
    ensures form.checksumPercent == 0.0 ==> s.checksumRate == 0.02
    ensures s.compressionOn == form.compressionOn
  {
    Settings(
      OrDefault(form.hosts, 0, 6),
      OrDefault(form.rawTiBPerHost, 0.0, 20.0),
      OrDefault(form.raidLevel, "", "raid5"),
      form.compressionOn,
      OrDefault(form.domainMode, "", "typical"),
      OrDefault(form.lfsOverheadPercent, 0.0, LfsOverheadPercent) / 100.0,
      OrDefault(form.checksumPercent, 0.0, ChecksumOverheadPercent) / 100.0)
  }

  /** A workload after phase 1: the input record extended with its size
      after compression, its cold part and the factor applied. */
  datatype CompressedWorkload = CompressedWorkload(
    source: WorkloadItem, compressed: real, cold: real, compressionFactor: real)

  /** A workload after phase 2: extended with its similarity, its dedupe
      savings and its dedupe probability. */
  datatype DedupedWorkload = DedupedWorkload(
    stage: CompressedWorkload, similarity: real, dedupeSavings: real, dedupeProbability: real)

  /** Compression applies to a workload when it is on globally and for the item. */
  predicate CompressionApplies(w: WorkloadItem, compressionOn: bool)
  {
    compressionOn && w.compressionEnabled
  }

  /** Phase 1 for one workload. */
  function CompressWorkload(w: WorkloadItem, compressionOn: bool): (c: CompressedWorkload)
    ensures c.source == w
    ensures CompressionApplies(w, compressionOn) ==> c.compressionFactor == CompressionDefault(w.workloadType)
    ensures !CompressionApplies(w, compressionOn) ==> c.compressionFactor == 1.0 && c.compressed == w.logicalTiB
    ensures c.compressed * c.compressionFactor == w.logicalTiB
    ensures 0.0 <= w.logicalTiB ==> 0.0 <= c.cold <= c.compressed <= w.logicalTiB
    ensures w.coldPct <= 0.0 ==> c.cold == 0.0
    ensures 0.0 <= w.coldPct <= 1.0 ==> c.cold == c.compressed * w.coldPct
    ensures 1.0 <= w.coldPct ==> c.cold == c.compressed
  {
    var factor := if compressionOn && w.compressionEnabled then CompressionDefault(w.workloadType) else 1.0;
    var compressed := w.logicalTiB / factor;
    var coldShare := Clamp(w.coldPct, 0.0, 1.0);
    assert 1.0 <= factor && compressed * factor == w.logicalTiB;
    assert 0.0 <= w.logicalTiB ==> 0.0 <= compressed <= w.logicalTiB by {
      if 0.0 <= w.logicalTiB {
        assert 0.0 <= compressed;
        MulLeMono(1.0, factor, compressed);
      }
    }
    ScaleWithin(compressed, coldShare);
    CompressedWorkload(w, compressed, compressed * coldShare, factor)
  }

  /** Post-processing dedupe is less effective on compressed data. */
  function DedupeEfficiency(compressedData: bool): (e: real)
    ensures 0.6 <= e <= 0.75
    ensures compressedData <==> e < 0.75
    ensures compressedData ==> e == 0.6
    ensures !compressedData ==> e == 0.75
  {
    if compressedData then 0.6 else 0.75
  }

  /** The chance that a workload's cold blocks match others in the
      cluster: its similarity scaled by the domain, clamped to [0, 1]. */
  function DedupeProbability(similarity: real, domainScaling: real): (p: real)
    ensures 0.0 <= p <= 1.0
    ensures 0.0 <= similarity <= 1.0 && 0.0 <= domainScaling <= 1.0 ==> p == similarity * domainScaling
  {
    ScaleWithin(domainScaling, similarity);
    Clamp(similarity * domainScaling, 0.0, 1.0)
  }

  /** The savings on a cold amount, clamped to [0, cold]; with a probability
      and an efficiency in [0, 1] the clamp never cuts a non-negative amount. */
  function DedupeSavings(cold: real, probability: real, efficiency: real): (r: real)
    ensures 0.0 <= r
    ensures 0.0 <= cold ==> r <= cold
    ensures cold <= 0.0 ==> r == 0.0
    ensures 0.0 <= cold && 0.0 <= probability <= 1.0 && 0.0 <= efficiency <= 1.0 ==>
      r == cold * probability * efficiency
  {
    ScaleWithin(efficiency, probability);
    ScaleWithin(cold, probability * efficiency);
    assert cold * probability * efficiency == cold * (probability * efficiency);
    Clamp(cold * probability * efficiency, 0.0, cold)
  }

  /** Phase 2 for one workload, given the domain scaling of the cluster. */
  function DedupeWorkload(c: CompressedWorkload, domainScaling: real, compressionOn: bool): (d: DedupedWorkload)
    ensures d.stage == c
    ensures d.similarity == Similarity(c.source.workloadType)
    ensures 0.0 <= d.dedupeProbability <= 1.0
    ensures 0.0 <= domainScaling <= 1.0 ==> d.dedupeProbability == d.similarity * domainScaling
    ensures 0.0 <= d.dedupeSavings
    ensures 0.0 <= c.cold ==> d.dedupeSavings <= c.cold
    ensures 0.0 <= c.cold ==>
      d.dedupeSavings == c.cold * d.dedupeProbability * DedupeEfficiency(CompressionApplies(c.source, compressionOn))
    ensures c.cold <= 0.0 ==> d.dedupeSavings == 0.0
  {
    var similarity := Similarity(c.source.workloadType);
    var probability := DedupeProbability(similarity, domainScaling);
    var efficiency := DedupeEfficiency(compressionOn && c.source.compressionEnabled);
    DedupedWorkload(c, similarity, DedupeSavings(c.cold, probability, efficiency), probability)
  }

  /** Phase 1: every workload compressed, in input order. */
  function CompressAll(ws: seq<WorkloadItem>, compressionOn: bool): (cs: seq<CompressedWorkload>)
    ensures |cs| == |ws|
    ensures forall i :: 0 <= i < |ws| ==> cs[i] == CompressWorkload(ws[i], compressionOn)
  {
    seq(|ws|, i requires 0 <= i < |ws| => CompressWorkload(ws[i], compressionOn))
  }

  function CompressedSizes(cs: seq<CompressedWorkload>): (xs: seq<real>)
    ensures |xs| == |cs|
    ensures forall i :: 0 <= i < |cs| ==> xs[i] == cs[i].compressed
  {
    seq(|cs|, i requires 0 <= i < |cs| => cs[i].compressed)
  }

  function SavingsAmounts(ds: seq<DedupedWorkload>): (xs: seq<real>)
    ensures |xs| == |ds|
    ensures forall i :: 0 <= i < |ds| ==> xs[i] == ds[i].dedupeSavings
  {
    seq(|ds|, i requires 0 <= i < |ds| => ds[i].dedupeSavings)
  }

  /** The compressed total; it is non-negative when every compressed size is. */
  function TotalCompressed(cs: seq<CompressedWorkload>): (t: real)
    ensures (forall i :: 0 <= i < |cs| ==> 0.0 <= cs[i].compressed) ==> 0.0 <= t
  {
    SumNonNegative(CompressedSizes(cs));
    Sum(CompressedSizes(cs))
  }

  /** The savings total; it is non-negative when every item's savings are. */
  function TotalSavings(ds: seq<DedupedWorkload>): (t: real)
    ensures (forall i :: 0 <= i < |ds| ==> 0.0 <= ds[i].dedupeSavings) ==> 0.0 <= t
  {
    SumNonNegative(SavingsAmounts(ds));
    Sum(SavingsAmounts(ds))
  }

  ghost predicate AllNonNegative(ws: seq<WorkloadItem>)
  {
    forall i :: 0 <= i < |ws| ==> 0.0 <= ws[i].logicalTiB
  }

  /** With global compression off every item keeps its logical size, so the
      compressed total is the logical total, whatever the per-item flags. */
  lemma CompressionOffKeepsTotal(ws: seq<WorkloadItem>)
    ensures TotalCompressed(CompressAll(ws, false)) == TotalLogical(ws)
  {
    assert CompressedSizes(CompressAll(ws, false)) == LogicalSizes(ws);
  }

  /** Compression never grows the data when no logical size is negative. */
  lemma CompressionShrinksTotal(ws: seq<WorkloadItem>, compressionOn: bool)
    requires AllNonNegative(ws)
    ensures TotalCompressed(CompressAll(ws, compressionOn)) <= TotalLogical(ws)
  {
    SumMonotone(CompressedSizes(CompressAll(ws, compressionOn)), LogicalSizes(ws));
  }

  /** Phase 2 over all workloads: the per-item records in input order and
      the running total of their savings. */
  method Deduplicate(perWorkload: seq<CompressedWorkload>, domainScaling: real, compressionOn: bool)
    returns (perWorkloadFinal: seq<DedupedWorkload>, totalDedupeSavings: real)
    ensures |perWorkloadFinal| == |perWorkload|
    ensures forall i :: 0 <= i < |perWorkload| ==>
      perWorkloadFinal[i] == DedupeWorkload(perWorkload[i], domainScaling, compressionOn)
    ensures totalDedupeSavings == TotalSavings(perWorkloadFinal)
    ensures 0.0 <= totalDedupeSavings
    ensures (forall i :: 0 <= i < |perWorkload| ==> 0.0 <= perWorkload[i].cold <= perWorkload[i].compressed) ==>
      totalDedupeSavings <= TotalCompressed(perWorkload)
  {
    totalDedupeSavings := 0.0;
    perWorkloadFinal := [];
    for i := 0 to |perWorkload|
      invariant |perWorkloadFinal| == i
      invariant forall j :: 0 <= j < i ==>
        perWorkloadFinal[j] == DedupeWorkload(perWorkload[j], domainScaling, compressionOn)
      invariant totalDedupeSavings == TotalSavings(perWorkloadFinal)
    {
      var d := DedupeWorkload(perWorkload[i], domainScaling, compressionOn);
      assert SavingsAmounts(perWorkloadFinal + [d]) == SavingsAmounts(perWorkloadFinal) + [d.dedupeSavings];
      SumAppend(SavingsAmounts(perWorkloadFinal), d.dedupeSavings);
      totalDedupeSavings := totalDedupeSavings + d.dedupeSavings;
      perWorkloadFinal := perWorkloadFinal + [d];
    }
    if forall i :: 0 <= i < |perWorkload| ==> 0.0 <= perWorkload[i].cold <= perWorkload[i].compressed {
      SumMonotone(SavingsAmounts(perWorkloadFinal), CompressedSizes(perWorkload));
    }
  }

  /** The estimator's advisory messages, by kind and reported values. The
      first three kinds are capacity warnings, the last three compliance notes. */
  datatype Advisory =
    | CapacityViolation(netEffective: real, usableRawCapacity: real)
    | HighUtilization(capacityUtilization: real)
    | AggressiveEfficiency(overallReduction: real)
    | NvmeRequirementMet
    | HostCountSupported
    | AdaptiveRaid5Supported
  {
    predicate IsWarning()
    {
      CapacityViolation? || HighUtilization? || AggressiveEfficiency?
    }
  }

  /** The position of an advisory's rule among the rules of its list. */
  function AdvisoryRank(a: Advisory): nat
  {
    match a
    case CapacityViolation(_, _) => 0
    case HighUtilization(_) => 1
    case AggressiveEfficiency(_) => 2
    case NvmeRequirementMet => 0
    case HostCountSupported => 1
    case AdaptiveRaid5Supported => 2
  }

  /** Each rule contributes at most once, in rule order. */
  ghost predicate InRuleOrder(xs: seq<Advisory>)
  {
    forall i, j :: 0 <= i < j < |xs| ==> AdvisoryRank(xs[i]) < AdvisoryRank(xs[j])
  }

  /** `a` is the report of a capacity warning rule that fires. */
  predicate WarningFires(a: Advisory, netEffective: real, usableRawCapacity: real,
                         capacityUtilization: real, overallReduction: real)
  {
    match a
    case CapacityViolation(n, u) => n == netEffective && u == usableRawCapacity && netEffective > usableRawCapacity
    case HighUtilization(c) => c == capacityUtilization && capacityUtilization > 85.0
    case AggressiveEfficiency(x) => x == overallReduction && overallReduction > 8.0
    case _ => false
  }

  /** `a` is the note of a compliance rule that holds. */
  predicate ComplianceHolds(a: Advisory, rawTiBPerHost: real, hosts: int, raidLevel: string)
  {
    match a
    case NvmeRequirementMet => rawTiBPerHost >= MinNVMeCapacityTiB
    case HostCountSupported => 3 <= hosts <= MaxHosts
    case AdaptiveRaid5Supported => raidLevel == "raid5" && hosts >= 3
    case _ => false
  }

  /** The capacity warnings the rules report, in rule order. */
  function CapacityWarningList(netEffective: real, usableRawCapacity: real,
                               capacityUtilization: real, overallReduction: real): (ws: seq<Advisory>)
    ensures |ws| <= 3
  {
    When(netEffective > usableRawCapacity, CapacityViolation(netEffective, usableRawCapacity)) +
    When(capacityUtilization > 85.0, HighUtilization(capacityUtilization)) +
    When(overallReduction > 8.0, AggressiveEfficiency(overallReduction))
  }

  /** The compliance notes the rules report, in rule order. */
  function ComplianceList(rawTiBPerHost: real, hosts: int, raidLevel: string): (cs: seq<Advisory>)
    ensures |cs| <= 3
  {
    When(rawTiBPerHost >= MinNVMeCapacityTiB, NvmeRequirementMet) +
    When(3 <= hosts <= MaxHosts, HostCountSupported) +
    When(raidLevel == "raid5" && hosts >= 3, AdaptiveRaid5Supported)
  }

  /** The warning list holds exactly the reports of the rules that fire,
      each once and in rule order, and only warning kinds. */
  lemma WarningsExactlyFire(netEffective: real, usableRawCapacity: real,
                            capacityUtilization: real, overallReduction: real)
    ensures var ws := CapacityWarningList(netEffective, usableRawCapacity, capacityUtilization, overallReduction);
      (forall a :: a in ws <==> WarningFires(a, netEffective, usableRawCapacity, capacityUtilization, overallReduction)) &&
      InRuleOrder(ws) &&
      (forall a :: a in ws ==> a.IsWarning())
  {
  }

  /** The compliance list holds exactly the notes of the rules that hold,
      each once and in rule order, and no warning kind. */
  lemma ComplianceExactlyHolds(rawTiBPerHost: real, hosts: int, raidLevel: string)
    ensures var cs := ComplianceList(rawTiBPerHost, hosts, raidLevel);
      (forall a :: a in cs <==> ComplianceHolds(a, rawTiBPerHost, hosts, raidLevel)) &&
      InRuleOrder(cs) &&
      (forall a :: a in cs ==> !a.IsWarning())
  {
  }

  /** A net figure above a positive usable capacity is above 100 % of it,
      so a capacity violation always comes with the high-utilisation warning. */
  lemma ViolationMeansHighUtilization(netEffective: real, usableRawCapacity: real, overallReduction: real)
    requires 0.0 < usableRawCapacity < netEffective
    ensures var capacityUtilization := netEffective / usableRawCapacity * 100.0;
      CapacityViolation(netEffective, usableRawCapacity) in
        CapacityWarningList(netEffective, usableRawCapacity, capacityUtilization, overallReduction) &&
      HighUtilization(capacityUtilization) in
        CapacityWarningList(netEffective, usableRawCapacity, capacityUtilization, overallReduction)
  {
    assert netEffective / usableRawCapacity > 1.0 by {
      assert netEffective / usableRawCapacity * usableRawCapacity == netEffective;
    }
  }

  /** The capacity warnings, appended in rule order. */
  method CapacityWarnings(netEffective: real, usableRawCapacity: real,
                          capacityUtilization: real, overallReduction: real)
    returns (warnings: seq<Advisory>)
    ensures warnings == CapacityWarningList(netEffective, usableRawCapacity, capacityUtilization, overallReduction)
  {
    warnings := [];
    if netEffective > usableRawCapacity {
      warnings := warnings + [CapacityViolation(netEffective, usableRawCapacity)];
    }
    if capacityUtilization > 85.0 {
      warnings := warnings + [HighUtilization(capacityUtilization)];
    }
    if overallReduction > 8.0 {
      warnings := warnings + [AggressiveEfficiency(overallReduction)];
    }
  }

  /** The compliance notes, appended in rule order. */
  method ComplianceNotes(rawTiBPerHost: real, hosts: int, raidLevel: string)
    returns (compliance: seq<Advisory>)
    ensures compliance == ComplianceList(rawTiBPerHost, hosts, raidLevel)
  {
    compliance := [];
    if rawTiBPerHost >= MinNVMeCapacityTiB {
      compliance := compliance + [NvmeRequirementMet];
    }
    if hosts >= 3 && hosts <= MaxHosts {
      compliance := compliance + [HostCountSupported];
    }
    if raidLevel == "raid5" && hosts >= 3 {
      compliance := compliance + [AdaptiveRaid5Supported];
    }
  }

  /** Phases 3 and 4: the replica data a scheme adds, the LFS overhead on
      object plus replica data and the checksum overhead on post-dedupe data
      sum to `raidOverhead * lfsRate + checksumRate` times the post-dedupe data. */
  ghost predicate OverheadsCompose(afterDedupe: real, raidOverhead: real, lfsRate: real, checksumRate: real,
                                   replicaData: real, objectAndReplica: real, lfsOverhead: real,
                                   checksumOverhead: real, netEffective: real)
  {
    replicaData == afterDedupe * (raidOverhead - 1.0) &&
    objectAndReplica == afterDedupe * raidOverhead &&
    lfsOverhead == objectAndReplica * lfsRate &&
    checksumOverhead == afterDedupe * checksumRate &&
    netEffective == afterDedupe * (1.0 + raidOverhead * lfsRate + checksumRate)
  }

  /** Phases 3 and 4 on the post-dedupe data. */
  method StorageOverheads(afterDedupe: real, raidOverhead: real, lfsOverheadRate: real, checksumRate: real)
    returns (replicaData: real, objectAndReplica: real, lfsOverhead: real, checksumOverhead: real, netEffective: real)
    ensures OverheadsCompose(afterDedupe, raidOverhead, lfsOverheadRate, checksumRate,
                             replicaData, objectAndReplica, lfsOverhead, checksumOverhead, netEffective)
  {
    // Phase 3: LFS overhead on object plus replica data
    replicaData := afterDedupe * (raidOverhead - 1.0);
    objectAndReplica := afterDedupe + replicaData;
    lfsOverhead := objectAndReplica * lfsOverheadRate;

    // Phase 4: checksum overhead
    checksumOverhead := afterDedupe * checksumRate;

    netEffective := afterDedupe + lfsOverhead + checksumOverhead;
  }

  /** Raw capacity of the cluster and the capacity usable after the
      scheme's overhead. */
  ghost predicate CapacityCompose(hosts: int, rawTiBPerHost: real, raidOverhead: real,
                                  totalRawCapacity: real, usableRawCapacity: real)
  {
    totalRawCapacity == hosts as real * rawTiBPerHost &&
    usableRawCapacity * raidOverhead == totalRawCapacity
  }

  /** The physical capacity limits of the cluster for a scheme's overhead;
      the usable capacity is 0 only when there are no hosts or no raw capacity. */
  method PhysicalCapacity(hosts: int, rawTiBPerHost: real, raidOverhead: real)
    returns (totalRawCapacity: real, usableRawCapacity: real)
    requires raidOverhead != 0.0
    ensures CapacityCompose(hosts, rawTiBPerHost, raidOverhead, totalRawCapacity, usableRawCapacity)
    ensures usableRawCapacity == 0.0 <==> hosts == 0 || rawTiBPerHost == 0.0
  {
    totalRawCapacity := hosts as real * rawTiBPerHost;
    usableRawCapacity := totalRawCapacity / raidOverhead;
  }

  /** The explanatory notes of a result, by kind and reported values. */
  datatype Note =
    | ArchitectureNote(esaScheme: string, overheadPercent: real)
    | GlobalDomainNote
    | BlockDedupeNote
    | CompressionGranularityNote
    | LfsNote(lfsOverheadPercent: real)
    | DomainScalingNote(domainScaling: real, hosts: int, domainMode: string)

  datatype Estimate = Estimate(
    logicalTotal: real,
    totalCompressed: real,
    afterDedupe: real,
    lfsOverhead: real,
    checksumOverhead: real,
    raidOverhead: real,
    netEffective: real,
    overallReduction: real,
    compressionOnly: real,
    dedupeOnly: real,
    perWorkloadFinal: seq<DedupedWorkload>,
    domainScaling: real,
    raidLevel: string,
    raidDescription: string,
    esaScheme: string,
    totalRawCapacity: real,
    usableRawCapacity: real,
    capacityUtilization: real,
    warnings: seq<Advisory>,
    compliance: seq<Advisory>,
    replicaData: real,
    objectAndReplica: real,
    notes: seq<Note>)

  /** The one failure of the estimator: there is no logical data at all. */
  datatype EstimateError = NoWorkloadData

  /** The per-workload breakdown keeps the input order and fields and holds
      the phase 1 and phase 2 results of each item. */
  ghost predicate BreakdownOf(e: Estimate, ws: seq<WorkloadItem>, s: Settings)
  {
    |e.perWorkloadFinal| == |ws| &&
    forall i :: 0 <= i < |ws| ==>
      e.perWorkloadFinal[i].stage.source == ws[i] &&
      e.perWorkloadFinal[i].stage == CompressWorkload(ws[i], s.compressionOn) &&
      e.perWorkloadFinal[i] == DedupeWorkload(e.perWorkloadFinal[i].stage, e.domainScaling, s.compressionOn)
  }

  /** The phase totals and the overheads composed from them. */
  ghost predicate PhasesOf(e: Estimate, ws: seq<WorkloadItem>, s: Settings, exp: real -> real)
    requires ExpLike(exp)
  {
    e.logicalTotal == TotalLogical(ws) &&
    e.totalCompressed == TotalCompressed(CompressAll(ws, s.compressionOn)) &&
    e.domainScaling == DomainScalingFactor(s.hosts, s.domainMode, exp) &&
    e.afterDedupe == e.totalCompressed - TotalSavings(e.perWorkloadFinal) &&
    e.afterDedupe <= e.totalCompressed &&
    (AllNonNegative(ws) ==> 0.0 <= e.afterDedupe <= e.totalCompressed <= e.logicalTotal) &&
    (!s.compressionOn ==> e.totalCompressed == e.logicalTotal && e.compressionOnly == 1.0) &&
    e.raidLevel == s.raidLevel &&
    e.raidOverhead == RaidOverhead(s.raidLevel) &&
    OverheadsCompose(e.afterDedupe, e.raidOverhead, s.lfsOverheadRate, s.checksumRate,
                     e.replicaData, e.objectAndReplica, e.lfsOverhead, e.checksumOverhead, e.netEffective)
  }

  /** Raw and usable capacity, utilisation and the three reduction ratios,
      each ratio 0 when its denominator is 0. */
  ghost predicate CapacityOf(e: Estimate, s: Settings)
  {
    CapacityCompose(s.hosts, s.rawTiBPerHost, e.raidOverhead, e.totalRawCapacity, e.usableRawCapacity) &&
    e.usableRawCapacity != 0.0 &&
    e.capacityUtilization == e.netEffective / e.usableRawCapacity * 100.0 &&
    IsRatio(e.overallReduction, e.logicalTotal, e.netEffective) &&
    IsRatio(e.compressionOnly, e.logicalTotal, e.totalCompressed) &&
    IsRatio(e.dedupeOnly, e.totalCompressed, e.afterDedupe)
  }

  /** The warnings and compliance notes are the lists their rules report. */
  ghost predicate DiagnosticsOf(e: Estimate, s: Settings)
  {
    e.warnings == CapacityWarningList(e.netEffective, e.usableRawCapacity, e.capacityUtilization, e.overallReduction) &&
    e.compliance == ComplianceList(s.rawTiBPerHost, s.hosts, s.raidLevel)
  }

  /** The reported scheme labels: those of the table entry, or the
      "Unknown" labels for a level the table does not define. */
  ghost predicate LabelsOf(e: Estimate, s: Settings)
  {
    (LookupRaid(s.raidLevel).Some? ==>
       e.raidDescription == LookupRaid(s.raidLevel).value.description &&
       e.esaScheme == LookupRaid(s.raidLevel).value.esaScheme) &&
    (LookupRaid(s.raidLevel).None? ==> e.raidDescription == "Unknown RAID" && e.esaScheme == "Unknown") &&
    |e.notes| == 6
  }

  /** Phases 3 and 4 and the figures derived from the totals of phases 1
      and 2: overheads, capacity, ratios, warnings, compliance and labels. */
  method Summarise(s: Settings, logicalTotal: real, totalCompressed: real, totalDedupeSavings: real,
                   perWorkloadFinal: seq<DedupedWorkload>, domainScaling: real)
    returns (e: Estimate)
    requires s.hosts != 0 && s.rawTiBPerHost != 0.0
    ensures e.logicalTotal == logicalTotal && e.totalCompressed == totalCompressed
    ensures e.afterDedupe == totalCompressed - totalDedupeSavings
    ensures e.perWorkloadFinal == perWorkloadFinal && e.domainScaling == domainScaling
    ensures e.raidLevel == s.raidLevel && e.raidOverhead == RaidOverhead(s.raidLevel)
    ensures OverheadsCompose(e.afterDedupe, e.raidOverhead, s.lfsOverheadRate, s.checksumRate,
                             e.replicaData, e.objectAndReplica, e.lfsOverhead, e.checksumOverhead, e.netEffective)
    ensures totalCompressed == logicalTotal != 0.0 ==> e.compressionOnly == 1.0
    ensures CapacityOf(e, s)
    ensures DiagnosticsOf(e, s)
    ensures LabelsOf(e, s)
  {
    var hosts := s.hosts;
    var rawTiBPerHost := s.rawTiBPerHost;
    var raidLevel := s.raidLevel;

    var raidOverhead := RaidOverhead(raidLevel);
    var totalRawCapacity, usableRawCapacity := PhysicalCapacity(hosts, rawTiBPerHost, raidOverhead);

    var afterDedupe := totalCompressed - totalDedupeSavings;
    var replicaData, objectAndReplica, lfsOverhead, checksumOverhead, netEffective :=
      StorageOverheads(afterDedupe, raidOverhead, s.lfsOverheadRate, s.checksumRate);

    var capacityUtilization := (netEffective / usableRawCapacity) * 100.0;
    var overallReduction := SafeDiv(logicalTotal, netEffective);
    var compressionOnly := SafeDiv(logicalTotal, totalCompressed);
    var dedupeOnly := SafeDiv(totalCompressed, afterDedupe);

    var warnings := CapacityWarnings(netEffective, usableRawCapacity, capacityUtilization, overallReduction);
    var compliance := ComplianceNotes(rawTiBPerHost, hosts, raidLevel);

    var known := LookupRaid(raidLevel);
    var raidDescription := if known.Some? then known.value.description else "Unknown RAID";
    var esaScheme := if known.Some? then known.value.esaScheme else "Unknown";

    var notes := [
      ArchitectureNote(esaScheme, (raidOverhead - 1.0) * 100.0),
      GlobalDomainNote,
      BlockDedupeNote,
      CompressionGranularityNote,
      LfsNote(s.lfsOverheadRate * 100.0),
      DomainScalingNote(domainScaling, hosts, s.domainMode)
    ];

    e := Estimate(
      logicalTotal, totalCompressed, afterDedupe, lfsOverhead, checksumOverhead,
      raidOverhead, netEffective, overallReduction, compressionOnly, dedupeOnly,
      perWorkloadFinal, domainScaling, raidLevel, raidDescription, esaScheme,
      totalRawCapacity, usableRawCapacity, capacityUtilization, warnings, compliance,
      replicaData, objectAndReplica, notes);
  }

  /** Runs the four phases over the parsed form fields and workloads, with
      `exp` standing for `Math.exp`. Fails exactly when the logical total is
      exactly 0. */
  method CalculateEstimate(form: Form, workloads: seq<WorkloadItem>, exp: real -> real)
    returns (r: Result<Estimate, EstimateError>)
    requires ExpLike(exp)
    ensures r.Failure? <==> TotalLogical(workloads) == 0.0
    ensures r.Failure? ==> r.error == NoWorkloadData
    ensures r.Success? ==> BreakdownOf(r.value, workloads, EstimatorSettings(form))
    ensures r.Success? ==> PhasesOf(r.value, workloads, EstimatorSettings(form), exp)
    ensures r.Success? ==> CapacityOf(r.value, EstimatorSettings(form))
    ensures r.Success? ==> DiagnosticsOf(r.value, EstimatorSettings(form))
    ensures r.Success? ==> LabelsOf(r.value, EstimatorSettings(form))
    ensures r.Success? ==> 0.0 <= r.value.domainScaling < ModeCap(EstimatorSettings(form).domainMode)
  {
    var s := EstimatorSettings(form);

    var logicalTotal := TotalLogical(workloads);
    if logicalTotal == 0.0 {
      return Failure(NoWorkloadData);
    }

    // Phase 1: per-workload compression
    var perWorkload := CompressAll(workloads, s.compressionOn);
    var totalCompressed := TotalCompressed(perWorkload);

    // Phase 2: global deduplication
    var domainScaling := DomainScalingFactor(s.hosts, s.domainMode, exp);
    var perWorkloadFinal, totalDedupeSavings := Deduplicate(perWorkload, domainScaling, s.compressionOn);

    var e := Summarise(s, logicalTotal, totalCompressed, totalDedupeSavings, perWorkloadFinal, domainScaling);
    assert BreakdownOf(e, workloads, s);
    assert PhasesOf(e, workloads, s, exp) by {
      if AllNonNegative(workloads) {
        CompressionShrinksTotal(workloads, s.compressionOn);
      }
      if !s.compressionOn {
        CompressionOffKeepsTotal(workloads);
      }
    }
    r := Success(e);
  }
}
