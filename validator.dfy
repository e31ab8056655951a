/** Input validation of the ESA estimator: blocking errors and advisory
    warnings, each list built by appending one entry per rule that fires, in
    rule order. Messages are modelled by their kind and the values they
    report, not by their text. */
module Validator {
  import opened Outcomes
  import opened Numeric
  import opened EsaTables
  import opened Workloads

  datatype ValidationError =
    | BelowQuorum                                          // fewer than 3 hosts
    | AboveMaxHosts(maxHosts: int)
    | RaidNeedsMoreHosts(description: string, minHosts: int)
    | BelowMinNVMe(minTiB: real)
    | EmptyDataset

  datatype ValidationWarning =
    | AboveTestedNVMe(rawTiBPerHost: real, maxTiB: real)
    | VmDensityExceeded(estimatedVMs: real, maxVMsPerHost: int)

  /** The position of an error's rule among the error rules. */
  function ErrorRank(e: ValidationError): nat
  {
    match e
    case BelowQuorum => 0
    case AboveMaxHosts(_) => 1
    case RaidNeedsMoreHosts(_, _) => 2
    case BelowMinNVMe(_) => 3
    case EmptyDataset => 4
  }

  function WarningRank(w: ValidationWarning): nat
  {
    match w
    case AboveTestedNVMe(_, _) => 0
    case VmDensityExceeded(_, _) => 1
  }

  /** The hosts of the form fall short of the chosen, known RAID scheme. */
  predicate RaidShort(raidLevel: string, hosts: int)
  {
    LookupRaid(raidLevel).Some? && hosts < LookupRaid(raidLevel).value.minHosts
  }

  /** `e` is the report of an error rule that fires on these inputs. */
  predicate ErrorReported(e: ValidationError, hosts: int, raw: real, raidLevel: string, totalLogical: real)
  {
    match e
    case BelowQuorum => hosts < 3
    case AboveMaxHosts(m) => m == MaxHosts && hosts > MaxHosts
    case RaidNeedsMoreHosts(d, m) =>
      RaidShort(raidLevel, hosts) &&
      d == LookupRaid(raidLevel).value.description && m == LookupRaid(raidLevel).value.minHosts
    case BelowMinNVMe(t) => t == MinNVMeCapacityTiB && raw < MinNVMeCapacityTiB
    case EmptyDataset => totalLogical <= 0.0
  }

  /** `w` is the report of a warning rule that fires on these inputs. */
  predicate WarningReported(w: ValidationWarning, hosts: int, raw: real, totalLogical: real)
  {
    match w
    case AboveTestedNVMe(r, m) => r == raw && m == MaxNVMeCapacityTiB && raw > MaxNVMeCapacityTiB
    case VmDensityExceeded(v, m) =>
      v == totalLogical / 2.0 && m == MaxVMsPerHost && v > (hosts * MaxVMsPerHost) as real
  }

  /** The report of the RAID rule, for a known scheme only. */
  function RaidErrors(raidLevel: string, hosts: int): (errs: seq<ValidationError>)
    ensures |errs| <= 1
    ensures errs != [] ==> RaidShort(raidLevel, hosts)
  {
    match LookupRaid(raidLevel)
    case Some(req) => When(hosts < req.minHosts, RaidNeedsMoreHosts(req.description, req.minHosts))
    case None => []
  }

  /** The reports of the error rules, in rule order. */
  function ValidationErrors(hosts: int, raw: real, raidLevel: string, totalLogical: real): (errs: seq<ValidationError>)
    ensures |errs| <= 5
  {
    When(hosts < 3, BelowQuorum) +
    When(hosts > MaxHosts, AboveMaxHosts(MaxHosts)) +
    RaidErrors(raidLevel, hosts) +
    When(raw < MinNVMeCapacityTiB, BelowMinNVMe(MinNVMeCapacityTiB)) +
    When(totalLogical <= 0.0, EmptyDataset)
  }

  /** The reports of the warning rules, in rule order. */
  function ValidationWarnings(hosts: int, raw: real, totalLogical: real): (ws: seq<ValidationWarning>)
    ensures |ws| <= 2
  {
    When(raw > MaxNVMeCapacityTiB, AboveTestedNVMe(raw, MaxNVMeCapacityTiB)) +
    When(totalLogical / 2.0 > (hosts * MaxVMsPerHost) as real,
         VmDensityExceeded(totalLogical / 2.0, MaxVMsPerHost))
  }

  /** `errors` holds exactly the reports of the error rules that fire. */
  ghost predicate ExactlyTheErrors(errors: seq<ValidationError>, hosts: int, raw: real, raidLevel: string, totalLogical: real)
  {
    forall e :: e in errors <==> ErrorReported(e, hosts, raw, raidLevel, totalLogical)
  }

  /** `warnings` holds exactly the reports of the warning rules that fire. */
  ghost predicate ExactlyTheWarnings(warnings: seq<ValidationWarning>, hosts: int, raw: real, totalLogical: real)
  {
    forall w :: w in warnings <==> WarningReported(w, hosts, raw, totalLogical)
  }

  /** Each error rule contributes at most one report, in rule order. */
  ghost predicate ErrorsInOrder(errs: seq<ValidationError>)
  {
    forall i, j :: 0 <= i < j < |errs| ==> ErrorRank(errs[i]) < ErrorRank(errs[j])
  }

  ghost predicate RankedBelow(errs: seq<ValidationError>, n: nat)
  {
    forall i :: 0 <= i < |errs| ==> ErrorRank(errs[i]) < n
  }

  /** `more` is the report of rule `n`, if that rule fires. */
  ghost predicate RuleReport(more: seq<ValidationError>, n: nat)
  {
    |more| <= 1 && forall i :: 0 <= i < |more| ==> ErrorRank(more[i]) == n
  }

  /** Appending the report of rule `n`, if any, to reports of earlier rules
      keeps the list in rule order. */
  lemma AppendRuleReport(errs: seq<ValidationError>, more: seq<ValidationError>, n: nat)
    requires ErrorsInOrder(errs) && RankedBelow(errs, n)
    requires RuleReport(more, n)
    ensures ErrorsInOrder(errs + more) && RankedBelow(errs + more, n + 1)
  {
    var all := errs + more;
    forall i, j | 0 <= i < j < |all| ensures ErrorRank(all[i]) < ErrorRank(all[j]) {
      if j >= |errs| {
        assert all[j] == more[j - |errs|];
        assert all[i] == errs[i];
      }
    }
  }

  /** The reports of the five rules, concatenated in rule order, are in
      rule order. */
  lemma {:induction false} FiveRulesInOrder(quorum: seq<ValidationError>, maxHosts: seq<ValidationError>,
                                            raid: seq<ValidationError>, nvme: seq<ValidationError>,
                                            empty: seq<ValidationError>)
    requires RuleReport(quorum, 0) && RuleReport(maxHosts, 1) && RuleReport(raid, 2)
    requires RuleReport(nvme, 3) && RuleReport(empty, 4)
    ensures ErrorsInOrder(quorum + maxHosts + raid + nvme + empty)
  {
    AppendRuleReport([], quorum, 0);
    assert [] + quorum == quorum;
    AppendRuleReport(quorum, maxHosts, 1);
    AppendRuleReport(quorum + maxHosts, raid, 2);
    AppendRuleReport(quorum + maxHosts + raid, nvme, 3);
    AppendRuleReport(quorum + maxHosts + raid + nvme, empty, 4);
  }

  /** The RAID rule reports at most once, and only for a known scheme the
      hosts fall short of. */
  lemma RaidErrorsMembers(raidLevel: string, hosts: int)
    ensures RuleReport(RaidErrors(raidLevel, hosts), 2)
    ensures forall e :: e in RaidErrors(raidLevel, hosts) <==>
      RaidShort(raidLevel, hosts) &&
      e == RaidNeedsMoreHosts(LookupRaid(raidLevel).value.description, LookupRaid(raidLevel).value.minHosts)
  {
  }

  /** The error list holds exactly the reports of the rules that fire. */
  lemma ErrorsExactlyReported(hosts: int, raw: real, raidLevel: string, totalLogical: real)
    ensures ExactlyTheErrors(ValidationErrors(hosts, raw, raidLevel, totalLogical), hosts, raw, raidLevel, totalLogical)
  {
    var quorum := When(hosts < 3, BelowQuorum);
    var maxHosts := When(hosts > MaxHosts, AboveMaxHosts(MaxHosts));
    var raid := RaidErrors(raidLevel, hosts);
    var nvme := When(raw < MinNVMeCapacityTiB, BelowMinNVMe(MinNVMeCapacityTiB));
    var empty := When(totalLogical <= 0.0, EmptyDataset);
    var errs := ValidationErrors(hosts, raw, raidLevel, totalLogical);
    assert errs == quorum + maxHosts + raid + nvme + empty;
    RaidErrorsMembers(raidLevel, hosts);
    forall e ensures e in errs <==> ErrorReported(e, hosts, raw, raidLevel, totalLogical) {
      assert e in errs <==> e in quorum || e in maxHosts || e in raid || e in nvme || e in empty;
      match e
      case BelowQuorum =>
      case AboveMaxHosts(_) =>
      case RaidNeedsMoreHosts(_, _) =>
      case BelowMinNVMe(_) =>
      case EmptyDataset =>
    }
  }

  /** The error list keeps the rule order of the checks. */
  lemma ErrorsInRuleOrder(hosts: int, raw: real, raidLevel: string, totalLogical: real)
    ensures ErrorsInOrder(ValidationErrors(hosts, raw, raidLevel, totalLogical))
  {
    RaidErrorsMembers(raidLevel, hosts);
    FiveRulesInOrder(When(hosts < 3, BelowQuorum), When(hosts > MaxHosts, AboveMaxHosts(MaxHosts)),
                     RaidErrors(raidLevel, hosts), When(raw < MinNVMeCapacityTiB, BelowMinNVMe(MinNVMeCapacityTiB)),
                     When(totalLogical <= 0.0, EmptyDataset));
  }

  /** Validation fails exactly when one of the five error conditions holds;
      an unknown RAID key adds no RAID error. */
  lemma ErrorsIff(hosts: int, raw: real, raidLevel: string, totalLogical: real)
    ensures |ValidationErrors(hosts, raw, raidLevel, totalLogical)| > 0 <==>
      hosts < 3 || hosts > MaxHosts || RaidShort(raidLevel, hosts) ||
      raw < MinNVMeCapacityTiB || totalLogical <= 0.0
    ensures LookupRaid(raidLevel).None? ==>
      forall e :: e in ValidationErrors(hosts, raw, raidLevel, totalLogical) ==> !e.RaidNeedsMoreHosts?
  {
  }

  /** The warning list holds exactly the reports of the warning rules that
      fire, each once and in rule order. */
  lemma WarningsExactlyReported(hosts: int, raw: real, totalLogical: real)
    ensures ExactlyTheWarnings(ValidationWarnings(hosts, raw, totalLogical), hosts, raw, totalLogical)
    ensures var ws := ValidationWarnings(hosts, raw, totalLogical);
      forall i, j :: 0 <= i < j < |ws| ==> WarningRank(ws[i]) < WarningRank(ws[j])
  {
    var ws := ValidationWarnings(hosts, raw, totalLogical);
    forall w ensures w in ws <==> WarningReported(w, hosts, raw, totalLogical) {
      match w
      case AboveTestedNVMe(_, _) =>
      case VmDensityExceeded(_, _) =>
    }
  }

  /** Appends the report of the RAID rule: a known scheme needs at least
      its minimum number of hosts. */
  method CheckRaidHosts(errors: seq<ValidationError>, raidLevel: string, hosts: int)
    returns (result: seq<ValidationError>)
    ensures result == errors + RaidErrors(raidLevel, hosts)
  {
    result := errors;
    var known := LookupRaid(raidLevel);
    if known.Some? {
      var minRequired := known.value.minHosts;
      if hosts < minRequired {
        result := result + [RaidNeedsMoreHosts(known.value.description, minRequired)];
      }
    }
  }

  /** The warning rules, appended in rule order: the raw capacity per host
      exceeds the largest tested configuration, and, at one VM per 2 TiB of
      logical data, the dataset needs more VMs than the hosts support. */
  method CollectWarnings(hosts: int, rawTiBPerHost: real, totalLogical: real)
    returns (warnings: seq<ValidationWarning>)
    ensures warnings == ValidationWarnings(hosts, rawTiBPerHost, totalLogical)
  {
    warnings := [];
    if rawTiBPerHost > MaxNVMeCapacityTiB {
      warnings := warnings + [AboveTestedNVMe(rawTiBPerHost, MaxNVMeCapacityTiB)];
    }
    var estimatedVMs := totalLogical / 2.0;
    if estimatedVMs > (hosts * MaxVMsPerHost) as real {
      warnings := warnings + [VmDensityExceeded(estimatedVMs, MaxVMsPerHost)];
    }
  }

  /** Validates the host count, raw capacity per host and RAID key of the
      form and the workload list, appending one report per rule that fires. */
  method ValidateInputs(form: Form, workloads: seq<WorkloadItem>)
    returns (errors: seq<ValidationError>, warnings: seq<ValidationWarning>)
    ensures errors == ValidationErrors(form.hosts, form.rawTiBPerHost, form.raidLevel, TotalLogical(workloads))
    ensures warnings == ValidationWarnings(form.hosts, form.rawTiBPerHost, TotalLogical(workloads))
    ensures ExactlyTheErrors(errors, form.hosts, form.rawTiBPerHost, form.raidLevel, TotalLogical(workloads))
    ensures ExactlyTheWarnings(warnings, form.hosts, form.rawTiBPerHost, TotalLogical(workloads))
  {
    errors := [];
    var hosts := form.hosts;
    var rawTiBPerHost := form.rawTiBPerHost;

    if hosts < 3 {
      errors := errors + [BelowQuorum];
    }
    if hosts > MaxHosts {
      errors := errors + [AboveMaxHosts(MaxHosts)];
    }
    ghost var hostErrors := errors;
    assert hostErrors == When(hosts < 3, BelowQuorum) + When(hosts > MaxHosts, AboveMaxHosts(MaxHosts));
    errors := CheckRaidHosts(errors, form.raidLevel, hosts);
    assert errors == hostErrors + RaidErrors(form.raidLevel, hosts);
    ghost var throughRaid := errors;
    if rawTiBPerHost < MinNVMeCapacityTiB {
      errors := errors + [BelowMinNVMe(MinNVMeCapacityTiB)];
    }
    assert errors == throughRaid + When(rawTiBPerHost < MinNVMeCapacityTiB, BelowMinNVMe(MinNVMeCapacityTiB));
    ghost var throughNVMe := errors;

    var totalLogical := TotalLogical(workloads);
    if totalLogical <= 0.0 {
      errors := errors + [EmptyDataset];
    }
    assert errors == throughNVMe + When(totalLogical <= 0.0, EmptyDataset);

    // The warning list does not depend on the errors, so its two rules are
    // collected together.
    warnings := CollectWarnings(hosts, rawTiBPerHost, totalLogical);
    assert ExactlyTheErrors(errors, hosts, rawTiBPerHost, form.raidLevel, totalLogical) by {
      ErrorsExactlyReported(hosts, rawTiBPerHost, form.raidLevel, totalLogical);
    }
    assert ExactlyTheWarnings(warnings, hosts, rawTiBPerHost, totalLogical) by {
      WarningsExactlyReported(hosts, rawTiBPerHost, totalLogical);
    }
  }
}
