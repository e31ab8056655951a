# vSAN 9.0 ESA capacity estimator — Dafny model

This project models the estimation engine of a browser-based vSAN 9.0
Express Storage Architecture (ESA) capacity estimator, and proves properties
about it. The engine takes a cluster (host count, raw NVMe TiB per host, RAID
scheme, global compression switch, deduplication-domain mode, LFS and
checksum overhead percentages) and a list of workloads. It does two things:

- it validates them against the ESA platform limits;
- it runs the four-phase capacity pipeline:
  1. per-workload compression;
  2. cluster-wide post-process deduplication, scaled by a host-count curve;
  3. log-structured filesystem (LFS) overhead on object plus replica data;
  4. checksum overhead.

The result record holds:

- the net effective capacity;
- raw and usable capacity, and the capacity utilisation;
- the reduction ratios;
- an ordered list of capacity warnings and an ordered list of compliance notes;
- the RAID labels and six explanatory notes.

The model also covers the RAID-option rule of the host-count handler. That
rule decides which schemes a host count admits, and which one ends up
selected.

Modules, one per part of the engine:

- `Numeric` (`numeric.dfy`):
  - `clamp`, `safeDiv`, and the `x || d` fallback of form coercion;
  - the left-to-right sums that `reduce` computes.
- `Scaling` (`scaling.dfy`): the deduplication-domain scaling curve.
  - `Math.exp` is a parameter `exp`.
  - The predicate `ExpLike` constrains it: `exp(0) = 1`, it is positive and it is monotone.
- `EsaTables` (`tables.dfy`): the compression, similarity and RAID tables and the platform limits.
  - Every table lookup has its neutral fallback.
- `Workloads` (`workloads.dfy`): the workload record that the form reader produces, and the parsed cluster fields.
- `Validator` (`validator.dfy`): `validateInputs`.
  - It is a method that appends one report per rule that fires.
  - The two warning rules are collected together after the error rules. The source interleaves them with the error checks, but the two lists are independent, so each list comes out the same.
  - It is proved equal to a function that lists the reports.
  - Lemmas state which reports that function contains, and in what order.
- `RaidOptions` (`raid_options.dfy`): the availability, selection and "any available" rule of `updateRaidOptions`.
- `Estimator` (`estimator.dfy`): `calculateEstimate`.
  - Phase 1 is a per-item function.
  - Phase 2 is a loop that accumulates the savings total.
  - Phases 3–4, the capacity figures, the warnings and the compliance notes are small methods.
  - Each method is tied to a predicate or list function that is proved about separately.
- `Outcomes` (`outcomes.dfy`): `Option` and `Result`.

Modelling choices:

- Quantities are `real`.
- Messages are variants that carry the values they report, instead of formatted text.
- The one exception of `calculateEstimate` is a `Failure(NoWorkloadData)` result.
- Unparseable numeric input arrives as 0. This is the same as what `parseFloat(...) || 0` produces, because NaN is falsy as well.

## Model

| member | source | states |
|---|---|---|
| Numeric.Clamp | script.js:63-65 | the result is `value` inside the bounds and the nearer bound outside them; when the bounds are crossed the lower bound wins, so the result is never below `lo` |
| Numeric.SafeDiv | script.js:67-69 | the result is 0 for a zero denominator and otherwise multiplies back to the numerator; `a / a` is 1 |
| Numeric.OrDefault | script.js:272-274 | a non-falsy value is kept, a falsy one is replaced by the default, and a non-falsy default makes the result non-falsy |
| Numeric.Sum | script.js:287 | the left-to-right sum from 0 that every `reduce((sum, x) => sum + x, 0)` computes; it has no contract of its own, and its facts are `SumAppend`, `SumMonotone` and `SumNonNegative` |
| Numeric.SumAppend | script.js:317 | adding one more amount to the running total gives the sum of the extended list |
| Numeric.SumMonotone | script.js:304 | a pointwise smaller list of quantities has a smaller sum (induction) |
| Numeric.SumNonNegative | script.js:304 | a list of non-negative amounts has a non-negative sum (induction) |
| Scaling.ModeCap | script.js:73 | the cap is 1.0 for "aggressive", 0.85 for "typical" and 0.7 for every other mode string |
| Scaling.ModeRate | script.js:74 | the rate is 0.25 for "aggressive", 0.20 for "typical" and 0.15 for every other mode string |
| Scaling.ExtraHosts | script.js:75 | the count of hosts beyond two is 0 up to two hosts and `hosts - 2` above |
| Scaling.DomainScalingFactor | script.js:71-77 | the factor is 0 for at most two hosts, and always at least 0 and strictly below the mode's cap |
| Scaling.Realised | script.js:76 | `1 - exp(-k x)` lies in [0, 1) and grows with both the rate and the extra host count |
| Scaling.DomainScalingMonotone | script.js:71-77 | for a fixed mode, the factor never decreases when hosts are added |
| Scaling.DomainScalingModesOrdered | script.js:73-76 | at every host count: "aggressive" ≥ "typical" ≥ any other mode |
| EsaTables.FindRequirement | script.js:27-46 | the result is an entry of the table with the key, and it is absent exactly when no entry has that key |
| EsaTables.FindRequirementFirst | script.js:27-46 | the entry found is the first with the key: no earlier entry of the table carries it (induction) |
| EsaTables.LookupRaid | script.js:242-243 | exactly "raid1", "raid5" and "raid6" are known schemes, and a found entry carries the key asked for |
| EsaTables.RaidOverhead | script.js:278 | the overhead of a known scheme comes from its entry (2.0, 1.25, 1.5), an unknown key falls back to 1.25, and the result always lies in [1.25, 2.0] |
| EsaTables.CompressionDefault | script.js:295 | a known type gets the `default` of its table entry, which lies within the entry's min/max bounds; an unknown type falls back to 1.0; the factor always lies in [1.0, 4.0] |
| EsaTables.Similarity | script.js:311 | a known type gets its table entry; an unknown type falls back to 0; encrypted data has similarity 0; the result always lies in [0, 0.85] |
| Workloads.LogicalSizes | script.js:258 | one logical size per workload, in input order |
| Workloads.TotalLogical | script.js:258 | the summed logical size; it is non-negative when no workload is negative |
| Validator.CheckRaidHosts | script.js:241-247 | appends the RAID report to the errors so far: one entry for a known scheme with too few hosts, nothing otherwise |
| Validator.RaidErrors | script.js:241-247 | the report of the RAID rule: at most one entry, and one only when a known scheme needs more hosts than there are |
| Validator.ValidationErrors | script.js:233-259 | the error reports in rule order, at most one per rule and so at most five; which entries it holds is stated by `ErrorsExactlyReported`, `ErrorsIff` and `ErrorsInRuleOrder` |
| Validator.ValidationWarnings | script.js:253-265 | the warning reports in rule order, at most two; which entries it holds is stated by `WarningsExactlyReported` |
| Validator.CollectWarnings | script.js:253-265 | the two warning pushes give exactly the rule-order warning list: raw > 500 TiB, then half the logical TiB above `hosts * 500` |
| Validator.ValidateInputs | script.js:226-268 | the errors and warnings equal the rule-order report lists, and they hold exactly the reports of the rules that fire |
| Validator.AppendRuleReport | script.js:233-259 | appending at most one report of a later rule keeps the error list in rule order |
| Validator.FiveRulesInOrder | script.js:233-259 | concatenating the five rules' reports gives a list in rule order |
| Validator.RaidErrorsMembers | script.js:241-247 | the RAID rule reports at most once, and only for a known scheme the hosts fall short of |
| Validator.ErrorsExactlyReported | script.js:233-259 | an error is in the list exactly when its rule fires with those reported values |
| Validator.ErrorsInRuleOrder | script.js:233-259 | the errors appear in the order of the checks (quorum, max hosts, RAID, NVMe, empty dataset), each rule at most once |
| Validator.ErrorsIff | script.js:233-259 | the error list is non-empty exactly when hosts < 3, hosts > 64, a known scheme needs more hosts, raw < 1.6 TiB, or the logical total is ≤ 0; an unknown RAID key adds no RAID error |
| Validator.WarningsExactlyReported | script.js:253-265 | a warning is in the list exactly when raw > 500 TiB or the VM estimate exceeds `hosts * 500`, each at most once and in that order |
| RaidOptions.AvailableKeys | script.js:95-105 | the keys of the schemes the host count admits, in table order; never more than the table holds |
| RaidOptions.Limitations | script.js:95-105 | the schemes the host count does not admit, in table order; never more than the table holds |
| RaidOptions.OptionsCoverTable | script.js:95-105 | every scheme is either offered or listed as a limitation, and each limitation is a table scheme whose minimum exceeds the host count (induction) |
| RaidOptions.AvailableKeysMembers | script.js:95-105 | a key is offered exactly when some table entry with that key admits the host count (induction) |
| RaidOptions.EsaAvailableKeys | script.js:95-105 | from 6 hosts all three schemes are offered; from 3 to 5 hosts raid1 and raid5, with raid6 listed as a limitation; below 3 hosts none |
| RaidOptions.UpdateRaidOptions | script.js:84-134 | the offered keys are the admitted schemes in table order; the current value is kept if offered, otherwise raid5, otherwise the first offered key; the selection is offered whenever anything is; limitations are shown exactly below 6 hosts; the result is true exactly from 3 hosts |
| Estimator.EstimatorSettings | script.js:272-284 | every zero or empty field is replaced by its default (6 hosts, 20 TiB, raid5, typical, 13.1 %, 2 %); a non-zero field is kept, the percentages becoming rates |
| Estimator.CompressWorkload | script.js:294-302 | the factor is the type's default when compression is on globally and for the item, and 1.0 otherwise (then compressed = logical); compressed times factor gives back the logical size; cold is compressed × coldPct for a coldPct in [0, 1], 0 below that range and all of compressed above it; cold lies in [0, compressed] ⊆ [0, logical] for non-negative data |
| Estimator.DedupeProbability | script.js:312 | the probability lies in [0, 1], and it is similarity × scaling for in-range inputs |
| Estimator.DedupeSavings | script.js:315 | the savings are never negative; they never exceed a non-negative cold amount; they are 0 for a non-positive cold amount; for in-range inputs they are cold × probability × efficiency |
| Estimator.DedupeEfficiency | script.js:314 | the efficiency is 0.6 for data that was compressed and 0.75 otherwise |
| Estimator.DedupeWorkload | script.js:310-320 | keeps the phase-1 record; similarity is `Similarity` of the item's type, which is its table entry; probability lies in [0, 1]; savings lie in [0, cold], and are cold × probability × efficiency (0.6 for compressed items, 0.75 otherwise) |
| Estimator.CompressAll | script.js:294-302 | one compressed record per workload, in input order |
| Estimator.CompressedSizes | script.js:304 | one compressed size per record, in order |
| Estimator.SavingsAmounts | script.js:317 | one savings amount per record, in order |
| Estimator.TotalCompressed | script.js:304 | the sum of the compressed sizes; it is non-negative when every compressed size is |
| Estimator.TotalSavings | script.js:309-317 | the sum of the per-item savings; it is non-negative when every item's savings are |
| Estimator.CompressionOffKeepsTotal | script.js:297-304 | with global compression off, the compressed total is the logical total, whatever the per-item flags |
| Estimator.CompressionShrinksTotal | script.js:294-304 | compression never grows the total of non-negative data |
| Estimator.Deduplicate | script.js:309-320 | the per-item phase-2 records come in input order; the accumulated total is the sum of their savings; it is never negative, and it is at most the compressed total when every cold part lies within its compressed size |
| Estimator.CapacityWarningList | script.js:345-353 | the capacity warnings in rule order, at most three; which entries it holds is stated by `WarningsExactlyFire` |
| Estimator.ComplianceList | script.js:356-364 | the compliance notes in rule order, at most three; which entries it holds is stated by `ComplianceExactlyHolds` |
| Estimator.WarningsExactlyFire | script.js:345-353 | a capacity warning is listed exactly when its rule fires (net > usable, utilisation > 85 %, reduction > 8×), each once and in that order, and only warning kinds appear |
| Estimator.ComplianceExactlyHolds | script.js:356-364 | a compliance note is listed exactly when its rule holds (raw ≥ 1.6 TiB, 3 ≤ hosts ≤ 64, raid5 with ≥ 3 hosts), each once and in that order, and no warning kind appears |
| Estimator.ViolationMeansHighUtilization | script.js:336-350 | when usable capacity is positive, a capacity violation always comes with the high-utilisation warning |
| Estimator.CapacityWarnings | script.js:342-353 | the warnings appended are the rule-order capacity warning list |
| Estimator.ComplianceNotes | script.js:355-364 | the notes appended are the rule-order compliance list |
| Estimator.StorageOverheads | script.js:324-333 | replica data is `afterDedupe * (overhead - 1)`; LFS overhead applies to object plus replica data; checksum overhead applies to post-dedupe data; net effective is `afterDedupe * (1 + overhead * lfsRate + checksumRate)` |
| Estimator.PhysicalCapacity | script.js:277-279 | total raw capacity is hosts × raw per host; usable capacity times the overhead gives it back; usable capacity is 0 exactly when there are no hosts or no raw capacity |
| Estimator.Summarise | script.js:322-384 | the result carries the phase totals, the overhead composition and the capacity figures; each ratio is 0 on a zero denominator and otherwise multiplies back; the warnings and compliance equal their rule lists; the labels come from the table or are the "Unknown" labels; there are six notes |
| Estimator.CalculateEstimate | script.js:271-384 | fails exactly when the logical total is 0. On success: the breakdown keeps input length, order and fields; the totals are the phase sums with afterDedupe ≤ totalCompressed (and 0 ≤ afterDedupe ≤ totalCompressed ≤ logical for non-negative data); the overhead identity, ratio, warning, compliance and label facts of `Summarise` hold; domain scaling lies in [0, cap) |

## Left out

- DOM reading and writing are not modelled. This covers the workload form traversal, creating and removing workload rows, building `<option>` elements and `innerHTML`, the animation, the waterfall chart, and the result, error, warning and compliance panels. The model takes already-parsed values and returns structured results.
- The 200 ms `autoCalculate` debounce timer and the `DOMContentLoaded` event wiring are not modelled. They are timing and event plumbing.
- `formatNumber`, `toFixed` and the message and note text, including its emoji, are not modelled. Each message and note is a variant carrying the values it reports.
- IEEE-754 rounding, NaN and Infinity are not modelled. Arithmetic is on exact reals.
- Scaling.DomainScalingFactor: `Math.exp` is the parameter `exp`, and the model assumes only what `ExpLike` states of it. The factor's approach to the cap as hosts grow is therefore not stated, only that it stays below the cap.
- `parseInt` and `parseFloat` of text are not modelled. Numeric fields arrive parsed, and an unparseable one arrives as 0.
- The host-count fallbacks differ between the two entry points. The validator sees 0 hosts for an empty field (`|| 0`), which is the form value as given. The estimator sees 6 (`|| 6`, `Estimator.EstimatorSettings`).
- The global `workloadCounter` id generator is not modelled. Ids are plain input fields.
- The unused limits `maxComponentsPerHost` and `avgComponentsPerVM` are not modelled.
- Keys that JavaScript objects inherit from their prototype are not modelled. Examples are a workload type or RAID key such as "toString". Any key not in a table is treated as unknown. For RAID keys this gives the same result as the source: no RAID error, overhead 1.25 and the "Unknown" labels.
- "The validator does not mutate its inputs" has no separate statement. Inputs are values in the model.
- The capacity utilisation is a plain division, not a `safeDiv`. After the estimator's fallbacks the host count and raw capacity are non-zero, so the usable capacity is never 0 and no division by zero arises.
