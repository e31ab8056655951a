/** The reference tables of the vSAN 9.0 ESA estimator: compression profile
    and similarity per workload type, the three RAID schemes in their
    declaration order, and the platform limits. All are immutable; every
    lookup falls back to a neutral value for a key the table lacks. */
module EsaTables {
  import opened Outcomes

  datatype CompressionProfile = CompressionProfile(min: real, max: real, default: real)

  const CompressionByType: map<string, CompressionProfile> := map[
    "full_clone_vdi" := CompressionProfile(2.0, 8.0, 4.0),
    "unstructured" := CompressionProfile(1.2, 2.5, 1.6),
    "oltp_sql" := CompressionProfile(1.0, 1.6, 1.2),
    "encrypted" := CompressionProfile(1.0, 1.05, 1.0),
    "backup" := CompressionProfile(1.5, 3.0, 2.0)
  ]

  const SimilarityByType: map<string, real> := map[
    "full_clone_vdi" := 0.85,
    "unstructured" := 0.35,
    "oltp_sql" := 0.15,
    "encrypted" := 0.0,
    "backup" := 0.5
  ]

  /** Display labels of the workload types. */
  const WorkloadTypeLabels: map<string, string> := map[
    "full_clone_vdi" := "VDI Clones",
    "unstructured" := "Unstructured",
    "oltp_sql" := "OLTP/SQL",
    "encrypted" := "Encrypted",
    "backup" := "Backup"
  ]

  datatype RaidRequirement = RaidRequirement(
    key: string, minHosts: int, overhead: real, description: string, esaScheme: string)

  /** The RAID schemes in the order the estimator enumerates them. */
  const RaidTable: seq<RaidRequirement> := [
    RaidRequirement("raid1", 3, 2.0, "RAID-1 Mirror (FTT=1)", "1+1 Mirroring"),
    RaidRequirement("raid5", 3, 1.25, "RAID-5 Adaptive Erasure Coding (FTT=1)", "2+1 or 4+1 Adaptive"),
    RaidRequirement("raid6", 6, 1.5, "RAID-6 Erasure Coding (FTT=2)", "4+2 Erasure Coding")
  ]

  // Platform limits.
  const MaxHosts: int := 64
  const MaxVMsPerHost: int := 500
  const MinNVMeCapacityTiB: real := 1.6
  const MaxNVMeCapacityTiB: real := 500.0
  const LfsOverheadPercent: real := 13.1
  const ChecksumOverheadPercent: real := 2.0

  /** The first entry of `table` with the given key, if any (the first one
      by `FindRequirementFirst`). */
  function FindRequirement(table: seq<RaidRequirement>, key: string): (r: Option<RaidRequirement>)
    ensures r.Some? ==> r.value in table && r.value.key == key
    ensures r.None? <==> forall q :: q in table ==> q.key != key
  {
    if table == [] then None
    else if table[0].key == key then Some(table[0])
    else FindRequirement(table[1..], key)
  }

  /** The entry found is the first with the key: no earlier entry carries it. */
  lemma {:induction false} FindRequirementFirst(table: seq<RaidRequirement>, key: string)
    ensures FindRequirement(table, key).Some? ==>
      exists i :: 0 <= i < |table| && table[i] == FindRequirement(table, key).value &&
        forall j :: 0 <= j < i ==> table[j].key != key
  {
    if table != [] && table[0].key != key {
      FindRequirementFirst(table[1..], key);
      if FindRequirement(table, key).Some? {
        var i :| 0 <= i < |table| - 1 && table[1..][i] == FindRequirement(table, key).value &&
          forall j :: 0 <= j < i ==> table[1..][j].key != key;
        assert table[i + 1] == FindRequirement(table, key).value;
        assert forall j :: 0 <= j < i + 1 ==> table[j].key != key by {
          forall j | 0 <= j < i + 1 ensures table[j].key != key {
            if j > 0 { assert table[j] == table[1..][j - 1]; }
          }
        }
      }
    }
  }

  /** `VSAN_ESA_RAID_REQUIREMENTS[key]`: the scheme named by `key`. */
  function LookupRaid(key: string): (r: Option<RaidRequirement>)
    ensures r.Some? <==> key == "raid1" || key == "raid5" || key == "raid6"
    ensures r.Some? ==> r.value in RaidTable && r.value.key == key
  {
    FindRequirement(RaidTable, key)
  }

  /** The overhead multiplier of a scheme; 1.25 for a key the table lacks. */
  function RaidOverhead(key: string): (o: real)
    ensures 1.25 <= o <= 2.0
    ensures LookupRaid(key).Some? ==> o == LookupRaid(key).value.overhead
    ensures LookupRaid(key).None? ==> o == 1.25
    ensures key == "raid1" ==> o == 2.0
    ensures key == "raid5" ==> o == 1.25
    ensures key == "raid6" ==> o == 1.5
  {
    match LookupRaid(key)
    case Some(req) => req.overhead
    case None => 1.25
  }

  /** The default compression factor of a workload type; 1.0 (no
      compression) for a type the table lacks. It never expands data and
      lies within the type's own bounds. */
  function CompressionDefault(workloadType: string): (f: real)
    ensures 1.0 <= f <= 4.0
    ensures workloadType in CompressionByType ==>
      CompressionByType[workloadType].min <= f <= CompressionByType[workloadType].max
    ensures workloadType in CompressionByType ==> f == CompressionByType[workloadType].default
    ensures workloadType !in CompressionByType ==> f == 1.0
  {
    if workloadType in CompressionByType then CompressionByType[workloadType].default else 1.0
  }

  /** The similarity coefficient of a workload type; 0 for a type the table lacks. */
  function Similarity(workloadType: string): (s: real)
    ensures 0.0 <= s <= 0.85
    ensures workloadType in SimilarityByType ==> s == SimilarityByType[workloadType]
    ensures workloadType !in SimilarityByType ==> s == 0.0
    ensures workloadType == "encrypted" ==> s == 0.0
  {
    if workloadType in SimilarityByType then SimilarityByType[workloadType] else 0.0
  }
}
