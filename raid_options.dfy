/** The RAID option rule of the host-count handler: which schemes the host
    count admits, in table order, which schemes it does not (shown as
    limitations), and which scheme ends up selected. The option list itself
    is a form control; here it is returned as a list of keys, and a control
    left without options reads as the empty string. */
module RaidOptions {
  import opened EsaTables

  /** The keys of the entries of `table` that `hostCount` admits, in table order. */
  function AvailableKeys(table: seq<RaidRequirement>, hostCount: int): (keys: seq<string>)
    ensures |keys| <= |table|
  {
    if table == [] then []
    else
      var last := table[|table| - 1];
      AvailableKeys(table[..|table| - 1], hostCount) + (if hostCount >= last.minHosts then [last.key] else [])
  }

  /** The entries of `table` that `hostCount` does not admit, in table order. */
  function Limitations(table: seq<RaidRequirement>, hostCount: int): (ls: seq<RaidRequirement>)
    ensures |ls| <= |table|
  {
    if table == [] then []
    else
      var last := table[|table| - 1];
      Limitations(table[..|table| - 1], hostCount) + (if hostCount >= last.minHosts then [] else [last])
  }

  /** Every scheme of the table is either offered or listed as a
      limitation, and a limitation is a scheme the host count falls short of. */
  lemma {:induction false} OptionsCoverTable(table: seq<RaidRequirement>, hostCount: int)
    ensures |AvailableKeys(table, hostCount)| + |Limitations(table, hostCount)| == |table|
    ensures forall q :: q in Limitations(table, hostCount) ==> q in table && hostCount < q.minHosts
  {
    if table != [] {
      var init := table[..|table| - 1];
      OptionsCoverTable(init, hostCount);
      assert table == init + [table[|table| - 1]];
    }
  }

  /** A key is offered exactly when some entry with that key admits the host count. */
  lemma {:induction false} AvailableKeysMembers(table: seq<RaidRequirement>, hostCount: int, key: string)
    ensures key in AvailableKeys(table, hostCount) <==>
      exists q :: q in table && q.key == key && hostCount >= q.minHosts
  {
    if table != [] {
      var init, last := table[..|table| - 1], table[|table| - 1];
      AvailableKeysMembers(init, hostCount, key);
      assert table == init + [last];
      if key in AvailableKeys(table, hostCount) && key !in AvailableKeys(init, hostCount) {
        assert last.key == key && hostCount >= last.minHosts;
      }
    }
  }

  /** On the ESA table: every scheme from six hosts, the mirror and RAID-5
      from three hosts, none below three. */
  lemma EsaAvailableKeys(hostCount: int)
    ensures hostCount >= 6 ==> AvailableKeys(RaidTable, hostCount) == ["raid1", "raid5", "raid6"]
    ensures 3 <= hostCount < 6 ==> AvailableKeys(RaidTable, hostCount) == ["raid1", "raid5"]
    ensures hostCount < 3 ==> AvailableKeys(RaidTable, hostCount) == []
    ensures hostCount >= 6 ==> Limitations(RaidTable, hostCount) == []
    ensures 3 <= hostCount < 6 ==> Limitations(RaidTable, hostCount) == [RaidTable[2]]
    ensures hostCount < 3 ==> Limitations(RaidTable, hostCount) == RaidTable
  {
    var t1, t2 := RaidTable[..1], RaidTable[..2];
    assert t1[..0] == [] && t2[..1] == t1 && RaidTable[..2] == t2;
    assert AvailableKeys(t1, hostCount) == if hostCount >= 3 then ["raid1"] else [];
    assert AvailableKeys(t2, hostCount) == if hostCount >= 3 then ["raid1", "raid5"] else [];
    assert Limitations(t1, hostCount) == if hostCount >= 3 then [] else [RaidTable[0]];
    assert Limitations(t2, hostCount) == if hostCount >= 3 then [] else [RaidTable[0], RaidTable[1]];
  }

  /** Rebuilds the RAID choices for `hostCount`: the admitted keys in table
      order, the schemes not admitted, the new selection (the current value
      if still offered, otherwise "raid5" if offered, otherwise the first
      offered key, "" when nothing is offered), whether the limitations are
      shown, and whether any scheme is offered. */
  method UpdateRaidOptions(hostCount: int, currentValue: string)
    returns (available: seq<string>, limitations: seq<RaidRequirement>, selected: string,
             showLimitations: bool, anyAvailable: bool)
    ensures available == AvailableKeys(RaidTable, hostCount)
    ensures limitations == Limitations(RaidTable, hostCount)
    ensures forall key :: key in available <==>
      exists q :: q in RaidTable && q.key == key && hostCount >= q.minHosts
    ensures currentValue in available ==> selected == currentValue
    ensures currentValue !in available && "raid5" in available ==> selected == "raid5"
    ensures currentValue !in available && "raid5" !in available && available != [] ==> selected == available[0]
    ensures available != [] ==> selected in available
    ensures available == [] ==> selected == ""
    ensures showLimitations <==> hostCount < 6
    ensures anyAvailable <==> hostCount >= 3
  {
    available := [];
    limitations := [];
    for i := 0 to |RaidTable|
      invariant available == AvailableKeys(RaidTable[..i], hostCount)
      invariant limitations == Limitations(RaidTable[..i], hostCount)
    {
      var req := RaidTable[i];
      assert RaidTable[..i + 1][..i] == RaidTable[..i];
      if hostCount >= req.minHosts {
        available := available + [req.key];
      } else {
        limitations := limitations + [req];
      }
    }
    assert RaidTable[..|RaidTable|] == RaidTable;

    if currentValue in available {
      selected := currentValue;
    } else if "raid5" in available {
      selected := "raid5";
    } else if |available| > 0 {
      selected := available[0];
    } else {
      selected := "";
    }

    showLimitations := |limitations| > 0 && hostCount < 6;
    anyAvailable := |available| > 0;

    EsaAvailableKeys(hostCount);
    forall key ensures key in available <==>
      exists q :: q in RaidTable && q.key == key && hostCount >= q.minHosts
    {
      AvailableKeysMembers(RaidTable, hostCount, key);
    }
  }
}
