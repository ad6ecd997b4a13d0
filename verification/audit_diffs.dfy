/**
 * The reconciliation at the heart of the parity audit: `find_diffs` of the
 * sync and markdown scripts (exclusions, alias-aware flags, one entry per
 * distinct tag in first-insertion order), the markdown row mapping, and the
 * alias-free table of compare.py.
 */
module AuditDiffs {
  import opened Ordering
  import opened AuditPolicy
  import opened AuditInventory

  /** Whether a cloud resource has a provider resource and a provider data source. */
  datatype Status = Status(resource: bool, datasource: bool)

  /** A Python dict from cloud resource to status: its keys in insertion order
      and the mapping itself. */
  datatype StatusReport = StatusReport(keys: seq<string>, status: map<string, Status>)

  predicate Distinct(s: seq<string>)
  {
    forall i, j :: 0 <= i < j < |s| ==> s[i] != s[j]
  }

  /** The keys are listed once each, and exactly the mapped ones are listed. */
  predicate WellFormed(report: StatusReport)
  {
    Distinct(report.keys) && Elems(report.keys) == report.status.Keys
  }

  const EmptyReport := StatusReport([], map[])

  /** `d[k] = v`: a new key goes last, an existing key keeps its place. */
  function Put(report: StatusReport, k: string, v: Status): (r: StatusReport)
    requires WellFormed(report)
    ensures WellFormed(r)
    ensures r.status == report.status[k := v]
  {
    if k in report.status then StatusReport(report.keys, report.status[k := v])
    else StatusReport(report.keys + [k], report.status[k := v])
  }

  /** The flags `find_diffs` stores for one tag. */
  function StatusOf(policy: Policy, inv: Inventory, tag: string): Status
  {
    Status(ExistsInList(policy, tag, inv.resources), ExistsInList(policy, tag, inv.dataSources))
  }

  /** The report `find_diffs` builds from the tags, in order. */
  function Diffs(policy: Policy, inv: Inventory, tags: seq<string>): (r: StatusReport)
    ensures WellFormed(r)
  {
    if |tags| == 0 then EmptyReport
    else
      var before := Diffs(policy, inv, tags[..|tags| - 1]);
      var tag := tags[|tags| - 1];
      if tag in policy.excluded then before else Put(before, tag, StatusOf(policy, inv, tag))
  }

  /** `find_diffs` (both scripts): skip excluded tags, look each other tag up
      in both lists, and record the pair of flags under the tag. */
  method FindDiffs(policy: Policy, inv: Inventory, tags: seq<string>) returns (report: StatusReport)
    ensures report == Diffs(policy, inv, tags)
  {
    report := EmptyReport;
    var i := 0;
    while i < |tags|
      invariant 0 <= i <= |tags|
      invariant report == Diffs(policy, inv, tags[..i])
    {
      var tag := tags[i];
      assert tags[..i + 1][..i] == tags[..i];
      if tag !in policy.excluded {
        var hasResource := DoesExistInList(policy, tag, inv.resources);
        var hasDataSource := DoesExistInList(policy, tag, inv.dataSources);
        report := Put(report, tag, Status(hasResource, hasDataSource));
      }
      i := i + 1;
    }
    assert tags[..|tags|] == tags;
  }

  /** The tags not in the exclusion list, in order, with repeats. */
  function Kept(excluded: seq<string>, tags: seq<string>): seq<string>
  {
    if |tags| == 0 then []
    else if tags[|tags| - 1] in excluded then Kept(excluded, tags[..|tags| - 1])
    else Kept(excluded, tags[..|tags| - 1]) + [tags[|tags| - 1]]
  }

  /** The first occurrence of each element, in order. */
  function FirstOccurrences(s: seq<string>): seq<string>
  {
    if |s| == 0 then []
    else if s[|s| - 1] in FirstOccurrences(s[..|s| - 1]) then FirstOccurrences(s[..|s| - 1])
    else FirstOccurrences(s[..|s| - 1]) + [s[|s| - 1]]
  }

  lemma {:induction false} KeptMembers(excluded: seq<string>, tags: seq<string>, x: string)
    ensures x in Kept(excluded, tags) <==> x in tags && x !in excluded
  {
    if |tags| > 0 {
      var init := tags[..|tags| - 1];
      KeptMembers(excluded, init, x);
      assert tags == init + [tags[|tags| - 1]];
    }
  }

  /** The report's keys are the distinct non-excluded tags in order of first
      appearance, and each maps to its two flags. */
  lemma {:induction false} DiffsContents(policy: Policy, inv: Inventory, tags: seq<string>)
    ensures Diffs(policy, inv, tags).keys == FirstOccurrences(Kept(policy.excluded, tags))
    ensures forall k :: k in Diffs(policy, inv, tags).status ==>
      Diffs(policy, inv, tags).status[k] == StatusOf(policy, inv, k)
  {
    if |tags| > 0 {
      var init := tags[..|tags| - 1];
      DiffsContents(policy, inv, init);
      var before := Diffs(policy, inv, init);
      assert Elems(before.keys) == before.status.Keys;
      var tag := tags[|tags| - 1];
      if tag !in policy.excluded {
        var kept := Kept(policy.excluded, tags);
        assert kept == Kept(policy.excluded, init) + [tag];
        assert kept[..|kept| - 1] == Kept(policy.excluded, init);
        assert (tag in before.status) == (tag in before.keys) by {
          assert tag in before.keys ==> tag in Elems(before.keys);
        }
      }
    }
  }

  /** No excluded resource is ever reported, whatever the inventories hold. */
  lemma NeverReportsExcluded(policy: Policy, inv: Inventory, tags: seq<string>, k: string)
    requires k in policy.excluded
    ensures k !in Diffs(policy, inv, tags).status
    ensures k !in Diffs(policy, inv, tags).keys
  {
    DiffsContents(policy, inv, tags);
    var report := Diffs(policy, inv, tags);
    FirstOccurrencesMembers(Kept(policy.excluded, tags), k);
    KeptMembers(policy.excluded, tags, k);
    assert k in report.keys ==> k in Elems(report.keys);
  }

  /** Every non-excluded tag is reported. */
  lemma ReportsEveryKeptTag(policy: Policy, inv: Inventory, tags: seq<string>, k: string)
    requires k in tags && k !in policy.excluded
    ensures k in Diffs(policy, inv, tags).status
    ensures Diffs(policy, inv, tags).status[k] == StatusOf(policy, inv, k)
  {
    DiffsContents(policy, inv, tags);
    var report := Diffs(policy, inv, tags);
    FirstOccurrencesMembers(Kept(policy.excluded, tags), k);
    KeptMembers(policy.excluded, tags, k);
    assert k in Elems(report.keys);
  }

  lemma {:induction false} FirstOccurrencesMembers(s: seq<string>, x: string)
    ensures x in FirstOccurrences(s) <==> x in s
  {
    if |s| > 0 {
      var init := s[..|s| - 1];
      FirstOccurrencesMembers(init, x);
      assert s == init + [s[|s| - 1]];
    }
  }

  /** Reporting the same tags twice in a row changes nothing: duplicates collapse. */
  lemma DiffsIgnoresRepeats(policy: Policy, inv: Inventory, tags: seq<string>, k: string)
    requires k in tags
    ensures Diffs(policy, inv, tags + [k]) == Diffs(policy, inv, tags)
  {
    var before := Diffs(policy, inv, tags);
    assert (tags + [k])[..|tags|] == tags;
    if k !in policy.excluded {
      ReportsEveryKeptTag(policy, inv, tags, k);
      assert before.status[k := StatusOf(policy, inv, k)] == before.status;
    }
  }

  /** The docstring example of the markdown script: `artifacts` has a
      provider resource but no data source, `automations` has both; no
      exclusions and no aliases. */
  lemma DiffsExample()
    ensures Diffs(Policy([], map[]), Inventory(["artifacts", "automations"], ["automations"]), ["artifacts", "automations"])
      == StatusReport(["artifacts", "automations"],
                      map["artifacts" := Status(true, false), "automations" := Status(true, true)])
  {
    var p := Policy([], map[]);
    var inv := Inventory(["artifacts", "automations"], ["automations"]);
    var tags := ["artifacts", "automations"];
    assert tags[..1] == ["artifacts"];
    assert ["artifacts"][..0] == [];
    assert AliasesOf(p, "artifacts") == [];
    assert "artifacts" != "automations";
    assert StatusOf(p, inv, "artifacts") == Status(true, false);
    assert StatusOf(p, inv, "automations") == Status(true, true);
  }

  /** A rendered table row: the cloud resource and two check-mark cells. */
  datatype Row = Row(resource: string, resourceCell: string, datasourceCell: string)

  const Yes := "\U{2705}"
  const No := "\U{274C}"

  function Mark(flag: bool): string
  {
    if flag then Yes else No
  }

  /** The row mapping of `generate_wiki_markdown`: one row per report entry,
      in dictionary order, with a check mark exactly for a true flag. */
  function WikiRows(report: StatusReport): (rows: seq<Row>)
    requires WellFormed(report)
    ensures |rows| == |report.keys|
    ensures forall i :: 0 <= i < |rows| ==> rows[i].resource == report.keys[i]
    ensures forall i :: 0 <= i < |rows| ==>
      (rows[i].resourceCell == Yes <==> report.status[report.keys[i]].resource)
    ensures forall i :: 0 <= i < |rows| ==>
      (rows[i].datasourceCell == Yes <==> report.status[report.keys[i]].datasource)
  {
    assert forall i :: 0 <= i < |report.keys| ==> report.keys[i] in Elems(report.keys);
    assert Yes != No;
    seq(|report.keys|, i requires 0 <= i < |report.keys| =>
      var st := report.status[report.keys[i]];
      Row(report.keys[i], Mark(st.resource), Mark(st.datasource)))
  }

  /** `find_diffs` of compare.py: one row per tag, with no exclusion, no
      deduplication and no alias lookup. */
  method DirectRows(inv: Inventory, tags: seq<string>) returns (rows: seq<Row>)
    ensures |rows| == |tags|
    ensures forall i :: 0 <= i < |tags| ==> rows[i].resource == tags[i]
    ensures forall i :: 0 <= i < |tags| ==> (rows[i].resourceCell == Yes <==> tags[i] in inv.resources)
    ensures forall i :: 0 <= i < |tags| ==> (rows[i].datasourceCell == Yes <==> tags[i] in inv.dataSources)
  {
    rows := [];
    var i := 0;
    while i < |tags|
      invariant 0 <= i <= |tags|
      invariant |rows| == i
      invariant forall j :: 0 <= j < i ==> rows[j] == Row(tags[j], Mark(tags[j] in inv.resources), Mark(tags[j] in inv.dataSources))
    {
      var tag := tags[i];
      rows := rows + [Row(tag, Mark(tag in inv.resources), Mark(tag in inv.dataSources))];
      i := i + 1;
    }
    assert Yes != No;
  }

  /** A direct match is an alias-aware match, whatever the policy; the
      converse fails, as `BotCoveredByServiceAccount` shows. */
  lemma DirectImpliesAliasAware(policy: Policy, tag: string, names: seq<string>)
    ensures tag in names ==> ExistsInList(policy, tag, names)
  {
  }

  /** "flow" is reported by the markdown script and never by the sync script. */
  lemma FlowReportedOnlyByMarkdown(inv: Inventory, tags: seq<string>)
    requires "flow" in tags
    ensures "flow" in Diffs(MarkdownPolicy, inv, tags).status
    ensures "flow" !in Diffs(SyncPolicy, inv, tags).status
  {
    FlowExcludedOnlyBySync();
    ReportsEveryKeptTag(MarkdownPolicy, inv, tags, "flow");
    NeverReportsExcluded(SyncPolicy, inv, tags, "flow");
  }
}
