/**
 * `sync_github_issues` of the sync script: the open parity-audit issues are
 * fetched once (the snapshot), issues for excluded or fully implemented
 * resources are closed, and every resource still missing something gets its
 * issue's body refreshed or a new issue.
 *
 * The tracker is abstract state: a sequence of issues, an issue being
 * identified by its position. The snapshot is the list of positions the
 * label query returned, in the order the service returned them.
 */
module IssueSync {
  import opened Wrappers
  import opened Text
  import opened Ordering
  import opened AuditPolicy
  import opened AuditDiffs

  datatype CloseReason = NotPlanned | Completed
  datatype IssueState = Open | Closed(reason: CloseReason)
  datatype Issue = Issue(title: string, state: IssueState, body: string, labels: seq<string>)

  const TitlePrefix := "Feature Request: "
  const AuditLabel := "parity-audit"

  /** The issue tracker: close, edit and create are its only operations. */
  class IssueTracker {
    var issues: seq<Issue>

    constructor (initial: seq<Issue>)
      ensures issues == initial
    {
      issues := initial;
    }

    /** `issue.edit(state="closed", state_reason=...)`. */
    method Close(i: nat, reason: CloseReason)
      requires i < |issues|
      modifies this
      ensures issues == old(issues)[i := old(issues)[i].(state := Closed(reason))]
    {
      issues := issues[i := issues[i].(state := Closed(reason))];
    }

    /** `issue.edit(body=...)`. */
    method EditBody(i: nat, body: string)
      requires i < |issues|
      modifies this
      ensures issues == old(issues)[i := old(issues)[i].(body := body)]
    {
      issues := issues[i := issues[i].(body := body)];
    }

    /** `repo.create_issue(...)`: a new open issue at the end. */
    method Create(title: string, body: string, labels: seq<string>)
      modifies this
      ensures issues == old(issues) + [Issue(title, Open, body, labels)]
    {
      issues := issues + [Issue(title, Open, body, labels)];
    }
  }

  /** Open and labelled: what the label query returns. */
  predicate Listed(issue: Issue)
  {
    issue.state == Open && AuditLabel in issue.labels
  }

  /** The snapshot names each issue once, and only issues that exist. */
  predicate ValidSnapshot(issues: seq<Issue>, snapshot: seq<nat>)
  {
    (forall m :: 0 <= m < |snapshot| ==> snapshot[m] < |issues|) &&
    (forall m, n :: 0 <= m < n < |snapshot| ==> snapshot[m] != snapshot[n])
  }

  /** The snapshot is an answer to the label query: exactly the listed issues. */
  predicate IsQueryResult(issues: seq<Issue>, snapshot: seq<nat>)
  {
    ValidSnapshot(issues, snapshot) &&
    (forall m :: 0 <= m < |snapshot| ==> Listed(issues[snapshot[m]])) &&
    (forall i :: 0 <= i < |issues| && Listed(issues[i]) ==> i in snapshot)
  }

  /** The resource an issue asks for: its title without the prefix. */
  function Requested(title: string): string
  {
    TrimPrefix(title, TitlePrefix)
  }

  /** The requested resource of each snapshot issue, in snapshot order. */
  function SnapshotTails(issues: seq<Issue>, snapshot: seq<nat>): (tails: seq<string>)
    requires ValidSnapshot(issues, snapshot)
    ensures |tails| == |snapshot|
    ensures forall m :: 0 <= m < |snapshot| ==> tails[m] == Requested(issues[snapshot[m]].title)
  {
    seq(|snapshot|, m requires 0 <= m < |snapshot| => Requested(issues[snapshot[m]].title))
  }

  function BoolJson(b: bool): string
  {
    if b then "true" else "false"
  }

  /** `json.dumps` of a status entry. */
  function StatusJson(st: Status): string
  {
    "{\"resource\": " + BoolJson(st.resource) + ", \"datasource\": " + BoolJson(st.datasource) + "}"
  }

  function IssueBody(st: Status): string
  {
    "Implementation Status: `" + StatusJson(st) + "`"
  }

  predicate Pending(st: Status)
  {
    !(st.resource && st.datasource)
  }

  /** Why, if at all, the closing loop closes an issue asking for resource `r`. */
  function Verdict(policy: Policy, report: StatusReport, r: string): Option<CloseReason>
  {
    if r in policy.excluded then Some(NotPlanned)
    else if r in report.status && !Pending(report.status[r]) then Some(Completed)
    else None
  }

  /** Applies the closing loop's edits to the snapshot positions `snapshot[..n]`. */
  function AfterClosing(issues: seq<Issue>, snapshot: seq<nat>, tails: seq<string>, policy: Policy, report: StatusReport): (r: seq<Issue>)
    requires ValidSnapshot(issues, snapshot) && |tails| == |snapshot|
    ensures |r| == |issues|
  {
    if |snapshot| == 0 then issues
    else
      var n := |snapshot| - 1;
      var before := AfterClosing(issues, snapshot[..n], tails[..n], policy, report);
      match Verdict(policy, report, tails[n])
      case Some(reason) => before[snapshot[n] := before[snapshot[n]].(state := Closed(reason))]
      case None => before
  }

  /** The closing loop of `sync_github_issues`. */
  method CloseResolved(t: IssueTracker, snapshot: seq<nat>, tails: seq<string>, policy: Policy, report: StatusReport)
    requires ValidSnapshot(t.issues, snapshot) && |tails| == |snapshot|
    modifies t
    ensures t.issues == AfterClosing(old(t.issues), snapshot, tails, policy, report)
  {
    ghost var start := t.issues;
    var m := 0;
    while m < |snapshot|
      invariant 0 <= m <= |snapshot|
      invariant t.issues == AfterClosing(start, snapshot[..m], tails[..m], policy, report)
    {
      assert snapshot[..m + 1][..m] == snapshot[..m];
      assert tails[..m + 1][..m] == tails[..m];
      match Verdict(policy, report, tails[m]) {
        case Some(reason) => t.Close(snapshot[m], reason);
        case None =>
      }
      m := m + 1;
    }
    assert snapshot[..|snapshot|] == snapshot;
    assert tails[..|tails|] == tails;
  }

  /** Sets the body of every snapshot issue among `snapshot` asking for `k`. */
  function EditMatching(issues: seq<Issue>, snapshot: seq<nat>, tails: seq<string>, k: string, body: string): (r: seq<Issue>)
    requires ValidSnapshot(issues, snapshot) && |tails| == |snapshot|
    ensures |r| == |issues|
  {
    if |snapshot| == 0 then issues
    else
      var n := |snapshot| - 1;
      var before := EditMatching(issues, snapshot[..n], tails[..n], k, body);
      if tails[n] == k then before[snapshot[n] := before[snapshot[n]].(body := body)] else before
  }

  /** One round of the upsert loop for resource `k`. In the source as written the
      body edit goes to the last snapshot issue (the closing loop's leftover
      variable); corrected, it goes to the issues that ask for `k`. */
  function UpsertOne(issues: seq<Issue>, snapshot: seq<nat>, tails: seq<string>, k: string, st: Status, asWritten: bool): (r: seq<Issue>)
    requires ValidSnapshot(issues, snapshot) && |tails| == |snapshot|
    ensures |r| >= |issues|
  {
    if !Pending(st) then issues
    else if k in tails then
      if asWritten then
        var last := snapshot[|snapshot| - 1];
        issues[last := issues[last].(body := IssueBody(st))]
      else EditMatching(issues, snapshot, tails, k, IssueBody(st))
    else issues + [Issue(TitlePrefix + k, Open, IssueBody(st), [AuditLabel])]
  }

  /** The upsert loop over `keys`, in order. */
  function Upsert(issues: seq<Issue>, snapshot: seq<nat>, tails: seq<string>, keys: seq<string>, status: map<string, Status>, asWritten: bool): (r: seq<Issue>)
    requires ValidSnapshot(issues, snapshot) && |tails| == |snapshot|
    requires forall k :: k in keys ==> k in status
    ensures |r| >= |issues|
  {
    if |keys| == 0 then issues
    else
      var n := |keys| - 1;
      var before := Upsert(issues, snapshot, tails, keys[..n], status, asWritten);
      UpsertOne(before, snapshot, tails, keys[n], status[keys[n]], asWritten)
  }

  /** The tracker after a whole run. */
  function Sync(issues: seq<Issue>, snapshot: seq<nat>, policy: Policy, report: StatusReport, asWritten: bool): (r: seq<Issue>)
    requires ValidSnapshot(issues, snapshot) && WellFormed(report)
    ensures |r| >= |issues|
  {
    var tails := SnapshotTails(issues, snapshot);
    assert forall k :: k in report.keys ==> k in report.status by {
      forall k | k in report.keys ensures k in report.status { assert k in Elems(report.keys); }
    }
    Upsert(AfterClosing(issues, snapshot, tails, policy, report), snapshot, tails, report.keys, report.status, asWritten)
  }

  /** The upsert loop of the source as written. */
  method UpsertAsWritten(t: IssueTracker, snapshot: seq<nat>, tails: seq<string>, report: StatusReport)
    requires ValidSnapshot(t.issues, snapshot) && |tails| == |snapshot| && WellFormed(report)
    modifies t
    ensures t.issues == Upsert(old(t.issues), snapshot, tails, report.keys, report.status, true)
  {
    ghost var start := t.issues;
    var keys := report.keys;
    assert forall k :: k in keys ==> k in report.status by {
      forall k | k in keys ensures k in report.status { assert k in Elems(keys); }
    }
    var n := 0;
    while n < |keys|
      invariant 0 <= n <= |keys|
      invariant t.issues == Upsert(start, snapshot, tails, keys[..n], report.status, true)
    {
      assert keys[..n + 1][..n] == keys[..n];
      var k := keys[n];
      var st := report.status[k];
      if Pending(st) {
        var body := IssueBody(st);
        if k in tails {
          t.EditBody(snapshot[|snapshot| - 1], body);
        } else {
          t.Create(TitlePrefix + k, body, [AuditLabel]);
        }
      }
      n := n + 1;
    }
    assert keys[..|keys|] == keys;
  }

  /** The upsert loop with the edit addressed to the matching issues. */
  method UpsertCorrected(t: IssueTracker, snapshot: seq<nat>, tails: seq<string>, report: StatusReport)
    requires ValidSnapshot(t.issues, snapshot) && |tails| == |snapshot| && WellFormed(report)
    modifies t
    ensures t.issues == Upsert(old(t.issues), snapshot, tails, report.keys, report.status, false)
  {
    ghost var start := t.issues;
    var keys := report.keys;
    assert forall k :: k in keys ==> k in report.status by {
      forall k | k in keys ensures k in report.status { assert k in Elems(keys); }
    }
    var n := 0;
    while n < |keys|
      invariant 0 <= n <= |keys|
      invariant t.issues == Upsert(start, snapshot, tails, keys[..n], report.status, false)
    {
      assert keys[..n + 1][..n] == keys[..n];
      var k := keys[n];
      var st := report.status[k];
      if Pending(st) {
        var body := IssueBody(st);
        if k in tails {
          ghost var before := t.issues;
          var m := 0;
          while m < |snapshot|
            invariant 0 <= m <= |snapshot|
            invariant t.issues == EditMatching(before, snapshot[..m], tails[..m], k, body)
          {
            assert snapshot[..m + 1][..m] == snapshot[..m];
            assert tails[..m + 1][..m] == tails[..m];
            if tails[m] == k {
              t.EditBody(snapshot[m], body);
            }
            m := m + 1;
          }
          assert snapshot[..|snapshot|] == snapshot;
          assert tails[..|tails|] == tails;
        } else {
          t.Create(TitlePrefix + k, body, [AuditLabel]);
        }
      }
      n := n + 1;
    }
    assert keys[..|keys|] == keys;
  }

  /** `sync_github_issues` as written. */
  method SyncGithubIssues(t: IssueTracker, snapshot: seq<nat>, policy: Policy, report: StatusReport)
    requires IsQueryResult(t.issues, snapshot) && WellFormed(report)
    modifies t
    ensures t.issues == Sync(old(t.issues), snapshot, policy, report, true)
  {
    var tails := SnapshotTails(t.issues, snapshot);
    CloseResolved(t, snapshot, tails, policy, report);
    UpsertAsWritten(t, snapshot, tails, report);
  }

  /** `sync_github_issues` with each body edit addressed to the matching issue. */
  method SyncGithubIssuesCorrected(t: IssueTracker, snapshot: seq<nat>, policy: Policy, report: StatusReport)
    requires IsQueryResult(t.issues, snapshot) && WellFormed(report)
    modifies t
    ensures t.issues == Sync(old(t.issues), snapshot, policy, report, false)
  {
    var tails := SnapshotTails(t.issues, snapshot);
    CloseResolved(t, snapshot, tails, policy, report);
    UpsertCorrected(t, snapshot, tails, report);
  }

  /** The state the closing loop gives an issue, from its verdict. */
  function ClosedState(verdict: Option<CloseReason>, state: IssueState): IssueState
  {
    match verdict
    case Some(reason) => Closed(reason)
    case None => state
  }

  /** The closing loop touches only states, and only those of snapshot issues
      with a verdict. */
  lemma {:induction false} AfterClosingAt(issues: seq<Issue>, snapshot: seq<nat>, tails: seq<string>, policy: Policy, report: StatusReport, i: nat)
    requires ValidSnapshot(issues, snapshot) && |tails| == |snapshot| && i < |issues|
    ensures var r := AfterClosing(issues, snapshot, tails, policy, report);
      r[i].title == issues[i].title && r[i].labels == issues[i].labels && r[i].body == issues[i].body
    ensures var r := AfterClosing(issues, snapshot, tails, policy, report);
      forall m :: 0 <= m < |snapshot| && snapshot[m] == i ==>
        r[i].state == ClosedState(Verdict(policy, report, tails[m]), issues[i].state)
    ensures i !in snapshot ==> AfterClosing(issues, snapshot, tails, policy, report)[i].state == issues[i].state
  {
    if |snapshot| > 0 {
      var n := |snapshot| - 1;
      var sp, tp := snapshot[..n], tails[..n];
      assert ValidSnapshot(issues, sp);
      AfterClosingAt(issues, sp, tp, policy, report, i);
      var before := AfterClosing(issues, sp, tp, policy, report);
      var r := AfterClosing(issues, snapshot, tails, policy, report);
      assert r[i].title == before[i].title && r[i].labels == before[i].labels && r[i].body == before[i].body;
      forall m | 0 <= m < |snapshot| && snapshot[m] == i
        ensures r[i].state == ClosedState(Verdict(policy, report, tails[m]), issues[i].state)
      {
        if m < n {
          assert sp[m] == snapshot[m] && tp[m] == tails[m];
          assert snapshot[n] != i;
        }
      }
      if i !in snapshot {
        assert i !in sp;
      }
    }
  }

  /** Body edits to matching issues touch nothing but bodies. */
  lemma {:induction false} EditMatchingAt(issues: seq<Issue>, snapshot: seq<nat>, tails: seq<string>, k: string, body: string, i: nat)
    requires ValidSnapshot(issues, snapshot) && |tails| == |snapshot| && i < |issues|
    ensures var r := EditMatching(issues, snapshot, tails, k, body);
      r[i].title == issues[i].title && r[i].state == issues[i].state && r[i].labels == issues[i].labels
    ensures var r := EditMatching(issues, snapshot, tails, k, body);
      (exists m :: 0 <= m < |snapshot| && snapshot[m] == i && tails[m] == k) ==> r[i].body == body
    ensures var r := EditMatching(issues, snapshot, tails, k, body);
      (forall m :: 0 <= m < |snapshot| && snapshot[m] == i ==> tails[m] != k) ==> r[i].body == issues[i].body
  {
    if |snapshot| > 0 {
      var n := |snapshot| - 1;
      EditMatchingAt(issues, snapshot[..n], tails[..n], k, body, i);
      assert forall m :: 0 <= m < n ==> snapshot[..n][m] == snapshot[m] && tails[..n][m] == tails[m];
    }
  }

  /** The upsert loop keeps the title, state and labels of every existing issue. */
  lemma {:induction false} UpsertKeeps(issues: seq<Issue>, snapshot: seq<nat>, tails: seq<string>, keys: seq<string>, status: map<string, Status>, asWritten: bool, i: nat)
    requires ValidSnapshot(issues, snapshot) && |tails| == |snapshot|
    requires forall k :: k in keys ==> k in status
    requires i < |issues|
    ensures var r := Upsert(issues, snapshot, tails, keys, status, asWritten);
      r[i].title == issues[i].title && r[i].state == issues[i].state && r[i].labels == issues[i].labels
  {
    if |keys| > 0 {
      var n := |keys| - 1;
      UpsertKeeps(issues, snapshot, tails, keys[..n], status, asWritten, i);
      var before := Upsert(issues, snapshot, tails, keys[..n], status, asWritten);
      if Pending(status[keys[n]]) && keys[n] in tails && !asWritten {
        EditMatchingAt(before, snapshot, tails, keys[n], IssueBody(status[keys[n]]), i);
      }
    }
  }

  /** An open, labelled issue titled for resource `k`. */
  predicate IssueFor(issue: Issue, k: string)
  {
    issue.title == TitlePrefix + k && Listed(issue)
  }

  /** Some issue at position `from` or later is an open issue for `k`. */
  predicate HasIssueFor(issues: seq<Issue>, from: nat, k: string)
  {
    exists j :: from <= j < |issues| && IssueFor(issues[j], k)
  }

  /** Every pending resource that no snapshot issue asks for gets a new open,
      labelled issue titled with the prefix. */
  lemma {:induction false} UpsertCreates(issues: seq<Issue>, snapshot: seq<nat>, tails: seq<string>, keys: seq<string>, status: map<string, Status>, asWritten: bool, k: string)
    requires ValidSnapshot(issues, snapshot) && |tails| == |snapshot|
    requires forall k :: k in keys ==> k in status
    requires k in keys && Pending(status[k]) && k !in tails
    ensures HasIssueFor(Upsert(issues, snapshot, tails, keys, status, asWritten), |issues|, k)
  {
    var n := |keys| - 1;
    var before := Upsert(issues, snapshot, tails, keys[..n], status, asWritten);
    var r := Upsert(issues, snapshot, tails, keys, status, asWritten);
    if keys[n] == k {
      assert r == before + [Issue(TitlePrefix + k, Open, IssueBody(status[k]), [AuditLabel])];
      assert AuditLabel in r[|before|].labels;
      assert Listed(r[|before|]);
      assert |issues| <= |before| < |r| && r[|before|].title == TitlePrefix + k;
    } else {
      assert k in keys[..n];
      UpsertCreates(issues, snapshot, tails, keys[..n], status, asWritten, k);
      var j :| |issues| <= j < |before| && IssueFor(before[j], k);
      UpsertKeeps(before, snapshot, tails, [keys[n]], status, asWritten, j);
      assert [keys[n]][..0] == [];
    }
  }

  /** When every pending resource already has an issue, nothing is created. */
  lemma {:induction false} UpsertCreatesNothing(issues: seq<Issue>, snapshot: seq<nat>, tails: seq<string>, keys: seq<string>, status: map<string, Status>, asWritten: bool)
    requires ValidSnapshot(issues, snapshot) && |tails| == |snapshot|
    requires forall k :: k in keys ==> k in status
    requires forall k :: k in keys && Pending(status[k]) ==> k in tails
    ensures |Upsert(issues, snapshot, tails, keys, status, asWritten)| == |issues|
  {
    if |keys| > 0 {
      UpsertCreatesNothing(issues, snapshot, tails, keys[..|keys| - 1], status, asWritten);
    }
  }

  /** The closing rule: an issue asking for an excluded resource is closed as
      not planned, one asking for a fully implemented resource as completed,
      and every other issue of the snapshot keeps its state. */
  lemma SyncCloses(issues: seq<Issue>, snapshot: seq<nat>, policy: Policy, report: StatusReport, asWritten: bool, m: nat)
    requires ValidSnapshot(issues, snapshot) && WellFormed(report) && m < |snapshot|
    ensures var r := Sync(issues, snapshot, policy, report, asWritten);
      var wanted := Requested(issues[snapshot[m]].title);
      r[snapshot[m]].state ==
        if wanted in policy.excluded then Closed(NotPlanned)
        else if wanted in report.status && !Pending(report.status[wanted]) then Closed(Completed)
        else issues[snapshot[m]].state
  {
    var tails := SnapshotTails(issues, snapshot);
    var closed := AfterClosing(issues, snapshot, tails, policy, report);
    AfterClosingAt(issues, snapshot, tails, policy, report, snapshot[m]);
    assert forall k :: k in report.keys ==> k in report.status by {
      forall k | k in report.keys ensures k in report.status { assert k in Elems(report.keys); }
    }
    UpsertKeeps(closed, snapshot, tails, report.keys, report.status, asWritten, snapshot[m]);
  }

  /** A second run, on a fresh query, creates no issue: every resource still
      pending has exactly the issue the first run left open for it. */
  lemma RerunCreatesNothing(issues: seq<Issue>, snapshot: seq<nat>, policy: Policy, report: StatusReport,
                            asWritten: bool, snapshot2: seq<nat>)
    requires IsQueryResult(issues, snapshot) && WellFormed(report)
    requires forall k :: k in report.keys ==> k !in policy.excluded
    requires IsQueryResult(Sync(issues, snapshot, policy, report, asWritten), snapshot2)
    ensures var once := Sync(issues, snapshot, policy, report, asWritten);
      |Sync(once, snapshot2, policy, report, asWritten)| == |once|
  {
    var once := Sync(issues, snapshot, policy, report, asWritten);
    var tails := SnapshotTails(issues, snapshot);
    var closed := AfterClosing(issues, snapshot, tails, policy, report);
    var tails2 := SnapshotTails(once, snapshot2);
    assert keysMapped: forall k :: k in report.keys ==> k in report.status by {
      forall k | k in report.keys ensures k in report.status { assert k in Elems(report.keys); }
    }
    forall k | k in report.keys && Pending(report.status[k])
      ensures k in tails2
    {
      var j: nat;
      if k in tails {
        var m :| 0 <= m < |tails| && tails[m] == k;
        j := snapshot[m];
        AfterClosingAt(issues, snapshot, tails, policy, report, j);
        UpsertKeeps(closed, snapshot, tails, report.keys, report.status, asWritten, j);
        assert once[j].title == issues[j].title;
      } else {
        UpsertCreates(closed, snapshot, tails, report.keys, report.status, asWritten, k);
        j :| |closed| <= j < |once| && IssueFor(once[j], k);
        TrimPrefixAfterPrefix(TitlePrefix, k);
      }
      assert Listed(once[j]) && Requested(once[j].title) == k;
      var m2 :| 0 <= m2 < |snapshot2| && snapshot2[m2] == j;
      assert tails2[m2] == k;
    }
    var closed2 := AfterClosing(once, snapshot2, tails2, policy, report);
    UpsertCreatesNothing(closed2, snapshot2, tails2, report.keys, report.status, asWritten);
  }

  /** Corrected, every snapshot issue asking for a pending resource ends up
      with that resource's current status as its body. */
  lemma {:induction false} UpsertCorrectedBodies(issues: seq<Issue>, snapshot: seq<nat>, tails: seq<string>, keys: seq<string>, status: map<string, Status>, m: nat)
    requires ValidSnapshot(issues, snapshot) && |tails| == |snapshot|
    requires forall k :: k in keys ==> k in status
    requires m < |snapshot| && tails[m] in keys && Pending(status[tails[m]])
    ensures Upsert(issues, snapshot, tails, keys, status, false)[snapshot[m]].body == IssueBody(status[tails[m]])
  {
    var n := |keys| - 1;
    var before := Upsert(issues, snapshot, tails, keys[..n], status, false);
    var k := keys[n];
    if k == tails[m] {
      EditMatchingAt(before, snapshot, tails, k, IssueBody(status[k]), snapshot[m]);
    } else {
      assert tails[m] in keys[..n];
      UpsertCorrectedBodies(issues, snapshot, tails, keys[..n], status, m);
      if Pending(status[k]) && k in tails {
        EditMatchingAt(before, snapshot, tails, k, IssueBody(status[k]), snapshot[m]);
      }
    }
  }

  /** The intended behaviour of the corrected run: the issue for every
      resource still missing something carries that resource's status. */
  lemma SyncCorrectedBodies(issues: seq<Issue>, snapshot: seq<nat>, policy: Policy, report: StatusReport, m: nat)
    requires ValidSnapshot(issues, snapshot) && WellFormed(report) && m < |snapshot|
    requires Requested(issues[snapshot[m]].title) in report.status
    requires Pending(report.status[Requested(issues[snapshot[m]].title)])
    ensures Sync(issues, snapshot, policy, report, false)[snapshot[m]].body
      == IssueBody(report.status[Requested(issues[snapshot[m]].title)])
  {
    var tails := SnapshotTails(issues, snapshot);
    var closed := AfterClosing(issues, snapshot, tails, policy, report);
    assert forall k :: k in report.keys ==> k in report.status by {
      forall k | k in report.keys ensures k in report.status { assert k in Elems(report.keys); }
    }
    var k := tails[m];
    assert k in Elems(report.keys);
    UpsertCorrectedBodies(closed, snapshot, tails, report.keys, report.status, m);
  }

  /** As written, the body refresh lands on the wrong issue: with issues for
      `x` (missing) and `y` (fully implemented), the refreshed status of `x`
      is written into the closed issue for `y`, and the issue for `x` keeps
      its stale body. The corrected run updates the issue for `x`. */
  lemma SyncAsWrittenEditsWrongIssue()
    ensures var issues := [Issue(TitlePrefix + "x", Open, "", [AuditLabel]),
                           Issue(TitlePrefix + "y", Open, "", [AuditLabel])];
      var report := StatusReport(["x", "y"], map["x" := Status(false, false), "y" := Status(true, true)]);
      var asWritten := Sync(issues, [0, 1], Policy([], map[]), report, true);
      var corrected := Sync(issues, [0, 1], Policy([], map[]), report, false);
      asWritten[0].body == "" &&
      asWritten[1].body == IssueBody(Status(false, false)) && asWritten[1].state == Closed(Completed) &&
      corrected[0].body == IssueBody(Status(false, false)) && corrected[1].body == ""
  {
    var issues := [Issue(TitlePrefix + "x", Open, "", [AuditLabel]),
                   Issue(TitlePrefix + "y", Open, "", [AuditLabel])];
    var report := StatusReport(["x", "y"], map["x" := Status(false, false), "y" := Status(true, true)]);
    var policy := Policy([], map[]);
    var snapshot: seq<nat> := [0, 1];
    TrimPrefixAfterPrefix(TitlePrefix, "x");
    TrimPrefixAfterPrefix(TitlePrefix, "y");
    var tails := SnapshotTails(issues, snapshot);
    assert tails == ["x", "y"];
    assert "x" != "y";
    assert snapshot[..1] == [0] && tails[..1] == ["x"];
    assert [0][..0] == [] && ["x"][..0] == [];
    assert Verdict(policy, report, "x") == None;
    assert Verdict(policy, report, "y") == Some(Completed);
    var closedFirst := AfterClosing(issues, [0], ["x"], policy, report);
    assert AfterClosing(issues, [], [], policy, report) == issues;
    assert closedFirst == issues;
    var closed := AfterClosing(issues, snapshot, tails, policy, report);
    assert closed == issues[1 := issues[1].(state := Closed(Completed))];
    assert report.keys[..1] == ["x"] && ["x"][..0] == [];
    assert "x" in tails;
    assert Upsert(closed, snapshot, tails, [], report.status, true) == closed;
    assert Upsert(closed, snapshot, tails, [], report.status, false) == closed;
    var once := Upsert(closed, snapshot, tails, ["x"], report.status, true);
    assert once == closed[1 := closed[1].(body := IssueBody(Status(false, false)))];
    var onceFixed := Upsert(closed, snapshot, tails, ["x"], report.status, false);
    assert EditMatching(closed, [0], ["x"], "x", IssueBody(Status(false, false)))
      == closed[0 := closed[0].(body := IssueBody(Status(false, false)))];
    assert onceFixed == closed[0 := closed[0].(body := IssueBody(Status(false, false)))];
  }
}
