/**
 * The product plans and `DescriptionWithPlans`, which appends to a schema
 * description the note naming the plans a resource is available in.
 */
module Plans {
  import opened Text

  const PlanPrefectCloudFree := "Prefect Cloud (Free)"
  const PlanPrefectCloudPro := "Prefect Cloud (Pro)"
  const PlanPrefectCloudEnterprise := "Prefect Cloud (Enterprise)"
  const PlanPrefectOss := "Prefect OSS"

  const AllPlans := [PlanPrefectOss, PlanPrefectCloudFree, PlanPrefectCloudPro, PlanPrefectCloudEnterprise]
  const AllCloudPlans := [PlanPrefectCloudFree, PlanPrefectCloudPro, PlanPrefectCloudEnterprise]

  const PlanNote := "This feature is available in the following [product plan(s)](https://www.prefect.io/pricing): "

  /** The template with the description and the comma-joined plans filled
      in. */
  function DescriptionWithPlans(description: string, plans: seq<string>): (r: string)
    ensures HasPrefix(r, "\n" + description + "\n\n" + PlanNote)
    ensures HasSuffix(r, Join(plans, ", ") + ".\n")
    ensures |plans| == 0 ==> HasSuffix(r, PlanNote + ".\n")
    ensures |r| == |"\n" + description + "\n\n" + PlanNote| + |Join(plans, ", ")| + 2
  {
    var head := "\n" + description + "\n\n" + PlanNote;
    var r := head + Join(plans, ", ") + ".\n";
    assert r[..|head|] == head;
    assert r[|r| - |Join(plans, ", ") + ".\n"|..] == Join(plans, ", ") + ".\n";
    r
  }

  /** The plans after the first, each with the space that follows a comma. */
  function Spaced(plans: seq<string>): (r: seq<string>)
    requires |plans| >= 1
    ensures |r| == |plans| && r[0] == plans[0]
    ensures forall i :: 1 <= i < |plans| ==> r[i] == " " + plans[i]
  {
    [plans[0]] + seq(|plans| - 1, i requires 0 <= i < |plans| - 1 => " " + plans[i + 1])
  }

  /** Joining with ", " is joining the spaced plans with ",". */
  lemma {:induction false} JoinWithSpace(plans: seq<string>)
    requires |plans| >= 1
    ensures Join(plans, ", ") == Join(Spaced(plans), ",")
    decreases |plans|
  {
    if |plans| > 1 {
      JoinWithSpace(plans[1..]);
      var rest := Spaced(plans[1..]);
      assert Spaced(plans)[1..] == [" " + rest[0]] + rest[1..];
      JoinSpacedHead(rest, " ", ",");
    }
  }

  /** Text before the first part is text before the whole join. */
  lemma JoinSpacedHead(parts: seq<string>, pre: string, sep: string)
    requires |parts| >= 1
    ensures Join([pre + parts[0]] + parts[1..], sep) == pre + Join(parts, sep)
  {
    var q := [pre + parts[0]] + parts[1..];
    assert q[0] == pre + parts[0] && q[1..] == parts[1..] && |q| == |parts|;
    if |parts| > 1 {
      var tail := Join(parts[1..], sep);
      assert Join(q, sep) == (pre + parts[0]) + sep + tail;
      assert Join(parts, sep) == parts[0] + sep + tail;
    }
  }

  /** The plans can be read back from the note in argument order: splitting
      the joined text at the commas gives the first plan and each later plan
      behind its space. */
  lemma PlansReadBack(plans: seq<string>)
    requires |plans| >= 1
    requires forall i :: 0 <= i < |plans| ==> ',' !in plans[i]
    ensures Split(Join(plans, ", "), ',') == Spaced(plans)
  {
    JoinWithSpace(plans);
    var spaced := Spaced(plans);
    assert forall i :: 0 <= i < |spaced| ==> ',' !in spaced[i] by {
      forall i | 0 <= i < |spaced|
        ensures ',' !in spaced[i]
      {
        if i > 0 {
          assert spaced[i] == " " + plans[i];
        }
      }
    }
    SplitJoin(spaced, ',');
  }

  /** `plans` without `p`, in the same order. */
  function Without(plans: seq<string>, p: string): (r: seq<string>)
    ensures p !in r
    ensures forall q :: q in r <==> q in plans && q != p
  {
    if |plans| == 0 then []
    else (if plans[0] == p then [] else [plans[0]]) + Without(plans[1..], p)
  }

  /** The Cloud plans are all plans but the open-source one, in the same
      order, and the plans are distinct. */
  lemma CloudPlansAreAllButOss()
    ensures AllCloudPlans == Without(AllPlans, PlanPrefectOss)
    ensures forall i, j :: 0 <= i < j < |AllPlans| ==> AllPlans[i] != AllPlans[j]
  {
    assert AllPlans[1..] == AllCloudPlans;
    assert Without(AllCloudPlans[2..], PlanPrefectOss) == AllCloudPlans[2..];
    assert Without(AllCloudPlans[1..], PlanPrefectOss) == AllCloudPlans[1..];
  }
}
