/**
 * scripts/compare.go: which cloud API resources have no related Terraform
 * resource. The directory listing and the OpenAPI fetch are inputs; the
 * filtering, cleaning and deduplication are modelled.
 */
module CompareGo {
  import opened Wrappers
  import opened Text
  import opened Ordering

  /** Cloud API resource -> the Terraform resource names that implement it. */
  const Relations: map<string, seq<string>> := map[
    "artifacts" := [],
    "automations" := ["automation_resource"],
    "block_capabilities" := ["block"],
    "block_documents" := ["block"],
    "block_schemas" := ["block"],
    "block_types" := ["block"],
    "bot_access" := ["workspace_access"],
    "collections" := [],
    "concurrency_limits" := ["task_run_concurrency_limit"],
    "global_concurrency_limits" := ["global_concurrency_limit"],
    "deployments" := ["deployment"],
    "events" := [],
    "flows" := ["flow"],
    "slas" := [],
    "team_access" := ["workspace_access"],
    "user_access" := ["workspace_access"],
    "variables" := ["variable"],
    "webhooks" := ["webhooks"],
    "work_pools" := ["work_pool", "work_pools"],
    "work_queues" := ["work_queue", "work_queues"]
  ]

  /** A resource is reported when it has a relation entry and none of its
      related names is among the Terraform resources. */
  predicate Unimplemented(api: string, tf: seq<string>)
  {
    api in Relations && forall name :: name in Relations[api] ==> name !in tf
  }

  /** The reported resources, in input order. */
  function NonImplemented(apis: seq<string>, tf: seq<string>): seq<string>
  {
    if |apis| == 0 then []
    else if Unimplemented(apis[|apis| - 1], tf) then NonImplemented(apis[..|apis| - 1], tf) + [apis[|apis| - 1]]
    else NonImplemented(apis[..|apis| - 1], tf)
  }

  /** `getNonImplementedAPIs`: for each API resource with a relation entry, a
      `found` flag over its related names; unfound ones are appended. */
  method GetNonImplementedAPIs(apis: seq<string>, tf: seq<string>) returns (result: seq<string>)
    ensures result == NonImplemented(apis, tf)
  {
    result := [];
    var i := 0;
    while i < |apis|
      invariant 0 <= i <= |apis|
      invariant result == NonImplemented(apis[..i], tf)
    {
      var api := apis[i];
      assert apis[..i + 1][..i] == apis[..i];
      if api in Relations {
        var related := Relations[api];
        var found := false;
        var j := 0;
        while j < |related|
          invariant 0 <= j <= |related|
          invariant found <==> exists k :: 0 <= k < j && related[k] in tf
        {
          if related[j] in tf {
            found := true;
          }
          j := j + 1;
        }
        if !found {
          result := result + [api];
        }
      }
      i := i + 1;
    }
    assert apis[..|apis|] == apis;
  }

  /** A resource is reported exactly when it is an input with no implemented relation. */
  lemma {:induction false} NonImplementedMembers(apis: seq<string>, tf: seq<string>, x: string)
    ensures x in NonImplemented(apis, tf) <==> x in apis && Unimplemented(x, tf)
  {
    if |apis| > 0 {
      var init := apis[..|apis| - 1];
      NonImplementedMembers(init, tf, x);
      assert apis == init + [apis[|apis| - 1]];
    }
  }

  /** `a` is `b` with some elements left out, order kept. */
  predicate IsSubsequence(a: seq<string>, b: seq<string>)
    decreases |b|
  {
    if |a| == 0 then true
    else if |b| == 0 then false
    else if a[|a| - 1] == b[|b| - 1] then IsSubsequence(a[..|a| - 1], b[..|b| - 1])
    else IsSubsequence(a, b[..|b| - 1])
  }

  /** The output keeps the input order. */
  lemma {:induction false} NonImplementedIsSubsequence(apis: seq<string>, tf: seq<string>)
    ensures IsSubsequence(NonImplemented(apis, tf), apis)
  {
    if |apis| > 0 {
      var init := apis[..|apis| - 1];
      NonImplementedIsSubsequence(init, tf);
      var last := apis[|apis| - 1];
      var prev := NonImplemented(init, tf);
      assert init + [last] == apis;
      if Unimplemented(last, tf) {
        var r := prev + [last];
        assert r[..|r| - 1] == prev;
        assert IsSubsequence(r, apis);
      } else {
        SubsequenceExtend(prev, init, last);
      }
    }
  }

  lemma {:induction false} SubsequenceExtend(a: seq<string>, b: seq<string>, x: string)
    requires IsSubsequence(a, b)
    ensures IsSubsequence(a, b + [x])
    decreases |b|, 1
  {
    assert (b + [x])[..|b|] == b;
    if |a| > 0 && a[|a| - 1] == x {
      SubsequenceDropLast(a, b);
    }
  }

  lemma {:induction false} SubsequenceDropLast(a: seq<string>, b: seq<string>)
    requires |a| > 0 && IsSubsequence(a, b)
    ensures IsSubsequence(a[..|a| - 1], b)
    decreases |b|, 0
  {
    var init := b[..|b| - 1];
    if a[|a| - 1] != b[|b| - 1] {
      SubsequenceDropLast(a, init);
    }
    SubsequenceExtend(a[..|a| - 1], init, b[|b| - 1]);
    assert init + [b[|b| - 1]] == b;
  }

  /** Resources with an empty relation list are reported whatever Terraform implements. */
  lemma EmptyRelationsAlwaysReported(apis: seq<string>, tf: seq<string>)
    ensures forall x :: x in apis && x in {"artifacts", "collections", "events", "slas"} ==>
      x in NonImplemented(apis, tf)
  {
    forall x | x in apis && x in {"artifacts", "collections", "events", "slas"}
      ensures x in NonImplemented(apis, tf)
    {
      assert Relations[x] == [];
      NonImplementedMembers(apis, tf, x);
    }
  }

  /** A resource without a relation entry is never reported. */
  lemma UnrelatedNeverReported(apis: seq<string>, tf: seq<string>, x: string)
    requires x !in Relations
    ensures x !in NonImplemented(apis, tf)
  {
    NonImplementedMembers(apis, tf, x);
  }

  /** The account/workspace scope that precedes workspace-scoped paths. */
  const WorkspaceScope := "/api/accounts/{account_id}/workspaces/{workspace_id}"

  /** `cleanAPIResource`: drop the scope, then take the second `/`-segment, or
      the whole string when it has no `/`. */
  function CleanAPIResource(resource: string): string
  {
    var unscoped := ReplaceAll(resource, WorkspaceScope, "");
    var parts := Split(unscoped, '/');
    if |parts| > 1 then parts[1] else unscoped
  }

  /** An unscoped path `/name`, `/name/...` is cleaned to `name`. */
  lemma CleanFirstSegment(name: string, rest: string)
    requires '/' !in name
    requires !Contains("/" + name + rest, WorkspaceScope)
    requires rest == "" || rest[0] == '/'
    ensures CleanAPIResource("/" + name + rest) == name
  {
    var path := "/" + name + rest;
    ReplaceAllAbsent(path, WorkspaceScope, "");
    assert path == [] + ['/'] + (name + rest);
    SplitAfterHead([], '/', name + rest);
    if rest == "" {
      assert name + rest == name;
      SplitNoSeparator(name, '/');
    } else {
      assert name + rest == name + ['/'] + rest[1..];
      SplitAfterHead(name, '/', rest[1..]);
    }
  }

  /** A workspace-scoped path `<scope>/name/...` is cleaned to `name`. */
  lemma CleanScopedPath(name: string, rest: string)
    requires '/' !in name
    requires !Contains("/" + name + rest, WorkspaceScope)
    requires rest == "" || rest[0] == '/'
    ensures CleanAPIResource(WorkspaceScope + "/" + name + rest) == name
  {
    var tail := "/" + name + rest;
    assert WorkspaceScope + "/" + name + rest == WorkspaceScope + tail;
    ReplaceAllLeading(WorkspaceScope, tail, "");
    ReplaceAllAbsent(tail, WorkspaceScope, "");
    assert ReplaceAll(WorkspaceScope + tail, WorkspaceScope, "") == tail;
    CleanFirstSegment(name, rest);
  }

  /** A string without `/` (and without the scope) is returned unchanged. */
  lemma CleanWithoutSlash(resource: string)
    requires '/' !in resource && !Contains(resource, WorkspaceScope)
    ensures CleanAPIResource(resource) == resource
  {
    ReplaceAllAbsent(resource, WorkspaceScope, "");
    SplitNoSeparator(resource, '/');
  }

  /** Go's `slices.Compact` on a sorted list: adjacent duplicates collapse. */
  method Compact(s: seq<string>) returns (r: seq<string>)
    requires Sorted(s)
    ensures StrictlySorted(r)
    ensures Elems(r) == Elems(s)
  {
    r := [];
    var i := 0;
    while i < |s|
      invariant 0 <= i <= |s|
      invariant |r| <= i
      invariant StrictlySorted(r)
      invariant Elems(r) == Elems(s[..i])
      invariant i > 0 ==> |r| > 0 && r[|r| - 1] == s[i - 1]
    {
      assert Elems(s[..i + 1]) == Elems(s[..i]) + {s[i]} by {
        assert s[..i + 1] == s[..i] + [s[i]];
      }
      if i == 0 || s[i] != r[|r| - 1] {
        if i > 0 {
          assert LessEq(s[i - 1], s[i]);
          forall k | 0 <= k < |r| ensures Less(r[k], s[i]) {
            if k < |r| - 1 {
              LessTransitive(r[k], r[|r| - 1], s[i]);
            }
          }
        }
        assert Elems(r + [s[i]]) == Elems(r) + {s[i]};
        r := r + [s[i]];
      }
      i := i + 1;
    }
    assert s[..|s|] == s;
  }

  /** `dedupe`: sort, then compact; the result is the canonical listing of the
      input's elements. */
  method Dedupe(list: seq<string>) returns (r: seq<string>)
    ensures r == SortedSet(Elems(list))
  {
    var sorted := SortStrings(list);
    assert Elems(sorted) == Elems(list) by {
      forall x ensures x in sorted <==> x in list {
        assert x in sorted <==> x in multiset(sorted);
        assert x in list <==> x in multiset(list);
      }
    }
    r := Compact(sorted);
    SortedSetOf(r);
  }

  /** The Terraform names `getTerraformResources` derives from file names. */
  function TerraformNames(files: seq<string>): seq<string>
  {
    if |files| == 0 then []
    else
      var init := TerraformNames(files[..|files| - 1]);
      var file := files[|files| - 1];
      if Contains(file, "_test") then init else init + [ReplaceAll(file, ".go", "")]
  }

  /** `getTerraformResources`: a failed directory read yields no names; test files
      are skipped and ".go" is removed from the others. */
  method GetTerraformResources(entries: Result<seq<string>>) returns (names: seq<string>)
    ensures entries.Err? ==> names == []
    ensures entries.Ok? ==> names == TerraformNames(entries.value)
  {
    if entries.Err? {
      return [];
    }
    var files := entries.value;
    names := [];
    var i := 0;
    while i < |files|
      invariant 0 <= i <= |files|
      invariant names == TerraformNames(files[..i])
    {
      assert files[..i + 1][..i] == files[..i];
      if !Contains(files[i], "_test") {
        names := names + [ReplaceAll(files[i], ".go", "")];
      }
      i := i + 1;
    }
    assert files[..|files|] == files;
  }

  /** A source file `name.go` contributes `name`; a test file contributes nothing. */
  lemma TerraformNamesOfFile(files: seq<string>, name: string)
    requires !Contains(name + ".go", "_test") && !Contains(name, ".go")
    ensures TerraformNames(files + [name + ".go"]) == TerraformNames(files) + [name]
  {
    assert (files + [name + ".go"])[..|files|] == files;
    NoEarlyGoSuffix(name);
    ReplaceAllSuffix(name, ".go", "");
    assert name + "" == name;
  }

  /** ".go" overlaps no suffix of itself, so in `s + ".go"` it can only occur
      inside `s` or at the very end. */
  lemma NoEarlyGoSuffix(s: string)
    requires !Contains(s, ".go")
    ensures forall i :: 0 <= i < |s| ==> !OccursAt(s + ".go", ".go", i)
  {
    var t := s + ".go";
    forall i | 0 <= i < |s| ensures !OccursAt(t, ".go", i) {
      assert t[|s|] == '.';
      assert i + 3 <= |t| && i + 3 > |s| ==> t[i..i + 3][|s| - i] == t[|s|];
      if OccursAt(t, ".go", i) {
        if i + 3 <= |s| {
          assert t[i..i + 3] == s[i..i + 3];
          assert OccursAt(s, ".go", i);
        }
      }
    }
  }

  /** Replacing a pattern whose only occurrence is at the very end. */
  lemma {:induction false} ReplaceAllSuffix(s: string, pattern: string, replacement: string)
    requires |pattern| > 0
    requires forall i :: 0 <= i < |s| ==> !OccursAt(s + pattern, pattern, i)
    ensures ReplaceAll(s + pattern, pattern, replacement) == s + replacement
    decreases |s|
  {
    var t := s + pattern;
    if |s| == 0 {
      assert t == pattern + [];
      ReplaceAllLeading(pattern, [], replacement);
    } else {
      assert !OccursAt(t, pattern, 0);
      ReplaceAllSkip(t, pattern, replacement);
      assert t[1..] == s[1..] + pattern;
      forall i | 0 <= i < |s[1..]| ensures !OccursAt(s[1..] + pattern, pattern, i) {
        OccursAtTail(t, pattern, i);
      }
      ReplaceAllSuffix(s[1..], pattern, replacement);
      assert t[0] == s[0] && [s[0]] + (s[1..] + replacement) == s + replacement;
    }
  }

  /** The non-empty cleaned keys. */
  function CleanedKeys(keys: seq<string>): set<string>
  {
    set k | k in keys && CleanAPIResource(k) != "" :: CleanAPIResource(k)
  }

  /** `getAPIResources` after the fetch: clean every path, drop empty results,
      deduplicate. The result does not depend on the map's iteration order. */
  method GetAPIResources(keys: seq<string>) returns (r: seq<string>)
    ensures r == SortedSet(CleanedKeys(keys))
    ensures "" !in r
  {
    var cleaned: seq<string> := [];
    var i := 0;
    while i < |keys|
      invariant 0 <= i <= |keys|
      invariant Elems(cleaned) == CleanedKeys(keys[..i])
    {
      var key := CleanAPIResource(keys[i]);
      assert keys[..i + 1] == keys[..i] + [keys[i]];
      if key != "" {
        assert Elems(cleaned + [key]) == Elems(cleaned) + {key};
        cleaned := cleaned + [key];
      }
      i := i + 1;
    }
    assert keys[..|keys|] == keys;
    r := Dedupe(cleaned);
    assert "" !in Elems(r);
  }
}
