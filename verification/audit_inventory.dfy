/**
 * The two inventories the parity-audit scripts compare, once their HTTP
 * payloads have been parsed: the provider's implemented slugs from the
 * Terraform registry, and the tags of the cloud's OpenAPI document.
 */
module AuditInventory {
  import opened Wrappers
  import opened Ordering
  import opened AuditPolicy

  /** The attributes of one registry documentation item that the scripts read. */
  datatype RegistryItem = RegistryItem(category: Option<string>, slug: Option<string>)

  /** Normalised provider names, by kind. */
  datatype Inventory = Inventory(resources: seq<string>, dataSources: seq<string>)

  const ResourcesCategory := "resources"
  const DataSourcesCategory := "data-sources"

  /** The normalised slugs of the items of `category` that have a slug, in item order. */
  function SlugsOf(singularize: string -> string, items: seq<RegistryItem>, category: string): seq<string>
  {
    if |items| == 0 then []
    else
      var rest := SlugsOf(singularize, items[..|items| - 1], category);
      var item := items[|items| - 1];
      if item.category == Some(category) && item.slug.Some? then rest + [NormalizeName(singularize, item.slug.value)]
      else rest
  }

  /** The item belongs to `category`, has a slug, and that slug normalises to `name`. */
  predicate Gives(singularize: string -> string, item: RegistryItem, category: string, name: string)
  {
    item.category == Some(category) && item.slug.Some? && NormalizeName(singularize, item.slug.value) == name
  }

  /** A name is listed exactly when some item of the category has a slug normalising to it. */
  lemma {:induction false} SlugsOfMembers(singularize: string -> string, items: seq<RegistryItem>, category: string, name: string)
    ensures name in SlugsOf(singularize, items, category) <==>
      (exists i :: 0 <= i < |items| && Gives(singularize, items[i], category, name))
  {
    if |items| > 0 {
      var init := items[..|items| - 1];
      SlugsOfMembers(singularize, init, category, name);
      if exists i :: 0 <= i < |init| && Gives(singularize, init[i], category, name) {
        var i :| 0 <= i < |init| && Gives(singularize, init[i], category, name);
        assert items[i] == init[i];
      }
      if exists i :: 0 <= i < |items| && Gives(singularize, items[i], category, name) {
        var i :| 0 <= i < |items| && Gives(singularize, items[i], category, name);
        if i < |init| {
          assert init[i] == items[i];
        }
      }
    }
  }

  /** The slug loop of the three scripts: each item with a known category and a
      slug contributes its normalised slug to that category's list (compare.py
      stops here, unsorted). */
  method CollectSlugs(singularize: string -> string, items: seq<RegistryItem>) returns (inv: Inventory)
    ensures inv.resources == SlugsOf(singularize, items, ResourcesCategory)
    ensures inv.dataSources == SlugsOf(singularize, items, DataSourcesCategory)
  {
    var resources: seq<string> := [];
    var dataSources: seq<string> := [];
    var i := 0;
    while i < |items|
      invariant 0 <= i <= |items|
      invariant resources == SlugsOf(singularize, items[..i], ResourcesCategory)
      invariant dataSources == SlugsOf(singularize, items[..i], DataSourcesCategory)
    {
      var item := items[i];
      assert items[..i + 1][..i] == items[..i];
      if item.category == Some(ResourcesCategory) && item.slug.Some? {
        resources := resources + [NormalizeName(singularize, item.slug.value)];
      } else if item.category == Some(DataSourcesCategory) && item.slug.Some? {
        dataSources := dataSources + [NormalizeName(singularize, item.slug.value)];
      }
      i := i + 1;
    }
    assert items[..|items|] == items;
    return Inventory(resources, dataSources);
  }

  /** `get_provider_implemented_resource_slugs` of the sync and markdown scripts:
      the collected lists, each sorted. */
  method ProviderSlugs(singularize: string -> string, items: seq<RegistryItem>) returns (inv: Inventory)
    ensures Sorted(inv.resources)
    ensures multiset(inv.resources) == multiset(SlugsOf(singularize, items, ResourcesCategory))
    ensures Sorted(inv.dataSources)
    ensures multiset(inv.dataSources) == multiset(SlugsOf(singularize, items, DataSourcesCategory))
  {
    var collected := CollectSlugs(singularize, items);
    var resources := SortStrings(collected.resources);
    var dataSources := SortStrings(collected.dataSources);
    inv := Inventory(resources, dataSources);
  }

  /** The tags of one OpenAPI path: one tag list per HTTP method (a method without
      `tags` contributes the empty list). */
  function PathTags(methods: seq<seq<string>>): set<string>
  {
    if |methods| == 0 then {} else PathTags(methods[..|methods| - 1]) + Elems(methods[|methods| - 1])
  }

  /** The union of the tags over all paths and methods. */
  function AllTags(paths: seq<seq<seq<string>>>): set<string>
  {
    if |paths| == 0 then {} else AllTags(paths[..|paths| - 1]) + PathTags(paths[|paths| - 1])
  }

  /** Adds every tag of a list to a sorted, duplicate-free listing (`set.update`). */
  function InsertAll(seen: seq<string>, tags: seq<string>): (r: seq<string>)
    requires StrictlySorted(seen)
    ensures StrictlySorted(r)
    ensures Elems(r) == Elems(seen) + Elems(tags)
    decreases |tags|
  {
    if |tags| == 0 then seen
    else
      var r := InsertAll(InsertUnique(seen, tags[0]), tags[1..]);
      assert tags == [tags[0]] + tags[1..];
      assert Elems(tags) == {tags[0]} + Elems(tags[1..]);
      r
  }

  /** What `get_prefect_cloud_resources` returns: the distinct raw tags in sorted
      order, each normalised afterwards. */
  ghost function NormalizedTags(singularize: string -> string, paths: seq<seq<seq<string>>>): (r: seq<string>)
    ensures |r| == |SortedSet(AllTags(paths))|
  {
    var raw := SortedSet(AllTags(paths));
    seq(|raw|, i requires 0 <= i < |raw| => NormalizeName(singularize, raw[i]))
  }

  /** `get_prefect_cloud_resources` after the fetch. */
  method CloudTags(singularize: string -> string, paths: seq<seq<seq<string>>>) returns (tags: seq<string>)
    ensures tags == NormalizedTags(singularize, paths)
  {
    var seen: seq<string> := [];
    var i := 0;
    while i < |paths|
      invariant 0 <= i <= |paths|
      invariant StrictlySorted(seen)
      invariant Elems(seen) == AllTags(paths[..i])
    {
      var methods := paths[i];
      var j := 0;
      while j < |methods|
        invariant 0 <= j <= |methods|
        invariant StrictlySorted(seen)
        invariant Elems(seen) == AllTags(paths[..i]) + PathTags(methods[..j])
      {
        assert methods[..j + 1][..j] == methods[..j];
        seen := InsertAll(seen, methods[j]);
        j := j + 1;
      }
      assert methods[..|methods|] == methods;
      assert paths[..i + 1][..i] == paths[..i];
      i := i + 1;
    }
    assert paths[..|paths|] == paths;
    SortedSetOf(seen);
    tags := seq(|seen|, k requires 0 <= k < |seen| => NormalizeName(singularize, seen[k]));
  }

  /** Normalising after deduplication keeps collisions: two different raw tags
      with the same normalised name give two equal entries. */
  lemma NormalizedTagsKeepCollisions(singularize: string -> string, paths: seq<seq<seq<string>>>, a: string, b: string)
    requires a in AllTags(paths) && b in AllTags(paths) && a != b
    requires NormalizeName(singularize, a) == NormalizeName(singularize, b)
    ensures var tags := NormalizedTags(singularize, paths);
      exists i, j :: 0 <= i < j < |tags| && tags[i] == tags[j] == NormalizeName(singularize, a)
  {
    var raw := SortedSet(AllTags(paths));
    var tags := NormalizedTags(singularize, paths);
    assert a in Elems(raw) && b in Elems(raw);
    var i :| 0 <= i < |raw| && raw[i] == a;
    var j :| 0 <= j < |raw| && raw[j] == b;
    if i < j {
      assert tags[i] == tags[j];
    } else {
      assert tags[j] == tags[i];
    }
  }

  /** Every raw tag is represented, normalised, in the result. */
  lemma NormalizedTagsCover(singularize: string -> string, paths: seq<seq<seq<string>>>, t: string)
    requires t in AllTags(paths)
    ensures NormalizeName(singularize, t) in NormalizedTags(singularize, paths)
  {
    var raw := SortedSet(AllTags(paths));
    assert t in Elems(raw);
    var i :| 0 <= i < |raw| && raw[i] == t;
    assert NormalizedTags(singularize, paths)[i] == NormalizeName(singularize, t);
  }
}
