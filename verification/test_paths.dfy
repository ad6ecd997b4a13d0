/**
 * The acceptance-test helpers' attribute paths: `expectKnownValue` turns a
 * dotted path such as `tags.0` or `labels.env` into a JSON path whose
 * integer segments index lists and whose other segments key maps.
 */
module TestPaths {
  import opened Wrappers
  import opened Text

  // ----- strconv.Atoi and its inverse -----

  predicate IsDigit(c: char) { '0' <= c <= '9' }

  predicate AllDigits(s: string)
  {
    forall i :: 0 <= i < |s| ==> IsDigit(s[i])
  }

  /** The number a digit string denotes. */
  function DigitsValue(s: string): nat
    requires AllDigits(s)
  {
    if |s| == 0 then 0
    else DigitsValue(s[..|s| - 1]) * 10 + (s[|s| - 1] as int - '0' as int)
  }

  const MinInt64 := -0x8000_0000_0000_0000
  const MaxInt64 := 0x7FFF_FFFF_FFFF_FFFF

  /** `strconv.Atoi` on a 64-bit platform: an optional sign and at least one
      decimal digit, with a value that fits in 64 bits. */
  function Atoi(s: string): (r: Option<int>)
    ensures r.Some? ==> MinInt64 <= r.value <= MaxInt64
    ensures r.Some? ==> |s| > 0
  {
    var signed := |s| > 0 && (s[0] == '-' || s[0] == '+');
    var body := if signed then s[1..] else s;
    if |body| == 0 || !AllDigits(body) then None
    else
      var v: int := if signed && s[0] == '-' then -(DigitsValue(body) as int) else DigitsValue(body);
      if MinInt64 <= v <= MaxInt64 then Some(v) else None
  }

  function DigitChar(d: nat): (c: char)
    requires d < 10
    ensures IsDigit(c) && c as int - '0' as int == d
  {
    (d + '0' as int) as char
  }

  /** The decimal text of a natural number. */
  function NatText(n: nat): (s: string)
    ensures |s| > 0 && AllDigits(s)
  {
    if n < 10 then [DigitChar(n)] else NatText(n / 10) + [DigitChar(n % 10)]
  }

  /** `strconv.Itoa`. */
  function Itoa(n: int): (s: string)
    ensures '.' !in s
  {
    if n < 0 then "-" + NatText(-n) else NatText(n)
  }

  lemma {:induction false} DigitsValueOfNatText(n: nat)
    ensures DigitsValue(NatText(n)) == n
  {
    if n >= 10 {
      DigitsValueOfNatText(n / 10);
      var s := NatText(n);
      assert s[..|s| - 1] == NatText(n / 10);
    }
  }

  /** `Atoi` reads back what `Itoa` writes, for every 64-bit integer. */
  lemma AtoiItoa(n: int)
    requires MinInt64 <= n <= MaxInt64
    ensures Atoi(Itoa(n)) == Some(n)
  {
    if n < 0 {
      DigitsValueOfNatText(-n);
      assert Itoa(n)[1..] == NatText(-n);
    } else {
      DigitsValueOfNatText(n);
      assert NatText(n)[0] != '-' && NatText(n)[0] != '+';
    }
  }

  // ----- Paths -----

  /** One step below the root: a list index or a map key. */
  datatype PathStep = SliceIndex(index: int) | MapKey(key: string)

  /** A `tfjsonpath.Path`: the root attribute and the steps below it. */
  datatype JsonPath = JsonPath(root: string, steps: seq<PathStep>)

  /** The step a segment after the root becomes. */
  function StepOf(key: string): (r: PathStep)
    ensures r.SliceIndex? <==> Atoi(key).Some?
    ensures r.MapKey? ==> r.key == key
  {
    var n := Atoi(key);
    if n.Some? then SliceIndex(n.value) else MapKey(key)
  }

  /** The steps the segments after the root become, in order. */
  function Steps(keys: seq<string>): (r: seq<PathStep>)
    ensures |r| == |keys|
    ensures forall i :: 0 <= i < |keys| ==> r[i] == StepOf(keys[i])
  {
    seq(|keys|, i requires 0 <= i < |keys| => StepOf(keys[i]))
  }

  /** The path `expectKnownValue` builds; `strings.Contains(path, ".")` is
      membership of the character. */
  function PathOf(path: string): JsonPath
  {
    if '.' !in path then JsonPath(path, [])
    else
      var keys := Split(path, '.');
      JsonPath(keys[0], Steps(keys[1..]))
  }

  /** The dotted-path loop of `expectKnownValue`: the root, then one step per
      further segment. */
  method ExpectKnownValuePath(path: string) returns (p: JsonPath)
    ensures p == PathOf(path)
  {
    p := JsonPath(path, []);
    if '.' in path {
      var keys := Split(path, '.');
      p := JsonPath(keys[0], []);
      var i := 1;
      while i < |keys|
        invariant 1 <= i <= |keys|
        invariant p.root == keys[0] && |p.steps| == i - 1
        invariant forall j :: 0 <= j < i - 1 ==> p.steps[j] == StepOf(keys[j + 1])
      {
        var key := keys[i];
        var keyInt := Atoi(key);
        if keyInt.Some? {
          p := p.(steps := p.steps + [SliceIndex(keyInt.value)]);
        } else {
          p := p.(steps := p.steps + [MapKey(key)]);
        }
        i := i + 1;
      }
      assert p.steps == Steps(keys[1..]);
    }
  }

  /** A path without a dot is the root alone; otherwise there are at least
      two segments, the first is the root, and every later segment, in
      order, becomes its step: an index when it parses as an integer, a map
      key when not. */
  lemma PathSegments(path: string)
    ensures '.' !in path ==> PathOf(path) == JsonPath(path, [])
    ensures '.' in path ==>
      var keys := Split(path, '.');
      var p := PathOf(path);
      |keys| >= 2 && p.root == keys[0] && |p.steps| == |keys| - 1 &&
      forall i :: 0 <= i < |p.steps| ==> p.steps[i] == StepOf(keys[i + 1])
  {
    if '.' in path {
    }
  }

  /** The text a step is written as. */
  function SegmentText(step: PathStep): string
  {
    match step
    case SliceIndex(i) => Itoa(i)
    case MapKey(k) => k
  }

  /** The dotted text of a path. */
  function Render(p: JsonPath): string
  {
    Join([p.root] + seq(|p.steps|, i requires 0 <= i < |p.steps| => SegmentText(p.steps[i])), ".")
  }

  /** An integer segment is written the way `Itoa` would write it back. */
  predicate CanonicalSegment(key: string)
  {
    Atoi(key).None? || Itoa(Atoi(key).value) == key
  }

  /** Writing a parsed path back gives the dotted text, as long as no
      integer segment has a sign or leading zeros. */
  lemma RenderPathOf(path: string)
    requires forall i :: 1 <= i < |Split(path, '.')| ==> CanonicalSegment(Split(path, '.')[i])
    ensures Render(PathOf(path)) == path
  {
    var p := PathOf(path);
    if '.' in path {
      var keys := Split(path, '.');
      var segs := [p.root] + seq(|p.steps|, i requires 0 <= i < |p.steps| => SegmentText(p.steps[i]));
      assert segs == keys by {
        forall i | 1 <= i < |keys|
          ensures segs[i] == keys[i]
        {
          assert CanonicalSegment(keys[i]);
          assert segs[i] == SegmentText(StepOf(keys[i]));
        }
      }
      JoinSplit(path, '.');
    }
  }

  /** A path every step of which can be written as a segment and read back:
      no dot in a name, map keys that are not integers, indices in 64 bits. */
  predicate Writable(p: JsonPath)
  {
    '.' !in p.root &&
    forall i :: 0 <= i < |p.steps| ==> WritableStep(p.steps[i])
  }

  predicate WritableStep(step: PathStep)
  {
    match step
    case SliceIndex(n) => MinInt64 <= n <= MaxInt64
    case MapKey(k) => '.' !in k && Atoi(k).None?
  }

  /** A joined list of two or more parts contains the separator. */
  lemma JoinHasSeparator(parts: seq<string>, sep: char)
    requires |parts| >= 2
    ensures sep in Join(parts, [sep])
  {
    assert Join(parts, [sep]) == parts[0] + [sep] + Join(parts[1..], [sep]);
    assert Join(parts, [sep])[|parts[0]|] == sep;
  }

  /** Parsing the text of a writable path gives the path back. */
  lemma PathOfRender(p: JsonPath)
    requires Writable(p)
    ensures PathOf(Render(p)) == p
  {
    var segs := [p.root] + seq(|p.steps|, i requires 0 <= i < |p.steps| => SegmentText(p.steps[i]));
    if |p.steps| == 0 {
      assert segs == [p.root];
    } else {
      assert forall i :: 0 <= i < |segs| ==> '.' !in segs[i] by {
        forall i | 1 <= i < |segs|
          ensures '.' !in segs[i]
        {
          assert WritableStep(p.steps[i - 1]);
        }
      }
      SplitJoin(segs, '.');
      JoinHasSeparator(segs, '.');
      var q := PathOf(Render(p));
      assert q.steps == p.steps by {
        forall i | 0 <= i < |p.steps|
          ensures q.steps[i] == p.steps[i]
        {
          assert WritableStep(p.steps[i]);
          if p.steps[i].SliceIndex? {
            AtoiItoa(p.steps[i].index);
          }
        }
      }
    }
  }

  // ----- ExpectKnownValueList -----

  /** The value checks the helpers build. */
  datatype Check = StringExact(s: string) | ListExact(items: seq<Check>)

  /** A state check: the resource, the path into it, and the check. */
  datatype StateCheck = StateCheck(resourceName: string, path: JsonPath, check: Check)

  /** `ExpectKnownValueList`: one exact-string check per value, in order,
      at the parsed path. */
  method ExpectKnownValueList(resourceName: string, path: string, values: seq<string>) returns (c: StateCheck)
    ensures c.resourceName == resourceName && c.path == PathOf(path)
    ensures c.check.ListExact? && |c.check.items| == |values|
    ensures forall i :: 0 <= i < |values| ==> c.check.items[i] == StringExact(values[i])
  {
    var checks: seq<Check> := [];
    var i := 0;
    while i < |values|
      invariant 0 <= i <= |values|
      invariant |checks| == i
      invariant forall j :: 0 <= j < i ==> checks[j] == StringExact(values[j])
    {
      checks := checks + [StringExact(values[i])];
      i := i + 1;
    }
    var p := ExpectKnownValuePath(path);
    c := StateCheck(resourceName, p, ListExact(checks));
  }

  /** A path of two segments is the root and one step. */
  lemma TwoSegmentPath(root: string, key: string)
    requires '.' !in root && '.' !in key
    ensures PathOf(root + ['.'] + key) == JsonPath(root, [StepOf(key)])
  {
    var path := root + ['.'] + key;
    TwoParts(root, key, '.');
    assert path[|root|] == '.';
    var keys := Split(path, '.');
    assert keys[1..] == [key];
  }

  /** `tags.0` in the tests indexes a list. */
  lemma ListPathExample()
    ensures PathOf("tags.0") == JsonPath("tags", [SliceIndex(0)])
  {
    assert StepOf("0") == SliceIndex(0) by {
      assert AllDigits("0") && DigitsValue("0") == DigitsValue("0"[..0]) * 10 + 0;
    }
    assert PathOf("tags.0") == JsonPath("tags", [StepOf("0")]) by {
      TwoSegmentPath("tags", "0");
      assert "tags" + ['.'] + "0" == "tags.0";
    }
  }
}
