/**
 * The API keys of the service account resource: the comparison of two key
 * lists, the refresh that orders fetched keys after the state, and the
 * update that rebuilds the key list from the plan and deletes orphaned keys.
 *
 * The refresh and the update are each modelled twice: as written, and
 * corrected (see the findings in the README).
 */
module ServiceAccount {
  import opened Wrappers
  import opened Framework

  /** One key of the resource's `api_keys` list. In this framework version the
      zero value of an attribute is the known empty string. */
  datatype ApiKey = ApiKey(id: Value<string>, name: Value<string>, expiration: Value<string>, key: Value<string>)

  /** `apiKey{}`. */
  const ZeroKey := ApiKey(Known(""), Known(""), Known(""), Known(""))

  /** A key as listed by the API; the expiration is already converted. */
  datatype FetchedKey = FetchedKey(id: string, name: string, expiration: Value<string>)

  // ---------------------------------------------------------------- Equal

  /** Same length, and pairwise the same name and expiration. */
  predicate SameNamesAndExpirations(left: seq<ApiKey>, right: seq<ApiKey>)
  {
    |left| == |right| &&
    forall i :: 0 <= i < |left| ==> left[i].name == right[i].name && left[i].expiration == right[i].expiration
  }

  /** `Equal`: an index loop that stops at the first difference. */
  method Equal(left: seq<ApiKey>, right: seq<ApiKey>) returns (eq: bool)
    ensures eq <==> SameNamesAndExpirations(left, right)
  {
    if |left| != |right| {
      return false;
    }
    var i := 0;
    while i < |left|
      invariant 0 <= i <= |left|
      invariant forall j :: 0 <= j < i ==> left[j].name == right[j].name && left[j].expiration == right[j].expiration
    {
      if left[i].name != right[i].name || left[i].expiration != right[i].expiration {
        return false;
      }
      i := i + 1;
    }
    return true;
  }

  /** IDs and keys play no part in the comparison, and it is an equivalence. */
  lemma EqualIgnoresIdAndKey(left: seq<ApiKey>, other: seq<ApiKey>, right: seq<ApiKey>)
    requires |other| == |left|
    requires forall i :: 0 <= i < |left| ==> other[i] == left[i].(id := other[i].id, key := other[i].key)
    ensures SameNamesAndExpirations(left, right) <==> SameNamesAndExpirations(other, right)
    ensures SameNamesAndExpirations(left, left)
    ensures SameNamesAndExpirations(left, right) ==> SameNamesAndExpirations(right, left)
    ensures SameNamesAndExpirations(left, other) && SameNamesAndExpirations(other, right) ==>
      SameNamesAndExpirations(left, right)
  {
    if SameNamesAndExpirations(left, right) {
      forall i | 0 <= i < |other| ensures other[i].name == right[i].name && other[i].expiration == right[i].expiration {
        assert other[i].name == left[i].name;
      }
    }
  }

  // ------------------------------------------------- refresh, as written

  /** `stateKeysById`: each state ID to its position; a later duplicate wins. */
  function IndexById(state: seq<ApiKey>): (index: map<string, nat>)
    ensures forall id :: id in index ==> index[id] < |state| && StringOf(state[index[id]].id) == id
    ensures forall j :: 0 <= j < |state| ==> StringOf(state[j].id) in index
  {
    if |state| == 0 then map[]
    else IndexById(state[..|state| - 1])[StringOf(state[|state| - 1].id) := |state| - 1]
  }

  /** How many of the fetched keys are not in state. */
  function NewCount(index: map<string, nat>, fetched: seq<FetchedKey>): (n: nat)
    ensures n <= |fetched|
  {
    if |fetched| == 0 then 0
    else NewCount(index, fetched[..|fetched| - 1]) + (if fetched[|fetched| - 1].id in index then 0 else 1)
  }

  /** The slot the `i`th fetched key is written to: its state position, or
      the next free slot counting down from the end. */
  function Slot(index: map<string, nat>, fetched: seq<FetchedKey>, i: nat): int
    requires i < |fetched|
  {
    if fetched[i].id in index then index[fetched[i].id] else |fetched| - 1 - NewCount(index, fetched[..i])
  }

  /** The key written for a fetched key: the state's secret is passed through
      for a known key, and is unknown for a key created elsewhere. */
  function KeyFor(state: seq<ApiKey>, f: FetchedKey): ApiKey
  {
    var index := IndexById(state);
    ApiKey(Known(f.id), Known(f.name), f.expiration, if f.id in index then state[index[f.id]].key else Unknown)
  }

  /** Every write stays inside the result; otherwise the refresh panics. */
  predicate SlotsInRange(state: seq<ApiKey>, fetched: seq<FetchedKey>)
  {
    forall i :: 0 <= i < |fetched| ==> Slot(IndexById(state), fetched, i) < |fetched|
  }

  /** The result after the first `n` fetched keys have been written. */
  function Place(state: seq<ApiKey>, fetched: seq<FetchedKey>, n: nat): (r: seq<ApiKey>)
    requires n <= |fetched| && SlotsInRange(state, fetched)
    ensures |r| == |fetched|
  {
    if n == 0 then seq(|fetched|, _ => ZeroKey)
    else
      assert NewCount(IndexById(state), fetched[..n - 1]) <= n - 1;
      Place(state, fetched, n - 1)[Slot(IndexById(state), fetched, n - 1) := KeyFor(state, fetched[n - 1])]
  }

  /** `fetchAPIKeysAsState` after the fetch. The precondition is what a run
      needs to avoid an index-out-of-range panic. */
  method FetchApiKeysAsState(state: seq<ApiKey>, fetched: seq<FetchedKey>) returns (keys: seq<ApiKey>)
    requires SlotsInRange(state, fetched)
    ensures keys == Place(state, fetched, |fetched|)
  {
    if |fetched| == 0 {
      return [];
    }
    var index := IndexState(state);
    var apiKeys := seq(|fetched|, _ => ZeroKey);
    var newKeyIndex := |fetched| - 1;
    var i := 0;
    while i < |fetched|
      invariant 0 <= i <= |fetched|
      invariant apiKeys == Place(state, fetched, i)
      invariant newKeyIndex == |fetched| - 1 - NewCount(index, fetched[..i])
    {
      var f := fetched[i];
      var slot: int;
      var key: Value<string>;
      PlaceStep(state, fetched, i);
      if f.id in index {
        slot := index[f.id];
        key := state[slot].key;
      } else {
        slot := newKeyIndex;
        newKeyIndex := newKeyIndex - 1;
        key := Unknown;
      }
      apiKeys := apiKeys[slot := ApiKey(Known(f.id), Known(f.name), f.expiration, key)];
      i := i + 1;
    }
    keys := apiKeys;
  }

  /** One write of the refresh: the `i`th fetched key lands in its slot,
      which is inside the result, and a key not in state uses up one free
      slot. */
  lemma PlaceStep(state: seq<ApiKey>, fetched: seq<FetchedKey>, i: nat)
    requires i < |fetched| && SlotsInRange(state, fetched)
    ensures var index := IndexById(state);
      0 <= Slot(index, fetched, i) < |fetched| &&
      Place(state, fetched, i + 1) == Place(state, fetched, i)[Slot(index, fetched, i) := KeyFor(state, fetched[i])] &&
      NewCount(index, fetched[..i + 1]) == NewCount(index, fetched[..i]) + (if fetched[i].id in index then 0 else 1)
  {
    var index := IndexById(state);
    assert fetched[..i + 1][..i] == fetched[..i];
    assert NewCount(index, fetched[..i]) <= i;
  }

  /** The `stateKeysById` loop. */
  method IndexState(state: seq<ApiKey>) returns (index: map<string, nat>)
    ensures index == IndexById(state)
  {
    index := map[];
    var j := 0;
    while j < |state|
      invariant 0 <= j <= |state|
      invariant index == IndexById(state[..j])
    {
      assert state[..j + 1][..j] == state[..j];
      index := index[StringOf(state[j].id) := j];
      j := j + 1;
    }
    assert state[..|state|] == state;
  }

  /** The state IDs, as the map sees them. */
  function StateIds(state: seq<ApiKey>): seq<string>
  {
    seq(|state|, j requires 0 <= j < |state| => StringOf(state[j].id))
  }

  function FetchedIds(fetched: seq<FetchedKey>): seq<string>
  {
    seq(|fetched|, j requires 0 <= j < |fetched| => fetched[j].id)
  }

  predicate Distinct(s: seq<string>)
  {
    forall i, j :: 0 <= i < j < |s| ==> s[i] != s[j]
  }

  lemma {:induction false} IndexByIdDistinct(state: seq<ApiKey>, j: nat)
    requires Distinct(StateIds(state)) && j < |state|
    ensures IndexById(state)[StringOf(state[j].id)] == j
  {
    var index := IndexById(state);
    var i := index[StringOf(state[j].id)];
    assert StateIds(state)[i] == StateIds(state)[j];
  }

  /** An unchanged refresh: when the API lists the state's keys in the
      state's order, every key stays in place with its secret. */
  lemma {:induction false} RefreshKeepsUnchangedKeys(state: seq<ApiKey>, fetched: seq<FetchedKey>)
    requires |state| == |fetched| && StateIds(state) == FetchedIds(fetched) && Distinct(StateIds(state))
    ensures SlotsInRange(state, fetched)
    ensures forall j :: 0 <= j < |fetched| ==>
      Place(state, fetched, |fetched|)[j] == ApiKey(Known(fetched[j].id), Known(fetched[j].name), fetched[j].expiration, state[j].key)
  {
    forall i | 0 <= i < |fetched| ensures Slot(IndexById(state), fetched, i) == i {
      assert StateIds(state)[i] == fetched[i].id;
      IndexByIdDistinct(state, i);
    }
    PlaceInOrder(state, fetched, |fetched|);
    forall j | 0 <= j < |fetched| ensures KeyFor(state, fetched[j]) == ApiKey(Known(fetched[j].id), Known(fetched[j].name), fetched[j].expiration, state[j].key) {
      assert StateIds(state)[j] == fetched[j].id;
      IndexByIdDistinct(state, j);
    }
  }

  lemma {:induction false} PlaceInOrder(state: seq<ApiKey>, fetched: seq<FetchedKey>, n: nat)
    requires n <= |fetched|
    requires forall i :: 0 <= i < |fetched| ==> Slot(IndexById(state), fetched, i) == i
    ensures SlotsInRange(state, fetched)
    ensures forall j :: 0 <= j < |fetched| ==>
      Place(state, fetched, n)[j] == if j < n then KeyFor(state, fetched[j]) else ZeroKey
  {
    if n > 0 {
      PlaceInOrder(state, fetched, n - 1);
    }
  }

  /** Keys created elsewhere only: they fill the result from the end, so it
      lists them in reverse, each with an unknown secret. */
  lemma {:induction false} RefreshReversesNewKeys(state: seq<ApiKey>, fetched: seq<FetchedKey>)
    requires forall i :: 0 <= i < |fetched| ==> fetched[i].id !in IndexById(state)
    ensures SlotsInRange(state, fetched)
    ensures forall j :: 0 <= j < |fetched| ==>
      Place(state, fetched, |fetched|)[j] == KeyFor(state, fetched[|fetched| - 1 - j])
    ensures forall j :: 0 <= j < |fetched| ==> Place(state, fetched, |fetched|)[j].key == Unknown
  {
    forall i | 0 <= i < |fetched| ensures Slot(IndexById(state), fetched, i) == |fetched| - 1 - i {
      NewCountAllNew(IndexById(state), fetched[..i]);
    }
    PlaceReversed(state, fetched, |fetched|);
  }

  lemma {:induction false} NewCountAllNew(index: map<string, nat>, fetched: seq<FetchedKey>)
    requires forall i :: 0 <= i < |fetched| ==> fetched[i].id !in index
    ensures NewCount(index, fetched) == |fetched|
  {
    if |fetched| > 0 {
      NewCountAllNew(index, fetched[..|fetched| - 1]);
    }
  }

  lemma {:induction false} PlaceReversed(state: seq<ApiKey>, fetched: seq<FetchedKey>, n: nat)
    requires n <= |fetched|
    requires forall i :: 0 <= i < |fetched| ==> Slot(IndexById(state), fetched, i) == |fetched| - 1 - i
    ensures SlotsInRange(state, fetched)
    ensures forall j :: 0 <= j < |fetched| ==>
      Place(state, fetched, n)[j] == if |fetched| - n <= j then KeyFor(state, fetched[|fetched| - 1 - j]) else ZeroKey
  {
    if n > 0 {
      PlaceReversed(state, fetched, n - 1);
    }
  }

  /** Two keys a and b in state, b still listed and c created elsewhere: c is
      written over b's slot, b is lost, and slot 0 keeps the zero key. */
  lemma RefreshCollisionLosesKey()
    ensures var a := ApiKey(Known("a"), Known("A"), Null, Known("secret-a"));
      var b := ApiKey(Known("b"), Known("B"), Null, Known("secret-b"));
      var fetched := [FetchedKey("b", "B", Null), FetchedKey("c", "C", Null)];
      SlotsInRange([a, b], fetched) &&
      Place([a, b], fetched, 2) == [ZeroKey, ApiKey(Known("c"), Known("C"), Null, Unknown)]
  {
    var a := ApiKey(Known("a"), Known("A"), Null, Known("secret-a"));
    var b := ApiKey(Known("b"), Known("B"), Null, Known("secret-b"));
    var state := [a, b];
    var fetched := [FetchedKey("b", "B", Null), FetchedKey("c", "C", Null)];
    var index := IndexById(state);
    assert state[..1] == [a];
    assert IndexById([a]) == map["a" := 0];
    assert index == map["a" := 0, "b" := 1];
    assert fetched[..1] == [FetchedKey("b", "B", Null)];
    assert fetched[..0] == [];
    assert NewCount(index, fetched[..1]) == 0;
    assert Slot(index, fetched, 0) == 1;
    assert Slot(index, fetched, 1) == 1;
    assert SlotsInRange(state, fetched);
    var zeros := seq(2, _ => ZeroKey);
    assert Place(state, fetched, 0) == zeros;
    assert Place(state, fetched, 1) == zeros[1 := KeyFor(state, fetched[0])];
    assert KeyFor(state, fetched[1]) == ApiKey(Known("c"), Known("C"), Null, Unknown);
    assert Place(state, fetched, 2) == zeros[1 := KeyFor(state, fetched[0])][1 := KeyFor(state, fetched[1])];
  }

  /** Key a deleted elsewhere while b is kept: b's state position is past the
      end of the one-key result, so the refresh panics. */
  lemma RefreshOutOfRange()
    ensures var a := ApiKey(Known("a"), Known("A"), Null, Known("secret-a"));
      var b := ApiKey(Known("b"), Known("B"), Null, Known("secret-b"));
      !SlotsInRange([a, b], [FetchedKey("b", "B", Null)])
  {
    var a := ApiKey(Known("a"), Known("A"), Null, Known("secret-a"));
    var b := ApiKey(Known("b"), Known("B"), Null, Known("secret-b"));
    assert [a, b][..1] == [a];
    assert IndexById([a, b]) == map["a" := 0, "b" := 1];
    assert Slot(IndexById([a, b]), [FetchedKey("b", "B", Null)], 0) == 1;
  }


  // --------------------------------------------------- refresh, corrected

  /** The fetched keys by ID; a later duplicate wins. */
  function FetchedById(fetched: seq<FetchedKey>): (byId: map<string, FetchedKey>)
    ensures forall id :: id in byId ==> byId[id] in fetched && byId[id].id == id
    ensures forall i :: 0 <= i < |fetched| ==> fetched[i].id in byId
  {
    if |fetched| == 0 then map[]
    else FetchedById(fetched[..|fetched| - 1])[fetched[|fetched| - 1].id := fetched[|fetched| - 1]]
  }

  /** The key carries a listed ID with the name and expiration listed for it. */
  predicate AsListed(key: ApiKey, byId: map<string, FetchedKey>)
  {
    key.id.Known? && key.id.value in byId &&
    key.name == Known(byId[key.id.value].name) && key.expiration == byId[key.id.value].expiration
  }

  /** The key carries the ID, name and expiration of some listed key. */
  predicate CarriesListing(key: ApiKey, fetched: seq<FetchedKey>)
  {
    exists f :: f in fetched && key.id == Known(f.id) && key.name == Known(f.name) && key.expiration == f.expiration
  }

  /** The state keys the API still lists, in the order of the state, with the
      listed name and expiration and the state's secret. */
  function KeptInStateOrder(state: seq<ApiKey>, byId: map<string, FetchedKey>): (r: seq<ApiKey>)
    ensures forall k :: 0 <= k < |r| ==> AsListed(r[k], byId)
  {
    if |state| == 0 then []
    else
      var rest := KeptInStateOrder(state[..|state| - 1], byId);
      var id := StringOf(state[|state| - 1].id);
      if id in byId then rest + [ApiKey(Known(id), Known(byId[id].name), byId[id].expiration, state[|state| - 1].key)]
      else rest
  }

  /** The listed keys that are not in state, each with an unknown secret,
      in reverse listing order: the refresh fills them in from the end. */
  function CreatedElsewhere(index: map<string, nat>, fetched: seq<FetchedKey>): (r: seq<ApiKey>)
    ensures forall k :: 0 <= k < |r| ==> r[k].id.Known? && r[k].id.value !in index && r[k].key == Unknown
    ensures forall k :: 0 <= k < |r| ==> CarriesListing(r[k], fetched)
  {
    if |fetched| == 0 then []
    else
      var rest := CreatedElsewhere(index, fetched[..|fetched| - 1]);
      var f := fetched[|fetched| - 1];
      if f.id in index then rest else [ApiKey(Known(f.id), Known(f.name), f.expiration, Unknown)] + rest
  }

  /** What the refresh sets out to do: the listed keys in the order of the
      state, followed by the keys not in state, latest listed first. */
  function Ordered(state: seq<ApiKey>, fetched: seq<FetchedKey>): seq<ApiKey>
  {
    KeptInStateOrder(state, FetchedById(fetched)) + CreatedElsewhere(IndexById(state), fetched)
  }

  /** The refresh corrected: the keys in state come first, in the state's
      order, and the others after them in the order the code fills them in,
      so no slot is shared and none is out of range. */
  method FetchApiKeysAsStateCorrected(state: seq<ApiKey>, fetched: seq<FetchedKey>) returns (keys: seq<ApiKey>)
    ensures keys == Ordered(state, fetched)
  {
    var byId := IndexFetched(fetched);
    var index, kept := KeepInStateOrder(state, byId);
    var created := CollectCreatedElsewhere(index, fetched);
    keys := kept + created;
  }

  method IndexFetched(fetched: seq<FetchedKey>) returns (byId: map<string, FetchedKey>)
    ensures byId == FetchedById(fetched)
  {
    byId := map[];
    var i := 0;
    while i < |fetched|
      invariant 0 <= i <= |fetched|
      invariant byId == FetchedById(fetched[..i])
    {
      assert fetched[..i + 1][..i] == fetched[..i];
      byId := byId[fetched[i].id := fetched[i]];
      i := i + 1;
    }
    assert fetched[..|fetched|] == fetched;
  }

  /** One pass over the state: index it by ID and keep the listed keys. */
  method KeepInStateOrder(state: seq<ApiKey>, byId: map<string, FetchedKey>) returns (index: map<string, nat>, kept: seq<ApiKey>)
    ensures index == IndexById(state) && kept == KeptInStateOrder(state, byId)
  {
    index := map[];
    kept := [];
    var j := 0;
    while j < |state|
      invariant 0 <= j <= |state|
      invariant index == IndexById(state[..j])
      invariant kept == KeptInStateOrder(state[..j], byId)
    {
      assert state[..j + 1][..j] == state[..j];
      var id := StringOf(state[j].id);
      index := index[id := j];
      if id in byId {
        kept := kept + [ApiKey(Known(id), Known(byId[id].name), byId[id].expiration, state[j].key)];
      }
      j := j + 1;
    }
    assert state[..|state|] == state;
  }

  method CollectCreatedElsewhere(index: map<string, nat>, fetched: seq<FetchedKey>) returns (created: seq<ApiKey>)
    ensures created == CreatedElsewhere(index, fetched)
  {
    created := [];
    var i := 0;
    while i < |fetched|
      invariant 0 <= i <= |fetched|
      invariant created == CreatedElsewhere(index, fetched[..i])
    {
      assert fetched[..i + 1][..i] == fetched[..i];
      if fetched[i].id !in index {
        created := [ApiKey(Known(fetched[i].id), Known(fetched[i].name), fetched[i].expiration, Unknown)] + created;
      }
      i := i + 1;
    }
    assert fetched[..|fetched|] == fetched;
  }

  /** The result lists the key with the given ID. */
  predicate Lists(keys: seq<ApiKey>, id: string)
  {
    exists k :: 0 <= k < |keys| && keys[k].id == Known(id)
  }

  lemma {:induction false} KeptListsStateKey(state: seq<ApiKey>, byId: map<string, FetchedKey>, j: nat)
    requires j < |state| && StringOf(state[j].id) in byId
    ensures Lists(KeptInStateOrder(state, byId), StringOf(state[j].id))
  {
    var last := |state| - 1;
    var rest := KeptInStateOrder(state[..last], byId);
    if j == last {
      var r := KeptInStateOrder(state, byId);
      assert r[|r| - 1].id == Known(StringOf(state[j].id));
    } else {
      assert state[..last][j] == state[j];
      KeptListsStateKey(state[..last], byId, j);
      var k :| 0 <= k < |rest| && rest[k].id == Known(StringOf(state[j].id));
      assert KeptInStateOrder(state, byId)[k] == rest[k];
    }
  }

  lemma {:induction false} CreatedListsNewKey(index: map<string, nat>, fetched: seq<FetchedKey>, i: nat)
    requires i < |fetched| && fetched[i].id !in index
    ensures Lists(CreatedElsewhere(index, fetched), fetched[i].id)
  {
    var last := |fetched| - 1;
    var rest := CreatedElsewhere(index, fetched[..last]);
    var r := CreatedElsewhere(index, fetched);
    if i == last {
      assert r[0].id == Known(fetched[i].id);
    } else {
      assert fetched[..last][i] == fetched[i];
      CreatedListsNewKey(index, fetched[..last], i);
      var k :| 0 <= k < |rest| && rest[k].id == Known(fetched[i].id);
      if fetched[last].id in index {
        assert r[k] == rest[k];
      } else {
        assert r[k + 1] == rest[k];
      }
    }
  }

  /** The corrected refresh loses no key and invents none: every listed ID
      is in the result, every result ID was listed with the name and the
      expiration the result carries, and a key not in state has an unknown
      secret. */
  lemma OrderedKeepsEveryKey(state: seq<ApiKey>, fetched: seq<FetchedKey>)
    ensures forall i :: 0 <= i < |fetched| ==> Lists(Ordered(state, fetched), fetched[i].id)
    ensures var r := Ordered(state, fetched);
      forall k :: 0 <= k < |r| ==> CarriesListing(r[k], fetched)
    ensures var r := Ordered(state, fetched);
      forall k :: 0 <= k < |r| && r[k].id.value !in IndexById(state) ==> r[k].key == Unknown
  {
    OrderedListsEveryKey(state, fetched);
    OrderedCarriesListings(state, fetched);
    OrderedNewKeysUnknown(state, fetched);
  }

  lemma OrderedListsEveryKey(state: seq<ApiKey>, fetched: seq<FetchedKey>)
    ensures forall i :: 0 <= i < |fetched| ==> Lists(Ordered(state, fetched), fetched[i].id)
  {
    var byId := FetchedById(fetched);
    var index := IndexById(state);
    var kept := KeptInStateOrder(state, byId);
    var created := CreatedElsewhere(index, fetched);
    var r := Ordered(state, fetched);
    forall i | 0 <= i < |fetched| ensures Lists(r, fetched[i].id) {
      if fetched[i].id in index {
        var j := index[fetched[i].id];
        KeptListsStateKey(state, byId, j);
        var k :| 0 <= k < |kept| && kept[k].id == Known(fetched[i].id);
        assert r[k] == kept[k];
      } else {
        CreatedListsNewKey(index, fetched, i);
        var k :| 0 <= k < |created| && created[k].id == Known(fetched[i].id);
        assert r[|kept| + k] == created[k];
      }
    }
  }

  lemma OrderedCarriesListings(state: seq<ApiKey>, fetched: seq<FetchedKey>)
    ensures var r := Ordered(state, fetched);
      forall k :: 0 <= k < |r| ==> CarriesListing(r[k], fetched)
  {
    var byId := FetchedById(fetched);
    var kept := KeptInStateOrder(state, byId);
    var created := CreatedElsewhere(IndexById(state), fetched);
    var r := Ordered(state, fetched);
    forall k | 0 <= k < |r| ensures CarriesListing(r[k], fetched) {
      if k < |kept| {
        assert AsListed(kept[k], byId);
        var f := byId[kept[k].id.value];
        assert f in fetched;
      } else {
        assert r[k] == created[k - |kept|];
      }
    }
  }

  lemma OrderedNewKeysUnknown(state: seq<ApiKey>, fetched: seq<FetchedKey>)
    ensures var r := Ordered(state, fetched);
      forall k :: 0 <= k < |r| && r[k].id.value !in IndexById(state) ==> r[k].key == Unknown
  {
    var byId := FetchedById(fetched);
    var kept := KeptInStateOrder(state, byId);
    var r := Ordered(state, fetched);
    forall k | 0 <= k < |r| && r[k].id.value !in IndexById(state) ensures r[k].key == Unknown {
      if k < |kept| {
        KeptAreInState(state, byId, k);
      }
    }
  }

  lemma {:induction false} KeptAreInState(state: seq<ApiKey>, byId: map<string, FetchedKey>, k: nat)
    requires k < |KeptInStateOrder(state, byId)|
    ensures KeptInStateOrder(state, byId)[k].id.value in IndexById(state)
  {
    var last := |state| - 1;
    var rest := KeptInStateOrder(state[..last], byId);
    if k < |rest| {
      KeptAreInState(state[..last], byId, k);
      assert KeptInStateOrder(state, byId)[k] == rest[k];
    }
  }

  /** The key a listed key not in state becomes. */
  function NewKey(f: FetchedKey): ApiKey
  {
    ApiKey(Known(f.id), Known(f.name), f.expiration, Unknown)
  }

  /** With no listed key in state, the created keys are all of them,
      latest listed first. */
  lemma {:induction false} CreatedAllNew(index: map<string, nat>, fetched: seq<FetchedKey>)
    requires forall i :: 0 <= i < |fetched| ==> fetched[i].id !in index
    ensures var r := CreatedElsewhere(index, fetched);
      |r| == |fetched| && forall j :: 0 <= j < |r| ==> r[j] == NewKey(fetched[|fetched| - 1 - j])
  {
    if |fetched| > 0 {
      var front := fetched[..|fetched| - 1];
      CreatedAllNew(index, front);
      var rest := CreatedElsewhere(index, front);
      var r := CreatedElsewhere(index, fetched);
      assert r == [NewKey(fetched[|fetched| - 1])] + rest;
      forall j | 1 <= j < |r| ensures r[j] == NewKey(fetched[|fetched| - 1 - j]) {
        assert r[j] == rest[j - 1] == NewKey(front[|front| - 1 - (j - 1)]);
      }
    }
  }

  /** With every listed key in state, none is created. */
  lemma {:induction false} CreatedNoneNew(index: map<string, nat>, fetched: seq<FetchedKey>)
    requires forall i :: 0 <= i < |fetched| ==> fetched[i].id in index
    ensures CreatedElsewhere(index, fetched) == []
  {
    if |fetched| > 0 {
      CreatedNoneNew(index, fetched[..|fetched| - 1]);
    }
  }

  /** With no state key listed, none is kept. */
  lemma {:induction false} KeptNoneListed(state: seq<ApiKey>, byId: map<string, FetchedKey>)
    requires forall j :: 0 <= j < |state| ==> StringOf(state[j].id) !in byId
    ensures KeptInStateOrder(state, byId) == []
  {
    if |state| > 0 {
      KeptNoneListed(state[..|state| - 1], byId);
    }
  }

  /** With every state key listed, each is kept in place with its listing
      and its secret. */
  lemma {:induction false} KeptAllListed(state: seq<ApiKey>, byId: map<string, FetchedKey>)
    requires forall j :: 0 <= j < |state| ==> StringOf(state[j].id) in byId
    ensures var r := KeptInStateOrder(state, byId);
      |r| == |state| &&
      forall j :: 0 <= j < |r| ==>
        var id := StringOf(state[j].id);
        r[j] == ApiKey(Known(id), Known(byId[id].name), byId[id].expiration, state[j].key)
  {
    if |state| > 0 {
      var front := state[..|state| - 1];
      KeptAllListed(front, byId);
      var r := KeptInStateOrder(state, byId);
      forall j | 0 <= j < |r| - 1 ensures r[j] == KeptInStateOrder(front, byId)[j] && front[j] == state[j] {
      }
    }
  }

  /** With distinct IDs, each listed key is indexed under its own ID. */
  lemma {:induction false} FetchedByIdDistinct(fetched: seq<FetchedKey>, j: nat)
    requires Distinct(FetchedIds(fetched)) && j < |fetched|
    ensures FetchedById(fetched)[fetched[j].id] == fetched[j]
  {
    var last := |fetched| - 1;
    if j < last {
      var front := fetched[..last];
      assert Distinct(FetchedIds(front)) by {
        forall a, b | 0 <= a < b < |front| ensures FetchedIds(front)[a] != FetchedIds(front)[b] {
          assert FetchedIds(fetched)[a] != FetchedIds(fetched)[b];
        }
      }
      assert front[j] == fetched[j];
      assert FetchedIds(fetched)[j] != FetchedIds(fetched)[last];
      FetchedByIdDistinct(front, j);
    }
  }

  /** Where the refresh as written loses nothing, the corrected refresh gives
      the same list: when no listed key is in state, both give the new keys
      latest listed first. */
  lemma CorrectedAgreesWhenAllNew(state: seq<ApiKey>, fetched: seq<FetchedKey>)
    requires forall i :: 0 <= i < |fetched| ==> fetched[i].id !in IndexById(state)
    ensures SlotsInRange(state, fetched)
    ensures Ordered(state, fetched) == Place(state, fetched, |fetched|)
  {
    var index := IndexById(state);
    var byId := FetchedById(fetched);
    forall j | 0 <= j < |state| ensures StringOf(state[j].id) !in byId {
    }
    KeptNoneListed(state, byId);
    CreatedAllNew(index, fetched);
    RefreshReversesNewKeys(state, fetched);
  }

  /** ... and when the API lists exactly the state's keys in the state's
      order, both keep every key in place with its secret. */
  lemma CorrectedAgreesWhenUnchanged(state: seq<ApiKey>, fetched: seq<FetchedKey>)
    requires |state| == |fetched| && StateIds(state) == FetchedIds(fetched) && Distinct(StateIds(state))
    ensures SlotsInRange(state, fetched)
    ensures Ordered(state, fetched) == Place(state, fetched, |fetched|)
  {
    RefreshKeepsUnchangedKeys(state, fetched);
    UnchangedKeepsListing(state, fetched);
    UnchangedCreatesNothing(state, fetched);
    var kept := KeptInStateOrder(state, FetchedById(fetched));
    assert Ordered(state, fetched) == kept;
  }

  /** An unchanged listing keeps each state key in its own position. */
  lemma UnchangedKeepsListing(state: seq<ApiKey>, fetched: seq<FetchedKey>)
    requires |state| == |fetched| && StateIds(state) == FetchedIds(fetched) && Distinct(StateIds(state))
    ensures var r := KeptInStateOrder(state, FetchedById(fetched));
      |r| == |fetched| &&
      forall j :: 0 <= j < |r| ==> r[j] == ApiKey(Known(fetched[j].id), Known(fetched[j].name), fetched[j].expiration, state[j].key)
  {
    var byId := FetchedById(fetched);
    forall j | 0 <= j < |state| ensures StringOf(state[j].id) == fetched[j].id && byId[fetched[j].id] == fetched[j] {
      assert StateIds(state)[j] == FetchedIds(fetched)[j];
      FetchedByIdDistinct(fetched, j);
    }
    KeptAllListed(state, byId);
  }

  /** An unchanged listing creates no key. */
  lemma UnchangedCreatesNothing(state: seq<ApiKey>, fetched: seq<FetchedKey>)
    requires |state| == |fetched| && StateIds(state) == FetchedIds(fetched)
    ensures CreatedElsewhere(IndexById(state), fetched) == []
  {
    forall i | 0 <= i < |fetched| ensures fetched[i].id in IndexById(state) {
      assert StateIds(state)[i] == FetchedIds(fetched)[i];
    }
    CreatedNoneNew(IndexById(state), fetched);
  }

  /** The collision example refreshed correctly: b keeps its place and its
      secret, and c follows it. */
  lemma RefreshCollisionCorrected()
    ensures var a := ApiKey(Known("a"), Known("A"), Null, Known("secret-a"));
      var b := ApiKey(Known("b"), Known("B"), Null, Known("secret-b"));
      Ordered([a, b], [FetchedKey("b", "B", Null), FetchedKey("c", "C", Null)]) ==
        [b, ApiKey(Known("c"), Known("C"), Null, Unknown)]
  {
    var a := ApiKey(Known("a"), Known("A"), Null, Known("secret-a"));
    var b := ApiKey(Known("b"), Known("B"), Null, Known("secret-b"));
    var fetched := [FetchedKey("b", "B", Null), FetchedKey("c", "C", Null)];
    assert fetched[..1] == [FetchedKey("b", "B", Null)];
    var byId := FetchedById(fetched);
    assert byId == map["b" := fetched[0], "c" := fetched[1]];
    assert [a, b][..1] == [a];
    assert KeptInStateOrder([a], byId) == [];
    assert IndexById([a, b]) == map["a" := 0, "b" := 1];
    assert CreatedElsewhere(IndexById([a, b]), fetched[..1]) == [];
  }

  // ----------------------------------------------------------- update

  const ExpirationChanged := "Error updating api key expiration."
  const DeleteFailed := "Could not delete api key"

  function CreateFailed(name: string): string
  {
    "Could not create api key " + name
  }

  /** `api.CreateAPIKey` for a name and an expiration: the new key's ID and
      secret, or an error. A network call, so a parameter. */
  type Creator = (string, Value<string>) -> Result<(string, string)>

  /** `api.DeleteAPIKey` for an ID: the payload's success flag, or an error. */
  type Deleter = string -> Result<bool>

  /** `stateKeysByName`: each state key by its name; a later duplicate wins. */
  function KeysByName(state: seq<ApiKey>): (byName: map<string, ApiKey>)
    ensures forall name :: name in byName ==> byName[name] in state && StringOf(byName[name].name) == name
    ensures forall j :: 0 <= j < |state| ==> StringOf(state[j].name) in byName
  {
    if |state| == 0 then map[]
    else KeysByName(state[..|state| - 1])[StringOf(state[|state| - 1].name) := state[|state| - 1]]
  }

  /** The rebuild so far: the state keys not yet claimed by a plan key, the
      new key list, and the error summaries. */
  datatype Progress = Progress(byName: map<string, ApiKey>, keys: seq<ApiKey>, errors: seq<string>)

  /** One plan key, at position `i`. With `corrected` false this is the code
      as written: a changed expiration leaves the state key unclaimed, so it
      is deleted as an orphan afterwards. Corrected, the key is claimed and
      kept in its slot. */
  function Step(p: Progress, i: nat, planKey: ApiKey, create: Creator, corrected: bool): Progress
    requires i < |p.keys|
  {
    var name := StringOf(planKey.name);
    if name in p.byName then
      var stateKey := p.byName[name];
      if stateKey.expiration != planKey.expiration then
        if corrected then Progress(p.byName - {name}, p.keys[i := stateKey], p.errors + [ExpirationChanged])
        else p.(errors := p.errors + [ExpirationChanged])
      else Progress(p.byName - {name}, p.keys[i := stateKey], p.errors)
    else match create(name, planKey.expiration)
      case Err(_) => p.(errors := p.errors + [CreateFailed(name)])
      case Ok(created) => p.(keys := p.keys[i := ApiKey(Known(created.0), planKey.name, planKey.expiration, Known(created.1))])
  }

  /** The rebuild after the first `n` plan keys. */
  function Rebuilt(state: seq<ApiKey>, plan: seq<ApiKey>, create: Creator, n: nat, corrected: bool): (p: Progress)
    requires n <= |plan|
    ensures |p.keys| == |plan|
  {
    if n == 0 then Progress(KeysByName(state), seq(|plan|, _ => ZeroKey), [])
    else Step(Rebuilt(state, plan, create, n - 1, corrected), n - 1, plan[n - 1], create, corrected)
  }

  /** A deletion failed: an error, or a payload without success. */
  predicate DeleteFails(delete: Deleter, key: ApiKey)
  {
    match delete(StringOf(key.id))
    case Err(_) => true
    case Ok(success) => !success
  }

  function FailedDeletes(orphans: map<string, ApiKey>, delete: Deleter): set<string>
  {
    set name | name in orphans && DeleteFails(delete, orphans[name])
  }

  /** The orphans among `names` whose deletion fails. */
  function FailedAmong(orphans: map<string, ApiKey>, delete: Deleter, names: set<string>): set<string>
  {
    set name | name in names && name in orphans && DeleteFails(delete, orphans[name])
  }

  /** Attempting one more orphan adds one error exactly when its deletion
      fails. */
  lemma FailedAmongStep(orphans: map<string, ApiKey>, delete: Deleter, names: set<string>, name: string)
    requires name in orphans && name !in names
    ensures seq(|FailedAmong(orphans, delete, names + {name})|, _ => DeleteFailed) ==
      seq(|FailedAmong(orphans, delete, names)|, _ => DeleteFailed) + (if DeleteFails(delete, orphans[name]) then [DeleteFailed] else [])
  {
    var before := FailedAmong(orphans, delete, names);
    var after := FailedAmong(orphans, delete, names + {name});
    if DeleteFails(delete, orphans[name]) {
      assert after == before + {name};
      assert name !in before;
      assert |after| == |before| + 1;
    } else {
      assert after == before;
    }
  }

  lemma FailedAmongAll(orphans: map<string, ApiKey>, delete: Deleter, names: set<string>)
    requires names == orphans.Keys
    ensures FailedAmong(orphans, delete, names) == FailedDeletes(orphans, delete)
  {
  }

  /** The orphan loop: every unclaimed key is deleted, in map order (which Go
      leaves unspecified, so the choice here is arbitrary), and each failure
      adds one error. */
  method DeleteOrphans(orphans: map<string, ApiKey>, delete: Deleter) returns (attempted: set<string>, errors: seq<string>)
    ensures attempted == orphans.Keys
    ensures errors == seq(|FailedDeletes(orphans, delete)|, _ => DeleteFailed)
  {
    attempted := {};
    errors := [];
    var remaining := orphans.Keys;
    while remaining != {}
      invariant remaining !! attempted && remaining + attempted == orphans.Keys
      invariant errors == seq(|FailedAmong(orphans, delete, attempted)|, _ => DeleteFailed)
      decreases |remaining|
    {
      var name :| name in remaining;
      FailedAmongStep(orphans, delete, attempted, name);
      var result := delete(StringOf(orphans[name].id));
      if result.Err? || !result.value {
        errors := errors + [DeleteFailed];
      }
      attempted := attempted + {name};
      remaining := remaining - {name};
    }
    FailedAmongAll(orphans, delete, attempted);
  }

  method IndexByName(state: seq<ApiKey>) returns (byName: map<string, ApiKey>)
    ensures byName == KeysByName(state)
  {
    byName := map[];
    var j := 0;
    while j < |state|
      invariant 0 <= j <= |state|
      invariant byName == KeysByName(state[..j])
    {
      assert state[..j + 1][..j] == state[..j];
      byName := byName[StringOf(state[j].name) := state[j]];
      j := j + 1;
    }
    assert state[..|state|] == state;
  }

  /** The rebuild loop of `updateAPIKeys`: the plan keys in order, each
      claiming its state key by name or creating a new one. */
  method RebuildKeys(state: seq<ApiKey>, plan: seq<ApiKey>, create: Creator, corrected: bool)
    returns (byName: map<string, ApiKey>, keys: seq<ApiKey>, errors: seq<string>)
    ensures Progress(byName, keys, errors) == Rebuilt(state, plan, create, |plan|, corrected)
  {
    byName := IndexByName(state);
    keys := seq(|plan|, _ => ZeroKey);
    errors := [];
    var i := 0;
    while i < |plan|
      invariant 0 <= i <= |plan|
      invariant Progress(byName, keys, errors) == Rebuilt(state, plan, create, i, corrected)
    {
      var planKey := plan[i];
      var name := StringOf(planKey.name);
      if name in byName {
        var stateKey := byName[name];
        if stateKey.expiration != planKey.expiration {
          errors := errors + [ExpirationChanged];
          if corrected {
            keys := keys[i := stateKey];
            byName := byName - {name};
          }
        } else {
          keys := keys[i := stateKey];
          byName := byName - {name};
        }
      } else {
        var created := create(name, planKey.expiration);
        if created.Err? {
          errors := errors + [CreateFailed(name)];
        } else {
          keys := keys[i := ApiKey(Known(created.value.0), planKey.name, planKey.expiration, Known(created.value.1))];
        }
      }
      i := i + 1;
    }
  }

  /** The resource's key list, which the update rebuilds in place. */
  class ServiceAccount {
    var apiKeys: seq<ApiKey>

    constructor (keys: seq<ApiKey>)
      ensures apiKeys == keys
    {
      apiKeys := keys;
    }

    /** `updateAPIKeys`, as written: nothing happens when the lists compare
        equal; otherwise the list is rebuilt in the plan's order and every
        state key no plan key claimed is deleted. */
    method UpdateApiKeys(plan: seq<ApiKey>, create: Creator, delete: Deleter) returns (errors: seq<string>, deleted: set<string>)
      modifies this
      ensures SameNamesAndExpirations(old(apiKeys), plan) ==> apiKeys == old(apiKeys) && errors == [] && deleted == {}
      ensures !SameNamesAndExpirations(old(apiKeys), plan) ==>
        var p := Rebuilt(old(apiKeys), plan, create, |plan|, false);
        apiKeys == p.keys && deleted == p.byName.Keys &&
        errors == p.errors + seq(|FailedDeletes(p.byName, delete)|, _ => DeleteFailed)
    {
      errors, deleted := Update(plan, create, delete, false);
    }

    /** `updateAPIKeys` corrected: a key whose expiration was changed is
        reported and kept, not deleted. */
    method UpdateApiKeysCorrected(plan: seq<ApiKey>, create: Creator, delete: Deleter) returns (errors: seq<string>, deleted: set<string>)
      modifies this
      ensures SameNamesAndExpirations(old(apiKeys), plan) ==> apiKeys == old(apiKeys) && errors == [] && deleted == {}
      ensures !SameNamesAndExpirations(old(apiKeys), plan) ==>
        var p := Rebuilt(old(apiKeys), plan, create, |plan|, true);
        apiKeys == p.keys && deleted == p.byName.Keys &&
        errors == p.errors + seq(|FailedDeletes(p.byName, delete)|, _ => DeleteFailed)
    {
      errors, deleted := Update(plan, create, delete, true);
    }

    method Update(plan: seq<ApiKey>, create: Creator, delete: Deleter, corrected: bool) returns (errors: seq<string>, deleted: set<string>)
      modifies this
      ensures SameNamesAndExpirations(old(apiKeys), plan) ==> apiKeys == old(apiKeys) && errors == [] && deleted == {}
      ensures !SameNamesAndExpirations(old(apiKeys), plan) ==>
        var p := Rebuilt(old(apiKeys), plan, create, |plan|, corrected);
        apiKeys == p.keys && deleted == p.byName.Keys &&
        errors == p.errors + seq(|FailedDeletes(p.byName, delete)|, _ => DeleteFailed)
    {
      errors := [];
      deleted := {};
      var eq := Equal(apiKeys, plan);
      if eq {
        return;
      }
      var byName, keys, rebuildErrors := RebuildKeys(apiKeys, plan, create, corrected);
      apiKeys := keys;
      errors := rebuildErrors;
      var orphanErrors;
      deleted, orphanErrors := DeleteOrphans(byName, delete);
      errors := errors + orphanErrors;
    }
  }

  /** A plan key claims the state key of its name, so that it is not deleted:
      as written only when the expiration is unchanged. */
  predicate Claims(planKey: ApiKey, name: string, stateKey: ApiKey, corrected: bool)
  {
    StringOf(planKey.name) == name && (corrected || planKey.expiration == stateKey.expiration)
  }

  predicate ClaimedWithin(plan: seq<ApiKey>, n: nat, name: string, stateKey: ApiKey, corrected: bool)
    requires n <= |plan|
  {
    exists i :: 0 <= i < n && Claims(plan[i], name, stateKey, corrected)
  }

  /** One step removes exactly the name its plan key claims. */
  lemma StepClaims(p: Progress, i: nat, planKey: ApiKey, create: Creator, corrected: bool, name: string)
    requires i < |p.keys|
    ensures var q := Step(p, i, planKey, create, corrected);
      (name in q.byName <==> name in p.byName && !Claims(planKey, name, p.byName[name], corrected)) &&
      (name in q.byName ==> q.byName[name] == p.byName[name])
  {
  }

  /** A state key stays unclaimed, and so is deleted, exactly when no plan key
      claims it; unclaimed keys are the state's own. */
  lemma {:induction false} RebuiltUnclaimed(state: seq<ApiKey>, plan: seq<ApiKey>, create: Creator, n: nat, corrected: bool, name: string)
    requires n <= |plan|
    ensures var byName := Rebuilt(state, plan, create, n, corrected).byName; var initial := KeysByName(state);
      name in byName <==> name in initial && !ClaimedWithin(plan, n, name, initial[name], corrected)
    ensures var byName := Rebuilt(state, plan, create, n, corrected).byName;
      name in byName ==> byName[name] == KeysByName(state)[name]
  {
    var initial := KeysByName(state);
    if n > 0 {
      RebuiltUnclaimed(state, plan, create, n - 1, corrected, name);
      var p := Rebuilt(state, plan, create, n - 1, corrected);
      StepClaims(p, n - 1, plan[n - 1], create, corrected, name);
      if name in initial {
        var stateKey := initial[name];
        if ClaimedWithin(plan, n, name, stateKey, corrected) {
          var i :| 0 <= i < n && Claims(plan[i], name, stateKey, corrected);
          assert i < n - 1 ==> ClaimedWithin(plan, n - 1, name, stateKey, corrected);
        }
        assert ClaimedWithin(plan, n - 1, name, stateKey, corrected) ==> ClaimedWithin(plan, n, name, stateKey, corrected);
        assert Claims(plan[n - 1], name, stateKey, corrected) ==> ClaimedWithin(plan, n, name, stateKey, corrected);
      }
    }
  }

  /** Corrected, the deleted keys are exactly the state keys whose names the
      plan does not mention. */
  lemma UpdateCorrectedDeletesOnlyUnplanned(state: seq<ApiKey>, plan: seq<ApiKey>, create: Creator, name: string)
    ensures name in Rebuilt(state, plan, create, |plan|, true).byName <==>
      name in KeysByName(state) && forall i :: 0 <= i < |plan| ==> StringOf(plan[i].name) != name
  {
    RebuiltUnclaimed(state, plan, create, |plan|, true, name);
    if name in KeysByName(state) {
      forall i | 0 <= i < |plan| && StringOf(plan[i].name) == name
        ensures ClaimedWithin(plan, |plan|, name, KeysByName(state)[name], true)
      {
        assert Claims(plan[i], name, KeysByName(state)[name], true);
      }
    }
  }

  /** As written, a state key whose expiration the plan changes is deleted,
      although the plan still names it; corrected, it is kept. */
  lemma UpdateDeletesReExpiredKey(state: seq<ApiKey>, plan: seq<ApiKey>, create: Creator, j: nat, i: nat)
    requires j < |state| && i < |plan|
    requires forall k :: 0 <= k < |state| && k != j ==> StringOf(state[k].name) != StringOf(state[j].name)
    requires StringOf(plan[i].name) == StringOf(state[j].name)
    requires forall k :: 0 <= k < |plan| && StringOf(plan[k].name) == StringOf(state[j].name) ==>
      plan[k].expiration != state[j].expiration
    ensures StringOf(state[j].name) in Rebuilt(state, plan, create, |plan|, false).byName
    ensures StringOf(state[j].name) !in Rebuilt(state, plan, create, |plan|, true).byName
  {
    var name := StringOf(state[j].name);
    var initial := KeysByName(state);
    var k0 :| 0 <= k0 < |state| && state[k0] == initial[name];
    assert StringOf(state[k0].name) == name;
    RebuiltUnclaimed(state, plan, create, |plan|, false, name);
    RebuiltUnclaimed(state, plan, create, |plan|, true, name);
    assert Claims(plan[i], name, initial[name], true);
  }

  /** What the rebuild puts in the slot of a plan key whose name no other
      plan key shares. */
  function PlannedSlot(initial: map<string, ApiKey>, planKey: ApiKey, create: Creator, corrected: bool): ApiKey
  {
    var name := StringOf(planKey.name);
    if name in initial then
      if initial[name].expiration == planKey.expiration || corrected then initial[name] else ZeroKey
    else match create(name, planKey.expiration)
      case Err(_) => ZeroKey
      case Ok(created) => ApiKey(Known(created.0), planKey.name, planKey.expiration, Known(created.1))
  }

  predicate DistinctNames(plan: seq<ApiKey>)
  {
    forall i, j :: 0 <= i < j < |plan| ==> StringOf(plan[i].name) != StringOf(plan[j].name)
  }

  /** With distinct plan names the rebuilt list follows the plan: a key with
      an unchanged expiration is the state's key, a new name is the created
      key, and a failed creation or (as written) a changed expiration leaves
      the zero key. Slots not reached yet hold the zero key. */
  lemma RebuiltSlots(state: seq<ApiKey>, plan: seq<ApiKey>, create: Creator, n: nat, corrected: bool)
    requires n <= |plan| && DistinctNames(plan)
    ensures var keys := Rebuilt(state, plan, create, n, corrected).keys;
      forall i :: 0 <= i < |plan| ==>
        keys[i] == if i < n then PlannedSlot(KeysByName(state), plan[i], create, corrected) else ZeroKey
  {
    RebuiltPlanned(state, plan, create, n, corrected);
  }

  /** The planned slots of the first `n` plan keys, then zero keys. */
  function PlannedPrefix(initial: map<string, ApiKey>, plan: seq<ApiKey>, create: Creator, corrected: bool, n: nat): seq<ApiKey>
  {
    seq(|plan|, i requires 0 <= i < |plan| => if i < n then PlannedSlot(initial, plan[i], create, corrected) else ZeroKey)
  }

  lemma {:induction false} RebuiltPlanned(state: seq<ApiKey>, plan: seq<ApiKey>, create: Creator, n: nat, corrected: bool)
    requires n <= |plan| && DistinctNames(plan)
    ensures Rebuilt(state, plan, create, n, corrected).keys == PlannedPrefix(KeysByName(state), plan, create, corrected, n)
  {
    var initial := KeysByName(state);
    if n == 0 {
      assert Rebuilt(state, plan, create, 0, corrected).keys == PlannedPrefix(initial, plan, create, corrected, 0);
    } else {
      var slot := PlannedSlot(initial, plan[n - 1], create, corrected);
      RebuiltPlanned(state, plan, create, n - 1, corrected);
      PlannedPrefixStep(initial, plan, create, corrected, n);
      RebuiltStepPlans(state, plan, create, n, corrected);
      calc {
        Rebuilt(state, plan, create, n, corrected).keys;
        Rebuilt(state, plan, create, n - 1, corrected).keys[n - 1 := slot];
        PlannedPrefix(initial, plan, create, corrected, n - 1)[n - 1 := slot];
        PlannedPrefix(initial, plan, create, corrected, n);
      }
    }
  }

  lemma PlannedPrefixStep(initial: map<string, ApiKey>, plan: seq<ApiKey>, create: Creator, corrected: bool, n: nat)
    requires 0 < n <= |plan|
    ensures PlannedPrefix(initial, plan, create, corrected, n - 1)[n - 1] == ZeroKey
    ensures PlannedPrefix(initial, plan, create, corrected, n) ==
      PlannedPrefix(initial, plan, create, corrected, n - 1)[n - 1 := PlannedSlot(initial, plan[n - 1], create, corrected)]
  {
  }

  /** With distinct names, the `n`th plan key writes its planned slot. */
  lemma RebuiltStepPlans(state: seq<ApiKey>, plan: seq<ApiKey>, create: Creator, n: nat, corrected: bool)
    requires 0 < n <= |plan| && DistinctNames(plan)
    requires Rebuilt(state, plan, create, n - 1, corrected).keys[n - 1] == ZeroKey
    ensures Rebuilt(state, plan, create, n, corrected).keys ==
      Rebuilt(state, plan, create, n - 1, corrected).keys[n - 1 := PlannedSlot(KeysByName(state), plan[n - 1], create, corrected)]
  {
    var name := StringOf(plan[n - 1].name);
    var p := Rebuilt(state, plan, create, n - 1, corrected);
    assert forall i :: 0 <= i < n - 1 ==> StringOf(plan[i].name) != name;
    UnclaimedBeforeFirstUse(state, plan, create, n - 1, corrected, name);
    StepWritesPlannedSlot(p, n - 1, plan[n - 1], create, corrected, KeysByName(state));
  }

  /** A name no earlier plan key uses is still unclaimed, with its state key. */
  lemma UnclaimedBeforeFirstUse(state: seq<ApiKey>, plan: seq<ApiKey>, create: Creator, n: nat, corrected: bool, name: string)
    requires n <= |plan|
    requires forall i :: 0 <= i < n ==> StringOf(plan[i].name) != name
    ensures var byName := Rebuilt(state, plan, create, n, corrected).byName; var initial := KeysByName(state);
      (name in byName <==> name in initial) && (name in byName ==> byName[name] == initial[name])
  {
    RebuiltUnclaimed(state, plan, create, n, corrected, name);
    var initial := KeysByName(state);
    if name in initial {
      assert !ClaimedWithin(plan, n, name, initial[name], corrected);
    }
  }

  lemma StepWritesPlannedSlot(p: Progress, i: nat, planKey: ApiKey, create: Creator, corrected: bool, initial: map<string, ApiKey>)
    requires i < |p.keys|
    requires var name := StringOf(planKey.name);
      (name in p.byName <==> name in initial) && (name in p.byName ==> p.byName[name] == initial[name])
    requires p.keys[i] == ZeroKey
    ensures Step(p, i, planKey, create, corrected).keys == p.keys[i := PlannedSlot(initial, planKey, create, corrected)]
  {
  }

  /** The update as written, on a key whose expiration the plan changed:
      the slot is left zero, the key is deleted as an orphan, and a failed
      deletion adds its own error. */
  lemma UpdateAsWrittenLosesKey()
    ensures var state := [ApiKey(Known("x"), Known("n"), Known("2030-01-01T00:00:00+00:00"), Known("secret"))];
      var plan := [ApiKey(Unknown, Known("n"), Known("2031-01-01T00:00:00+00:00"), Unknown)];
      forall create: Creator {:trigger Rebuilt(state, plan, create, 1, false)} ::
        Rebuilt(state, plan, create, 1, false) == Progress(map["n" := state[0]], [ZeroKey], [ExpirationChanged]) &&
        Rebuilt(state, plan, create, 1, true) == Progress(map[], state, [ExpirationChanged])
  {
    var state := [ApiKey(Known("x"), Known("n"), Known("2030-01-01T00:00:00+00:00"), Known("secret"))];
    assert state[..0] == [];
    assert KeysByName(state) == map["n" := state[0]];
  }
}
